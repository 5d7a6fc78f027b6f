/** The chat client hook (`useWebSocket`): history restore, one live socket with
    automatic reconnection, optimistic sends and the voice-upload side channel.
    Network results are arguments of the event methods; the 3-second reconnect
    timer is a count of timers scheduled and not yet fired or cleared. */
module ChatClient {
  import opened Wrappers

  const TextMessage := "text_message"
  const AiMessage := "ai_message"
  const SessionCreated := "session_created"
  const ErrorType := "error"

  /** WebSocket close code for a normal closure; every other code reconnects. */
  const NormalClosure := 1000

  /** Close code a browser reports for a connection that failed before it opened,
      including one closed by the page while still connecting. */
  const AbnormalClosure := 1006

  const VoiceFileName := "voice.webm"
  const UploadFailed := "Failed to upload voice note"
  const UnknownError := "Unknown error"

  /** A chat message as the client holds it. `kind` is the JSON `type` field, kept as
      text: a parsed frame is stored whatever its type says. */
  datatype ChatMessage = ChatMessage(
    kind: string,
    content: Option<string>,
    sessionId: Option<string>,
    timestamp: Option<string>,
    error: Option<string>,
    details: Option<string>)

  /** One record of the active-session history endpoint. */
  datatype StoredMessage = StoredMessage(role: string, content: string, timestamp: string)

  /** Outcome of the history request: a 2xx body (`messages` may be absent), or a
      non-ok status or a thrown request, which the hook treats alike. */
  datatype HistoryResponse =
    | HistoryOk(sessionId: Option<string>, messages: Option<seq<StoredMessage>>)
    | HistoryFailed

  /** An inbound frame: JSON that parsed, or text that did not. */
  datatype Frame = Parsed(message: ChatMessage) | Malformed

  datatype ReadyState = Connecting | Open | Closing | Closed

  /** The text frame written to the socket. */
  datatype OutboundFrame = OutboundFrame(kind: string, content: string, sessionId: Option<string>)

  /** Outcome of the voice upload request. `Threw` covers a transport error and a
      response body that fails to parse; its message is absent when the thrown value
      is not an `Error`. */
  datatype UploadOutcome = Uploaded | NotOk | Threw(errorMessage: Option<string>)

  /** The multipart body of the voice upload (the audio itself is left out). */
  datatype VoiceUpload = VoiceUpload(fileName: string, sessionId: Option<string>)

  /** JavaScript truthiness of an optional string: absent and "" are both falsy. */
  function Truthy(s: Option<string>): (r: Option<string>)
    ensures r.Some? <==> s.Some? && s.value != ""
    ensures r.Some? ==> r == s
  {
    if s.Some? && s.value != "" then s else None
  }

  predicate Live(s: ReadyState) {
    s == Connecting || s == Open
  }

  // ---------------------------------------------------------------------------
  // History restore

  /** Roles the hook restores; every other role is dropped. */
  predicate Restorable(m: StoredMessage) {
    m.role == "user" || m.role == "assistant"
  }

  /** The client form of one restored record. */
  function Restored(sid: Option<string>, m: StoredMessage): ChatMessage {
    ChatMessage(if m.role == "user" then TextMessage else AiMessage,
                Some(m.content), sid, Some(m.timestamp), None, None)
  }

  /** The messages the hook builds from a history body, one push per restorable record. */
  function FormatHistory(sid: Option<string>, stored: seq<StoredMessage>): (r: seq<ChatMessage>)
    ensures |r| <= |stored|
    ensures forall k :: 0 <= k < |r| ==>
      r[k].sessionId == sid && (r[k].kind == TextMessage || r[k].kind == AiMessage)
  {
    if stored == [] then []
    else
      var last := stored[|stored| - 1];
      FormatHistory(sid, stored[..|stored| - 1]) + (if Restorable(last) then [Restored(sid, last)] else [])
  }

  /** The restorable records of a history, in order (a reference filter, written
      front to back). */
  function RestorableOf(stored: seq<StoredMessage>): seq<StoredMessage> {
    if stored == [] then []
    else (if Restorable(stored[0]) then [stored[0]] else []) + RestorableOf(stored[1..])
  }

  lemma {:induction false} RestorableOfSnoc(s: seq<StoredMessage>, m: StoredMessage)
    ensures RestorableOf(s + [m]) == RestorableOf(s) + (if Restorable(m) then [m] else [])
  {
    if s != [] {
      assert (s + [m])[1..] == s[1..] + [m];
      RestorableOfSnoc(s[1..], m);
    }
  }

  /** The restored list is exactly the restorable records, in their original order,
      each mapped by role (user to text_message, assistant to ai_message) and carrying
      the returned session id and its own content and timestamp. */
  lemma {:induction false} FormatHistoryKeepsOrder(sid: Option<string>, stored: seq<StoredMessage>)
    ensures |FormatHistory(sid, stored)| == |RestorableOf(stored)|
    ensures forall k :: 0 <= k < |RestorableOf(stored)| ==>
      var m := RestorableOf(stored)[k];
      FormatHistory(sid, stored)[k] == Restored(sid, m) &&
      (m.role == "user" <==> FormatHistory(sid, stored)[k].kind == TextMessage) &&
      (m.role == "assistant" <==> FormatHistory(sid, stored)[k].kind == AiMessage)
  {
    if stored != [] {
      var init, last := stored[..|stored| - 1], stored[|stored| - 1];
      assert stored == init + [last];
      FormatHistoryKeepsOrder(sid, init);
      RestorableOfSnoc(init, last);
    }
  }

  /** The push loop of the history restore. */
  method FormatHistoryMessages(sid: Option<string>, stored: seq<StoredMessage>)
    returns (formatted: seq<ChatMessage>)
    ensures formatted == FormatHistory(sid, stored)
  {
    formatted := [];
    var i := 0;
    while i < |stored|
      invariant 0 <= i <= |stored|
      invariant formatted == FormatHistory(sid, stored[..i])
    {
      var msg := stored[i];
      assert stored[..i + 1][..i] == stored[..i];
      if msg.role == "user" {
        formatted := formatted + [ChatMessage(TextMessage, Some(msg.content), sid, Some(msg.timestamp), None, None)];
      } else if msg.role == "assistant" {
        formatted := formatted + [ChatMessage(AiMessage, Some(msg.content), sid, Some(msg.timestamp), None, None)];
      }
      i := i + 1;
    }
    assert stored[..i] == stored;
  }

  /** The error entry appended when a voice upload fails. */
  function UploadError(outcome: UploadOutcome): (m: ChatMessage)
    requires !outcome.Uploaded?
    ensures m.kind == ErrorType && m.error == Some(UploadFailed)
    ensures m.content.None? && m.sessionId.None? && m.timestamp.None?
    ensures outcome.NotOk? ==> m.details == Some(UploadFailed)
    ensures outcome.Threw? && outcome.errorMessage.Some? ==> m.details == outcome.errorMessage
    ensures outcome.Threw? && outcome.errorMessage.None? ==> m.details == Some(UnknownError)
  {
    var details := if outcome.NotOk? then UploadFailed else outcome.errorMessage.GetOr(UnknownError);
    ChatMessage(ErrorType, None, None, None, Some(UploadFailed), Some(details))
  }

  // ---------------------------------------------------------------------------
  // The hook's state

  /** At most one socket is connecting or open, and it is the current one. */
  ghost predicate OnlyCurrentLive(sockets: seq<ReadyState>, current: Option<nat>) {
    && (current.Some? ==> current.value < |sockets|)
    && forall i :: 0 <= i < |sockets| && Live(sockets[i]) ==> current == Some(i)
  }

  lemma AtMostOneLive(sockets: seq<ReadyState>, current: Option<nat>, i: nat, j: nat)
    requires OnlyCurrentLive(sockets, current)
    requires i < |sockets| && j < |sockets| && Live(sockets[i]) && Live(sockets[j])
    ensures i == j
  {
  }

  class ChatClient {
    const userId: string
    const token: string
    /** Every socket this hook has created, by creation order; their handlers stay
        attached after the hook lets go of them. */
    var sockets: seq<ReadyState>
    /** `wsRef.current`: the index of the socket the hook holds, if any. */
    var current: Option<nat>
    var isConnected: bool
    var messages: seq<ChatMessage>
    var sessionId: Option<string>
    /** Reconnect timers scheduled and neither fired nor cleared. */
    var pendingReconnects: nat

    ghost predicate Valid()
      reads this
    {
      OnlyCurrentLive(sockets, current)
    }

    /** Whether `connect` would create a socket now. */
    predicate ConnectCreates()
      reads this
      requires Valid()
    {
      userId != "" && token != "" && !(current.Some? && Live(sockets[current.value]))
    }

    /** Whether `sendMessage` would transmit now. */
    predicate SocketOpen()
      reads this
      requires Valid()
    {
      current.Some? && sockets[current.value] == Open
    }

    constructor (userId: string, token: string)
      ensures Valid()
      ensures this.userId == userId && this.token == token
      ensures sockets == [] && current == None && !isConnected
      ensures messages == [] && sessionId == None && pendingReconnects == 0
    {
      this.userId := userId;
      this.token := token;
      sockets := [];
      current := None;
      isConnected := false;
      messages := [];
      sessionId := None;
      pendingReconnects := 0;
    }

    /** `loadHistory`: a successful response replaces the messages and the session id;
        missing credentials or a failed request leave both as they were. */
    method LoadHistory(response: HistoryResponse)
      requires Valid()
      modifies this
      ensures Valid()
      ensures sockets == old(sockets) && current == old(current) && isConnected == old(isConnected)
      ensures pendingReconnects == old(pendingReconnects)
      ensures (token == "" || userId == "" || response.HistoryFailed?) ==>
        messages == old(messages) && sessionId == old(sessionId)
      ensures token != "" && userId != "" && response.HistoryOk? ==>
        sessionId == response.sessionId &&
        messages == FormatHistory(response.sessionId, response.messages.GetOr([]))
    {
      if token == "" || userId == "" {
        return;
      }
      match response
      case HistoryFailed =>
      case HistoryOk(sid, stored) =>
        sessionId := sid;
        var formatted := FormatHistoryMessages(sid, stored.GetOr([]));
        messages := formatted;
    }

    /** `connect`: a no-op without credentials or while the held socket is connecting
        or open; otherwise a new connecting socket becomes the held one. */
    method Connect()
      requires Valid()
      modifies this
      ensures Valid()
      ensures isConnected == old(isConnected) && messages == old(messages)
      ensures sessionId == old(sessionId) && pendingReconnects == old(pendingReconnects)
      ensures old(ConnectCreates()) ==>
        sockets == old(sockets) + [Connecting] && current == Some(|old(sockets)|)
      ensures !old(ConnectCreates()) ==> sockets == old(sockets) && current == old(current)
    {
      if userId == "" || token == "" {
        return;
      }
      if current.Some? && (sockets[current.value] == Connecting || sockets[current.value] == Open) {
        return;
      }
      sockets := sockets + [Connecting];
      current := Some(|sockets| - 1);
    }

    /** Mount: restore the history, then connect. */
    method Mount(response: HistoryResponse)
      requires Valid()
      modifies this
      ensures Valid()
      ensures isConnected == old(isConnected) && pendingReconnects == old(pendingReconnects)
      ensures (token == "" || userId == "" || response.HistoryFailed?) ==>
        messages == old(messages) && sessionId == old(sessionId)
      ensures token != "" && userId != "" && response.HistoryOk? ==>
        sessionId == response.sessionId &&
        messages == FormatHistory(response.sessionId, response.messages.GetOr([]))
      ensures old(ConnectCreates()) ==>
        sockets == old(sockets) + [Connecting] && current == Some(|old(sockets)|)
      ensures !old(ConnectCreates()) ==> sockets == old(sockets) && current == old(current)
    {
      LoadHistory(response);
      Connect();
    }

    /** `onopen` of socket `i` (the browser fires it only on a connecting socket). */
    method OnOpen(i: nat)
      requires Valid()
      requires i < |sockets| && sockets[i] == Connecting
      modifies this
      ensures Valid()
      ensures sockets == old(sockets)[i := Open] && current == old(current)
      ensures isConnected
      ensures messages == old(messages) && sessionId == old(sessionId)
      ensures pendingReconnects == old(pendingReconnects)
    {
      sockets := sockets[i := Open];
      isConnected := true;
    }

    /** `onmessage`: a parsed frame is appended once, whatever its type; a
        `session_created` frame also adopts its session id (falsy becomes null).
        A malformed frame changes nothing. */
    method OnFrame(frame: Frame)
      requires Valid()
      modifies this
      ensures Valid()
      ensures sockets == old(sockets) && current == old(current)
      ensures isConnected == old(isConnected) && pendingReconnects == old(pendingReconnects)
      ensures frame.Malformed? ==> messages == old(messages) && sessionId == old(sessionId)
      ensures frame.Parsed? ==> messages == old(messages) + [frame.message]
      ensures frame.Parsed? && frame.message.kind == SessionCreated ==>
        sessionId == Truthy(frame.message.sessionId)
      ensures frame.Parsed? && frame.message.kind != SessionCreated ==> sessionId == old(sessionId)
    {
      match frame
      case Malformed =>
      case Parsed(data) =>
        if data.kind == SessionCreated {
          sessionId := Truthy(data.sessionId);
        }
        messages := messages + [data];
    }

    /** `onerror`: logged only; the close event that follows drives reconnection. */
    method OnError()
      ensures unchanged(this)
    {
    }

    /** `onclose` of socket `i` with `code`: disconnected, and exactly one reconnect
        timer is scheduled unless the closure was normal. */
    method OnClose(i: nat, code: int)
      requires Valid()
      requires i < |sockets| && sockets[i] != Closed
      modifies this
      ensures Valid()
      ensures sockets == old(sockets)[i := Closed] && current == old(current)
      ensures !isConnected
      ensures messages == old(messages) && sessionId == old(sessionId)
      ensures code == NormalClosure ==> pendingReconnects == old(pendingReconnects)
      ensures code != NormalClosure ==> pendingReconnects == old(pendingReconnects) + 1
    {
      sockets := sockets[i := Closed];
      isConnected := false;
      if code != NormalClosure {
        pendingReconnects := pendingReconnects + 1;
      }
    }

    /** The close event of socket `i` once its `onclose` handler has been removed:
        no handler runs, so only the socket's own state changes. */
    method CloseDetached(i: nat)
      requires Valid()
      requires i < |sockets| && sockets[i] != Closed
      modifies this
      ensures Valid()
      ensures sockets == old(sockets)[i := Closed] && current == old(current)
      ensures isConnected == old(isConnected) && messages == old(messages)
      ensures sessionId == old(sessionId) && pendingReconnects == old(pendingReconnects)
    {
      sockets := sockets[i := Closed];
    }

    /** The oldest reconnect timer fires and calls `connect`. */
    method ReconnectTimerFires()
      requires Valid()
      requires pendingReconnects > 0
      modifies this
      ensures Valid()
      ensures pendingReconnects == old(pendingReconnects) - 1
      ensures isConnected == old(isConnected) && messages == old(messages)
      ensures sessionId == old(sessionId)
      ensures old(ConnectCreates()) ==>
        sockets == old(sockets) + [Connecting] && current == Some(|old(sockets)|)
      ensures !old(ConnectCreates()) ==> sockets == old(sockets) && current == old(current)
    {
      pendingReconnects := pendingReconnects - 1;
      Connect();
    }

    /** Effect cleanup: clear the most recently scheduled timer, then close the held
        socket with code 1000 and let go of it. Afterwards no socket is live. */
    method Teardown()
      requires Valid()
      modifies this
      ensures Valid()
      ensures current == None
      ensures forall i :: 0 <= i < |sockets| ==> !Live(sockets[i])
      ensures |sockets| == |old(sockets)|
      ensures old(current).Some? && Live(old(sockets)[old(current).value]) ==>
        sockets == old(sockets)[old(current).value := Closing]
      ensures old(current).None? || !Live(old(sockets)[old(current).value]) ==> sockets == old(sockets)
      ensures pendingReconnects == if old(pendingReconnects) > 0 then old(pendingReconnects) - 1 else 0
      ensures isConnected == old(isConnected) && messages == old(messages)
      ensures sessionId == old(sessionId)
    {
      if pendingReconnects > 0 {
        pendingReconnects := pendingReconnects - 1;
      }
      if current.Some? {
        var i := current.value;
        if Live(sockets[i]) {
          sockets := sockets[i := Closing];
        }
        current := None;
      }
    }

    /** `sendMessage`: nothing unless the held socket is open; otherwise one frame is
        sent (with the session id only when one is set) and one text message with the
        same content is appended. */
    method SendMessage(content: string, now: string) returns (sent: Option<OutboundFrame>)
      requires Valid()
      modifies this
      ensures Valid()
      ensures sockets == old(sockets) && current == old(current)
      ensures isConnected == old(isConnected) && sessionId == old(sessionId)
      ensures pendingReconnects == old(pendingReconnects)
      ensures !old(SocketOpen()) ==> sent == None && messages == old(messages)
      ensures old(SocketOpen()) ==>
        sent == Some(OutboundFrame(TextMessage, content, Truthy(sessionId))) &&
        messages == old(messages) + [ChatMessage(TextMessage, Some(content), Truthy(sessionId), Some(now), None, None)]
    {
      if current.None? || sockets[current.value] != Open {
        return None;
      }
      sent := Some(OutboundFrame(TextMessage, content, Truthy(sessionId)));
      messages := messages + [ChatMessage(TextMessage, Some(content), Truthy(sessionId), Some(now), None, None)];
    }

    /** `uploadVoice`: the request carries the session id only when one is set; a
        failure appends exactly one error message and touches nothing else. */
    method UploadVoice(outcome: UploadOutcome) returns (request: VoiceUpload)
      requires Valid()
      modifies this
      ensures Valid()
      ensures request == VoiceUpload(VoiceFileName, Truthy(sessionId))
      ensures sockets == old(sockets) && current == old(current)
      ensures isConnected == old(isConnected) && sessionId == old(sessionId)
      ensures pendingReconnects == old(pendingReconnects)
      ensures outcome.Uploaded? ==> messages == old(messages)
      ensures !outcome.Uploaded? ==> messages == old(messages) + [UploadError(outcome)]
    {
      request := VoiceUpload(VoiceFileName, Truthy(sessionId));
      match outcome
      case Uploaded =>
      case NotOk =>
        messages := messages + [ChatMessage(ErrorType, None, None, None, Some(UploadFailed), Some(UploadFailed))];
      case Threw(errorMessage) =>
        var details := if errorMessage.Some? then errorMessage.value else UnknownError;
        messages := messages + [ChatMessage(ErrorType, None, None, None, Some(UploadFailed), Some(details))];
    }

    /** `clearMessages`: no messages and no session. */
    method ClearMessages()
      requires Valid()
      modifies this
      ensures Valid()
      ensures messages == [] && sessionId == None
      ensures sockets == old(sockets) && current == old(current)
      ensures isConnected == old(isConnected) && pendingReconnects == old(pendingReconnects)
    {
      messages := [];
      sessionId := None;
    }
  }

  /** Teardown of an open socket followed by the close event it provokes (code
      1000): with at most one timer pending beforehand, no reconnect remains
      scheduled and no socket is held. */
  method TeardownThenNormalClose(c: ChatClient)
    requires c.Valid() && c.pendingReconnects <= 1
    requires c.current.None? || c.sockets[c.current.value] != Connecting
    modifies c
    ensures c.Valid() && c.pendingReconnects == 0 && c.current == None
    ensures forall i :: 0 <= i < |c.sockets| ==> !Live(c.sockets[i])
  {
    var held := c.current;
    c.Teardown();
    if held.Some? && c.sockets[held.value] == Closing {
      c.OnClose(held.value, NormalClosure);
    }
  }

  /** Teardown while the held socket is still connecting, as written: `close(1000)`
      fails the connection, the close event reports 1006, the handler still attached
      schedules a reconnect, and when that timer fires `connect` finds no held socket
      and opens a new one after unmount. */
  method TeardownWhileConnecting(c: ChatClient)
    requires c.Valid() && c.pendingReconnects <= 1
    requires c.current.Some? && c.sockets[c.current.value] == Connecting
    requires c.userId != "" && c.token != ""
    modifies c
    ensures c.Valid() && c.pendingReconnects == 0
    ensures |c.sockets| == |old(c.sockets)| + 1 && c.sockets[|old(c.sockets)|] == Connecting
    ensures c.current == Some(|old(c.sockets)|)
  {
    var held := c.current.value;
    c.Teardown();
    c.OnClose(held, AbnormalClosure);
    c.ReconnectTimerFires();
  }

  /** Teardown as intended: the cleanup removes the socket's `onclose` handler before
      closing it, so whatever code the close event carries (1000 for an open socket,
      1006 for a connecting one) no reconnect is scheduled and nothing is held. */
  method TeardownDetached(c: ChatClient)
    requires c.Valid() && c.pendingReconnects <= 1
    modifies c
    ensures c.Valid() && c.pendingReconnects == 0 && c.current == None
    ensures forall i :: 0 <= i < |c.sockets| ==> !Live(c.sockets[i])
  {
    var held := c.current;
    c.Teardown();
    if held.Some? && c.sockets[held.value] == Closing {
      c.CloseDetached(held.value);
    }
  }

  /** Unmount before the history request resolves, as written: the cleanup runs
      first, but the pending `loadHistory().then(() => connect())` is not cancelled, so
      once the history arrives a socket is opened for the unmounted hook. */
  method UnmountBeforeHistoryArrives(c: ChatClient, response: HistoryResponse)
    requires c.Valid() && c.userId != "" && c.token != ""
    modifies c
    ensures c.Valid()
    ensures c.current == Some(|old(c.sockets)|) && c.sockets[|old(c.sockets)|] == Connecting
  {
    c.Teardown();
    c.LoadHistory(response);
    c.Connect();
  }

  /** The same late history arrival with the mount cancelled on cleanup (a flag the
      `then` callback checks before calling `connect`): once the cleanup has run, no
      socket is opened and none is held. */
  method UnmountBeforeHistoryArrivesCancelled(c: ChatClient, response: HistoryResponse)
    requires c.Valid() && c.userId != "" && c.token != ""
    modifies c
    ensures c.Valid() && c.current == None
    ensures |c.sockets| == |old(c.sockets)|
    ensures forall i :: 0 <= i < |c.sockets| ==> !Live(c.sockets[i])
  {
    c.Teardown();
    c.LoadHistory(response);
  }
}
