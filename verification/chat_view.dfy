/** The chat screen (`ChatInterface`): the input box and its send rule, the session
    list with deletion, voice recording with its duration counter, and the
    `m:ss` duration label. It drives the chat client hook. */
module ChatView {
  import opened Wrappers
  import opened Decimal
  import ChatClient

  // ---------------------------------------------------------------------------
  // Blank input and `String.prototype.trim`

  /** The characters `trim()` removes: white space and line terminators. */
  predicate IsWhitespace(c: char) {
    c == ' ' || c == '\t' || c == '\n' || c == '\r' || c == '\U{000B}' || c == '\U{000C}' ||
    c == '\U{00A0}' || c == '\U{1680}' || ('\U{2000}' <= c <= '\U{200A}') ||
    c == '\U{2028}' || c == '\U{2029}' || c == '\U{202F}' || c == '\U{205F}' ||
    c == '\U{3000}' || c == '\U{FEFF}'
  }

  predicate Blank(s: string) {
    forall i :: 0 <= i < |s| ==> IsWhitespace(s[i])
  }

  function TrimStart(s: string): string {
    if s != [] && IsWhitespace(s[0]) then TrimStart(s[1..]) else s
  }

  function TrimEnd(s: string): string {
    if s != [] && IsWhitespace(s[|s| - 1]) then TrimEnd(s[..|s| - 1]) else s
  }

  function Trim(s: string): string {
    TrimEnd(TrimStart(s))
  }

  lemma {:induction false} TrimStartBlank(s: string)
    ensures Blank(TrimStart(s)) <==> Blank(s)
    ensures TrimStart(s) == [] <==> Blank(s)
  {
    if s != [] && IsWhitespace(s[0]) {
      TrimStartBlank(s[1..]);
      assert forall i :: 1 <= i < |s| ==> s[i] == s[1..][i - 1];
    }
  }

  lemma {:induction false} TrimEndEmpty(s: string)
    ensures TrimEnd(s) == [] <==> Blank(s)
  {
    if s != [] && IsWhitespace(s[|s| - 1]) {
      TrimEndEmpty(s[..|s| - 1]);
      assert forall i :: 0 <= i < |s| - 1 ==> s[i] == s[..|s| - 1][i];
    }
  }

  /** `!s.trim()` holds exactly for the empty and the all-white-space inputs. */
  lemma TrimEmptyIffBlank(s: string)
    ensures Trim(s) == [] <==> Blank(s)
  {
    TrimStartBlank(s);
    TrimEndEmpty(TrimStart(s));
  }

  // ---------------------------------------------------------------------------
  // Control enablement

  predicate SendButtonEnabled(isConnected: bool, input: string, isRecording: bool) {
    !(!isConnected || Trim(input) == [] || isRecording)
  }

  predicate InputEnabled(isConnected: bool, isRecording: bool) {
    !(!isConnected || isRecording)
  }

  predicate MicButtonEnabled(isConnected: bool) {
    isConnected
  }

  /** The send button is enabled only when connected, not recording and the input is
      not blank; the mic button and the input are disabled whenever disconnected. */
  lemma ControlRules(isConnected: bool, input: string, isRecording: bool)
    ensures SendButtonEnabled(isConnected, input, isRecording) <==>
      isConnected && !Blank(input) && !isRecording
    ensures !isConnected ==> !MicButtonEnabled(isConnected) && !InputEnabled(isConnected, isRecording)
  {
    TrimEmptyIffBlank(input);
  }

  // ---------------------------------------------------------------------------
  // Session list

  /** One entry of the session list (only its id matters here). */
  datatype SessionSummary = SessionSummary(sessionId: string, title: string)

  /** `sessions.filter(s => s.session_id !== id)` */
  function WithoutSession(sessions: seq<SessionSummary>, id: string): (r: seq<SessionSummary>)
    ensures |r| <= |sessions|
    ensures forall x :: x in r ==> x in sessions && x.sessionId != id
    ensures forall x :: x in sessions && x.sessionId != id ==> x in r
  {
    if sessions == [] then []
    else (if sessions[0].sessionId != id then [sessions[0]] else []) + WithoutSession(sessions[1..], id)
  }

  /** Deleting keeps the remaining sessions in their order: filtering a concatenation
      filters each part. */
  lemma {:induction false} WithoutSessionAppend(a: seq<SessionSummary>, b: seq<SessionSummary>, id: string)
    ensures WithoutSession(a + b, id) == WithoutSession(a, id) + WithoutSession(b, id)
  {
    if a != [] {
      assert (a + b)[0] == a[0] && (a + b)[1..] == a[1..] + b;
      WithoutSessionAppend(a[1..], b, id);
    } else {
      assert a + b == b;
    }
  }

  /** Deleting an id no session has changes nothing. */
  lemma {:induction false} WithoutAbsentSession(sessions: seq<SessionSummary>, id: string)
    requires forall k :: 0 <= k < |sessions| ==> sessions[k].sessionId != id
    ensures WithoutSession(sessions, id) == sessions
  {
    if sessions != [] {
      WithoutAbsentSession(sessions[1..], id);
    }
  }

  // ---------------------------------------------------------------------------
  // Recording duration label

  /** `formatDuration`: minutes, a colon, and the seconds padded to two digits. */
  function FormatDuration(seconds: nat): string {
    NatToString(seconds / 60) + ":" + PadStart2(NatToString(seconds % 60))
  }

  /** The label reads back as the duration: the part after the colon is two digits
      worth 0..59, and sixty times the minutes plus the seconds is the input. */
  lemma FormatDurationReadsBack(seconds: nat)
    ensures var r := FormatDuration(seconds);
      && |r| >= 4 && r[|r| - 3] == ':'
      && AllDigits(r[..|r| - 3]) && AllDigits(r[|r| - 2..])
      && Value(r[|r| - 2..]) < 60
      && 60 * Value(r[..|r| - 3]) + Value(r[|r| - 2..]) == seconds
  {
    var m, s := NatToString(seconds / 60), NatToString(seconds % 60);
    NatToStringBelow100(seconds % 60);
    var p := PadStart2(s);
    var r := FormatDuration(seconds);
    assert r == m + ":" + p;
    assert r[..|r| - 3] == m;
    assert r[|r| - 2..] == p;
    ValueOfNatToString(seconds / 60);
    ValueOfNatToString(seconds % 60);
    ValueOfPadStart2(s);
  }

  // ---------------------------------------------------------------------------
  // The screen's state

  datatype RecorderState = Inactive | Recording | Paused

  class ChatView {
    const chat: ChatClient.ChatClient
    var inputValue: string
    var isRecording: bool
    var recordingDuration: nat
    /** `mediaRecorderRef.current` */
    var recorder: Option<RecorderState>
    /** Whether the one-second duration interval is running. */
    var ticking: bool
    var sessions: seq<SessionSummary>

    ghost predicate Valid()
      reads this, chat
    {
      chat.Valid()
    }

    constructor (chat: ChatClient.ChatClient)
      requires chat.Valid()
      ensures Valid() && this.chat == chat
      ensures inputValue == "" && !isRecording && recordingDuration == 0
      ensures recorder == None && !ticking && sessions == []
    {
      this.chat := chat;
      inputValue := "";
      isRecording := false;
      recordingDuration := 0;
      recorder := None;
      ticking := false;
      sessions := [];
    }

    /** `handleSend`: a blank input sends nothing and stays; otherwise the untrimmed text
        goes to `sendMessage` and the input is cleared, even when the socket was not
        open and the hook dropped the text. */
    method HandleSend(now: string) returns (sent: Option<ChatClient.OutboundFrame>)
      requires Valid()
      modifies this, chat
      ensures Valid()
      ensures isRecording == old(isRecording) && sessions == old(sessions)
      ensures recorder == old(recorder) && ticking == old(ticking)
      ensures recordingDuration == old(recordingDuration)
      ensures chat.sessionId == old(chat.sessionId) && chat.isConnected == old(chat.isConnected)
      ensures chat.sockets == old(chat.sockets) && chat.current == old(chat.current)
      ensures chat.pendingReconnects == old(chat.pendingReconnects)
      ensures Blank(old(inputValue)) ==>
        sent == None && inputValue == old(inputValue) && chat.messages == old(chat.messages)
      ensures !Blank(old(inputValue)) ==> inputValue == ""
      ensures !Blank(old(inputValue)) && old(chat.SocketOpen()) ==>
        sent == Some(ChatClient.OutboundFrame(ChatClient.TextMessage, old(inputValue), ChatClient.Truthy(chat.sessionId))) &&
        chat.messages == old(chat.messages) +
          [ChatClient.ChatMessage(ChatClient.TextMessage, Some(old(inputValue)), ChatClient.Truthy(chat.sessionId), Some(now), None, None)]
      ensures !old(chat.SocketOpen()) ==> sent == None && chat.messages == old(chat.messages)
    {
      TrimEmptyIffBlank(inputValue);
      if Trim(inputValue) == [] {
        return None;
      }
      sent := chat.SendMessage(inputValue, now);
      inputValue := "";
    }

    /** `handleDeleteSession`: a successful delete drops exactly the sessions with that
        id; a failed one changes nothing. The result says whether it then calls
        `startNewChat`, which the hook does not provide: that call throws, the error is
        caught and logged, and nothing further changes. */
    method HandleDeleteSession(id: string, deleted: bool) returns (startNewChatCalled: bool)
      requires Valid()
      modifies this
      ensures Valid()
      ensures inputValue == old(inputValue) && isRecording == old(isRecording)
      ensures recordingDuration == old(recordingDuration)
      ensures recorder == old(recorder) && ticking == old(ticking)
      ensures !deleted ==> sessions == old(sessions) && !startNewChatCalled
      ensures deleted ==> sessions == WithoutSession(old(sessions), id)
      ensures startNewChatCalled <==> deleted && chat.sessionId == Some(id)
    {
      if !deleted {
        return false;
      }
      sessions := WithoutSession(sessions, id);
      startNewChatCalled := chat.sessionId == Some(id);
    }

    /** `startRecording`: with microphone access the recorder starts, the duration is
        reset to 0 and the interval runs; without it only an alert is shown. */
    method StartRecording(micGranted: bool)
      requires Valid() && !isRecording
      modifies this
      ensures Valid()
      ensures inputValue == old(inputValue) && sessions == old(sessions)
      ensures micGranted ==>
        recorder == Some(Recording) && isRecording && recordingDuration == 0 && ticking
      ensures !micGranted ==>
        recorder == old(recorder) && isRecording == old(isRecording) &&
        recordingDuration == old(recordingDuration) && ticking == old(ticking)
    {
      if micGranted {
        recorder := Some(Recording);
        isRecording := true;
        recordingDuration := 0;
        ticking := true;
      }
    }

    /** One tick of the duration interval. */
    method Tick()
      requires Valid() && ticking
      modifies this
      ensures Valid()
      ensures recordingDuration == old(recordingDuration) + 1
      ensures ticking && recorder == old(recorder) && isRecording == old(isRecording)
      ensures inputValue == old(inputValue) && sessions == old(sessions)
    {
      recordingDuration := recordingDuration + 1;
    }

    /** `stopRecording`: acts only when a recorder exists and is not inactive; then it
        stops it, clears the flag, resets the duration to 0 and stops the interval. */
    method StopRecording() returns (stopped: bool)
      requires Valid()
      modifies this
      ensures Valid()
      ensures inputValue == old(inputValue) && sessions == old(sessions)
      ensures stopped <==> old(recorder).Some? && old(recorder).value != Inactive
      ensures stopped ==>
        recorder == Some(Inactive) && !isRecording && recordingDuration == 0 && !ticking
      ensures !stopped ==>
        recorder == old(recorder) && isRecording == old(isRecording) &&
        recordingDuration == old(recordingDuration) && ticking == old(ticking)
    {
      stopped := recorder.Some? && recorder.value != Inactive;
      if stopped {
        recorder := Some(Inactive);
        isRecording := false;
        recordingDuration := 0;
        ticking := false;
      }
    }

    /** The recorder's `onstop`: the recorded audio goes to `uploadVoice`. */
    method OnRecorderStop(outcome: ChatClient.UploadOutcome) returns (request: ChatClient.VoiceUpload)
      requires Valid()
      modifies chat
      ensures Valid()
      ensures request == ChatClient.VoiceUpload(ChatClient.VoiceFileName, ChatClient.Truthy(chat.sessionId))
      ensures chat.isConnected == old(chat.isConnected) && chat.sessionId == old(chat.sessionId)
      ensures chat.sockets == old(chat.sockets) && chat.current == old(chat.current)
      ensures chat.pendingReconnects == old(chat.pendingReconnects)
      ensures outcome.Uploaded? ==> chat.messages == old(chat.messages)
      ensures !outcome.Uploaded? ==> chat.messages == old(chat.messages) + [ChatClient.UploadError(outcome)]
    {
      request := chat.UploadVoice(outcome);
    }
  }
}
