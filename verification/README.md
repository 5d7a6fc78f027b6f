# AgriLink CRM: a verified model of the chat client and its surroundings

This project models the core of AgriLink CRM, a marketplace that links farmers and
buyers. The model covers:

- The **AI chat client**, as a state machine. The `useWebSocket` hook tracks sockets and their ready states, the connection flag, the message list, the session id and the pending reconnect timers. The chat screen adds the input box, the session list, voice recording and its duration label.
- The **server connection registry**, a map from user id to socket. Each method is one atomic step, and whether a close or send fails is an argument.
- **Backend state transitions** over abstract stores:
  - the purge of inactive web-chat sessions;
  - payment initialisation and the provider webhook, with an uninterpreted signer standing for HMAC-SHA512;
  - the access and update rules of the logistics endpoints.
- **Small frontend helpers**:
  - the bearer-token interceptors and the token store in `localStorage`;
  - `truncate` and the relative-time wording;
  - the OTP sanitiser;
  - the quality-indicator list of the produce form;
  - the listing query parameters and the price fallback;
  - the transaction status table and the counts above it.

Where the source changes state in place, the model is a class. Examples are the hook (`ChatClient.ChatClient`), the chat screen (`ChatView.ChatView`), the registry (`ConnectionRegistry.ConnectionManager`), the session table, the payment and logistics stores, and `localStorage`. Each method's postcondition ties the new state to the old one. For the backend stores, the method is also tied to a pure function of the old store. Lemmas about those functions state what the endpoints promise.

Network answers are arguments of the methods that await them: the history response, the upload outcome, the provider reply, the HTTP status of a failed call. So are the clock, the generated identifiers and whether the database raises.

Modules, one file each: `Wrappers`, `Decimal` (decimal text of numbers), `ChatClient`, `ChatView`, `ConnectionRegistry`, `SessionCleanup`, `Payments`, `Logistics`, `ApiClient`, `TextUtils`, `OtpVerify`, `ProduceForm`, `ProduceList`, `TransactionsView`.

## Model

| member | source | states |
|---|---|---|
| ChatClient.Truthy | frontend/hooks/useWebSocket.ts:122 | `x \|\| null` on an optional string: present and non-empty stays, anything else becomes absent |
| ChatClient.FormatHistory | frontend/hooks/useWebSocket.ts:62-81 | the restored list is no longer than the history, and every entry carries the returned session id and is a text or AI message |
| ChatClient.FormatHistoryKeepsOrder | frontend/hooks/useWebSocket.ts:62-81 | the restored list is exactly the user and assistant records, in their original order: user becomes text_message, assistant becomes ai_message, and each keeps its content and timestamp |
| ChatClient.FormatHistoryMessages | frontend/hooks/useWebSocket.ts:62-81 | the push loop builds exactly the restored list |
| ChatClient.UploadError | frontend/hooks/useWebSocket.ts:211-224 | a failed upload yields one error entry "Failed to upload voice note". Its details are that text for a non-ok response, the thrown message for an exception, or "Unknown error" |
| ChatClient.AtMostOneLive | frontend/hooks/useWebSocket.ts:99-103 | under the hook's invariant, no two sockets are connecting or open at once |
| ChatClient.ChatClient.constructor | frontend/hooks/useWebSocket.ts:30-34 | the hook starts with no socket, disconnected, no messages, no session and no timer |
| ChatClient.ChatClient.LoadHistory | frontend/hooks/useWebSocket.ts:37-91 | a successful load replaces (does not append to) the messages and sets the session id. Missing credentials or a failed load leave both unchanged |
| ChatClient.ChatClient.Connect | frontend/hooks/useWebSocket.ts:93-154 | no-op without credentials or while the held socket is connecting or open. Otherwise one new connecting socket becomes the held one. At most one socket is ever live |
| ChatClient.ChatClient.Mount | frontend/hooks/useWebSocket.ts:156-157 | mounting loads the history and then connects. A successful load replaces the messages and the session id, and a failed one or missing credentials leave both. The socket then follows the `connect` rule |
| ChatClient.ChatClient.OnOpen | frontend/hooks/useWebSocket.ts:110-113 | opening marks that socket open and sets the connected flag, nothing else |
| ChatClient.ChatClient.OnFrame | frontend/hooks/useWebSocket.ts:115-130 | a parsed frame is appended exactly once at the end, whatever its type. session_created also sets the session id, with falsy becoming null. A malformed frame changes nothing |
| ChatClient.ChatClient.OnError | frontend/hooks/useWebSocket.ts:132-134 | an error event changes no state |
| ChatClient.ChatClient.OnClose | frontend/hooks/useWebSocket.ts:136-150 | a close marks the socket closed and clears the flag. Code 1000 schedules no reconnect; any other code schedules exactly one |
| ChatClient.ChatClient.ReconnectTimerFires | frontend/hooks/useWebSocket.ts:143-146 | a firing timer is consumed and behaves as `connect` |
| ChatClient.ChatClient.Teardown | frontend/hooks/useWebSocket.ts:159-168 | cleanup clears the latest timer, closes the held socket with 1000 and lets go of it. No socket is live afterwards |
| ChatClient.ChatClient.SendMessage | frontend/hooks/useWebSocket.ts:171-193 | nothing is sent or appended unless the held socket is open. Otherwise one frame is sent, with the session id only when one is set, and one text_message with the same content is appended |
| ChatClient.ChatClient.UploadVoice | frontend/hooks/useWebSocket.ts:195-226 | the upload carries the session id only when one is set. A failure appends exactly one error entry and touches nothing else; a success leaves the messages unchanged |
| ChatClient.ChatClient.ClearMessages | frontend/hooks/useWebSocket.ts:228-231 | no messages and a null session id, with the connection untouched |
| ChatClient.TeardownThenNormalClose | frontend/hooks/useWebSocket.ts:136-168 | when the held socket is open (or there is none), teardown and the code-1000 close it causes leave no socket held, none live and no reconnect pending |
| ChatClient.TeardownWhileConnecting | frontend/hooks/useWebSocket.ts:93-168 | as written, teardown of a still-connecting socket gets a 1006 close. That schedules a reconnect, whose `connect` opens a new connecting socket after unmount, and the hook holds it |
| ChatClient.ChatClient.CloseDetached | frontend/hooks/useWebSocket.ts:159-168 | a close event on a socket whose `onclose` was removed changes only that socket's state |
| ChatClient.TeardownDetached | frontend/hooks/useWebSocket.ts:159-168 | cleanup that removes `onclose` before closing leaves no socket held, none live and no reconnect pending, whatever code the close carries |
| ChatClient.UnmountBeforeHistoryArrives | frontend/hooks/useWebSocket.ts:156-168 | as written, an unmount before the history arrives does not cancel `then(connect)`, so a connecting socket is held afterwards |
| ChatClient.UnmountBeforeHistoryArrivesCancelled | frontend/hooks/useWebSocket.ts:156-168 | with the mount cancelled on cleanup, a late history opens no socket: none is held and none is live |
| ChatView.TrimEmptyIffBlank | frontend/components/ChatInterface.tsx:86 | `trim()` gives "" exactly when the input is empty or all white space |
| ChatView.ControlRules | frontend/components/ChatInterface.tsx:289-306 | send is enabled iff connected, the input is not blank and no recording is running. Mic and input are disabled whenever disconnected |
| ChatView.WithoutSession | frontend/components/ChatInterface.tsx:63 | deletion keeps exactly the sessions with a different id |
| ChatView.WithoutSessionAppend | frontend/components/ChatInterface.tsx:63 | deletion filters piece by piece, so the kept sessions keep their order |
| ChatView.WithoutAbsentSession | frontend/components/ChatInterface.tsx:63 | deleting an id no session has leaves the list as it was |
| ChatView.FormatDurationReadsBack | frontend/components/ChatInterface.tsx:145-149 | the label is minutes, ":" and two digits. The seconds part is 00..59, and 60·m + ss is the duration |
| ChatView.ChatView.constructor | frontend/components/ChatInterface.tsx:14-22 | the screen starts with an empty input, no recorder, no recording and no sessions |
| ChatView.ChatView.HandleSend | frontend/components/ChatInterface.tsx:85-90 | a blank input sends nothing and is kept. Otherwise the untrimmed text goes to `sendMessage` and the input is cleared. The recording state, the session list, the held socket and the reconnect timers are unchanged |
| ChatView.ChatView.HandleDeleteSession | frontend/components/ChatInterface.tsx:54-72 | a successful delete removes exactly that id's sessions and a failed one nothing. A new chat is attempted iff the deleted id is the current session. Input and recording state are unchanged |
| ChatView.ChatView.StartRecording | frontend/components/ChatInterface.tsx:99-131 | with microphone access, recording starts with the duration reset to 0 and the counter running. Without it nothing changes. Offered only while not recording |
| ChatView.ChatView.Tick | frontend/components/ChatInterface.tsx:123-125 | each tick adds one second |
| ChatView.ChatView.StopRecording | frontend/components/ChatInterface.tsx:133-143 | stop acts only when a recorder exists and is not inactive. It then resets the duration to 0 and stops the counter |
| ChatView.ChatView.OnRecorderStop | frontend/components/ChatInterface.tsx:109-115 | the recording is handed to `uploadVoice` with its outcome. The error entry is appended only on failure, and the socket state, timers, flag and session id are unchanged |
| Decimal.NatToString | frontend/components/ChatInterface.tsx:148 | `toString()` of a whole number gives digits only, without a leading zero |
| Decimal.PadStart2 | frontend/components/ChatInterface.tsx:148 | `padStart(2, '0')` leaves two or more characters alone and otherwise left-fills with zeros to two |
| ConnectionRegistry.Skipped | backend/app/services/websocket_manager.py:55 | `exclude_user` skips its user only when it is truthy |
| ConnectionRegistry.ConnectionManager.constructor | backend/app/services/websocket_manager.py:15-17 | the registry starts empty |
| ConnectionRegistry.ConnectionManager.Connect | backend/app/services/websocket_manager.py:19-30 | the new socket replaces the user's entry and no other entry changes. Close is attempted on the previous socket, and a failing close does not prevent the replacement |
| ConnectionRegistry.ConnectionManager.Disconnect | backend/app/services/websocket_manager.py:32-36 | removes the user if present and touches no other key |
| ConnectionRegistry.ConnectionManager.SendPersonalMessage | backend/app/services/websocket_manager.py:38-48 | an absent user changes nothing. A failing send drops exactly that user; a successful one changes nothing |
| ConnectionRegistry.ConnectionManager.Broadcast | backend/app/services/websocket_manager.py:50-66 | every connected user but a truthy exclude is sent to. Exactly those whose send failed are removed, and the excluded user is kept as is |
| ConnectionRegistry.ConnectionManager.GetConnectedUsers | backend/app/services/websocket_manager.py:68-74 | every connected user (`is_connected`) exactly once, and nobody else |
| SessionCleanup.Purged | backend/app/tasks/cleanup_sessions.py:22-28 | exactly the web chats active strictly before the cutoff disappear. Non-web sessions and those at or after the cutoff are kept unchanged |
| SessionCleanup.PurgedSize | backend/app/tasks/cleanup_sessions.py:25-30 | the number of matches is the number of sessions that disappear |
| SessionCleanup.PurgeIdempotent | backend/app/tasks/cleanup_sessions.py:22-28 | a second purge with the same cutoff finds and removes nothing |
| SessionCleanup.CleanupInactiveSessions | backend/app/tasks/cleanup_sessions.py:13-51 | deletes the matches and returns their number, committing only when there were any. A raising database rolls back to the old store and returns 0. The window defaults to 7 days |
| Payments.PaymentReference | backend/app/api/endpoints/payments.py:52 | the reference is "pay_" followed by the first 12 hex digits of the uuid |
| Payments.InitializeOutcomes | backend/app/api/endpoints/payments.py:33-111 | unknown transaction: 404. Already paid: the "already paid" answer. Provider throws: 500 with its message. Provider refuses: 400. None of these write. An accepted call answers with the provider's URL and access code. It creates exactly one record: PAYSTACK, NGN, PENDING, for the total, under the new reference, keeping the access code. It moves the transaction to PAYMENT_INITIATED and touches nothing else |
| Payments.WebhookSignatureGate | backend/app/api/endpoints/payments.py:125-140 | with a secret set, a missing or mismatching signature is refused with 400 before any lookup or write |
| Payments.WebhookWithoutRecordWritesNothing | backend/app/api/endpoints/payments.py:155-166 | no reference: ignored. Unknown reference: an error answer. Neither writes |
| Payments.DispatchEvents | backend/app/api/endpoints/payments.py:168-198 | charge.success makes the record SUCCESS with the payload kept, and its transaction PAYMENT_CONFIRMED, with every other field and transaction unchanged. charge.failed makes the record FAILED with the payload kept, and leaves transactions alone. Other events write nothing. Other records are never touched |
| Payments.WebhookReplayIdempotent | backend/app/api/endpoints/payments.py:169-192 | replaying a delivery gives the same answer and the same store |
| Payments.PaymentStore.InitializePayment | backend/app/api/endpoints/payments.py:24-111 | the endpoint's writes produce the answer and store of the initialisation rules |
| Payments.PaymentStore.VerifyPaymentWebhook | backend/app/api/endpoints/payments.py:113-198 | the webhook's writes produce the answer and store of the webhook rules |
| Logistics.RequestLogisticsRules | backend/app/api/endpoints/logistics.py:31-54 | unknown transaction: 404. Non-party: 403. Neither writes. A buyer or seller gets a record equal to the request plus itself as requester, stored under the new id with no other record touched |
| Logistics.GetLogisticsRules | backend/app/api/endpoints/logistics.py:74-91 | missing: 404, not the requester: 403, otherwise the record. Readable iff the caller is the requester |
| Logistics.ApplyUpdate | backend/app/api/endpoints/logistics.py:130 | the columns the update sets are overwritten and all others stay |
| Logistics.UpdateLogisticsRules | backend/app/api/endpoints/logistics.py:112-132 | same guards as get, with no write when refused. The update succeeds iff the caller is the requester. It then applies exactly the columns the update sets to that record, keeping its ids and other columns, and leaves other records and the transactions unchanged |
| Logistics.UpdateStatusAsWritten | backend/app/api/endpoints/logistics.py:139-179 | the status patch as written: missing or foreign records answer 500 with the AttributeError text. An authorised patch sets `status` |
| Logistics.UpdateStatus | backend/app/api/endpoints/logistics.py:153-174 | the status patch as intended |
| Logistics.UpdateStatusRules | backend/app/api/endpoints/logistics.py:153-174 | the intended patch answers 404/403 without writing, and succeeds iff the caller is the requester. The store then differs only in that record, whose `status` column is set and nothing else changes |
| Logistics.StatusPatchShadowing | backend/app/api/endpoints/logistics.py:142-179 | as written, the 404 and 403 cases become 500, still writing nothing. The authorised path matches the intended one |
| Logistics.LogisticsStore.Request | backend/app/api/endpoints/logistics.py:18-59 | the endpoint's writes follow the request rules |
| Logistics.LogisticsStore.Update | backend/app/api/endpoints/logistics.py:98-137 | the endpoint's writes follow the update rules |
| Logistics.LogisticsStore.PatchStatus | backend/app/api/endpoints/logistics.py:139-179 | the endpoint's writes follow the status patch as written |
| ApiClient.AuthorizedHeaders | frontend/lib/api.ts:16-23 | `Authorization: Bearer <token>` is set iff the stored token is truthy. Every other header is unchanged |
| ApiClient.BearerTokenRecoverable | frontend/lib/api.ts:20 | removing "Bearer " from the header gives back exactly the stored token |
| ApiClient.InterceptRequest | frontend/lib/api.ts:16-27 | the interceptor changes the config's headers as above and returns that config |
| ApiClient.AfterErrorResponse | frontend/lib/api.ts:30-43 | a 401 removes `auth_token` and `user`. Any other error leaves storage unchanged |
| ApiClient.InterceptErrorResponse | frontend/lib/api.ts:30-43 | storage changes as above, and only a 401 redirects to the login page |
| ApiClient.AfterVerify | frontend/lib/api.ts:78-86 | the token and user are stored only when `access_token` is non-empty. Other keys are untouched |
| ApiClient.VerifyOtp | frontend/lib/api.ts:78-86 | storage changes as above and the response body is returned |
| ApiClient.AfterLogout | frontend/lib/api.ts:88-91 | both keys are gone and every other key is kept |
| ApiClient.LogoutIdempotent | frontend/lib/api.ts:88-91 | logging out twice is logging out once |
| ApiClient.Logout | frontend/lib/api.ts:88-91 | storage becomes the logged-out storage |
| ApiClient.CurrentUser | frontend/lib/api.ts:93-96 | null when no `user` is stored (or it is ""), otherwise the stored text |
| ApiClient.SessionLifecycle | frontend/lib/api.ts:30-96 | after a verification that returned a token the current user is the returned one. After logout or a 401 there is none. Without a token the user is left as it was |
| ApiClient.ListProduce | frontend/lib/api.ts:128-131 | `total` equals the number of items, which are the response's |
| ApiClient.CreateProduceAsWritten | frontend/lib/api.ts:133-136 | as written, the form's mutation always succeeds and navigates |
| ApiClient.CreateProduce | frontend/lib/api.ts:133-136 | returning the POST's promise, the mutation succeeds iff the POST does |
| ApiClient.CreateProduceIgnoresFailure | frontend/lib/api.ts:133-136 | a failed POST is reported as success as written, and as an error once corrected |
| TextUtils.SliceEnd | frontend/lib/utils.ts:75 | where `slice(0, n)` stops: a negative n counts from the end, clamped to the text |
| TextUtils.Truncate | frontend/lib/utils.ts:73-76 | a text of at most n characters is unchanged. Otherwise the result is the first n characters and "...", of length n+3, where a negative n counts back from the end as `slice` does |
| TextUtils.TruncateIdempotent | frontend/lib/utils.ts:73-76 | truncating twice to the same length is truncating once |
| TextUtils.FormatRelativeTime | frontend/lib/utils.ts:49-68 | "Just now" iff under 60 seconds, including negative differences. `formatDate` iff a week or more |
| TextUtils.RelativeTimeReadsBack | frontend/lib/utils.ts:56-64 | the leading count is the whole units elapsed: 1..59 minutes, 1..23 hours or 1..6 days. It is followed by the unit, plural iff the count exceeds 1, then "ago" |
| OtpVerify.StripNonDigits | frontend/app/auth/verify/page.tsx:33 | only digits remain, and the text is never longer |
| OtpVerify.StripNonDigitsAppend | frontend/app/auth/verify/page.tsx:33 | stripping works piece by piece, so digits keep their order |
| OtpVerify.StripNonDigitsCounts | frontend/app/auth/verify/page.tsx:33 | each digit is kept as often as it occurs, and nothing else is kept |
| OtpVerify.StripDigitsOnly | frontend/app/auth/verify/page.tsx:33 | a string of digits passes through unchanged |
| OtpVerify.SanitizeOtp | frontend/app/auth/verify/page.tsx:32-35 | the code is the first (up to) six digits of the input, in order |
| OtpVerify.SanitizeOtpIdempotent | frontend/app/auth/verify/page.tsx:33 | a clean code of at most six digits is unchanged, so sanitising is idempotent |
| OtpVerify.SubmitRule | frontend/app/auth/verify/page.tsx:80 | submit is enabled iff nothing is pending and six digits were typed. An enabled code is six digits |
| OtpVerify.PhoneNumber | frontend/app/auth/verify/page.tsx:13 | the phone number is the query parameter, or "" when absent |
| OtpVerify.SubmitRequest | frontend/app/auth/verify/page.tsx:24-30 | the request carries the typed code and the phone number unchanged, which is "" exactly when the parameter is absent or empty |
| ProduceForm.AddIndicator | frontend/app/dashboard/produce/new/page.tsx:43-50 | empty or present: no-op. Otherwise appended at the end with the rest unchanged |
| ProduceForm.RemoveIndicator | frontend/app/dashboard/produce/new/page.tsx:52-59 | no occurrence is left, and every other indicator's membership is unchanged |
| ProduceForm.RemoveIndicatorCounts | frontend/app/dashboard/produce/new/page.tsx:55-57 | remove drops every occurrence and keeps the count of every other entry |
| ProduceForm.RemoveIndicatorAppend | frontend/app/dashboard/produce/new/page.tsx:55-57 | remove works piece by piece, so the kept entries stay in order |
| ProduceForm.RemoveAbsent | frontend/app/dashboard/produce/new/page.tsx:55-57 | removing an absent indicator changes nothing |
| ProduceForm.RemoveKeepsNoDuplicates | frontend/app/dashboard/produce/new/page.tsx:55-57 | remove keeps a duplicate-free list duplicate-free |
| ProduceForm.AddThenRemove | frontend/app/dashboard/produce/new/page.tsx:43-58 | add keeps the list duplicate-free, and adding a new indicator then removing it restores the list |
| ProduceForm.ToggleIndicator | frontend/app/dashboard/produce/new/page.tsx:205-208 | toggle removes when present and adds otherwise |
| ProduceForm.ToggleFlips | frontend/app/dashboard/produce/new/page.tsx:205-208 | toggle flips the indicator's membership, leaves every other one and keeps the list duplicate-free. A double toggle of an absent indicator is the identity |
| ProduceForm.SubmitPayload | frontend/app/dashboard/produce/new/page.tsx:36-40 | only `harvest_date` and `expires_at` are overridden, and every other field is sent as typed |
| ProduceList.QueryParams | frontend/app/dashboard/produce/page.tsx:92-95 | `crop_type` is sent iff the search is non-empty and equals it. `status` is sent iff the filter is not "all" and equals it. Nothing else is sent |
| ProduceList.DisplayPrice | frontend/app/dashboard/produce/page.tsx:43 | `price_per_kg` if truthy, else `expected_price_per_kg` if truthy, else 0. The result is 0 iff neither is truthy |
| ProduceList.BadgeClass | frontend/app/dashboard/produce/page.tsx:24-29 | available is green, reserved is yellow, anything else is gray |
| TransactionsView.StatusColor | frontend/app/dashboard/transactions/page.tsx:8-18 | defined for every status: the table's class for the six known ones, gray otherwise |
| TransactionsView.StatusColorsDistinct | frontend/app/dashboard/transactions/page.tsx:9-16 | the six known statuses have six different colours, none of them gray |
| TransactionsView.CountCompleted | frontend/app/dashboard/transactions/page.tsx:93 | the completed count is at most the number of items |
| TransactionsView.CountPending | frontend/app/dashboard/transactions/page.tsx:99 | the pending count is at most the number of items |
| TransactionsView.CountOne | frontend/app/dashboard/transactions/page.tsx:93-99 | an item counts as completed iff its status is "completed", and as pending iff it is "payment_pending" or "matched" |
| TransactionsView.CountsAppend | frontend/app/dashboard/transactions/page.tsx:93-99 | both counts add up over concatenation, so each matching item counts exactly once |
| TransactionsView.CountsBounded | frontend/app/dashboard/transactions/page.tsx:93-99 | completed plus pending is at most the number of items |
| TransactionsView.TotalValue | frontend/app/dashboard/transactions/page.tsx:106 | the total of no transactions is 0, of one is its amount, and of non-negative amounts is non-negative |
| TransactionsView.TotalValueAppend | frontend/app/dashboard/transactions/page.tsx:106 | the total adds up over concatenation |
| TransactionsView.StatusLabel | frontend/app/dashboard/transactions/page.tsx:47 | only the first "_" becomes a space, so exactly one underscore fewer when there is one, and the text otherwise |
| TransactionsView.TwoWordLabel | frontend/app/dashboard/transactions/page.tsx:47 | "a_b" with no underscore in a is shown as "a b" |
| TransactionsView.DisplayId | frontend/app/dashboard/transactions/page.tsx:29 | the shown id is the first 12 characters, or the whole id when shorter |

## Left out

- Browser and server I/O: the WebSocket transport, `fetch`, `FormData` and the audio blob, `MediaRecorder`/`getUserMedia`, `alert`, `console` logging, scrolling and window navigation. Each outcome is a method argument or a result.
- Timers: `setTimeout` and `setInterval` timing is not modelled, only how many reconnect timers are pending and whether the duration counter runs. React's batching of state updates and re-rendering are not modelled either. Each handler runs as one step on the current state.
- `startNewChat` and `switchSession` are destructured from the hook but never defined by it. The model keeps only `clearMessages`. `HandleDeleteSession` reports whether the undefined `startNewChat` would be called, and the error that call raises is caught by the surrounding `try`. `handleSelectSession` and `handleNewChat` are not modelled, because they only call these missing functions and `loadSessions`.
- ChatClient.ChatClient.Mount: runs as one step. The source's uncancelled `loadHistory().then(() => connect())` after an unmount is shown separately by `UnmountBeforeHistoryArrives` and recorded under Findings.
- TeardownThenNormalClose: holds only when the held socket is open or absent. The connecting case is `TeardownWhileConnecting`, recorded under Findings.
- ChatClient.ChatClient.Teardown: the cleanup clears only the most recently scheduled reconnect timer. Earlier timers that were still pending stay pending.
- ChatClient.ChatMessage: the fields `language`, `tts_audio_url`, `transcription` and `confidence` are not represented, because no modelled logic reads them.
- Concurrency: `await` interleavings between registry methods, and between handlers and late socket events, are not modelled. Each registry method is atomic.
- Cryptography and generated values:
  - HMAC-SHA512 is an uninterpreted function argument.
  - uuid generation is an argument, and a reference that collides with an existing one would overwrite that record.
  - Payments.Initialize: the kobo conversion `int(total_amount * 100)` only feeds the provider call and is not modelled. Amounts are whole numbers.
- Payments.WebhookSignatureGate: two exception paths of the webhook are not modelled, and the source answers each with a 500 and no write. One is `hmac.compare_digest` raising TypeError for a signature header with a non-ASCII character, where the lemma states 400. The other is `request.json()` raising UnicodeDecodeError for a body that is not UTF-8, where `Webhook` answers 400 "Invalid JSON".
- Payments.PaymentStore.VerifyPaymentWebhook: a payload that is valid JSON but not an object, or a `data` that is not an object, is outside the model. So is an exception raised by the database while writing, which the source answers with an error body.
- Payments.PaymentStore.InitializePayment: a database exception, which the source answers with a 500 carrying the exception text, is not modelled. It can come from the transaction lookup, or from the record creation or status update, possibly after the PENDING record is written. How the CRUD helpers commit is not part of this model.
- Logistics.LogisticsStore.Request: database exceptions, which the source turns into a 500 with the exception text, are not modelled. The same holds for Update and PatchStatus, except for the `status` shadowing error recorded below. The id of a new record is an argument.
- ApiClient.CurrentUser: `JSON.parse` and `JSON.stringify` are not modelled. The user is carried as its stored JSON text.
- TextUtils.FormatRelativeTime: `formatDate`, `formatCurrency` and `formatDateTime` are locale formatting and appear only as the `AbsoluteDate` outcome. `new Date()` is replaced by the whole-second difference.
- TextUtils.Truncate: a length that is not a whole number is not modelled. Text is counted in Unicode scalar values, whereas JavaScript's `length` and `slice` count UTF-16 code units. So for text outside the Basic Multilingual Plane the model can keep a text that the source would cut (`truncate("😀", 1)`), and it never splits a surrogate pair.
- TextUtils.SliceEnd: counts Unicode scalar values, not UTF-16 code units, as above.
- ProduceList.DisplayPrice: NaN prices are not modelled.
- ProduceForm.SubmitPayload: the computed ISO dates (harvest date at midnight, plus seven days) are arguments, not computed.
- TransactionsView.TotalValue: sums whole amounts exactly, not JavaScript floating-point numbers.
- TransactionsView.StatusColor: a status naming an `Object.prototype` member (for example "constructor") is not modelled. The status type excludes it.
- The AI agent, the advisory tools, the chat sidebar, the login, landing and dashboard pages, layouts and route guards are not part of this model.

## Findings

| source | as written | input that shows it | evidently intended | confidence | as-written member | corrected member |
|---|---|---|---|---|---|---|
| frontend/hooks/useWebSocket.ts:156-168 | the mount effect runs `loadHistory().then(() => connect())`, and the cleanup does not cancel it. An unmount before the history response arrives still connects afterwards, opening a socket that no cleanup will close | unmount (for example a route change) while the history request is in flight | no socket is opened once the component has unmounted | not executed | ChatClient.UnmountBeforeHistoryArrives | ChatClient.UnmountBeforeHistoryArrivesCancelled |
| backend/app/api/endpoints/logistics.py:142-179 | the parameter `status: str` shadows the imported `fastapi.status` module, so `status.HTTP_404_NOT_FOUND` and `status.HTTP_403_FORBIDDEN` raise AttributeError. The generic handler turns that into a 500 whose detail is the AttributeError text | PATCH `/{id}/status` for an id with no record, or by a user who is not the requester | 404 "Logistics request not found" and 403 "Not authorized to update this logistics request", as `update_logistics` answers | not executed | Logistics.UpdateStatusAsWritten | Logistics.UpdateStatus |
| frontend/hooks/useWebSocket.ts:136-168 | cleanup closes the held socket but leaves its `onclose` attached. A socket still connecting reports close code 1006 (WHATWG WebSocket standard, "close()" on a CONNECTING socket fails the connection), so a reconnect timer is scheduled and later opens a new socket after unmount | unmount while the socket is connecting (for example right after mount) | after cleanup no reconnect happens and no socket stays open | not executed | ChatClient.TeardownWhileConnecting | ChatClient.TeardownDetached |
| frontend/lib/api.ts:133-136 | `produceApi.create` starts the POST but does not return its promise. The produce form's mutation resolves at once with `undefined`, navigates to the listing, and never shows its error message | a create whose POST is rejected (for example a validation error from the server) | the mutation follows the POST: an error when it fails, navigation only when it succeeds | not executed | ApiClient.CreateProduceAsWritten | ApiClient.CreateProduce |
