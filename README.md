# Onboarding chat component, modelled in Dafny

This project models the conversation-log state machine of the onboarding
assistant's chat component (`ChatInterface`). The component holds four
pieces of state: the ordered log of turns, the text buffer, and the two busy
flags `isLoading` and `isUploading`. Two handlers change that state:

- `handleSend` runs a text turn. A blank buffer is ignored. Otherwise the user
  turn is appended at once and `isLoading` is raised. After the chat request
  settles, exactly one assistant turn is appended: the completion turn with its
  redirect link, the returned content, or a fixed error turn.
- `handleFileUpload` runs a résumé upload. A placeholder turn is appended and
  `isUploading` is raised. If extraction yields no text, a file-error turn is
  appended. Otherwise the placeholder is overwritten by a confirmation, a
  hidden synthetic turn carrying the extracted text is sent to chat, and one
  assistant turn is appended.

Files:

- `wrappers.dfy`: the `Option` type.
- `js_string.dfy`: JavaScript's `String.prototype.trim`, over the
  ECMAScript WhiteSpace and LineTerminator code points.
- `chat_model.dfy`: turns, outcomes and sessions as values. It also holds one
  specification function per phase of each handler: the request body, the
  state while a request is pending, and the settled state. It also holds the
  log invariant `WellFormed`: the log is never empty, and only assistant turns
  carry a non-empty link.
- `chat_interface.dfy`: the component as a class `ChatInterface` whose fields
  the handlers update step by step. Each method's postcondition ties the new
  fields, the request body and the states shown at each `await` to the
  specification functions.
- `chat_ui.dfy`: the component as the user drives it. A sequence of events is
  run, and each event is admitted only when its control is enabled. This
  is where the lemmas about whole sessions sit.

Modelling decisions:

- The network is not modelled. Each request's result is a parameter.
  - `ChatOutcome` is `Reply(redirectUrl, content)` or `Failure`. `Failure`
    covers a rejected `fetch` and a body that is not JSON.
  - An empty `redirectUrl` stands for an absent or falsy one, the truthiness
    test at line 42.
  - The extraction result is an `Option<string>`. `None` means the request
    failed or the body had no `text`. `Some("")` is the falsy empty text.
- The handlers carry no busy-flag preconditions, because the source checks
  none. The `disabled` attributes are modelled separately, as the `Enabled`
  predicate of `ChatUi`, and only the event runs of `ChatUi` apply it.
- Each handler runs to completion before the next event. The `messages` a
  handler reads for its request body is therefore the log as it was when the
  handler started.
- The chat payload is `JSON.stringify` of the whole turn records (lines 37
  and 97), so it includes the `actionLink` of earlier completion turns.
- An upload whose extraction succeeded leaves `isLoading` raised: it is set
  at line 91, and the `finally` block at lines 119-122 lowers only
  `isUploading`. The model keeps this behaviour (see Findings).

## Model

| member | source | states |
|---|---|---|
| ChatModel.InitialSession | src/components/ChatInterface.js:8-13 | the log is exactly one turn, the assistant greeting with its full text; the buffer is empty, both flags are lowered, and the invariant holds |
| ChatComponent.ChatInterface.constructor | src/components/ChatInterface.js:8-13 | the fields start as the initial session and satisfy the invariant |
| ChatComponent.ChatInterface.HandleInputChange | src/components/ChatInterface.js:200-201 | only the buffer changes, to the typed value; the log and flags are untouched and the invariant is kept |
| JsString.TrimStart | src/components/ChatInterface.js:26 | the result is a suffix of the input and the dropped prefix is all whitespace; it is empty exactly when the input is all whitespace; otherwise it starts with a non-whitespace character |
| JsString.TrimEnd | src/components/ChatInterface.js:26 | the result is a prefix of the input and the dropped suffix is all whitespace; it is empty exactly when the input is all whitespace; otherwise it ends with a non-whitespace character |
| JsString.Trim | src/components/ChatInterface.js:26 | the trimmed text is empty exactly when the input is all whitespace, so `!input.trim()` is the blank test; a non-empty result starts and ends with a non-whitespace character |
| JsString.TrimRemovesOnlyWhitespace | src/components/ChatInterface.js:26 | the trimmed text is a contiguous piece of the input with nothing but whitespace before and after it |
| JsString.BlankFromEnd | src/components/ChatInterface.js:26 | an all-whitespace text can equally be checked from its last character, which lets trimming work from the end |
| JsString.IsJsWhitespace | src/components/ChatInterface.js:26 | the code points `trim` removes: the WhiteSpace and LineTerminator code points of ECMA-262 (sections 12.2 and 12.3); a definition, with no contract of its own |
| ChatModel.SendIgnored | src/components/ChatInterface.js:26 | `!input.trim()` holds exactly when the buffer is all whitespace, the empty buffer included |
| ChatModel.ChatOutcome.IsRedirect | src/components/ChatInterface.js:42 | `data.redirectUrl` is truthy: the request succeeded and the URL is not empty; the same test is at line 102; a definition, with no contract of its own |
| ChatModel.Extracted | src/components/ChatInterface.js:80 | `uploadData.text` is truthy: extraction succeeded and produced a non-empty text; a definition, with no contract of its own |
| ChatModel.ReplyTurn | src/components/ChatInterface.js:42-55 | the appended turn is an assistant turn; it carries a link exactly when the reply has a truthy `redirectUrl`, and then it has the fixed completion text and that URL; otherwise it has the returned content; a failure gives the fixed error text |
| ChatModel.SendRequest | src/components/ChatInterface.js:26-37 | no request is sent exactly when the buffer is blank; otherwise the body is the prior log plus one user turn holding the untrimmed buffer |
| ChatModel.SendInFlight | src/components/ChatInterface.js:26-31 | a blank buffer changes nothing; otherwise, before any response, the log is the request body, the buffer is cleared, `isLoading` is raised and `isUploading` is kept |
| ChatModel.SendSettled | src/components/ChatInterface.js:25-59 | a blank buffer changes nothing; otherwise the log grows by exactly the user turn and the reply turn, the old log is kept as a prefix, the buffer is empty, `isLoading` is lowered, `isUploading` is kept, and the invariant is preserved |
| ChatModel.SendPhases | src/components/ChatInterface.js:25-59 | for a non-blank buffer, the three phases of a send as whole states: the request, the pending state and the settled state |
| ChatModel.OptimisticTurnKept | src/components/ChatInterface.js:29-55 | the optimistically shown log is a prefix of the settled log, whatever the outcome; the settled log is at most one turn longer, and exactly one when the buffer was not blank (for a blank buffer the two are the same) |
| ChatModel.AppendKeepsWellFormed | src/components/ChatInterface.js:44-55 | appending turns that carry links only on assistant turns keeps the log invariant |
| ChatComponent.ChatInterface.HandleSend | src/components/ChatInterface.js:25-59 | the body sent, the state while pending and the final fields are those of the send specification; the invariant is kept |
| ChatComponent.ChatInterface.SendBegin | src/components/ChatInterface.js:26-37 | the blank check, the optimistic append, the cleared buffer and the raised `isLoading`, matching the send request and pending state |
| ChatComponent.ChatInterface.SendFinish | src/components/ChatInterface.js:40-58 | exactly one reply turn is appended for the outcome and `isLoading` is lowered; nothing else changes |
| ChatModel.UploadStarted | src/components/ChatInterface.js:65-70 | the placeholder `[Uploading <name>...]` is appended as a user turn and `isUploading` is raised; the earlier log, the buffer and `isLoading` are kept |
| ChatModel.UploadChatting | src/components/ChatInterface.js:85-91 | on extracted text, the last entry (the placeholder) is overwritten in place by `Uploaded resume: <name>`; the length and every earlier turn are unchanged, and `isLoading` is raised |
| ChatModel.UploadRequest | src/components/ChatInterface.js:80-113 | chat is called exactly when a file was picked and text was extracted; the body is the log from when the handler started plus the hidden turn with the file name and extracted text, with neither placeholder nor confirmation |
| ChatModel.UploadSettled | src/components/ChatInterface.js:61-123 | no file changes nothing; otherwise the log grows by two and the old log is kept as a prefix, the last turn is an assistant turn, `isUploading` is lowered and the buffer is kept; on no text, the placeholder stays followed by the file error and `isLoading` is kept; on text, the confirmation stays followed by the reply turn and `isLoading` ends raised; the invariant is preserved |
| ChatModel.UploadPhases | src/components/ChatInterface.js:61-123 | the phases of an upload as whole states: started, chatting, and settled in the failed and the successful case |
| ChatComponent.ChatInterface.HandleFileUpload | src/components/ChatInterface.js:61-123 | the state while extracting, the state while chatting (only when chat is called), the body sent and the final fields are those of the upload specification; the invariant is kept |
| ChatComponent.ChatInterface.UploadBegin | src/components/ChatInterface.js:65-70 | exactly the started state of the upload specification |
| ChatComponent.ChatInterface.ConfirmUpload | src/components/ChatInterface.js:85-91 | the last entry is overwritten by the confirmation and `isLoading` is raised; the buffer and `isUploading` are kept |
| ChatComponent.ChatInterface.ReceiveUploadReply | src/components/ChatInterface.js:100-118 | exactly one reply turn with the upload's completion and error texts is appended; nothing else changes |
| ChatUi.Enabled | src/components/ChatInterface.js:190-208 | the `disabled` guards: the send button is enabled exactly when the buffer is not blank and `isLoading` is lowered; no control is enabled while `isLoading` is raised |
| ChatUi.Handle | src/components/ChatInterface.js:177-201 | the handler each event is wired to (`onSubmit` at line 177, the file input's `onChange` at line 182, the text field's `onChange` at line 201); every handler keeps the old log as a prefix and keeps the invariant |
| ChatUi.UiStep | src/components/ChatInterface.js:177-208 | an event on a disabled control changes nothing; any event keeps the old log as a prefix and keeps the invariant |
| ChatUi.TypeThenSubmit | src/components/ChatInterface.js:200-208 | in an idle component, typing a non-blank text and pressing send runs the send handler on that text |
| ChatUi.RunAppendsOnly | src/components/ChatInterface.js:25-123 | over any sequence of admitted events, the log only grows at its end and the invariant is kept |
| ChatUi.ReachableIsWellFormed | src/components/ChatInterface.js:8-10 | every state reachable from the mounted component satisfies the invariant, and its log still opens with the greeting |
| ChatUi.LoadingIsAbsorbing | src/components/ChatInterface.js:190-208 | while `isLoading` is raised, every control is disabled, so no sequence of events changes the state |
| ChatUi.UploadingNeverObserved | src/components/ChatInterface.js:65-122 | every handler ends with `isUploading` lowered (line 120 for uploads, untouched by the others), so from a state with it lowered no run of events ever reaches one with it raised |
| ChatUi.UploadLocksSession | src/components/ChatInterface.js:91-122 | an upload with extracted text ends with `isLoading` raised, and the session then accepts no further event |
| ChatUi.UploadLocksSessionExample | src/components/ChatInterface.js:91-122 | a concrete session: a name, an answer, an upload and a question, after which the text field and send button (lines 202, 208) stay disabled, so the user's reply can never be sent |
| ChatUi.UploadSettledIntended | src/components/ChatInterface.js:119-122 | the intended upload: the same log as written, but both flags end lowered after a picked file |
| ChatUi.IntendedUploadLetsUserReply | src/components/ChatInterface.js:119-122 | after the intended upload, typing and sending a reply appends that turn and the assistant's answer |
| ChatUi.CompletionIsNotEnforced | src/components/ChatInterface.js:42-48 | after the completion turn with its link, the text field (line 202) stays enabled, and the send button (line 208) is enabled again once a non-blank text is typed |
| ChatUi.SendIsIndependentOfText | src/components/ChatInterface.js:28-57 | two sends with the same outcome give logs that differ only in the user's own turn, and states that are otherwise equal |
| ChatUi.NameRoundTrip | src/components/ChatInterface.js:25-59 | from the mounted component, typing a name and receiving an answer gives the log greeting, name, answer |
| ChatUi.UploadRequestDiffersFromShownLog | src/components/ChatInterface.js:82-97 | the upload request and the pending log have the same length and prefix; the request's last turn is the hidden extract, not the confirmation shown nor the placeholder |

## Left out

- JSX rendering, the animation, icons and CSS classes (lines 125-215). They are presentation only. Only the `disabled` attributes at lines 190, 202 and 208 are modelled.
- `scrollToBottom` and its effect (lines 17-23). They are a DOM side effect that does not touch the state.
- `fetch`, `FormData`, `response.json()` and the endpoint URLs. They are network I/O, replaced by the outcome parameters. A failed decode is the `Failure` outcome.
- A decoded chat body without `content` (JavaScript `undefined`) is not modelled. The turn's content is always a string.
- A non-string `redirectUrl` is not modelled. A redirect URL is a string, and empty means falsy.
- `console.error` (lines 54 and 117). It only logs.
- The reset of the file picker (line 121). It is a DOM handle, and it does not change the component's state.
- The `accept` filter of the file input (line 184). Browsers treat it as a hint and do not enforce it.
- React's asynchronous state batching and interleaving of handlers. Each handler runs to completion before the next event, which gives the snapshot semantics described above. The source does allow one interleaving: the text field stays enabled while only `isUploading` is raised, so a text send could start while an extraction is pending. The model does not capture that interleaving. As a consequence, `isUploading` is lowered in every state between events (`ChatUi.UploadingNeverObserved`), so the `isUploading` half of the upload button's guard at line 190 never takes effect in the model.
- The click on the upload button that opens the picker (line 189). It only opens the browser's picker. The model's upload event is the picker's change event.

## Findings

| source | as written | input that shows it | evidently intended | confidence | as-written member | corrected member |
|---|---|---|---|---|---|---|
| src/components/ChatInterface.js:91-122 | after extraction succeeds, `isLoading` is raised at line 91, and the `finally` block lowers only `isUploading`; with the text field and send button disabled while `isLoading` (lines 202, 208), the session can never continue | mount the component, send a name, then upload a file whose extraction returns any nonempty text: the assistant's follow-up question can never be answered | the upload's `finally` also lowers `isLoading`, as `handleSend`'s does at line 57 | not executed | ChatUi.UploadLocksSession, ChatUi.UploadLocksSessionExample | ChatUi.UploadSettledIntended, ChatUi.IntendedUploadLetsUserReply |
