/** The conversation state of the onboarding chat component as values: the
    message log, the text buffer and the two busy flags; and the effect of
    each handler on that state, phase by phase. The network is replaced by
    the outcome each request resolved to, passed in as a parameter. */
module ChatModel {
  import opened Wrappers
  import opened JsString

  datatype Role = User | Assistant

  /** One entry of the message log: `{ role, content }`, plus `actionLink`
      on the turn that announces the end of onboarding. */
  datatype Turn = Turn(role: Role, content: string, actionLink: Option<string>)

  /** What a request to the chat endpoint resolved to: a decoded body (its
      `redirectUrl` field, the empty string when the field is absent, and its
      `content` field) or `Failure` when the request or the decoding threw. */
  datatype ChatOutcome = Reply(redirectUrl: string, content: string) | Failure
  {
    /** `data.redirectUrl` is truthy: present and not the empty string. */
    predicate IsRedirect() {
      Reply? && redirectUrl != ""
    }
  }

  /** The component's state: `messages`, `input`, `isLoading`, `isUploading`. */
  datatype Session = Session(messages: seq<Turn>, input: string, isLoading: bool, isUploading: bool)

  const GreetingText: string := "Hi! I'm your onboarding assistant. I'm here to get you set up for your mock interview. To start, could you please tell me your full name?"
  const SendCompletionText: string := "Great! I've collected everything. Click below to start your interview."
  const SendErrorText: string := "Sorry, I encountered an error. Please try again."
  const UploadCompletionText: string := "Received your resume! I have everything now."
  const FileErrorText: string := "Failed to process the file. Please try uploading again."

  function UserTurn(content: string): Turn {
    Turn(User, content, None)
  }

  function AssistantTurn(content: string): Turn {
    Turn(Assistant, content, None)
  }

  /** The provisional turn shown while a file is being extracted. */
  function PlaceholderText(fileName: string): string {
    "[Uploading " + fileName + "...]"
  }

  /** The turn that replaces the placeholder once extraction produced text. */
  function ConfirmationText(fileName: string): string {
    "Uploaded resume: " + fileName
  }

  /** The synthetic user turn's content, sent to the chat endpoint only. */
  function HiddenContent(fileName: string, text: string): string {
    "[User uploaded resume " + fileName + ". Extracted content: " + text + "]"
  }

  /** A link is carried only by an assistant turn, and it is never empty. */
  predicate LinkOnlyOnCompletion(t: Turn) {
    t.actionLink.Some? ==> t.role == Assistant && t.actionLink.value != ""
  }

  /** What every reachable state satisfies: the log is never empty and
      links sit only on completion turns. */
  predicate WellFormed(s: Session) {
    && |s.messages| >= 1
    && forall i | 0 <= i < |s.messages| :: LinkOnlyOnCompletion(s.messages[i])
  }

  /** Appending turns none of which carries a misplaced link keeps a state
      well formed. */
  lemma AppendKeepsWellFormed(s: Session, extra: seq<Turn>, t: Session)
    requires WellFormed(s) && forall i | 0 <= i < |extra| :: LinkOnlyOnCompletion(extra[i])
    requires t.messages == s.messages + extra
    ensures WellFormed(t)
  {
    forall i | 0 <= i < |t.messages|
      ensures LinkOnlyOnCompletion(t.messages[i])
    {
      if i < |s.messages| {
        assert t.messages[i] == s.messages[i];
      } else {
        assert t.messages[i] == extra[i - |s.messages|];
      }
    }
  }

  /** The state the component is mounted with: one greeting, nothing typed,
      nothing in flight. */
  function InitialSession(): (s: Session)
    ensures WellFormed(s) && |s.messages| == 1
    ensures s.messages[0].role == Assistant && s.messages[0].content == GreetingText
    ensures s.input == "" && !s.isLoading && !s.isUploading
  {
    Session([AssistantTurn(GreetingText)], "", false, false)
  }

  /** The one assistant turn a settled chat request appends: the completion
      turn carrying the redirect link, the reply's content, or the error text
      when the request failed. */
  function ReplyTurn(o: ChatOutcome, completionText: string, errorText: string): (t: Turn)
    ensures t.role == Assistant && LinkOnlyOnCompletion(t)
    ensures t.actionLink.Some? <==> o.IsRedirect()
    ensures o.IsRedirect() ==> t.content == completionText && t.actionLink == Some(o.redirectUrl)
    ensures o.Reply? && !o.IsRedirect() ==> t.content == o.content
    ensures o.Failure? ==> t.content == errorText
  {
    match o
    case Failure => AssistantTurn(errorText)
    case Reply(url, content) =>
      if url != "" then Turn(Assistant, completionText, Some(url)) else AssistantTurn(content)
  }

  // ---------------------------------------------------------------------
  // handleSend

  /** `!input.trim()`: the handler returns at once, exactly when the buffer
      holds nothing but whitespace. */
  predicate SendIgnored(s: Session): (b: bool)
    ensures b <==> IsBlank(s.input)
  {
    Trim(s.input) == []
  }

  /** The body of the chat request handleSend issues, if any: the log as it
      was when the handler started, followed by the untrimmed typed text. */
  function SendRequest(s: Session): (r: Option<seq<Turn>>)
    ensures r.None? <==> IsBlank(s.input)
    ensures r.Some? ==> |r.value| == |s.messages| + 1 && r.value[..|s.messages|] == s.messages
    ensures r.Some? ==> r.value[|s.messages|] == UserTurn(s.input)
  {
    if SendIgnored(s) then None else Some(s.messages + [UserTurn(s.input)])
  }

  /** The state while the chat request is in flight: the user turn is
      already shown (optimistically), and the log shown is exactly the
      request body; the buffer is cleared and `isLoading` is raised. */
  function SendInFlight(s: Session): (p: Session)
    ensures IsBlank(s.input) ==> p == s
    ensures !IsBlank(s.input) ==> Some(p.messages) == SendRequest(s)
    ensures !IsBlank(s.input) ==> p.input == "" && p.isLoading && p.isUploading == s.isUploading
  {
    if SendIgnored(s) then s
    else s.(messages := s.messages + [UserTurn(s.input)], input := "", isLoading := true)
  }

  /** The state once handleSend has settled: blank input changes nothing;
      otherwise the log has grown by exactly the optimistic user turn and one
      assistant turn for the outcome, every earlier turn kept, and `isLoading`
      is lowered whatever the outcome. */
  function SendSettled(s: Session, o: ChatOutcome): (t: Session)
    ensures IsBlank(s.input) ==> t == s
    ensures !IsBlank(s.input) ==>
      && t.messages == s.messages + [UserTurn(s.input), ReplyTurn(o, SendCompletionText, SendErrorText)]
      && t.input == "" && !t.isLoading && t.isUploading == s.isUploading
    ensures WellFormed(s) ==> WellFormed(t)
  {
    if SendIgnored(s) then s
    else
      var p := SendInFlight(s);
      var reply := ReplyTurn(o, SendCompletionText, SendErrorText);
      var t := p.(messages := p.messages + [reply], isLoading := false);
      assert t.messages == s.messages + [UserTurn(s.input), reply];
      if WellFormed(s) then AppendKeepsWellFormed(s, [UserTurn(s.input), reply], t); t else t
  }

  /** The two phases of handleSend on non-blank input, as whole states. */
  lemma SendPhases(s: Session, o: ChatOutcome)
    requires !IsBlank(s.input)
    ensures SendRequest(s) == Some(s.messages + [UserTurn(s.input)])
    ensures SendInFlight(s) == Session(s.messages + [UserTurn(s.input)], "", true, s.isUploading)
    ensures SendSettled(s, o)
      == Session(s.messages + [UserTurn(s.input), ReplyTurn(o, SendCompletionText, SendErrorText)], "", false, s.isUploading)
  {
  }

  /** The optimistic update is never rolled back: the log shown while the
      request is in flight is a prefix of the settled log, whatever the
      outcome. */
  lemma OptimisticTurnKept(s: Session, o: ChatOutcome)
    ensures SendInFlight(s).messages <= SendSettled(s, o).messages
    ensures |SendSettled(s, o).messages| <= |SendInFlight(s).messages| + 1
    ensures !IsBlank(s.input) ==> |SendSettled(s, o).messages| == |SendInFlight(s).messages| + 1
  {
  }

  // ---------------------------------------------------------------------
  // handleFileUpload

  /** `uploadData.text` is truthy: extraction produced a non-empty text.
      `None` covers a failed request, an undecodable body and a body
      without `text`. */
  predicate Extracted(ocr: Option<string>) {
    ocr.Some? && ocr.value != ""
  }

  /** The state while the extraction request is in flight: the placeholder
      is appended after every earlier turn and `isUploading` is raised. */
  function UploadStarted(s: Session, fileName: string): (p: Session)
    ensures |p.messages| == |s.messages| + 1 && p.messages[..|s.messages|] == s.messages
    ensures p.messages[|s.messages|] == UserTurn(PlaceholderText(fileName))
    ensures p.isUploading && p.isLoading == s.isLoading && p.input == s.input
  {
    s.(messages := s.messages + [UserTurn(PlaceholderText(fileName))], isUploading := true)
  }

  /** The state while the follow-up chat request is in flight: the last
      entry, the placeholder, is overwritten in place by the confirmation,
      so the length and every earlier turn are those of the started state;
      `isLoading` is raised beside `isUploading`. */
  function UploadChatting(s: Session, fileName: string): (p: Session)
    ensures |p.messages| == |UploadStarted(s, fileName).messages|
    ensures p.messages[..|s.messages|] == UploadStarted(s, fileName).messages[..|s.messages|]
    ensures p.messages[|s.messages|] == UserTurn(ConfirmationText(fileName))
    ensures p.isLoading && p.isUploading && p.input == s.input
  {
    var q := UploadStarted(s, fileName);
    q.(messages := q.messages[|q.messages| - 1 := UserTurn(ConfirmationText(fileName))], isLoading := true)
  }

  /** The body of the follow-up chat request, sent only when extraction
      produced text: the log as it was when the handler started (neither the
      placeholder nor the confirmation) plus the hidden synthetic turn. */
  function UploadRequest(s: Session, file: Option<string>, ocr: Option<string>): (r: Option<seq<Turn>>)
    ensures r.Some? <==> file.Some? && Extracted(ocr)
    ensures r.Some? ==> |r.value| == |s.messages| + 1 && r.value[..|s.messages|] == s.messages
    ensures r.Some? ==> r.value[|s.messages|] == UserTurn(HiddenContent(file.value, ocr.value))
  {
    if file.Some? && Extracted(ocr) then Some(s.messages + [UserTurn(HiddenContent(file.value, ocr.value))])
    else None
  }

  /** The state once handleFileUpload has settled. Without a file nothing
      changes. Otherwise the log has grown by exactly two turns after every
      earlier one, the second an assistant turn, `isUploading` is lowered and
      the buffer is untouched. When extraction gave no text the placeholder
      stays, the file error follows and `isLoading` is as before; otherwise
      the confirmation stays (even if the chat request then failed), the
      assistant's turn for the outcome follows, and `isLoading` REMAINS
      raised, since the handler never lowers it. */
  function UploadSettled(s: Session, file: Option<string>, ocr: Option<string>, o: ChatOutcome): (t: Session)
    ensures file.None? ==> t == s
    ensures file.Some? ==>
      && |t.messages| == |s.messages| + 2 && t.messages[..|s.messages|] == s.messages
      && t.messages[|s.messages| + 1].role == Assistant
      && !t.isUploading && t.input == s.input
    ensures file.Some? && !Extracted(ocr) ==>
      && t.messages == s.messages + [UserTurn(PlaceholderText(file.value)), AssistantTurn(FileErrorText)]
      && t.isLoading == s.isLoading
    ensures file.Some? && Extracted(ocr) ==>
      && t.messages == s.messages + [UserTurn(ConfirmationText(file.value)), ReplyTurn(o, UploadCompletionText, FileErrorText)]
      && t.isLoading
    ensures WellFormed(s) ==> WellFormed(t)
  {
    match file
    case None => s
    case Some(name) =>
      if !Extracted(ocr) then
        var p := UploadStarted(s, name);
        var t := p.(messages := p.messages + [AssistantTurn(FileErrorText)], isUploading := false);
        assert t.messages == s.messages + [UserTurn(PlaceholderText(name)), AssistantTurn(FileErrorText)];
        if WellFormed(s) then AppendKeepsWellFormed(s, [UserTurn(PlaceholderText(name)), AssistantTurn(FileErrorText)], t); t else t
      else
        var p := UploadChatting(s, name);
        var reply := ReplyTurn(o, UploadCompletionText, FileErrorText);
        var t := p.(messages := p.messages + [reply], isUploading := false);
        assert p.messages == s.messages + [UserTurn(ConfirmationText(name))];
        assert t.messages == s.messages + [UserTurn(ConfirmationText(name)), reply];
        if WellFormed(s) then AppendKeepsWellFormed(s, [UserTurn(ConfirmationText(name)), reply], t); t else t
  }

  /** The phases of handleFileUpload for a selected file, as whole states. */
  lemma UploadPhases(s: Session, name: string, ocr: Option<string>, o: ChatOutcome)
    ensures UploadStarted(s, name)
      == s.(messages := s.messages + [UserTurn(PlaceholderText(name))], isUploading := true)
    ensures UploadChatting(s, name)
      == s.(messages := s.messages + [UserTurn(ConfirmationText(name))], isUploading := true, isLoading := true)
    ensures !Extracted(ocr) ==>
      UploadSettled(s, Some(name), ocr, o)
        == s.(messages := s.messages + [UserTurn(PlaceholderText(name)), AssistantTurn(FileErrorText)], isUploading := false)
    ensures Extracted(ocr) ==>
      UploadSettled(s, Some(name), ocr, o)
        == s.(messages := s.messages + [UserTurn(ConfirmationText(name)), ReplyTurn(o, UploadCompletionText, FileErrorText)],
              isUploading := false, isLoading := true)
  {
    assert UploadChatting(s, name).messages == s.messages + [UserTurn(ConfirmationText(name))];
  }
}
