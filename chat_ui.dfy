/** The component as the user drives it: a sequence of user events, each
    admitted only when the rendered control that raises it is enabled (the
    `disabled` attributes of the upload button, the text field and the send
    button), and each run to completion before the next. */
module ChatUi {
  import opened Wrappers
  import opened JsString
  import opened ChatModel

  /** Typing into the text field, submitting the form, or picking a file
      (`file` is the picked file's name, `None` when the selection is empty),
      each with the outcomes of the requests the handler will await. */
  datatype Event =
    | Typed(text: string)
    | Submitted(outcome: ChatOutcome)
    | FilePicked(file: Option<string>, ocr: Option<string>, outcome: ChatOutcome)

  /** Whether the control raising `e` is enabled: the text field is disabled
      while `isLoading`; the send button while the trimmed input is empty or
      `isLoading`; the upload button while `isUploading` or `isLoading`. */
  predicate Enabled(s: Session, e: Event): (b: bool)
    ensures e.Submitted? ==> (b <==> !IsBlank(s.input) && !s.isLoading)
    ensures s.isLoading ==> !b
  {
    match e
    case Typed(_) => !s.isLoading
    case Submitted(_) => !(Trim(s.input) == [] || s.isLoading)
    case FilePicked(_, _, _) => !(s.isUploading || s.isLoading)
  }

  /** The handler `e` triggers, run on `s` with no admission check. Every
      handler keeps the log as a prefix of the new one and keeps the
      invariant. */
  function Handle(s: Session, e: Event): (t: Session)
    ensures s.messages <= t.messages
    ensures WellFormed(s) ==> WellFormed(t)
  {
    match e
    case Typed(text) => s.(input := text)
    case Submitted(o) => SendSettled(s, o)
    case FilePicked(file, ocr, o) => UploadSettled(s, file, ocr, o)
  }

  /** One user event: a disabled control does nothing. */
  function UiStep(s: Session, e: Event): (t: Session)
    ensures !Enabled(s, e) ==> t == s
    ensures s.messages <= t.messages
    ensures WellFormed(s) ==> WellFormed(t)
  {
    if Enabled(s, e) then Handle(s, e) else s
  }

  function Run(s: Session, events: seq<Event>): Session
    decreases |events|
  {
    if events == [] then s else Run(UiStep(s, events[0]), events[1..])
  }

  /** Running a non-empty sequence is one step followed by the rest. */
  lemma RunCons(s: Session, e: Event, rest: seq<Event>)
    ensures Run(s, [e] + rest) == Run(UiStep(s, e), rest)
  {
    assert ([e] + rest)[1..] == rest;
  }

  /** Running two events is two steps. */
  lemma RunTwo(s: Session, e1: Event, e2: Event)
    ensures Run(s, [e1, e2]) == UiStep(UiStep(s, e1), e2)
  {
    assert [e1, e2] == [e1] + [e2];
    RunCons(s, e1, [e2]);
    RunCons(UiStep(s, e1), e2, []);
  }

  /** Running three events is three steps. */
  lemma RunThree(s: Session, e1: Event, e2: Event, e3: Event)
    ensures Run(s, [e1, e2, e3]) == UiStep(UiStep(UiStep(s, e1), e2), e3)
  {
    assert [e1, e2, e3] == [e1] + [e2, e3];
    RunCons(s, e1, [e2, e3]);
    RunTwo(UiStep(s, e1), e2, e3);
  }

  /** Typing a non-blank text into an idle component and submitting it runs
      handleSend on that text. */
  lemma TypeThenSubmit(s: Session, text: string, o: ChatOutcome)
    requires !s.isLoading && !IsBlank(text)
    ensures Run(s, [Typed(text), Submitted(o)]) == SendSettled(s.(input := text), o)
  {
    RunTwo(s, Typed(text), Submitted(o));
    var t := s.(input := text);
    assert UiStep(s, Typed(text)) == t;
  }

  /** Across events the log only grows at its end (the one in-place
      replacement stays inside a single upload), and the well-formedness
      invariant of the state is kept. */
  lemma {:induction false} RunAppendsOnly(s: Session, events: seq<Event>)
    ensures s.messages <= Run(s, events).messages
    ensures WellFormed(s) ==> WellFormed(Run(s, events))
    decreases |events|
  {
    if events != [] {
      RunAppendsOnly(UiStep(s, events[0]), events[1..]);
    }
  }

  /** Every state reachable from the mounted component is well formed; in
      particular its log still opens with the greeting. */
  lemma ReachableIsWellFormed(events: seq<Event>)
    ensures WellFormed(Run(InitialSession(), events))
    ensures Run(InitialSession(), events).messages[0] == AssistantTurn(GreetingText)
  {
    RunAppendsOnly(InitialSession(), events);
  }

  /** While `isLoading` is raised every control that could lower it is
      disabled, so no sequence of events changes the state any more. */
  lemma {:induction false} LoadingIsAbsorbing(s: Session, events: seq<Event>)
    requires s.isLoading
    ensures Run(s, events) == s
    decreases |events|
  {
    if events != [] {
      assert UiStep(s, events[0]) == s;
      LoadingIsAbsorbing(s, events[1..]);
    }
  }

  /** Every handler ends with `isUploading` lowered, so between events it
      is never raised and the `isUploading` half of the upload button's guard
      never decides anything. */
  lemma {:induction false} UploadingNeverObserved(s: Session, events: seq<Event>)
    requires !s.isUploading
    ensures !Run(s, events).isUploading
    decreases |events|
  {
    if events != [] {
      assert !UiStep(s, events[0]).isUploading;
      UploadingNeverObserved(UiStep(s, events[0]), events[1..]);
    }
  }

  /** As written, an upload whose extraction produced text leaves
      `isLoading` raised, and from then on the session accepts nothing:
      whatever the user does afterwards, the state stays the same. */
  lemma UploadLocksSession(s: Session, fileName: string, text: string, o: ChatOutcome, events: seq<Event>)
    requires text != ""
    ensures UploadSettled(s, Some(fileName), Some(text), o).isLoading
    ensures Run(UploadSettled(s, Some(fileName), Some(text), o), events) == UploadSettled(s, Some(fileName), Some(text), o)
  {
    LoadingIsAbsorbing(UploadSettled(s, Some(fileName), Some(text), o), events);
  }

  /** The run showing it: the user gives a name, the assistant asks for a
      resume, the user uploads one and the assistant asks a further question,
      which can never be answered, however the user types and submits. */
  lemma UploadLocksSessionExample(name: string, answer: string, fileName: string, text: string,
                                  question: string, reply: string, o: ChatOutcome)
    requires !IsBlank(name) && text != ""
    ensures
      var locked := Run(InitialSession(), [
        Typed(name), Submitted(Reply("", answer)), FilePicked(Some(fileName), Some(text), Reply("", question))]);
      && |locked.messages| == 5
      && locked.messages[4] == AssistantTurn(question)
      && Run(locked, [Typed(reply), Submitted(o)]) == locked
  {
    var s0 := InitialSession();
    var s2 := SendSettled(s0.(input := name), Reply("", answer));
    var e3 := FilePicked(Some(fileName), Some(text), Reply("", question));
    var s3 := UploadSettled(s2, Some(fileName), Some(text), Reply("", question));
    RunThree(s0, Typed(name), Submitted(Reply("", answer)), e3);
    TypeThenSubmit(s0, name, Reply("", answer));
    RunTwo(s0, Typed(name), Submitted(Reply("", answer)));
    assert UiStep(s2, e3) == s3;
    LoadingIsAbsorbing(s3, [Typed(reply), Submitted(o)]);
  }

  /** The evidently intended upload: the same log, but the `finally` block
      also lowers `isLoading`, so nothing stays busy once the handler ends. */
  function UploadSettledIntended(s: Session, file: Option<string>, ocr: Option<string>, o: ChatOutcome): (t: Session)
    ensures t.messages == UploadSettled(s, file, ocr, o).messages
    ensures file.Some? ==> !t.isLoading && !t.isUploading
    ensures file.None? ==> t == s
  {
    var t := UploadSettled(s, file, ocr, o);
    if file.Some? then t.(isLoading := false) else t
  }

  /** With the intended upload the conversation goes on: the user can type
      an answer and send it, and the log grows by that turn and the reply. */
  lemma IntendedUploadLetsUserReply(s: Session, fileName: string, ocr: Option<string>, o: ChatOutcome,
                                    reply: string, o2: ChatOutcome)
    requires !IsBlank(reply)
    ensures
      var t := UploadSettledIntended(s, Some(fileName), ocr, o);
      Run(t, [Typed(reply), Submitted(o2)]).messages
        == t.messages + [UserTurn(reply), ReplyTurn(o2, SendCompletionText, SendErrorText)]
  {
    TypeThenSubmit(UploadSettledIntended(s, Some(fileName), ocr, o), reply, o2);
  }

  /** A completion turn does not end the session: once the redirect link is
      shown, the user can still type and send another turn. */
  lemma CompletionIsNotEnforced(s: Session, o: ChatOutcome, next: string)
    requires !IsBlank(s.input) && o.IsRedirect() && !IsBlank(next)
    ensures var t := SendSettled(s, o);
      && t.messages[|t.messages| - 1].actionLink == Some(o.redirectUrl)
      && Enabled(t, Typed(next))
      && Enabled(UiStep(t, Typed(next)), Submitted(Failure))
  {
  }

  /** Two sessions given the same reply end with logs that differ only in
      the text the user typed. */
  lemma SendIsIndependentOfText(s: Session, a: string, b: string, o: ChatOutcome)
    requires !IsBlank(a) && !IsBlank(b)
    ensures
      var ta := SendSettled(s.(input := a), o);
      var tb := SendSettled(s.(input := b), o);
      && |ta.messages| == |tb.messages|
      && (forall i | 0 <= i < |ta.messages| && i != |s.messages| :: ta.messages[i] == tb.messages[i])
      && ta.messages[|s.messages|] == UserTurn(a) && tb.messages[|s.messages|] == UserTurn(b)
      && ta.(messages := tb.messages) == tb
  {
    SendPhases(s.(input := a), o);
    SendPhases(s.(input := b), o);
  }

  /** The greeting, a typed name and the assistant's answer, in that order. */
  lemma NameRoundTrip(name: string, answer: string)
    requires !IsBlank(name)
    ensures Run(InitialSession(), [Typed(name), Submitted(Reply("", answer))]).messages
      == [AssistantTurn(GreetingText), UserTurn(name), AssistantTurn(answer)]
  {
    TypeThenSubmit(InitialSession(), name, Reply("", answer));
  }

  /** What the backend is told about an upload is not what the user sees:
      the request's last turn holds the extracted text, the log shown while
      it is pending holds the confirmation in the same position. */
  lemma UploadRequestDiffersFromShownLog(s: Session, fileName: string, text: string)
    requires text != ""
    ensures
      var r := UploadRequest(s, Some(fileName), Some(text));
      var shown := UploadChatting(s, fileName).messages;
      && r.Some? && |r.value| == |shown|
      && r.value[..|s.messages|] == shown[..|s.messages|]
      && r.value[|s.messages|] != shown[|s.messages|]
      && r.value[|s.messages|] != UserTurn(PlaceholderText(fileName))
  {
    assert HiddenContent(fileName, text)[0] == '[' && ConfirmationText(fileName)[0] == 'U';
    assert HiddenContent(fileName, text)[2] == 's' && PlaceholderText(fileName)[2] == 'p';
  }
}
