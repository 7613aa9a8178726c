/** The chat component as an object whose fields its handlers update step
    by step. Each handler runs to completion in one call; the outcome of each
    request it awaits is a parameter, and the state visible at each await is
    returned so that what was shown while a request was pending can be
    stated. */
module ChatComponent {
  import opened Wrappers
  import opened JsString
  import opened ChatModel

  class ChatInterface {
    var messages: seq<Turn>
    var input: string
    var isLoading: bool
    var isUploading: bool

    /** The fields as a value of the model. */
    function State(): Session
      reads this
    {
      Session(messages, input, isLoading, isUploading)
    }

    predicate Valid()
      reads this
    {
      WellFormed(State())
    }

    /** The state hooks' initial values. */
    constructor ()
      ensures Valid() && State() == InitialSession()
    {
      messages := [AssistantTurn(GreetingText)];
      input := "";
      isLoading := false;
      isUploading := false;
    }

    /** The text field's change handler: the buffer becomes the new value. */
    method HandleInputChange(value: string)
      requires Valid()
      modifies this
      ensures Valid()
      ensures State() == old(State()).(input := value)
    {
      input := value;
    }

    /** handleSend, given what the chat request resolves to. `request` is the
        body sent (`None` when nothing is sent) and `inFlight` the state while
        the request is pending. */
    method HandleSend(outcome: ChatOutcome) returns (request: Option<seq<Turn>>, inFlight: Session)
      requires Valid()
      modifies this
      ensures Valid()
      ensures request == SendRequest(old(State()))
      ensures inFlight == SendInFlight(old(State()))
      ensures State() == SendSettled(old(State()), outcome)
    {
      ghost var before := State();
      request := SendBegin();
      inFlight := State();
      if request.Some? {
        SendFinish(outcome);
        SendPhases(before, outcome);
      }
    }

    /** handleSend up to its `await fetch`: a blank buffer returns at once;
        otherwise the user turn is appended, the buffer cleared, `isLoading`
        raised, and the request body built from the log the handler saw. */
    method SendBegin() returns (request: Option<seq<Turn>>)
      requires Valid()
      modifies this
      ensures Valid()
      ensures request == SendRequest(old(State()))
      ensures State() == SendInFlight(old(State()))
    {
      if Trim(input) == [] {
        request := None;
        return;
      }
      var snapshot := messages;  // the `messages` the handler's closure sees
      var userMessage := UserTurn(input);
      messages := messages + [userMessage];
      input := "";
      isLoading := true;
      request := Some(snapshot + [userMessage]);
      AppendKeepsWellFormed(old(State()), [userMessage], State());
    }

    /** handleSend once the chat request resolved: one assistant turn for the
        outcome is appended and, in `finally`, `isLoading` is lowered. */
    method SendFinish(outcome: ChatOutcome)
      requires Valid()
      modifies this
      ensures Valid()
      ensures State() == old(State()).(messages := old(messages) + [ReplyTurn(outcome, SendCompletionText, SendErrorText)],
                                       isLoading := false)
    {
      match outcome {
        case Reply(redirectUrl, content) =>
          if redirectUrl != "" {
            messages := messages + [Turn(Assistant, SendCompletionText, Some(redirectUrl))];
          } else {
            messages := messages + [AssistantTurn(content)];
          }
        case Failure =>
          messages := messages + [AssistantTurn(SendErrorText)];
      }
      isLoading := false;
      AppendKeepsWellFormed(old(State()), [ReplyTurn(outcome, SendCompletionText, SendErrorText)], State());
    }

    /** handleFileUpload, given the selected file's name (`None` when no file
        was selected), the extraction result and what the follow-up chat
        request resolves to. `extracting` is the state while the extraction
        request is pending, `chatting` the state while the chat request is
        pending (`None` when it is never sent) and `request` its body. */
    method HandleFileUpload(file: Option<string>, ocr: Option<string>, outcome: ChatOutcome)
      returns (request: Option<seq<Turn>>, extracting: Session, chatting: Option<Session>)
      requires Valid()
      modifies this
      ensures Valid()
      ensures file.Some? ==> extracting == UploadStarted(old(State()), file.value)
      ensures file.None? ==> extracting == old(State())
      ensures chatting == if file.Some? && Extracted(ocr) then Some(UploadChatting(old(State()), file.value)) else None
      ensures request == UploadRequest(old(State()), file, ocr)
      ensures State() == UploadSettled(old(State()), file, ocr, outcome)
    {
      request, extracting, chatting := None, State(), None;
      if file.None? {
        return;
      }
      ghost var before := State();
      var name := file.value;
      var snapshot := messages;  // the `messages` the handler's closure sees
      UploadBegin(name);
      extracting := State();
      if ocr.Some? && ocr.value != "" {
        var hiddenContent := HiddenContent(name, ocr.value);
        ConfirmUpload(name);
        request := Some(snapshot + [UserTurn(hiddenContent)]);
        chatting := Some(State());
        ReceiveUploadReply(outcome);
      } else {
        // the source throws here, and its catch block appends the file error
        messages := messages + [AssistantTurn(FileErrorText)];
      }
      isUploading := false;  // the `finally` block
      UploadPhases(before, name, ocr, outcome);
    }

    /** handleFileUpload before its first `await`: `isUploading` is raised
        and the placeholder appended. */
    method UploadBegin(fileName: string)
      requires Valid()
      modifies this
      ensures Valid()
      ensures State() == UploadStarted(old(State()), fileName)
    {
      isUploading := true;
      messages := messages + [UserTurn(PlaceholderText(fileName))];
      AppendKeepsWellFormed(old(State()), [UserTurn(PlaceholderText(fileName))], State());
    }

    /** Extraction produced text: the last entry, the placeholder, is
        overwritten by the confirmation and `isLoading` is raised. */
    method ConfirmUpload(fileName: string)
      requires Valid()
      modifies this
      ensures Valid()
      ensures messages == old(messages)[|old(messages)| - 1 := UserTurn(ConfirmationText(fileName))]
      ensures input == old(input) && isUploading == old(isUploading) && isLoading
    {
      messages := messages[|messages| - 1 := UserTurn(ConfirmationText(fileName))];
      isLoading := true;
    }

    /** The follow-up chat request resolved: the completion turn or the reply
        is appended, or, when it failed, the file error of the catch block. */
    method ReceiveUploadReply(outcome: ChatOutcome)
      requires Valid()
      modifies this
      ensures Valid()
      ensures State() == old(State()).(messages := old(messages) + [ReplyTurn(outcome, UploadCompletionText, FileErrorText)])
    {
      match outcome {
        case Reply(redirectUrl, content) =>
          if redirectUrl != "" {
            messages := messages + [Turn(Assistant, UploadCompletionText, Some(redirectUrl))];
          } else {
            messages := messages + [AssistantTurn(content)];
          }
        case Failure =>
          messages := messages + [AssistantTurn(FileErrorText)];
      }
      AppendKeepsWellFormed(old(State()), [ReplyTurn(outcome, UploadCompletionText, FileErrorText)], State());
    }
  }
}
