/** The `ServiceUI` component of ui/index.js as a state machine over its
    `useState` fields: the run guard, submitting a request, the key shortcut,
    the completion callback, and which screen is shown. The platform's
    `serviceClient.unary` is outside the model: a submission either records
    the request's `user_input` in `sent` or fails with the client's error
    message, and the response arrives later through `OnActionEnd`. */
module ServiceUi {
  import opened JsonValue
  import opened JsSemantics
  import opened Rpc
  import opened Presenter

  /** Line 23: `!!text.trim()`. */
  predicate AllowedToRun(text: string) {
    Trim(text) != ""
  }

  /** A request text as `submitAction` sends it: not empty, and unchanged
      by trimming. */
  predicate Trimmed(s: string) {
    s != [] && Trim(s) == s
  }

  /** The component's state; `sent` lists the `user_input` of every request
      handed to the client, in order. */
  datatype UiState = UiState(output: Output, loading: bool, text: string, sent: seq<string>)

  /** Every request ever sent carries a trimmed, non-empty text. */
  predicate Valid(s: UiState) {
    forall i :: 0 <= i < |s.sent| ==> Trimmed(s.sent[i])
  }

  /** Lines 18-20. */
  const Initial := UiState(NoOutput, false, "", [])

  /** Lines 71-73 as a transition. */
  function TextChanged(s: UiState, value: string): UiState {
    s.(text := value)
  }

  /** Lines 40-62 as a transition: a blank text changes nothing; otherwise
      the trimmed text is sent with `loading` set, or, when the client
      throws, the error is stored and `loading` is cleared again. */
  function Submitted(s: UiState, clientError: Option<string>): UiState {
    var request := Trim(s.text);
    if request == "" then s
    else
      match clientError
      case None => s.(loading := true, sent := s.sent + [request])
      case Some(message) => s.(loading := false, output := ErrorOutput("Client error: " + message))
  }

  /** Lines 64-69 as a transition: Ctrl+Enter or Cmd+Enter submits a text
      that may run; `loading` is not consulted. */
  function KeyPressed(s: UiState, key: string, ctrlKey: bool, metaKey: bool, clientError: Option<string>): UiState {
    if key == "Enter" && (ctrlKey || metaKey) && AllowedToRun(s.text) then Submitted(s, clientError)
    else s
  }

  /** The `output` that `onActionEnd` stores for a response. */
  function Completed(response: UnaryOutput): Output {
    if response.status != 0 then ErrorOutput("Error: " + response.statusMessage)
    else ResponseOutput(response)
  }

  /** Lines 25-38 as a transition. */
  function Ended(s: UiState, response: UnaryOutput): UiState {
    s.(loading := false, output := Completed(response))
  }

  /** Line 208: the button is enabled when the text may run and no request
      is pending. */
  predicate SubmitEnabled(s: UiState) {
    AllowedToRun(s.text) && !s.loading
  }

  /** Line 259: the input form while the run is not complete, the output
      section afterwards. */
  datatype Screen = InputScreen(buttonEnabled: bool, analyzing: bool) | OutputScreen(view: View)

  /** Line 259 with `ServiceInput` and `ServiceOutput`. */
  function Shown(s: UiState, isComplete: bool, parse: Parser): Screen {
    if !isComplete then InputScreen(SubmitEnabled(s), s.loading)
    else OutputScreen(ServiceOutput(s.output, parse))
  }

  class ServiceUI {
    var output: Output
    var loading: bool
    var text: string
    var sent: seq<string>

    function State(): UiState
      reads this
    {
      UiState(output, loading, text, sent)
    }

    /** Lines 18-20: the initial state. */
    constructor ()
      ensures State() == Initial
    {
      output := NoOutput;
      loading := false;
      text := "";
      sent := [];
    }

    /** Lines 71-73. */
    method HandleTextChange(value: string)
      modifies this`text
      ensures State() == TextChanged(old(State()), value)
    {
      text := value;
    }

    /** Lines 40-62. */
    method SubmitAction(clientError: Option<string>)
      modifies this`loading, this`output, this`sent
      ensures State() == Submitted(old(State()), clientError)
    {
      var request := Trim(text);
      if request == "" {
        return;
      }
      loading := true;
      match clientError {
        case None =>
          sent := sent + [request];
        case Some(message) =>
          output := ErrorOutput("Client error: " + message);
          loading := false;
      }
    }

    /** Lines 64-69. */
    method HandleKeyPress(key: string, ctrlKey: bool, metaKey: bool, clientError: Option<string>)
      modifies this`loading, this`output, this`sent
      ensures State() == KeyPressed(old(State()), key, ctrlKey, metaKey, clientError)
    {
      if key == "Enter" && (ctrlKey || metaKey) {
        if AllowedToRun(text) {
          SubmitAction(clientError);
        }
      }
    }

    /** Lines 25-38. */
    method OnActionEnd(response: UnaryOutput)
      modifies this`loading, this`output
      ensures State() == Ended(old(State()), response)
    {
      loading := false;
      if response.status != 0 {
        output := ErrorOutput("Error: " + response.statusMessage);
        return;
      }
      output := ResponseOutput(response);
    }
  }

  /** A text may run exactly when it holds a character that is not
      whitespace. */
  lemma AllowedToRunIff(text: string)
    ensures AllowedToRun(text) <==> exists i :: 0 <= i < |text| && !IsWhitespace(text[i])
  {
  }

  /** The initial state has sent nothing, holds no output (the waiting
      text) and offers a disabled button. */
  lemma InitialState()
    ensures Valid(Initial) && Initial.output == NoOutput
    ensures !SubmitEnabled(Initial)
  {
  }

  /** A blank text: submitting changes nothing. */
  lemma BlankSubmitChangesNothing(s: UiState, clientError: Option<string>)
    requires forall i :: 0 <= i < |s.text| ==> IsWhitespace(s.text[i])
    ensures Submitted(s, clientError) == s
  {
  }

  /** A text that may run, accepted by the client: its trimmed form is sent,
      `loading` is set, and the shown output is left as it was. */
  lemma SubmitSendsTrimmedText(s: UiState)
    requires AllowedToRun(s.text)
    ensures Submitted(s, None) == s.(loading := true, sent := s.sent + [Trim(s.text)])
    ensures Trimmed(Trim(s.text))
    ensures !IsWhitespace(Trim(s.text)[0]) && !IsWhitespace(Trim(s.text)[|Trim(s.text)| - 1])
  {
    TrimIdempotent(s.text);
  }

  /** A text that may run, refused by the client: nothing is sent, `loading`
      is cleared and the error box shows the client's message. */
  lemma ClientErrorShown(s: UiState, message: string, parse: Parser)
    requires AllowedToRun(s.text)
    ensures Submitted(s, Some(message)).sent == s.sent
    ensures !Submitted(s, Some(message)).loading
    ensures ServiceOutput(Submitted(s, Some(message)).output, parse) == ErrorBox("Client error: " + message)
  {
    assert |"Client error: " + message| >= 14;
  }

  /** Appending a trimmed text to trimmed texts keeps them all trimmed. */
  lemma {:induction false} AppendKeepsTrimmed(sent: seq<string>, request: string)
    requires forall i :: 0 <= i < |sent| ==> Trimmed(sent[i])
    requires Trimmed(request)
    ensures forall i :: 0 <= i < |sent + [request]| ==> Trimmed((sent + [request])[i])
  {
  }

  /** No transition ever sends an untrimmed or empty text. */
  lemma {:induction false} TransitionsKeepValid(s: UiState, value: string, key: string, ctrlKey: bool,
                                                metaKey: bool, clientError: Option<string>,
                                                response: UnaryOutput)
    requires Valid(s)
    ensures Valid(TextChanged(s, value))
    ensures Valid(Submitted(s, clientError))
    ensures Valid(KeyPressed(s, key, ctrlKey, metaKey, clientError))
    ensures Valid(Ended(s, response))
  {
    if AllowedToRun(s.text) && clientError.None? {
      SubmitSendsTrimmedText(s);
      AppendKeepsTrimmed(s.sent, Trim(s.text));
    }
  }

  /** Only Ctrl+Enter or Cmd+Enter reacts; any other key changes nothing. */
  lemma OtherKeysChangeNothing(s: UiState, key: string, ctrlKey: bool, metaKey: bool, clientError: Option<string>)
    requires key != "Enter" || (!ctrlKey && !metaKey)
    ensures KeyPressed(s, key, ctrlKey, metaKey, clientError) == s
  {
  }

  /** While a request is pending the button is disabled, yet Ctrl+Enter
      sends the text once more. */
  lemma ShortcutResubmitsWhileLoading(s: UiState)
    requires s.loading && AllowedToRun(s.text)
    ensures !SubmitEnabled(s)
    ensures KeyPressed(s, "Enter", true, false, None).sent == s.sent + [Trim(s.text)]
  {
  }

  /** The end of a call clears `loading`; the output section then shows
      "Error: " and the status message for a non-zero status, and the
      rendered response otherwise. */
  lemma EndedShows(s: UiState, response: UnaryOutput, parse: Parser)
    ensures !Ended(s, response).loading && Ended(s, response).sent == s.sent
    ensures response.status != 0 ==>
              ServiceOutput(Ended(s, response).output, parse) == ErrorBox("Error: " + response.statusMessage)
    ensures response.status == 0 ==>
              ServiceOutput(Ended(s, response).output, parse) == Rendered(response, parse)
  {
    if response.status != 0 {
      assert |"Error: " + response.statusMessage| >= 7;
    }
  }

  /** The screens of one run: the output section waits before any
      response; while a request is pending the input form shows the analyzing
      state with the button disabled; once the call ends the button is enabled
      again, and a failed call shows "Error: " and the status message. */
  lemma ScreensOfARun(s: UiState, response: UnaryOutput, parse: Parser)
    requires AllowedToRun(s.text)
    ensures Shown(Initial, true, parse) == OutputScreen(WaitingBox)
    ensures Shown(Submitted(s, None), false, parse) == InputScreen(false, true)
    ensures Shown(Ended(Submitted(s, None), response), false, parse) == InputScreen(true, false)
    ensures response.status != 0 ==>
              Shown(Ended(s, response), true, parse) == OutputScreen(ErrorBox("Error: " + response.statusMessage))
  {
    EndedShows(s, response, parse);
  }

  /** Typing a clause and pressing the shortcut twice sends it twice. */
  method ResubmitWhileLoading(clause: string) returns (ui: ServiceUI)
    requires AllowedToRun(clause)
    ensures ui.loading && ui.sent == [Trim(clause), Trim(clause)]
  {
    ui := new ServiceUI();
    ui.HandleTextChange(clause);
    ui.HandleKeyPress("Enter", true, false, None);
    ui.HandleKeyPress("Enter", false, true, None);
  }
}
