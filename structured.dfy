/**
 * Structured output over the Responses API: extracting the text of a response,
 * validating it, and the single repair retry of `requestStructuredJson`.
 * The API is an oracle `api(k, request)`: the reply to the k-th call (0 the
 * primary, 1 the retry) carrying that request.
 */
module StructuredOutput {
  import opened Results
  import opened Values
  import opened Errors
  import opened Text

  /** An entry of a message's content: an `output_text` entry or any other kind. */
  datatype OutputEntry = OutputText(text: string) | OtherEntry(entryType: string)

  /** An item of `response.output`: a `message` item or any other kind. */
  datatype OutputItem = Message(content: seq<OutputEntry>) | OtherItem(itemType: string)

  datatype Response = Response(outputText: string, output: seq<OutputItem>)

  const EMPTY_BODY_MESSAGE: string := "OpenAI returned an empty response body"

  /** `content.find(isResponseOutputText)`: the first `output_text` entry, if any. */
  function FirstOutputText(content: seq<OutputEntry>): (r: Option<string>)
    ensures r.None? <==> forall k :: 0 <= k < |content| ==> !content[k].OutputText?
    ensures r.Some? ==> exists k :: (0 <= k < |content| && content[k] == OutputText(r.value) &&
      forall j :: 0 <= j < k ==> !content[j].OutputText?)
  {
    if |content| == 0 then None
    else if content[0].OutputText? then Some(content[0].text)
    else
      var rest := FirstOutputText(content[1..]);
      assert forall k :: 1 <= k < |content| ==> content[k] == content[1..][k - 1];
      rest
  }

  /** The trimmed text of a message's first `output_text` entry, or "" when there is none. */
  function MessageText(content: seq<OutputEntry>): string {
    match FirstOutputText(content)
    case None => ""
    case Some(t) => Trim(t)
  }

  /** A message item whose first text entry is non-blank. */
  predicate HasText(item: OutputItem) {
    item.Message? && MessageText(item.content) != ""
  }

  /** The index of the first item that `HasText`, or `|items|` when there is none. */
  function FirstTextIndex(items: seq<OutputItem>): (i: nat)
    ensures i <= |items|
    ensures forall j :: 0 <= j < i ==> !HasText(items[j])
    ensures i < |items| ==> HasText(items[i])
  {
    if |items| == 0 then 0
    else if HasText(items[0]) then 0
    else
      var rest := FirstTextIndex(items[1..]);
      assert forall j :: 1 <= j < rest + 1 ==> items[j] == items[1..][j - 1];
      rest + 1
  }

  /** The text of the first item that `HasText`. */
  function ItemsText(items: seq<OutputItem>): (r: Option<string>)
    ensures r.None? <==> forall k :: 0 <= k < |items| ==> !HasText(items[k])
    ensures r.Some? ==> r.value != ""
  {
    var i := FirstTextIndex(items);
    if i < |items| then Some(MessageText(items[i].content)) else None
  }

  /** What `extractTextOutput` returns (`Ok`) or throws (`Err`). */
  function TextOutputOf(response: Response): (r: Result<string, string>)
    ensures Trim(response.outputText) != "" ==> r == Ok(Trim(response.outputText))
    ensures r.Err? ==> r.error == EMPTY_BODY_MESSAGE
  {
    if Trim(response.outputText) != "" then Ok(Trim(response.outputText))
    else match ItemsText(response.output)
      case Some(t) => Ok(t)
      case None => Err(EMPTY_BODY_MESSAGE)
  }

  /**
   * `extractTextOutput`: the trimmed `output_text` when non-empty, otherwise the scan
   * over the output items for the first message with a non-blank first text entry.
   */
  method ExtractTextOutput(response: Response) returns (r: Result<string, string>)
    ensures r == TextOutputOf(response)
  {
    var normalizedOutput := Trim(response.outputText);
    if normalizedOutput != "" {
      return Ok(normalizedOutput);
    }
    ghost var first := FirstTextIndex(response.output);
    var i := 0;
    while i < |response.output|
      invariant 0 <= i <= first
      invariant forall j :: 0 <= j < i ==> !HasText(response.output[j])
    {
      var item := response.output[i];
      if item.Message? {
        var normalizedText := MessageText(item.content);
        if normalizedText != "" {
          assert HasText(response.output[i]);
          assert first == i;
          return Ok(normalizedText);
        }
      }
      assert !HasText(response.output[i]);
      i := i + 1;
    }
    assert first == |response.output|;
    return Err(EMPTY_BODY_MESSAGE);
  }

  /** Extracted text is never blank and carries no surrounding whitespace. */
  lemma ExtractedTextIsTrimmed(response: Response)
    ensures TextOutputOf(response).Ok? ==>
      TextOutputOf(response).value != "" && Trim(TextOutputOf(response).value) == TextOutputOf(response).value
  {
    var r := TextOutputOf(response);
    if r.Ok? {
      if Trim(response.outputText) != "" {
        TrimIdempotent(response.outputText);
      } else {
        var items := response.output;
        var k := FirstTextIndex(items);
        var t := FirstOutputText(items[k].content).value;
        TrimIdempotent(t);
      }
    }
  }

  /**
   * Only a message's first `output_text` entry is consulted: a blank one hides any
   * text entries after it.
   */
  lemma {:induction false} BlankFirstTextHidesLater(blank: string, before: seq<OutputEntry>, after: seq<OutputEntry>)
    requires forall k :: 0 <= k < |before| ==> !before[k].OutputText?
    requires IsBlank(blank)
    ensures MessageText(before + [OutputText(blank)] + after) == ""
  {
    var content := before + [OutputText(blank)] + after;
    var k := |before|;
    assert content[k] == OutputText(blank);
    var first := FirstOutputText(content);
    var j :| 0 <= j < |content| && content[j] == OutputText(first.value) &&
      forall i :: 0 <= i < j ==> !content[i].OutputText?;
    assert j == k;
  }

  // ---- validation ----

  datatype Validation<T> = Valid(value: T) | Invalid(message: string)

  /**
   * `formatValidationError`: a `ZodError` becomes its formatted issues, any other
   * `Error` its message, and a thrown non-error "Unknown validation error".
   */
  function FormatValidationError(error: Thrown): (r: string)
    ensures error.ErrorObject? && error.zodIssues.Some? ==> r == FormatIssues(error.zodIssues.value)
    ensures error.ErrorObject? && error.zodIssues.None? ==> r == error.message
    ensures error.NonError? ==> r == "Unknown validation error"
  {
    match error
    case ErrorObject(message, issues) => if issues.Some? then FormatIssues(issues.value) else message
    case NonError(_) => "Unknown validation error"
  }

  /** `validateOutput`: never throws; whatever the validator throws becomes an `Invalid` message. */
  function ValidateOutput<T>(validator: string -> Result<T, Thrown>, raw: string): (r: Validation<T>)
    ensures r.Valid? <==> validator(raw).Ok?
    ensures r.Valid? ==> r.value == validator(raw).value
    ensures r.Invalid? ==> r.message == FormatValidationError(validator(raw).error)
  {
    match validator(raw)
    case Ok(v) => Valid(v)
    case Err(e) => Invalid(FormatValidationError(e))
  }

  // ---- requests and the retry ----

  datatype StructuredOptions<T> = StructuredOptions(
    model: string,
    systemPrompt: string,
    userPrompt: string,
    schemaName: string,
    schema: Value,
    validator: string -> Result<T, Thrown>,
    description: string)

  /** The parameters of `client.responses.create`. */
  datatype Request = Request(
    model: string,
    instructions: string,
    userContent: string,
    store: bool,
    schemaName: string,
    description: string,
    schema: Value,
    strict: bool)

  /** The API's answer to one call: a response, or the error the client threw. */
  datatype CallResult = Delivered(response: Response) | Rejected(error: Thrown)

  type ResponsesApi = (nat, Request) -> CallResult

  /** The request `createResponse` sends with the given user content. */
  function RequestFor<T>(options: StructuredOptions<T>, content: string): (r: Request)
    ensures r.userContent == content
    ensures r.model == options.model && r.instructions == options.systemPrompt
    ensures r.schemaName == options.schemaName && r.schema == options.schema && r.strict && !r.store
  {
    Request(options.model, options.systemPrompt, content, false, options.schemaName, options.description,
      options.schema, true)
  }

  /** The raw text of a reply: the client's error, or the extracted text (its failure as an `Error`). */
  function RawText(reply: CallResult): Result<string, Thrown> {
    match reply
    case Rejected(e) => Err(e)
    case Delivered(response) =>
      match TextOutputOf(response)
      case Ok(t) => Ok(t)
      case Err(m) => Err(Error(m))
  }

  /** One attempt: the raw text's error, or the validation of the raw text. */
  function Attempt<T>(options: StructuredOptions<T>, reply: CallResult): Result<Validation<T>, Thrown> {
    match RawText(reply)
    case Err(e) => Err(e)
    case Ok(raw) => Ok(ValidateOutput(options.validator, raw))
  }

  /** Four lines with an empty second one: the first, a blank line, then the other two. */
  lemma {:induction false} RepairLines(first: string, third: string, fourth: string)
    ensures Join([first, "", third, fourth], "\n") == first + "\n\n" + third + "\n" + fourth
    ensures |first| <= |Join([first, "", third, fourth], "\n")|
    ensures Join([first, "", third, fourth], "\n")[..|first|] == first
  {
    JoinFour(first, "", third, fourth, "\n");
    assert first + "\n" + "" + "\n" == first + "\n\n";
    var rest := "\n\n" + third + "\n" + fourth;
    assert first + "\n\n" + third + "\n" + fourth == first + rest;
    assert (first + rest)[..|first|] == first;
  }

  /** The repair prompt: the user prompt, a blank line, the failure and the instruction. */
  function RepairPrompt(userPrompt: string, message: string, schemaName: string): (r: string)
    ensures r == userPrompt + "\n\n" + ("The last response failed schema validation: " + message + ".") +
      "\n" + ("Return only JSON that matches the " + schemaName + " schema.")
    ensures |userPrompt| <= |r| && r[..|userPrompt|] == userPrompt
  {
    var third := "The last response failed schema validation: " + message + ".";
    var fourth := "Return only JSON that matches the " + schemaName + " schema.";
    RepairLines(userPrompt, third, fourth);
    Join([userPrompt, "", third, fourth], "\n")
  }

  /** `createResponse`: send the request with the given content and extract its text. */
  method CreateResponse<T>(options: StructuredOptions<T>, api: ResponsesApi, call: nat, content: string)
    returns (raw: Result<string, Thrown>, request: Request)
    ensures request == RequestFor(options, content)
    ensures raw == RawText(api(call, request))
  {
    request := RequestFor(options, content);
    match api(call, request)
    case Rejected(e) =>
      raw := Err(e);
    case Delivered(response) =>
      var text := ExtractTextOutput(response);
      raw := if text.Ok? then Ok(text.value) else Err(Error(text.error));
  }

  /**
   * `requestStructuredJson`: at most two calls that differ only in their user content.
   * A valid primary is returned at once; an extraction or client error is thrown without
   * a retry; an invalid primary is retried once with the repair prompt, and an invalid
   * retry fails with "Structured output invalid after retry: <message>".
   */
  method RequestStructuredJson<T>(options: StructuredOptions<T>, api: ResponsesApi)
    returns (r: Result<T, Thrown>, sent: seq<Request>)
    ensures 1 <= |sent| <= 2
    ensures sent[0] == RequestFor(options, options.userPrompt)
    ensures forall k :: 0 <= k < |sent| ==> sent[k] == RequestFor(options, sent[k].userContent)
    ensures var first := Attempt(options, api(0, sent[0]));
      && (first.Err? ==> |sent| == 1 && r == Err(first.error))
      && (first.Ok? && first.value.Valid? ==> |sent| == 1 && r == Ok(first.value.value))
      && (|sent| == 2 <==> first.Ok? && first.value.Invalid?)
    ensures |sent| == 2 ==>
      var first := Attempt(options, api(0, sent[0]));
      var second := Attempt(options, api(1, sent[1]));
      && first.Ok? && first.value.Invalid?
      && sent[1].userContent == RepairPrompt(options.userPrompt, first.value.message, options.schemaName)
      && (second.Err? ==> r == Err(second.error))
      && (second.Ok? && second.value.Valid? ==> r == Ok(second.value.value))
      && (second.Ok? && second.value.Invalid? ==>
            r == Err(Error("Structured output invalid after retry: " + second.value.message)))
  {
    var primaryRaw, primaryRequest := CreateResponse(options, api, 0, options.userPrompt);
    sent := [primaryRequest];
    if primaryRaw.Err? {
      return Err(primaryRaw.error), sent;
    }
    var primaryValidation := ValidateOutput(options.validator, primaryRaw.value);
    if primaryValidation.Valid? {
      return Ok(primaryValidation.value), sent;
    }
    var repairPrompt := RepairPrompt(options.userPrompt, primaryValidation.message, options.schemaName);
    var retryRaw, retryRequest := CreateResponse(options, api, 1, repairPrompt);
    sent := sent + [retryRequest];
    if retryRaw.Err? {
      return Err(retryRaw.error), sent;
    }
    var retryValidation := ValidateOutput(options.validator, retryRaw.value);
    if retryValidation.Valid? {
      return Ok(retryValidation.value), sent;
    }
    r := Err(Error("Structured output invalid after retry: " + retryValidation.message));
  }
}
