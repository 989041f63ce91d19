/**
 * The project details page: which step it shows for a loaded project, the
 * questions it derives from the focus form's items, the answers it starts
 * from, and the payload it submits.
 */
module ProjectDetailsPage {
  import opened Results
  import Shared
  import Form = FocusQuestionsForm

  /** The two fields of a prompt execution the page reads. */
  datatype PromptExecutionSummary = PromptExecutionSummary(stage: string, status: string)

  datatype FocusForm = FocusForm(items: seq<Shared.FocusItemDto>)

  /** The fields of the loaded project the page reads. */
  datatype ContextProject = ContextProject(
    status: string,
    promptExecutions: seq<PromptExecutionSummary>,
    focusForm: Option<FocusForm>)

  datatype ProjectStep = Loading | Generating | FocusFormStep | Details

  /** One entry of the `PUT /projects/:id/focus-responses` body. */
  datatype SubmitFocusResponseInput = SubmitFocusResponseInput(focusItemId: string, answer: string)

  /** `JSON.stringify` of a string list; the encoding itself is not modelled. */
  type Stringify = seq<string> -> string

  predicate HasCompletedContext(project: ContextProject) {
    exists k :: 0 <= k < |project.promptExecutions| &&
      project.promptExecutions[k].stage == "project_context" &&
      project.promptExecutions[k].status == "success"
  }

  predicate HasUnanswered(items: seq<Shared.FocusItemDto>) {
    exists k :: 0 <= k < |items| && items[k].answer.None?
  }

  /**
   * `deriveProjectStep`: nothing loaded yet, a draft still waiting for its
   * context, a draft whose focus form has open items, or the details.
   */
  function DeriveProjectStep(project: Option<ContextProject>): (r: ProjectStep)
    ensures r == Loading <==> project.None?
    ensures r == Generating <==>
      project.Some? && project.value.status == "draft" &&
      !HasCompletedContext(project.value) && project.value.focusForm.None?
    ensures r == FocusFormStep <==>
      project.Some? && project.value.status == "draft" &&
      project.value.focusForm.Some? && HasUnanswered(project.value.focusForm.value.items)
    ensures project.Some? && project.value.status != "draft" ==> r == Details
  {
    if project.None? then Loading
    else
      var p := project.value;
      if p.status == "draft" then
        if !HasCompletedContext(p) && p.focusForm.None? then Generating
        else if p.focusForm.Some? && HasUnanswered(p.focusForm.value.items) then FocusFormStep
        else Details
      else Details
  }

  /** Once every focus item holds an answer the page shows the details. */
  lemma AnsweredFormShowsDetails(project: ContextProject)
    requires project.focusForm.Some?
    requires forall k :: 0 <= k < |project.focusForm.value.items| ==> project.focusForm.value.items[k].answer.Some?
    ensures DeriveProjectStep(Some(project)) == Details
  {
  }

  /** Each item's options become `{ value: opt, label: opt }`. */
  function OptionsOf(options: seq<string>): (r: seq<Form.FocusQuestionOption>)
    ensures |r| == |options|
    ensures forall k :: 0 <= k < |r| ==> r[k] == Form.FocusQuestionOption(options[k], options[k])
  {
    seq(|options|, k requires 0 <= k < |options| => Form.FocusQuestionOption(options[k], options[k]))
  }

  function OptionValues(options: seq<Form.FocusQuestionOption>): (r: seq<string>)
    ensures |r| == |options|
    ensures forall k :: 0 <= k < |r| ==> r[k] == options[k].value
  {
    seq(|options|, k requires 0 <= k < |options| => options[k].value)
  }

  function QuestionOf(item: Shared.FocusItemDto): Form.FocusQuestion {
    Form.FocusQuestion(item.id, item.question, item.questionType, OptionsOf(item.options), item.position, true)
  }

  /**
   * `mapFocusItemsToQuestions`: one required question per item, in order, whose
   * option values are the item's options.
   */
  function MapFocusItemsToQuestions(items: seq<Shared.FocusItemDto>): (r: seq<Form.FocusQuestion>)
    ensures |r| == |items|
    ensures forall k :: 0 <= k < |r| ==>
      r[k].id == items[k].id && r[k].prompt == items[k].question &&
      r[k].questionType == items[k].questionType && r[k].position == items[k].position &&
      r[k].required && OptionValues(r[k].options) == items[k].options
  {
    seq(|items|, k requires 0 <= k < |items| => QuestionOf(items[k]))
  }

  /** The answers one item starts from. */
  function InitialResponse(item: Shared.FocusItemDto): seq<string> {
    if item.answer.Some? then [item.answer.value]
    else if item.questionType == "single_select" && |item.options| > 0 && item.options[0] != "" then [item.options[0]]
    else []
  }

  predicate IdLastAt(items: seq<Shared.FocusItemDto>, k: int)
    requires 0 <= k < |items|
  {
    forall j :: k < j < |items| ==> items[j].id != items[k].id
  }

  /** `buildInitialResponses` as a value: the items written one after another into a record. */
  function InitialResponsesOf(items: seq<Shared.FocusItemDto>): Form.Responses
    decreases |items|
  {
    if items == [] then map[]
    else
      var n := |items| - 1;
      InitialResponsesOf(items[..n])[items[n].id := InitialResponse(items[n])]
  }

  /** The starting record has exactly one key per item id. */
  lemma {:induction false} InitialResponsesKeys(items: seq<Shared.FocusItemDto>)
    ensures forall id :: id in InitialResponsesOf(items) <==> exists k :: 0 <= k < |items| && items[k].id == id
    decreases |items|
  {
    if items != [] {
      var n := |items| - 1;
      InitialResponsesKeys(items[..n]);
      forall id | id in InitialResponsesOf(items)
        ensures exists k :: 0 <= k < |items| && items[k].id == id
      {
        if id != items[n].id {
          assert id in InitialResponsesOf(items[..n]);
          var k :| 0 <= k < |items[..n]| && items[..n][k].id == id;
          assert items[k].id == id;
        }
      }
      forall id | exists k :: 0 <= k < |items| && items[k].id == id
        ensures id in InitialResponsesOf(items)
      {
        var k :| 0 <= k < |items| && items[k].id == id;
        if k < n {
          assert items[..n][k].id == id;
        }
      }
    }
  }

  /** For an id that several items share, the last such item decides its starting answers. */
  lemma {:induction false} InitialResponsesLastWins(items: seq<Shared.FocusItemDto>, k: nat)
    requires k < |items| && IdLastAt(items, k)
    ensures items[k].id in InitialResponsesOf(items)
    ensures InitialResponsesOf(items)[items[k].id] == InitialResponse(items[k])
    decreases |items|
  {
    var n := |items| - 1;
    if k < n {
      assert items[..n][k] == items[k];
      assert IdLastAt(items[..n], k);
      InitialResponsesLastWins(items[..n], k);
    }
  }

  /** `buildInitialResponses`: the loop writing one entry per item. */
  method BuildInitialResponses(items: seq<Shared.FocusItemDto>) returns (responses: Form.Responses)
    ensures responses == InitialResponsesOf(items)
  {
    responses := map[];
    for i := 0 to |items|
      invariant responses == InitialResponsesOf(items[..i])
    {
      var item := items[i];
      if item.answer.Some? {
        responses := responses[item.id := [item.answer.value]];
      } else if item.questionType == "single_select" && |item.options| > 0 && item.options[0] != "" {
        responses := responses[item.id := [item.options[0]]];
      } else {
        responses := responses[item.id := []];
      }
      assert items[..i + 1][..i] == items[..i];
    }
    assert items[..|items|] == items;
  }

  /** The answer submitted for one item: the JSON list for multi-select, else the first entry. */
  function SubmitAnswer(item: Shared.FocusItemDto, responses: Form.Responses, stringify: Stringify): string {
    var values := if item.id in responses then responses[item.id] else [];
    if item.questionType == "multi_select" then stringify(values)
    else if |values| > 0 then values[0] else ""
  }

  /** The `responses` array of the focus submit: one entry per item, in order. */
  function FocusSubmitPayload(items: seq<Shared.FocusItemDto>, responses: Form.Responses, stringify: Stringify)
    : (r: seq<SubmitFocusResponseInput>)
    ensures |r| == |items|
    ensures forall k :: 0 <= k < |r| ==>
      r[k].focusItemId == items[k].id && r[k].answer == SubmitAnswer(items[k], responses, stringify)
  {
    seq(|items|, k requires 0 <= k < |items| => SubmitFocusResponseInput(items[k].id, SubmitAnswer(items[k], responses, stringify)))
  }

  /**
   * Submitting the starting answers unchanged sends back every stored answer
   * of a single-answer item, and the first option of an unanswered single-select one.
   */
  lemma UntouchedFormResubmitsAnswers(items: seq<Shared.FocusItemDto>, stringify: Stringify, k: nat)
    requires k < |items| && IdLastAt(items, k)
    requires items[k].questionType != "multi_select"
    ensures items[k].answer.Some? ==>
      FocusSubmitPayload(items, InitialResponsesOf(items), stringify)[k].answer == items[k].answer.value
    ensures items[k].answer.None? && items[k].questionType == "single_select" && |items[k].options| > 0 ==>
      FocusSubmitPayload(items, InitialResponsesOf(items), stringify)[k].answer == items[k].options[0]
    ensures items[k].answer.None? && items[k].questionType != "single_select" ==>
      FocusSubmitPayload(items, InitialResponsesOf(items), stringify)[k].answer == ""
  {
    InitialResponsesLastWins(items, k);
  }

  /** A radio choice reported through the form is what the submit sends for that item. */
  lemma ChosenRadioIsSubmitted(items: seq<Shared.FocusItemDto>, responses: Form.Responses,
                               stringify: Stringify, k: nat, v: string)
    requires k < |items| && items[k].questionType == "single_select"
    ensures FocusSubmitPayload(items, Form.ReportChange(responses, items[k].id, Form.RadioSelect(v)), stringify)[k].answer == v
  {
  }

  /** A multi-select item sends the JSON of exactly its reported list. */
  lemma CheckedBoxesAreSubmitted(items: seq<Shared.FocusItemDto>, responses: Form.Responses,
                                 stringify: Stringify, k: nat, values: seq<string>)
    requires k < |items| && items[k].questionType == "multi_select"
    ensures FocusSubmitPayload(items, Form.ReportChange(responses, items[k].id, values), stringify)[k].answer
         == stringify(values)
  {
  }
}
