/**
 * The start-project page: when the intake can be submitted, the answers it
 * pre-selects from the loaded intake form, the body it sends to
 * `POST /projects/start`, and the focus questions and starting answers it
 * derives from the reply.
 */
module StartProjectPage {
  import opened Results
  import opened Values
  import Text
  import Shared
  import Api
  import Form = FocusQuestionsForm

  /**
   * `isReadyToSubmit`: a non-blank goal, all three selections made and an
   * intake form with at least one question.
   */
  predicate IsReadyToSubmit(goal: string, commitment: string, familiarity: string, workStyle: string,
                            intakeForm: Option<Shared.FormDefinition>)
  {
    !Text.IsBlank(goal) && commitment != "" && familiarity != "" && workStyle != "" &&
    intakeForm.Some? && |intakeForm.value.questions| > 0
  }

  /** The index of the first question with that id, or `|questions|`. */
  function FirstWithId(questions: seq<Shared.FormQuestion>, id: string): (k: nat)
    ensures k <= |questions|
    ensures forall j :: 0 <= j < k ==> questions[j].id != id
    ensures k < |questions| ==> questions[k].id == id
  {
    if questions == [] || questions[0].id == id then 0 else 1 + FirstWithId(questions[1..], id)
  }

  /** `questions.find((question) => question.id === id)`. */
  function FindQuestion(questions: seq<Shared.FormQuestion>, id: string): Option<Shared.FormQuestion> {
    var k := FirstWithId(questions, id);
    if k < |questions| then Some(questions[k]) else None
  }

  /** The value pre-selected for a question: its first option's value, or `''`. */
  function DefaultSelection(form: Shared.FormDefinition, id: string): (r: string)
    ensures (forall k :: 0 <= k < |form.questions| ==> form.questions[k].id != id) ==> r == ""
    ensures var k := FirstWithId(form.questions, id);
      k < |form.questions| && |form.questions[k].options| > 0 ==> r == form.questions[k].options[0].value
    ensures var k := FirstWithId(form.questions, id);
      k < |form.questions| && |form.questions[k].options| == 0 ==> r == ""
  {
    match FindQuestion(form.questions, id)
    case Some(q) => if |q.options| > 0 then q.options[0].value else ""
    case None => ""
  }

  /** On the shared intake form the defaults are the first value of each set. */
  lemma {:induction false} IntakeFormDefaults()
    ensures DefaultSelection(Shared.PROJECT_INTAKE_FORM, Shared.INTAKE_QUESTION_ID_COMMITMENT) == "light"
    ensures DefaultSelection(Shared.PROJECT_INTAKE_FORM, Shared.INTAKE_QUESTION_ID_FAMILIARITY) == "completely_new"
    ensures DefaultSelection(Shared.PROJECT_INTAKE_FORM, Shared.INTAKE_QUESTION_ID_WORK_STYLE) == "short_daily_sessions"
  {
    var qs := Shared.PROJECT_INTAKE_FORM.questions;
    assert qs[1..][1..][1..][0].id == Shared.INTAKE_QUESTION_ID_WORK_STYLE;
    assert qs[1..][1..][0].id == Shared.INTAKE_QUESTION_ID_FAMILIARITY;
    assert qs[1..][0].id == Shared.INTAKE_QUESTION_ID_COMMITMENT;
  }

  /** The JSON body of `POST /projects/start`. */
  function StartBody(goal: string, commitment: string, familiarity: string, workStyle: string): Value {
    Obj(map[
      "goal" := Str(goal),
      "commitment" := Str(commitment),
      "familiarity" := Str(familiarity),
      "workStyle" := Str(workStyle)])
  }

  /**
   * `submit` up to the request: a blank goal and a missing selection are reported
   * in that order; otherwise the trimmed goal and the three selections are sent.
   */
  function Submit(goal: string, commitment: string, familiarity: string, workStyle: string): (r: Result<Value, string>)
    ensures Text.IsBlank(goal) ==> r == Err("Please enter your goal.")
    ensures !Text.IsBlank(goal) && (commitment == "" || familiarity == "" || workStyle == "") ==>
      r == Err("Please answer all intake questions.")
    ensures r.Ok? <==> !Text.IsBlank(goal) && commitment != "" && familiarity != "" && workStyle != ""
    ensures r.Ok? ==> Get(r.value, "goal") == Str(Text.Trim(goal))
  {
    var trimmed := Text.Trim(goal);
    if trimmed == "" then Err("Please enter your goal.")
    else if commitment == "" || familiarity == "" || workStyle == "" then Err("Please answer all intake questions.")
    else Ok(StartBody(trimmed, commitment, familiarity, workStyle))
  }

  /** Whenever the page counts as ready, submitting sends a request. */
  lemma ReadyPageSubmits(goal: string, commitment: string, familiarity: string, workStyle: string,
                         intakeForm: Option<Shared.FormDefinition>)
    requires IsReadyToSubmit(goal, commitment, familiarity, workStyle, intakeForm)
    ensures Submit(goal, commitment, familiarity, workStyle).Ok?
  {
  }

  /**
   * A body the page sends with selections from the shared value sets passes the
   * route's checks, and the route stores the goal exactly as the page sent it.
   */
  lemma {:induction false} SubmittedBodyAccepted(goal: string, commitment: string, familiarity: string, workStyle: string)
    requires Submit(goal, commitment, familiarity, workStyle).Ok?
    requires commitment in Shared.PROJECT_COMMITMENT_VALUES
    requires familiarity in Shared.PROJECT_FAMILIARITY_VALUES
    requires workStyle in Shared.PROJECT_WORK_STYLE_VALUES
    ensures Api.ValidateStart(Submit(goal, commitment, familiarity, workStyle).value)
         == Ok(Api.IntakeAnswers(Text.Trim(goal), commitment, familiarity, workStyle))
  {
    var body := StartBody(Text.Trim(goal), commitment, familiarity, workStyle);
    assert Submit(goal, commitment, familiarity, workStyle).value == body;
    Text.TrimIdempotent(goal);
    assert Api.BodyOrEmpty(body) == body;
    assert Get(body, "goal") == Str(Text.Trim(goal));
    assert Get(body, "commitment") == Str(commitment);
    assert Get(body, "familiarity") == Str(familiarity);
    assert Get(body, "workStyle") == Str(workStyle);
    assert Api.IsGoal(Get(body, "goal"));
    assert Shared.IsProjectCommitment(Get(body, "commitment"));
    assert Shared.IsProjectFamiliarity(Get(body, "familiarity"));
    assert Shared.IsProjectWorkStyle(Get(body, "workStyle"));
  }

  /** With the shared intake form loaded, the page is ready as soon as the goal is not blank. */
  lemma DefaultsMakeReady(goal: string)
    requires !Text.IsBlank(goal)
    ensures IsReadyToSubmit(goal,
      DefaultSelection(Shared.PROJECT_INTAKE_FORM, Shared.INTAKE_QUESTION_ID_COMMITMENT),
      DefaultSelection(Shared.PROJECT_INTAKE_FORM, Shared.INTAKE_QUESTION_ID_FAMILIARITY),
      DefaultSelection(Shared.PROJECT_INTAKE_FORM, Shared.INTAKE_QUESTION_ID_WORK_STYLE),
      Some(Shared.PROJECT_INTAKE_FORM))
  {
    IntakeFormDefaults();
  }

  /** An option in the reply: a bare string or a `{ value, label }` pair. */
  datatype RawOption = PlainOption(text: string) | FullOption(option: Shared.FormOption)

  datatype RawFocusQuestion = RawFocusQuestion(
    id: string,
    prompt: string,
    questionType: string,
    options: seq<RawOption>,
    position: int,
    required: bool)

  /** A bare string becomes an option whose value and label are that string. */
  function NormalizeOption(option: RawOption): (r: Form.FocusQuestionOption)
    ensures option.PlainOption? ==> r.value == option.text && r.labelText == option.text
    ensures option.FullOption? ==> r.value == option.option.value && r.labelText == option.option.labelText
  {
    match option
    case PlainOption(text) => Form.FocusQuestionOption(text, text)
    case FullOption(o) => Form.FocusQuestionOption(o.value, o.labelText)
  }

  function NormalizeQuestion(q: RawFocusQuestion): Form.FocusQuestion {
    Form.FocusQuestion(q.id, q.prompt, q.questionType,
      seq(|q.options|, k requires 0 <= k < |q.options| => NormalizeOption(q.options[k])),
      q.position, q.required)
  }

  /** `normalizedFocusQuestions`: nothing before a reply, else one question per question, in order. */
  function NormalizeFocusQuestions(questions: Option<seq<RawFocusQuestion>>): (r: Option<seq<Form.FocusQuestion>>)
    ensures r.None? <==> questions.None?
    ensures r.Some? ==> |r.value| == |questions.value|
    ensures r.Some? ==> forall k :: 0 <= k < |r.value| ==>
      var (q, raw) := (r.value[k], questions.value[k]);
      q.id == raw.id && q.prompt == raw.prompt && q.questionType == raw.questionType &&
      q.position == raw.position && q.required == raw.required && |q.options| == |raw.options| &&
      forall j :: 0 <= j < |q.options| ==> q.options[j] == NormalizeOption(raw.options[j])
  {
    match questions
    case None => None
    case Some(qs) => Some(seq(|qs|, k requires 0 <= k < |qs| => NormalizeQuestion(qs[k])))
  }

  /** The answers one focus question starts from. */
  function InitialFocusResponse(q: Form.FocusQuestion): seq<string> {
    if q.questionType == "single_select" && |q.options| > 0 then [q.options[0].value] else []
  }

  /** The starting answers as a value: the questions written one after another into a record. */
  function InitialFocusResponsesOf(questions: seq<Form.FocusQuestion>): Form.Responses
    decreases |questions|
  {
    if questions == [] then map[]
    else
      var n := |questions| - 1;
      InitialFocusResponsesOf(questions[..n])[questions[n].id := InitialFocusResponse(questions[n])]
  }

  /** The `forEach` that fills the starting answers. */
  method InitialFocusResponses(questions: seq<Form.FocusQuestion>) returns (responses: Form.Responses)
    ensures responses == InitialFocusResponsesOf(questions)
  {
    responses := map[];
    for i := 0 to |questions|
      invariant responses == InitialFocusResponsesOf(questions[..i])
    {
      var q := questions[i];
      if q.questionType == "single_select" && |q.options| > 0 {
        responses := responses[q.id := [q.options[0].value]];
      } else {
        responses := responses[q.id := []];
      }
      assert questions[..i + 1][..i] == questions[..i];
    }
    assert questions[..|questions|] == questions;
  }

  /**
   * Every question gets an entry; a question whose id no later question shares
   * starts from its own default.
   */
  lemma {:induction false} InitialFocusResponsesCover(questions: seq<Form.FocusQuestion>, k: nat)
    requires k < |questions|
    requires forall j :: k < j < |questions| ==> questions[j].id != questions[k].id
    ensures questions[k].id in InitialFocusResponsesOf(questions)
    ensures InitialFocusResponsesOf(questions)[questions[k].id] == InitialFocusResponse(questions[k])
    decreases |questions|
  {
    var n := |questions| - 1;
    if k < n {
      assert questions[..n][k] == questions[k];
      assert forall j :: k < j < n ==> questions[..n][j] == questions[j];
      InitialFocusResponsesCover(questions[..n], k);
    }
  }

  /** A single-select question with options starts with its first radio button checked. */
  lemma FirstRadioStartsChecked(questions: seq<Form.FocusQuestion>, k: nat)
    requires k < |questions|
    requires forall j :: k < j < |questions| ==> questions[j].id != questions[k].id
    requires questions[k].questionType == "single_select" && |questions[k].options| > 0
    ensures Form.RadioChecked(
      Form.CurrentResponse(InitialFocusResponsesOf(questions), questions[k].id),
      questions[k].options[0].value)
  {
    InitialFocusResponsesCover(questions, k);
  }
}
