/**
 * The goal intake page of the web app: the answers it keeps per question, the
 * updates its controls make, the `responses` payload it derives, and the body
 * it sends to `POST /projects`.
 */
module IntakePage {
  import opened Results
  import opened Values
  import Text
  import Shared
  import Api
  import StoryDtos

  /** A stored answer: the text of a text area or the ticked options of a checkbox group. */
  datatype Answer = TextAnswer(text: string) | ListAnswer(items: seq<string>)

  /** `AnswerState`, keyed by question id. */
  type AnswerState = map<string, Answer>

  /** `updateAnswer`: `{ ...prev, [questionId]: value }`. */
  function UpdateAnswer(answers: AnswerState, questionId: string, value: Answer): (r: AnswerState)
    ensures questionId in r && r[questionId] == value
    ensures r.Keys == answers.Keys + {questionId}
    ensures forall id :: id != questionId && id in answers ==> r[id] == answers[id]
  {
    answers[questionId := value]
  }

  /** The ticked options of a question; anything but a list counts as none. */
  function CurrentList(answers: AnswerState, questionId: string): seq<string> {
    if questionId in answers && answers[questionId].ListAnswer? then answers[questionId].items else []
  }

  /** Whether the checkbox for `option` is ticked. */
  predicate IsTicked(answers: AnswerState, questionId: string, option: string) {
    option in CurrentList(answers, questionId)
  }

  /**
   * A checkbox change: ticking appends the option to the current list, unticking
   * filters every copy of it out. Only that question's answer changes.
   */
  function CheckboxChange(answers: AnswerState, questionId: string, option: string, checked: bool): (r: AnswerState)
    ensures questionId in r && r[questionId].ListAnswer?
    ensures IsTicked(r, questionId, option) <==> checked
    ensures checked ==> CurrentList(r, questionId) == CurrentList(answers, questionId) + [option]
    ensures !checked ==> CurrentList(r, questionId) == Text.RemoveAll(CurrentList(answers, questionId), option)
    ensures forall o :: o != option ==> (IsTicked(r, questionId, o) <==> IsTicked(answers, questionId, o))
    ensures forall id :: id != questionId ==> (id in r <==> id in answers) && (id in answers ==> r[id] == answers[id])
  {
    var current := CurrentList(answers, questionId);
    var next := if checked then current + [option] else Text.RemoveAll(current, option);
    UpdateAnswer(answers, questionId, ListAnswer(next))
  }

  /** Ticking an unticked box and unticking it again restores the answer list. */
  lemma {:induction false} TickUntickRestores(answers: AnswerState, questionId: string, option: string)
    requires questionId in answers && answers[questionId].ListAnswer?
    requires !IsTicked(answers, questionId, option)
    ensures CheckboxChange(CheckboxChange(answers, questionId, option, true), questionId, option, false) == answers
  {
    var current := CurrentList(answers, questionId);
    assert CurrentList(CheckboxChange(answers, questionId, option, true), questionId) == current + [option];
    Text.RemoveAllAppended(current, option);
  }

  /** Typing into a text area stores the text. */
  function TextChange(answers: AnswerState, questionId: string, text: string): AnswerState {
    UpdateAnswer(answers, questionId, TextAnswer(text))
  }

  /**
   * What the page relies on when it casts a single-answer value to a string: a
   * question that is not multi-select never holds a list.
   */
  predicate TextOnSingleAnswers(questions: seq<StoryDtos.IntakeQuestionDto>, answers: AnswerState) {
    forall k :: 0 <= k < |questions| && questions[k].questionType != "multi_select" && questions[k].id in answers ==>
      answers[questions[k].id].TextAnswer?
  }

  predicate DistinctIds(questions: seq<StoryDtos.IntakeQuestionDto>) {
    forall i, j :: 0 <= i < j < |questions| ==> questions[i].id != questions[j].id
  }

  /**
   * The controls keep the cast sound: a checkbox only writes to a multi-select
   * question, a text area only to another kind, and question ids are distinct.
   */
  lemma ControlsKeepTextOnSingleAnswers(questions: seq<StoryDtos.IntakeQuestionDto>, answers: AnswerState,
                                        k: nat, option: string, checked: bool, text: string)
    requires DistinctIds(questions) && TextOnSingleAnswers(questions, answers) && k < |questions|
    ensures questions[k].questionType == "multi_select" ==>
      TextOnSingleAnswers(questions, CheckboxChange(answers, questions[k].id, option, checked))
    ensures questions[k].questionType != "multi_select" ==>
      TextOnSingleAnswers(questions, TextChange(answers, questions[k].id, text))
  {
  }

  /**
   * One `responsePayload` entry: for multi-select the non-empty ticked options,
   * otherwise the text, or `''` when it is empty or missing.
   */
  function ResponseFor(question: StoryDtos.IntakeQuestionDto, answers: AnswerState): (r: Api.QuestionResponseInput)
    requires question.questionType != "multi_select" && question.id in answers ==> answers[question.id].TextAnswer?
    ensures r.questionId == question.id
    ensures question.questionType == "multi_select" ==>
      "" !in r.values && forall v :: v != "" ==> (v in r.values <==> IsTicked(answers, question.id, v))
    ensures question.questionType != "multi_select" ==>
      |r.values| == 1 && r.values[0] == (if question.id in answers then answers[question.id].text else "")
  {
    var id := question.id;
    if question.questionType == "multi_select" then
      Api.QuestionResponseInput(id, Text.RemoveAll(CurrentList(answers, id), ""))
    else if id in answers && answers[id].text != "" then
      Api.QuestionResponseInput(id, [answers[id].text])
    else
      Api.QuestionResponseInput(id, [""])
  }

  /** `responsePayload`: one entry per question, in question order. */
  function ResponsePayload(questions: seq<StoryDtos.IntakeQuestionDto>, answers: AnswerState)
    : (r: seq<Api.QuestionResponseInput>)
    requires TextOnSingleAnswers(questions, answers)
    ensures |r| == |questions|
    ensures forall k :: 0 <= k < |r| ==> r[k] == ResponseFor(questions[k], answers)
  {
    seq(|questions|, k requires 0 <= k < |questions| => ResponseFor(questions[k], answers))
  }

  /** One entry as the JSON the page sends. */
  function ResponseJson(response: Api.QuestionResponseInput): Value {
    Obj(map["questionId" := Str(response.questionId), "values" := StringArray(response.values)])
  }

  function PayloadJson(payload: seq<Api.QuestionResponseInput>): (r: Value)
    ensures r.Arr? && |r.items| == |payload|
    ensures forall k :: 0 <= k < |payload| ==> r.items[k] == ResponseJson(payload[k])
  {
    Arr(seq(|payload|, k requires 0 <= k < |payload| => ResponseJson(payload[k])))
  }

  /** `submit` up to the request: a blank title is refused, otherwise the trimmed title is sent. */
  function SubmitBody(title: string, payload: seq<Api.QuestionResponseInput>): (r: Result<Value, string>)
    ensures r.Err? <==> Text.IsBlank(title)
    ensures r.Err? ==> r.error == "Goal title is required."
    ensures r.Ok? ==> Get(r.value, "title") == Str(Text.Trim(title)) && Get(r.value, "responses") == PayloadJson(payload)
  {
    if Text.IsBlank(title) then Err("Goal title is required.")
    else Ok(Obj(map["title" := Str(Text.Trim(title)), "responses" := PayloadJson(payload)]))
  }

  /** Whatever entries the page builds, the route's `normalizeResponses` reads them back unchanged. */
  lemma {:induction false} PayloadSurvivesNormalization(payload: seq<Api.QuestionResponseInput>)
    ensures Api.NormalizeResponses(PayloadJson(payload)) == Ok(payload)
  {
    var json := PayloadJson(payload);
    forall k | 0 <= k < |json.items|
      ensures Api.HasQuestionId(json.items[k])
    {
      assert json.items[k] == ResponseJson(payload[k]);
    }
    var r := Api.NormalizeResponses(json);
    assert r.Ok? && |r.value| == |payload|;
    forall k | 0 <= k < |payload|
      ensures r.value[k] == payload[k]
    {
      var values := StringArray(payload[k].values);
      assert json.items[k] == ResponseJson(payload[k]);
      assert Str(r.value[k].questionId) == Get(json.items[k], "questionId") == Str(payload[k].questionId);
      assert Get(json.items[k], "values") == values;
      assert StringArray(r.value[k].values) == values;
      assert r.value[k].values == Strings(values);
    }
    assert r.value == payload;
  }

  /**
   * A submitted intake is accepted by `POST /projects` as it stands: the stored
   * title is the trimmed title and the stored responses are the page's payload.
   */
  lemma {:induction false} SubmittedIntakeAccepted(title: string, payload: seq<Api.QuestionResponseInput>)
    requires !Text.IsBlank(title)
    ensures Api.ValidateCreateProject(SubmitBody(title, payload).value)
         == Ok(Api.CreateProjectInput(Shared.TEST_USER_ID, Text.Trim(title), payload))
  {
    var body := SubmitBody(title, payload).value;
    Text.TrimIdempotent(title);
    assert Api.BodyOrEmpty(body) == body;
    assert Api.IsGoal(Get(body, "title"));
    PayloadSurvivesNormalization(payload);
  }
}
