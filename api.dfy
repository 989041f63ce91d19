/**
 * The request validation and error classification of the HTTP API:
 * `normalizeResponses`, the field checks of `POST /projects/start` and
 * `POST /projects`, and the 404/500 decision of `GET /projects/:projectId`.
 * The Express plumbing and the database and model calls are not modelled.
 */
module Api {
  import opened Results
  import opened Values
  import opened Errors
  import Text
  import Shared
  import AiSchemas
  import DatabaseSchemas

  datatype QuestionResponseInput = QuestionResponseInput(questionId: string, values: seq<string>)

  /** A JSON reply with a status code, a `message` and, on 500s, the underlying `error`. */
  datatype Reply = Reply(status: nat, message: string, error: Option<string>)

  /** What `POST /projects/start` goes on to use once the body is accepted. */
  datatype IntakeAnswers = IntakeAnswers(goal: string, commitment: string, familiarity: string, workStyle: string)

  /** The argument of the database's `createProject`. */
  datatype CreateProjectInput = CreateProjectInput(userId: string, title: string, responses: seq<QuestionResponseInput>)

  /** The element check of `normalizeResponses`: a non-null object with a string `questionId`. */
  predicate HasQuestionId(response: Value) {
    IsObjectLike(response) && Get(response, "questionId").Str?
  }

  function MissingQuestionIdMessage(index: nat): string {
    "responses[" + Text.DecimalString(index) + "] is missing a questionId"
  }

  /** `values` survives only when it is an array holding nothing but strings. */
  function NormalizeValues(raw: Value): (r: seq<string>)
    ensures IsStringArray(raw) ==> StringArray(r) == raw
    ensures !IsStringArray(raw) ==> r == []
  {
    if IsStringArray(raw) then
      assert StringArray(Strings(raw)).items == raw.items;
      Strings(raw)
    else []
  }

  /** The entry built for one accepted element. */
  function NormalizeEntry(response: Value): QuestionResponseInput
    requires HasQuestionId(response)
  {
    QuestionResponseInput(Get(response, "questionId").s, NormalizeValues(Get(response, "values")))
  }

  /** The first index at or after `from` whose element lacks a `questionId`, or `|items|`. */
  function FirstMissing(items: seq<Value>, from: nat): (k: nat)
    requires from <= |items|
    ensures from <= k <= |items|
    ensures forall j :: from <= j < k ==> HasQuestionId(items[j])
    ensures k < |items| ==> !HasQuestionId(items[k])
    decreases |items| - from
  {
    if from == |items| || !HasQuestionId(items[from]) then from else FirstMissing(items, from + 1)
  }

  /** The `map` callback applied from index `from` on, stopping at the first throw. */
  function NormalizeFrom(items: seq<Value>, from: nat): (r: Result<seq<QuestionResponseInput>, string>)
    requires from <= |items|
    ensures r.Ok? <==> FirstMissing(items, from) == |items|
    ensures r.Err? ==> r.error == MissingQuestionIdMessage(FirstMissing(items, from))
    ensures r.Ok? ==> (|r.value| == |items| - from &&
      forall k :: from <= k < |items| ==> HasQuestionId(items[k]) && r.value[k - from] == NormalizeEntry(items[k]))
    decreases |items| - from
  {
    if from == |items| then Ok([])
    else if !HasQuestionId(items[from]) then Err(MissingQuestionIdMessage(from))
    else
      match NormalizeFrom(items, from + 1)
      case Err(e) => Err(e)
      case Ok(rest) => Ok([NormalizeEntry(items[from])] + rest)
  }

  /**
   * `normalizeResponses`: a non-array fails; otherwise the first element without a
   * string `questionId` fails naming its index; otherwise one entry per element, in order.
   */
  function NormalizeResponses(responses: Value): (r: Result<seq<QuestionResponseInput>, string>)
    ensures !responses.Arr? ==> r == Err("responses must be an array")
    ensures responses.Arr? && r.Err? ==>
      var k := FirstMissing(responses.items, 0);
      k < |responses.items| && !HasQuestionId(responses.items[k]) &&
      (forall j :: 0 <= j < k ==> HasQuestionId(responses.items[j])) &&
      r.error == MissingQuestionIdMessage(k)
    ensures r.Ok? <==> responses.Arr? && forall k :: 0 <= k < |responses.items| ==> HasQuestionId(responses.items[k])
    ensures r.Ok? ==> (|r.value| == |responses.items| &&
      forall k :: 0 <= k < |r.value| ==>
        Str(r.value[k].questionId) == Get(responses.items[k], "questionId") &&
        r.value[k].values == NormalizeValues(Get(responses.items[k], "values")))
  {
    if !responses.Arr? then Err("responses must be an array")
    else NormalizeFrom(responses.items, 0)
  }

  /** An array of strings passes through unchanged, the empty array included. */
  lemma KeepsStringArrays(questionId: string, values: seq<string>)
    ensures NormalizeResponses(Arr([Obj(map["questionId" := Str(questionId), "values" := StringArray(values)])]))
         == Ok([QuestionResponseInput(questionId, values)])
  {
    var v := StringArray(values);
    var item := Obj(map["questionId" := Str(questionId), "values" := v]);
    assert HasQuestionId(item);
    assert Get(item, "values") == v && Strings(v) == values;
    assert NormalizeEntry(item) == QuestionResponseInput(questionId, values);
    assert NormalizeFrom([item], 1) == Ok([]);
    assert [item][0] == item && [NormalizeEntry(item)] + [] == [NormalizeEntry(item)];
    assert NormalizeFrom([item], 0) == Ok([NormalizeEntry(item)]);
  }

  /** `values` that is missing, or an array holding a non-string, becomes `[]`. */
  lemma DropsMalformedValues(questionId: string, values: Value)
    requires !IsStringArray(values)
    ensures NormalizeResponses(Arr([Obj(map["questionId" := Str(questionId), "values" := values])]))
         == Ok([QuestionResponseInput(questionId, [])])
  {
    var item := Obj(map["questionId" := Str(questionId), "values" := values]);
    assert HasQuestionId(item);
    assert Get(item, "values") == values;
    assert NormalizeEntry(item) == QuestionResponseInput(questionId, []);
    assert NormalizeFrom([item], 1) == Ok([]);
    assert [item][0] == item && [NormalizeEntry(item)] + [] == [NormalizeEntry(item)];
    assert NormalizeFrom([item], 0) == Ok([NormalizeEntry(item)]);
  }

  /** `req.body ?? {}`. */
  function BodyOrEmpty(body: Value): Value {
    Coalesce(body, Obj(map[]))
  }

  predicate IsGoal(goal: Value) {
    goal.Str? && !Text.IsBlank(goal.s)
  }

  function BadRequest(message: string): Reply {
    Reply(400, message, None)
  }

  /**
   * `POST /projects/start` up to the database call: goal, commitment, familiarity and
   * work style are checked in that order; the first failing field decides the 400 reply.
   * On success the goal is trimmed.
   */
  function ValidateStart(rawBody: Value): (r: Result<IntakeAnswers, Reply>)
    ensures r.Err? ==> r.error.status == 400 && r.error.error == None
    ensures
      var body := BodyOrEmpty(rawBody);
      var goal, commitment, familiarity, workStyle :=
        Get(body, "goal"), Get(body, "commitment"), Get(body, "familiarity"), Get(body, "workStyle");
      && (r.Ok? <==> IsGoal(goal) && Shared.IsProjectCommitment(commitment)
                     && Shared.IsProjectFamiliarity(familiarity) && Shared.IsProjectWorkStyle(workStyle))
      && (!IsGoal(goal) ==> r == Err(BadRequest("goal is required")))
      && (r == Err(BadRequest("commitment is invalid")) <==>
            IsGoal(goal) && !Shared.IsProjectCommitment(commitment))
      && (r == Err(BadRequest("familiarity is invalid")) <==>
            IsGoal(goal) && Shared.IsProjectCommitment(commitment) && !Shared.IsProjectFamiliarity(familiarity))
      && (r == Err(BadRequest("workStyle is invalid")) <==>
            IsGoal(goal) && Shared.IsProjectCommitment(commitment) && Shared.IsProjectFamiliarity(familiarity)
            && !Shared.IsProjectWorkStyle(workStyle))
      && (r.Ok? ==> r.value == IntakeAnswers(Text.Trim(goal.s), commitment.s, familiarity.s, workStyle.s))
  {
    var body := BodyOrEmpty(rawBody);
    var goal := Get(body, "goal");
    var commitment := Get(body, "commitment");
    var familiarity := Get(body, "familiarity");
    var workStyle := Get(body, "workStyle");
    if !IsGoal(goal) then Err(BadRequest("goal is required"))
    else if !Shared.IsProjectCommitment(commitment) then Err(BadRequest("commitment is invalid"))
    else if !Shared.IsProjectFamiliarity(familiarity) then Err(BadRequest("familiarity is invalid"))
    else if !Shared.IsProjectWorkStyle(workStyle) then Err(BadRequest("workStyle is invalid"))
    else Ok(IntakeAnswers(Text.Trim(goal.s), commitment.s, familiarity.s, workStyle.s))
  }

  /** The project `POST /projects/start` creates: the trimmed goal is its title and it has no responses. */
  function StartProjectRecord(answers: IntakeAnswers): CreateProjectInput {
    CreateProjectInput(Shared.TEST_USER_ID, answers.goal, [])
  }

  /** An accepted goal reaches the project title non-empty and trimmed. */
  lemma StartTitleTrimmed(rawBody: Value)
    requires ValidateStart(rawBody).Ok?
    ensures var title := StartProjectRecord(ValidateStart(rawBody).value).title;
      title != [] && Text.Trim(title) == title && !Text.IsSpace(title[0]) && !Text.IsSpace(title[|title| - 1])
  {
    var title := StartProjectRecord(ValidateStart(rawBody).value).title;
    Text.TrimIdempotent(Get(BodyOrEmpty(rawBody), "goal").s);
  }

  /** The input `POST /projects/start` hands to focus-question generation. */
  function FocusQuestionsRequest(answers: IntakeAnswers): Value {
    Obj(map[
      "goal" := Str(answers.goal),
      "commitment" := Str(answers.commitment),
      "familiarity" := Str(answers.familiarity),
      "workStyle" := Str(answers.workStyle)])
  }

  /** Answers with a non-empty goal and known enum values pass `focusQuestionsInputSchema`. */
  lemma FocusSchemaAccepts(answers: IntakeAnswers)
    requires answers.goal != ""
    requires answers.commitment in Shared.PROJECT_COMMITMENT_VALUES
    requires answers.familiarity in Shared.PROJECT_FAMILIARITY_VALUES
    requires answers.workStyle in Shared.PROJECT_WORK_STYLE_VALUES
    ensures AiSchemas.IsFocusQuestionsInput(FocusQuestionsRequest(answers))
  {
    var v := FocusQuestionsRequest(answers);
    assert Get(v, "goal") == Str(answers.goal);
    assert Get(v, "commitment") == Str(answers.commitment);
    assert Get(v, "familiarity") == Str(answers.familiarity);
    assert Get(v, "workStyle") == Str(answers.workStyle);
  }

  /**
   * What `POST /projects/start` accepts is compatible with the focus-question
   * activity's `focusQuestionsInputSchema` (the route itself calls the AI service
   * directly, without that schema).
   */
  lemma StartAnswersPassFocusSchema(rawBody: Value)
    requires ValidateStart(rawBody).Ok?
    ensures AiSchemas.IsFocusQuestionsInput(FocusQuestionsRequest(ValidateStart(rawBody).value))
  {
    var body := BodyOrEmpty(rawBody);
    var goal := Get(body, "goal");
    assert IsGoal(goal);
    assert ValidateStart(rawBody).value.goal == Text.Trim(goal.s);
    FocusSchemaAccepts(ValidateStart(rawBody).value);
  }

  /**
   * The form record `POST /projects/start` asks to store, named from the clock
   * reading `now` (`Date.now()`), with the generated questions as `items`.
   */
  function StartFocusFormInput(projectId: string, now: nat, items: seq<Value>): Value {
    Obj(map[
      "name" := Str("focus-questions-" + Text.DecimalString(now)),
      "projectId" := Str(projectId),
      "userId" := Str(Shared.TEST_USER_ID),
      "kind" := Str("focus_questions"),
      "items" := Arr(items)])
  }

  /**
   * A fact about the activity wrapper's `createFormRecordInputSchema`, not about the
   * route (which hands its record straight to the database service): the schema
   * accepts a record shaped like the route's, but what it parses keeps only the name,
   * project id and kind, so the questions and the user id would not reach the store
   * through that wrapper.
   */
  lemma FormRecordSchemaDropsItems(projectId: string, now: nat, items: seq<Value>)
    requires projectId != ""
    ensures var parsed := DatabaseSchemas.ParseCreateFormRecordInput(StartFocusFormInput(projectId, now, items));
      && parsed.Some?
      && Get(parsed.value, "items") == Undefined && Get(parsed.value, "userId") == Undefined
      && Get(parsed.value, "name") == Str("focus-questions-" + Text.DecimalString(now))
  {
    var v := StartFocusFormInput(projectId, now, items);
    assert Get(v, "name") == Str("focus-questions-" + Text.DecimalString(now));
    assert Get(v, "projectId") == Str(projectId);
    assert Get(v, "kind") == Str("focus_questions");
    assert "focus_questions" == Shared.FORM_RECORD_KIND_VALUES[1];
  }

  /**
   * `POST /projects` up to the database call: a blank or non-string title is a 400;
   * a failure of `normalizeResponses` is caught and becomes a 500 carrying its message;
   * otherwise the project is created with the trimmed title.
   */
  function ValidateCreateProject(rawBody: Value): (r: Result<CreateProjectInput, Reply>)
    ensures
      var body := BodyOrEmpty(rawBody);
      var title, normalized := Get(body, "title"), NormalizeResponses(Get(body, "responses"));
      && (!IsGoal(title) ==> r == Err(BadRequest("title is required")))
      && (IsGoal(title) && normalized.Err? ==>
            r == Err(Reply(500, "Unable to save project", Some(normalized.error))))
      && (r.Ok? <==> IsGoal(title) && normalized.Ok?)
      && (r.Ok? ==> r.value == CreateProjectInput(Shared.TEST_USER_ID, Text.Trim(title.s), normalized.value))
  {
    var body := BodyOrEmpty(rawBody);
    var title := Get(body, "title");
    if !IsGoal(title) then Err(BadRequest("title is required"))
    else
      match NormalizeResponses(Get(body, "responses"))
      case Err(message) => Err(Reply(500, "Unable to save project", Some(message)))
      case Ok(normalized) => Ok(CreateProjectInput(Shared.TEST_USER_ID, Text.Trim(title.s), normalized))
  }

  /** A missing `responses` field is not an array, so a titled request still fails with a 500. */
  lemma CreateProjectNeedsResponses(title: string)
    requires !Text.IsBlank(title)
    ensures ValidateCreateProject(Obj(map["title" := Str(title)]))
         == Err(Reply(500, "Unable to save project", Some("responses must be an array")))
  {
  }

  /** The `catch` of `GET /projects/:projectId`: "not found" anywhere in an error's message means 404. */
  function ClassifyDetailsError(error: Thrown): (r: Reply)
    ensures r.status in {404, 500} && r.error == None
    ensures r.status == 404 <==> error.ErrorObject? && Text.Contains(Text.ToLower(error.message), "not found")
    ensures r.status == 404 ==> r.message == "Project not found"
    ensures r.status == 500 ==> r.message == "Unable to fetch project details"
  {
    if error.ErrorObject? && Text.Contains(Text.ToLower(error.message), "not found") then
      Reply(404, "Project not found", None)
    else
      Reply(500, "Unable to fetch project details", None)
  }

  /** The route's guard before the lookup: an empty `projectId` is a 400. */
  function DetailsRequestCheck(projectId: string): (r: Option<Reply>)
    ensures r.Some? <==> projectId == ""
    ensures r.Some? ==> r.value == BadRequest("projectId is required")
  {
    if projectId == "" then Some(BadRequest("projectId is required")) else None
  }

  /** The ownership error raised by the database service is classified as a 404, whatever its case. */
  lemma NotFoundIs404(prefix: string)
    ensures ClassifyDetailsError(Error(prefix + "Project Not Found for user")).status == 404
  {
    var m := prefix + "Project Not Found for user";
    var lower := Text.ToLower(m);
    var at := |prefix| + 8;
    assert m[at..at + 9] == "Not Found";
    forall k | 0 <= k < 9 ensures lower[at + k] == "not found"[k] {
      assert m[at + k] == "Not Found"[k];
    }
    assert lower[at..at + 9] == "not found";
    Text.ContainsAt(lower, "not found");
    assert Text.OccursAt(lower, "not found", at);
  }
}
