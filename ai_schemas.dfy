/**
 * The zod schemas the AI activities parse with, as predicates over JSON values.
 * Every `.strict()` object rejects a key it does not list; `focusQuestionsInputSchema`
 * is the one non-strict object. Accepted outline and task outputs decode into the
 * shared output types the roadmap workflow consumes.
 */
module AiSchemas {
  import opened Values
  import Shared

  /** `.strict()`: every key of the object is one of `allowed`. */
  predicate HasOnlyKeys(v: Value, allowed: set<string>)
    requires v.Obj?
  {
    forall key :: key in v.fields ==> key in allowed
  }

  predicate IsNonEmptyStringArray(v: Value) {
    v.Arr? && forall k :: 0 <= k < |v.items| ==> IsNonEmptyString(v.items[k])
  }

  predicate IsEnum(v: Value, values: seq<string>) {
    v.Str? && v.s in values
  }

  const FOCUS_QUESTION_KEYS: set<string> := {"id", "prompt", "questionType", "options", "position"}
  const FOCUS_QUESTIONS_OUTPUT_KEYS: set<string> := {"questions"}
  const RESPONSE_KEYS: set<string> := {"question", "answer"}
  const RESPONSE_QUESTION_KEYS: set<string> := {"id", "prompt", "questionType", "options"}
  const RESPONSE_ANSWER_KEYS: set<string> := {"questionId", "values"}
  const PROJECT_KEYS: set<string> :=
    {"id", "userId", "title", "commitment", "familiarity", "workStyle", "status", "generatedAt",
     "createdAt", "updatedAt", "responses"}
  const OUTLINE_KEYS: set<string> := {"milestones"}
  const OUTLINE_MILESTONE_KEYS: set<string> := {"title", "description"}
  const MILESTONE_KEYS: set<string> := {"id", "projectId", "title", "summary", "position", "status", "generatedAt"}
  const TASKS_OUTPUT_KEYS: set<string> := {"tasks"}
  const TASK_KEYS: set<string> := {"day", "title", "objective", "body", "estimatedMinutes"}
  const CONTEXT_KEYS: set<string> := {"project", "milestone"}

  /** `focusQuestionsInputSchema` (not strict). */
  predicate IsFocusQuestionsInput(v: Value) {
    && v.Obj?
    && IsNonEmptyString(Get(v, "goal"))
    && IsEnum(Get(v, "commitment"), Shared.PROJECT_COMMITMENT_VALUES)
    && IsEnum(Get(v, "familiarity"), Shared.PROJECT_FAMILIARITY_VALUES)
    && IsEnum(Get(v, "workStyle"), Shared.PROJECT_WORK_STYLE_VALUES)
  }

  /** `focusQuestionSchema`: option strings must be non-empty. */
  predicate IsFocusQuestion(v: Value) {
    && v.Obj? && HasOnlyKeys(v, FOCUS_QUESTION_KEYS)
    && IsNonEmptyString(Get(v, "id"))
    && IsNonEmptyString(Get(v, "prompt"))
    && IsEnum(Get(v, "questionType"), Shared.QUESTION_TYPE_VALUES)
    && IsNonEmptyStringArray(Get(v, "options"))
    && IsNonNegativeInteger(Get(v, "position"))
  }

  predicate IsFocusQuestionsOutput(v: Value) {
    && v.Obj? && HasOnlyKeys(v, FOCUS_QUESTIONS_OUTPUT_KEYS)
    && Get(v, "questions").Arr?
    && forall k :: 0 <= k < |Get(v, "questions").items| ==> IsFocusQuestion(Get(v, "questions").items[k])
  }

  /** The `question` of `projectResponseSchema`: option strings may be empty. */
  predicate IsResponseQuestion(v: Value) {
    && v.Obj? && HasOnlyKeys(v, RESPONSE_QUESTION_KEYS)
    && IsNonEmptyString(Get(v, "id"))
    && IsNonEmptyString(Get(v, "prompt"))
    && IsEnum(Get(v, "questionType"), Shared.QUESTION_TYPE_VALUES)
    && IsStringArray(Get(v, "options"))
  }

  /** The `answer` of `projectResponseSchema`: every value must be non-empty. */
  predicate IsResponseAnswer(v: Value) {
    && v.Obj? && HasOnlyKeys(v, RESPONSE_ANSWER_KEYS)
    && IsNonEmptyString(Get(v, "questionId"))
    && IsNonEmptyStringArray(Get(v, "values"))
  }

  predicate IsProjectResponse(v: Value) {
    && v.Obj? && HasOnlyKeys(v, RESPONSE_KEYS)
    && IsResponseQuestion(Get(v, "question"))
    && IsResponseAnswer(Get(v, "answer"))
  }

  /** `projectSchema`: `generatedAt` is a string or `null` (but must be present). */
  predicate IsProject(v: Value) {
    && v.Obj? && HasOnlyKeys(v, PROJECT_KEYS)
    && IsNonEmptyString(Get(v, "id"))
    && IsNonEmptyString(Get(v, "userId"))
    && IsNonEmptyString(Get(v, "title"))
    && IsEnum(Get(v, "commitment"), Shared.PROJECT_COMMITMENT_VALUES)
    && IsEnum(Get(v, "familiarity"), Shared.PROJECT_FAMILIARITY_VALUES)
    && IsEnum(Get(v, "workStyle"), Shared.PROJECT_WORK_STYLE_VALUES)
    && IsEnum(Get(v, "status"), Shared.PROJECT_STATUS_VALUES)
    && (Get(v, "generatedAt").Str? || Get(v, "generatedAt").Null?)
    && Get(v, "createdAt").Str?
    && Get(v, "updatedAt").Str?
    && Get(v, "responses").Arr?
    && forall k :: 0 <= k < |Get(v, "responses").items| ==> IsProjectResponse(Get(v, "responses").items[k])
  }

  predicate IsOutlineMilestone(v: Value) {
    && v.Obj? && HasOnlyKeys(v, OUTLINE_MILESTONE_KEYS)
    && IsNonEmptyString(Get(v, "title"))
    && IsNonEmptyString(Get(v, "description"))
  }

  /** `projectOutlineOutputSchema`. */
  predicate IsProjectOutlineOutput(v: Value) {
    && v.Obj? && HasOnlyKeys(v, OUTLINE_KEYS)
    && Get(v, "milestones").Arr?
    && forall k :: 0 <= k < |Get(v, "milestones").items| ==> IsOutlineMilestone(Get(v, "milestones").items[k])
  }

  /** `milestoneSchema`. */
  predicate IsMilestone(v: Value) {
    && v.Obj? && HasOnlyKeys(v, MILESTONE_KEYS)
    && IsNonEmptyString(Get(v, "id"))
    && IsNonEmptyString(Get(v, "projectId"))
    && IsNonEmptyString(Get(v, "title"))
    && IsNonEmptyString(Get(v, "summary"))
    && IsNonNegativeInteger(Get(v, "position"))
    && IsEnum(Get(v, "status"), Shared.MILESTONE_STATUS_VALUES)
    && Get(v, "generatedAt").Str?
  }

  predicate IsGeneratedTask(v: Value) {
    && v.Obj? && HasOnlyKeys(v, TASK_KEYS)
    && IsPositiveInteger(Get(v, "day"))
    && IsNonEmptyString(Get(v, "title"))
    && IsNonEmptyString(Get(v, "objective"))
    && IsNonEmptyString(Get(v, "body"))
    && Get(v, "estimatedMinutes").Num? && Get(v, "estimatedMinutes").n > 0.0
  }

  /** `milestoneTasksOutputSchema`. */
  predicate IsMilestoneTasksOutput(v: Value) {
    && v.Obj? && HasOnlyKeys(v, TASKS_OUTPUT_KEYS)
    && Get(v, "tasks").Arr?
    && forall k :: 0 <= k < |Get(v, "tasks").items| ==> IsGeneratedTask(Get(v, "tasks").items[k])
  }

  /** `taskGenerationContextSchema`. */
  predicate IsTaskGenerationContext(v: Value) {
    && v.Obj? && HasOnlyKeys(v, CONTEXT_KEYS)
    && IsProject(Get(v, "project"))
    && IsMilestone(Get(v, "milestone"))
  }

  /** A key a strict schema does not list makes the object fail that schema. */
  lemma StrictSchemasRejectUnknownKeys(v: Value, key: string, x: Value)
    requires v.Obj?
    ensures key !in FOCUS_QUESTION_KEYS ==> !IsFocusQuestion(Obj(v.fields[key := x]))
    ensures key !in FOCUS_QUESTIONS_OUTPUT_KEYS ==> !IsFocusQuestionsOutput(Obj(v.fields[key := x]))
    ensures key !in RESPONSE_KEYS ==> !IsProjectResponse(Obj(v.fields[key := x]))
    ensures key !in RESPONSE_QUESTION_KEYS ==> !IsResponseQuestion(Obj(v.fields[key := x]))
    ensures key !in PROJECT_KEYS ==> !IsProject(Obj(v.fields[key := x]))
    ensures key !in OUTLINE_KEYS ==> !IsProjectOutlineOutput(Obj(v.fields[key := x]))
    ensures key !in OUTLINE_MILESTONE_KEYS ==> !IsOutlineMilestone(Obj(v.fields[key := x]))
    ensures key !in MILESTONE_KEYS ==> !IsMilestone(Obj(v.fields[key := x]))
    ensures key !in TASKS_OUTPUT_KEYS ==> !IsMilestoneTasksOutput(Obj(v.fields[key := x]))
    ensures key !in TASK_KEYS ==> !IsGeneratedTask(Obj(v.fields[key := x]))
    ensures key !in RESPONSE_ANSWER_KEYS ==> !IsResponseAnswer(Obj(v.fields[key := x]))
    ensures key !in CONTEXT_KEYS ==> !IsTaskGenerationContext(Obj(v.fields[key := x]))
  {
    assert key in Obj(v.fields[key := x]).fields;
  }

  /**
   * In a project response an empty option string is accepted while an empty answer
   * value is not.
   */
  lemma EmptyOptionAcceptedEmptyValueRejected()
    ensures
      var question := Obj(map["id" := Str("q"), "prompt" := Str("p"), "questionType" := Str("single_select"),
                              "options" := Arr([Str("")])]);
      var answer := Obj(map["questionId" := Str("q"), "values" := Arr([Str("a")])]);
      var emptyAnswer := Obj(map["questionId" := Str("q"), "values" := Arr([Str("")])]);
      IsProjectResponse(Obj(map["question" := question, "answer" := answer])) &&
      !IsProjectResponse(Obj(map["question" := question, "answer" := emptyAnswer]))
  {
    var question := Obj(map["id" := Str("q"), "prompt" := Str("p"), "questionType" := Str("single_select"),
                            "options" := Arr([Str("")])]);
    var answer := Obj(map["questionId" := Str("q"), "values" := Arr([Str("a")])]);
    var emptyAnswer := Obj(map["questionId" := Str("q"), "values" := Arr([Str("")])]);
    assert "single_select" == Shared.QUESTION_TYPE_VALUES[1];
    assert IsResponseQuestion(question);
    assert IsResponseAnswer(answer);
    assert !IsNonEmptyString(Get(emptyAnswer, "values").items[0]);
  }

  /** Any response whose answer lists an empty value fails `projectResponseSchema`. */
  lemma EmptyAnswerValueRejected(v: Value, k: nat)
    requires Get(Get(v, "answer"), "values").Arr?
    requires k < |Get(Get(v, "answer"), "values").items|
    requires Get(Get(v, "answer"), "values").items[k] == Str("")
    ensures !IsProjectResponse(v)
  {
  }

  /**
   * The option strings of a response question are not checked beyond being
   * strings: replacing them with any string array, empty strings included, keeps
   * an accepted response accepted.
   */
  lemma {:induction false} AnyOptionStringsAccepted(v: Value, options: seq<string>)
    requires IsProjectResponse(v)
    ensures
      var q := Get(v, "question");
      IsProjectResponse(Obj(v.fields["question" := Obj(q.fields["options" := StringArray(options)])]))
  {
    var q := Get(v, "question");
    var q' := Obj(q.fields["options" := StringArray(options)]);
    assert HasOnlyKeys(q', RESPONSE_QUESTION_KEYS) by {
      assert "options" in RESPONSE_QUESTION_KEYS;
    }
    assert IsResponseQuestion(q');
    var v' := Obj(v.fields["question" := q']);
    assert HasOnlyKeys(v', RESPONSE_KEYS) by {
      assert "question" in RESPONSE_KEYS;
    }
    assert Get(v', "answer") == Get(v, "answer");
  }

  /** An accepted outline, as the shared output type: one milestone per entry, in order. */
  function DecodeProjectOutline(v: Value): (r: Shared.ProjectOutlineOutput)
    requires IsProjectOutlineOutput(v)
    ensures |r.milestones| == |Get(v, "milestones").items|
    ensures forall k :: 0 <= k < |r.milestones| ==>
      && r.milestones[k].title != "" && r.milestones[k].description != ""
      && Str(r.milestones[k].title) == Get(Get(v, "milestones").items[k], "title")
      && Str(r.milestones[k].description) == Get(Get(v, "milestones").items[k], "description")
  {
    var ms := Get(v, "milestones").items;
    Shared.ProjectOutlineOutput(seq(|ms|, k requires 0 <= k < |ms| =>
      Shared.ProjectOutlineMilestone(Get(ms[k], "title").s, Get(ms[k], "description").s)))
  }

  /** Accepted generated tasks, as the shared output type: days of at least 1, texts non-empty. */
  function DecodeMilestoneTasks(v: Value): (r: Shared.MilestoneTasksOutput)
    requires IsMilestoneTasksOutput(v)
    ensures |r.tasks| == |Get(v, "tasks").items|
    ensures forall k :: 0 <= k < |r.tasks| ==>
      && r.tasks[k].day >= 1 && r.tasks[k].day as real == Get(Get(v, "tasks").items[k], "day").n
      && r.tasks[k].title != "" && r.tasks[k].objective != "" && r.tasks[k].body != ""
      && r.tasks[k].estimatedMinutes > 0.0
      && Str(r.tasks[k].title) == Get(Get(v, "tasks").items[k], "title")
      && Str(r.tasks[k].objective) == Get(Get(v, "tasks").items[k], "objective")
      && Str(r.tasks[k].body) == Get(Get(v, "tasks").items[k], "body")
      && Num(r.tasks[k].estimatedMinutes) == Get(Get(v, "tasks").items[k], "estimatedMinutes")
  {
    var ts := Get(v, "tasks").items;
    Shared.MilestoneTasksOutput(seq(|ts|, k requires 0 <= k < |ts| =>
      Shared.MilestoneTaskOutput(Get(ts[k], "day").n.Floor, Get(ts[k], "title").s, Get(ts[k], "objective").s,
        Get(ts[k], "body").s, Get(ts[k], "estimatedMinutes").n)))
  }
}
