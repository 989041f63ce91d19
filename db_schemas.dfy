/**
 * The zod schemas the database activities parse their inputs with, as predicates
 * over the JSON value an activity receives. These objects are not strict: unknown
 * keys are stripped from the parsed value rather than rejected.
 */
module DatabaseSchemas {
  import opened Results
  import opened Values
  import Shared

  /** `formRecordKindSchema`. */
  predicate IsFormRecordKind(v: Value) {
    v.Str? && v.s in Shared.FORM_RECORD_KIND_VALUES
  }

  /** `formRecordSchema`: id, name and projectId non-empty, and a known kind. */
  predicate IsFormRecord(v: Value) {
    && v.Obj?
    && IsNonEmptyString(Get(v, "id"))
    && IsNonEmptyString(Get(v, "name"))
    && IsNonEmptyString(Get(v, "projectId"))
    && IsFormRecordKind(Get(v, "kind"))
  }

  /** `getFocusFormByNameInputSchema`. */
  predicate IsGetFocusFormByNameInput(v: Value) {
    v.Obj? && IsNonEmptyString(Get(v, "name"))
  }

  /** `createFormRecordInputSchema` with its refinement: only focus-question forms. */
  predicate IsCreateFormRecordInput(v: Value) {
    && v.Obj?
    && IsNonEmptyString(Get(v, "name"))
    && IsNonEmptyString(Get(v, "projectId"))
    && IsFormRecordKind(Get(v, "kind"))
    && Get(v, "kind") == Str("focus_questions")
  }

  /**
   * What `createFormRecordInputSchema.parse` returns: the three listed keys and no
   * others, or `None` when the input is rejected.
   */
  function ParseCreateFormRecordInput(v: Value): (r: Option<Value>)
    ensures r.Some? <==> IsCreateFormRecordInput(v)
    ensures r.Some? ==> r.value.Obj? && r.value.fields.Keys == {"name", "projectId", "kind"}
    ensures r.Some? ==> Get(r.value, "kind") == Str("focus_questions")
    ensures r.Some? ==> Get(r.value, "name") == Get(v, "name") && Get(r.value, "projectId") == Get(v, "projectId")
    ensures r.Some? ==> Get(r.value, "userId") == Undefined && Get(r.value, "items") == Undefined
  {
    if IsCreateFormRecordInput(v) then
      Some(Obj(map["name" := Get(v, "name"), "projectId" := Get(v, "projectId"), "kind" := Get(v, "kind")]))
    else None
  }

  /** An element of `createProjectMilestonesInputSchema.milestones`. */
  predicate IsMilestoneEntry(v: Value) {
    && v.Obj?
    && IsNonEmptyString(Get(v, "title"))
    && IsNonEmptyString(Get(v, "summary"))
    && IsNonNegativeInteger(Get(v, "position"))
  }

  /** `createProjectMilestonesInputSchema`: ids non-empty and at least one milestone. */
  predicate IsCreateProjectMilestonesInput(v: Value) {
    && v.Obj?
    && IsNonEmptyString(Get(v, "userId"))
    && IsNonEmptyString(Get(v, "projectId"))
    && Get(v, "milestones").Arr?
    && |Get(v, "milestones").items| >= 1
    && forall k :: 0 <= k < |Get(v, "milestones").items| ==> IsMilestoneEntry(Get(v, "milestones").items[k])
  }

  /** An element of `createMilestoneTasksInputSchema.tasks`. */
  predicate IsTaskEntry(v: Value) {
    && v.Obj?
    && IsNonEmptyString(Get(v, "title"))
    && IsNonEmptyString(Get(v, "description"))
    && IsPositiveInteger(Get(v, "position"))
  }

  /** `createMilestoneTasksInputSchema`: ids non-empty and at least one task. */
  predicate IsCreateMilestoneTasksInput(v: Value) {
    && v.Obj?
    && IsNonEmptyString(Get(v, "userId"))
    && IsNonEmptyString(Get(v, "projectId"))
    && IsNonEmptyString(Get(v, "milestoneId"))
    && Get(v, "tasks").Arr?
    && |Get(v, "tasks").items| >= 1
    && forall k :: 0 <= k < |Get(v, "tasks").items| ==> IsTaskEntry(Get(v, "tasks").items[k])
  }

  // ---- the JSON an activity receives for a typed input ----

  function MilestoneEntryValue(m: Shared.CreateMilestoneInput): Value {
    Obj(map["title" := Str(m.title), "summary" := Str(m.summary), "position" := Num(m.position as real)])
  }

  function MilestonesInputValue(input: Shared.CreateProjectMilestonesInput): Value {
    Obj(map[
      "userId" := Str(input.userId),
      "projectId" := Str(input.projectId),
      "milestones" := Arr(seq(|input.milestones|, k requires 0 <= k < |input.milestones| =>
        MilestoneEntryValue(input.milestones[k])))])
  }

  function TaskEntryValue(t: Shared.CreateTaskInput): Value {
    Obj(map["title" := Str(t.title), "description" := Str(t.description), "position" := Num(t.position as real)])
  }

  function TasksInputValue(input: Shared.CreateMilestoneTasksInput): Value {
    Obj(map[
      "userId" := Str(input.userId),
      "projectId" := Str(input.projectId),
      "milestoneId" := Str(input.milestoneId),
      "tasks" := Arr(seq(|input.tasks|, k requires 0 <= k < |input.tasks| => TaskEntryValue(input.tasks[k])))])
  }

  /**
   * A typed milestone input passes `createProjectMilestonesInputSchema` exactly when
   * both ids are non-empty, there is a milestone, and every milestone has a title,
   * a summary and a non-negative position.
   */
  lemma MilestonesInputAccepted(input: Shared.CreateProjectMilestonesInput)
    ensures IsCreateProjectMilestonesInput(MilestonesInputValue(input)) <==>
      && input.userId != "" && input.projectId != ""
      && |input.milestones| >= 1
      && forall k :: 0 <= k < |input.milestones| ==>
           input.milestones[k].title != "" && input.milestones[k].summary != "" && input.milestones[k].position >= 0
  {
    var v := MilestonesInputValue(input);
    var items := Get(v, "milestones").items;
    assert |items| == |input.milestones|;
    forall k | 0 <= k < |input.milestones|
      ensures IsMilestoneEntry(items[k]) <==>
        input.milestones[k].title != "" && input.milestones[k].summary != "" && input.milestones[k].position >= 0
    {
      var m := input.milestones[k];
      assert items[k] == MilestoneEntryValue(m);
      assert Get(items[k], "title") == Str(m.title);
      assert Get(items[k], "summary") == Str(m.summary);
      assert Get(items[k], "position") == Num(m.position as real);
    }
  }

  /**
   * A typed task input passes `createMilestoneTasksInputSchema` exactly when the
   * three ids are non-empty, there is a task, and every task has a title, a
   * description and a position of at least 1.
   */
  lemma TasksInputAccepted(input: Shared.CreateMilestoneTasksInput)
    ensures IsCreateMilestoneTasksInput(TasksInputValue(input)) <==>
      && input.userId != "" && input.projectId != "" && input.milestoneId != ""
      && |input.tasks| >= 1
      && forall k :: 0 <= k < |input.tasks| ==>
           input.tasks[k].title != "" && input.tasks[k].description != "" && input.tasks[k].position >= 1
  {
    var v := TasksInputValue(input);
    var items := Get(v, "tasks").items;
    assert |items| == |input.tasks|;
    forall k | 0 <= k < |input.tasks|
      ensures IsTaskEntry(items[k]) <==>
        input.tasks[k].title != "" && input.tasks[k].description != "" && input.tasks[k].position >= 1
    {
      var t := input.tasks[k];
      assert items[k] == TaskEntryValue(t);
      assert Get(items[k], "title") == Str(t.title);
      assert Get(items[k], "description") == Str(t.description);
      assert Get(items[k], "position") == Num(t.position as real);
    }
  }
}
