/**
 * The `GenerateProjectRoadmap` workflow: one outline generation, one batch of
 * milestones stored, the project details read back, then for each stored
 * milestone in order one task generation followed by one task batch stored.
 * The activities are oracles; an `ActivityLog` records each call it forwards, so
 * the workflow's effect is the sequence of calls it makes.
 */
module Workflow {
  import opened Results
  import opened Values
  import opened Errors
  import Text
  import Shared
  import AiSchemas
  import DatabaseSchemas

  /** The fields of the workflow input the workflow reads. */
  datatype RoadmapInput = RoadmapInput(userId: string, projectId: string)

  /** `projectContext.project`: the project with its stored milestones. */
  datatype ProjectDetails = ProjectDetails(project: Shared.ProjectDto, milestones: seq<Shared.MilestoneDto>)

  /** One activity call, with its argument. */
  datatype Call =
    | GenerateOutline(input: RoadmapInput)
    | CreateMilestones(milestonesInput: Shared.CreateProjectMilestonesInput)
    | GetDetails(projectId: string, userId: string)
    | GenerateTasks(details: ProjectDetails, milestone: Shared.MilestoneDto)
    | CreateTasks(tasksInput: Shared.CreateMilestoneTasksInput)

  /**
   * What each activity does with an argument, as the workflow finally sees it after
   * Temporal's retries: a value, or the error that reaches the workflow (for the two
   * storing activities, `Some(error)` or `None` on success).
   */
  datatype Activities = Activities(
    generateOutline: RoadmapInput -> Result<Shared.ProjectOutlineOutput, Thrown>,
    createMilestones: Shared.CreateProjectMilestonesInput -> Option<Thrown>,
    getDetails: (string, string) -> Result<ProjectDetails, Thrown>,
    generateTasks: (ProjectDetails, Shared.MilestoneDto) -> Result<Shared.MilestoneTasksOutput, Thrown>,
    createTasks: Shared.CreateMilestoneTasksInput -> Option<Thrown>)

  /** The calls a run makes, and the error it stops with (`None`: it completed). */
  datatype Outcome = Outcome(trace: seq<Call>, error: Option<Thrown>)

  /** The activity proxies: each proxied call is recorded once, then answered with its final outcome. */
  class ActivityLog {
    const activities: Activities
    var trace: seq<Call>

    constructor(activities: Activities)
      ensures this.activities == activities && trace == []
    {
      this.activities := activities;
      trace := [];
    }

    method GenerateProjectOutline(input: RoadmapInput) returns (r: Result<Shared.ProjectOutlineOutput, Thrown>)
      modifies this
      ensures trace == old(trace) + [GenerateOutline(input)]
      ensures r == activities.generateOutline(input)
    {
      trace := trace + [GenerateOutline(input)];
      r := activities.generateOutline(input);
    }

    method CreateProjectMilestones(input: Shared.CreateProjectMilestonesInput) returns (failure: Option<Thrown>)
      modifies this
      ensures trace == old(trace) + [CreateMilestones(input)]
      ensures failure == activities.createMilestones(input)
    {
      trace := trace + [CreateMilestones(input)];
      failure := activities.createMilestones(input);
    }

    method GetProjectDetails(projectId: string, userId: string) returns (r: Result<ProjectDetails, Thrown>)
      modifies this
      ensures trace == old(trace) + [GetDetails(projectId, userId)]
      ensures r == activities.getDetails(projectId, userId)
    {
      trace := trace + [GetDetails(projectId, userId)];
      r := activities.getDetails(projectId, userId);
    }

    method GenerateTasksForMilestone(details: ProjectDetails, milestone: Shared.MilestoneDto)
      returns (r: Result<Shared.MilestoneTasksOutput, Thrown>)
      modifies this
      ensures trace == old(trace) + [GenerateTasks(details, milestone)]
      ensures r == activities.generateTasks(details, milestone)
    {
      trace := trace + [GenerateTasks(details, milestone)];
      r := activities.generateTasks(details, milestone);
    }

    method CreateMilestoneTasks(input: Shared.CreateMilestoneTasksInput) returns (failure: Option<Thrown>)
      modifies this
      ensures trace == old(trace) + [CreateTasks(input)]
      ensures failure == activities.createTasks(input)
    {
      trace := trace + [CreateTasks(input)];
      failure := activities.createTasks(input);
    }
  }

  // ---- the inputs the workflow builds ----

  /** The milestones input: outline milestone i stored at position i, its description as summary. */
  function MilestonesInput(input: RoadmapInput, outline: Shared.ProjectOutlineOutput)
    : (r: Shared.CreateProjectMilestonesInput)
    ensures r.userId == input.userId && r.projectId == input.projectId
    ensures |r.milestones| == |outline.milestones|
    ensures forall i :: 0 <= i < |r.milestones| ==>
      r.milestones[i] == Shared.CreateMilestoneInput(outline.milestones[i].title, outline.milestones[i].description, i)
  {
    var ms := outline.milestones;
    Shared.CreateProjectMilestonesInput(input.userId, input.projectId,
      seq(|ms|, i requires 0 <= i < |ms| => Shared.CreateMilestoneInput(ms[i].title, ms[i].description, i)))
  }

  /** `[objective, body].filter(Boolean).join('\n\n')`. */
  function TaskDescription(task: Shared.MilestoneTaskOutput): (r: string)
    ensures task.objective != "" && task.body != "" ==> r == task.objective + "\n\n" + task.body
    ensures task.objective == "" ==> r == task.body
    ensures task.body == "" ==> r == task.objective
  {
    Text.JoinPresent(task.objective, task.body, "\n\n")
  }

  /** The tasks input for one milestone: generated task k stored at position k + 1. */
  function TasksInput(input: RoadmapInput, milestone: Shared.MilestoneDto, output: Shared.MilestoneTasksOutput)
    : (r: Shared.CreateMilestoneTasksInput)
    ensures r.userId == input.userId && r.projectId == input.projectId && r.milestoneId == milestone.id
    ensures |r.tasks| == |output.tasks|
    ensures forall k :: 0 <= k < |r.tasks| ==>
      r.tasks[k] == Shared.CreateTaskInput(output.tasks[k].title, TaskDescription(output.tasks[k]), k + 1)
  {
    var ts := output.tasks;
    Shared.CreateMilestoneTasksInput(input.userId, input.projectId, milestone.id,
      seq(|ts|, k requires 0 <= k < |ts| => Shared.CreateTaskInput(ts[k].title, TaskDescription(ts[k]), k + 1)))
  }

  // ---- the specification of a run ----

  /** One loop iteration: generate the milestone's tasks, then store them. */
  function MilestoneStep(acts: Activities, input: RoadmapInput, details: ProjectDetails, milestone: Shared.MilestoneDto)
    : Outcome
  {
    var generated := acts.generateTasks(details, milestone);
    if generated.Err? then Outcome([GenerateTasks(details, milestone)], Some(generated.error))
    else
      var tasksInput := TasksInput(input, milestone, generated.value);
      Outcome([GenerateTasks(details, milestone), CreateTasks(tasksInput)], acts.createTasks(tasksInput))
  }

  /** The loop over `ms`, stopping at the first failing iteration. */
  function TasksRun(acts: Activities, input: RoadmapInput, details: ProjectDetails, ms: seq<Shared.MilestoneDto>)
    : Outcome
    decreases |ms|
  {
    if |ms| == 0 then Outcome([], None)
    else
      var before := TasksRun(acts, input, details, ms[..|ms| - 1]);
      if before.error.Some? then before
      else
        var step := MilestoneStep(acts, input, details, ms[|ms| - 1]);
        Outcome(before.trace + step.trace, step.error)
  }

  /** The whole workflow: the three opening calls, then the loop over the stored milestones. */
  function Roadmap(acts: Activities, input: RoadmapInput): (r: Outcome)
    ensures |r.trace| >= 1 && r.trace[0] == GenerateOutline(input)
    ensures r.error.None? ==> |r.trace| >= 3 && r.trace[1].CreateMilestones? && r.trace[2] == GetDetails(input.projectId, input.userId)
  {
    var outline := acts.generateOutline(input);
    if outline.Err? then Outcome([GenerateOutline(input)], Some(outline.error))
    else
      var milestonesInput := MilestonesInput(input, outline.value);
      var opening := [GenerateOutline(input), CreateMilestones(milestonesInput)];
      if acts.createMilestones(milestonesInput).Some? then Outcome(opening, acts.createMilestones(milestonesInput))
      else
        var head := opening + [GetDetails(input.projectId, input.userId)];
        var details := acts.getDetails(input.projectId, input.userId);
        if details.Err? then Outcome(head, Some(details.error))
        else
          var rest := TasksRun(acts, input, details.value, details.value.milestones);
          Outcome(head + rest.trace, rest.error)
  }

  /** Once an iteration fails, the later milestones add no calls. */
  lemma {:induction false} FailureStopsLoop(
    acts: Activities, input: RoadmapInput, details: ProjectDetails, ms: seq<Shared.MilestoneDto>, i: nat)
    requires 0 < i <= |ms|
    requires TasksRun(acts, input, details, ms[..i]).error.Some?
    ensures TasksRun(acts, input, details, ms) == TasksRun(acts, input, details, ms[..i])
    decreases |ms|
  {
    if i == |ms| {
      assert ms[..i] == ms;
    } else {
      var init := ms[..|ms| - 1];
      assert init[..i] == ms[..i];
      FailureStopsLoop(acts, input, details, init, i);
    }
  }

  /**
   * A loop that completes makes exactly two calls per milestone, in milestone order:
   * the task generation for milestone k, then the storing of its tasks, before
   * anything happens for milestone k + 1.
   */
  lemma {:induction false} CompletedLoopShape(
    acts: Activities, input: RoadmapInput, details: ProjectDetails, ms: seq<Shared.MilestoneDto>)
    requires TasksRun(acts, input, details, ms).error.None?
    ensures |TasksRun(acts, input, details, ms).trace| == 2 * |ms|
    ensures forall k :: 0 <= k < |ms| ==>
      && acts.generateTasks(details, ms[k]).Ok?
      && TasksRun(acts, input, details, ms).trace[2 * k] == GenerateTasks(details, ms[k])
      && TasksRun(acts, input, details, ms).trace[2 * k + 1] ==
           CreateTasks(TasksInput(input, ms[k], acts.generateTasks(details, ms[k]).value))
    decreases |ms|
  {
    if |ms| > 0 {
      var init := ms[..|ms| - 1];
      var before := TasksRun(acts, input, details, init);
      CompletedLoopShape(acts, input, details, init);
      var last := ms[|ms| - 1];
      assert acts.generateTasks(details, last).Ok?;
      var trace := TasksRun(acts, input, details, ms).trace;
      assert trace == before.trace + MilestoneStep(acts, input, details, last).trace;
      forall k | 0 <= k < |ms|
        ensures acts.generateTasks(details, ms[k]).Ok?
        ensures trace[2 * k] == GenerateTasks(details, ms[k])
        ensures trace[2 * k + 1] == CreateTasks(TasksInput(input, ms[k], acts.generateTasks(details, ms[k]).value))
      {
        if k < |ms| - 1 {
          assert ms[k] == init[k];
        }
      }
    }
  }

  /** A call that carries the workflow's user and project ids carries them unchanged. */
  predicate ForwardsIds(call: Call, input: RoadmapInput) {
    match call
    case GenerateOutline(i) => i == input
    case CreateMilestones(m) => m.userId == input.userId && m.projectId == input.projectId
    case GetDetails(projectId, userId) => projectId == input.projectId && userId == input.userId
    case GenerateTasks(_, _) => true
    case CreateTasks(t) => t.userId == input.userId && t.projectId == input.projectId
  }

  lemma {:induction false} LoopForwardsIds(
    acts: Activities, input: RoadmapInput, details: ProjectDetails, ms: seq<Shared.MilestoneDto>)
    ensures forall k :: 0 <= k < |TasksRun(acts, input, details, ms).trace| ==>
      ForwardsIds(TasksRun(acts, input, details, ms).trace[k], input)
    decreases |ms|
  {
    if |ms| > 0 {
      LoopForwardsIds(acts, input, details, ms[..|ms| - 1]);
    }
  }

  /** Every database call of a run carries the workflow's own user and project ids. */
  lemma RoadmapForwardsIds(acts: Activities, input: RoadmapInput)
    ensures forall k :: 0 <= k < |Roadmap(acts, input).trace| ==> ForwardsIds(Roadmap(acts, input).trace[k], input)
  {
    var outline := acts.generateOutline(input);
    if outline.Ok? {
      var details := acts.getDetails(input.projectId, input.userId);
      if acts.createMilestones(MilestonesInput(input, outline.value)).None? && details.Ok? {
        LoopForwardsIds(acts, input, details.value, details.value.milestones);
      }
    }
  }

  /**
   * An outline the activity accepted gives a milestones input that passes the
   * database schema exactly when it has at least one milestone: an empty outline
   * makes the storing activity fail.
   */
  lemma OutlineStoredWhenNonEmpty(input: RoadmapInput, v: Value)
    requires AiSchemas.IsProjectOutlineOutput(v)
    requires input.userId != "" && input.projectId != ""
    ensures DatabaseSchemas.IsCreateProjectMilestonesInput(
      DatabaseSchemas.MilestonesInputValue(MilestonesInput(input, AiSchemas.DecodeProjectOutline(v))))
      <==> |Get(v, "milestones").items| >= 1
  {
    DatabaseSchemas.MilestonesInputAccepted(MilestonesInput(input, AiSchemas.DecodeProjectOutline(v)));
  }

  /**
   * Generated tasks the activity accepted give a tasks input that passes the
   * database schema exactly when there is at least one task.
   */
  lemma TasksStoredWhenNonEmpty(input: RoadmapInput, milestone: Shared.MilestoneDto, v: Value)
    requires AiSchemas.IsMilestoneTasksOutput(v)
    requires input.userId != "" && input.projectId != "" && milestone.id != ""
    ensures DatabaseSchemas.IsCreateMilestoneTasksInput(
      DatabaseSchemas.TasksInputValue(TasksInput(input, milestone, AiSchemas.DecodeMilestoneTasks(v))))
      <==> |Get(v, "tasks").items| >= 1
  {
    var output := AiSchemas.DecodeMilestoneTasks(v);
    var tasksInput := TasksInput(input, milestone, output);
    DatabaseSchemas.TasksInputAccepted(tasksInput);
    forall k | 0 <= k < |tasksInput.tasks|
      ensures tasksInput.tasks[k].description != ""
    {
      assert output.tasks[k].objective != "";
    }
  }

  /** The `for…of` loop: each stored milestone in order, stopping at the first failure. */
  method GenerateAllTasks(log: ActivityLog, input: RoadmapInput, details: ProjectDetails) returns (failure: Option<Thrown>)
    modifies log
    ensures log.trace == old(log.trace) + TasksRun(log.activities, input, details, details.milestones).trace
    ensures failure == TasksRun(log.activities, input, details, details.milestones).error
  {
    var ms := details.milestones;
    var i := 0;
    while i < |ms|
      invariant 0 <= i <= |ms|
      invariant log.trace == old(log.trace) + TasksRun(log.activities, input, details, ms[..i]).trace
      invariant TasksRun(log.activities, input, details, ms[..i]).error.None?
    {
      var milestone := ms[i];
      ghost var before := TasksRun(log.activities, input, details, ms[..i]);
      ghost var step := MilestoneStep(log.activities, input, details, milestone);
      assert ms[..i + 1][..i] == ms[..i];
      assert TasksRun(log.activities, input, details, ms[..i + 1]) == Outcome(before.trace + step.trace, step.error);
      ghost var start := log.trace;
      var result := log.GenerateTasksForMilestone(details, milestone);
      if result.Err? {
        assert log.trace == start + step.trace;
        FailureStopsLoop(log.activities, input, details, ms, i + 1);
        return Some(result.error);
      }
      var created := log.CreateMilestoneTasks(TasksInput(input, milestone, result.value));
      assert log.trace == start + step.trace;
      if created.Some? {
        FailureStopsLoop(log.activities, input, details, ms, i + 1);
        return created;
      }
      i := i + 1;
    }
    assert ms[..i] == ms;
    return None;
  }

  /** `GenerateProjectRoadmap`: the calls it makes and the error it stops with are those of `Roadmap`. */
  method GenerateProjectRoadmap(log: ActivityLog, input: RoadmapInput) returns (failure: Option<Thrown>)
    modifies log
    ensures log.trace == old(log.trace) + Roadmap(log.activities, input).trace
    ensures failure == Roadmap(log.activities, input).error
  {
    var outline := log.GenerateProjectOutline(input);
    if outline.Err? {
      return Some(outline.error);
    }
    var stored := log.CreateProjectMilestones(MilestonesInput(input, outline.value));
    if stored.Some? {
      return stored;
    }
    var projectContext := log.GetProjectDetails(input.projectId, input.userId);
    if projectContext.Err? {
      return Some(projectContext.error);
    }
    failure := GenerateAllTasks(log, input, projectContext.value);
  }
}
