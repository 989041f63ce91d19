/**
 * The shared package: the closed value sets, the option lists shown in the
 * intake form, the fixed four-question intake form and the three run-time guards.
 */
module Shared {
  import opened Results
  import opened Values

  const QUESTION_TYPE_VALUES: seq<string> := ["multi_select", "single_select", "free_text"]

  const TEST_USER_ID: string := "test-user-id"

  const PROJECT_COMMITMENT_VALUES: seq<string> := ["light", "moderate", "heavy", "dedicated"]
  const PROJECT_FAMILIARITY_VALUES: seq<string> :=
    ["completely_new", "some_experience", "experienced_refining"]
  const PROJECT_WORK_STYLE_VALUES: seq<string> :=
    ["short_daily_sessions", "focused_sessions_per_week", "flexible_or_varies"]

  const PROJECT_STATUS_VALUES: seq<string> := ["draft", "generating", "ready"]
  const MILESTONE_STATUS_VALUES: seq<string> := ["locked", "unlocked", "completed"]
  const TASK_STATUS_VALUES: seq<string> := ["locked", "unlocked", "completed"]
  const FORM_RECORD_KIND_VALUES: seq<string> := ["project_intake", "focus_questions"]

  /** `{ value, label }`; `label` is a Dafny keyword, hence `labelText`. */
  datatype FormOption = FormOption(value: string, labelText: string)

  const PROJECT_COMMITMENT_OPTIONS: seq<FormOption> := [
    FormOption("light", "Light"),
    FormOption("moderate", "Moderate"),
    FormOption("heavy", "Heavy"),
    FormOption("dedicated", "Dedicated")
  ]

  const PROJECT_FAMILIARITY_OPTIONS: seq<FormOption> := [
    FormOption("completely_new", "Completely new"),
    FormOption("some_experience", "Some experience"),
    FormOption("experienced_refining", "Experienced / refining")
  ]

  const PROJECT_WORK_STYLE_OPTIONS: seq<FormOption> := [
    FormOption("short_daily_sessions", "Short daily sessions"),
    FormOption("focused_sessions_per_week", "A few focused sessions per week"),
    FormOption("flexible_or_varies", "Flexible / varies")
  ]

  datatype FormQuestion = FormQuestion(
    id: string,
    prompt: string,
    questionType: string,
    options: seq<FormOption>,
    position: int,
    required: bool)

  datatype FormDefinition = FormDefinition(questions: seq<FormQuestion>)

  const INTAKE_QUESTION_ID_GOAL: string := "goal"
  const INTAKE_QUESTION_ID_COMMITMENT: string := "time_commitment"
  const INTAKE_QUESTION_ID_FAMILIARITY: string := "familiarity"
  const INTAKE_QUESTION_ID_WORK_STYLE: string := "work_style"

  const PROJECT_INTAKE_FORM: FormDefinition := FormDefinition([
    FormQuestion(INTAKE_QUESTION_ID_GOAL, "What do you want to accomplish?",
      "free_text", [], 1, true),
    FormQuestion(INTAKE_QUESTION_ID_COMMITMENT, "How much time can you realistically commit per week?",
      "single_select", PROJECT_COMMITMENT_OPTIONS, 2, true),
    FormQuestion(INTAKE_QUESTION_ID_FAMILIARITY, "How familiar are you with this area?",
      "single_select", PROJECT_FAMILIARITY_OPTIONS, 3, true),
    FormQuestion(INTAKE_QUESTION_ID_WORK_STYLE, "How do you prefer to work?",
      "single_select", PROJECT_WORK_STYLE_OPTIONS, 4, true)
  ])

  datatype ProjectQuestionDto = ProjectQuestionDto(id: string, prompt: string, questionType: string, options: seq<string>)
  datatype ProjectResponseAnswerDto = ProjectResponseAnswerDto(questionId: string, values: seq<string>)
  datatype ProjectResponseDto = ProjectResponseDto(question: ProjectQuestionDto, answer: ProjectResponseAnswerDto)

  datatype ProjectDto = ProjectDto(
    id: string,
    userId: string,
    title: string,
    commitment: string,
    familiarity: string,
    workStyle: string,
    status: string,
    generatedAt: Option<string>,
    createdAt: string,
    updatedAt: string,
    responses: seq<ProjectResponseDto>)

  datatype MilestoneDto = MilestoneDto(
    id: string,
    projectId: string,
    title: string,
    summary: string,
    position: int,
    status: string,
    generatedAt: string)

  datatype CreateMilestoneInput = CreateMilestoneInput(title: string, summary: string, position: int)
  datatype CreateTaskInput = CreateTaskInput(title: string, description: string, position: int)

  datatype CreateProjectMilestonesInput =
    CreateProjectMilestonesInput(userId: string, projectId: string, milestones: seq<CreateMilestoneInput>)

  datatype CreateMilestoneTasksInput =
    CreateMilestoneTasksInput(userId: string, projectId: string, milestoneId: string, tasks: seq<CreateTaskInput>)

  datatype FocusItemDto = FocusItemDto(
    id: string,
    question: string,
    questionType: string,
    options: seq<string>,
    position: int,
    answer: Option<string>,
    answeredAt: Option<string>)

  datatype ProjectOutlineMilestone = ProjectOutlineMilestone(title: string, description: string)
  datatype ProjectOutlineOutput = ProjectOutlineOutput(milestones: seq<ProjectOutlineMilestone>)

  datatype MilestoneTaskOutput =
    MilestoneTaskOutput(day: int, title: string, objective: string, body: string, estimatedMinutes: real)
  datatype MilestoneTasksOutput = MilestoneTasksOutput(tasks: seq<MilestoneTaskOutput>)

  /** `typeof value === 'string' && PROJECT_COMMITMENT_VALUES.includes(value)`. */
  predicate IsProjectCommitment(value: Value) {
    value.Str? && value.s in PROJECT_COMMITMENT_VALUES
  }

  predicate IsProjectFamiliarity(value: Value) {
    value.Str? && value.s in PROJECT_FAMILIARITY_VALUES
  }

  predicate IsProjectWorkStyle(value: Value) {
    value.Str? && value.s in PROJECT_WORK_STYLE_VALUES
  }

  /** The `value` of each option, in order. */
  function OptionValues(options: seq<FormOption>): (r: seq<string>)
    ensures |r| == |options|
    ensures forall k :: 0 <= k < |r| ==> r[k] == options[k].value
  {
    seq(|options|, k requires 0 <= k < |options| => options[k].value)
  }

  /** The commitment guard accepts exactly the four commitment strings. */
  lemma CommitmentGuardExact(value: Value)
    ensures IsProjectCommitment(value) <==>
      value in {Str("light"), Str("moderate"), Str("heavy"), Str("dedicated")}
  {
  }

  /** The familiarity guard accepts exactly the three familiarity strings. */
  lemma FamiliarityGuardExact(value: Value)
    ensures IsProjectFamiliarity(value) <==>
      value in {Str("completely_new"), Str("some_experience"), Str("experienced_refining")}
  {
  }

  /** The work-style guard accepts exactly the three work-style strings. */
  lemma WorkStyleGuardExact(value: Value)
    ensures IsProjectWorkStyle(value) <==>
      value in {Str("short_daily_sessions"), Str("focused_sessions_per_week"), Str("flexible_or_varies")}
  {
  }

  /** No guard accepts a value that is not a string. */
  lemma GuardsRejectNonStrings(value: Value)
    requires !value.Str?
    ensures !IsProjectCommitment(value) && !IsProjectFamiliarity(value) && !IsProjectWorkStyle(value)
  {
  }

  /** Each option list offers exactly its value set, in the same order. */
  lemma OptionsMatchValues()
    ensures OptionValues(PROJECT_COMMITMENT_OPTIONS) == PROJECT_COMMITMENT_VALUES
    ensures OptionValues(PROJECT_FAMILIARITY_OPTIONS) == PROJECT_FAMILIARITY_VALUES
    ensures OptionValues(PROJECT_WORK_STYLE_OPTIONS) == PROJECT_WORK_STYLE_VALUES
  {
  }

  /** The intake form: four required questions with distinct ids, positions 1..4 ascending. */
  lemma IntakeFormShape()
    ensures |PROJECT_INTAKE_FORM.questions| == 4
    ensures forall k :: 0 <= k < 4 ==>
      PROJECT_INTAKE_FORM.questions[k].required && PROJECT_INTAKE_FORM.questions[k].position == k + 1
    ensures forall j, k :: 0 <= j < k < 4 ==>
      PROJECT_INTAKE_FORM.questions[j].id != PROJECT_INTAKE_FORM.questions[k].id
    ensures [PROJECT_INTAKE_FORM.questions[0].id, PROJECT_INTAKE_FORM.questions[1].id,
             PROJECT_INTAKE_FORM.questions[2].id, PROJECT_INTAKE_FORM.questions[3].id]
         == ["goal", "time_commitment", "familiarity", "work_style"]
  {
  }

  /**
   * The goal question is free text without options; each select question offers
   * the options of its own value set.
   */
  lemma IntakeFormOptions()
    ensures PROJECT_INTAKE_FORM.questions[0].questionType == "free_text"
    ensures PROJECT_INTAKE_FORM.questions[0].options == []
    ensures forall k :: 1 <= k < 4 ==> PROJECT_INTAKE_FORM.questions[k].questionType == "single_select"
    ensures OptionValues(PROJECT_INTAKE_FORM.questions[1].options) == PROJECT_COMMITMENT_VALUES
    ensures OptionValues(PROJECT_INTAKE_FORM.questions[2].options) == PROJECT_FAMILIARITY_VALUES
    ensures OptionValues(PROJECT_INTAKE_FORM.questions[3].options) == PROJECT_WORK_STYLE_VALUES
  {
    OptionsMatchValues();
  }

  /** Every question type used by the intake form is a known question type. */
  lemma IntakeFormTypesKnown()
    ensures forall k :: 0 <= k < |PROJECT_INTAKE_FORM.questions| ==>
      PROJECT_INTAKE_FORM.questions[k].questionType in QUESTION_TYPE_VALUES
  {
  }

  /** No value is listed twice. */
  predicate Distinct(values: seq<string>) {
    forall j, k :: 0 <= j < k < |values| ==> values[j] != values[k]
  }

  /**
   * Each status set lists three distinct values, and the separately declared
   * milestone and task sets agree, so a milestone status is always a task status.
   */
  lemma StatusSetsDistinct()
    ensures |PROJECT_STATUS_VALUES| == |MILESTONE_STATUS_VALUES| == |TASK_STATUS_VALUES| == 3
    ensures Distinct(PROJECT_STATUS_VALUES)
    ensures Distinct(MILESTONE_STATUS_VALUES)
    ensures Distinct(TASK_STATUS_VALUES)
    ensures forall s :: s in MILESTONE_STATUS_VALUES <==> s in TASK_STATUS_VALUES
  {
  }
}
