/**
 * The database mappers: Prisma records to the DTOs of the shared package.
 * A nullable column is an `Option` (`None` is `null`), a JSON column a `Value`
 * (`Null` is `null`), and a `Date` is represented by its `toISOString()` text.
 */
module Mappers {
  import opened Results
  import opened Values
  import opened StoryDtos

  datatype Date = Date(iso: string)

  function ToIsoString(d: Date): string {
    d.iso
  }

  datatype IntakeQuestionModel = IntakeQuestionModel(
    id: string,
    prompt: string,
    options: seq<string>,
    questionType: string,
    position: int)

  datatype QuestionAnswerModel = QuestionAnswerModel(
    questionId: string,
    storyId: string,
    values: seq<string>,
    answeredAt: Date)

  /** An answer row loaded with its question. */
  datatype QuestionAnswerWithQuestion = QuestionAnswerWithQuestion(answer: QuestionAnswerModel, question: IntakeQuestionModel)

  /** A story row loaded with its answers. */
  datatype StoryWithResponses = StoryWithResponses(
    id: string,
    userId: string,
    title: string,
    status: string,
    createdAt: Date,
    updatedAt: Date,
    generatedAt: Option<Date>,
    questionAnswers: seq<QuestionAnswerWithQuestion>)

  datatype ChapterModel = ChapterModel(
    id: string,
    storyId: string,
    title: string,
    summary: string,
    context: Value,
    position: int,
    status: string,
    metadata: Value,
    generatedAt: Option<Date>)

  datatype TaskModel = TaskModel(
    id: string,
    chapterId: string,
    title: string,
    description: string,
    position: int,
    status: string,
    metadata: Value,
    generatedAt: Option<Date>,
    completedAt: Option<Date>)

  datatype PromptExecutionModel = PromptExecutionModel(
    id: string,
    storyId: string,
    stage: string,
    status: string,
    input: Value,
    createdAt: Date,
    chapterId: Option<string>,
    taskId: Option<string>,
    templateId: Option<string>,
    output: Value,
    model: Option<string>,
    metadata: Value)

  datatype StoryEventModel = StoryEventModel(
    id: string,
    storyId: string,
    eventType: string,
    payload: Value,
    createdAt: Date)

  /** A form row loaded with its questions. */
  datatype IntakeFormWithQuestions = IntakeFormWithQuestions(id: string, name: string, questions: seq<IntakeQuestionModel>)

  /** `value ?? undefined` on a JSON column: `null` (or `undefined`) becomes an absent property. */
  function NullishToAbsent(v: Value): (r: Option<Value>)
    ensures r.None? <==> v == Null || v == Undefined
    ensures r.Some? ==> r.value == v
  {
    if v == Null || v == Undefined then None else Some(v)
  }

  /** A nullable string column in a truthiness test: present and non-empty. */
  predicate IsTruthyText(s: Option<string>) {
    s.Some? && s.value != ""
  }

  /** `mapIntakeQuestionDto`: the five fields copied. */
  function MapIntakeQuestionDto(question: IntakeQuestionModel): (r: IntakeQuestionDto)
    ensures r.id == question.id && r.prompt == question.prompt && r.options == question.options
    ensures r.questionType == question.questionType && r.position == question.position
  {
    IntakeQuestionDto(question.id, question.prompt, question.options, question.questionType, question.position)
  }

  /** `mapQuestionAnswerDto`: the fields copied, the answer time as ISO text. */
  function MapQuestionAnswerDto(answer: QuestionAnswerModel): (r: QuestionAnswerDto)
    ensures r.questionId == answer.questionId && r.storyId == answer.storyId && r.values == answer.values
    ensures r.answeredAt == answer.answeredAt.iso
  {
    QuestionAnswerDto(answer.questionId, answer.storyId, answer.values, ToIsoString(answer.answeredAt))
  }

  /** `mapQuestionResponseDto`: the question's DTO paired with the answer's DTO. */
  function MapQuestionResponseDto(entry: QuestionAnswerWithQuestion): (r: QuestionResponseDto)
    ensures r.question.id == entry.question.id && r.question.prompt == entry.question.prompt
    ensures r.question.options == entry.question.options && r.question.questionType == entry.question.questionType
    ensures r.question.position == entry.question.position
    ensures r.answer.questionId == entry.answer.questionId && r.answer.storyId == entry.answer.storyId
    ensures r.answer.values == entry.answer.values && r.answer.answeredAt == entry.answer.answeredAt.iso
  {
    QuestionResponseDto(MapIntakeQuestionDto(entry.question), MapQuestionAnswerDto(entry.answer))
  }

  /**
   * `mapStoryDto`: the scalar fields copied, one response per answer in order, and
   * `generatedAt` present exactly when the story has been generated.
   */
  method MapStoryDto(story: StoryWithResponses) returns (dto: StoryDto)
    ensures dto.id == story.id && dto.userId == story.userId && dto.title == story.title
    ensures dto.status == story.status
    ensures dto.createdAt == story.createdAt.iso && dto.updatedAt == story.updatedAt.iso
    ensures |dto.responses| == |story.questionAnswers|
    ensures forall k :: 0 <= k < |dto.responses| ==>
      dto.responses[k].question == MapIntakeQuestionDto(story.questionAnswers[k].question) &&
      dto.responses[k].answer == MapQuestionAnswerDto(story.questionAnswers[k].answer)
    ensures dto.generatedAt.Some? <==> story.generatedAt.Some?
    ensures dto.generatedAt.Some? ==> dto.generatedAt.value == story.generatedAt.value.iso
  {
    var answers := story.questionAnswers;
    dto := StoryDto(story.id, story.userId, story.title, story.status,
      ToIsoString(story.createdAt), ToIsoString(story.updatedAt),
      seq(|answers|, k requires 0 <= k < |answers| => MapQuestionResponseDto(answers[k])), None);
    if story.generatedAt.Some? {
      dto := dto.(generatedAt := Some(ToIsoString(story.generatedAt.value)));
    }
  }

  /**
   * `mapChapterDto`: a `null` context or metadata is left out, and `generatedAt` is
   * present exactly when the chapter has been generated.
   */
  method MapChapterDto(chapter: ChapterModel) returns (dto: ChapterDto)
    ensures dto.id == chapter.id && dto.storyId == chapter.storyId && dto.title == chapter.title
    ensures dto.summary == chapter.summary && dto.position == chapter.position && dto.status == chapter.status
    ensures dto.context.None? <==> chapter.context == Null || chapter.context == Undefined
    ensures dto.context.Some? ==> dto.context.value == chapter.context
    ensures dto.metadata.None? <==> chapter.metadata == Null || chapter.metadata == Undefined
    ensures dto.metadata.Some? ==> dto.metadata.value == chapter.metadata
    ensures dto.generatedAt.Some? <==> chapter.generatedAt.Some?
    ensures dto.generatedAt.Some? ==> dto.generatedAt.value == chapter.generatedAt.value.iso
  {
    dto := ChapterDto(chapter.id, chapter.storyId, chapter.title, chapter.summary,
      NullishToAbsent(chapter.context), chapter.position, chapter.status,
      NullishToAbsent(chapter.metadata), None);
    if chapter.generatedAt.Some? {
      dto := dto.(generatedAt := Some(ToIsoString(chapter.generatedAt.value)));
    }
  }

  /** `mapTaskDto`: `generatedAt` and `completedAt` each present exactly when set. */
  method MapTaskDto(task: TaskModel) returns (dto: TaskDto)
    ensures dto.id == task.id && dto.chapterId == task.chapterId && dto.title == task.title
    ensures dto.description == task.description && dto.position == task.position && dto.status == task.status
    ensures dto.metadata.None? <==> task.metadata == Null || task.metadata == Undefined
    ensures dto.metadata.Some? ==> dto.metadata.value == task.metadata
    ensures dto.generatedAt.Some? <==> task.generatedAt.Some?
    ensures dto.generatedAt.Some? ==> dto.generatedAt.value == task.generatedAt.value.iso
    ensures dto.completedAt.Some? <==> task.completedAt.Some?
    ensures dto.completedAt.Some? ==> dto.completedAt.value == task.completedAt.value.iso
  {
    dto := TaskDto(task.id, task.chapterId, task.title, task.description, task.position, task.status,
      NullishToAbsent(task.metadata), None, None);
    if task.generatedAt.Some? {
      dto := dto.(generatedAt := Some(ToIsoString(task.generatedAt.value)));
    }
    if task.completedAt.Some? {
      dto := dto.(completedAt := Some(ToIsoString(task.completedAt.value)));
    }
  }

  /**
   * `mapPromptExecutionDto`: the ids, template and model only when non-empty, the
   * output whenever it is not `null`, and the metadata when it is neither `null`
   * nor `undefined`.
   */
  method MapPromptExecutionDto(exec: PromptExecutionModel) returns (dto: PromptExecutionDto)
    ensures dto.id == exec.id && dto.storyId == exec.storyId && dto.stage == exec.stage
    ensures dto.status == exec.status && dto.input == exec.input && dto.createdAt == exec.createdAt.iso
    ensures dto.chapterId.Some? <==> IsTruthyText(exec.chapterId)
    ensures dto.chapterId.Some? ==> dto.chapterId == exec.chapterId
    ensures dto.taskId.Some? <==> IsTruthyText(exec.taskId)
    ensures dto.taskId.Some? ==> dto.taskId == exec.taskId
    ensures dto.templateId.Some? <==> IsTruthyText(exec.templateId)
    ensures dto.templateId.Some? ==> dto.templateId == exec.templateId
    ensures dto.output.Some? <==> exec.output != Null
    ensures dto.output.Some? ==> dto.output.value == exec.output
    ensures dto.model.Some? <==> IsTruthyText(exec.model)
    ensures dto.model.Some? ==> dto.model == exec.model
    ensures dto.metadata.Some? <==> exec.metadata != Null && exec.metadata != Undefined
    ensures dto.metadata.Some? ==> dto.metadata.value == exec.metadata
  {
    var chapterId, taskId, templateId, output, model, metadata := None, None, None, None, None, None;
    if IsTruthyText(exec.chapterId) {
      chapterId := exec.chapterId;
    }
    if IsTruthyText(exec.taskId) {
      taskId := exec.taskId;
    }
    if IsTruthyText(exec.templateId) {
      templateId := exec.templateId;
    }
    if exec.output != Null {
      output := Some(exec.output);
    }
    if IsTruthyText(exec.model) {
      model := exec.model;
    }
    if exec.metadata != Null && exec.metadata != Undefined {
      metadata := Some(exec.metadata);
    }
    dto := PromptExecutionDto(exec.id, exec.storyId, exec.stage, exec.status, exec.input,
      ToIsoString(exec.createdAt), chapterId, taskId, templateId, output, model, metadata);
  }

  /** `mapStoryEventDto`: a `null` payload is left out. */
  function MapStoryEventDto(event: StoryEventModel): (r: StoryEventDto)
    ensures r.id == event.id && r.storyId == event.storyId && r.eventType == event.eventType
    ensures r.createdAt == event.createdAt.iso
    ensures r.payload.None? <==> event.payload == Null || event.payload == Undefined
    ensures r.payload.Some? ==> r.payload.value == event.payload
  {
    StoryEventDto(event.id, event.storyId, event.eventType, NullishToAbsent(event.payload), ToIsoString(event.createdAt))
  }

  /** `mapIntakeFormDto`: id and name kept, the questions mapped in order. */
  function MapIntakeFormDto(form: IntakeFormWithQuestions): (r: IntakeFormDto)
    ensures r.id == form.id && r.name == form.name
    ensures |r.questions| == |form.questions|
    ensures forall k :: 0 <= k < |r.questions| ==>
      r.questions[k].id == form.questions[k].id && r.questions[k].prompt == form.questions[k].prompt &&
      r.questions[k].position == form.questions[k].position && r.questions[k].options == form.questions[k].options &&
      r.questions[k].questionType == form.questions[k].questionType
  {
    IntakeFormDto(form.id, form.name,
      seq(|form.questions|, k requires 0 <= k < |form.questions| => MapIntakeQuestionDto(form.questions[k])))
  }
}
