/**
 * The DTOs of the story/chapter revision of the shared package, which the
 * chat-completions AI service and the database mappers exchange.
 * Optional properties are `Option`s: `None` is an absent (or `undefined`) property.
 */
module StoryDtos {
  import opened Results
  import opened Values

  datatype IntakeQuestionDto = IntakeQuestionDto(
    id: string,
    prompt: string,
    options: seq<string>,
    questionType: string,
    position: int)

  datatype QuestionAnswerDto = QuestionAnswerDto(
    questionId: string,
    storyId: string,
    values: seq<string>,
    answeredAt: string)

  datatype QuestionResponseDto = QuestionResponseDto(question: IntakeQuestionDto, answer: QuestionAnswerDto)

  datatype StoryDto = StoryDto(
    id: string,
    userId: string,
    title: string,
    status: string,
    createdAt: string,
    updatedAt: string,
    responses: seq<QuestionResponseDto>,
    generatedAt: Option<string>)

  datatype ChapterDto = ChapterDto(
    id: string,
    storyId: string,
    title: string,
    summary: string,
    context: Option<Value>,
    position: int,
    status: string,
    metadata: Option<Value>,
    generatedAt: Option<string>)

  datatype TaskDto = TaskDto(
    id: string,
    chapterId: string,
    title: string,
    description: string,
    position: int,
    status: string,
    metadata: Option<Value>,
    generatedAt: Option<string>,
    completedAt: Option<string>)

  datatype PromptExecutionDto = PromptExecutionDto(
    id: string,
    storyId: string,
    stage: string,
    status: string,
    input: Value,
    createdAt: string,
    chapterId: Option<string>,
    taskId: Option<string>,
    templateId: Option<string>,
    output: Option<Value>,
    model: Option<string>,
    metadata: Option<Value>)

  datatype StoryEventDto = StoryEventDto(
    id: string,
    storyId: string,
    eventType: string,
    payload: Option<Value>,
    createdAt: string)

  datatype IntakeFormDto = IntakeFormDto(id: string, name: string, questions: seq<IntakeQuestionDto>)
}
