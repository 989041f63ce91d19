/**
 * The chat-completions AI service: the story and chapter context payloads it
 * sends, and the hand-off of the first choice's message content to the parsers.
 * The completion is what the OpenAI client returned for the request; the request
 * itself (prompts, JSON schemas, serialisation of the payloads) is not modelled.
 */
module AiService {
  import opened Results
  import opened Values
  import opened Errors
  import opened StoryDtos
  import Contexts
  import AiUtils

  datatype StoryResponseJson = StoryResponseJson(question: string, answers: seq<string>)

  /** The `story` member of the story context payload. */
  datatype StoryContextPayload = StoryContextPayload(title: string, responses: seq<StoryResponseJson>)

  datatype ChapterContextPayload = ChapterContextPayload(
    title: string,
    summary: string,
    position: int,
    metadata: Option<Value>)

  /** A chat message; `content: None` is a `null` content. */
  datatype ChatMessage = ChatMessage(content: Option<string>)

  /** A choice; `message: None` is a choice without a message. */
  datatype Choice = Choice(message: Option<ChatMessage>)

  datatype Completion = Completion(choices: seq<Choice>)

  /**
   * `buildStoryContextPayload`: the title, and one entry per response in order whose
   * question text carries the options unless the question is free text or has none.
   */
  function BuildStoryContextPayload(story: StoryDto): (r: StoryContextPayload)
    ensures r.title == story.title
    ensures |r.responses| == |story.responses|
    ensures forall k :: 0 <= k < |r.responses| ==>
      var q := story.responses[k].question;
      && r.responses[k].answers == story.responses[k].answer.values
      && r.responses[k].question == Contexts.ResponseQuestionText(q.prompt, q.questionType, q.options)
      && (q.questionType == "free_text" || q.options == [] ==> r.responses[k].question == q.prompt)
  {
    StoryContextPayload(story.title,
      seq(|story.responses|, k requires 0 <= k < |story.responses| =>
        StoryResponseJson(
          Contexts.ResponseQuestionText(story.responses[k].question.prompt,
            story.responses[k].question.questionType, story.responses[k].question.options),
          story.responses[k].answer.values)))
  }

  /** `chapter.metadata ?? undefined`: a `null` metadata is dropped like an absent one. */
  function NullishToAbsent(m: Option<Value>): (r: Option<Value>)
    ensures r.None? <==> m.None? || m.value == Null || m.value == Undefined
    ensures r.Some? ==> r == m
  {
    if m.Some? && m.value != Null && m.value != Undefined then m else None
  }

  /** `buildChapterContext`: title, summary and position copied; metadata only when set. */
  function BuildChapterContext(chapter: ChapterDto): (r: ChapterContextPayload)
    ensures r.title == chapter.title && r.summary == chapter.summary && r.position == chapter.position
    ensures r.metadata.None? <==> chapter.metadata.None? || chapter.metadata.value in {Null, Undefined}
    ensures r.metadata.Some? ==> r.metadata == chapter.metadata
  {
    ChapterContextPayload(chapter.title, chapter.summary, chapter.position, NullishToAbsent(chapter.metadata))
  }

  /** `completion.choices[0]?.message?.content ?? null`. */
  function CompletionContent(completion: Completion): (r: Option<string>)
    ensures r.Some? <==>
      |completion.choices| > 0 && completion.choices[0].message.Some? &&
      completion.choices[0].message.value.content.Some?
    ensures r.Some? ==> r == completion.choices[0].message.value.content
  {
    if |completion.choices| == 0 then None
    else match completion.choices[0].message
      case None => None
      case Some(m) => m.content
  }

  /** `generateForm` after the request: the first choice's content, parsed as an intake form. */
  function GenerateForm(completion: Completion, parse: AiUtils.JsonParser, issuesOf: AiUtils.IssueReporter)
    : (r: Result<seq<IntakeQuestionDto>, string>)
    ensures CompletionContent(completion).None? ==> r == Err("OpenAI returned an empty form response")
    ensures CompletionContent(completion).Some? ==> r == AiUtils.ParseFormDefinition(CompletionContent(completion), parse, issuesOf)
  {
    AiUtils.ParseFormDefinition(CompletionContent(completion), parse, issuesOf)
  }

  /** `generateChapterOutline` after the request. */
  function GenerateChapterOutline(completion: Completion, parse: AiUtils.JsonParser, issuesOf: AiUtils.IssueReporter)
    : (r: Result<AiUtils.ChapterOutline, string>)
    ensures CompletionContent(completion).None? ==> r == Err("OpenAI returned an empty chapter outline response")
    ensures CompletionContent(completion).Some? ==> r == AiUtils.ParseChapterOutline(CompletionContent(completion), parse, issuesOf)
  {
    AiUtils.ParseChapterOutline(CompletionContent(completion), parse, issuesOf)
  }

  /** `generateTasksForChapter` after the request. */
  function GenerateTasksForChapter(completion: Completion, parse: AiUtils.JsonParser, issuesOf: AiUtils.IssueReporter)
    : (r: Result<AiUtils.TaskSchedule, string>)
    ensures CompletionContent(completion).None? ==> r == Err("OpenAI returned an empty task schedule response")
    ensures CompletionContent(completion).Some? ==> r == AiUtils.ParseTaskSchedule(CompletionContent(completion), parse, issuesOf)
  {
    AiUtils.ParseTaskSchedule(CompletionContent(completion), parse, issuesOf)
  }

  /**
   * A completion with no choices, or whose first choice has no message or a `null`
   * content, never reaches `JSON.parse`: every generator reports an empty response.
   */
  lemma EmptyCompletionIsReported(completion: Completion, parse: AiUtils.JsonParser, issuesOf: AiUtils.IssueReporter)
    requires |completion.choices| == 0 || completion.choices[0].message.None? ||
      completion.choices[0].message.value.content.None?
    ensures GenerateForm(completion, parse, issuesOf) == Err("OpenAI returned an empty form response")
    ensures GenerateChapterOutline(completion, parse, issuesOf) == Err("OpenAI returned an empty chapter outline response")
    ensures GenerateTasksForChapter(completion, parse, issuesOf) == Err("OpenAI returned an empty task schedule response")
  {
  }

  /** Only the first choice matters: later choices never change what is parsed. */
  lemma OnlyFirstChoiceIsRead(first: Choice, rest: seq<Choice>, rest': seq<Choice>)
    ensures CompletionContent(Completion([first] + rest)) == CompletionContent(Completion([first] + rest'))
  {
  }
}
