/**
 * The chat-completions parsers: the zod schemas of the generated intake form,
 * chapter outline and task schedule as predicates over parsed JSON, the
 * empty/unparsable/invalid error cases, and the mapping of validated data
 * into the service's result types. `JSON.parse` and zod's issue list for a
 * rejected value are parameters.
 */
module AiUtils {
  import opened Results
  import opened Values
  import opened Errors
  import opened StoryDtos

  datatype ChapterOutlineMilestone = ChapterOutlineMilestone(
    title: string,
    description: string,
    successCriteria: seq<string>,
    estimatedDurationDays: Option<real>)

  datatype ChapterOutlineItem = ChapterOutlineItem(
    title: string,
    summary: string,
    position: int,
    milestones: seq<ChapterOutlineMilestone>)

  datatype ChapterOutline = ChapterOutline(chapters: seq<ChapterOutlineItem>)

  datatype GeneratedTask = GeneratedTask(
    day: int,
    title: string,
    objective: string,
    description: string,
    body: string,
    estimatedMinutes: real,
    optionalChallenge: Option<string>,
    reflectionPrompt: Option<string>)

  datatype TaskSchedule = TaskSchedule(tasks: seq<GeneratedTask>)

  /** `JSON.parse`: a value, or the `SyntaxError` (or other value) it throws. */
  type JsonParser = string -> Result<Value, Thrown>

  /** zod's issue list for a value its schema rejects. */
  type IssueReporter = Value -> seq<Issue>

  // ---- schemas ----

  const QUESTION_TYPES: seq<string> := ["free_text", "single_select", "multi_select"]

  predicate IsQuestionType(v: Value) {
    v.Str? && v.s in QUESTION_TYPES
  }

  /** `intakeQuestionSchema` (unknown keys are stripped, not rejected). */
  predicate IsIntakeQuestion(v: Value) {
    && v.Obj?
    && IsNonEmptyString(Get(v, "id"))
    && IsNonEmptyString(Get(v, "prompt"))
    && IsQuestionType(Get(v, "questionType"))
    && IsStringArray(Get(v, "options"))
    && IsNonNegativeInteger(Get(v, "position"))
  }

  predicate IsIntakeForm(v: Value) {
    && v.Obj?
    && Get(v, "questions").Arr?
    && forall k :: 0 <= k < |Get(v, "questions").items| ==> IsIntakeQuestion(Get(v, "questions").items[k])
  }

  /** `chapterMilestoneSchema`: `successCriteria` may be absent, `estimatedDurationDays` absent or non-negative. */
  predicate IsChapterMilestone(v: Value) {
    && v.Obj?
    && IsNonEmptyString(Get(v, "title"))
    && IsNonEmptyString(Get(v, "description"))
    && (Get(v, "successCriteria").Undefined? || IsStringArray(Get(v, "successCriteria")))
    && (Get(v, "estimatedDurationDays").Undefined? ||
        (Get(v, "estimatedDurationDays").Num? && Get(v, "estimatedDurationDays").n >= 0.0))
  }

  predicate IsChapter(v: Value) {
    && v.Obj?
    && IsNonEmptyString(Get(v, "title"))
    && IsNonEmptyString(Get(v, "summary"))
    && IsNonNegativeInteger(Get(v, "position"))
    && Get(v, "milestones").Arr?
    && forall k :: 0 <= k < |Get(v, "milestones").items| ==> IsChapterMilestone(Get(v, "milestones").items[k])
  }

  predicate IsChapterOutline(v: Value) {
    && v.Obj?
    && Get(v, "chapters").Arr?
    && forall k :: 0 <= k < |Get(v, "chapters").items| ==> IsChapter(Get(v, "chapters").items[k])
  }

  /** `z.string().min(1).optional()`. */
  predicate IsOptionalNonEmptyString(v: Value) {
    v.Undefined? || IsNonEmptyString(v)
  }

  /** `taskSchema`. */
  predicate IsTask(v: Value) {
    && v.Obj?
    && IsPositiveInteger(Get(v, "day"))
    && IsNonEmptyString(Get(v, "title"))
    && IsNonEmptyString(Get(v, "objective"))
    && IsNonEmptyString(Get(v, "description"))
    && IsNonEmptyString(Get(v, "body"))
    && Get(v, "estimatedMinutes").Num? && Get(v, "estimatedMinutes").n > 0.0
    && IsOptionalNonEmptyString(Get(v, "optionalChallenge"))
    && IsOptionalNonEmptyString(Get(v, "reflectionPrompt"))
  }

  predicate IsTaskSchedule(v: Value) {
    && v.Obj?
    && Get(v, "tasks").Arr?
    && forall k :: 0 <= k < |Get(v, "tasks").items| ==> IsTask(Get(v, "tasks").items[k])
  }

  // ---- what zod hands back for an accepted value ----

  function OptionalString(v: Value): (r: Option<string>)
    ensures r.Some? <==> v.Str?
    ensures r.Some? ==> v == Str(r.value)
  {
    if v.Str? then Some(v.s) else None
  }

  function DecodeIntakeQuestion(v: Value): IntakeQuestionDto
    requires IsIntakeQuestion(v)
  {
    IntakeQuestionDto(Get(v, "id").s, Get(v, "prompt").s, Strings(Get(v, "options")),
      Get(v, "questionType").s, Get(v, "position").n.Floor)
  }

  /** The chapter milestone with zod's `.default([])` applied. */
  function DecodeChapterMilestone(v: Value): ChapterOutlineMilestone
    requires IsChapterMilestone(v)
  {
    var criteria := Get(v, "successCriteria");
    var days := Get(v, "estimatedDurationDays");
    ChapterOutlineMilestone(Get(v, "title").s, Get(v, "description").s,
      if criteria.Undefined? then [] else Strings(criteria),
      if days.Undefined? then None else Some(days.n))
  }

  function DecodeChapter(v: Value): ChapterOutlineItem
    requires IsChapter(v)
  {
    var ms := Get(v, "milestones").items;
    ChapterOutlineItem(Get(v, "title").s, Get(v, "summary").s, Get(v, "position").n.Floor,
      seq(|ms|, k requires 0 <= k < |ms| => DecodeChapterMilestone(ms[k])))
  }

  function DecodeTask(v: Value): GeneratedTask
    requires IsTask(v)
  {
    GeneratedTask(Get(v, "day").n.Floor, Get(v, "title").s, Get(v, "objective").s,
      Get(v, "description").s, Get(v, "body").s, Get(v, "estimatedMinutes").n,
      OptionalString(Get(v, "optionalChallenge")), OptionalString(Get(v, "reflectionPrompt")))
  }

  // ---- formatting and the three failure cases ----

  /** The message a failed `JSON.parse` contributes. */
  function ParseErrorMessage(error: Thrown): string {
    if error.ErrorObject? then error.message else "Unknown parse error"
  }

  /**
   * `parseJsonContent`: null or empty content, then unparsable content, each with
   * its own message; otherwise the parsed value.
   */
  function ParseJsonContent(content: Option<string>, context: string, parse: JsonParser): (r: Result<Value, string>)
    ensures content.None? || content == Some("") ==> r == Err("OpenAI returned an empty " + context + " response")
    ensures content.Some? && content.value != "" && parse(content.value).Err? ==>
      r == Err("Unable to parse OpenAI " + context + " JSON: " + ParseErrorMessage(parse(content.value).error))
    ensures r.Ok? <==> content.Some? && content.value != "" && parse(content.value).Ok?
    ensures r.Ok? ==> r.value == parse(content.value).value
  {
    if content.None? || content.value == "" then
      Err("OpenAI returned an empty " + context + " response")
    else
      match parse(content.value)
      case Ok(v) => Ok(v)
      case Err(e) => Err("Unable to parse OpenAI " + context + " JSON: " + ParseErrorMessage(e))
  }

  /**
   * `parseWithSchema` up to the schema's output: the parsed value when the schema
   * accepts it, otherwise `<context> payload failed validation: <issues>`.
   */
  function ParseWithSchema(
    accepts: Value -> bool, issuesOf: IssueReporter, content: Option<string>, context: string, parse: JsonParser)
    : (r: Result<Value, string>)
    ensures r.Ok? <==> ParseJsonContent(content, context, parse).Ok? && accepts(ParseJsonContent(content, context, parse).value)
    ensures r.Ok? ==> r.value == ParseJsonContent(content, context, parse).value
    ensures ParseJsonContent(content, context, parse).Err? ==> r == ParseJsonContent(content, context, parse)
    ensures ParseJsonContent(content, context, parse).Ok? && !accepts(ParseJsonContent(content, context, parse).value) ==>
      r == Err(context + " payload failed validation: " + FormatIssues(issuesOf(ParseJsonContent(content, context, parse).value)))
  {
    match ParseJsonContent(content, context, parse)
    case Err(e) => Err(e)
    case Ok(v) =>
      if accepts(v) then Ok(v)
      else Err(context + " payload failed validation: " + FormatIssues(issuesOf(v)))
  }

  // ---- the three parsers ----

  /** `parseFormDefinition`: one question per generated question, in order, fields copied. */
  function ParseFormDefinition(content: Option<string>, parse: JsonParser, issuesOf: IssueReporter)
    : (r: Result<seq<IntakeQuestionDto>, string>)
    ensures content.None? || content == Some("") ==> r == Err("OpenAI returned an empty form response")
    ensures r.Err? <==> ParseWithSchema(IsIntakeForm, issuesOf, content, "form", parse).Err?
    ensures r.Err? ==> r.error == ParseWithSchema(IsIntakeForm, issuesOf, content, "form", parse).error
    ensures r.Ok? ==>
      var qs := Get(ParseWithSchema(IsIntakeForm, issuesOf, content, "form", parse).value, "questions").items;
      |r.value| == |qs| &&
      forall k :: 0 <= k < |qs| ==>
        IsIntakeQuestion(qs[k]) && r.value[k].id != "" && r.value[k].prompt != "" &&
        r.value[k].questionType in QUESTION_TYPES && r.value[k].position >= 0 &&
        Str(r.value[k].id) == Get(qs[k], "id") && Str(r.value[k].prompt) == Get(qs[k], "prompt") &&
        Str(r.value[k].questionType) == Get(qs[k], "questionType") &&
        StringArray(r.value[k].options) == Get(qs[k], "options") &&
        r.value[k].position as real == Get(qs[k], "position").n
  {
    assert "OpenAI returned an empty " + "form" + " response" == "OpenAI returned an empty form response";
    match ParseWithSchema(IsIntakeForm, issuesOf, content, "form", parse)
    case Err(e) => Err(e)
    case Ok(v) =>
      var qs := Get(v, "questions").items;
      var r := seq(|qs|, k requires 0 <= k < |qs| => DecodeIntakeQuestion(qs[k]));
      assert forall k :: 0 <= k < |qs| ==> StringArray(r[k].options) == Get(qs[k], "options") by {
        forall k | 0 <= k < |qs| {
          StringsRoundTrip(Get(qs[k], "options"));
        }
      }
      Ok(r)
  }

  /** The chapter milestone as `parseChapterOutline` copies it: criteria defaulted, duration only when given. */
  function MapChapterMilestone(m: ChapterOutlineMilestone): ChapterOutlineMilestone {
    ChapterOutlineMilestone(m.title, m.description, m.successCriteria,
      if m.estimatedDurationDays.Some? then m.estimatedDurationDays else None)
  }

  /**
   * The chapter as `parseChapterOutline` copies it: title, summary and position
   * kept, and every milestone kept in order with all its fields.
   */
  function MapChapter(c: ChapterOutlineItem): (r: ChapterOutlineItem)
    ensures r.title == c.title && r.summary == c.summary && r.position == c.position
    ensures |r.milestones| == |c.milestones|
    ensures forall k :: 0 <= k < |r.milestones| ==> r.milestones[k] == c.milestones[k]
  {
    ChapterOutlineItem(c.title, c.summary, c.position,
      seq(|c.milestones|, k requires 0 <= k < |c.milestones| => MapChapterMilestone(c.milestones[k])))
  }

  /**
   * `parseChapterOutline`: chapters and their milestones keep count and order;
   * a missing `successCriteria` becomes `[]`, and `estimatedDurationDays` is present
   * exactly when the model gave one.
   */
  function ParseChapterOutline(content: Option<string>, parse: JsonParser, issuesOf: IssueReporter)
    : (r: Result<ChapterOutline, string>)
    ensures content.None? || content == Some("") ==> r == Err("OpenAI returned an empty chapter outline response")
    ensures r.Err? <==> ParseWithSchema(IsChapterOutline, issuesOf, content, "chapter outline", parse).Err?
    ensures r.Err? ==> r.error == ParseWithSchema(IsChapterOutline, issuesOf, content, "chapter outline", parse).error
    ensures r.Ok? ==>
      var cs := Get(ParseWithSchema(IsChapterOutline, issuesOf, content, "chapter outline", parse).value, "chapters").items;
      |r.value.chapters| == |cs| &&
      forall k :: 0 <= k < |cs| ==>
        var ms := Get(cs[k], "milestones").items;
        && Str(r.value.chapters[k].title) == Get(cs[k], "title")
        && Str(r.value.chapters[k].summary) == Get(cs[k], "summary")
        && r.value.chapters[k].position >= 0
        && r.value.chapters[k].position as real == Get(cs[k], "position").n
        && |r.value.chapters[k].milestones| == |ms|
        && forall j :: 0 <= j < |ms| ==>
             var m := r.value.chapters[k].milestones[j];
             && Str(m.title) == Get(ms[j], "title")
             && Str(m.description) == Get(ms[j], "description")
             && (Get(ms[j], "successCriteria").Undefined? ==> m.successCriteria == [])
             && (!Get(ms[j], "successCriteria").Undefined? ==> StringArray(m.successCriteria) == Get(ms[j], "successCriteria"))
             && (m.estimatedDurationDays.Some? <==> !Get(ms[j], "estimatedDurationDays").Undefined?)
             && (m.estimatedDurationDays.Some? ==> Num(m.estimatedDurationDays.value) == Get(ms[j], "estimatedDurationDays"))
  {
    assert "OpenAI returned an empty " + "chapter outline" + " response" == "OpenAI returned an empty chapter outline response";
    match ParseWithSchema(IsChapterOutline, issuesOf, content, "chapter outline", parse)
    case Err(e) => Err(e)
    case Ok(v) =>
      var cs := Get(v, "chapters").items;
      var r := ChapterOutline(seq(|cs|, k requires 0 <= k < |cs| => MapChapter(DecodeChapter(cs[k]))));
      forall k, j | 0 <= k < |cs| && 0 <= j < |Get(cs[k], "milestones").items|
        ensures IsStringArray(Get(Get(cs[k], "milestones").items[j], "successCriteria")) ==>
          StringArray(Strings(Get(Get(cs[k], "milestones").items[j], "successCriteria"))) ==
          Get(Get(cs[k], "milestones").items[j], "successCriteria")
      {
        var sc := Get(Get(cs[k], "milestones").items[j], "successCriteria");
        if IsStringArray(sc) {
          StringsRoundTrip(sc);
        }
      }
      Ok(r)
  }

  /** A task as `parseTaskSchedule` copies it: the optional texts only when truthy. */
  function MapTask(t: GeneratedTask): GeneratedTask {
    GeneratedTask(t.day, t.title, t.objective, t.description, t.body, t.estimatedMinutes,
      if t.optionalChallenge.Some? && t.optionalChallenge.value != "" then t.optionalChallenge else None,
      if t.reflectionPrompt.Some? && t.reflectionPrompt.value != "" then t.reflectionPrompt else None)
  }

  /** After validation the truthiness tests never drop a provided text: mapping a decoded task is the identity. */
  lemma MapTaskKeepsValidated(v: Value)
    requires IsTask(v)
    ensures MapTask(DecodeTask(v)) == DecodeTask(v)
  {
  }

  /**
   * `parseTaskSchedule`: tasks keep count and order, days are positive integers, and
   * `optionalChallenge`/`reflectionPrompt` are present exactly when the model gave
   * them, then always non-empty.
   */
  function ParseTaskSchedule(content: Option<string>, parse: JsonParser, issuesOf: IssueReporter)
    : (r: Result<TaskSchedule, string>)
    ensures content.None? || content == Some("") ==> r == Err("OpenAI returned an empty task schedule response")
    ensures r.Err? <==> ParseWithSchema(IsTaskSchedule, issuesOf, content, "task schedule", parse).Err?
    ensures r.Err? ==> r.error == ParseWithSchema(IsTaskSchedule, issuesOf, content, "task schedule", parse).error
    ensures r.Ok? ==>
      var ts := Get(ParseWithSchema(IsTaskSchedule, issuesOf, content, "task schedule", parse).value, "tasks").items;
      |r.value.tasks| == |ts| &&
      forall k :: 0 <= k < |ts| ==>
        var t := r.value.tasks[k];
        && t.day >= 1 && t.day as real == Get(ts[k], "day").n
        && Str(t.title) == Get(ts[k], "title") && Str(t.objective) == Get(ts[k], "objective")
        && Str(t.description) == Get(ts[k], "description") && Str(t.body) == Get(ts[k], "body")
        && t.estimatedMinutes > 0.0 && Num(t.estimatedMinutes) == Get(ts[k], "estimatedMinutes")
        && (t.optionalChallenge.Some? <==> Get(ts[k], "optionalChallenge").Str?)
        && (t.optionalChallenge.Some? ==> t.optionalChallenge.value != "" && Str(t.optionalChallenge.value) == Get(ts[k], "optionalChallenge"))
        && (t.reflectionPrompt.Some? <==> Get(ts[k], "reflectionPrompt").Str?)
        && (t.reflectionPrompt.Some? ==> t.reflectionPrompt.value != "" && Str(t.reflectionPrompt.value) == Get(ts[k], "reflectionPrompt"))
  {
    assert "OpenAI returned an empty " + "task schedule" + " response" == "OpenAI returned an empty task schedule response";
    match ParseWithSchema(IsTaskSchedule, issuesOf, content, "task schedule", parse)
    case Err(e) => Err(e)
    case Ok(v) =>
      var ts := Get(v, "tasks").items;
      Ok(TaskSchedule(seq(|ts|, k requires 0 <= k < |ts| => MapTask(DecodeTask(ts[k])))))
  }
}
