# FormIQ core, modelled in Dafny

FormIQ turns a goal into a project roadmap. A user states a goal and answers a
four-question intake (time commitment, familiarity, work style). The API
validates that intake and stores it. A language model then proposes focus
questions, a milestone outline and day-by-day tasks. A workflow persists the
outline as milestones and each milestone's tasks. The web app walks the user
through the intake, the focus questions and the resulting details page.

This project models the deterministic layer under that glue:

- the shared value sets, guards and the fixed intake form (`shared.dfy`);
- the API's request validation, response normalisation and error
  classification (`api.dfy`);
- the prompt-context projections (`contexts.dfy`, `service.dfy`);
- the model-output parsers, their zod schemas and issue formatting
  (`utils.dfy`, `errors.dfy`, `ai_schemas.dfy`, `db_schemas.dfy`);
- the retry-once structured-output procedure and its text extraction
  (`structured.dfy`);
- the database-to-DTO mappers (`mappers.dfy`, `dtos.dfy`);
- the roadmap workflow's call sequence (`workflow.dfy`);
- the client-side form state of the four web components (`app.dfy`,
  `start_project_page.dfy`, `project_details_page.dfy`,
  `focus_questions_form.dfy`).

Supporting modules:

- `results.dfy` holds `Option` and `Result`.
- `text.dfy` holds the string operations JavaScript provides: `trim`, `join`,
  `includes`, `toLowerCase`, `filter` on a string list, and decimal rendering.
- `values.dfy` holds `Value`, the untyped JSON/JavaScript value the handlers
  and schemas inspect.

Foreign calls become parameters:

- `JSON.parse` is a `JsonParser` function returning a value or a thrown error.
- The list of issues zod reports for a rejected value is an `IssueReporter`.
- The Responses API is a function from a call number and a request to a
  reply.
- `JSON.stringify` of a string list is a `Stringify` function.
- `Date.now()` is a `now: nat` argument.
- The workflow's five activities are an `Activities` record of functions.
  Each function gives the final outcome of a proxied call as the workflow
  sees it, after Temporal's retries. The `ActivityLog` class records one
  entry per proxied call in its `trace`, not one per attempt.

The methods are proved against specification functions:

- `ExtractTextOutput` against `TextOutputOf`;
- `GenerateAllTasks` and `GenerateProjectRoadmap` against `TasksRun` and
  `Roadmap`;
- `BuildInitialResponses` against `InitialResponsesOf`;
- `InitialFocusResponses` against `InitialFocusResponsesOf`.

Lemmas then state what the source promises about those functions.

Where two source files were written against different revisions of the shared
types, each module declares the minimal datatypes its file reads:

- Story/Chapter in `service.ts`, `utils.ts` and `mappers.ts`;
- Project/Milestone elsewhere;
- `IntakeQuestionDto` for the intake page;
- `SubmitFocusResponseInput` for the details page.

## Model

| member | source | states |
|---|---|---|
| Shared.CommitmentGuardExact | packages/shared/src/index.ts:131-135 | `isProjectCommitment` holds exactly for the four strings light, moderate, heavy, dedicated |
| Shared.FamiliarityGuardExact | packages/shared/src/index.ts:137-141 | `isProjectFamiliarity` holds exactly for the three familiarity strings |
| Shared.WorkStyleGuardExact | packages/shared/src/index.ts:143-145 | `isProjectWorkStyle` holds exactly for the three work-style strings |
| Shared.GuardsRejectNonStrings | packages/shared/src/index.ts:131-145 | every non-string value fails all three guards |
| Shared.OptionValues | packages/shared/src/index.ts:33-62 | the value list of an option list has one entry per option, in order |
| Shared.OptionsMatchValues | packages/shared/src/index.ts:10-62 | each `*_OPTIONS` list carries exactly its `*_VALUES` list, in the same order |
| Shared.IntakeFormShape | packages/shared/src/index.ts:89-129 | the intake form has four required questions with distinct ids goal, time_commitment, familiarity, work_style and positions 1..4 ascending |
| Shared.IntakeFormOptions | packages/shared/src/index.ts:94-129 | the goal question is free text with no options; the other three are single-select, each with its own value set as options |
| Shared.IntakeFormTypesKnown | packages/shared/src/index.ts:1-5 | every intake question's type is one of the three question types |
| Shared.StatusSetsDistinct | packages/shared/src/index.ts:192-211 | each status set lists three distinct values, and the separately declared milestone and task sets hold the same values |
| Api.NormalizeValues | apps/api/src/index.ts:43-49 | `values` is kept exactly when it is an array of strings only (so `[]` is kept); otherwise it becomes `[]` |
| Api.FirstMissing | apps/api/src/index.ts:33-40 | the index of the first element lacking a string `questionId`; every earlier element has one |
| Api.NormalizeFrom | apps/api/src/index.ts:33-52 | the `map` fails at the first bad element, naming its index; otherwise one entry per element, in order |
| Api.NormalizeResponses | apps/api/src/index.ts:28-53 | a non-array fails with "responses must be an array"; the first element without a string `questionId` fails with `responses[<i>] is missing a questionId`; on success the output has the input's length and keeps its ids in order |
| Api.KeepsStringArrays | apps/api/src/index.ts:43-51 | an entry whose values are strings comes back unchanged, `[]` included |
| Api.DropsMalformedValues | apps/api/src/index.ts:43-51 | an entry whose values are missing or hold a non-string gets `[]` |
| Api.ValidateStart | apps/api/src/index.ts:99-118 | `POST /projects/start` checks goal, commitment, familiarity and workStyle in that order; the first failure decides the 400 message; on success the goal is trimmed |
| Api.StartTitleTrimmed | apps/api/src/index.ts:105-130 | the project created from an accepted goal has a non-empty title with no surrounding space |
| Api.FocusSchemaAccepts | packages/activities/src/ai/schemas.ts:13-18 | a non-empty goal and three selections from their value sets satisfy the focus-question input schema |
| Api.StartAnswersPassFocusSchema | apps/api/src/index.ts:118-137 | whatever the start route accepts is compatible with the focus-question activity's input schema (the route calls generation directly, without that schema) |
| Api.FormRecordSchemaDropsItems | packages/activities/src/database/schemas.ts:22-31 | the activity wrapper's create-form schema accepts a record shaped like the start route's, but its parse keeps only name, projectId and kind, dropping `items` and `userId`; the route itself bypasses that wrapper |
| Api.ValidateCreateProject | apps/api/src/index.ts:189-213 | `POST /projects`: a blank title gives 400 "title is required"; a normalisation failure gives 500 "Unable to save project" with the error; otherwise the trimmed title and the normalised responses are stored |
| Api.CreateProjectNeedsResponses | apps/api/src/index.ts:192-211 | a titled body without `responses` still fails with 500 |
| Api.ClassifyDetailsError | apps/api/src/index.ts:177-186 | an error gives 404 "Project not found" exactly when its lower-cased message contains "not found", and 500 otherwise |
| Api.DetailsRequestCheck | apps/api/src/index.ts:170-172 | an empty project id is a 400 "projectId is required" before any lookup |
| Api.NotFoundIs404 | apps/api/src/index.ts:179-183 | a message "Project Not Found for user", after any prefix, is classified 404 although its case differs from the searched text |
| Contexts.OutlineQuestionText | packages/platform/src/services/ai/contexts.ts:45-52 | the question alone when there are no options; otherwise question, a space and "Options: a, b", with empty parts dropped |
| Contexts.ResponseQuestionText | packages/platform/src/services/ai/contexts.ts:67-76 | free-text questions and questions without options never get the options suffix |
| Contexts.Answered | packages/platform/src/services/ai/contexts.ts:39-43 | the kept items are exactly the answered ones |
| Contexts.AnsweredAppend | packages/platform/src/services/ai/contexts.ts:39-43 | the filter distributes over concatenation, so kept items keep their order |
| Contexts.AllAnsweredKept | packages/platform/src/services/ai/contexts.ts:39-43 | when every item is answered, all are kept, in order |
| Contexts.NoneAnsweredDropped | packages/platform/src/services/ai/contexts.ts:39-43 | when no item is answered, none is kept |
| Contexts.UnansweredItemDropped | packages/platform/src/services/ai/contexts.ts:39-43 | an unanswered item anywhere leaves the kept items as if it were absent |
| Contexts.ProjectContextToJson | packages/platform/src/services/ai/contexts.ts:28-88 | outline branch: one item per answered focus item, with answers `[answer]`; stored-project branch: one item per response, with its values unchanged; both copy title, commitment, familiarity and workStyle |
| Contexts.MilestoneContextToJson | packages/platform/src/services/ai/contexts.ts:91-100 | exactly `{title, summary}` of the milestone |
| Contexts.MilestoneTaskContextToJson | packages/platform/src/services/ai/contexts.ts:102-114 | the project JSON paired with the milestone JSON |
| AiService.BuildStoryContextPayload | packages/platform/src/services/ai/service.ts:23-36 | one entry per response, in order, with the title copied, the options suffix only for non-free-text questions with options, and answers equal to the response's values |
| AiService.NullishToAbsent | packages/platform/src/services/ai/service.ts:42 | `?? undefined`: null and undefined become absent, anything else is kept |
| AiService.BuildChapterContext | packages/platform/src/services/ai/service.ts:38-43 | keeps title, summary and position; metadata is absent exactly when it was null or undefined |
| AiService.CompletionContent | packages/platform/src/services/ai/service.ts:64-66 | the content is read from the first choice's message only, or is null |
| AiService.GenerateForm | packages/platform/src/services/ai/service.ts:64-66 | missing content fails with "OpenAI returned an empty form response"; otherwise the form parser decides |
| AiService.GenerateChapterOutline | packages/platform/src/services/ai/service.ts:91-93 | missing content fails with the empty chapter-outline error; otherwise the outline parser decides |
| AiService.GenerateTasksForChapter | packages/platform/src/services/ai/service.ts:122-124 | missing content fails with the empty task-schedule error; otherwise the schedule parser decides |
| AiService.EmptyCompletionIsReported | packages/platform/src/services/ai/service.ts:64-124 | no choice, no message or null content gives each generator's own empty-response error: the form, chapter-outline or task-schedule message |
| AiService.OnlyFirstChoiceIsRead | packages/platform/src/services/ai/service.ts:64-66 | choices after the first never affect the content |
| Errors.FormatIssue | packages/platform/src/services/ai/utils.ts:59-62 | an empty path is shown as `<root>`, then ": " and the message |
| Errors.FormatIssues | packages/platform/src/services/ai/utils.ts:57-64 | no issues render as "", one issue as itself |
| Errors.FormatIssuesCons | packages/platform/src/services/ai/structured-output.ts:47-54 | issues are joined with "; " |
| Errors.FormatIssueSingleKey | packages/platform/src/services/ai/utils.ts:60-61 | a one-key path renders as `<key>: <message>` |
| Errors.FormatIssueNestedPath | packages/platform/src/services/ai/utils.ts:60-61 | a path of several steps is dot-joined: the first step, a `.`, then the rest of the path as it renders alone |
| Errors.FormatIssueKeyIndex | packages/platform/src/services/ai/utils.ts:60-61 | a key followed by an array index renders as `<key>.<index>: <message>`, e.g. `questions.0: …` |
| AiUtils.ParseJsonContent | packages/platform/src/services/ai/utils.ts:66-77 | null or empty content fails with "OpenAI returned an empty <context> response"; unparsable content fails with "Unable to parse OpenAI <context> JSON: <message>"; otherwise the parsed value |
| AiUtils.ParseWithSchema | packages/platform/src/services/ai/utils.ts:79-92 | a parse failure propagates; a schema mismatch fails with "<context> payload failed validation: " and the formatted issues; otherwise the value |
| AiUtils.ParseFormDefinition | packages/platform/src/services/ai/utils.ts:94-106 | fails exactly when validation fails; otherwise one question per input question, in order, with id, prompt, questionType, options and position each equal to the input's |
| AiUtils.MapChapter | packages/platform/src/services/ai/utils.ts:114-126 | title, summary and position are kept, and every milestone is kept in order with all its fields |
| AiUtils.ParseChapterOutline | packages/platform/src/services/ai/utils.ts:108-128 | fails exactly when validation fails; chapters keep count and order with title, summary and position equal to the input's; milestones keep count and order with title and description copied; a missing successCriteria becomes `[]`; estimatedDurationDays is present only when it was provided |
| AiUtils.MapTaskKeepsValidated | packages/platform/src/services/ai/utils.ts:136-147 | the post-parse mapping leaves a schema-valid task unchanged, since its optional strings are non-empty |
| AiUtils.ParseTaskSchedule | packages/platform/src/services/ai/utils.ts:130-149 | fails exactly when validation fails; tasks keep count and order, with a positive integer day and title, objective, description, body and estimatedMinutes equal to the input's; optionalChallenge and reflectionPrompt are present only when they were given |
| StructuredOutput.FirstOutputText | packages/platform/src/services/ai/structured-output.ts:36 | `content.find` of the first output_text entry, absent when there is none |
| StructuredOutput.FirstTextIndex | packages/platform/src/services/ai/structured-output.ts:34-42 | the index of the first message whose first text entry is non-blank; none before it qualifies |
| StructuredOutput.ItemsText | packages/platform/src/services/ai/structured-output.ts:34-42 | absent exactly when no message has non-blank first text; otherwise non-empty |
| StructuredOutput.TextOutputOf | packages/platform/src/services/ai/structured-output.ts:28-45 | a non-blank `output_text` wins, trimmed; failure is always "OpenAI returned an empty response body" |
| StructuredOutput.ExtractTextOutput | packages/platform/src/services/ai/structured-output.ts:28-45 | the loop with early return computes `TextOutputOf` |
| StructuredOutput.ExtractedTextIsTrimmed | packages/platform/src/services/ai/structured-output.ts:29-39 | extracted text is non-empty and equal to its own trim |
| StructuredOutput.BlankFirstTextHidesLater | packages/platform/src/services/ai/structured-output.ts:36-38 | a blank first output_text hides any later text entry in the same message |
| StructuredOutput.FormatValidationError | packages/platform/src/services/ai/structured-output.ts:56-66 | a ZodError gives the formatted issues, an Error its message, anything else "Unknown validation error" |
| StructuredOutput.ValidateOutput | packages/platform/src/services/ai/structured-output.ts:68-80 | never fails: valid exactly when the validator accepts, otherwise the formatted error |
| StructuredOutput.RequestFor | packages/platform/src/services/ai/structured-output.ts:86-105 | each request carries the options' model, system prompt, schema name and schema, strict and not stored; only the user content varies |
| StructuredOutput.RepairPrompt | packages/platform/src/services/ai/structured-output.ts:123-128 | the user prompt, an empty line, "The last response failed schema validation: <msg>." and "Return only JSON that matches the <schema> schema.", joined by newlines |
| StructuredOutput.CreateResponse | packages/platform/src/services/ai/structured-output.ts:82-111 | sends the request for the given content and returns the extracted text of the reply |
| StructuredOutput.RequestStructuredJson | packages/platform/src/services/ai/structured-output.ts:113-138 | one or two calls; a valid first reply is returned without a retry; an extraction or call error propagates with no retry; otherwise exactly one repair call, whose valid value is returned, and otherwise "Structured output invalid after retry: <msg>" |
| Mappers.NullishToAbsent | packages/platform/src/services/database/mappers.ts:89-92 | null and undefined become absent; anything else is kept |
| Mappers.MapIntakeQuestionDto | packages/platform/src/services/database/mappers.ts:41-49 | id, prompt, options, type and position copied unchanged |
| Mappers.MapQuestionAnswerDto | packages/platform/src/services/database/mappers.ts:51-58 | question id, story id and values copied; answeredAt rendered as ISO text |
| Mappers.MapQuestionResponseDto | packages/platform/src/services/database/mappers.ts:60-65 | every question field (id, prompt, options, questionType, position) and every answer field (questionId, storyId, values, answeredAt as ISO text) is copied |
| Mappers.MapStoryDto | packages/platform/src/services/database/mappers.ts:67-81 | fields copied; responses keep count and order; generatedAt present exactly when the source value is non-null |
| Mappers.MapChapterDto | packages/platform/src/services/database/mappers.ts:83-98 | null or undefined context and metadata become absent; generatedAt present exactly when non-null |
| Mappers.MapTaskDto | packages/platform/src/services/database/mappers.ts:100-117 | generatedAt and completedAt each present exactly when non-null; null metadata absent |
| Mappers.MapPromptExecutionDto | packages/platform/src/services/database/mappers.ts:119-151 | chapterId, taskId, templateId and model only when truthy; output only when `!== null`; metadata only when `!= null` |
| Mappers.MapStoryEventDto | packages/platform/src/services/database/mappers.ts:153-159 | fields copied; a null payload becomes absent |
| Mappers.MapIntakeFormDto | packages/platform/src/services/database/mappers.ts:161-167 | id and name kept; questions mapped in order with id, prompt, questionType, options and position copied |
| DatabaseSchemas.ParseCreateFormRecordInput | packages/activities/src/database/schemas.ts:22-31 | accepts only kind "focus_questions" with a non-empty name and projectId; the parsed value has exactly name, projectId and kind |
| DatabaseSchemas.MilestonesInputAccepted | packages/activities/src/database/schemas.ts:33-45 | milestone input is accepted exactly when the ids are non-empty, there is at least one milestone, and each has a non-empty title and summary and a non-negative integer position |
| DatabaseSchemas.TasksInputAccepted | packages/activities/src/database/schemas.ts:47-60 | task input is accepted exactly when the ids are non-empty, there is at least one task, and each has a non-empty title and description and a positive integer position |
| AiSchemas.StrictSchemasRejectUnknownKeys | packages/activities/src/ai/schemas.ts:20-117 | every `.strict()` object rejects a key it does not list |
| AiSchemas.EmptyAnswerValueRejected | packages/activities/src/ai/schemas.ts:46-51 | any response whose answer lists an empty value fails the response schema |
| AiSchemas.AnyOptionStringsAccepted | packages/activities/src/ai/schemas.ts:38-45 | replacing an accepted response's question options with any string list, empty strings included, keeps it accepted |
| AiSchemas.EmptyOptionAcceptedEmptyValueRejected | packages/activities/src/ai/schemas.ts:36-53 | a project response may carry an empty option string but not an empty answer value |
| AiSchemas.DecodeProjectOutline | packages/activities/src/ai/schemas.ts:71-82 | the outline's milestones, in order, with non-empty title and description |
| AiSchemas.DecodeMilestoneTasks | packages/activities/src/ai/schemas.ts:96-110 | the tasks, in order, with positive integer day, non-empty title/objective/body and positive estimatedMinutes, each equal to the input's |
| Workflow.ActivityLog.GenerateProjectOutline | packages/workflows/src/index.ts:21 | records one outline call and returns the activity's result |
| Workflow.ActivityLog.CreateProjectMilestones | packages/workflows/src/index.ts:23-31 | records one milestone-creation call |
| Workflow.ActivityLog.GetProjectDetails | packages/workflows/src/index.ts:33-36 | records one details call |
| Workflow.ActivityLog.GenerateTasksForMilestone | packages/workflows/src/index.ts:39-42 | records one task-generation call |
| Workflow.ActivityLog.CreateMilestoneTasks | packages/workflows/src/index.ts:44-53 | records one task-creation call |
| Workflow.MilestonesInput | packages/workflows/src/index.ts:23-31 | outline milestone i is stored with position i and its description as summary, in outline order; ids forwarded |
| Workflow.TaskDescription | packages/workflows/src/index.ts:50 | objective and body joined by a blank line, with empty parts dropped |
| Workflow.TasksInput | packages/workflows/src/index.ts:44-53 | a milestone's tasks get positions 1..n in generation order, for that milestone's id |
| Workflow.Roadmap | packages/workflows/src/index.ts:18-55 | the first call is the outline; on success the next two are milestone creation and the details fetch |
| Workflow.FailureStopsLoop | packages/workflows/src/index.ts:38-54 | once a milestone's step fails, no later milestone is touched |
| Workflow.CompletedLoopShape | packages/workflows/src/index.ts:38-54 | a completed loop makes 2n calls: generate then create for milestone k, in order, so k's tasks are stored before k+1 begins |
| Workflow.LoopForwardsIds | packages/workflows/src/index.ts:44-47 | every task-creation call in the loop carries the input's userId and projectId |
| Workflow.RoadmapForwardsIds | packages/workflows/src/index.ts:23-47 | every database call of the workflow carries the input's userId and projectId |
| Workflow.OutlineStoredWhenNonEmpty | packages/workflows/src/index.ts:23-31 | the database schema accepts the milestone input derived from a schema-valid outline exactly when the outline has at least one milestone; the output schema sets no minimum, so an empty generated outline makes `createProjectMilestones` fail |
| Workflow.TasksStoredWhenNonEmpty | packages/workflows/src/index.ts:44-53 | the database schema accepts the task input derived from a schema-valid task list exactly when there is at least one task; the output schema sets no minimum, so an empty generated list makes `createMilestoneTasks` fail |
| Workflow.GenerateAllTasks | packages/workflows/src/index.ts:38-54 | the `for…of` loop appends exactly the calls of `TasksRun` and stops at its first failure |
| Workflow.GenerateProjectRoadmap | packages/workflows/src/index.ts:18-55 | the workflow appends exactly the call sequence of `Roadmap` and fails with its error |
| ProjectDetailsPage.DeriveProjectStep | apps/web/src/app/pages/ProjectDetailsPage.tsx:17-44 | loading exactly without a project; generating exactly for a draft with neither a successful project_context run nor a form; focus_form exactly for a draft whose form has an unanswered item; details otherwise, always for non-drafts |
| ProjectDetailsPage.AnsweredFormShowsDetails | apps/web/src/app/pages/ProjectDetailsPage.tsx:33-43 | a project whose every focus item is answered shows the details |
| ProjectDetailsPage.OptionsOf | apps/web/src/app/pages/ProjectDetailsPage.tsx:51 | each option o becomes `{value: o, label: o}` |
| ProjectDetailsPage.OptionValues | apps/web/src/app/pages/ProjectDetailsPage.tsx:51 | the values of an option list, in order |
| ProjectDetailsPage.MapFocusItemsToQuestions | apps/web/src/app/pages/ProjectDetailsPage.tsx:46-55 | one required question per item, in order, whose option values are the item's options |
| ProjectDetailsPage.InitialResponsesKeys | apps/web/src/app/pages/ProjectDetailsPage.tsx:57-71 | the starting record has exactly one key per item id |
| ProjectDetailsPage.InitialResponsesLastWins | apps/web/src/app/pages/ProjectDetailsPage.tsx:61-69 | an item whose id no later item shares starts from `[answer]`, else `[first option]` for single-select with a truthy first option, else `[]` |
| ProjectDetailsPage.BuildInitialResponses | apps/web/src/app/pages/ProjectDetailsPage.tsx:57-71 | the loop computes `InitialResponsesOf` |
| ProjectDetailsPage.FocusSubmitPayload | apps/web/src/app/pages/ProjectDetailsPage.tsx:138-149 | one entry per item, in order: the JSON of the values for multi-select, otherwise the first value or "" |
| ProjectDetailsPage.UntouchedFormResubmitsAnswers | apps/web/src/app/pages/ProjectDetailsPage.tsx:57-149 | submitting the starting answers unchanged sends back each stored single answer, the first option of an unanswered single-select, and "" for unanswered free text |
| ProjectDetailsPage.ChosenRadioIsSubmitted | apps/web/src/app/pages/ProjectDetailsPage.tsx:233-238 | a radio choice reported by the form is what the submit sends for that item |
| ProjectDetailsPage.CheckedBoxesAreSubmitted | apps/web/src/app/pages/ProjectDetailsPage.tsx:144-145 | a multi-select item sends the JSON of exactly its reported list |
| StartProjectPage.FirstWithId | apps/web/src/app/pages/StartProjectPage.tsx:58-66 | the first question with the id, as `find` returns it |
| StartProjectPage.DefaultSelection | apps/web/src/app/pages/StartProjectPage.tsx:68-82 | the first option value of the first question with that id, or "" when it is missing or has no options |
| StartProjectPage.IntakeFormDefaults | apps/web/src/app/pages/StartProjectPage.tsx:58-82 | on the shared intake form the defaults are light, completely_new and short_daily_sessions |
| StartProjectPage.Submit | apps/web/src/app/pages/StartProjectPage.tsx:147-169 | a blank goal stops with "Please enter your goal."; then a missing selection stops with "Please answer all intake questions."; otherwise the body carries the trimmed goal |
| StartProjectPage.ReadyPageSubmits | apps/web/src/app/pages/StartProjectPage.tsx:35-45 | whenever `isReadyToSubmit` holds, submit sends a request |
| StartProjectPage.SubmittedBodyAccepted | apps/web/src/app/pages/StartProjectPage.tsx:161-169 | a body sent with selections from the value sets passes `POST /projects/start`, which keeps the goal as sent |
| StartProjectPage.DefaultsMakeReady | apps/web/src/app/pages/StartProjectPage.tsx:35-82 | with the shared intake form loaded, a non-blank goal is enough to be ready |
| StartProjectPage.NormalizeOption | apps/web/src/app/pages/StartProjectPage.tsx:102-107 | a string s becomes `{value: s, label: s}`; an object option is kept |
| StartProjectPage.NormalizeFocusQuestions | apps/web/src/app/pages/StartProjectPage.tsx:96-118 | nothing before a reply; otherwise one question per question, in order, with id, prompt, type, position and required copied and each option normalised in order |
| StartProjectPage.InitialFocusResponses | apps/web/src/app/pages/StartProjectPage.tsx:126-137 | the `forEach` computes `InitialFocusResponsesOf` |
| StartProjectPage.InitialFocusResponsesCover | apps/web/src/app/pages/StartProjectPage.tsx:127-136 | a question whose id no later question shares starts at `[first option value]` when single-select with options, else `[]` |
| StartProjectPage.FirstRadioStartsChecked | apps/web/src/app/pages/StartProjectPage.tsx:126-137 | such a single-select question starts with its first radio button checked |
| IntakePage.UpdateAnswer | apps/web/src/app/app.tsx:185-187 | sets the given question's answer and leaves every other key untouched |
| IntakePage.CheckboxChange | apps/web/src/app/app.tsx:229-237 | the question always holds a list afterwards; checking appends the option to the end of the current list, unchecking filters every copy out keeping the order of the rest; other options and other questions are unchanged |
| IntakePage.TickUntickRestores | apps/web/src/app/app.tsx:229-237 | ticking then unticking an unticked box restores the answers |
| IntakePage.ControlsKeepTextOnSingleAnswers | apps/web/src/app/app.tsx:137 | with distinct ids, checkboxes and text areas keep every non-multi-select answer a string, as the payload's cast assumes |
| IntakePage.ResponseFor | apps/web/src/app/app.tsx:125-139 | multi-select: the non-empty ticked options, a non-list giving none; otherwise exactly one value, the text or "" |
| IntakePage.ResponsePayload | apps/web/src/app/app.tsx:124-140 | one entry per question, in order, with the question's id |
| IntakePage.PayloadJson | apps/web/src/app/app.tsx:158-161 | the JSON array of the entries, in order |
| IntakePage.SubmitBody | apps/web/src/app/app.tsx:148-161 | a blank title stops with "Goal title is required."; otherwise the trimmed title and the payload are sent |
| IntakePage.PayloadSurvivesNormalization | apps/api/src/index.ts:28-53 | any payload the page sends is read back unchanged by `normalizeResponses` |
| IntakePage.SubmittedIntakeAccepted | apps/web/src/app/app.tsx:148-161 | `POST /projects` accepts a submitted intake as it stands, storing the trimmed title and the page's payload |
| FocusQuestionsForm.FreeTextRoundTrip | apps/web/src/app/components/FocusQuestionsForm.tsx:36-51 | an edit reports `[text]`, and the text area then shows that text |
| FocusQuestionsForm.RadioSelectChecksOnlyChoice | apps/web/src/app/components/FocusQuestionsForm.tsx:64-70 | after choosing v, a radio button is checked exactly when its value is v |
| FocusQuestionsForm.RadioGroupExclusive | apps/web/src/app/components/FocusQuestionsForm.tsx:64-67 | at most one value of a radio group is checked |
| FocusQuestionsForm.CheckboxToggle | apps/web/src/app/components/FocusQuestionsForm.tsx:81-96 | the clicked value flips between selected and not; others keep their state; an unselected value is appended to the end of the current list exactly, a missing response counting as `[]`; a selected value is filtered out with the rest kept in order |
| Text.RemoveAllAppend | apps/web/src/app/components/FocusQuestionsForm.tsx:92-94 | `filter(x => x !== v)` works part by part, so the kept elements keep their relative order |
| FocusQuestionsForm.ToggleTwiceRestores | apps/web/src/app/components/FocusQuestionsForm.tsx:91-95 | toggling an absent option on and then off restores the original list |
| FocusQuestionsForm.FirstTickOnEmptyQuestion | apps/web/src/app/components/FocusQuestionsForm.tsx:95 | the first tick on an unanswered question gives a one-entry list |
| FocusQuestionsForm.ReportChange | apps/web/src/app/pages/StartProjectPage.tsx:238-240 | `onChange` sets that question's list and leaves every other key untouched |
| FocusQuestionsForm.ReportedRadioIsChecked | apps/web/src/app/components/FocusQuestionsForm.tsx:64-70 | after a radio choice is reported, the chosen button reads back as checked |

## Left out

- Express routing, CORS and listening, Prisma and the database service, the OpenAI client, Temporal's worker and client, and React rendering, hooks, fetch and navigation. They are I/O or framework plumbing. Only the validation, mapping and state logic between the calls is modelled.
- Temporal's activity options (`packages/workflows/src/index.ts:8-16`) are not modelled: the retry policy, which is Temporal's default with no attempt limit since none is set, and the 10-second and 2-minute `startToCloseTimeout`s. An `error` outcome of an `Activities` function is a failure that reaches the workflow, not one failed attempt. Under the default policy a deterministic failure is retried indefinitely instead of ending the run. One example is the rejected empty milestone or task list of Workflow.OutlineStoredWhenNonEmpty and Workflow.TasksStoredWhenNonEmpty. Workflow.Roadmap's stop on an error therefore describes only failures that do reach the workflow.
- The prompt texts and static JSON-schema constants (`packages/platform/src/services/ai/schemas.ts`, `constants.ts`) and `generation-requests.ts`. They are data handed to the model, with no behaviour. One disagreement is noted rather than modelled: the JSON schema gives estimatedMinutes `minimum: 1`, while the zod check in `utils.ts` only demands a positive number.
- `JSON.parse`, `JSON.stringify` and `Date.now` are parameters; zod's issue lists and wording come from an `IssueReporter` parameter. The custom messages of the database schemas are therefore not modelled: acceptance is exact, the message text is not.
- `Date.toISOString` is not modelled: a date is represented by its ISO text.
- Floating-point numbers (estimatedMinutes, estimatedDurationDays, positions) are `real`s. Only their sign and integrality are checked, as the schemas do.
- Text.ToLower: only ASCII letters are lowered; JavaScript's full Unicode case mapping is not modelled.
- Contexts.ProjectContextToJson: the runtime test `'focusItems' in ctx && Array.isArray(...)` is modelled by a tagged union of the two context shapes.
- Mappers.MapStoryDto, Mappers.MapChapterDto, Mappers.MapTaskDto and Mappers.MapPromptExecutionDto are methods returning a value. The `dto` object they mutate is a local that the model builds as a value (MapPromptExecutionDto collects its optional fields in locals, one `if` each, then builds the DTO once), so aliasing is not modelled.
- IntakePage.ResponsePayload requires that no non-multi-select answer is a list, which the `as string` cast assumes. IntakePage.ControlsKeepTextOnSingleAnswers proves that the page's own controls maintain this.
- IntakePage.ResponseFor states which ticked options are kept, not their order; the order is that of `Text.RemoveAll`, which keeps the list's order.
- The `GET /projects`, `GET /project-intake/questions` and `GET /projects/:projectId/focus-form` routes only forward database results; they are not modelled.
- The details page's error and loading flags, and the start page's status messages after the request, are display state around fetch and are not modelled.
