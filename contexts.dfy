/**
 * The prompt contexts: how a project (either the outline context with its focus
 * items or a stored `ProjectDto`) and a milestone are projected into the JSON
 * documents handed to the model.
 */
module Contexts {
  import opened Results
  import Text
  import Shared

  /** A focus item as the outline context carries it; `answer` is `None` when unanswered. */
  datatype OutlineFocusItem = OutlineFocusItem(question: string, options: seq<string>, answer: Option<string>)

  datatype ProjectOutlineContext = ProjectOutlineContext(
    title: string,
    commitment: string,
    familiarity: string,
    workStyle: string,
    focusItems: seq<OutlineFocusItem>)

  /** The constructor argument of `ProjectContext`: one of the two shapes of the union. */
  datatype ContextSource = OutlineSource(outline: ProjectOutlineContext) | DtoSource(project: Shared.ProjectDto)

  datatype FocusItemJson = FocusItemJson(question: string, answers: seq<string>)

  datatype ProjectJson = ProjectJson(
    title: string,
    commitment: string,
    familiarity: string,
    workStyle: string,
    focusItems: seq<FocusItemJson>)

  /** `{ project: { ... } }`. */
  datatype ProjectContextJson = ProjectContextJson(project: ProjectJson)

  datatype MilestoneContextJson = MilestoneContextJson(title: string, summary: string)

  datatype MilestoneTaskContextJson =
    MilestoneTaskContextJson(projectContext: ProjectContextJson, milestone: MilestoneContextJson)

  /** `isProjectOutlineContext`: the union member that carries a `focusItems` array. */
  predicate IsProjectOutlineContext(source: ContextSource) {
    source.OutlineSource?
  }

  /** `Options: a, b, c`. */
  function OptionsText(options: seq<string>): string {
    "Options: " + Text.Join(options, ", ")
  }

  /**
   * The outline-branch question: the question and, when there are options, the options
   * text; empty parts are dropped and the rest joined with a space.
   */
  function OutlineQuestionText(question: string, options: seq<string>): (r: string)
    ensures options == [] ==> r == question
    ensures options != [] && question != "" ==> r == question + " " + OptionsText(options)
    ensures options != [] && question == "" ==> r == OptionsText(options)
  {
    Text.JoinPresent(question, if |options| > 0 then OptionsText(options) else "", " ")
  }

  /**
   * The stored-response question: as in the outline branch, except that a
   * `free_text` question never shows its options.
   */
  function ResponseQuestionText(prompt: string, questionType: string, options: seq<string>): (r: string)
    ensures questionType == "free_text" || options == [] ==> r == prompt
    ensures questionType != "free_text" && options != [] ==> r == OutlineQuestionText(prompt, options)
  {
    Text.JoinPresent(prompt, if questionType != "free_text" && |options| > 0 then OptionsText(options) else "", " ")
  }

  /** The answered items, in their original order (`.filter(item => item.answer !== null)`). */
  function Answered(items: seq<OutlineFocusItem>): (r: seq<OutlineFocusItem>)
    ensures forall k :: 0 <= k < |r| ==> r[k].answer.Some? && r[k] in items
    ensures forall k :: 0 <= k < |items| && items[k].answer.Some? ==> items[k] in r
    ensures |r| <= |items|
  {
    if items == [] then []
    else if items[0].answer.None? then Answered(items[1..])
    else [items[0]] + Answered(items[1..])
  }

  /** Filtering a concatenation filters each part and keeps them in order. */
  lemma {:induction false} AnsweredAppend(a: seq<OutlineFocusItem>, b: seq<OutlineFocusItem>)
    ensures Answered(a + b) == Answered(a) + Answered(b)
  {
    if a == [] {
      assert a + b == b;
    } else {
      assert (a + b)[0] == a[0];
      assert (a + b)[1..] == a[1..] + b;
      AnsweredAppend(a[1..], b);
    }
  }

  /** With every item answered nothing is dropped. */
  lemma {:induction false} AllAnsweredKept(items: seq<OutlineFocusItem>)
    requires forall k :: 0 <= k < |items| ==> items[k].answer.Some?
    ensures Answered(items) == items
  {
    if items != [] {
      var rest := items[1..];
      assert forall k :: 0 <= k < |rest| ==> rest[k] == items[k + 1];
      AllAnsweredKept(rest);
      assert [items[0]] + rest == items;
    }
  }

  /** With no item answered everything is dropped. */
  lemma {:induction false} NoneAnsweredDropped(items: seq<OutlineFocusItem>)
    requires forall k :: 0 <= k < |items| ==> items[k].answer.None?
    ensures Answered(items) == []
  {
    if items != [] {
      var rest := items[1..];
      assert forall k :: 0 <= k < |rest| ==> rest[k] == items[k + 1];
      NoneAnsweredDropped(rest);
    }
  }

  function OutlineFocusItemJson(item: OutlineFocusItem): FocusItemJson
    requires item.answer.Some?
  {
    FocusItemJson(OutlineQuestionText(item.question, item.options), [item.answer.value])
  }

  function ResponseFocusItemJson(entry: Shared.ProjectResponseDto): FocusItemJson {
    FocusItemJson(
      ResponseQuestionText(entry.question.prompt, entry.question.questionType, entry.question.options),
      entry.answer.values)
  }

  /**
   * `ProjectContext.toJSON`. Outline branch: one item per answered focus item, in order,
   * whose answers are just that answer. Stored-project branch: one item per response,
   * in order, whose answers are the response's values. Both copy title, commitment,
   * familiarity and work style.
   */
  function ProjectContextToJson(source: ContextSource): (r: ProjectContextJson)
    ensures IsProjectOutlineContext(source) ==>
      var o := source.outline;
      var kept := Answered(o.focusItems);
      && (r.project.title, r.project.commitment, r.project.familiarity, r.project.workStyle)
         == (o.title, o.commitment, o.familiarity, o.workStyle)
      && |r.project.focusItems| == |kept|
      && forall k :: 0 <= k < |kept| ==>
           r.project.focusItems[k].answers == [kept[k].answer.value] &&
           r.project.focusItems[k].question == OutlineQuestionText(kept[k].question, kept[k].options)
    ensures !IsProjectOutlineContext(source) ==>
      var p := source.project;
      && (r.project.title, r.project.commitment, r.project.familiarity, r.project.workStyle)
         == (p.title, p.commitment, p.familiarity, p.workStyle)
      && |r.project.focusItems| == |p.responses|
      && forall k :: 0 <= k < |p.responses| ==>
           r.project.focusItems[k].answers == p.responses[k].answer.values &&
           r.project.focusItems[k].question == ResponseQuestionText(
             p.responses[k].question.prompt, p.responses[k].question.questionType, p.responses[k].question.options)
  {
    match source
    case OutlineSource(o) =>
      var kept := Answered(o.focusItems);
      ProjectContextJson(ProjectJson(o.title, o.commitment, o.familiarity, o.workStyle,
        seq(|kept|, k requires 0 <= k < |kept| => OutlineFocusItemJson(kept[k]))))
    case DtoSource(p) =>
      ProjectContextJson(ProjectJson(p.title, p.commitment, p.familiarity, p.workStyle,
        seq(|p.responses|, k requires 0 <= k < |p.responses| => ResponseFocusItemJson(p.responses[k]))))
  }

  /** An unanswered focus item, wherever it sits, leaves the kept items unchanged. */
  lemma {:induction false} UnansweredItemDropped(
    before: seq<OutlineFocusItem>, item: OutlineFocusItem, after: seq<OutlineFocusItem>)
    requires item.answer.None?
    ensures Answered(before + [item] + after) == Answered(before + after)
  {
    assert Answered([item]) == [] by {
      assert [item][1..] == [];
      assert Answered([item]) == Answered([]);
    }
    AnsweredAppend(before, [item]);
    assert Answered(before + [item]) == Answered(before);
    AnsweredAppend(before + [item], after);
    AnsweredAppend(before, after);
  }

  /** `MilestoneContext.toJSON`: exactly the title and summary. */
  function MilestoneContextToJson(milestone: Shared.MilestoneDto): (r: MilestoneContextJson)
    ensures r.title == milestone.title && r.summary == milestone.summary
  {
    MilestoneContextJson(milestone.title, milestone.summary)
  }

  /** `MilestoneTaskContext.toJSON`: the project JSON paired with the milestone JSON. */
  function MilestoneTaskContextToJson(project: ContextSource, milestone: Shared.MilestoneDto): (r: MilestoneTaskContextJson)
    ensures r.projectContext == ProjectContextToJson(project)
    ensures r.milestone == MilestoneContextJson(milestone.title, milestone.summary)
  {
    MilestoneTaskContextJson(ProjectContextToJson(project), MilestoneContextToJson(milestone))
  }
}
