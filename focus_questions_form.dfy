/**
 * The focus-questions form component: what each control shows for the current
 * answer of its question, and the new answer list each control reports.
 * Answers are kept as a map from question id to a list of strings.
 */
module FocusQuestionsForm {
  import opened Results
  import Text

  /** `{ value, label }`; `label` is a Dafny keyword, hence `labelText`. */
  datatype FocusQuestionOption = FocusQuestionOption(value: string, labelText: string)

  datatype FocusQuestion = FocusQuestion(
    id: string,
    prompt: string,
    questionType: string,
    options: seq<FocusQuestionOption>,
    position: int,
    required: bool)

  /** The `responses` record handed to the form. */
  type Responses = map<string, seq<string>>

  /** `responses[question.id]`, which is `undefined` for a question nobody answered yet. */
  function CurrentResponse(responses: Responses, id: string): Option<seq<string>> {
    if id in responses then Some(responses[id]) else None
  }

  /** What the free-text area shows: the first entry, or the empty string. */
  function TextValue(current: Option<seq<string>>): string {
    if current.Some? && |current.value| > 0 then current.value[0] else ""
  }

  /** Typing into the free-text area reports the whole text as a one-entry list. */
  function FreeTextEdit(text: string): seq<string> {
    [text]
  }

  /** Whatever was typed is shown back by the text area. */
  lemma FreeTextRoundTrip(text: string)
    ensures TextValue(Some(FreeTextEdit(text))) == text
  {
  }

  /** A radio button is checked when the first entry equals its value. */
  predicate RadioChecked(current: Option<seq<string>>, optionValue: string) {
    current.Some? && |current.value| > 0 && current.value[0] == optionValue
  }

  /** Choosing a radio button reports its value as a one-entry list. */
  function RadioSelect(optionValue: string): seq<string> {
    [optionValue]
  }

  /** After choosing `v`, exactly the radio buttons whose value is `v` are checked. */
  lemma RadioSelectChecksOnlyChoice(v: string, o: string)
    ensures RadioChecked(Some(RadioSelect(v)), o) <==> o == v
  {
  }

  /** At most one value is checked in a radio group, whatever the answer list. */
  lemma RadioGroupExclusive(current: Option<seq<string>>, o1: string, o2: string)
    ensures RadioChecked(current, o1) && RadioChecked(current, o2) ==> o1 == o2
  {
  }

  /** A checkbox is ticked when its value is anywhere in the answer list. */
  predicate IsSelected(current: Option<seq<string>>, optionValue: string) {
    current.Some? && optionValue in current.value
  }

  /**
   * Clicking a checkbox: a ticked value is filtered out, an unticked one is
   * appended to the current list (or to an empty one).
   */
  function CheckboxToggle(current: Option<seq<string>>, optionValue: string): (r: seq<string>)
    ensures optionValue in r <==> !IsSelected(current, optionValue)
    ensures forall x :: x != optionValue ==> (x in r <==> IsSelected(current, x))
    ensures !IsSelected(current, optionValue) ==> r[|r| - 1] == optionValue
    ensures !IsSelected(current, optionValue) ==> r == (if current.Some? then current.value else []) + [optionValue]
    ensures IsSelected(current, optionValue) ==> r == Text.RemoveAll(current.value, optionValue)
  {
    if IsSelected(current, optionValue) then Text.RemoveAll(current.value, optionValue)
    else (if current.Some? then current.value else []) + [optionValue]
  }

  /** Ticking then unticking a box leaves the list it started from. */
  lemma {:induction false} ToggleTwiceRestores(xs: seq<string>, optionValue: string)
    requires optionValue !in xs
    ensures CheckboxToggle(Some(CheckboxToggle(Some(xs), optionValue)), optionValue) == xs
  {
    assert CheckboxToggle(Some(xs), optionValue) == xs + [optionValue];
    Text.RemoveAllAppended(xs, optionValue);
  }

  /** The first tick on an unanswered question gives a one-entry list. */
  lemma FirstTickOnEmptyQuestion(optionValue: string)
    ensures CheckboxToggle(None, optionValue) == [optionValue]
  {
  }

  /** The page's `onChange` handler: `{ ...prev, [questionId]: values }`. */
  function ReportChange(responses: Responses, questionId: string, values: seq<string>): (r: Responses)
    ensures questionId in r && r[questionId] == values
    ensures r.Keys == responses.Keys + {questionId}
    ensures forall id :: id != questionId && id in responses ==> r[id] == responses[id]
  {
    responses[questionId := values]
  }

  /** Choosing a radio value and reading the question back gives that value checked. */
  lemma ReportedRadioIsChecked(responses: Responses, questionId: string, v: string)
    ensures RadioChecked(CurrentResponse(ReportChange(responses, questionId, RadioSelect(v)), questionId), v)
  {
  }
}
