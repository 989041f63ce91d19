/**
 * Thrown values and zod validation issues, and the one-line rendering of an issue
 * list that both the chat-completions parsers and the structured-output helper use.
 */
module Errors {
  import opened Results
  import opened Values
  import Text

  /** One step of a zod issue path: an object key or an array index. */
  datatype PathKey = Key(name: string) | Index(i: nat)

  /** A zod issue; its `message` wording belongs to zod. */
  datatype Issue = Issue(path: seq<PathKey>, message: string)

  /**
   * What a `catch` clause can receive: an `Error` with its message (a `ZodError`
   * when it carries zod issues), or a thrown value that is not an `Error`.
   */
  datatype Thrown = ErrorObject(message: string, zodIssues: Option<seq<Issue>>) | NonError(value: Value)

  /** `new Error(message)`. */
  function Error(message: string): Thrown {
    ErrorObject(message, None)
  }

  function PathKeyText(k: PathKey): string {
    match k
    case Key(name) => name
    case Index(i) => Text.DecimalString(i)
  }

  function PathTexts(path: seq<PathKey>): (r: seq<string>)
    ensures |r| == |path|
    ensures forall j :: 0 <= j < |path| ==> r[j] == PathKeyText(path[j])
  {
    seq(|path|, j requires 0 <= j < |path| => PathKeyText(path[j]))
  }

  /** `issue.path.join('.') || '<root>'`, then `: ` and the message. */
  function FormatIssue(issue: Issue): (r: string)
    ensures issue.path == [] ==> r == "<root>: " + issue.message
  {
    var joined := Text.Join(PathTexts(issue.path), ".");
    (if joined == "" then "<root>" else joined) + ": " + issue.message
  }

  /** The issues formatted one by one and joined with `; `. */
  function FormatIssues(issues: seq<Issue>): (r: string)
    ensures issues == [] ==> r == ""
    ensures |issues| == 1 ==> r == FormatIssue(issues[0])
  {
    Text.Join(seq(|issues|, j requires 0 <= j < |issues| => FormatIssue(issues[j])), "; ")
  }

  /** Each issue after the first adds exactly one `; ` separator. */
  lemma FormatIssuesCons(first: Issue, rest: seq<Issue>)
    requires rest != []
    ensures FormatIssues([first] + rest) == FormatIssue(first) + "; " + FormatIssues(rest)
  {
    var all := seq(|[first] + rest|, j requires 0 <= j < |[first] + rest| => FormatIssue(([first] + rest)[j]));
    var tail := seq(|rest|, j requires 0 <= j < |rest| => FormatIssue(rest[j]));
    assert all[1..] == tail;
  }

  /** A one-key path prints the key itself. */
  lemma FormatIssueSingleKey(name: string, message: string)
    requires name != ""
    ensures FormatIssue(Issue([Key(name)], message)) == name + ": " + message
  {
    assert PathTexts([Key(name)]) == [name];
  }

  /**
   * A longer path is printed dot-separated: the first step's text, a `.`, then
   * the rest of the path as it would print on its own.
   */
  lemma {:induction false} FormatIssueNestedPath(first: PathKey, rest: seq<PathKey>, message: string)
    requires rest != [] && rest[0] != Key("")
    ensures FormatIssue(Issue([first] + rest, message)) == PathKeyText(first) + "." + FormatIssue(Issue(rest, message))
  {
    var texts := PathTexts(rest);
    var all := PathTexts([first] + rest);
    assert all[0] == PathKeyText(first) && all[1..] == texts;
    var tail := Text.Join(texts, ".");
    Text.JoinNonEmpty(texts, ".");
    var whole := Text.Join(all, ".");
    assert whole == PathKeyText(first) + "." + tail;
    assert FormatIssue(Issue(rest, message)) == tail + ": " + message;
    assert FormatIssue(Issue([first] + rest, message)) == whole + ": " + message;
  }

  /** A key followed by an array index prints as `key.index: message`. */
  lemma {:induction false} FormatIssueKeyIndex(name: string, i: nat, message: string)
    ensures FormatIssue(Issue([Key(name), Index(i)], message)) == name + "." + Text.DecimalString(i) + ": " + message
  {
    assert [Key(name), Index(i)] == [Key(name)] + [Index(i)];
    FormatIssueNestedPath(Key(name), [Index(i)], message);
    assert PathTexts([Index(i)]) == [Text.DecimalString(i)];
    assert Text.DecimalString(i) != "";
  }
}
