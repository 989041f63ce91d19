/**
 * The string and list primitives the source leans on: `String.prototype.trim`,
 * `Array.prototype.join`, `.filter(Boolean)`, `.includes` on strings,
 * `toLowerCase` and `Array.prototype.filter(x => x !== v)`.
 */
module Text {

  /** ECMAScript WhiteSpace and LineTerminator code points: exactly what `trim` removes. */
  predicate IsSpace(c: char) {
    || c == '\t' || c == '\n' || c == '\U{000B}' || c == '\U{000C}' || c == '\r' || c == ' '
    || c == '\U{00A0}' || c == '\U{1680}' || ('\U{2000}' <= c <= '\U{200A}')
    || c == '\U{2028}' || c == '\U{2029}' || c == '\U{202F}' || c == '\U{205F}'
    || c == '\U{3000}' || c == '\U{FEFF}'
  }

  /** A string whose `trim()` is empty. */
  predicate IsBlank(s: string) {
    forall k :: 0 <= k < |s| ==> IsSpace(s[k])
  }

  /** The index of the first character at or after `i` that is not space, or `|s|`. */
  function SkipSpaces(s: string, i: nat): (n: nat)
    requires i <= |s|
    ensures i <= n <= |s|
    ensures forall k :: i <= k < n ==> IsSpace(s[k])
    ensures n < |s| ==> !IsSpace(s[n])
    decreases |s| - i
  {
    if i < |s| && IsSpace(s[i]) then SkipSpaces(s, i + 1) else i
  }

  /** Walking back from `j` no further than `lo`: where the space before `j` begins. */
  function SkipSpacesBack(s: string, lo: nat, j: nat): (n: nat)
    requires lo <= j <= |s|
    ensures lo <= n <= j
    ensures forall k :: n <= k < j ==> IsSpace(s[k])
    ensures n > lo ==> !IsSpace(s[n - 1])
    decreases j
  {
    if j > lo && IsSpace(s[j - 1]) then SkipSpacesBack(s, lo, j - 1) else j
  }

  /** Where the trimmed text starts inside the original string. */
  function TrimOffset(s: string): (n: nat)
    ensures n <= |s|
  {
    SkipSpaces(s, 0)
  }

  /**
   * `s.trim()`: a contiguous piece of `s` that neither starts nor ends with space,
   * empty exactly when `s` is blank, and with only space cut off either side.
   */
  function Trim(s: string): (r: string)
    ensures TrimOffset(s) + |r| <= |s| && r == s[TrimOffset(s)..TrimOffset(s) + |r|]
    ensures forall k :: 0 <= k < TrimOffset(s) ==> IsSpace(s[k])
    ensures forall k :: TrimOffset(s) + |r| <= k < |s| ==> IsSpace(s[k])
    ensures r == [] || (!IsSpace(r[0]) && !IsSpace(r[|r| - 1]))
    ensures r == [] <==> IsBlank(s)
  {
    var lo := SkipSpaces(s, 0);
    var hi := SkipSpacesBack(s, lo, |s|);
    s[lo..hi]
  }

  /** Trimming twice is trimming once. */
  lemma {:induction false} TrimIdempotent(s: string)
    ensures Trim(Trim(s)) == Trim(s)
  {
    var r := Trim(s);
    TrimNoSpaceEnds(r);
  }

  /** A string that neither starts nor ends with space is its own trim. */
  lemma {:induction false} TrimNoSpaceEnds(r: string)
    requires r == [] || (!IsSpace(r[0]) && !IsSpace(r[|r| - 1]))
    ensures Trim(r) == r
  {
    assert SkipSpaces(r, 0) == 0;
    assert SkipSpacesBack(r, 0, |r|) == |r|;
    assert r[0..|r|] == r;
  }

  /** `parts.join(sep)`. */
  function Join(parts: seq<string>, sep: string): string
  {
    if |parts| == 0 then ""
    else if |parts| == 1 then parts[0]
    else parts[0] + sep + Join(parts[1..], sep)
  }

  /** Joining two parts puts the separator between them exactly once. */
  lemma JoinTwo(a: string, b: string, sep: string)
    ensures Join([a, b], sep) == a + sep + b
  {
    assert [a, b][1..] == [b];
  }

  /** A join of a non-empty list whose first part is non-empty is non-empty. */
  lemma {:induction false} JoinNonEmpty(texts: seq<string>, sep: string)
    requires texts != [] && texts[0] != ""
    ensures Join(texts, sep) != ""
  {
    if |texts| > 1 {
      var j := Join(texts, sep);
      assert j == texts[0] + sep + Join(texts[1..], sep);
      assert j[0] == texts[0][0];
    }
  }

  /** Joining four parts, as the repair prompt does. */
  lemma JoinFour(a: string, b: string, c: string, d: string, sep: string)
    ensures Join([a, b, c, d], sep) == a + sep + b + sep + c + sep + d
  {
    JoinTwo(c, d, sep);
    assert [b, c, d][1..] == [c, d];
    assert Join([b, c, d], sep) == b + sep + (c + sep + d);
    assert [a, b, c, d][1..] == [b, c, d];
    assert Join([a, b, c, d], sep) == a + sep + (b + sep + (c + sep + d));
  }

  /** `.filter(Boolean)` on strings: keeps the non-empty ones, in order. */
  function NonEmptyParts(parts: seq<string>): (r: seq<string>)
    ensures forall p :: p in r ==> p != "" && p in parts
    ensures forall p :: p in parts && p != "" ==> p in r
    ensures |r| <= |parts|
  {
    if parts == [] then []
    else if parts[0] == "" then NonEmptyParts(parts[1..])
    else [parts[0]] + NonEmptyParts(parts[1..])
  }

  /** `[a, b].filter(Boolean).join(sep)`, the idiom the source uses to glue two optional parts. */
  function JoinPresent(a: string, b: string, sep: string): (r: string)
    ensures a != "" && b != "" ==> r == a + sep + b
    ensures a == "" ==> r == b
    ensures b == "" ==> r == a
  {
    assert [a, b][1..] == [b];
    assert [b][1..] == [];
    if a != "" && b != "" then
      assert NonEmptyParts([a, b]) == [a, b];
      JoinTwo(a, b, sep);
      Join(NonEmptyParts([a, b]), sep)
    else if a != "" then
      assert NonEmptyParts([a, b]) == [a];
      Join(NonEmptyParts([a, b]), sep)
    else if b != "" then
      assert NonEmptyParts([a, b]) == [b];
      Join(NonEmptyParts([a, b]), sep)
    else
      assert NonEmptyParts([a, b]) == [];
      Join(NonEmptyParts([a, b]), sep)
  }

  /** `haystack.includes(needle)`, by scanning every start position. */
  function Contains(haystack: string, needle: string): bool
    decreases |haystack|
  {
    if |needle| > |haystack| then false
    else haystack[..|needle|] == needle || Contains(haystack[1..], needle)
  }

  /** The needle sits in the haystack starting at position `i`. */
  predicate OccursAt(haystack: string, needle: string, i: int) {
    0 <= i <= |haystack| - |needle| && haystack[i..i + |needle|] == needle
  }

  /** `Contains` holds exactly when the needle occurs at some position. */
  lemma {:induction false} ContainsAt(haystack: string, needle: string)
    ensures Contains(haystack, needle) <==> exists i :: OccursAt(haystack, needle, i)
    decreases |haystack|
  {
    if |needle| > |haystack| {
    } else if haystack[..|needle|] == needle {
      assert OccursAt(haystack, needle, 0);
    } else {
      assert |haystack| > 0;
      ContainsAt(haystack[1..], needle);
      if Contains(haystack[1..], needle) {
        var i :| OccursAt(haystack[1..], needle, i);
        assert haystack[i + 1..i + 1 + |needle|] == haystack[1..][i..i + |needle|];
        assert OccursAt(haystack, needle, i + 1);
      }
      if exists i :: OccursAt(haystack, needle, i) {
        var i :| OccursAt(haystack, needle, i);
        assert i != 0;
        assert haystack[1..][i - 1..i - 1 + |needle|] == haystack[i..i + |needle|];
        assert OccursAt(haystack[1..], needle, i - 1);
      }
    }
  }

  /** Lower-cases the ASCII letters A-Z and leaves every other character alone. */
  function LowerChar(c: char): char {
    if 'A' <= c <= 'Z' then (c as int + 32) as char else c
  }

  /** `toLowerCase()`, restricted to ASCII letters (see README). */
  function ToLower(s: string): (r: string)
    ensures |r| == |s|
  {
    seq(|s|, k requires 0 <= k < |s| => LowerChar(s[k]))
  }

  /** `xs.filter(x => x !== v)`: every occurrence of `v` goes, the rest keep their order. */
  function RemoveAll(xs: seq<string>, v: string): (r: seq<string>)
    ensures v !in r
    ensures forall x :: x != v ==> (x in r <==> x in xs)
    ensures |r| <= |xs|
    ensures v !in xs ==> r == xs
  {
    if xs == [] then []
    else if xs[0] == v then RemoveAll(xs[1..], v)
    else [xs[0]] + RemoveAll(xs[1..], v)
  }

  /** Filtering works part by part: the kept elements keep their order across a concatenation. */
  lemma {:induction false} RemoveAllAppend(xs: seq<string>, ys: seq<string>, v: string)
    ensures RemoveAll(xs + ys, v) == RemoveAll(xs, v) + RemoveAll(ys, v)
  {
    if xs == [] {
      assert xs + ys == ys;
    } else {
      assert (xs + ys)[0] == xs[0];
      assert (xs + ys)[1..] == xs[1..] + ys;
      RemoveAllAppend(xs[1..], ys, v);
    }
  }

  /** Appending `v` and then removing every `v` is the same as removing every `v`. */
  lemma {:induction false} RemoveAllAppended(xs: seq<string>, v: string)
    ensures RemoveAll(xs + [v], v) == RemoveAll(xs, v)
  {
    if xs == [] {
      assert [v][1..] == [];
    } else {
      assert (xs + [v])[1..] == xs[1..] + [v];
      RemoveAllAppended(xs[1..], v);
    }
  }

  /** Decimal rendering of a natural number, as template literals print array indices. */
  function DecimalString(n: nat): (r: string)
    ensures |r| >= 1
    ensures forall k :: 0 <= k < |r| ==> '0' <= r[k] <= '9'
  {
    if n < 10 then [Digit(n)] else DecimalString(n / 10) + [Digit(n % 10)]
  }

  function Digit(d: nat): (c: char)
    requires d < 10
    ensures '0' <= c <= '9'
  {
    ('0' as int + d) as char
  }
}
