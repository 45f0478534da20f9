/** The few string operations the pipeline template code relies on:
    `sep.join(parts)`, its inverse `split`, `str.replace` of one character and `in` on strings. */
module Text {

  /** `sep.join(parts)`. */
  function Join(sep: string, parts: seq<string>): string
    decreases |parts|
  {
    if |parts| == 0 then ""
    else if |parts| == 1 then parts[0]
    else parts[0] + sep + Join(sep, parts[1..])
  }

  /** Position of the first occurrence of `c` in `s`. */
  function IndexOf(c: char, s: string): (i: nat)
    requires c in s
    ensures i < |s| && s[i] == c && c !in s[..i]
    decreases |s|
  {
    if s[0] == c then 0
    else
      var i := IndexOf(c, s[1..]);
      assert s[..i + 1] == [s[0]] + s[1..][..i];
      i + 1
  }

  /** `s.split(sep)` for a one-character separator. */
  function Split(sep: char, s: string): (parts: seq<string>)
    ensures |parts| > 0
    ensures forall p :: p in parts ==> sep !in p
    decreases |s|
  {
    if sep in s then
      var i := IndexOf(sep, s);
      [s[..i]] + Split(sep, s[i + 1..])
    else
      [s]
  }

  lemma {:induction false} IndexOfAfterPrefix(sep: char, x: string, rest: string)
    requires sep !in x
    ensures sep in x + [sep] + rest && IndexOf(sep, x + [sep] + rest) == |x|
    decreases |x|
  {
    var s := x + [sep] + rest;
    assert s[|x|] == sep;
    if |x| > 0 {
      assert s[1..] == x[1..] + [sep] + rest;
      IndexOfAfterPrefix(sep, x[1..], rest);
    }
  }

  /** Splitting a join recovers the parts, provided no part contains the separator. */
  lemma {:induction false} SplitJoin(sep: char, parts: seq<string>)
    requires |parts| > 0
    requires forall p :: p in parts ==> sep !in p
    ensures Split(sep, Join([sep], parts)) == parts
    decreases |parts|
  {
    if |parts| > 1 {
      var rest := Join([sep], parts[1..]);
      var s := parts[0] + [sep] + rest;
      assert Join([sep], parts) == s;
      IndexOfAfterPrefix(sep, parts[0], rest);
      assert s[..|parts[0]|] == parts[0];
      assert s[|parts[0]| + 1..] == rest;
      SplitJoin(sep, parts[1..]);
      assert parts == [parts[0]] + parts[1..];
    }
  }

  /** `s.replace(target, replacement)` for single characters. */
  function Replace(s: string, target: char, replacement: char): string {
    seq(|s|, i requires 0 <= i < |s| => if s[i] == target then replacement else s[i])
  }

  /** After the replacement no occurrence of the target is left, and nothing else moved. */
  lemma ReplaceRemovesTarget(s: string, target: char, replacement: char)
    requires target != replacement
    ensures target !in Replace(s, target, replacement)
    ensures |Replace(s, target, replacement)| == |s|
  {
  }

  /** Python's `sub in s` for strings. */
  predicate Contains(s: string, sub: string)
    decreases |s|
  {
    sub <= s || (|s| > 0 && Contains(s[1..], sub))
  }
}
