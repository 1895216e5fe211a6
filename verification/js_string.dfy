/** The JavaScript string operations the scripts call: `replace` with a
    string pattern (first occurrence only), `split` on a one-character
    separator, and `repeat`. `indexOf` is the search inside `replace`, and
    `join` is the inverse that states what `split` does. Strings are
    sequences of characters. */
module JsString {
  import opened Common
  import opened JsNumber

  /** `n` copies of `c`. */
  function Chars(c: char, n: nat): (r: string)
    ensures |r| == n
    ensures forall k :: 0 <= k < n ==> r[k] == c
  {
    seq(n, _ => c)
  }

  /** Number of positions of `s` holding `c`. */
  function CountChar(s: string, c: char): (r: nat)
    ensures r <= |s|
  {
    if |s| == 0 then 0 else (if s[0] == c then 1 else 0) + CountChar(s[1..], c)
  }

  lemma {:induction false} CountCharAppend(a: string, b: string, c: char)
    ensures CountChar(a + b, c) == CountChar(a, c) + CountChar(b, c)
    decreases |a|
  {
    if |a| > 0 {
      assert (a + b)[1..] == a[1..] + b;
      CountCharAppend(a[1..], b, c);
    } else {
      assert a + b == b;
    }
  }

  lemma {:induction false} CountCharChars(c: char, d: char, n: nat)
    ensures CountChar(Chars(c, n), d) == if c == d then n else 0
  {
    if n > 0 {
      assert Chars(c, n)[1..] == Chars(c, n - 1);
      CountCharChars(c, d, n - 1);
    }
  }

  /** No position of `s` holds `c`. */
  predicate Lacks(s: string, c: char)
  {
    forall k :: 0 <= k < |s| ==> s[k] != c
  }

  /** Index search for a single character, as an optional index: the first
      position holding `c`, or none when `s` lacks `c`. */
  function IndexOfChar(s: string, c: char): (r: Option<nat>)
    ensures r.None? <==> Lacks(s, c)
    ensures r.Some? ==> r.value < |s| && s[r.value] == c && forall k :: 0 <= k < r.value ==> s[k] != c
  {
    if |s| == 0 then None
    else if s[0] == c then Some(0)
    else match IndexOfChar(s[1..], c)
      case None => None
      case Some(i) => Some(i + 1)
  }

  /** `p` occurs in `s` starting at index `i`. */
  ghost predicate OccursAt(s: string, p: string, i: int)
  {
    0 <= i && i + |p| <= |s| && s[i..i + |p|] == p
  }

  ghost predicate Occurs(s: string, p: string)
  {
    exists i :: OccursAt(s, p, i)
  }

  /** `i` is the leftmost occurrence of `p` in `s`. */
  ghost predicate FirstOccurrence(s: string, p: string, i: int)
  {
    OccursAt(s, p, i) && forall j :: 0 <= j < i ==> !OccursAt(s, p, j)
  }

  function IndexOfFrom(s: string, p: string, k: nat): (r: Option<nat>)
    requires k <= |s|
    ensures r.Some? ==> k <= r.value && OccursAt(s, p, r.value)
    ensures r.Some? ==> forall j :: k <= j < r.value ==> !OccursAt(s, p, j)
    ensures r.None? ==> forall j :: k <= j ==> !OccursAt(s, p, j)
    decreases |s| - k
  {
    if k + |p| > |s| then None
    else if s[k..k + |p|] == p then Some(k)
    else IndexOfFrom(s, p, k + 1)
  }

  /** Index search for a string: the leftmost occurrence of `p`, if any. */
  function IndexOf(s: string, p: string): (r: Option<nat>)
    ensures r.Some? ==> FirstOccurrence(s, p, r.value)
    ensures r.None? <==> !Occurs(s, p)
  {
    IndexOfFrom(s, p, 0)
  }

  /** Replacement with a string pattern: only the leftmost occurrence
      of `p` is replaced, and `s` is returned unchanged when `p` is absent. */
  function ReplaceFirst(s: string, p: string, rep: string): (r: string)
    ensures !Occurs(s, p) ==> r == s
    ensures forall i :: FirstOccurrence(s, p, i) ==> r == s[..i] + rep + s[i + |p|..]
  {
    match IndexOf(s, p)
    case None => s
    case Some(i) => s[..i] + rep + s[i + |p|..]
  }

  /** Removing the leftmost occurrence is undone by putting `p` back where it
      was; everything before that point is free of `p`. */
  lemma RemoveFirstRestores(s: string, p: string, i: int)
    requires FirstOccurrence(s, p, i)
    ensures |ReplaceFirst(s, p, "")| == |s| - |p|
    ensures s == ReplaceFirst(s, p, "")[..i] + p + ReplaceFirst(s, p, "")[i..]
  {
    assert ReplaceFirst(s, p, "") == s[..i] + s[i + |p|..];
    CutRestore(s, i, |p|);
  }

  /** Cutting `n` characters at `i` and putting them back restores the text. */
  lemma CutRestore(s: string, i: nat, n: nat)
    requires i + n <= |s|
    ensures var r := s[..i] + s[i + n..];
            |r| == |s| - n && s == r[..i] + s[i..i + n] + r[i..]
  {
    var r := s[..i] + s[i + n..];
    assert r[..i] == s[..i];
    assert r[i..] == s[i + n..];
    assert s == s[..i] + s[i..i + n] + s[i + n..];
  }

  /** The pieces with `c` between each two of them. */
  function Join(parts: seq<string>, c: char): string
  {
    if |parts| == 0 then ""
    else if |parts| == 1 then parts[0]
    else parts[0] + [c] + Join(parts[1..], c)
  }

  /** Splitting on a one-character separator: the text between
      consecutive separators, so there is always at least one piece. */
  function Split(s: string, c: char): (r: seq<string>)
    ensures |r| >= 1
    decreases |s|
  {
    match IndexOfChar(s, c)
    case None => [s]
    case Some(i) => [s[..i]] + Split(s[i + 1..], c)
  }

  /** No piece of a split contains the separator. */
  lemma {:induction false} SplitPieces(s: string, c: char)
    ensures forall k :: 0 <= k < |Split(s, c)| ==> Lacks(Split(s, c)[k], c)
    decreases |s|
  {
    match IndexOfChar(s, c)
    case None =>
    case Some(i) =>
      SplitPieces(s[i + 1..], c);
      assert Split(s, c) == [s[..i]] + Split(s[i + 1..], c);
  }

  /** Joining the pieces of a split with the separator gives the text back. */
  lemma {:induction false} JoinSplit(s: string, c: char)
    ensures Join(Split(s, c), c) == s
    decreases |s|
  {
    match IndexOfChar(s, c)
    case None =>
    case Some(i) =>
      var rest := Split(s[i + 1..], c);
      var r := [s[..i]] + rest;
      assert r[1..] == rest;
      JoinSplit(s[i + 1..], c);
      assert s == s[..i] + [c] + s[i + 1..];
  }

  /** `Split` is the only way to cut `s` into separator-free pieces that join
      back to `s`. */
  lemma {:induction false} SplitJoin(parts: seq<string>, c: char)
    requires |parts| >= 1
    requires forall k :: 0 <= k < |parts| ==> Lacks(parts[k], c)
    ensures Split(Join(parts, c), c) == parts
    decreases |parts|
  {
    var s := Join(parts, c);
    if |parts| == 1 {
      assert s == parts[0];
    } else {
      var a := parts[0];
      var rest := Join(parts[1..], c);
      assert s == a + [c] + rest;
      var found := IndexOfChar(s, c);
      assert s[|a|] == c;
      assert found.Some?;
      var i := found.value;
      assert i == |a|;
      assert s[..i] == a;
      assert s[i + 1..] == rest;
      SplitJoin(parts[1..], c);
      assert Split(s, c) == [a] + Split(rest, c);
    }
  }

  lemma {:induction false} JoinAppend(parts: seq<string>, last: string, c: char)
    requires |parts| >= 1
    ensures Join(parts + [last], c) == Join(parts, c) + [c] + last
    decreases |parts|
  {
    if |parts| == 1 {
      assert parts + [last] == [parts[0], last];
      assert [parts[0], last][1..] == [last];
    } else {
      assert (parts + [last])[1..] == parts[1..] + [last];
      JoinAppend(parts[1..], last, c);
    }
  }

  /** Repeating a one-character string `count` times: the count goes through
      ToIntegerOrInfinity, so NaN repeats zero times and fractions are
      truncated; a negative or infinite count throws a RangeError. */
  function Repeat(c: char, count: Num): (r: Completion<string>)
    ensures r.Normal? <==> count.NaN? || (count.Finite? && count.v > -1.0)
    ensures r.Normal? ==> forall k :: 0 <= k < |r.value| ==> r.value[k] == c
    ensures count.NaN? ==> r == Normal("")
    ensures count.Finite? && IsIntegral(count.v) && count.v >= 0.0 ==>
              r.Normal? && |r.value| == count.v.Floor
  {
    match ToIntegerOrInfinity(count)
    case Int(n) => if n < 0 then Abrupt(RangeError) else Normal(Chars(c, n))
    case PlusInfinity => Abrupt(RangeError)
    case MinusInfinity => Abrupt(RangeError)
  }
}
