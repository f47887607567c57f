/** The JavaScript string built-ins the core relies on: `trim`, `split` on a one-character
    separator, `join`, and `slice` with a non-negative end or a negative start. */
module Text {

  /** The code points `String.prototype.trim` strips: ECMAScript WhiteSpace and LineTerminator. */
  predicate IsJsSpace(c: char) {
    || c == '\t' || c == '\n' || c == '\U{000B}' || c == '\U{000C}' || c == '\r' || c == ' '
    || c == '\U{00A0}' || c == '\U{1680}' || ('\U{2000}' <= c <= '\U{200A}')
    || c == '\U{2028}' || c == '\U{2029}' || c == '\U{202F}' || c == '\U{205F}'
    || c == '\U{3000}' || c == '\U{FEFF}'
  }

  predicate AllSpace(s: string) {
    forall k :: 0 <= k < |s| ==> IsJsSpace(s[k])
  }

  /** `s.trim()`: white space removed from both ends. The result is empty exactly when `s`
      is white space only; otherwise it starts and ends with a non-space character. */
  function Trim(s: string): (r: string)
    ensures |r| <= |s|
    ensures r == [] <==> AllSpace(s)
    ensures r != [] ==> !IsJsSpace(r[0]) && !IsJsSpace(r[|r| - 1])
    decreases |s|
  {
    if s != [] && IsJsSpace(s[0]) then Trim(s[1..])
    else if s != [] && IsJsSpace(s[|s| - 1]) then Trim(s[..|s| - 1])
    else s
  }

  /** `t` occurs in `s` at offset `i`. */
  predicate OccursAt(t: string, s: string, i: int) {
    0 <= i <= |s| - |t| && t == s[i..i + |t|]
  }

  /** `s` is `t` with white space only before it and after it, `t` starting at offset `i`. */
  predicate SpaceAround(t: string, s: string, i: int) {
    OccursAt(t, s, i) && AllSpace(s[..i]) && AllSpace(s[i + |t|..])
  }

  /** Trimming keeps a contiguous piece of the input, and what it removes from either end
      is white space. */
  lemma {:induction false} TrimIsInfix(s: string)
    ensures exists i :: SpaceAround(Trim(s), s, i)
    decreases |s|
  {
    if s != [] && IsJsSpace(s[0]) {
      TrimIsInfix(s[1..]);
      var i :| SpaceAround(Trim(s[1..]), s[1..], i);
      SpaceAroundDropFirst(Trim(s), s, i);
    } else if s != [] && IsJsSpace(s[|s| - 1]) {
      TrimIsInfix(s[..|s| - 1]);
      var i :| SpaceAround(Trim(s[..|s| - 1]), s[..|s| - 1], i);
      SpaceAroundDropLast(Trim(s), s, i);
    } else {
      assert Trim(s) == s && s == s[0..|s|];
      assert SpaceAround(Trim(s), s, 0);
    }
  }

  /** White space put back in front keeps `t` surrounded by white space. */
  lemma SpaceAroundDropFirst(t: string, s: string, i: int)
    requires s != [] && IsJsSpace(s[0]) && SpaceAround(t, s[1..], i)
    ensures SpaceAround(t, s, i + 1)
  {
    assert s[..i + 1] == [s[0]] + s[1..][..i];
    assert s[i + 1 + |t|..] == s[1..][i + |t|..];
  }

  /** White space put back at the end keeps `t` surrounded by white space. */
  lemma SpaceAroundDropLast(t: string, s: string, i: int)
    requires s != [] && IsJsSpace(s[|s| - 1]) && SpaceAround(t, s[..|s| - 1], i)
    ensures SpaceAround(t, s, i)
  {
    assert s[..i] == s[..|s| - 1][..i];
    assert s[i + |t|..] == s[..|s| - 1][i + |t|..] + [s[|s| - 1]];
  }

  /** `s.split(sep)` for a one-character separator: the pieces between separators, in order. */
  function Split(s: string, sep: char): (parts: seq<string>)
    ensures |parts| >= 1
    ensures forall i :: 0 <= i < |parts| ==> sep !in parts[i]
  {
    if s == [] then [""]
    else
      var rest := Split(s[1..], sep);
      if s[0] == sep then [""] + rest else [[s[0]] + rest[0]] + rest[1..]
  }

  /** `parts.join(sep)`. */
  function Join(parts: seq<string>, sep: string): string {
    if |parts| == 0 then ""
    else if |parts| == 1 then parts[0]
    else parts[0] + sep + Join(parts[1..], sep)
  }

  /** Every piece appears, whole, in the joined string. */
  lemma {:induction false} JoinHasPart(parts: seq<string>, sep: string, i: int)
    requires 0 <= i < |parts|
    ensures exists k :: OccursAt(parts[i], Join(parts, sep), k)
    decreases |parts|
  {
    if |parts| == 1 || i == 0 {
      var j := Join(parts, sep);
      assert j[..|parts[0]|] == parts[0];
      assert OccursAt(parts[0], j, 0);
    } else {
      var rest := Join(parts[1..], sep);
      JoinHasPart(parts[1..], sep, i - 1);
      var k :| OccursAt(parts[1..][i - 1], rest, k);
      var offset := |parts[0]| + |sep|;
      assert Join(parts, sep) == parts[0] + sep + rest;
      assert Join(parts, sep)[offset + k..offset + k + |parts[i]|] == rest[k..k + |parts[i]|];
      assert OccursAt(parts[i], Join(parts, sep), offset + k);
    }
  }

  /** Number of occurrences of `c` in `s`. */
  function Count(s: string, c: char): nat {
    if s == [] then 0 else (if s[0] == c then 1 else 0) + Count(s[1..], c)
  }

  /** Splitting yields one more piece than there are separators. */
  lemma {:induction false} SplitLength(s: string, sep: char)
    ensures |Split(s, sep)| == Count(s, sep) + 1
  {
    if s != [] {
      SplitLength(s[1..], sep);
    }
  }

  /** Joining the pieces with the separator gives back the string that was split. */
  lemma {:induction false} JoinSplit(s: string, sep: char)
    ensures Join(Split(s, sep), [sep]) == s
  {
    if s != [] {
      var rest := Split(s[1..], sep);
      JoinSplit(s[1..], sep);
      if s[0] != sep && |rest| > 1 {
        assert Join(rest, [sep]) == rest[0] + [sep] + Join(rest[1..], [sep]);
      }
    }
  }

  /** A string without the separator splits into itself alone. */
  lemma {:induction false} SplitWithoutSeparator(a: string, sep: char)
    requires sep !in a
    ensures Split(a, sep) == [a]
  {
    if a != [] {
      assert sep !in a[1..] && a == [a[0]] + a[1..];
      SplitWithoutSeparator(a[1..], sep);
    }
  }

  /** A leading piece free of the separator comes out of `Split` unchanged. */
  lemma {:induction false} SplitAfterPiece(a: string, b: string, sep: char)
    requires sep !in a
    ensures Split(a + [sep] + b, sep) == [a] + Split(b, sep)
  {
    if a != [] {
      assert (a + [sep] + b)[1..] == a[1..] + [sep] + b;
      assert sep !in a[1..] && a == [a[0]] + a[1..];
      SplitAfterPiece(a[1..], b, sep);
    } else {
      assert (a + [sep] + b)[1..] == b;
    }
  }

  /** Splitting a join of separator-free pieces gives back the pieces. */
  lemma {:induction false} SplitJoin(parts: seq<string>, sep: char)
    requires |parts| >= 1
    requires forall i :: 0 <= i < |parts| ==> sep !in parts[i]
    ensures Split(Join(parts, [sep]), sep) == parts
  {
    if |parts| == 1 {
      SplitWithoutSeparator(parts[0], sep);
    } else {
      SplitAfterPiece(parts[0], Join(parts[1..], [sep]), sep);
      SplitJoin(parts[1..], sep);
    }
  }

  /** `xs.slice(0, k)` for `k >= 0`. */
  function SliceTo<T>(xs: seq<T>, k: nat): (r: seq<T>)
    ensures |r| == if k <= |xs| then k else |xs|
    ensures r == xs[..|r|]
  {
    if k <= |xs| then xs[..k] else xs
  }

  /** `xs.slice(-k)` for `k > 0`: the last `k` elements, or all of them when there are fewer. */
  function SliceLast<T>(xs: seq<T>, k: nat): (r: seq<T>)
    requires k > 0
    ensures |r| == if k <= |xs| then k else |xs|
    ensures r == xs[|xs| - |r|..]
  {
    if k <= |xs| then xs[|xs| - k..] else xs
  }
}
