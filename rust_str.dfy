/**
 * The parts of Rust's string library the plugins rely on, over strings
 * of Unicode scalar values: whitespace trimming, prefix tests and
 * splitting on a separator character.
 */
module RustStr {

  /** Rust's `char::is_whitespace`: the Unicode White_Space property. */
  predicate IsWhitespace(c: char) {
    || '\t' <= c <= '\r'
    || c == ' '
    || c == '\U{0085}'
    || c == '\U{00A0}'
    || c == '\U{1680}'
    || '\U{2000}' <= c <= '\U{200A}'
    || c == '\U{2028}'
    || c == '\U{2029}'
    || c == '\U{202F}'
    || c == '\U{205F}'
    || c == '\U{3000}'
  }

  /** Every character of `s` is whitespace. */
  predicate Blank(s: string) {
    forall i :: 0 <= i < |s| ==> IsWhitespace(s[i])
  }

  /** The first position at or after `k` that does not hold whitespace, or `|s|`. */
  function SkipBlank(s: string, k: nat): (n: nat)
    requires k <= |s|
    ensures k <= n <= |s|
    ensures forall j :: k <= j < n ==> IsWhitespace(s[j])
    ensures n < |s| ==> !IsWhitespace(s[n])
    decreases |s| - k
  {
    if k < |s| && IsWhitespace(s[k]) then SkipBlank(s, k + 1) else k
  }

  /** The position just after the last non-whitespace character before `k`, or 0. */
  function BackBlank(s: string, k: nat): (n: nat)
    requires k <= |s|
    ensures n <= k
    ensures forall j :: n <= j < k ==> IsWhitespace(s[j])
    ensures n > 0 ==> !IsWhitespace(s[n - 1])
    decreases k
  {
    if k > 0 && IsWhitespace(s[k - 1]) then BackBlank(s, k - 1) else k
  }

  /** `trim_start`: the suffix left after the leading whitespace. */
  function TrimStart(s: string): (r: string)
    ensures |r| <= |s| && r == s[|s| - |r|..]
    ensures Blank(s[..|s| - |r|])
    ensures r != [] ==> !IsWhitespace(r[0])
  {
    s[SkipBlank(s, 0)..]
  }

  /** `trim_end`: the prefix left before the trailing whitespace. */
  function TrimEnd(s: string): (r: string)
    ensures |r| <= |s| && r == s[..|r|]
    ensures Blank(s[|r|..])
    ensures r != [] ==> !IsWhitespace(r[|r| - 1])
  {
    s[..BackBlank(s, |s|)]
  }

  /** `trim`: the slice of `s` between its leading and its trailing whitespace. */
  function Trim(s: string): (r: string)
    ensures r != [] ==> !IsWhitespace(r[0]) && !IsWhitespace(r[|r| - 1])
  {
    TrimEnd(TrimStart(s))
  }

  /**
   * What `trim` keeps is one slice of `s`; what it drops before and after
   * that slice is whitespace.
   */
  lemma TrimIsSlice(s: string)
    ensures var i := |s| - |TrimStart(s)|;
            var r := Trim(s);
            i + |r| <= |s| && r == s[i..i + |r|]
            && Blank(s[..i]) && Blank(s[i + |r|..])
  {
    var t := TrimStart(s);
    SuffixSlices(s, t, TrimEnd(t));
  }

  /** A prefix `r` of a suffix `t` of `s` is a slice of `s`, followed by the rest of `t`. */
  lemma SuffixSlices(s: string, t: string, r: string)
    requires |r| <= |t| <= |s| && t == s[|s| - |t|..] && r == t[..|r|]
    ensures var i := |s| - |t|;
            r == s[i..i + |r|] && t[|r|..] == s[i + |r|..]
  {
  }

  /** Whitespace after a non-whitespace character is all that `trim_end` removes. */
  lemma TrimEndSolid(x: string, w: string)
    requires x != [] && !IsWhitespace(x[|x| - 1])
    requires Blank(w)
    ensures TrimEnd(x + w) == x
  {
    var s := x + w;
    assert s[|x| - 1] == x[|x| - 1];
    assert forall j :: |x| <= j < |s| ==> s[j] == w[j - |x|];
    assert BackBlank(s, |s|) == |x|;
    assert s[..|x|] == x;
  }

  /** `trim_start` leaves a string that starts with non-whitespace alone. */
  lemma TrimStartSolid(s: string)
    requires s != [] && !IsWhitespace(s[0])
    ensures TrimStart(s) == s
  {
  }

  /** Rust's `str::starts_with` for a string prefix. */
  predicate StartsWith(s: string, prefix: string) {
    |prefix| <= |s| && s[..|prefix|] == prefix
  }

  /** The position of the first `c` in `s`, or `|s|` when there is none. */
  function Find(s: string, c: char): (i: nat)
    ensures i <= |s| && c !in s[..i]
    ensures i < |s| ==> s[i] == c
    decreases |s|
  {
    if s == [] then 0
    else if s[0] == c then 0
    else
      var j := Find(s[1..], c);
      assert s[..j + 1] == [s[0]] + s[1..][..j];
      j + 1
  }

  /** `str::split(';')`: the pieces between separators, empty ones included. */
  function Split(s: string): (pieces: seq<string>)
    ensures |pieces| >= 1
    ensures forall i :: 0 <= i < |pieces| ==> ';' !in pieces[i]
    decreases |s|
  {
    var i := Find(s, ';');
    if i == |s| then
      assert s[..i] == s;
      [s]
    else [s[..i]] + Split(s[i + 1..])
  }

  /** The pieces put back together with ';' between them. */
  function Join(pieces: seq<string>): string
    requires |pieces| >= 1
    decreases |pieces|
  {
    if |pieces| == 1 then pieces[0] else pieces[0] + ";" + Join(pieces[1..])
  }

  /** Splitting loses nothing: joining the pieces gives the reply back. */
  lemma {:induction false} JoinSplit(s: string)
    ensures Join(Split(s)) == s
    decreases |s|
  {
    var i := Find(s, ';');
    if i == |s| {
      assert s[..i] == s;
    } else {
      var head, rest := s[..i], s[i + 1..];
      var tail := Split(rest);
      assert Split(s) == [head] + tail;
      assert Join([head] + tail) == head + ";" + Join(tail) by {
        assert ([head] + tail)[1..] == tail;
      }
      JoinSplit(rest);
      SliceAround(s, i);
    }
  }

  /** A string is its part before position `i`, the character there, and the rest. */
  lemma SliceAround(s: string, i: nat)
    requires i < |s|
    ensures s == s[..i] + [s[i]] + s[i + 1..]
  {
  }

  /** Searching past a prefix without `c` finds what searching the rest finds, shifted. */
  lemma {:induction false} FindPastPrefix(a: string, rest: string, c: char)
    requires c !in a
    ensures Find(a + rest, c) == |a| + Find(rest, c)
    decreases |a|
  {
    if a != [] {
      assert (a + rest)[1..] == a[1..] + rest;
      FindPastPrefix(a[1..], rest, c);
    } else {
      assert a + rest == rest;
    }
  }

  /** Pieces without ';' are exactly what splitting their join gives back. */
  lemma {:induction false} SplitJoin(pieces: seq<string>)
    requires |pieces| >= 1
    requires forall i :: 0 <= i < |pieces| ==> ';' !in pieces[i]
    ensures Split(Join(pieces)) == pieces
    decreases |pieces|
  {
    var a := pieces[0];
    if |pieces| == 1 {
      assert a[..Find(a, ';')] == a;
    } else {
      SplitAfter(a, Join(pieces[1..]));
      SplitJoin(pieces[1..]);
      assert pieces == [a] + pieces[1..];
    }
  }

  /** A piece without ';' followed by a separator is split off first. */
  lemma SplitAfter(a: string, rest: string)
    requires ';' !in a
    ensures Split(a + ";" + rest) == [a] + Split(rest)
  {
    var s := a + ";" + rest;
    assert s == a + (";" + rest);
    FindPastPrefix(a, ";" + rest, ';');
    assert Find(s, ';') == |a|;
    assert s[..|a|] == a && s[|a| + 1..] == rest;
  }
}
