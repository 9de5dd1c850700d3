/** The parts of Go's `strings` package and of string concatenation that the
    renderer relies on. */
module Strings {
  /** The concatenation of a sequence of strings, in order. */
  function Concat(ss: seq<string>): string
  {
    if ss == [] then "" else Concat(ss[..|ss| - 1]) + ss[|ss| - 1]
  }

  lemma ConcatSnoc(ss: seq<string>, s: string)
    ensures Concat(ss + [s]) == Concat(ss) + s
  {
    assert (ss + [s])[..|ss|] == ss;
  }

  /** Concatenation distributes over appending sequences. */
  lemma {:induction false} ConcatAppend(xs: seq<string>, ys: seq<string>)
    ensures Concat(xs + ys) == Concat(xs) + Concat(ys)
  {
    if ys == [] {
      assert xs + ys == xs;
    } else {
      var init := ys[..|ys| - 1];
      var last := ys[|ys| - 1];
      assert ys == init + [last];
      assert xs + ys == (xs + init) + [last];
      ConcatSnoc(xs + init, last);
      ConcatAppend(xs, init);
      ConcatSnoc(init, last);
    }
  }

  lemma {:induction false} ConcatCons(ss: seq<string>)
    requires ss != []
    ensures Concat(ss) == ss[0] + Concat(ss[1..])
  {
    if |ss| > 1 {
      var init := ss[..|ss| - 1];
      ConcatCons(init);
      assert init[1..] == ss[1..][..|ss| - 2];
    } else {
      assert ss[1..] == [];
    }
  }

  /** The concatenation is empty exactly when every piece is. */
  lemma {:induction false} ConcatEmpty(ss: seq<string>)
    ensures Concat(ss) == "" <==> forall i | 0 <= i < |ss| :: ss[i] == ""
  {
    if ss != [] {
      var init := ss[..|ss| - 1];
      ConcatEmpty(init);
      assert forall i | 0 <= i < |init| :: init[i] == ss[i];
    }
  }

  /** Go's strings.ReplaceAll: the string is scanned from the left and every
      occurrence of `pat` that does not overlap an earlier replaced one is
      replaced by `rep`. An empty `pat` matches before every character and at
      the end (characters stand for Go's runes). */
  function ReplaceAll(s: string, pat: string, rep: string): string
    decreases |s|
  {
    if pat == [] then
      if s == [] then rep else rep + [s[0]] + ReplaceAll(s[1..], pat, rep)
    else if |s| < |pat| then s
    else if s[..|pat|] == pat then rep + ReplaceAll(s[|pat|..], pat, rep)
    else [s[0]] + ReplaceAll(s[1..], pat, rep)
  }

  /** One step of the scan at a position where `pat` occurs. */
  lemma ReplaceAllMatch(s: string, pat: string, rep: string)
    requires pat != [] && pat <= s
    ensures ReplaceAll(s, pat, rep) == rep + ReplaceAll(s[|pat|..], pat, rep)
  {
  }

  /** One step of the scan at a position where `pat` does not occur. */
  lemma ReplaceAllNoMatch(s: string, pat: string, rep: string)
    requires pat != [] && |pat| <= |s| && s[..|pat|] != pat
    ensures ReplaceAll(s, pat, rep) == [s[0]] + ReplaceAll(s[1..], pat, rep)
  {
  }

  /** A first character that cannot start `pat` is copied unchanged. */
  lemma SkipFirst(s: string, pat: string, rep: string)
    requires pat != [] && s != [] && s[0] != pat[0]
    ensures ReplaceAll(s, pat, rep) == [s[0]] + ReplaceAll(s[1..], pat, rep)
  {
    if |s| < |pat| {
      assert [s[0]] + s[1..] == s;
    } else {
      assert s[..|pat|][0] == s[0];
      ReplaceAllNoMatch(s, pat, rep);
    }
  }

  /** One character of a prefix that cannot start `pat`, copied ahead of the rest. */
  lemma SkipsStep(x: string, y: string, pat: string, rep: string)
    requires pat != [] && x != [] && x[0] != pat[0]
    requires ReplaceAll(x[1..] + y, pat, rep) == x[1..] + ReplaceAll(y, pat, rep)
    ensures ReplaceAll(x + y, pat, rep) == x + ReplaceAll(y, pat, rep)
  {
    var s, r := x + y, ReplaceAll(y, pat, rep);
    calc {
      ReplaceAll(s, pat, rep);
      { assert s[0] == x[0] && s[1..] == x[1..] + y; SkipFirst(s, pat, rep); }
      [x[0]] + ReplaceAll(x[1..] + y, pat, rep);
      [x[0]] + (x[1..] + r);
      { assert [x[0]] + x[1..] == x; }
      x + r;
    }
  }

  /** A prefix that does not contain the first character of `pat` cannot take
      part in a match, so ReplaceAll copies it unchanged. */
  lemma {:induction false} ReplaceAllSkips(x: string, y: string, pat: string, rep: string)
    requires pat != []
    requires forall i | 0 <= i < |x| :: x[i] != pat[0]
    ensures ReplaceAll(x + y, pat, rep) == x + ReplaceAll(y, pat, rep)
  {
    if x != [] {
      assert forall i | 0 <= i < |x[1..]| :: x[1..][i] == x[i + 1];
      ReplaceAllSkips(x[1..], y, pat, rep);
      SkipsStep(x, y, pat, rep);
    } else {
      assert x + y == y;
    }
  }
}
