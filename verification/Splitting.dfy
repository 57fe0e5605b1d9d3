/** `s.split(c)` on one character, and what it does to joined text. */
module Splitting {
  function FirstFrom(s: string, c: char, from: nat): (i: nat)
    requires from <= |s|
    ensures from <= i <= |s|
    ensures i < |s| ==> s[i] == c
    ensures forall j :: from <= j < i ==> s[j] != c
    decreases |s| - from
  {
    if from == |s| || s[from] == c then from else FirstFrom(s, c, from + 1)
  }

  /** `s.split(c)`. */
  function SplitOn(s: string, c: char): (fields: seq<string>)
    ensures |fields| >= 1
    decreases |s|
  {
    var i := FirstFrom(s, c, 0);
    if i == |s| then [s] else [s[..i]] + SplitOn(s[i + 1..], c)
  }

  lemma SplitWithout(s: string, c: char)
    requires c !in s
    ensures SplitOn(s, c) == [s]
  {
  }

  lemma FirstConcat(a: string, c: char, b: string)
    ensures FirstFrom(a + [c] + b, c, 0) == FirstFrom(a, c, 0)
  {
    var s, i := a + [c] + b, FirstFrom(a, c, 0);
    assert s[i] == c;
    assert forall j :: 0 <= j < i ==> s[j] == a[j];
  }

  lemma CutConcat(a: string, c: char, b: string, i: nat)
    requires i <= |a|
    ensures (a + [c] + b)[..i] == a[..i]
    ensures i == |a| ==> a[..i] == a && (a + [c] + b)[i + 1..] == b
    ensures i < |a| ==> (a + [c] + b)[i + 1..] == a[i + 1..] + [c] + b
  {
  }

  lemma SplitSteps(s: string, c: char)
    ensures FirstFrom(s, c, 0) == |s| ==> SplitOn(s, c) == [s]
    ensures FirstFrom(s, c, 0) < |s|
        ==> SplitOn(s, c) == [s[..FirstFrom(s, c, 0)]] + SplitOn(s[FirstFrom(s, c, 0) + 1..], c)
  {
  }

  lemma {:induction false} SplitConcat(a: string, c: char, b: string)
    ensures SplitOn(a + [c] + b, c) == SplitOn(a, c) + SplitOn(b, c)
    decreases |a|
  {
    var i := FirstFrom(a, c, 0);
    FirstConcat(a, c, b);
    SplitSteps(a + [c] + b, c);
    SplitSteps(a, c);
    CutConcat(a, c, b, i);
    if i < |a| {
      SplitConcat(a[i + 1..], c, b);
      Reassociate(a[..i], SplitOn(a[i + 1..], c), SplitOn(b, c));
    }
  }

  lemma Reassociate(x: string, ys: seq<string>, zs: seq<string>)
    ensures [x] + (ys + zs) == ([x] + ys) + zs
  {
  }

  lemma {:induction false} OneFieldIsWhole(s: string, c: char)
    requires |SplitOn(s, c)| == 1
    ensures c !in s && SplitOn(s, c) == [s]
  {
  }

  lemma DetachField(s: string, c: char) returns (rest: string)
    requires |SplitOn(s, c)| > 1
    ensures s == SplitOn(s, c)[0] + [c] + rest && SplitOn(rest, c) == SplitOn(s, c)[1..]
  {
    var i := FirstFrom(s, c, 0);
    rest := s[i + 1..];
    assert s == s[..i] + [c] + rest;
  }
}
