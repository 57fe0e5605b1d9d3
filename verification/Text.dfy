/** The string operations of the source: JavaScript `trim`, `toLowerCase`, `includes`, digits. */
module Text {

  /** The characters JavaScript's `trim` and `\s` treat as white space. */
  predicate IsSpace(c: char) {
    || c == ' '
    || '\t' <= c <= '\r'
    || c == '\U{00A0}'
    || c == '\U{1680}'
    || '\U{2000}' <= c <= '\U{200A}'
    || c == '\U{2028}' || c == '\U{2029}' || c == '\U{202F}'
    || c == '\U{205F}' || c == '\U{3000}' || c == '\U{FEFF}'
  }

  predicate IsDigit(c: char) {
    '0' <= c <= '9'
  }

  predicate IsLetter(c: char) {
    'A' <= c <= 'Z' || 'a' <= c <= 'z'
  }

  predicate AllDigits(s: string) {
    forall i :: 0 <= i < |s| ==> IsDigit(s[i])
  }

  /** `toUpperCase` on one character, for the ASCII letters the source classifies. */
  function Upper(c: char): char {
    if 'a' <= c <= 'z' then c - 'a' + 'A' else c
  }

  /** `toLowerCase`, for the ASCII letters the source's keyword tests use. */
  function Lower(c: char): char {
    if 'A' <= c <= 'Z' then c - 'A' + 'a' else c
  }

  function LowerCase(s: string): (r: string)
    ensures |r| == |s|
  {
    seq(|s|, i requires 0 <= i < |s| => Lower(s[i]))
  }

  predicate OccursAt(s: string, w: string, i: int) {
    0 <= i <= |s| - |w| && s[i..i + |w|] == w
  }

  /** `s.includes(w)`. */
  predicate Includes(s: string, w: string) {
    exists i :: 0 <= i <= |s| && OccursAt(s, w, i)
  }

  function TrimStart(s: string): (r: string)
    ensures |r| <= |s|
    ensures r == [] || !IsSpace(r[0])
  {
    if s != [] && IsSpace(s[0]) then TrimStart(s[1..]) else s
  }

  function TrimEnd(s: string): (r: string)
    ensures |r| <= |s| && r == s[..|r|]
    ensures r == [] || !IsSpace(r[|r| - 1])
  {
    if s != [] && IsSpace(s[|s| - 1]) then TrimEnd(s[..|s| - 1]) else s
  }

  function Trim(s: string): (r: string)
    ensures r == [] || (!IsSpace(r[0]) && !IsSpace(r[|r| - 1]))
  {
    TrimEnd(TrimStart(s))
  }

  /** Text that `trim` leaves alone. */
  predicate Trimmed(s: string) {
    s != [] ==> !IsSpace(s[0]) && !IsSpace(s[|s| - 1])
  }

  lemma TrimOfTrimmed(s: string)
    requires Trimmed(s)
    ensures Trim(s) == s
  {
  }

  lemma TrimIsIdempotent(s: string)
    ensures Trim(Trim(s)) == Trim(s)
  {
    TrimOfTrimmed(Trim(s));
  }

  // ---- Keyword search through trimming and lower-casing ----

  lemma {:induction false} TrimStartKeeps(s: string, w: string, i: int) returns (j: int)
    requires OccursAt(s, w, i) && w != "" && !IsSpace(w[0])
    ensures OccursAt(TrimStart(s), w, j)
    decreases |s|
  {
    j := i;
    if IsSpace(s[0]) {
      assert s[i..i + |w|][0] == s[i];
      assert s[1..][i - 1..i - 1 + |w|] == s[i..i + |w|];
      j := TrimStartKeeps(s[1..], w, i - 1);
    }
  }

  lemma {:induction false} TrimEndKeeps(s: string, w: string, i: int)
    requires OccursAt(s, w, i) && w != "" && !IsSpace(w[|w| - 1])
    ensures OccursAt(TrimEnd(s), w, i)
    decreases |s|
  {
    if IsSpace(s[|s| - 1]) {
      assert s[i..i + |w|][|w| - 1] == s[i + |w| - 1];
      assert s[..|s| - 1][i..i + |w|] == s[i..i + |w|];
      TrimEndKeeps(s[..|s| - 1], w, i);
    }
  }

  lemma IncludesTrim(s: string, w: string)
    requires Includes(s, w) && w != "" && !IsSpace(w[0]) && !IsSpace(w[|w| - 1])
    ensures Includes(Trim(s), w)
  {
    var i :| 0 <= i <= |s| && OccursAt(s, w, i);
    var j := TrimStartKeeps(s, w, i);
    TrimEndKeeps(TrimStart(s), w, j);
  }

  lemma {:induction false} TrimStartIsSuffix(s: string)
    ensures TrimStart(s) == s[|s| - |TrimStart(s)|..]
    decreases |s|
  {
    if s != [] && IsSpace(s[0]) {
      TrimStartIsSuffix(s[1..]);
    }
  }

  /** Trimming adds no words. */
  lemma IncludesOfTrim(s: string, w: string)
    requires Includes(Trim(s), w)
    ensures Includes(s, w)
  {
    var inner, t := TrimStart(s), Trim(s);
    var i :| 0 <= i <= |t| && OccursAt(t, w, i);
    TrimStartIsSuffix(s);
    OccursInPrefix(inner, |t|, w, i);
    OccursInSuffix(s, |s| - |inner|, w, i);
  }

  lemma OccursInPrefix(s: string, n: nat, w: string, i: int)
    requires n <= |s| && OccursAt(s[..n], w, i)
    ensures OccursAt(s, w, i)
  {
    assert s[i..i + |w|] == s[..n][i..i + |w|];
  }

  lemma OccursInSuffix(s: string, d: nat, w: string, i: int)
    requires d <= |s| && OccursAt(s[d..], w, i)
    ensures OccursAt(s, w, d + i)
  {
    assert s[d + i..d + i + |w|] == s[d..][i..i + |w|];
  }

  lemma LowerCaseTwice(s: string)
    ensures LowerCase(LowerCase(s)) == LowerCase(s)
  {
  }

  lemma IncludesPrefixed(p: string, s: string, w: string)
    requires Includes(s, w)
    ensures Includes(p + s, w)
  {
    var i :| 0 <= i <= |s| && OccursAt(s, w, i);
    assert (p + s)[|p| + i..|p| + i + |w|] == s[i..i + |w|];
    assert OccursAt(p + s, w, |p| + i);
  }
}
