/** The few string operations of Python that decide identity in the middleware:
    strip, lower, and joining components with colons. Characters are treated as
    ASCII, as every company, entity and direction word of the repository is. */
module Text {

  predicate IsSpace(c: char) {
    c == ' ' || c == '\t' || c == '\n' || c == '\r'
  }

  function StripLeft(s: string): string {
    if s != "" && IsSpace(s[0]) then StripLeft(s[1..]) else s
  }

  function StripRight(s: string): string {
    if s != "" && IsSpace(s[|s| - 1]) then StripRight(s[..|s| - 1]) else s
  }

  function Strip(s: string): string {
    StripRight(StripLeft(s))
  }

  function LowerChar(c: char): char {
    if 'A' <= c <= 'Z' then c - 'A' + 'a' else c
  }

  function Lower(s: string): (r: string)
    ensures |r| == |s|
    ensures forall i :: 0 <= i < |s| ==> r[i] == LowerChar(s[i])
  {
    if s == "" then "" else [LowerChar(s[0])] + Lower(s[1..])
  }

  /** Python's `a or b` on strings. */
  function Or(a: string, b: string): string {
    if a != "" then a else b
  }

  predicate EndsWith(s: string, tail: string) {
    |tail| <= |s| && s[|s| - |tail|..] == tail
  }

  predicate Contains(s: string, part: string) {
    exists i :: 0 <= i <= |s| && part <= s[i..]
  }

  predicate ColonFree(s: string) {
    ':' !in s
  }

  function Colons(s: string): nat {
    if s == "" then 0 else (if s[0] == ':' then 1 else 0) + Colons(s[1..])
  }

  /** No space at either end. */
  predicate Tight(s: string) {
    s != "" ==> !IsSpace(s[0]) && !IsSpace(s[|s| - 1])
  }

  /** Nothing for lower() to change. */
  predicate Tidy(s: string) {
    forall c :: c in s ==> LowerChar(c) == c
  }

  lemma StripOfTight(s: string)
    requires Tight(s)
    ensures Strip(s) == s
  {
  }

  lemma LowerOfTidy(s: string)
    requires Tidy(s)
    ensures Lower(s) == s
  {
  }

  lemma LowerIsTidy(s: string)
    ensures Tidy(Lower(s))
  {
  }

  lemma LowerKeepsTight(s: string)
    requires Tight(s)
    ensures Tight(Lower(s))
  {
  }

  lemma {:induction false} StripLeftStarts(s: string)
    ensures StripLeft(s) != "" ==> !IsSpace(StripLeft(s)[0])
  {
    if s != "" && IsSpace(s[0]) {
      StripLeftStarts(s[1..]);
    }
  }

  lemma {:induction false} StripRightEnds(s: string)
    ensures StripRight(s) <= s
    ensures StripRight(s) != "" ==> !IsSpace(StripRight(s)[|StripRight(s)| - 1])
  {
    if s != "" && IsSpace(s[|s| - 1]) {
      StripRightEnds(s[..|s| - 1]);
    }
  }

  lemma StripIsTight(s: string)
    ensures Tight(Strip(s))
  {
    StripLeftStarts(s);
    StripRightEnds(StripLeft(s));
  }

  /** A lower-case word without spaces, as every entity and direction word is. */
  predicate PlainWord(s: string) {
    s != "" && forall c :: c in s ==> !IsSpace(c) && LowerChar(c) == c
  }

  lemma PlainWordStays(s: string)
    requires PlainWord(s)
    ensures Strip(s) == s && Lower(s) == s
  {
    StripOfTight(s);
    LowerOfTidy(s);
  }

  lemma {:induction false} ColonsOfConcat(a: string, b: string)
    ensures Colons(a + b) == Colons(a) + Colons(b)
  {
    if a == "" {
      assert a + b == b;
    } else {
      assert (a + b)[1..] == a[1..] + b;
      ColonsOfConcat(a[1..], b);
    }
  }

  lemma {:induction false} NoColonsIsColonFree(s: string)
    ensures Colons(s) == 0 <==> ColonFree(s)
  {
    if s != "" {
      NoColonsIsColonFree(s[1..]);
      assert s == [s[0]] + s[1..];
    }
  }

  /** A colon-free head is recovered from a colon-joined pair. */
  lemma HeadOfColonPair(a: string, b: string, c: string, d: string)
    requires ColonFree(a) && ColonFree(c)
    requires a + ":" + b == c + ":" + d
    ensures a == c && b == d
  {
    var s, t := a + ":" + b, c + ":" + d;
    assert s[|a|] == ':' && t[|c|] == ':';
    assert forall i :: 0 <= i < |a| ==> s[i] != ':';
    assert forall i :: 0 <= i < |c| ==> t[i] != ':';
    assert |a| == |c|;
    assert a == s[..|a|] && c == t[..|c|];
    assert b == s[|a| + 1..] && d == t[|c| + 1..];
  }
}
