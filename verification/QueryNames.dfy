/** Query names as programs write them, and the normal form that keys the hint table: blanks trimmed, letters lowered,
    trailing dots removed, in that order. Lowering is that of the "C" locale. */
module QueryNames {

  predicate Blank(c: char) { c == ' ' || c == '\t' || c == '\r' }

  function Lower(c: char): char { if 'A' <= c <= 'Z' then (c as int + 32) as char else c }

  function Lowered(s: string): (r: string)
    ensures |r| == |s| && forall k :: 0 <= k < |s| ==> r[k] == Lower(s[k])
  {
    seq(|s|, k requires 0 <= k < |s| => Lower(s[k]))
  }

  function TrimFront(s: string): string { if s != "" && Blank(s[0]) then TrimFront(s[1..]) else s }

  function TrimBack(s: string): string { if s != "" && Blank(s[|s| - 1]) then TrimBack(s[..|s| - 1]) else s }

  function Trim(s: string): string { TrimBack(TrimFront(s)) }

  function StripDots(s: string): string { if s != "" && s[|s| - 1] == '.' then StripDots(s[..|s| - 1]) else s }

  function Normalised(s: string): string { StripDots(Lowered(Trim(s))) }

  /** The shortest way to write a name in normal form: one that ends in a blank needs a dot behind it. */
  function Spelling(n: string): string { if n != "" && Blank(n[|n| - 1]) then n + "." else n }

  /** Normal, except that the last character may be a dot or a blank. */
  predicate Lean(s: string) {
    (s != "" ==> !Blank(s[0])) && forall k :: 0 <= k < |s| ==> Lower(s[k]) == s[k]
  }

  lemma {:induction false} FrontTrims(s: string)
    ensures |TrimFront(s)| <= |s| && (TrimFront(s) != "" ==> !Blank(TrimFront(s)[0]))
  {
    if s != "" && Blank(s[0]) { FrontTrims(s[1..]); }
  }

  lemma {:induction false} BackTrims(s: string)
    ensures TrimBack(s) <= s && (TrimBack(s) != "" ==> !Blank(TrimBack(s)[|TrimBack(s)| - 1]))
  {
    if s != "" && Blank(s[|s| - 1]) { BackTrims(s[..|s| - 1]); }
  }

  lemma {:induction false} DotsStrip(s: string)
    ensures StripDots(s) <= s && (StripDots(s) != "" ==> StripDots(s)[|StripDots(s)| - 1] != '.')
  {
    if s != "" && s[|s| - 1] == '.' { DotsStrip(s[..|s| - 1]); }
  }

  lemma NormalIsLean(s: string)
    ensures var n := Normalised(s); Lean(n) && (n != "" ==> n[|n| - 1] != '.')
  {
    FrontTrims(s);
    BackTrims(TrimFront(s));
    DotsStrip(Lowered(Trim(s)));
  }

  /** No way to write a name is shorter than its spelling. */
  lemma SpellingIsShortest(s: string)
    ensures |Spelling(Normalised(s))| <= |s|
  {
    FrontTrims(s);
    BackTrims(TrimFront(s));
    DotsStrip(Lowered(Trim(s)));
  }

  /** A name's spelling is a way to write it. */
  lemma SpellingNormalises(s: string)
    ensures Normalised(Spelling(Normalised(s))) == Normalised(s)
  {
    var n := Normalised(s);
    NormalIsLean(s);
    var t := Spelling(n);
    assert Trim(t) == t;
    assert Lowered(t) == t;
    assert StripDots(n) == n;
    assert t != n ==> t[|t| - 1] == '.' && t[..|t| - 1] == n;
  }
}
