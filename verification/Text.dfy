/** White space as JavaScript's `trim` sees it. */
module Text {
  /** What `trim` removes: white space and line terminators (section 22.1.3.32 of ECMA-262). */
  predicate IsSpace(c: char) {
    || '\t' <= c <= '\r' || c == ' ' || c == '\U{A0}' || c == '\U{1680}' || '\U{2000}' <= c <= '\U{200A}'
    || c == '\U{2028}' || c == '\U{2029}' || c == '\U{202F}' || c == '\U{205F}' || c == '\U{3000}' || c == '\U{FEFF}'
  }

  function TrimStart(s: string): string {
    if s == "" || !IsSpace(s[0]) then s else TrimStart(s[1..])
  }

  function TrimEnd(s: string): string {
    if s == "" || !IsSpace(s[|s| - 1]) then s else TrimEnd(s[..|s| - 1])
  }

  function Trim(s: string): string {
    TrimEnd(TrimStart(s))
  }

  predicate AllSpace(s: string) {
    forall i :: 0 <= i < |s| ==> IsSpace(s[i])
  }

  /** It starts and ends with something trimming leaves alone. */
  predicate SolidEnds(s: string) {
    s != "" && !IsSpace(s[0]) && !IsSpace(s[|s| - 1])
  }

  lemma {:induction false} TrimEndSkips(s: string, after: string)
    requires AllSpace(after) && SolidEnds(s)
    ensures TrimEnd(s + after) == s
  {
    if after == "" {
      assert s + after == s;
    } else {
      var n := |after| - 1;
      TrimEndSkips(s, after[..n]);
      assert (s + after)[..|s + after| - 1] == s + after[..n];
    }
  }

  lemma {:induction false} TrimBetween(before: string, s: string, after: string)
    requires AllSpace(before) && AllSpace(after) && SolidEnds(s)
    ensures Trim(before + s + after) == s
  {
    TrimStartReaches(before, s, after);
    TrimEndSkips(s, after);
  }

  lemma {:induction false} TrimStartReaches(before: string, s: string, after: string)
    requires AllSpace(before) && SolidEnds(s)
    ensures TrimStart(before + s + after) == s + after
  {
    if before == "" {
      assert before + s + after == s + after;
    } else {
      TrimStartReaches(before[1..], s, after);
      assert (before + s + after)[1..] == before[1..] + s + after;
    }
  }
}
