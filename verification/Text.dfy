/** Trimming of strings. */
module Text {
  predicate Space(c: char) { c in " \t\n\r" }

  function StripLeft(s: string, drop: char -> bool): string {
    if s != [] && drop(s[0]) then StripLeft(s[1..], drop) else s
  }

  function StripRight(s: string, drop: char -> bool): string {
    if s != [] && drop(s[|s| - 1]) then StripRight(s[..|s| - 1], drop) else s
  }

  function Strip(s: string, drop: char -> bool): string {
    StripRight(StripLeft(s, drop), drop)
  }

  lemma StripNothing(s: string, drop: char -> bool)
    requires s != [] && !drop(s[0]) && !drop(s[|s| - 1])
    ensures Strip(s, drop) == s
  {
  }

  lemma StripRightStops(s: string, drop: char -> bool)
    requires s == [] || !drop(s[|s| - 1])
    ensures StripRight(s, drop) == s
  {
  }

  lemma StripRightDrops(s: string, c: char, drop: char -> bool)
    requires drop(c)
    ensures StripRight(s + [c], drop) == StripRight(s, drop)
  {
    assert (s + [c])[..|s|] == s;
  }

  /** Trimming on the right stops inside t, or reaches what stands before it. */
  lemma {:induction false} StripRightConcat(s: string, t: string, drop: char -> bool)
    ensures StripRight(s + t, drop)
         == if StripRight(t, drop) == [] then StripRight(s, drop) else s + StripRight(t, drop)
  {
    if t == [] {
      assert s + t == s;
    } else if drop(t[|t| - 1]) {
      assert (s + t)[..|s + t| - 1] == s + t[..|t| - 1];
      StripRightConcat(s, t[..|t| - 1], drop);
    }
  }
}
