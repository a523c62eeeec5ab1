/** Code seeds and the loop that makes a code unique. */
module UniqueCode {
  import opened Digits
  import opened Text

  // ----- seeds -----------------------------------------------------------------

  predicate Safe(c: char) { 'A' <= c <= 'Z' || '0' <= c <= '9' }

  /** Capital letters are code points 65 to 90, digits 48 to 57. */
  lemma SafeIs(c: char)
    ensures Safe(c) <==> 65 <= c as int <= 90 || 48 <= c as int <= 57
  {
  }

  function UpperChar(c: char): char {
    if 'a' <= c <= 'z' then (c as int - 32) as char else c
  }

  function Upper(s: string): string {
    if s == [] then [] else [UpperChar(s[0])] + Upper(s[1..])
  }

  /** re.sub(r"[^A-Z0-9]+", "_", s): each run of other characters becomes one underscore. */
  function Collapse(s: string, inRun: bool): string {
    if s == [] then []
    else if Safe(s[0]) then [s[0]] + Collapse(s[1..], false)
    else (if inRun then [] else "_") + Collapse(s[1..], true)
  }

  predicate Underscore(c: char) { c == '_' }

  /** s[:k], counting from the end when k is negative. */
  function Prefix(s: string, k: int): string {
    if k >= |s| then s else if k >= 0 then s[..k] else if |s| + k >= 0 then s[..|s| + k] else []
  }

  /** `_make_code_seed` */
  function MakeSeed(value: string, maxLen: nat): string {
    var seed := Strip(Collapse(Upper(Strip(value, Space)), false), Underscore);
    var cut := Strip(Prefix(seed, maxLen), Underscore);
    if cut == [] then "ITEM" else cut
  }

  /** Codes made of safe runs joined by single underscores. */
  predicate Joined(s: string) {
    && (forall c :: c in s ==> Safe(c) || c == '_')
    && (forall i :: 0 <= i < |s| - 1 ==> Safe(s[i]) || Safe(s[i + 1]))
  }

  predicate IsCode(s: string) {
    s != [] && Joined(s) && Safe(s[0]) && Safe(s[|s| - 1])
  }

  lemma {:induction false} CollapseJoins(s: string, inRun: bool)
    ensures Joined(Collapse(s, inRun))
    ensures inRun && Collapse(s, inRun) != [] ==> Safe(Collapse(s, inRun)[0])
  {
    if s != [] {
      CollapseJoins(s[1..], !Safe(s[0]));
    }
  }

  lemma {:induction false} StripLeftJoined(s: string)
    requires Joined(s)
    ensures Joined(StripLeft(s, Underscore)) && |StripLeft(s, Underscore)| <= |s|
    ensures StripLeft(s, Underscore) != [] ==> Safe(StripLeft(s, Underscore)[0])
  {
    if s != [] && s[0] == '_' {
      StripLeftJoined(s[1..]);
    }
  }

  lemma {:induction false} StripRightJoined(s: string)
    requires Joined(s) && (s != [] ==> Safe(s[0]))
    ensures var t := StripRight(s, Underscore); t == [] || IsCode(t)
    ensures |StripRight(s, Underscore)| <= |s|
  {
    if s != [] && s[|s| - 1] == '_' {
      StripRightJoined(s[..|s| - 1]);
    }
  }

  lemma StripJoined(s: string)
    requires Joined(s)
    ensures var t := Strip(s, Underscore); (t == [] || IsCode(t)) && |t| <= |s|
  {
    StripLeftJoined(s);
    StripRightJoined(StripLeft(s, Underscore));
  }

  /** A seed is a well-formed code; it is within the limit unless the fallback ITEM is longer than it. */
  lemma SeedIsCode(value: string, maxLen: nat)
    ensures IsCode(MakeSeed(value, maxLen))
    ensures |MakeSeed(value, maxLen)| <= maxLen || (maxLen < 4 && MakeSeed(value, maxLen) == "ITEM")
  {
    hide Strip, Collapse, Upper;
    var joined := Collapse(Upper(Strip(value, Space)), false);
    CollapseJoins(Upper(Strip(value, Space)), false);
    StripJoined(joined);
    var seed := Strip(joined, Underscore);
    StripJoined(Prefix(seed, maxLen));
  }

  lemma {:induction false} CodeUnchanged(s: string)
    requires Joined(s)
    ensures Upper(s) == s
    ensures s == [] || Safe(s[0]) ==> Collapse(s, false) == s && Collapse(s, true) == s
    ensures Collapse(s, false) == s
  {
    if s != [] {
      var c, rest := s[0], s[1..];
      assert s == [c] + rest && c in s && forall d :: d in rest ==> d in s;
      CodeUnchanged(rest);
    }
  }

  /** A well-formed code within the limit is its own seed; in particular making a seed again changes nothing. */
  lemma SeedKeepsCodes(s: string, maxLen: nat)
    requires IsCode(s) && |s| <= maxLen
    ensures MakeSeed(s, maxLen) == s
  {
    hide MakeSeed, Strip, Collapse, Upper;
    CodeUnchanged(s);
    StripNothing(s, Space);
    StripNothing(s, Underscore);
    SeedOfFixed(s, maxLen);
  }

  lemma SeedOfFixed(s: string, maxLen: nat)
    requires s != [] && |s| <= maxLen
    requires Strip(s, Space) == s && Upper(s) == s && Collapse(s, false) == s && Strip(s, Underscore) == s
    ensures MakeSeed(s, maxLen) == s
  {
    hide Strip, Collapse, Upper;
  }

  // ----- the words of a seed -------------------------------------------------------

  /** The maximal runs of safe characters, the first one continuing `current`. */
  function WordsAfter(current: string, s: string): seq<string>
    decreases s
  {
    if s == [] then (if current == [] then [] else [current])
    else if Safe(s[0]) then WordsAfter(current + [s[0]], s[1..])
    else (if current == [] then [] else [current]) + WordsAfter([], s[1..])
  }

  function Words(s: string): seq<string> { WordsAfter([], s) }

  lemma {:induction false} CollapseKeepsWords(current: string, s: string, inRun: bool)
    requires inRun ==> current == []
    ensures WordsAfter(current, Collapse(s, inRun)) == WordsAfter(current, s)
    decreases s
  {
    if s != [] {
      if Safe(s[0]) {
        CollapseKeepsWords(current + [s[0]], s[1..], false);
        assert ([s[0]] + Collapse(s[1..], false))[1..] == Collapse(s[1..], false);
      } else {
        CollapseKeepsWords([], s[1..], true);
        var rest := Collapse(s[1..], true);
        if inRun {
          assert Collapse(s, inRun) == rest;
        } else {
          assert Collapse(s, inRun) == "_" + rest && ("_" + rest)[1..] == rest;
        }
      }
    }
  }

  lemma {:induction false} TrailingBreak(current: string, s: string, c: char)
    requires !Safe(c)
    ensures WordsAfter(current, s + [c]) == WordsAfter(current, s)
    decreases s
  {
    if s == [] {
      assert [] + [c] == [c] && [c][1..] == [];
      assert WordsAfter([], []) == [];
    } else {
      assert (s + [c])[1..] == s[1..] + [c];
      TrailingBreak(current + [s[0]], s[1..], c);
      TrailingBreak([], s[1..], c);
    }
  }

  lemma {:induction false} StripRightKeepsWords(s: string, drop: char -> bool)
    requires forall c :: drop(c) ==> !Safe(c)
    ensures Words(StripRight(s, drop)) == Words(s)
  {
    if s != [] && drop(s[|s| - 1]) {
      assert s == s[..|s| - 1] + [s[|s| - 1]];
      TrailingBreak([], s[..|s| - 1], s[|s| - 1]);
      StripRightKeepsWords(s[..|s| - 1], drop);
    }
  }

  lemma {:induction false} StripLeftKeepsWords(s: string, drop: char -> bool)
    requires forall c :: drop(c) ==> !Safe(c)
    ensures Words(StripLeft(s, drop)) == Words(s)
  {
    if s != [] && drop(s[0]) {
      StripLeftKeepsWords(s[1..], drop);
    }
  }

  lemma StripKeepsWords(s: string, drop: char -> bool)
    requires forall c :: drop(c) ==> !Safe(c)
    ensures Words(Strip(s, drop)) == Words(s)
  {
    StripLeftKeepsWords(s, drop);
    StripRightKeepsWords(StripLeft(s, drop), drop);
  }

  lemma {:induction false} UpperAt(s: string)
    ensures |Upper(s)| == |s| && forall i :: 0 <= i < |s| ==> Upper(s)[i] == UpperChar(s[i])
  {
    if s != [] {
      UpperAt(s[1..]);
    }
  }

  /** Upper-casing moves 'a' to 'z' onto 'A' to 'Z' and leaves the rest alone. */
  lemma UpperIs(s: string, i: nat)
    requires i < |s|
    ensures |Upper(s)| == |s|
    ensures Upper(s)[i] as int == if 'a' <= s[i] <= 'z' then s[i] as int - 'a' as int + 'A' as int else s[i] as int
  {
    UpperAt(s);
  }

  lemma UpperKeepsSpace(c: char)
    ensures Space(UpperChar(c)) <==> Space(c)
  {
  }

  /** Trimming blanks before or after upper-casing is the same. */
  lemma {:induction false} UpperStripLeft(s: string)
    ensures Upper(StripLeft(s, Space)) == StripLeft(Upper(s), Space)
  {
    hide Space, UpperChar;
    if s != [] {
      UpperKeepsSpace(s[0]);
      UpperStripLeft(s[1..]);
    }
  }

  lemma {:induction false} UpperStripRight(s: string)
    ensures Upper(StripRight(s, Space)) == StripRight(Upper(s), Space)
  {
    hide Space, UpperChar, Upper;
    UpperAt(s);
    if s != [] {
      UpperKeepsSpace(s[|s| - 1]);
      UpperAt(s[..|s| - 1]);
      assert Upper(s)[..|s| - 1] == Upper(s[..|s| - 1]);
      UpperStripRight(s[..|s| - 1]);
    }
  }

  /** The seed before it is cut to length. */
  function FullSeed(value: string): string {
    Strip(Collapse(Upper(Strip(value, Space)), false), Underscore)
  }

  /** A code is its words joined by underscores, so its words determine it. */
  function Join(words: seq<string>): string {
    if words == [] then [] else if |words| == 1 then words[0] else words[0] + "_" + Join(words[1..])
  }

  lemma JoinCons(word: string, words: seq<string>)
    requires words != []
    ensures Join([word] + words) == word + "_" + Join(words)
  {
    assert ([word] + words)[1..] == words;
  }

  lemma WordContinues(current: string, c: char, rest: string)
    requires Safe(c)
    ensures WordsAfter(current, [c] + rest) == WordsAfter(current + [c], rest)
  {
    assert ([c] + rest)[1..] == rest;
  }

  lemma WordEnds(current: string, c: char, rest: string)
    requires !Safe(c) && current != []
    ensures WordsAfter(current, [c] + rest) == [current] + WordsAfter([], rest)
  {
    assert ([c] + rest)[1..] == rest;
  }

  lemma LastWord(current: string)
    ensures WordsAfter(current, []) == if current == [] then [] else [current]
    ensures Join(WordsAfter(current, [])) == current
  {
  }

  lemma {:induction false} JoinWords(current: string, s: string)
    requires Joined(s) && (s != [] ==> Safe(s[|s| - 1])) && (current == [] ==> s == [] || Safe(s[0]))
    ensures Join(WordsAfter(current, s)) == current + s
    ensures current + s != [] ==> WordsAfter(current, s) != []
    decreases s
  {
    hide *;
    if s == [] {
      LastWord(current);
      assert current + s == current;
    } else {
      var c, rest := s[0], s[1..];
      RestIsJoined(s);
      if Safe(c) {
        JoinWords(current + [c], rest);
        WordContinues(current, c, rest);
        Reassociate(current, c, rest);
      } else {
        JoinWords([], rest);
        WordEnds(current, c, rest);
        JoinCons(current, WordsAfter([], rest));
        Reassociate(current, c, rest);
        NothingBefore(rest);
      }
    }
  }

  lemma Reassociate(a: string, c: char, rest: string)
    ensures a + [c] + rest == a + ([c] + rest)
  {
  }

  lemma NothingBefore(s: string)
    ensures [] + s == s
  {
  }

  lemma RestIsJoined(s: string)
    requires Joined(s) && s != [] && Safe(s[|s| - 1])
    ensures s == [s[0]] + s[1..]
    ensures Joined(s[1..]) && (|s| > 1 ==> Safe(s[1..][|s| - 2]))
    ensures !Safe(s[0]) ==> [s[0]] == "_" && |s| > 1 && Safe(s[1])
  {
    assert s[0] in s && forall c :: c in s[1..] ==> c in s;
  }

  /** What a seed says: the runs of letters and digits of the text, upper-cased, in order, and only those. */
  lemma SeedWords(value: string, maxLen: nat)
    ensures Words(FullSeed(value)) == Words(Upper(value))
    ensures FullSeed(value) == Join(Words(Upper(value)))
    ensures MakeSeed(value, maxLen)
         == if FullSeed(value) == [] || maxLen == 0 then "ITEM"
            else if |FullSeed(value)| <= maxLen then FullSeed(value)
            else if FullSeed(value)[maxLen - 1] == '_' then FullSeed(value)[..maxLen - 1]
            else FullSeed(value)[..maxLen]
  {
    hide Strip, Collapse, Upper, WordsAfter;
    var trimmed, seed := Upper(Strip(value, Space)), FullSeed(value);
    TrimmedWords(value);
    CollapsedWords(trimmed);
    StripKeepsWords(Collapse(trimmed, false), Underscore);
    CollapseJoins(trimmed, false);
    StripJoined(Collapse(trimmed, false));
    JoinWords([], seed);
    if seed != [] && maxLen > 0 {
      CutSeed(seed, maxLen);
    } else {
      NothingToStrip();
    }
  }

  lemma NothingToStrip()
    ensures Strip([], Underscore) == []
  {
  }

  lemma CollapsedWords(s: string)
    ensures Words(Collapse(s, false)) == Words(s)
  {
    CollapseKeepsWords([], s, false);
  }

  lemma TrimmedWords(value: string)
    ensures Words(Upper(Strip(value, Space))) == Words(Upper(value))
  {
    hide Upper, StripLeft, StripRight, Words;
    UpperStripLeft(value);
    UpperStripRight(StripLeft(value, Space));
    StripKeepsWords(Upper(value), Space);
  }

  lemma CutSeed(seed: string, maxLen: nat)
    requires IsCode(seed) && maxLen > 0
    ensures Strip(Prefix(seed, maxLen), Underscore)
         == if |seed| <= maxLen then seed
            else if seed[maxLen - 1] == '_' then seed[..maxLen - 1] else seed[..maxLen]
    ensures Strip(Prefix(seed, maxLen), Underscore) != []
  {
    var cut := Prefix(seed, maxLen);
    assert !Underscore(cut[0]) && cut[|cut| - 1] in cut;
    assert StripLeft(cut, Underscore) == cut;
    if |seed| > maxLen && seed[maxLen - 1] == '_' {
      assert Safe(seed[maxLen - 2]);
      assert cut[..maxLen - 1] == seed[..maxLen - 1];
      StripRightStops(seed[..maxLen - 1], Underscore);
    } else {
      StripRightStops(cut, Underscore);
    }
  }

  // ----- candidates --------------------------------------------------------------

  function Suffix(counter: nat): string { "_" + NatToString(counter) }

  function Candidate(base: string, maxLen: nat, counter: nat): string {
    Prefix(base, maxLen - |Suffix(counter)|) + Suffix(counter)
  }

  /** Truncation never merges two candidates: the digits after the last underscore tell the counter. */
  lemma CandidateInjective(base: string, maxLen: nat, c: nat, d: nat)
    requires Candidate(base, maxLen, c) == Candidate(base, maxLen, d)
    ensures c == d
  {
    hide NatToString, Prefix;
    var x, y := NatToString(c), NatToString(d);
    var p, q := Prefix(base, maxLen - |Suffix(c)|), Prefix(base, maxLen - |Suffix(d)|);
    var s := Candidate(base, maxLen, c);
    assert s == p + ("_" + x) && s == q + ("_" + y);
    AfterMark(s, p, x);
    AfterMark(s, q, y);
    assert |p| == |q|;
    assert x == s[|p| + 1..] && y == s[|q| + 1..];
    DistinctNumerals(c, d);
  }

  lemma AfterMark(s: string, p: string, x: string)
    requires s == p + ("_" + x) && AllDigits(x)
    ensures s[|p|] == '_' && forall j :: |p| < j < |s| ==> s[j] != '_'
  {
    forall j | |p| < j < |s|
      ensures s[j] != '_'
    {
      assert s[j] == x[j - |p| - 1];
      assert x[j - |p| - 1] in x;
    }
  }

  /** A candidate fits the limit exactly when its suffix does. */
  lemma CandidateFits(base: string, maxLen: nat, counter: nat)
    ensures |Candidate(base, maxLen, counter)| <= maxLen <==> |Suffix(counter)| <= maxLen
  {
  }

  function Candidates(base: string, maxLen: nat, n: nat): (cs: set<string>)
  {
    if n == 0 then {} else Candidates(base, maxLen, n - 1) + {Candidate(base, maxLen, n)}
  }

  lemma {:induction false} CandidatesAre(base: string, maxLen: nat, n: nat)
    ensures forall x :: x in Candidates(base, maxLen, n) ==> exists k :: 1 <= k <= n && x == Candidate(base, maxLen, k)
    ensures |Candidates(base, maxLen, n)| == n
  {
    hide Candidate;
    if n > 0 {
      CandidatesAre(base, maxLen, n - 1);
      if Candidate(base, maxLen, n) in Candidates(base, maxLen, n - 1) {
        var k :| 1 <= k <= n - 1 && Candidate(base, maxLen, n) == Candidate(base, maxLen, k);
        CandidateInjective(base, maxLen, n, k);
      }
    }
  }

  /** If the first n candidates all exist, there are at least n existing codes. */
  lemma Pigeonhole(existing: set<string>, base: string, maxLen: nat, n: nat)
    requires forall k :: 1 <= k <= n ==> Candidate(base, maxLen, k) in existing
    ensures n <= |existing|
  {
    hide Candidate;
    CandidatesAre(base, maxLen, n);
    Fits(Candidates(base, maxLen, n), existing);
  }

  lemma {:induction false} Fits(a: set<string>, b: set<string>)
    requires a <= b
    ensures |a| <= |b|
    decreases a
  {
    if x :| x in a {
      Fits(a - {x}, b - {x});
    }
  }

  /** The first free one of: the base, then its candidates. */
  ghost predicate FirstFree(existing: set<string>, base: string, maxLen: nat, counter: nat, code: string) {
    && code !in existing
    && code == (if counter == 0 then base else Candidate(base, maxLen, counter))
    && (counter > 0 ==> base in existing)
    && forall k :: 1 <= k < counter ==> Candidate(base, maxLen, k) in existing
  }

  /** `_unique_code_for_model`: stops within one more candidate than there are codes, at the first free one,
      and within the limit whenever the numerals up to that many fit it. */
  method UniqueCodeFor(existing: set<string>, seed: string, maxLen: nat) returns (code: string)
    ensures exists counter ::
              0 <= counter <= |existing| + 1 && FirstFree(existing, Prefix(seed, maxLen), maxLen, counter, code)
    ensures |Suffix(|existing| + 1)| <= maxLen ==> |code| <= maxLen
  {
    hide Candidate, Suffix;
    var base := Prefix(seed, maxLen);
    code := base;
    var counter := 1;
    while code in existing
      invariant 1 <= counter <= |existing| + 2
      invariant code == if counter == 1 then base else Candidate(base, maxLen, counter - 1)
      invariant counter > 1 ==> base in existing
      invariant forall k :: 1 <= k < counter - 1 ==> Candidate(base, maxLen, k) in existing
      decreases |existing| + 2 - counter
    {
      Pigeonhole(existing, base, maxLen, counter - 1);
      code := MakeCandidate(base, maxLen, counter);
      counter := counter + 1;
    }
    assert FirstFree(existing, base, maxLen, counter - 1, code);
    if counter > 1 {
      CandidateFits(base, maxLen, counter - 1);
      SuffixMonotone(counter - 1, |existing| + 1);
    }
  }

  /** The loop body: cut the base to make room for the suffix. */
  method MakeCandidate(base: string, maxLen: nat, counter: nat) returns (code: string)
    ensures code == Candidate(base, maxLen, counter)
  {
    var suffix := "_" + NatToString(counter);
    code := Prefix(base, maxLen - |suffix|) + suffix;
  }

  lemma SuffixMonotone(m: nat, n: nat)
    requires m <= n
    ensures |Suffix(m)| <= |Suffix(n)|
  {
    LengthMonotone(m, n);
  }
}
