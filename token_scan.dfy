/** The scan `preg_match_all('#\{\w+\}#', pattern)` that finds the `{name}`
    placeholders of a route's variable pattern. PCRE tries a match at each
    position from left to right; after a match it resumes just past it, after a
    failure at the next character. Word characters are the ASCII letters,
    digits and the underscore. */
module TokenScan {

  predicate IsWordChar(c: char) {
    ('a' <= c <= 'z') || ('A' <= c <= 'Z') || ('0' <= c <= '9') || c == '_'
  }

  /** A whole string matching `\{\w+\}`. */
  predicate IsToken(t: string) {
    |t| >= 3 && t[0] == '{' && t[|t| - 1] == '}' &&
    forall k :: 0 < k < |t| - 1 ==> IsWordChar(t[k])
  }

  /** The end of the longest run of word characters starting at `j`
      (what the greedy `\w+` consumes). */
  function WordRunEnd(p: string, j: nat): (e: nat)
    requires j <= |p|
    ensures j <= e <= |p|
    ensures forall k :: j <= k < e ==> IsWordChar(p[k])
    ensures e < |p| ==> !IsWordChar(p[e])
    decreases |p| - j
  {
    if j < |p| && IsWordChar(p[j]) then WordRunEnd(p, j + 1) else j
  }

  /** Every run of word characters that stops at `e` ends at `e`. */
  lemma WordRunEndAt(p: string, j: nat, e: nat)
    requires j <= e < |p|
    requires forall k :: j <= k < e ==> IsWordChar(p[k])
    requires !IsWordChar(p[e])
    ensures WordRunEnd(p, j) == e
  {
  }

  /** Whether `\{\w+\}` matches at position `i`. */
  predicate MatchAt(p: string, i: nat)
    requires i < |p|
  {
    var e := WordRunEnd(p, i + 1);
    p[i] == '{' && e > i + 1 && e < |p| && p[e] == '}'
  }

  /** The matches found by scanning from position `i`, in order. */
  function MatchesFrom(p: string, i: nat): (ms: seq<string>)
    requires i <= |p|
    ensures forall k :: 0 <= k < |ms| ==> IsToken(ms[k])
    decreases |p| - i
  {
    if i == |p| then []
    else if MatchAt(p, i) then
      var e := WordRunEnd(p, i + 1);
      [p[i..e + 1]] + MatchesFrom(p, e + 1)
    else MatchesFrom(p, i + 1)
  }

  /** All matches of `\{\w+\}` in `p`, left to right. */
  function Matches(p: string): seq<string> {
    MatchesFrom(p, 0)
  }

  /** `substr($match, 1, -1)`: the placeholder name inside the braces. */
  function TokenName(t: string): string
    requires |t| >= 2
  {
    t[1..|t| - 1]
  }

  /** The names inside a list of matches, one per match, in order. */
  function NamesOf(ms: seq<string>): seq<string>
    requires forall k :: 0 <= k < |ms| ==> |ms[k]| >= 2
  {
    if ms == [] then [] else [TokenName(ms[0])] + NamesOf(ms[1..])
  }

  /** The placeholder names of `p`, in order of appearance, repeats kept. */
  function TokenNames(p: string): seq<string> {
    NamesOf(Matches(p))
  }

  /** The `k`-th name is the name inside the `k`-th match. */
  lemma {:induction false} NamesOfIndex(ms: seq<string>)
    requires forall k :: 0 <= k < |ms| ==> |ms[k]| >= 2
    ensures |NamesOf(ms)| == |ms|
    ensures forall k :: 0 <= k < |ms| ==> NamesOf(ms)[k] == TokenName(ms[k])
    decreases |ms|
  {
    if ms != [] {
      NamesOfIndex(ms[1..]);
      forall k | 1 <= k < |ms| ensures NamesOf(ms)[k] == TokenName(ms[k]) {
        assert ms[1..][k - 1] == ms[k];
      }
    }
  }

  /** Every occurrence of a `{name}` placeholder in the pattern is found,
      from any scan position at or before it. */
  lemma {:induction false} MatchesFromComplete(p: string, i0: nat, i: nat, j: nat)
    requires i0 <= i < j <= |p|
    requires IsToken(p[i..j])
    ensures p[i..j] in MatchesFrom(p, i0)
    decreases |p| - i0
  {
    var t := p[i..j];
    assert t[0] == p[i] && t[|t| - 1] == p[j - 1];
    if i0 == i {
      forall k | i + 1 <= k < j - 1 ensures IsWordChar(p[k]) {
        assert p[k] == t[k - i];
      }
      WordRunEndAt(p, i + 1, j - 1);
      assert MatchAt(p, i);
    } else if MatchAt(p, i0) {
      var e := WordRunEnd(p, i0 + 1);
      assert e <= i;
      MatchesFromComplete(p, e + 1, i, j);
    } else {
      MatchesFromComplete(p, i0 + 1, i, j);
    }
  }

  /** `m` occurs in `p` at position `i`. */
  predicate OccursAt(m: string, p: string, i: int) {
    0 <= i && i + |m| <= |p| && p[i..i + |m|] == m
  }

  /** Everything the scan reports is a `{name}` placeholder that occurs in
      the pattern at or after the scan position. */
  lemma {:induction false} MatchesFromSound(p: string, i0: nat, m: string)
    requires i0 <= |p|
    requires m in MatchesFrom(p, i0)
    ensures IsToken(m)
    ensures exists i :: i0 <= i && OccursAt(m, p, i)
    decreases |p| - i0
  {
    if MatchAt(p, i0) {
      var e := WordRunEnd(p, i0 + 1);
      if m == p[i0..e + 1] {
        assert OccursAt(m, p, i0);
      } else {
        MatchesFromSound(p, e + 1, m);
      }
    } else {
      MatchesFromSound(p, i0 + 1, m);
    }
  }

  /** The scan finds exactly the placeholders of the pattern: a string is
      reported if and only if it matches `\{\w+\}` and occurs in `p`. */
  lemma MatchesExactly(p: string, m: string)
    ensures m in Matches(p) <==> IsToken(m) && exists i :: OccursAt(m, p, i)
  {
    if m in Matches(p) {
      MatchesFromSound(p, 0, m);
    }
    if IsToken(m) && exists i :: OccursAt(m, p, i) {
      var i :| OccursAt(m, p, i);
      MatchesFromComplete(p, 0, i, i + |m|);
    }
  }

  // ---------------------------------------------------------------------
  // The scan's order, against a definition by position

  /** The substring `p[i..j]` matches `\{\w+\}`, read off `p` directly. */
  predicate IsTokenAt(p: string, i: nat, j: nat)
    requires i < j <= |p|
  {
    j - i >= 3 && p[i] == '{' && p[j - 1] == '}' && forall k :: i < k < j - 1 ==> IsWordChar(p[k])
  }

  /** Reading off `p` agrees with matching the substring. */
  lemma TokenAtSlice(p: string, i: nat, j: nat)
    requires i < j <= |p|
    ensures IsTokenAt(p, i, j) <==> IsToken(p[i..j])
  {
    var t := p[i..j];
    assert t[0] == p[i] && t[|t| - 1] == p[j - 1];
    if IsToken(t) {
      forall k | i < k < j - 1 ensures IsWordChar(p[k]) {
        assert p[k] == t[k - i];
      }
    }
    if IsTokenAt(p, i, j) {
      forall k | 0 < k < |t| - 1 ensures IsWordChar(t[k]) {
        assert t[k] == p[i + k];
      }
    }
  }

  /** The placeholders that start at `i` and end at `j` or later, shortest
      first. */
  function TokensStartingAt(p: string, i: nat, j: nat): seq<string>
    requires i < j <= |p| + 1
    decreases |p| + 1 - j
  {
    if j == |p| + 1 then []
    else (if IsTokenAt(p, i, j) then [p[i..j]] else []) + TokensStartingAt(p, i, j + 1)
  }

  /** Every substring of `p` from position `i` on that is a placeholder,
      ordered by where it starts. */
  function Occurrences(p: string, i: nat): seq<string>
    requires i <= |p|
    decreases |p| - i
  {
    if i == |p| then [] else TokensStartingAt(p, i, i + 1) + Occurrences(p, i + 1)
  }

  /** A placeholder at `i..j` is the match the scan finds at `i`: the greedy
      word run stops at its closing brace. */
  lemma TokenAtEndsRun(p: string, i: nat, j: nat)
    requires i < j <= |p|
    ensures IsTokenAt(p, i, j) ==> MatchAt(p, i) && j == WordRunEnd(p, i + 1) + 1
  {
    if IsTokenAt(p, i, j) {
      WordRunEndAt(p, i + 1, j - 1);
    }
  }

  /** Nothing starting at `i` is a placeholder if the scan does not match there. */
  lemma {:induction false} TokensStartingAtNoMatch(p: string, i: nat, j: nat)
    requires i < |p| && i < j <= |p| + 1 && !MatchAt(p, i)
    ensures TokensStartingAt(p, i, j) == []
    decreases |p| + 1 - j
  {
    if j <= |p| {
      TokenAtEndsRun(p, i, j);
      TokensStartingAtNoMatch(p, i, j + 1);
    }
  }

  /** A placeholder starting at `i` cannot reach past a non-word character at
      `e`. */
  lemma {:induction false} TokensStartingAtPast(p: string, i: nat, j: nat, e: nat)
    requires i < e && e + 1 < j <= |p| + 1
    requires !IsWordChar(p[e])
    ensures TokensStartingAt(p, i, j) == []
    decreases |p| + 1 - j
  {
    if j <= |p| {
      TokensStartingAtPast(p, i, j + 1, e);
    }
  }

  /** When `p[i..e + 1]` is a placeholder, it is the only one starting at `i`
      and ending at `j` or later, for any `j` up to its end. */
  lemma {:induction false} TokensStartingAtUpTo(p: string, i: nat, j: nat, e: nat)
    requires i < j <= e + 1 <= |p| && IsTokenAt(p, i, e + 1)
    ensures TokensStartingAt(p, i, j) == [p[i..e + 1]]
    decreases e + 1 - j
  {
    if j == e + 1 {
      TokensStartingAtPast(p, i, j + 1, e);
    } else {
      assert !IsTokenAt(p, i, j) by {
        if j - i >= 3 {
          assert IsWordChar(p[j - 1]);
        }
      }
      TokensStartingAtUpTo(p, i, j + 1, e);
    }
  }

  /** A position that holds no opening brace starts no placeholder. */
  lemma {:induction false} TokensStartingAtNoBrace(p: string, i: nat, j: nat)
    requires i < |p| && i < j <= |p| + 1 && p[i] != '{'
    ensures TokensStartingAt(p, i, j) == []
    decreases |p| + 1 - j
  {
    if j <= |p| {
      TokensStartingAtNoBrace(p, i, j + 1);
    }
  }

  /** Positions without an opening brace start no placeholder. */
  lemma {:induction false} OccurrencesSkip(p: string, a: nat, b: nat)
    requires a <= b <= |p|
    requires forall k :: a <= k < b ==> p[k] != '{'
    ensures Occurrences(p, a) == Occurrences(p, b)
    decreases b - a
  {
    if a < b {
      TokensStartingAtNoBrace(p, a, a + 1);
      OccurrencesSkip(p, a + 1, b);
    }
  }

  /** Where the scan matches, the occurrences are that match and then the
      occurrences after it: no placeholder starts inside a match, since a
      match holds no opening brace after its first character. */
  lemma OccurrencesAtMatch(p: string, i: nat)
    requires i < |p| && MatchAt(p, i)
    ensures Occurrences(p, i) == [p[i..WordRunEnd(p, i + 1) + 1]] + Occurrences(p, WordRunEnd(p, i + 1) + 1)
  {
    var e := WordRunEnd(p, i + 1);
    TokensStartingAtUpTo(p, i, i + 1, e);
    OccurrencesSkip(p, i + 1, e + 1);
  }

  /** Where the scan does not match, no placeholder starts. */
  lemma OccurrencesAtNoMatch(p: string, i: nat)
    requires i < |p| && !MatchAt(p, i)
    ensures Occurrences(p, i) == Occurrences(p, i + 1)
  {
    TokensStartingAtNoMatch(p, i, i + 1);
  }

  /** Where the scan resumes after trying position `i`. */
  function NextScan(p: string, i: nat): (n: nat)
    requires i < |p|
    ensures i < n <= |p|
  {
    if MatchAt(p, i) then WordRunEnd(p, i + 1) + 1 else i + 1
  }

  /** Agreement of scan and occurrences from where the scan resumes extends
      back to the position it tried. */
  lemma InOrderStep(p: string, i: nat)
    requires i < |p|
    requires MatchesFrom(p, NextScan(p, i)) == Occurrences(p, NextScan(p, i))
    ensures MatchesFrom(p, i) == Occurrences(p, i)
  {
    if MatchAt(p, i) {
      InOrderAtMatch(p, i);
    } else {
      InOrderAtNoMatch(p, i);
    }
  }

  /** A match at `i`: the scan and the occurrences both take it and go on
      just past it. */
  lemma InOrderAtMatch(p: string, i: nat)
    requires i < |p| && MatchAt(p, i)
    requires MatchesFrom(p, WordRunEnd(p, i + 1) + 1) == Occurrences(p, WordRunEnd(p, i + 1) + 1)
    ensures MatchesFrom(p, i) == Occurrences(p, i)
  {
    OccurrencesAtMatch(p, i);
  }

  /** No match at `i`: the scan and the occurrences both go on at `i + 1`. */
  lemma InOrderAtNoMatch(p: string, i: nat)
    requires i < |p| && !MatchAt(p, i)
    requires MatchesFrom(p, i + 1) == Occurrences(p, i + 1)
    ensures MatchesFrom(p, i) == Occurrences(p, i)
  {
    OccurrencesAtNoMatch(p, i);
  }

  /** The scan reports every placeholder once, in order of position: exactly
      the occurrences, so placeholders never overlap and none is skipped. */
  lemma {:induction false} MatchesFromInOrder(p: string, i: nat)
    requires i <= |p|
    ensures MatchesFrom(p, i) == Occurrences(p, i)
    decreases |p| - i
  {
    if i < |p| {
      MatchesFromInOrder(p, NextScan(p, i));
      InOrderStep(p, i);
    }
  }

  /** Cutting the braces off a slice is the inner slice. */
  lemma TokenNameOfSlice(p: string, i: nat, j: nat)
    requires i + 2 <= j <= |p|
    ensures TokenName(p[i..j]) == p[i + 1..j - 1]
  {
    var t := p[i..j];
    assert |TokenName(t)| == j - i - 2;
    forall k | 0 <= k < j - i - 2 ensures TokenName(t)[k] == p[i + 1 + k] {
      assert TokenName(t)[k] == t[k + 1];
    }
  }

  /** Each placeholder `{name}` in the pattern contributes `name`. */
  lemma TokenNamesComplete(p: string, i: nat, j: nat)
    requires i < j <= |p|
    requires IsToken(p[i..j])
    ensures p[i + 1..j - 1] in TokenNames(p)
  {
    MatchesFromComplete(p, 0, i, j);
    var ms := Matches(p);
    NamesOfIndex(ms);
    var k :| 0 <= k < |ms| && ms[k] == p[i..j];
    TokenNameOfSlice(p, i, j);
    assert TokenNames(p)[k] == TokenName(ms[k]);
  }

  /** Each name found is a non-empty run of word characters that occurs in
      the pattern between braces. */
  lemma TokenNamesSound(p: string, n: string)
    requires n in TokenNames(p)
    ensures IsToken("{" + n + "}")
    ensures exists i :: OccursAt("{" + n + "}", p, i)
  {
    var ms := Matches(p);
    NamesOfIndex(ms);
    var k :| 0 <= k < |ms| && TokenNames(p)[k] == n;
    var m := ms[k];
    assert m in ms;
    MatchesFromSound(p, 0, m);
    BracedName(m);
  }

  /** A placeholder is its name between braces. */
  lemma BracedName(t: string)
    requires |t| >= 2 && t[0] == '{' && t[|t| - 1] == '}'
    ensures t == "{" + TokenName(t) + "}"
  {
    var n := TokenName(t);
    assert |t| == |n| + 2;
    forall c | 0 <= c < |t| ensures t[c] == ("{" + n + "}")[c] {
      if 0 < c < |t| - 1 {
        assert n[c - 1] == t[c];
      }
    }
  }

  /** A name is found if and only if it is a non-empty run of word characters
      that occurs in the pattern between braces. */
  lemma TokenNamesExactly(p: string, n: string)
    ensures n in TokenNames(p) <==> IsToken("{" + n + "}") && exists i :: OccursAt("{" + n + "}", p, i)
  {
    var t := "{" + n + "}";
    if n in TokenNames(p) {
      TokenNamesSound(p, n);
    }
    if IsToken(t) && exists i :: OccursAt(t, p, i) {
      var i :| OccursAt(t, p, i);
      TokenNamesComplete(p, i, i + |t|);
      TokenNameOfSlice(p, i, i + |t|);
      assert t[1..|t| - 1] == n;
      assert p[i..i + |t|] == t;
    }
  }

  /** The greedy `\w+` as a loop: advance while the character is a word
      character. */
  method ScanWordRun(p: string, j: nat) returns (e: nat)
    requires j <= |p|
    ensures e == WordRunEnd(p, j)
  {
    e := j;
    while e < |p| && IsWordChar(p[e])
      invariant j <= e <= |p|
      invariant WordRunEnd(p, e) == WordRunEnd(p, j)
      decreases |p| - e
    {
      e := e + 1;
    }
  }

  /** `preg_match_all` as a left-to-right scan over the characters. */
  method MatchAll(p: string) returns (matches: seq<string>)
    ensures matches == Matches(p)
  {
    matches := [];
    var i := 0;
    while i < |p|
      invariant 0 <= i <= |p|
      invariant matches + MatchesFrom(p, i) == Matches(p)
      decreases |p| - i
    {
      var e := i + 1;
      if p[i] == '{' {
        e := ScanWordRun(p, i + 1);
      }
      if p[i] == '{' && e > i + 1 && e < |p| && p[e] == '}' {
        matches := matches + [p[i..e + 1]];
        i := e + 1;
      } else {
        i := i + 1;
      }
    }
  }
}
