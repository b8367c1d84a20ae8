/**
 * How the bank reconciliation engine scores a target against a transaction
 * (src/modules/banking-enterprise/banking-enterprise.service.ts). Amounts are
 * integer cents, dates integer milliseconds, scores exact reals.
 */
module CandidateScoring {
  import opened Entities
  import opened Rounding
  import opened Text

  /** The word characters of the expression that splits descriptions. */
  predicate WordChar(c: char) {
    'a' <= c <= 'z' || 'A' <= c <= 'Z' || '0' <= c <= '9' || c == '_'
  }

  /** The words of s, given the letters of a word already begun. */
  function WordsFrom(s: string, begun: string): set<string>
    decreases |s|
  {
    if s == "" then Finished(begun)
    else if WordChar(s[0]) then WordsFrom(s[1..], begun + [s[0]])
    else Finished(begun) + WordsFrom(s[1..], "")
  }

  function Finished(word: string): set<string> {
    if word == "" then {} else {word}
  }

  function Words(s: string): set<string> {
    WordsFrom(s, "")
  }

  /** The score of two lower-cased descriptions. */
  function DescriptionScore(a: string, b: string): int {
    if a == "" || b == "" then 0
    else if Contains(a, b) || Contains(b, a) then 20
    else if |Words(a) * Words(b)| >= 4 then 20
    else 5 * |Words(a) * Words(b)|
  }

  lemma CommonStep(seen: set<string>, b: set<string>, token: string)
    requires token !in seen
    ensures |(seen + {token}) * b| == |seen * b| + if token in b then 1 else 0
  {
    if token in b {
      assert (seen + {token}) * b == seen * b + {token};
    } else {
      assert (seen + {token}) * b == seen * b;
    }
  }

  method CalculateDescriptionScore(a: string, b: string) returns (score: int)
    ensures score == DescriptionScore(a, b)
  {
    if a == "" || b == "" { return 0; }
    if Contains(a, b) || Contains(b, a) { return 20; }
    var aTokens, bTokens := Words(a), Words(b);
    var common := 0;
    var seen: set<string> := {};
    while seen != aTokens
      invariant seen <= aTokens
      invariant common == |seen * bTokens|
      decreases aTokens - seen
    {
      assert !(aTokens <= seen);
      var token :| token in aTokens && token !in seen;
      CommonStep(seen, bTokens, token);
      seen := seen + {token};
      if token in bTokens { common := common + 1; }
    }
    if common == 0 { return 0; }
    score := if common * 5 < 20 then common * 5 else 20;
  }

  /** The order of the two descriptions does not matter. */
  lemma DescriptionScoreSymmetric(a: string, b: string)
    ensures DescriptionScore(a, b) == DescriptionScore(b, a)
  {
    assert Words(a) * Words(b) == Words(b) * Words(a);
  }

  /** Word characters from i up to j, with none on either side. */
  ghost predicate MaximalRun(s: string, i: int, j: int) {
    && 0 <= i < j <= |s|
    && (forall k :: i <= k < j ==> WordChar(s[k]))
    && (i > 0 ==> !WordChar(s[i - 1]))
    && (j < |s| ==> !WordChar(s[j]))
  }

  lemma {:induction false} WordsFromAreRuns(s: string, n: nat, m: nat, w: string)
    requires n <= m <= |s|
    requires forall k :: n <= k < m ==> WordChar(s[k])
    requires n > 0 ==> !WordChar(s[n - 1])
    ensures w in WordsFrom(s[m..], s[n..m]) <==> exists i, j :: n <= i && MaximalRun(s, i, j) && s[i..j] == w
    decreases |s| - m
  {
    if m == |s| {
      if n < m && w == s[n..m] { assert MaximalRun(s, n, m); }
    } else if WordChar(s[m]) {
      assert s[n..m] + [s[m]] == s[n..m + 1];
      assert s[m..][1..] == s[m + 1..];
      WordsFromAreRuns(s, n, m + 1, w);
    } else {
      assert s[m..][1..] == s[m + 1..];
      assert s[m + 1..m + 1] == "";
      WordsFromAreRuns(s, m + 1, m + 1, w);
      if n < m && w == s[n..m] { assert MaximalRun(s, n, m); }
      forall i, j | n <= i && MaximalRun(s, i, j) && s[i..j] == w
        ensures w in Finished(s[n..m]) + WordsFrom(s[m + 1..], "")
      {
        if i <= m {
          assert i < m && j <= m;
          assert i == n && j == m;
        }
      }
    }
  }

  /** The words of s are exactly its maximal runs of word characters. */
  lemma WordsAreRuns(s: string, w: string)
    ensures w in Words(s) <==> exists i, j :: MaximalRun(s, i, j) && s[i..j] == w
  {
    WordsFromAreRuns(s, 0, 0, w);
    assert s[0..] == s;
  }

  /** Digits, capitals, the underscore and small letters, by their codes. */
  lemma WordCharsAre(c: char)
    ensures WordChar(c)
       <==> 48 <= c as int <= 57 || 65 <= c as int <= 90 || c as int == 95 || 97 <= c as int <= 122
  {
  }

  /** Ten points need two common words, or one description inside the other; five need one word. */
  lemma DescriptionScoreMeans(a: string, b: string)
    ensures DescriptionScore(a, b) >= 10
       <==> a != "" && b != "" && (Contains(a, b) || Contains(b, a) || |Words(a) * Words(b)| >= 2)
    ensures DescriptionScore(a, b) >= 5
       <==> a != "" && b != "" && (Contains(a, b) || Contains(b, a) || |Words(a) * Words(b)| >= 1)
  {
  }

  function Max(x: real, y: real): real { if x < y then y else x }

  function Min(x: real, y: real): real { if x < y then x else y }

  datatype Tolerance = Tolerance(cents: nat, days: nat)

  function AmountScore(diff: nat, tolerance: Tolerance): real {
    if diff <= tolerance.cents then 60.0 else Max(0.0, 60.0 - diff as real / 100.0)
  }

  function Days(ms: nat): real {
    ms as real / DAY_MS as real
  }

  function DateScore(diff: nat, tolerance: Tolerance): real {
    if Days(diff) <= tolerance.days as real then Max(0.0, 20.0 - Days(diff)) else 0.0
  }

  function CandidateScore(amountDiff: nat, dateDiff: nat, description: int, tolerance: Tolerance): real {
    Min(100.0, Round2(AmountScore(amountDiff, tolerance) + DateScore(dateDiff, tolerance) + description as real))
  }

  lemma ScoreBounds(amountDiff: nat, dateDiff: nat, a: string, b: string, tolerance: Tolerance)
    ensures DescriptionScore(a, b) in {0, 5, 10, 15, 20}
    ensures 0.0 <= CandidateScore(amountDiff, dateDiff, DescriptionScore(a, b), tolerance) <= 100.0
  {
    var n := |Words(a) * Words(b)|;
    assert n >= 4 || n == 3 || n == 2 || n == 1 || n == 0;
  }

  /** The score a candidate needs to be reconciled without a person. */
  const AUTO_SCORE := 70.0

  /**
   * A candidate whose amount is within tolerance reaches the automatic score in
   * exactly these cases: two common words or one description inside the other;
   * or a date within tolerance and at most 10.005 days away, 15.005 with one
   * common word.
   */
  lemma AutomaticMatchCondition(amountDiff: nat, dateDiff: nat, a: string, b: string, tolerance: Tolerance)
    requires amountDiff <= tolerance.cents
    ensures var d := DescriptionScore(a, b);
      CandidateScore(amountDiff, dateDiff, d, tolerance) >= AUTO_SCORE
      <==> d >= 10 || (Days(dateDiff) <= tolerance.days as real && Days(dateDiff) <= 10.005 + d as real)
  {
    ScoreBounds(amountDiff, dateDiff, a, b, tolerance);
    var d := DescriptionScore(a, b);
    var sum := 60.0 + DateScore(dateDiff, tolerance) + d as real;
    assert Round2(sum) >= 70.0 <==> sum >= 69.995;
  }

  /** Rounding keeps the order, and keeps values a hundredth apart a hundredth apart. */
  lemma Round2Keeps(x: real, y: real)
    requires 0.0 <= x <= y
    ensures Round2(x) <= Round2(y)
    ensures x + 0.01 <= y ==> Round2(x) < Round2(y)
  {
    assert x + 0.01 <= y ==> (x * 100.0 + 0.5).Floor + 1 <= (y * 100.0 + 0.5).Floor;
  }

  /** Two targets of accepted amount and equal description score, both in reach: a day farther costs a point. */
  lemma DayFartherCostsAPoint(amount1: nat, ms1: nat, amount2: nat, ms2: nat, description: int, tolerance: Tolerance)
    requires amount1 <= tolerance.cents && amount2 <= tolerance.cents && 0 <= description <= 20
    requires ms1 <= tolerance.days * 86_400_000 && ms2 <= tolerance.days * 86_400_000
    requires ms1 <= 1_728_000_000 && ms2 <= 1_728_000_000
    ensures var costs := CandidateScore(amount1, ms1, description, tolerance)
                         - CandidateScore(amount2, ms2, description, tolerance);
      -0.01 <= costs - (ms2 - ms1) as real / 86_400_000.0 <= 0.01
  {
    InReach(ms1, tolerance);
    InReach(ms2, tolerance);
    Round2Close(60.0 + DateScore(ms1, tolerance) + description as real);
    Round2Close(60.0 + DateScore(ms2, tolerance) + description as real);
  }

  lemma InReach(ms: nat, tolerance: Tolerance)
    ensures Days(ms) <= tolerance.days as real <==> ms <= tolerance.days * 86_400_000
    ensures Days(ms) <= 20.0 <==> ms <= 1_728_000_000
    ensures Days(ms) * 86_400_000.0 == ms as real
  {
  }

  /**
   * Of two targets of accepted amount and equal description score, one farther by a hundredth of a day
   * scores less than a nearer one in reach.
   */
  lemma FartherScoresLess(amount1: nat, ms1: nat, amount2: nat, ms2: nat, description: int, tolerance: Tolerance)
    requires amount1 <= tolerance.cents && amount2 <= tolerance.cents && 0 <= description <= 20
    requires ms2 <= tolerance.days * 86_400_000 && ms2 <= 1_727_568_000 && ms2 + 864_000 <= ms1
    ensures CandidateScore(amount1, ms1, description, tolerance) < CandidateScore(amount2, ms2, description, tolerance)
  {
    InReach(ms1, tolerance);
    InReach(ms2, tolerance);
    var sum1 := 60.0 + DateScore(ms1, tolerance) + description as real;
    var sum2 := 60.0 + DateScore(ms2, tolerance) + description as real;
    if ms1 <= tolerance.days * 86_400_000 && ms1 <= 1_728_000_000 {
      assert sum1 + 0.01 <= sum2;
      Round2Keeps(sum1, sum2);
    } else {
      assert sum1 == 60.0 + description as real && sum1 + 0.005 <= sum2;
      assert Round2(sum1) == sum1 < Round2(sum2);
    }
  }

  /** Outside the amount tolerance a unit of currency farther costs a point, until the amount counts for nothing. */
  lemma AmountFartherCostsAPoint(amount1: nat, amount2: nat, ms: nat, description: int, tolerance: Tolerance)
    requires tolerance.cents < amount1 <= 6_000 && tolerance.cents < amount2 && 0 <= description <= 20
    ensures var costs := CandidateScore(amount1, ms, description, tolerance)
                         - CandidateScore(amount2, ms, description, tolerance);
      && (amount2 <= 6_000 ==> -0.01 <= costs - (amount2 - amount1) as real / 100.0 <= 0.01)
      && (amount2 > 6_000 ==> -0.01 <= costs - (6_000 - amount1) as real / 100.0 <= 0.01)
  {
    Round2Close(AmountScore(amount1, tolerance) + DateScore(ms, tolerance) + description as real);
    Round2Close(AmountScore(amount2, tolerance) + DateScore(ms, tolerance) + description as real);
  }

  /** Within the hundredth the scores can tie, and the newer target goes first though it is farther. */
  lemma FartherCanTie()
    ensures CandidateScore(0, 60_000, 0, Tolerance(5, 15)) == CandidateScore(0, 0, 0, Tolerance(5, 15))
  {
    assert (79.9993 * 100.0 + 0.5).Floor == 8000;
  }
}
