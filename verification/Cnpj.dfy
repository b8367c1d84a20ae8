/**
 * Check digits of the company registry number, in its numeric and alphanumeric
 * forms (src/common/validators/cnpj.util.ts).
 */
module Cnpj {

  const FIRST_WEIGHTS := [5, 4, 3, 2, 9, 8, 7, 6, 5, 4, 3, 2]
  const SECOND_WEIGHTS := [6, 5, 4, 3, 2, 9, 8, 7, 6, 5, 4, 3, 2]
  const BASE_LENGTH := 12

  predicate IsDigit(c: char) {
    '0' <= c <= '9'
  }

  predicate IsUpper(c: char) {
    'A' <= c <= 'Z'
  }

  predicate IsLower(c: char) {
    'a' <= c <= 'z'
  }

  predicate IsAlphanumeric(c: char) {
    IsDigit(c) || IsUpper(c) || IsLower(c)
  }

  function Upper(c: char): char {
    if IsLower(c) then c - 'a' + 'A' else c
  }

  /** Letters and digits only, in upper case. */
  function Normalize(s: string): string {
    if s == "" then ""
    else Normalize(s[..|s| - 1]) + if IsAlphanumeric(s[|s| - 1]) then [Upper(s[|s| - 1])] else ""
  }

  function CharacterValue(c: char): int {
    c as int - 48
  }

  function DigitChar(d: int): char
    requires 0 <= d <= 9
  {
    '0' + d as char
  }

  /** Weighted sum of the values of the characters; a missing one counts as zero. */
  function WeightedSum(value: string, weights: seq<int>): int {
    if weights == [] then 0
    else
      var n := |weights| - 1;
      WeightedSum(value, weights[..n]) + (if n < |value| then CharacterValue(value[n]) else 0) * weights[n]
  }

  function CheckDigit(sum: int): (d: int)
    ensures 0 <= d <= 9
  {
    var remainder := sum % 11;
    if remainder < 2 then 0 else 11 - remainder
  }

  function FirstDigit(cnpj: string): int {
    CheckDigit(WeightedSum(cnpj, FIRST_WEIGHTS))
  }

  function SecondDigit(cnpj: string): int
    requires |cnpj| >= BASE_LENGTH
  {
    CheckDigit(WeightedSum(cnpj[..BASE_LENGTH] + [DigitChar(FirstDigit(cnpj))], SECOND_WEIGHTS))
  }

  /** Twelve letters or digits and two digits. */
  predicate WellFormed(cnpj: string) {
    && |cnpj| == BASE_LENGTH + 2
    && (forall i :: 0 <= i < BASE_LENGTH ==> IsDigit(cnpj[i]) || IsUpper(cnpj[i]))
    && IsDigit(cnpj[12]) && IsDigit(cnpj[13])
  }

  predicate AllEqual(cnpj: string) {
    forall i :: 0 <= i < |cnpj| ==> cnpj[i] == cnpj[0]
  }

  predicate DigitsMatch(cnpj: string)
    requires |cnpj| == BASE_LENGTH + 2
  {
    CharacterValue(cnpj[12]) == FirstDigit(cnpj) && CharacterValue(cnpj[13]) == SecondDigit(cnpj)
  }

  predicate ZeroDigits(cnpj: string)
    requires |cnpj| == BASE_LENGTH + 2
  {
    cnpj[12] == '0' && cnpj[13] == '0'
  }

  predicate IsValid(value: string) {
    var cnpj := Normalize(value);
    WellFormed(cnpj) && !AllEqual(cnpj) && DigitsMatch(cnpj)
  }

  // Punctuation.

  lemma {:induction false} NormalizeConcat(s: string, t: string)
    ensures Normalize(s + t) == Normalize(s) + Normalize(t)
    decreases |t|
  {
    if t == "" {
      assert s + t == s;
    } else {
      var n := |t| - 1;
      assert (s + t)[..|s + t| - 1] == s + t[..n];
      NormalizeConcat(s, t[..n]);
    }
  }

  /** Validity does not depend on punctuation, wherever it stands. */
  lemma {:induction false} PunctuationIgnored(s: string, c: char, t: string)
    requires !IsAlphanumeric(c)
    ensures IsValid(s + [c] + t) <==> IsValid(s + t)
  {
    NormalizeConcat(s + [c], t);
    NormalizeConcat(s, [c]);
    NormalizeConcat(s, t);
    assert Normalize([c]) == "" by { assert [c][..0] == ""; }
    assert Normalize(s + [c] + t) == Normalize(s + t);
  }

  /** Digits, capitals and small letters, by their codes. */
  lemma CharactersAre(c: char)
    ensures IsAlphanumeric(c) <==> 48 <= c as int <= 57 || 65 <= c as int <= 90 || 97 <= c as int <= 122
    ensures IsDigit(c) || IsUpper(c) <==> 48 <= c as int <= 57 || 65 <= c as int <= 90
  {
  }

  /** A small letter anywhere stands for its capital, thirty-two codes before it. */
  lemma CaseIgnored(s: string, small: char, capital: char, t: string)
    requires 97 <= small as int <= 122 && capital as int == small as int - 32
    ensures IsValid(s + [small] + t) <==> IsValid(s + [capital] + t)
  {
    NormalizeConcat(s + [small], t);
    NormalizeConcat(s, [small]);
    NormalizeConcat(s + [capital], t);
    NormalizeConcat(s, [capital]);
    assert Normalize([small]) == [capital] by { assert [small][..0] == ""; }
    assert Normalize([capital]) == [capital] by { assert [capital][..0] == ""; }
    assert Normalize(s + [small] + t) == Normalize(s + [capital] + t);
  }

  /** Fourteen times one character is refused, the zeros too, though their digits match. */
  lemma RepeatedRefused(c: char)
    ensures !IsValid(seq(14, _ => c))
  {
    var cnpj := seq(14, _ => c);
    if IsDigit(c) || IsUpper(c) {
      NormalizeKeeps(cnpj);
    } else {
      NormalizeRepeated(c, 14);
    }
  }

  /** A number of fourteen characters of which none is a digit or a capital. */
  lemma {:induction false} NormalizeRepeated(c: char, n: nat)
    ensures Normalize(seq(n, _ => c)) == (if IsAlphanumeric(c) then seq(n, _ => Upper(c)) else "")
  {
    if n > 0 {
      assert seq(n, _ => c)[..n - 1] == seq(n - 1, _ => c);
      NormalizeRepeated(c, n - 1);
      assert seq(n, _ => Upper(c)) == seq(n - 1, _ => Upper(c)) + [Upper(c)];
    }
  }

  lemma {:induction false} NormalizeKeeps(s: string)
    requires forall i :: 0 <= i < |s| ==> IsDigit(s[i]) || IsUpper(s[i])
    ensures Normalize(s) == s
  {
    if s != "" {
      NormalizeKeeps(s[..|s| - 1]);
      assert s == s[..|s| - 1] + [s[|s| - 1]];
    }
  }

  lemma {:induction false} ValidIff(cnpj: string)
    requires WellFormed(cnpj)
    ensures IsValid(cnpj) <==> !AllEqual(cnpj) && DigitsMatch(cnpj)
  {
    hide DigitsMatch, AllEqual;
    NormalizeKeeps(cnpj);
  }

  // Sums.

  lemma {:induction false} SumUpdate(value: string, weights: seq<int>, i: nat, c: char)
    requires i < |value|
    ensures WeightedSum(value[i := c], weights) == WeightedSum(value, weights)
      + if i < |weights| then (CharacterValue(c) - CharacterValue(value[i])) * weights[i] else 0
  {
    if weights != [] {
      var n := |weights| - 1;
      SumUpdate(value, weights[..n], i, c);
      if i == n {
        SumUpdateLast(CharacterValue(c), CharacterValue(value[n]), weights[n]);
      }
    }
  }

  lemma SumUpdateLast(a: int, b: int, w: int)
    ensures a * w == b * w + (a - b) * w
  {
  }

  lemma {:induction false} SumPrefix(value: string, value': string, weights: seq<int>)
    requires |weights| <= |value| && |weights| <= |value'| && value[..|weights|] == value'[..|weights|]
    ensures WeightedSum(value, weights) == WeightedSum(value', weights)
  {
    if weights != [] {
      var n := |weights| - 1;
      assert value[..n] == value[..n + 1][..n] && value'[..n] == value'[..n + 1][..n];
      assert value[n] == value[..n + 1][n] && value'[n] == value'[..n + 1][n];
      SumPrefix(value, value', weights[..n]);
    }
  }

  /** The base's share of the second sum. */
  function SecondShare(cnpj: string): int {
    WeightedSum(cnpj, SECOND_WEIGHTS[..BASE_LENGTH])
  }

  lemma {:induction false} SecondDigitSum(cnpj: string)
    requires |cnpj| >= BASE_LENGTH
    ensures SecondDigit(cnpj) == CheckDigit(SecondShare(cnpj) + 2 * FirstDigit(cnpj))
  {
    var extended := cnpj[..BASE_LENGTH] + [DigitChar(FirstDigit(cnpj))];
    assert extended[..BASE_LENGTH] == cnpj[..BASE_LENGTH];
    SumPrefix(extended, cnpj, SECOND_WEIGHTS[..BASE_LENGTH]);
    assert CharacterValue(extended[BASE_LENGTH]) == FirstDigit(cnpj);
  }

  /** A digit completes a sum to a multiple of eleven; it is zero where that would take ten. */
  predicate Completes(sum: int, digit: int) {
    (sum + digit) % 11 == 0 || (sum % 11 == 1 && digit == 0)
  }

  lemma CompletesIff(sum: int, digit: int)
    requires 0 <= digit <= 9
    ensures digit == CheckDigit(sum) <==> Completes(sum, digit)
  {
  }

  lemma SumByHand(v: string)
    requires |v| >= BASE_LENGTH
    ensures WeightedSum(v, FIRST_WEIGHTS)
         == 5 * CharacterValue(v[0]) + 4 * CharacterValue(v[1]) + 3 * CharacterValue(v[2]) + 2 * CharacterValue(v[3])
            + 9 * CharacterValue(v[4]) + 8 * CharacterValue(v[5]) + 7 * CharacterValue(v[6]) + 6 * CharacterValue(v[7])
            + 5 * CharacterValue(v[8]) + 4 * CharacterValue(v[9]) + 3 * CharacterValue(v[10])
            + 2 * CharacterValue(v[11])
    ensures SecondShare(v)
         == 6 * CharacterValue(v[0]) + 5 * CharacterValue(v[1]) + 4 * CharacterValue(v[2]) + 3 * CharacterValue(v[3])
            + 2 * CharacterValue(v[4]) + 9 * CharacterValue(v[5]) + 8 * CharacterValue(v[6]) + 7 * CharacterValue(v[7])
            + 6 * CharacterValue(v[8]) + 5 * CharacterValue(v[9]) + 4 * CharacterValue(v[10])
            + 3 * CharacterValue(v[11])
  {
    SumOfTwelve(v, 5, 4, 3, 2, 9, 8, 7, 6, 5, 4, 3, 2);
    SumOfTwelve(v, 6, 5, 4, 3, 2, 9, 8, 7, 6, 5, 4, 3);
    assert SECOND_WEIGHTS[..BASE_LENGTH] == [6, 5, 4, 3, 2, 9, 8, 7, 6, 5, 4, 3];
  }

  /**
   * A well-formed number is accepted exactly if its characters are not all equal and its digits
   * complete the two weighted sums.
   */
  lemma ValidMeans(cnpj: string)
    requires WellFormed(cnpj)
    ensures IsValid(cnpj)
       <==> !AllEqual(cnpj)
            && Completes(WeightedSum(cnpj, FIRST_WEIGHTS), CharacterValue(cnpj[12]))
            && Completes(SecondShare(cnpj) + 2 * CharacterValue(cnpj[12]), CharacterValue(cnpj[13]))
  {
    ValidIff(cnpj);
    SecondDigitSum(cnpj);
    hide WeightedSum, SecondShare, SecondDigit, IsValid;
    CompletesIff(WeightedSum(cnpj, FIRST_WEIGHTS), CharacterValue(cnpj[12]));
    CompletesIff(SecondShare(cnpj) + 2 * FirstDigit(cnpj), CharacterValue(cnpj[13]));
  }

  /** A number that the tests of the source accept, and the refusal of one with another digit. */
  lemma NumericNumberKnown()
    ensures IsValid("11222333000181") && !IsValid("11222333000180")
  {
    hide WeightedSum, SecondShare, IsValid;
    var accepted, refused := "11222333000181", "11222333000180";
    assert accepted[1] != accepted[2];
    SumByHand(accepted);
    SumByHand(refused);
    ValidMeans(accepted);
    ValidMeans(refused);
  }

  lemma AlphanumericNumberKnown()
    ensures IsValid("12ABC34501DE35") && !IsValid("12ABC34501DE34")
  {
    hide WeightedSum, SecondShare, IsValid;
    var accepted, refused := "12ABC34501DE35", "12ABC34501DE34";
    assert accepted[0] != accepted[1];
    SumByHand(accepted);
    SumByHand(refused);
    ValidMeans(accepted);
    ValidMeans(refused);
  }

  lemma SumAppend(v: string, ws: seq<int>, w: int)
    ensures WeightedSum(v, ws + [w]) == WeightedSum(v, ws) + (if |ws| < |v| then CharacterValue(v[|ws|]) else 0) * w
  {
    assert (ws + [w])[..|ws|] == ws;
  }

  lemma SumOfFour(v: string, ws: seq<int>, a: int, b: int, c: int, d: int)
    requires |ws| + 4 <= |v|
    ensures WeightedSum(v, ws + [a, b, c, d])
         == WeightedSum(v, ws) + CharacterValue(v[|ws|]) * a + CharacterValue(v[|ws| + 1]) * b
            + CharacterValue(v[|ws| + 2]) * c + CharacterValue(v[|ws| + 3]) * d
  {
    SumAppend(v, ws, a);
    SumAppend(v, ws + [a], b);
    SumAppend(v, ws + [a] + [b], c);
    SumAppend(v, ws + [a] + [b] + [c], d);
    assert ws + [a] + [b] + [c] + [d] == ws + [a, b, c, d];
  }

  lemma SumOfNone(v: string)
    ensures WeightedSum(v, []) == 0
  {
  }

  lemma SumOfTwelve(v: string, a: int, b: int, c: int, d: int, e: int, f: int, g: int, h: int, i: int, j: int, k: int,
          l: int)
    requires |v| >= 12
    ensures WeightedSum(v, [a, b, c, d, e, f, g, h, i, j, k, l])
         == CharacterValue(v[0]) * a + CharacterValue(v[1]) * b + CharacterValue(v[2]) * c + CharacterValue(v[3]) * d
            + CharacterValue(v[4]) * e + CharacterValue(v[5]) * f + CharacterValue(v[6]) * g + CharacterValue(v[7]) * h
            + CharacterValue(v[8]) * i + CharacterValue(v[9]) * j + CharacterValue(v[10]) * k
            + CharacterValue(v[11]) * l
  {
    SumOfNone(v);
    hide WeightedSum, CharacterValue;
    assert [] + [a, b, c, d] == [a, b, c, d];
    assert [a, b, c, d] + [e, f, g, h] == [a, b, c, d, e, f, g, h];
    assert [a, b, c, d, e, f, g, h] + [i, j, k, l] == [a, b, c, d, e, f, g, h, i, j, k, l];
    SumOfFour(v, [], a, b, c, d);
    SumOfFour(v, [a, b, c, d], e, f, g, h);
    SumOfFour(v, [a, b, c, d, e, f, g, h], i, j, k, l);
  }

  // Completion.

  /**
   * Every base has exactly one pair of digits that matches, and it is then accepted unless all characters are
   * equal.
   */
  lemma {:induction false} CompletionIff(start: string, p: char, q: char)
    requires |start| == BASE_LENGTH && IsDigit(p) && IsDigit(q)
    requires forall i :: 0 <= i < BASE_LENGTH ==> IsDigit(start[i]) || IsUpper(start[i])
    ensures IsValid(start + [p, q])
       <==> p == DigitChar(FirstDigit(start)) && q == DigitChar(SecondDigit(start)) && !AllEqual(start + [p, q])
  {
    var cnpj := start + [p, q];
    assert cnpj[..BASE_LENGTH] == start == start[..BASE_LENGTH];
    SumPrefix(cnpj, start, FIRST_WEIGHTS);
    ValidIff(cnpj);
  }

  // Sums that differ by a multiple of eleven.

  lemma ModShift(a: int, k: int)
    ensures (a + k) % 11 == a % 11 <==> k % 11 == 0
  {
  }

  function InverseOf(w: int): (r: int)
    requires 1 <= w <= 10
    ensures (w * r) % 11 == 1
  {
    if w == 1 then 1 else if w == 2 then 6 else if w == 3 then 4 else if w == 4 then 3 else if w == 5 then 9
    else if w == 6 then 2 else if w == 7 then 8 else if w == 8 then 7 else if w == 9 then 5 else 10
  }

  /** A weight between 1 and 10, or its negative, keeps multiples of eleven apart from the rest. */
  lemma {:induction false} WeightSeparates(w: int, d: int)
    requires -10 <= w <= 10 && w != 0
    ensures (d * w) % 11 == 0 <==> d % 11 == 0
    decreases w < 0
  {
    if w < 0 {
      WeightSeparates(-w, d);
      Opposite(d, w);
    } else {
      var inverse := InverseOf(w);
      Inverse(w, inverse, (w * inverse) / 11, d);
    }
  }

  lemma Opposite(d: int, w: int)
    ensures (d * w) % 11 == 0 <==> (d * -w) % 11 == 0
  {
    assert d * -w == -(d * w);
  }

  lemma Inverse(w: int, inverse: int, k: int, d: int)
    requires w * inverse == 11 * k + 1
    ensures (d * w) % 11 == 0 <==> d % 11 == 0
  {
    if (d * w) % 11 == 0 {
      var m := (d * w) / 11;
      assert d * w == 11 * m;
      assert (d * w) * inverse == d * (w * inverse) == d * (11 * k + 1) == 11 * (d * k) + d;
      assert (11 * m) * inverse == 11 * (m * inverse);
      assert d == 11 * (m * inverse - d * k);
    }
    if d % 11 == 0 {
      var m := d / 11;
      assert d * w == 11 * (m * w);
    }
  }

  /** A non-zero check digit determines its sum modulo eleven. */
  lemma CheckDigitSeparates(a: int, b: int)
    requires CheckDigit(a) != 0
    ensures CheckDigit(b) == CheckDigit(a) <==> b % 11 == a % 11
  {
  }

  /**
   * Two bases whose sums differ by v times weights that separate: with a non-zero check
   * digit, the digits agree exactly when v is a multiple of eleven.
   */
  lemma {:induction false} DigitsAgreeIff(cnpj: string, cnpj': string, v: int, w1: int, w2: int)
    requires |cnpj| >= BASE_LENGTH && |cnpj'| >= BASE_LENGTH
    requires FirstDigit(cnpj) != 0 || SecondDigit(cnpj) != 0
    requires -10 <= w1 <= 10 && w1 != 0 && -10 <= w2 <= 10 && w2 != 0
    requires WeightedSum(cnpj', FIRST_WEIGHTS) == WeightedSum(cnpj, FIRST_WEIGHTS) + v * w1
    requires SecondShare(cnpj') == SecondShare(cnpj) + v * w2
    ensures FirstDigit(cnpj') == FirstDigit(cnpj) && SecondDigit(cnpj') == SecondDigit(cnpj) <==> v % 11 == 0
  {
    var s1, s2 := WeightedSum(cnpj, FIRST_WEIGHTS), SecondShare(cnpj);
    SecondDigitSum(cnpj);
    SecondDigitSum(cnpj');
    hide WeightedSum, SecondShare, SecondDigit;
    WeightSeparates(w1, v);
    WeightSeparates(w2, v);
    ModShift(s1, v * w1);
    ModShift(s2 + 2 * FirstDigit(cnpj), v * w2);
    if FirstDigit(cnpj) != 0 {
      CheckDigitSeparates(s1, s1 + v * w1);
    } else {
      CheckDigitSeparates(s2 + 2 * FirstDigit(cnpj), s2 + 2 * FirstDigit(cnpj) + v * w2);
    }
  }

  // All characters equal.

  function Total(weights: seq<int>): int {
    if weights == [] then 0 else Total(weights[..|weights| - 1]) + weights[|weights| - 1]
  }

  lemma {:induction false} SumOfZeros(value: string, weights: seq<int>)
    requires forall i :: 0 <= i < |value| ==> value[i] == '0'
    ensures WeightedSum(value, weights) == 0
  {
    if weights != [] { SumOfZeros(value, weights[..|weights| - 1]); }
  }

  lemma {:induction false} SumOfEqual(value: string, weights: seq<int>, c: char)
    requires |weights| <= |value| && forall i :: 0 <= i < |value| ==> value[i] == c
    ensures WeightedSum(value, weights) == CharacterValue(c) * Total(weights)
  {
    if weights != [] {
      var n := |weights| - 1;
      SumOfEqual(value, weights[..n], c);
      assert CharacterValue(c) * Total(weights) == CharacterValue(c) * Total(weights[..n])
        + CharacterValue(c) * weights[n];
    }
  }

  lemma {:induction false} TotalAppend(weights: seq<int>, w: int, longer: seq<int>)
    requires longer == weights + [w]
    ensures Total(longer) == Total(weights) + w
  {
    assert longer[..|longer| - 1] == weights;
  }

  lemma {:induction false} FirstTotal()
    ensures Total(FIRST_WEIGHTS) == 58
  {
    hide Total;
    TotalAppend([5, 4, 3, 2, 9, 8, 7, 6, 5, 4, 3], 2, FIRST_WEIGHTS);
    TotalAppend([5, 4, 3, 2, 9, 8, 7, 6, 5, 4], 3, [5, 4, 3, 2, 9, 8, 7, 6, 5, 4, 3]);
    TotalAppend([5, 4, 3, 2, 9, 8, 7, 6, 5], 4, [5, 4, 3, 2, 9, 8, 7, 6, 5, 4]);
    TotalAppend([5, 4, 3, 2, 9, 8, 7, 6], 5, [5, 4, 3, 2, 9, 8, 7, 6, 5]);
    TotalAppend([5, 4, 3, 2, 9, 8, 7], 6, [5, 4, 3, 2, 9, 8, 7, 6]);
    TotalAppend([5, 4, 3, 2, 9, 8], 7, [5, 4, 3, 2, 9, 8, 7]);
    TotalAppend([5, 4, 3, 2, 9], 8, [5, 4, 3, 2, 9, 8]);
    TotalAppend([5, 4, 3, 2], 9, [5, 4, 3, 2, 9]);
    TotalAppend([5, 4, 3], 2, [5, 4, 3, 2]);
    TotalAppend([5, 4], 3, [5, 4, 3]);
    TotalAppend([5], 4, [5, 4]);
    TotalAppend([], 5, [5]);
    TotalNone();
  }

  lemma TotalNone()
    ensures Total([]) == 0
  {
  }

  lemma {:induction false} EqualFirstDigit(cnpj: string)
    requires WellFormed(cnpj) && AllEqual(cnpj)
    ensures FirstDigit(cnpj) == CharacterValue(cnpj[12]) <==> cnpj[0] == '0'
  {
    var c := cnpj[0];
    assert cnpj[12] == c;
    SumOfEqual(cnpj, FIRST_WEIGHTS, c);
    FirstTotal();
    assert WeightedSum(cnpj, FIRST_WEIGHTS) == CharacterValue(c) * 58;
  }

  /**
   * Of the numbers with all characters equal, only the zeros have matching digits: the rule on them rejects one
   * number.
   */
  lemma {:induction false} AllEqualMatchIff(cnpj: string)
    requires WellFormed(cnpj) && AllEqual(cnpj)
    ensures DigitsMatch(cnpj) <==> cnpj[0] == '0'
  {
    EqualFirstDigit(cnpj);
    if cnpj[0] == '0' {
      SumOfZeros(cnpj, SECOND_WEIGHTS[..BASE_LENGTH]);
      SecondDigitSum(cnpj);
    }
  }

  lemma {:induction false} MatchingNotAllEqual(cnpj: string)
    requires WellFormed(cnpj) && DigitsMatch(cnpj) && !ZeroDigits(cnpj)
    ensures !AllEqual(cnpj)
  {
    assert AllEqual(cnpj) ==> cnpj[12] == cnpj[0] && cnpj[13] == cnpj[0];
    if AllEqual(cnpj) { EqualFirstDigit(cnpj); }
  }

  // Errors that are caught.

  /**
   * Changing one character of the base of a valid number with a non-zero check digit is
   * accepted exactly when the two characters' values differ by a multiple of eleven.
   */
  lemma {:induction false} SubstitutionIff(cnpj: string, i: nat, c: char)
    requires WellFormed(cnpj) && IsValid(cnpj) && !ZeroDigits(cnpj)
    requires i < BASE_LENGTH && (IsDigit(c) || IsUpper(c))
    ensures IsValid(cnpj[i := c]) <==> (CharacterValue(c) - CharacterValue(cnpj[i])) % 11 == 0
  {
    var cnpj', v := cnpj[i := c], CharacterValue(c) - CharacterValue(cnpj[i]);
    ValidIff(cnpj);
    ValidIff(cnpj');
    SumUpdate(cnpj, FIRST_WEIGHTS, i, c);
    SumUpdate(cnpj, SECOND_WEIGHTS[..BASE_LENGTH], i, c);
    DigitsAgreeIff(cnpj, cnpj', v, FIRST_WEIGHTS[i], SECOND_WEIGHTS[i]);
    if DigitsMatch(cnpj') { MatchingNotAllEqual(cnpj'); }
  }

  /** A changed check digit is always caught. */
  lemma {:induction false} CheckDigitChangeCaught(cnpj: string, i: nat, c: char)
    requires WellFormed(cnpj) && IsValid(cnpj) && BASE_LENGTH <= i < |cnpj| && IsDigit(c) && c != cnpj[i]
    ensures !IsValid(cnpj[i := c])
  {
    var cnpj' := cnpj[i := c];
    ValidIff(cnpj);
    ValidIff(cnpj');
    assert cnpj'[..BASE_LENGTH] == cnpj[..BASE_LENGTH];
    SumPrefix(cnpj, cnpj', FIRST_WEIGHTS);
  }

  /** With a non-zero check digit, every change of one digit to another, check digits included, is caught. */
  lemma {:induction false} DigitChangeCaught(cnpj: string, i: nat, c: char)
    requires WellFormed(cnpj) && IsValid(cnpj) && !ZeroDigits(cnpj)
    requires i < |cnpj| && IsDigit(cnpj[i]) && IsDigit(c) && c != cnpj[i]
    ensures !IsValid(cnpj[i := c])
  {
    if i < BASE_LENGTH { SubstitutionIff(cnpj, i, c); } else { CheckDigitChangeCaught(cnpj, i, c); }
  }

  function Swapped(cnpj: string, i: nat): string
    requires i + 1 < |cnpj|
  {
    cnpj[i := cnpj[i + 1]][i + 1 := cnpj[i]]
  }

  /**
   * Swapping two neighbours of the base of a valid number with a non-zero check digit is accepted
   * exactly when their values differ by a multiple of eleven.
   */
  lemma {:induction false} SwapIff(cnpj: string, i: nat)
    requires WellFormed(cnpj) && IsValid(cnpj) && !ZeroDigits(cnpj)
    requires i + 1 < BASE_LENGTH
    ensures IsValid(Swapped(cnpj, i))
       <==> (CharacterValue(cnpj[i + 1]) - CharacterValue(cnpj[i])) % 11 == 0
  {
    var cnpj', v := Swapped(cnpj, i), CharacterValue(cnpj[i + 1]) - CharacterValue(cnpj[i]);
    var second := SECOND_WEIGHTS[..BASE_LENGTH];
    ValidIff(cnpj);
    ValidIff(cnpj');
    SumSwap(cnpj, FIRST_WEIGHTS, i);
    SumSwap(cnpj, second, i);
    DigitsAgreeIff(cnpj, cnpj', v, FIRST_WEIGHTS[i] - FIRST_WEIGHTS[i + 1], second[i] - second[i + 1]);
    if DigitsMatch(cnpj') { MatchingNotAllEqual(cnpj'); }
  }

  lemma {:induction false} SumSwap(value: string, weights: seq<int>, i: nat)
    requires i + 1 < |value| && i + 1 < |weights|
    ensures WeightedSum(Swapped(value, i), weights) == WeightedSum(value, weights)
      + (CharacterValue(value[i + 1]) - CharacterValue(value[i])) * (weights[i] - weights[i + 1])
  {
    hide WeightedSum;
    var a, b := CharacterValue(value[i]), CharacterValue(value[i + 1]);
    SumUpdate(value, weights, i, value[i + 1]);
    SumUpdate(value[i := value[i + 1]], weights, i + 1, value[i]);
    assert (b - a) * weights[i] + (a - b) * weights[i + 1] == (b - a) * (weights[i] - weights[i + 1]);
  }

  // Numbers whose check digits are both zero.

  /** The two sums modulo eleven, the second without the share of the first digit. */
  function FirstResidue(cnpj: string): int {
    WeightedSum(cnpj, FIRST_WEIGHTS) % 11
  }

  function SecondResidue(cnpj: string): int {
    SecondShare(cnpj) % 11
  }

  lemma {:induction false} ZeroDigitsMatchIff(cnpj: string)
    requires WellFormed(cnpj) && ZeroDigits(cnpj)
    ensures DigitsMatch(cnpj) <==> FirstResidue(cnpj) < 2 && SecondResidue(cnpj) < 2
  {
    SecondDigitSum(cnpj);
    hide WeightedSum, SecondShare, SecondDigit;
  }

  /** The remainder one away from a remainder of zero or one. */
  function Flip(r: int): int {
    if r == 0 then 1 else 10
  }

  lemma FlipIff(a: int, k: int)
    requires 0 <= a % 11 < 2
    ensures (a + k) % 11 < 2 <==> k % 11 == 0 || k % 11 == Flip(a % 11)
  {
  }

  /**
   * Adding v times one weight to each sum: both stay below two exactly when v is a
   * multiple of eleven, or takes both remainders across.
   */
  lemma {:induction false} ResiduesStayIff(a: int, b: int, v: int, w1: int, w2: int)
    requires 0 <= a % 11 < 2 && 0 <= b % 11 < 2
    requires -10 <= w1 <= 10 && w1 != 0 && -10 <= w2 <= 10 && w2 != 0
    ensures (a + v * w1) % 11 < 2 && (b + v * w2) % 11 < 2
       <==> v % 11 == 0 || ((v * w1) % 11 == Flip(a % 11) && (v * w2) % 11 == Flip(b % 11))
  {
    WeightSeparates(w1, v);
    WeightSeparates(w2, v);
    FlipIff(a, v * w1);
    FlipIff(b, v * w2);
  }

  /** The positions whose two weights add up to eleven. */
  predicate Opposed(i: nat) {
    i == 0 || i == 4 || i == 8
  }

  lemma {:induction false} OpposedWeights(i: nat, v: int)
    requires i < BASE_LENGTH && v % 11 != 0
    ensures (v * (FIRST_WEIGHTS[i] + SECOND_WEIGHTS[i])) % 11 == 0 <==> Opposed(i)
    ensures (v * (SECOND_WEIGHTS[i] - FIRST_WEIGHTS[i])) % 11 != 0
  {
    var w1, w2 := FIRST_WEIGHTS[i], SECOND_WEIGHTS[i];
    assert w2 == if i == 4 then w1 - 7 else w1 + 1;
    FoldEleven(v, w1 + w2);
    WeightSeparates(w2 - w1, v);
    if Opposed(i) {
      assert w1 + w2 == 11;
    } else {
      WeightSeparates(if w1 + w2 < 11 then w1 + w2 else w1 + w2 - 11, v);
    }
  }

  lemma ModSum(p: int, q: int)
    ensures (p + q) % 11 == (p % 11 + q % 11) % 11 && (q - p) % 11 == (q % 11 - p % 11) % 11
  {
    ModMultiple(p % 11 + q % 11, p / 11 + q / 11);
    ModMultiple(q % 11 - p % 11, q / 11 - p / 11);
  }

  lemma ModMultiple(x: int, k: int)
    ensures (x + 11 * k) % 11 == x % 11
  {
  }

  lemma OpposedRemainders(p: int, q: int, r1: int, r2: int)
    requires 0 <= r1 < 2 && 0 <= r2 < 2 && 0 <= p < 11 && 0 <= q < 11 && (q - p) % 11 != 0
    ensures p == Flip(r1) && q == Flip(r2) <==> r1 != r2 && (p + q) % 11 == 0 && p == Flip(r1)
  {
  }

  lemma OpposedSums(p: int, q: int, r1: int, r2: int)
    requires 0 <= r1 < 2 && 0 <= r2 < 2 && (q - p) % 11 != 0
    ensures p % 11 == Flip(r1) && q % 11 == Flip(r2) <==> r1 != r2 && (p + q) % 11 == 0 && p % 11 == Flip(r1)
  {
    ModSum(p, q);
    OpposedRemainders(p % 11, q % 11, r1, r2);
  }

  lemma {:induction false} OpposedIff(i: nat, v: int, r1: int, r2: int)
    requires i < BASE_LENGTH && 0 <= r1 < 2 && 0 <= r2 < 2 && v % 11 != 0
    ensures (v * FIRST_WEIGHTS[i]) % 11 == Flip(r1) && (v * SECOND_WEIGHTS[i]) % 11 == Flip(r2)
       <==> r1 != r2 && Opposed(i) && (v * FIRST_WEIGHTS[i]) % 11 == Flip(r1)
  {
    var w1, w2 := FIRST_WEIGHTS[i], SECOND_WEIGHTS[i];
    OpposedWeights(i, v);
    SumAndDifference(v, w1, w2);
    hide Opposed, Flip;
    OpposedSums(v * w1, v * w2, r1, r2);
  }

  lemma SumAndDifference(v: int, w1: int, w2: int)
    ensures v * (w1 + w2) == v * w1 + v * w2 && v * (w2 - w1) == v * w2 - v * w1
  {
  }

  lemma FoldEleven(v: int, w: int)
    ensures (v * w) % 11 == (v * (w - 11)) % 11
  {
    assert v * w == v * (w - 11) + 11 * v;
  }

  lemma FlipValue(a: int, k: int)
    requires 0 <= a % 11 < 2 && k % 11 == Flip(a % 11)
    ensures (a + k) % 11 == 1 - a % 11
  {
  }

  /** The change exchanges the two remainders, which are different. */
  predicate Exchanges(cnpj: string, i: nat, v: int)
    requires |cnpj| == BASE_LENGTH + 2 && i < BASE_LENGTH
  {
    && FirstResidue(cnpj) != SecondResidue(cnpj) && Opposed(i)
    && (v * FIRST_WEIGHTS[i]) % 11 == Flip(FirstResidue(cnpj))
  }

  /** The sums of a number whose i-th value moved by v. */
  ghost predicate MovedBy(cnpj: string, cnpj': string, i: nat, v: int)
    requires i < BASE_LENGTH
  {
    && WeightedSum(cnpj', FIRST_WEIGHTS) == WeightedSum(cnpj, FIRST_WEIGHTS) + v * FIRST_WEIGHTS[i]
    && SecondShare(cnpj') == SecondShare(cnpj) + v * SECOND_WEIGHTS[i]
  }

  lemma {:induction false} MovedResidues(cnpj: string, cnpj': string, i: nat, v: int)
    requires |cnpj| == BASE_LENGTH + 2 && i < BASE_LENGTH && MovedBy(cnpj, cnpj', i, v)
    requires FirstResidue(cnpj) < 2 && SecondResidue(cnpj) < 2
    ensures FirstResidue(cnpj') < 2 && SecondResidue(cnpj') < 2 <==> v % 11 == 0 || Exchanges(cnpj, i, v)
    ensures v % 11 != 0 && Exchanges(cnpj, i, v) ==> FirstResidue(cnpj') != SecondResidue(cnpj')
  {
    var w1, w2 := FIRST_WEIGHTS[i], SECOND_WEIGHTS[i];
    var a, b := WeightedSum(cnpj, FIRST_WEIGHTS), SecondShare(cnpj);
    hide WeightedSum, SecondShare, Flip, Opposed;
    ResiduesStayIff(a, b, v, w1, w2);
    if v % 11 != 0 {
      OpposedIff(i, v, a % 11, b % 11);
      if Exchanges(cnpj, i, v) {
        FlipValue(a, v * w1);
        FlipValue(b, v * w2);
      }
    }
  }

  /**
   * With both check digits zero, changing one character of the base is accepted exactly
   * when the values differ by a multiple of eleven, or the two sums have different
   * remainders and the change, at one of three positions, exchanges them.
   */
  lemma {:induction false} ZeroSubstitutionIff(cnpj: string, i: nat, c: char)
    requires WellFormed(cnpj) && IsValid(cnpj) && ZeroDigits(cnpj)
    requires i < BASE_LENGTH && (IsDigit(c) || IsUpper(c))
    ensures var v := CharacterValue(c) - CharacterValue(cnpj[i]);
      IsValid(cnpj[i := c]) <==> if v % 11 == 0 then !AllEqual(cnpj[i := c]) else Exchanges(cnpj, i, v)
  {
    var cnpj', v := cnpj[i := c], CharacterValue(c) - CharacterValue(cnpj[i]);
    var second := SECOND_WEIGHTS[..BASE_LENGTH];
    assert second[i] == SECOND_WEIGHTS[i];
    SumUpdate(cnpj, FIRST_WEIGHTS, i, c);
    SumUpdate(cnpj, second, i, c);
    assert MovedBy(cnpj, cnpj', i, v);
    hide MovedBy, Exchanges, IsValid, DigitsMatch, AllEqual, FirstResidue, SecondResidue;
    ValidIff(cnpj);
    ValidIff(cnpj');
    ZeroDigitsMatchIff(cnpj);
    ZeroDigitsMatchIff(cnpj');
    MovedResidues(cnpj, cnpj', i, v);
    if FirstResidue(cnpj') != SecondResidue(cnpj') { UnevenNotAllEqual(cnpj'); }
  }

  lemma {:induction false} UnevenNotAllEqual(cnpj: string)
    requires WellFormed(cnpj) && ZeroDigits(cnpj) && FirstResidue(cnpj) != SecondResidue(cnpj)
    ensures !AllEqual(cnpj)
  {
    if AllEqual(cnpj) {
      SumOfZeros(cnpj, FIRST_WEIGHTS);
      SumOfZeros(cnpj, SECOND_WEIGHTS[..BASE_LENGTH]);
    }
  }

  predicate Numeric(cnpj: string) {
    |cnpj| == BASE_LENGTH + 2 && forall i :: 0 <= i < |cnpj| ==> IsDigit(cnpj[i])
  }

  ghost predicate CatchesDigitChanges(cnpj: string) {
    forall i, c :: 0 <= i < |cnpj| && IsDigit(c) && c != cnpj[i] ==> !IsValid(cnpj[i := c])
  }

  /** At the three opposed positions, no digit is the right distance away. */
  predicate OutOfReach(cnpj: string)
    requires |cnpj| == BASE_LENGTH + 2
  {
    if FirstResidue(cnpj) == 0 then cnpj[0] == cnpj[8] == '1' && cnpj[4] == '5'
    else cnpj[0] == cnpj[8] == '8' && cnpj[4] == '4'
  }

  /** The remainders of the sums let no change of one digit through. */
  predicate Sheltered(cnpj: string)
    requires |cnpj| == BASE_LENGTH + 2
  {
    FirstResidue(cnpj) == SecondResidue(cnpj) || OutOfReach(cnpj)
  }

  lemma FiveTimes(v: int)
    requires -9 <= v <= 9
    ensures (v * 5) % 11 == Flip(0) <==> v == 9 || v == -2
    ensures (v * 5) % 11 == Flip(1) <==> v == 2 || v == -9
  {
  }

  lemma NineTimes(v: int)
    requires -9 <= v <= 9
    ensures (v * 9) % 11 == Flip(0) <==> v == 5 || v == -6
    ensures (v * 9) % 11 == Flip(1) <==> v == 6 || v == -5
  {
  }

  /** The distance from digit d that exchanges the remainders, if there is one, else zero. */
  function Distance(d: int, w: int, r: int): int {
    if w == 5 then (if r == 0 then (if d == 0 then 9 else if d >= 2 then -2 else 0)
                    else if d == 9 then -9 else if d <= 7 then 2 else 0)
    else if r == 0 then (if d <= 4 then 5 else if d >= 6 then -6 else 0)
    else if d >= 5 then -5 else if d <= 3 then 6 else 0
  }

  lemma DistanceIff(d: int, e: int, w: int, r: int)
    requires 0 <= d <= 9 && 0 <= e <= 9 && (w == 5 || w == 9) && 0 <= r < 2 && d != e
    ensures ((e - d) * w) % 11 == Flip(r) <==> e - d == Distance(d, w, r)
  {
    hide Flip;
    if w == 5 { FiveTimes(e - d); } else { NineTimes(e - d); }
  }

  function DistanceAt(cnpj: string, i: nat): int
    requires i < |cnpj| && i < BASE_LENGTH
  {
    Distance(CharacterValue(cnpj[i]), FIRST_WEIGHTS[i], FirstResidue(cnpj))
  }

  /** Exactly which changed digits go through when both check digits are zero. */
  lemma {:induction false} ZeroDigitChangeIff(cnpj: string, i: nat, c: char)
    requires Numeric(cnpj) && IsValid(cnpj) && ZeroDigits(cnpj) && i < |cnpj| && IsDigit(c) && c != cnpj[i]
    ensures IsValid(cnpj[i := c])
       <==> FirstResidue(cnpj) != SecondResidue(cnpj) && i < BASE_LENGTH && Opposed(i)
            && CharacterValue(c) - CharacterValue(cnpj[i]) == DistanceAt(cnpj, i)
  {
    ValidIff(cnpj);
    ZeroDigitsMatchIff(cnpj);
    hide IsValid, FirstResidue, SecondResidue, Flip, AllEqual;
    if i < BASE_LENGTH {
      ZeroSubstitutionIff(cnpj, i, c);
      if Opposed(i) {
        DistanceIff(CharacterValue(cnpj[i]), CharacterValue(c), FIRST_WEIGHTS[i], FirstResidue(cnpj));
      }
    } else {
      CheckDigitChangeCaught(cnpj, i, c);
    }
  }

  /** With both check digits zero, every change of one digit is caught exactly for sheltered numbers. */
  lemma {:induction false} ZeroDigitsCatchIff(cnpj: string)
    requires Numeric(cnpj) && IsValid(cnpj) && ZeroDigits(cnpj)
    ensures CatchesDigitChanges(cnpj) <==> Sheltered(cnpj)
  {
    ValidIff(cnpj);
    ZeroDigitsMatchIff(cnpj);
    hide IsValid, FirstResidue, SecondResidue;
    if Sheltered(cnpj) {
      forall i, c | 0 <= i < |cnpj| && IsDigit(c) && c != cnpj[i] ensures !IsValid(cnpj[i := c]) {
        ZeroDigitChangeIff(cnpj, i, c);
      }
    } else {
      var i := if DistanceAt(cnpj, 0) != 0 then 0 else if DistanceAt(cnpj, 4) != 0 then 4 else 8;
      var c := DigitChar(CharacterValue(cnpj[i]) + DistanceAt(cnpj, i));
      ZeroDigitChangeIff(cnpj, i, c);
      assert IsValid(cnpj[i := c]);
    }
  }

  /**
   * A valid numeric number catches every change of one digit exactly when a check digit
   * is not zero, or the two sums have the same remainder, or its digits at the three
   * opposed positions are the ones with nothing in reach.
   */
  lemma {:induction false} CatchesDigitChangesIff(cnpj: string)
    requires Numeric(cnpj) && IsValid(cnpj)
    ensures CatchesDigitChanges(cnpj) <==> !ZeroDigits(cnpj) || Sheltered(cnpj)
  {
    if ZeroDigits(cnpj) {
      ZeroDigitsCatchIff(cnpj);
    } else {
      forall i, c | 0 <= i < |cnpj| && IsDigit(c) && c != cnpj[i] ensures !IsValid(cnpj[i := c]) {
        DigitChangeCaught(cnpj, i, c);
      }
    }
  }

  /** The neighbours between which no weight runs over from two to nine. */
  predicate Stepwise(i: nat) {
    i != 3 && i != 4
  }

  lemma {:induction false} SwapWeightsIff(i: nat, v: int, r1: int, r2: int)
    requires i + 1 < BASE_LENGTH && 0 <= r1 < 2 && 0 <= r2 < 2 && v % 11 != 0
    ensures (v * (FIRST_WEIGHTS[i] - FIRST_WEIGHTS[i + 1])) % 11 == Flip(r1)
            && (v * (SECOND_WEIGHTS[i] - SECOND_WEIGHTS[i + 1])) % 11 == Flip(r2)
       <==> Stepwise(i) && r1 == r2 && v % 11 == Flip(r1)
  {
    var d1, d2 := FIRST_WEIGHTS[i] - FIRST_WEIGHTS[i + 1], SECOND_WEIGHTS[i] - SECOND_WEIGHTS[i + 1];
    assert d1 == (if i == 3 then -7 else 1) && d2 == (if i == 4 then -7 else 1);
    assert v * -7 == -7 * v && v * 1 == v;
  }

  /**
   * With both check digits zero, swapping two neighbours of the base is accepted exactly
   * when their values differ by a multiple of eleven, or the sums have the same remainder
   * and the values the one difference that moves both across.
   */
  lemma {:induction false} ZeroSwapIff(cnpj: string, i: nat)
    requires WellFormed(cnpj) && IsValid(cnpj) && ZeroDigits(cnpj) && i + 1 < BASE_LENGTH
    ensures var v := CharacterValue(cnpj[i + 1]) - CharacterValue(cnpj[i]);
      IsValid(Swapped(cnpj, i))
      <==> v % 11 == 0
           || (Stepwise(i) && FirstResidue(cnpj) == SecondResidue(cnpj) && v % 11 == Flip(FirstResidue(cnpj)))
  {
    var cnpj', v := Swapped(cnpj, i), CharacterValue(cnpj[i + 1]) - CharacterValue(cnpj[i]);
    var second := SECOND_WEIGHTS[..BASE_LENGTH];
    var d1, d2 := FIRST_WEIGHTS[i] - FIRST_WEIGHTS[i + 1], SECOND_WEIGHTS[i] - SECOND_WEIGHTS[i + 1];
    assert second[i] == SECOND_WEIGHTS[i] && second[i + 1] == SECOND_WEIGHTS[i + 1];
    SumSwap(cnpj, FIRST_WEIGHTS, i);
    SumSwap(cnpj, second, i);
    hide WeightedSum, IsValid, DigitsMatch, AllEqual, Flip, Stepwise;
    ValidIff(cnpj);
    ValidIff(cnpj');
    ZeroDigitsMatchIff(cnpj);
    ZeroDigitsMatchIff(cnpj');
    SwapNotAllEqual(cnpj, i);
    ResiduesStayIff(WeightedSum(cnpj, FIRST_WEIGHTS), SecondShare(cnpj), v, d1, d2);
    if v % 11 != 0 { SwapWeightsIff(i, v, FirstResidue(cnpj), SecondResidue(cnpj)); }
  }

  lemma {:induction false} SwapNotAllEqual(cnpj: string, i: nat)
    requires |cnpj| == BASE_LENGTH + 2 && i + 1 < BASE_LENGTH
    ensures AllEqual(Swapped(cnpj, i)) <==> AllEqual(cnpj)
  {
    var swapped := Swapped(cnpj, i);
    if AllEqual(swapped) {
      assert cnpj[i] == swapped[i + 1] && cnpj[i + 1] == swapped[i];
      assert forall k :: 0 <= k < |cnpj| && k != i && k != i + 1 ==> cnpj[k] == swapped[k];
    }
  }

  ghost predicate CatchesSwaps(cnpj: string)
    requires |cnpj| == BASE_LENGTH + 2
  {
    forall i :: 0 <= i < BASE_LENGTH - 1 && cnpj[i] != cnpj[i + 1] ==> !IsValid(Swapped(cnpj, i))
  }

  /** Two neighbours one apart, rising if the first sum leaves nothing and falling if it leaves one. */
  predicate Exchangeable(cnpj: string, i: nat)
    requires |cnpj| == BASE_LENGTH + 2 && i + 1 < BASE_LENGTH
  {
    Stepwise(i)
    && CharacterValue(cnpj[i + 1]) - CharacterValue(cnpj[i]) == if FirstResidue(cnpj) == 0 then 1 else -1
  }

  lemma {:induction false} NumericSwapIff(cnpj: string, i: nat)
    requires Numeric(cnpj) && IsValid(cnpj) && i + 1 < BASE_LENGTH && cnpj[i] != cnpj[i + 1]
    ensures IsValid(Swapped(cnpj, i))
       <==> ZeroDigits(cnpj) && FirstResidue(cnpj) == SecondResidue(cnpj) && Exchangeable(cnpj, i)
  {
    ValidIff(cnpj);
    hide IsValid, FirstResidue, SecondResidue, Swapped;
    if ZeroDigits(cnpj) {
      ZeroDigitsMatchIff(cnpj);
      ZeroSwapIff(cnpj, i);
    } else {
      SwapIff(cnpj, i);
    }
  }

  /**
   * A valid numeric number catches every swap of two unlike neighbours of the base exactly
   * when a check digit is not zero, or the two sums have different remainders, or no
   * neighbours are exchangeable.
   */
  lemma {:induction false} CatchesSwapsIff(cnpj: string)
    requires Numeric(cnpj) && IsValid(cnpj)
    ensures CatchesSwaps(cnpj)
       <==> !ZeroDigits(cnpj) || FirstResidue(cnpj) != SecondResidue(cnpj)
            || forall i :: 0 <= i < BASE_LENGTH - 1 ==> !Exchangeable(cnpj, i)
  {
    hide IsValid, FirstResidue, SecondResidue, Swapped;
    forall i | 0 <= i < BASE_LENGTH - 1 && cnpj[i] != cnpj[i + 1]
      ensures IsValid(Swapped(cnpj, i))
         <==> ZeroDigits(cnpj) && FirstResidue(cnpj) == SecondResidue(cnpj) && Exchangeable(cnpj, i)
    {
      NumericSwapIff(cnpj, i);
    }
    assert forall i :: 0 <= i < BASE_LENGTH - 1 && Exchangeable(cnpj, i) ==> cnpj[i] != cnpj[i + 1];
  }

  /** An error that goes through: both numbers are valid, and they differ in one digit. */
  lemma {:induction false} ZeroDigitsMiss()
    ensures IsValid("00000000003700") && IsValid("20000000003700")
  {
    var zeros, second := "00000000000000", SECOND_WEIGHTS[..BASE_LENGTH];
    var three := zeros[10 := '3'];
    var a := three[11 := '7'];
    var b := a[0 := '2'];
    SumOfZeros(zeros, FIRST_WEIGHTS);
    SumUpdate(zeros, FIRST_WEIGHTS, 10, '3');
    SumUpdate(three, FIRST_WEIGHTS, 11, '7');
    SumUpdate(a, FIRST_WEIGHTS, 0, '2');
    SumOfZeros(zeros, second);
    SumUpdate(zeros, second, 10, '3');
    SumUpdate(three, second, 11, '7');
    SumUpdate(a, second, 0, '2');
    assert a == "00000000003700" && b == "20000000003700";
    hide WeightedSum, IsValid, DigitsMatch;
    ZeroDigitsMatchIff(a);
    ZeroDigitsMatchIff(b);
    ValidIff(a);
    ValidIff(b);
  }
}
