/** src/domain/value_objects/inn.py: the check digits of a taxpayer number, and what they catch. */
module Inn {
  const LEGAL_WEIGHTS := [2, 4, 10, 3, 5, 9, 4, 6, 8]
  const INDIVIDUAL_WEIGHTS_1 := [7, 2, 4, 10, 3, 5, 9, 4, 6, 8]
  const INDIVIDUAL_WEIGHTS_2 := [3, 7, 2, 4, 10, 3, 5, 9, 4, 6, 8]

  type Digit = d: int | 0 <= d <= 9

  /** Sum of d * w over zip(digits, weights). */
  function Sum(digits: seq<Digit>, weights: seq<int>): int {
    if digits == [] || weights == [] then 0
    else digits[0] * weights[0] + Sum(digits[1..], weights[1..])
  }

  function Residue(digits: seq<Digit>, weights: seq<int>): int {
    Sum(digits, weights) % 11
  }

  function Weighted(digits: seq<Digit>, weights: seq<int>): int {
    Residue(digits, weights) % 10
  }

  predicate ChecksumOk(digits: seq<Digit>)
    requires |digits| == 10 || |digits| == 12
  {
    if |digits| == 10 then
      digits[9] == Weighted(digits[..9], LEGAL_WEIGHTS)
    else
      && digits[10] == Weighted(digits[..10], INDIVIDUAL_WEIGHTS_1)
      && digits[11] == Weighted(digits[..11], INDIVIDUAL_WEIGHTS_2)
  }

  // ---- The check digits, written out ----

  lemma SumStep(d: Digit, digits: seq<Digit>, w: int, weights: seq<int>)
    ensures Sum([d] + digits, [w] + weights) == d * w + Sum(digits, weights)
  {
    assert ([d] + digits)[1..] == digits && ([w] + weights)[1..] == weights;
  }

  lemma SumOfThree(ds: seq<Digit>, weights: seq<int>)
    requires |ds| >= 3 && |weights| >= 3
    ensures Sum(ds, weights)
         == ds[0] * weights[0] + ds[1] * weights[1] + ds[2] * weights[2] + Sum(ds[3..], weights[3..])
  {
    assert ds == [ds[0]] + ([ds[1]] + ([ds[2]] + ds[3..]));
    assert weights == [weights[0]] + ([weights[1]] + ([weights[2]] + weights[3..]));
    SumStep(ds[0], [ds[1]] + ([ds[2]] + ds[3..]), weights[0], [weights[1]] + ([weights[2]] + weights[3..]));
    SumStep(ds[1], [ds[2]] + ds[3..], weights[1], [weights[2]] + weights[3..]);
    SumStep(ds[2], ds[3..], weights[2], weights[3..]);
  }

  /** The ninefold sum of a 10-digit number. */
  function LegalSum(ds: seq<Digit>): int
    requires |ds| >= 9
  {
    var d: seq<int> := ds;
    2 * d[0] + 4 * d[1] + 10 * d[2] + 3 * d[3] + 5 * d[4] + 9 * d[5] + 4 * d[6] + 6 * d[7] + 8 * d[8]
  }

  lemma LegalSumIsSum(ds: seq<Digit>)
    requires |ds| == 9
    ensures Sum(ds, LEGAL_WEIGHTS) == LegalSum(ds)
  {
    var w := LEGAL_WEIGHTS;
    SumOfThree(ds, w);
    SumOfThree(ds[3..], w[3..]);
    SumOfThree(ds[3..][3..], w[3..][3..]);
    assert ds[3..][3..] == ds[6..] && w[3..][3..] == w[6..];
    assert Sum(ds[6..][3..], w[6..][3..]) == 0;
  }

  /** Each row of a 12-digit number is a first weight and the row before it. */
  lemma RowsNest()
    ensures INDIVIDUAL_WEIGHTS_1 == [7] + LEGAL_WEIGHTS
    ensures INDIVIDUAL_WEIGHTS_2 == [3] + INDIVIDUAL_WEIGHTS_1
  {
  }

  lemma IndividualSums(ds: seq<Digit>)
    requires |ds| == 12
    ensures Sum(ds[..10], INDIVIDUAL_WEIGHTS_1) == 7 * ds[0] + LegalSum(ds[1..10])
    ensures Sum(ds[..11], INDIVIDUAL_WEIGHTS_2) == 3 * ds[0] + 7 * ds[1] + LegalSum(ds[2..11])
  {
    RowsNest();
    assert ds[..10] == [ds[0]] + ds[1..10];
    assert ds[..11] == [ds[0]] + ([ds[1]] + ds[2..11]);
    SumStep(ds[0], ds[1..10], 7, LEGAL_WEIGHTS);
    SumStep(ds[0], [ds[1]] + ds[2..11], 3, INDIVIDUAL_WEIGHTS_1);
    SumStep(ds[1], ds[2..11], 7, LEGAL_WEIGHTS);
    LegalSumIsSum(ds[1..10]);
    LegalSumIsSum(ds[2..11]);
  }

  /** Which numbers pass: the last digit of ten, and the last two of twelve, are these sums modulo 11, then 10. */
  lemma ChecksumIff(ds: seq<Digit>)
    requires |ds| == 10 || |ds| == 12
    ensures |ds| == 10 ==> (ChecksumOk(ds) <==> ds[9] == LegalSum(ds) % 11 % 10)
    ensures |ds| == 12 ==> (ChecksumOk(ds) <==>
      && ds[10] == (7 * ds[0] + LegalSum(ds[1..])) % 11 % 10
      && ds[11] == (3 * ds[0] + 7 * ds[1] + LegalSum(ds[2..])) % 11 % 10)
  {
    if |ds| == 10 {
      LegalSumIsSum(ds[..9]);
    } else {
      IndividualSums(ds);
    }
  }

  // ---- Arithmetic modulo 11 ----

  lemma ProductModulo11(x: int, y: int)
    ensures (x * y) % 11 == ((x % 11) * (y % 11)) % 11
  {
    var p, q := x / 11, y / 11;
    var r, s := x % 11, y % 11;
    calc {
      x * y;
      (11 * p + r) * (11 * q + s);
      11 * (p * (11 * q + s) + r * q) + r * s;
    }
  }

  /** 11 is prime. */
  lemma NoZeroDivisors(x: int, y: int)
    requires x % 11 != 0 && y % 11 != 0
    ensures (x * y) % 11 != 0
  {
    ProductModulo11(x, y);
    SmallProduct(x % 11, y % 11);
  }

  lemma SmallProduct(r: int, s: int)
    requires 1 <= r <= 10 && 1 <= s <= 10
    ensures (r * s) % 11 != 0
  {
    match r {
      case 1 => case 2 => case 3 => case 4 => case 5 =>
      case 6 => case 7 => case 8 => case 9 => case _ =>
    }
  }

  /** The two residues that `% 10` maps to the same check digit. */
  predicate Collapsed(r: int, r': int) {
    (r == 0 && r' == 10) || (r == 10 && r' == 0)
  }

  lemma CollapseMoves(s: int, x: int)
    requires Collapsed(s % 11, (s + x) % 11)
    ensures x % 11 == 1 || x % 11 == 10
  {
  }

  /**
   * If one error adds a * delta to one weighted sum and b * delta to another, and neither a - b nor
   * a + b is a multiple of 11, then at most one of the two sums can collapse.
   */
  lemma RowsCoverEachOther(a: int, b: int, delta: int, s: int, t: int)
    requires delta % 11 != 0 && (a - b) % 11 != 0 && (a + b) % 11 != 0
    ensures !(Collapsed(s % 11, (s + a * delta) % 11) && Collapsed(t % 11, (t + b * delta) % 11))
  {
    var x, y := a * delta, b * delta;
    if Collapsed(s % 11, (s + x) % 11) && Collapsed(t % 11, (t + y) % 11) {
      CollapseMoves(s, x);
      CollapseMoves(t, y);
      UnitsMeet(x, y);
      DifferenceOrSum(a, b, delta);
      assert false;
    }
  }

  lemma UnitsMeet(x: int, y: int)
    requires (x % 11 == 1 || x % 11 == 10) && (y % 11 == 1 || y % 11 == 10)
    ensures (x - y) % 11 == 0 || (x + y) % 11 == 0
  {
    var p, q := x / 11, y / 11;
    if x % 11 == y % 11 {
      assert x - y == 11 * (p - q);
    } else {
      assert x + y == 11 * (p + q + 1);
    }
  }

  lemma DifferenceOrSum(a: int, b: int, delta: int)
    requires delta % 11 != 0 && (a - b) % 11 != 0 && (a + b) % 11 != 0
    ensures (a * delta - b * delta) % 11 != 0
    ensures (a * delta + b * delta) % 11 != 0
  {
    NoZeroDivisors(a - b, delta);
    NoZeroDivisors(a + b, delta);
    assert (a - b) * delta == a * delta - b * delta;
    assert (a + b) * delta == a * delta + b * delta;
  }

  // ---- Weighted sums of any length ----

  lemma {:induction false} SumAfterChange(digits: seq<Digit>, weights: seq<int>, i: nat, d: Digit)
    requires i < |digits| && i < |weights|
    ensures Sum(digits[i := d], weights) == Sum(digits, weights) + weights[i] * (d - digits[i])
  {
    if i == 0 {
      assert digits[i := d][1..] == digits[1..];
      assert weights[0] * (d - digits[0]) == d * weights[0] - digits[0] * weights[0];
    } else {
      assert digits[i := d][1..] == digits[1..][i - 1 := d];
      SumAfterChange(digits[1..], weights[1..], i - 1, d);
    }
  }

  function Swap(digits: seq<Digit>, i: nat): (r: seq<Digit>)
    requires i + 1 < |digits|
    ensures |r| == |digits|
  {
    digits[i := digits[i + 1]][i + 1 := digits[i]]
  }

  /** How much larger the right neighbour is. */
  function Gap(digits: seq<Digit>, i: nat): int
    requires i + 1 < |digits|
  {
    digits[i + 1] as int - digits[i] as int
  }

  lemma SumAfterMove(digits: seq<Digit>, weights: seq<int>, i: nat, d: Digit, move: int)
    requires i < |digits| && i < |weights| && move == d - digits[i]
    ensures Sum(digits[i := d], weights) == Sum(digits, weights) + weights[i] * move
  {
    SumAfterChange(digits, weights, i, d);
  }

  lemma SumAfterTwoChanges(digits: seq<Digit>, weights: seq<int>, i: nat)
    requires i + 1 < |digits| && i + 1 < |weights|
    ensures Sum(Swap(digits, i), weights)
         == Sum(digits, weights) + (weights[i] * Gap(digits, i) + weights[i + 1] * -Gap(digits, i))
  {
    SumAfterMove(digits, weights, i, digits[i + 1], Gap(digits, i));
    SumAfterMove(digits[i := digits[i + 1]], weights, i + 1, digits[i], -Gap(digits, i));
  }

  lemma SumAfterSwap(digits: seq<Digit>, weights: seq<int>, i: nat)
    requires i + 1 < |digits| && i + 1 < |weights|
    ensures Sum(Swap(digits, i), weights)
         == Sum(digits, weights) + (weights[i] - weights[i + 1]) * Gap(digits, i)
  {
    SumAfterTwoChanges(digits, weights, i);
    OppositeMoves(weights[i], weights[i + 1], Gap(digits, i));
  }

  lemma OppositeMoves(v: int, w: int, x: int)
    ensures v * x + w * -x == (v - w) * x
  {
  }

  predicate GoodWeights(weights: seq<int>) {
    && (forall i :: 0 <= i < |weights| ==> 1 <= weights[i] <= 10)
    && (forall i :: 0 <= i < |weights| - 1 ==> weights[i] != weights[i + 1])
  }

  lemma ShiftedResidue(s: int, x: int)
    requires x % 11 != 0
    ensures s % 11 != (s + x) % 11
    ensures s % 11 % 10 == (s + x) % 11 % 10 <==> Collapsed(s % 11, (s + x) % 11)
  {
  }

  /** A changed digit always moves the residue; the check digit misses it only in the 0/10 collapse. */
  lemma ChangeMissedIff(digits: seq<Digit>, weights: seq<int>, i: nat, d: Digit)
    requires i < |digits| && i < |weights| && GoodWeights(weights) && d != digits[i]
    ensures Weighted(digits[i := d], weights) == Weighted(digits, weights)
       <==> Collapsed(Residue(digits, weights), Residue(digits[i := d], weights))
  {
    SumAfterChange(digits, weights, i, d);
    NoZeroDivisors(weights[i], d - digits[i]);
    ShiftedResidue(Sum(digits, weights), weights[i] * (d - digits[i]));
  }

  /** The same for two unequal neighbours that change places. */
  lemma SwapMissedIff(digits: seq<Digit>, weights: seq<int>, i: nat)
    requires i + 1 < |digits| && i + 1 < |weights| && GoodWeights(weights) && digits[i] != digits[i + 1]
    ensures Weighted(Swap(digits, i), weights) == Weighted(digits, weights)
       <==> Collapsed(Residue(digits, weights), Residue(Swap(digits, i), weights))
  {
    var a, delta := weights[i] - weights[i + 1], Gap(digits, i);
    SumAfterSwap(digits, weights, i);
    NoZeroDivisors(a, delta);
    ShiftedResidue(Sum(digits, weights), a * delta);
  }

  // ---- 10-digit numbers ----

  lemma ChangeInPrefix(digits: seq<Digit>, n: nat, i: nat, d: Digit)
    requires n <= |digits| && i < |digits|
    ensures digits[i := d][..n] == if i < n then digits[..n][i := d] else digits[..n]
  {
  }

  lemma SwapInPrefix(digits: seq<Digit>, n: nat, i: nat)
    requires n <= |digits| && i + 1 < n
    ensures Swap(digits, i)[..n] == Swap(digits[..n], i)
  {
  }

  /** A wrong digit in a valid 10-digit number goes unnoticed exactly in the payload's 0/10 collapse. */
  lemma TenDigitChange(ds: seq<Digit>, i: nat, d: Digit)
    requires |ds| == 10 && ChecksumOk(ds) && i < 10 && d != ds[i]
    ensures ChecksumOk(ds[i := d])
       <==> i < 9 && Collapsed(Residue(ds[..9], LEGAL_WEIGHTS), Residue(ds[i := d][..9], LEGAL_WEIGHTS))
    ensures ds[9] != 0 ==> !ChecksumOk(ds[i := d])
  {
    ChangeInPrefix(ds, 9, i, d);
    if i < 9 {
      ChangeMissedIff(ds[..9], LEGAL_WEIGHTS, i, d);
    }
  }

  lemma TenDigitSwap(ds: seq<Digit>, i: nat)
    requires |ds| == 10 && ChecksumOk(ds) && i <= 7 && ds[i] != ds[i + 1]
    ensures ChecksumOk(Swap(ds, i))
       <==> Collapsed(Residue(ds[..9], LEGAL_WEIGHTS), Residue(Swap(ds, i)[..9], LEGAL_WEIGHTS))
    ensures ds[9] != 0 ==> !ChecksumOk(Swap(ds, i))
  {
    SwapInPrefix(ds, 9, i);
    SwapMissedIff(ds[..9], LEGAL_WEIGHTS, i);
  }

  // ---- 12-digit numbers ----

  lemma RowsDiffer(i: nat)
    requires i < 10
    ensures (INDIVIDUAL_WEIGHTS_1[i] - INDIVIDUAL_WEIGHTS_2[i]) % 11 != 0
    ensures (INDIVIDUAL_WEIGHTS_1[i] + INDIVIDUAL_WEIGHTS_2[i]) % 11 != 0
  {
  }

  lemma NeighbourRowsDiffer(i: nat)
    requires i <= 7
    ensures var a, b := INDIVIDUAL_WEIGHTS_1[i] - INDIVIDUAL_WEIGHTS_1[i + 1],
                        INDIVIDUAL_WEIGHTS_2[i] - INDIVIDUAL_WEIGHTS_2[i + 1];
      (a - b) % 11 != 0 && (a + b) % 11 != 0
  {
  }

  lemma ChangeNeverCollapsesBoth(ds: seq<Digit>, i: nat, d: Digit)
    requires |ds| == 12 && i < 10 && d != ds[i]
    ensures !(&& Collapsed(Residue(ds[..10], INDIVIDUAL_WEIGHTS_1), Residue(ds[..10][i := d], INDIVIDUAL_WEIGHTS_1))
              && Collapsed(Residue(ds[..11], INDIVIDUAL_WEIGHTS_2), Residue(ds[..11][i := d], INDIVIDUAL_WEIGHTS_2)))
  {
    SumAfterChange(ds[..10], INDIVIDUAL_WEIGHTS_1, i, d);
    SumAfterChange(ds[..11], INDIVIDUAL_WEIGHTS_2, i, d);
    RowsDiffer(i);
    RowsCoverEachOther(INDIVIDUAL_WEIGHTS_1[i], INDIVIDUAL_WEIGHTS_2[i], d as int - ds[i] as int,
                       Sum(ds[..10], INDIVIDUAL_WEIGHTS_1), Sum(ds[..11], INDIVIDUAL_WEIGHTS_2));
  }

  lemma TwelveDigitPayloadChange(ds: seq<Digit>, i: nat, d: Digit)
    requires |ds| == 12 && ChecksumOk(ds) && i < 10 && d != ds[i]
    ensures ChecksumOk(ds[i := d]) ==>
      && Collapsed(Residue(ds[..10], INDIVIDUAL_WEIGHTS_1), Residue(ds[..10][i := d], INDIVIDUAL_WEIGHTS_1))
      && Collapsed(Residue(ds[..11], INDIVIDUAL_WEIGHTS_2), Residue(ds[..11][i := d], INDIVIDUAL_WEIGHTS_2))
  {
    ChangeInPrefix(ds, 10, i, d);
    ChangeInPrefix(ds, 11, i, d);
    ChangeMissedIff(ds[..10], INDIVIDUAL_WEIGHTS_1, i, d);
    ChangeMissedIff(ds[..11], INDIVIDUAL_WEIGHTS_2, i, d);
  }

  /** No single wrong digit survives: where one row collapses the other does not. */
  lemma TwelveDigitChangeCaught(ds: seq<Digit>, i: nat, d: Digit)
    requires |ds| == 12 && ChecksumOk(ds) && i < 12 && d != ds[i]
    ensures !ChecksumOk(ds[i := d])
  {
    if i < 10 {
      TwelveDigitPayloadChange(ds, i, d);
      ChangeNeverCollapsesBoth(ds, i, d);
    } else {
      ChangeInPrefix(ds, 10, i, d);
      ChangeInPrefix(ds, 11, i, d);
    }
  }

  /** Swapped neighbours at 0..8 survive exactly when both rows collapse. */
  lemma TwelveDigitSwapMissedIff(ds: seq<Digit>, i: nat)
    requires |ds| == 12 && ChecksumOk(ds) && i <= 8 && ds[i] != ds[i + 1]
    ensures ChecksumOk(Swap(ds, i)) <==>
      && Collapsed(Residue(ds[..10], INDIVIDUAL_WEIGHTS_1), Residue(Swap(ds, i)[..10], INDIVIDUAL_WEIGHTS_1))
      && Collapsed(Residue(ds[..11], INDIVIDUAL_WEIGHTS_2), Residue(Swap(ds, i)[..11], INDIVIDUAL_WEIGHTS_2))
  {
    SwapInPrefix(ds, 10, i);
    SwapInPrefix(ds, 11, i);
    SwapMissedIff(ds[..10], INDIVIDUAL_WEIGHTS_1, i);
    SwapMissedIff(ds[..11], INDIVIDUAL_WEIGHTS_2, i);
  }

  lemma SwapNeverCollapsesBoth(ds: seq<Digit>, i: nat)
    requires |ds| == 12 && i <= 7 && ds[i] != ds[i + 1]
    ensures !(&& Collapsed(Residue(ds[..10], INDIVIDUAL_WEIGHTS_1), Residue(Swap(ds[..10], i), INDIVIDUAL_WEIGHTS_1))
              && Collapsed(Residue(ds[..11], INDIVIDUAL_WEIGHTS_2), Residue(Swap(ds[..11], i), INDIVIDUAL_WEIGHTS_2)))
  {
    SumAfterSwap(ds[..10], INDIVIDUAL_WEIGHTS_1, i);
    SumAfterSwap(ds[..11], INDIVIDUAL_WEIGHTS_2, i);
    NeighbourRowsDiffer(i);
    RowsCoverEachOther(INDIVIDUAL_WEIGHTS_1[i] - INDIVIDUAL_WEIGHTS_1[i + 1],
                       INDIVIDUAL_WEIGHTS_2[i] - INDIVIDUAL_WEIGHTS_2[i + 1],
                       Gap(ds, i),
                       Sum(ds[..10], INDIVIDUAL_WEIGHTS_1), Sum(ds[..11], INDIVIDUAL_WEIGHTS_2));
  }

  /** At 0..7 that cannot happen. */
  lemma TwelveDigitSwapCaught(ds: seq<Digit>, i: nat)
    requires |ds| == 12 && ChecksumOk(ds) && i <= 7 && ds[i] != ds[i + 1]
    ensures !ChecksumOk(Swap(ds, i))
  {
    TwelveDigitSwapMissedIff(ds, i);
    SwapInPrefix(ds, 10, i);
    SwapInPrefix(ds, 11, i);
    SwapNeverCollapsesBoth(ds, i);
  }

  // ---- The constructor ----

  datatype InnError = NotTenOrTwelveDigits | ChecksumInvalid
  datatype InnResult = Ok(value: string) | Err(error: InnError)

  predicate IsSpace(c: char) {
    c == ' ' || '\t' <= c <= '\r' || '\U{1C}' <= c <= '\U{1F}'
  }

  function StripLeft(s: string): (r: string)
    ensures r == [] || !IsSpace(r[0])
  {
    if s != [] && IsSpace(s[0]) then StripLeft(s[1..]) else s
  }

  function StripRight(s: string): (r: string)
    ensures r <= s
    ensures r == [] || !IsSpace(r[|r| - 1])
  {
    if s != [] && IsSpace(s[|s| - 1]) then StripRight(s[..|s| - 1]) else s
  }

  function Strip(s: string): string {
    StripRight(StripLeft(s))
  }

  predicate AllDigits(s: string) {
    forall i :: 0 <= i < |s| ==> '0' <= s[i] <= '9'
  }

  function Digits(s: string): (ds: seq<Digit>)
    requires AllDigits(s)
    ensures |ds| == |s|
  {
    seq(|s|, i requires 0 <= i < |s| => s[i] as int - '0' as int)
  }

  /** `INN(value)`: the stored value, or the ValueError raised. */
  function Make(value: string): InnResult {
    var v := Strip(value);
    if !(AllDigits(v) && (|v| == 10 || |v| == 12)) then Err(NotTenOrTwelveDigits)
    else if !ChecksumOk(Digits(v)) then Err(ChecksumInvalid)
    else Ok(v)
  }

  /** Stripping takes whitespace off both ends and stops at the first other character on each side. */
  lemma {:induction false} StripExactly(s: string) returns (i: nat, j: nat)
    ensures i <= j <= |s| && Strip(s) == s[i..j]
    ensures (forall k :: 0 <= k < i ==> IsSpace(s[k])) && (forall k :: j <= k < |s| ==> IsSpace(s[k]))
    ensures i < j ==> !IsSpace(s[i]) && !IsSpace(s[j - 1])
    decreases |s|
  {
    if s == [] {
      i, j := 0, 0;
    } else if IsSpace(s[0]) {
      var a, b := StripExactly(s[1..]);
      i, j := a + 1, b + 1;
      assert s[1..][a..b] == s[i..j];
      forall k | 0 <= k < i
        ensures IsSpace(s[k])
      {
        assert k > 0 ==> IsSpace(s[1..][k - 1]);
      }
      forall k | j <= k < |s|
        ensures IsSpace(s[k])
      {
        assert IsSpace(s[1..][k - 1]);
      }
    } else {
      i := 0;
      j := StripRightExactly(s);
    }
  }

  lemma {:induction false} StripRightExactly(s: string) returns (j: nat)
    ensures j <= |s| && StripRight(s) == s[..j]
    ensures forall k :: j <= k < |s| ==> IsSpace(s[k])
    ensures j > 0 ==> !IsSpace(s[j - 1])
    decreases |s|
  {
    if s != [] && IsSpace(s[|s| - 1]) {
      j := StripRightExactly(s[..|s| - 1]);
      assert s[..|s| - 1][..j] == s[..j];
      forall k | j <= k < |s|
        ensures IsSpace(s[k])
      {
        assert k < |s| - 1 ==> IsSpace(s[..|s| - 1][k]);
      }
    } else {
      j := |s|;
      assert s[..j] == s;
    }
  }

  /** The ASCII characters str.strip removes. */
  const SPACES := [' ', '\t', '\n', '\U{0B}', '\U{0C}', '\r', '\U{1C}', '\U{1D}', '\U{1E}', '\U{1F}']

  lemma SpaceIff(c: char)
    ensures IsSpace(c) <==> c in SPACES
  {
    assert SPACES[0] == ' ' && SPACES[1] == '\t' && SPACES[2] == '\n' && SPACES[3] == '\U{0B}' && SPACES[4] == '\U{0C}';
    assert SPACES[5] == '\r' && SPACES[6] == '\U{1C}' && SPACES[7] == '\U{1D}' && SPACES[8] == '\U{1E}';
    assert SPACES[9] == '\U{1F}';
    if IsSpace(c) {
      assert c as int == 32 || 9 <= c as int <= 13 || 28 <= c as int <= 31;
    }
  }

  /** What the constructor answers: the length error first, then the checksum error, otherwise the stripped text. */
  lemma MakeIff(value: string)
    ensures var v := Strip(value);
      var wellFormed := (forall i :: 0 <= i < |v| ==> '0' <= v[i] <= '9') && (|v| == 10 || |v| == 12);
      && (Make(value) == Err(NotTenOrTwelveDigits) <==> !wellFormed)
      && (Make(value) == Err(ChecksumInvalid) <==> wellFormed && !ChecksumOk(Digits(v)))
      && (Make(value).Ok? <==> wellFormed && ChecksumOk(Digits(v)))
      && (Make(value).Ok? ==> Make(value).value == v)
  {
  }

  lemma MakeOfDigits(value: string, ds: seq<Digit>)
    requires |value| == 10 || |value| == 12
    requires |ds| == |value| && forall i :: 0 <= i < |ds| ==> value[i] as int == '0' as int + ds[i]
    ensures Make(value) == if ChecksumOk(ds) then Ok(value) else Err(ChecksumInvalid)
  {
    DigitsNeedNoStrip(value);
    assert Digits(value) == ds;
  }

  lemma LegalDigits(ds: seq<Digit>)
    requires |ds| == 10 && ds[0] == 7 && ds[1] == 7 && ds[2] == 0 && ds[3] == 7 && ds[4] == 0
    requires ds[5] == 8 && ds[6] == 3 && ds[7] == 8 && ds[8] == 9
    ensures ChecksumOk(ds) <==> ds[9] == 3
  {
    ChecksumIff(ds);
    assert LegalSum(ds) == 267;
  }

  lemma PersonDigits(ds: seq<Digit>)
    requires |ds| == 12 && ds[0] == 5 && ds[1] == 0 && ds[2] == 0 && ds[3] == 1 && ds[4] == 0 && ds[5] == 0
    requires ds[6] == 7 && ds[7] == 3 && ds[8] == 2 && ds[9] == 2 && ds[10] == 5 && ds[11] == 9
    ensures ChecksumOk(ds)
  {
    ChecksumIff(ds);
    assert LegalSum(ds[1..]) == 113 && LegalSum(ds[2..]) == 126;
  }

  /** A legal entity's number passes with its own last digit, 3, and with no other. */
  lemma KnownLegalNumber(value: string, last: char)
    requires value == "770708389" + [last] && '0' <= last <= '9'
    ensures Make(value) == if last == '3' then Ok(value) else Err(ChecksumInvalid)
  {
    var ds := [7, 7, 0, 7, 0, 8, 3, 8, 9, last as int - '0' as int];
    MakeOfDigits(value, ds);
    LegalDigits(ds);
  }

  /** A person's number passes. */
  lemma KnownPersonalNumber(value: string)
    requires value == "500100732259"
    ensures Make(value) == Ok(value)
  {
    var ds := [5, 0, 0, 1, 0, 0, 7, 3, 2, 2, 5, 9];
    MakeOfDigits(value, ds);
    PersonDigits(ds);
  }

  lemma DigitsNeedNoStrip(s: string)
    requires AllDigits(s)
    ensures Strip(s) == s
  {
  }

  /** The text of an accepted number is accepted again, unchanged. */
  lemma MakeRoundTrip(value: string)
    requires Make(value).Ok?
    ensures Make(Make(value).value) == Make(value)
  {
    DigitsNeedNoStrip(Make(value).value);
  }

  /** One mistyped digit in a 12-digit number is always answered with the checksum error. */
  lemma TwelveDigitTypoRejected(value: string, i: nat, c: char)
    requires Make(value) == Ok(value) && |value| == 12 && i < 12
    requires '0' <= c <= '9' && c != value[i]
    ensures Make(value[i := c]) == Err(ChecksumInvalid)
  {
    DigitsNeedNoStrip(value[i := c]);
    StoredIsStripped(value);
    assert Digits(value[i := c]) == Digits(value)[i := c as int - '0' as int];
    TwelveDigitChangeCaught(Digits(value), i, c as int - '0' as int);
  }

  lemma StoredIsStripped(value: string)
    requires Make(value) == Ok(value)
    ensures AllDigits(value) && (|value| == 10 || |value| == 12) && ChecksumOk(Digits(value))
  {
  }

  function Zeros(n: nat): (ds: seq<Digit>)
    ensures |ds| == n
  {
    seq(n, _ => 0)
  }

  lemma {:induction false} SumOfZeros(n: nat, weights: seq<int>)
    ensures Sum(Zeros(n), weights) == 0
  {
    if n > 0 && weights != [] {
      assert Zeros(n)[1..] == Zeros(n - 1);
      SumOfZeros(n - 1, weights[1..]);
    }
  }

  /** What ten digits do miss: residues 0 and 10. */
  lemma UndetectedChange()
    ensures ChecksumOk(Zeros(10)) && ChecksumOk(Zeros(10)[2 := 1])
  {
    assert Zeros(10)[..9] == Zeros(9);
    assert Zeros(10)[2 := 1][..9] == Zeros(9)[2 := 1];
    UndetectedChangeRow(LEGAL_WEIGHTS);
  }

  lemma UndetectedChangeRow(weights: seq<int>)
    requires |weights| == 9 && weights[2] == 10
    ensures Weighted(Zeros(9), weights) == 0 && Weighted(Zeros(9)[2 := 1], weights) == 0
  {
    SumOfZeros(9, weights);
    SumAfterChange(Zeros(9), weights, 2, 1);
  }

  /** What twelve digits do miss: a swap at 8, 9, where both rows weigh the neighbours alike. */
  lemma UndetectedSwap()
    ensures var ds := Zeros(12)[1 := 9][9 := 6];
      ChecksumOk(ds) && ds[8] != ds[9] && ChecksumOk(Swap(ds, 8))
  {
    var ds := Zeros(12)[1 := 9][9 := 6];
    SwapInPrefix(ds, 10, 8);
    SwapInPrefix(ds, 11, 8);
    UndetectedSwapRow(10, INDIVIDUAL_WEIGHTS_1);
    UndetectedSwapRow(11, INDIVIDUAL_WEIGHTS_2);
    assert ds[..10] == Zeros(10)[1 := 9][9 := 6];
    assert ds[..11] == Zeros(11)[1 := 9][9 := 6];
  }

  lemma UndetectedSwapRow(n: nat, weights: seq<int>)
    requires n >= 10 && |weights| == n
    ensures var ds := Zeros(n)[1 := 9][9 := 6];
      && Sum(ds, weights) == 9 * weights[1] + 6 * weights[9]
      && Sum(Swap(ds, 8), weights) == 9 * weights[1] + 6 * weights[8]
  {
    var ds := Zeros(n)[1 := 9][9 := 6];
    SumOfZeros(n, weights);
    SumAfterChange(Zeros(n), weights, 1, 9);
    SumAfterChange(Zeros(n)[1 := 9], weights, 9, 6);
    SumAfterSwap(ds, weights, 8);
  }
}
