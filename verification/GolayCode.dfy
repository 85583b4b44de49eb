/**
 The binary Golay code behind qchat/ecc.py: the parity-check matrix, syndromes, their linearity
 over GF(2) and the minimum distance 7.
 */
module GolayCode {
  import opened Bits

  const N := 23
  const CHECKS := 11

  /** `H_Golay`: whether row i has a one in column j. */
  predicate H(i: nat, j: nat) {
    match i
    case 0 => j in {0, 3, 4, 5, 9, 10, 11, 12}
    case 1 => j in {0, 2, 4, 5, 7, 8, 11, 13}
    case 2 => j in {0, 2, 3, 5, 6, 8, 10, 14}
    case 3 => j in {0, 2, 3, 4, 6, 7, 9, 15}
    case 4 => j in {0, 1, 4, 5, 6, 8, 9, 16}
    case 5 => j in {0, 1, 3, 5, 6, 7, 11, 17}
    case 6 => j in {0, 1, 3, 4, 7, 8, 10, 18}
    case 7 => j in {0, 1, 2, 5, 7, 9, 10, 19}
    case 8 => j in {0, 1, 2, 4, 6, 10, 11, 20}
    case 9 => j in {0, 1, 2, 3, 8, 9, 11, 21}
    case _ => j in {1, 2, 3, 4, 5, 6, 7, 8, 9, 10, 11, 22}
  }

  /** The entrywise product of row i of H with v. */
  function Masked(i: nat, v: Bits): Bits {
    seq(|v|, j requires 0 <= j < |v| => H(i, j) && v[j])
  }

  /** The sum, modulo 2, of the first n bits. */
  predicate Odd(t: Bits, n: nat)
    requires n <= |t|
  {
    n > 0 && Odd(t, n - 1) != t[n - 1]
  }

  /** `getSyndrome`: H * v modulo 2. */
  function Syndrome(v: Bits): (s: Bits)
    requires |v| == 23
    ensures |s| == CHECKS
  {
    seq(CHECKS, i requires 0 <= i < CHECKS => Odd(Masked(i, v), N))
  }

  /** The parity test really is the parity of the number of ones. */
  lemma {:induction false} OddIsParity(t: Bits, n: nat)
    requires n <= |t|
    ensures Odd(t, n) <==> Ones(t, n) % 2 == 1
  {
    if n > 0 { OddIsParity(t, n - 1); }
  }

  /** Entry i of the syndrome is the parity of the ones that row i of the matrix selects. */
  lemma SyndromeEntry(v: Bits, i: nat)
    requires |v| == N && i < CHECKS
    ensures Syndrome(v)[i] <==> Weight(seq(N, j requires 0 <= j < N => H(i, j) && v[j])) % 2 == 1
  {
    OddIsParity(Masked(i, v), N);
    assert seq(N, j requires 0 <= j < N => H(i, j) && v[j]) == Masked(i, v);
  }

  /** The rows of `H_Golay`, as they are written in the source. */
  function RowText(i: nat): string {
    match i
    case 0 => "10011100011110000000000"
    case 1 => "10101101100101000000000"
    case 2 => "10110110101000100000000"
    case 3 => "10111011010000010000000"
    case 4 => "11001110110000001000000"
    case 5 => "11010111000100000100000"
    case 6 => "11011001101000000010000"
    case 7 => "11100101011000000001000"
    case 8 => "11101010001100000000100"
    case 9 => "11110000110100000000010"
    case _ => "01111111111100000000001"
  }

  lemma UpperRows(i: nat, j: nat)
    requires i < 4 && j < N
    ensures |RowText(i)| == N && (H(i, j) <==> RowText(i)[j] == '1')
  {
  }

  lemma MiddleRows(i: nat, j: nat)
    requires 4 <= i < 8 && j < N
    ensures |RowText(i)| == N && (H(i, j) <==> RowText(i)[j] == '1')
  {
  }

  lemma LowerRows(i: nat, j: nat)
    requires 8 <= i < CHECKS && j < N
    ensures |RowText(i)| == N && (H(i, j) <==> RowText(i)[j] == '1')
  {
  }

  lemma MatrixIsTheSource(i: nat, j: nat)
    requires i < CHECKS && j < N
    ensures |RowText(i)| == N && (H(i, j) <==> RowText(i)[j] == '1')
  {
    if i < 4 {
      UpperRows(i, j);
    } else if i < 8 {
      MiddleRows(i, j);
    } else {
      LowerRows(i, j);
    }
  }

  lemma {:induction false} OddOfXor(i: nat, u: Bits, v: Bits, n: nat)
    requires n <= |u| == |v|
    ensures Odd(Masked(i, Xor(u, v)), n) == (Odd(Masked(i, u), n) != Odd(Masked(i, v), n))
  {
    if n > 0 { OddOfXor(i, u, v, n - 1); }
  }

  /** Syndromes are linear: the syndrome of a sum is the sum of the syndromes. */
  lemma SyndromeIsLinear(u: Bits, v: Bits)
    requires |u| == N == |v|
    ensures Syndrome(Xor(u, v)) == Xor(Syndrome(u), Syndrome(v))
  {
    forall i | 0 <= i < CHECKS
      ensures Syndrome(Xor(u, v))[i] == Xor(Syndrome(u), Syndrome(v))[i]
    {
      OddOfXor(i, u, v, N);
    }
  }

  // The minimum distance. H has the form [P | I], so a word with a zero syndrome is fixed by its
  // first 12 bits, and the claim is a finite propositional problem, split on the first bits. Every
  // row of H has an even number of ones, so a row's check is a chain of equivalences.

  lemma OddUnrolled(t: Bits)
    requires |t| == 23
    ensures Odd(t, N) == (
      (t[0] <==> t[1] <==> t[2] <==> t[3] <==> t[4] <==> t[5] <==> t[6] <==> t[7] <==> t[8] <==> t[9] <==> t[10])
      <==> (t[11] <==> t[12] <==> t[13] <==> t[14] <==> t[15] <==> t[16])
      <==> (t[17] <==> t[18] <==> t[19] <==> t[20] <==> t[21] <==> t[22]))
  {
    assert Odd(t, 1) == (Odd(t, 0) != t[0]);
    assert Odd(t, 2) == (Odd(t, 1) != t[1]);
    assert Odd(t, 3) == (Odd(t, 2) != t[2]);
    assert Odd(t, 4) == (Odd(t, 3) != t[3]);
    assert Odd(t, 5) == (Odd(t, 4) != t[4]);
    assert Odd(t, 6) == (Odd(t, 5) != t[5]);
    assert Odd(t, 7) == (Odd(t, 6) != t[6]);
    assert Odd(t, 8) == (Odd(t, 7) != t[7]);
    assert Odd(t, 9) == (Odd(t, 8) != t[8]);
    assert Odd(t, 10) == (Odd(t, 9) != t[9]);
    assert Odd(t, 11) == (Odd(t, 10) != t[10]);
    assert Odd(t, 12) == (Odd(t, 11) != t[11]);
    assert Odd(t, 13) == (Odd(t, 12) != t[12]);
    assert Odd(t, 14) == (Odd(t, 13) != t[13]);
    assert Odd(t, 15) == (Odd(t, 14) != t[14]);
    assert Odd(t, 16) == (Odd(t, 15) != t[15]);
    assert Odd(t, 17) == (Odd(t, 16) != t[16]);
    assert Odd(t, 18) == (Odd(t, 17) != t[17]);
    assert Odd(t, 19) == (Odd(t, 18) != t[18]);
    assert Odd(t, 20) == (Odd(t, 19) != t[19]);
    assert Odd(t, 21) == (Odd(t, 20) != t[20]);
    assert Odd(t, 22) == (Odd(t, 21) != t[21]);
    assert Odd(t, 23) == (Odd(t, 22) != t[22]);
  }

  lemma Row0(v: Bits)
    requires |v| == 23 && !Odd(Masked(0, v), N)
    ensures v[0] <==> v[3] <==> v[4] <==> v[5] <==> v[9] <==> v[10] <==> v[11] <==> v[12]
  {
    OddUnrolled(Masked(0, v));
  }

  lemma Row1(v: Bits)
    requires |v| == 23 && !Odd(Masked(1, v), N)
    ensures v[0] <==> v[2] <==> v[4] <==> v[5] <==> v[7] <==> v[8] <==> v[11] <==> v[13]
  {
    OddUnrolled(Masked(1, v));
  }

  lemma Row2(v: Bits)
    requires |v| == 23 && !Odd(Masked(2, v), N)
    ensures v[0] <==> v[2] <==> v[3] <==> v[5] <==> v[6] <==> v[8] <==> v[10] <==> v[14]
  {
    OddUnrolled(Masked(2, v));
  }

  lemma Row3(v: Bits)
    requires |v| == 23 && !Odd(Masked(3, v), N)
    ensures v[0] <==> v[2] <==> v[3] <==> v[4] <==> v[6] <==> v[7] <==> v[9] <==> v[15]
  {
    OddUnrolled(Masked(3, v));
  }

  lemma Row4(v: Bits)
    requires |v| == 23 && !Odd(Masked(4, v), N)
    ensures v[0] <==> v[1] <==> v[4] <==> v[5] <==> v[6] <==> v[8] <==> v[9] <==> v[16]
  {
    OddUnrolled(Masked(4, v));
  }

  lemma Row5(v: Bits)
    requires |v| == 23 && !Odd(Masked(5, v), N)
    ensures v[0] <==> v[1] <==> v[3] <==> v[5] <==> v[6] <==> v[7] <==> v[11] <==> v[17]
  {
    OddUnrolled(Masked(5, v));
  }

  lemma Row6(v: Bits)
    requires |v| == 23 && !Odd(Masked(6, v), N)
    ensures v[0] <==> v[1] <==> v[3] <==> v[4] <==> v[7] <==> v[8] <==> v[10] <==> v[18]
  {
    OddUnrolled(Masked(6, v));
  }

  lemma Row7(v: Bits)
    requires |v| == 23 && !Odd(Masked(7, v), N)
    ensures v[0] <==> v[1] <==> v[2] <==> v[5] <==> v[7] <==> v[9] <==> v[10] <==> v[19]
  {
    OddUnrolled(Masked(7, v));
  }

  lemma Row8(v: Bits)
    requires |v| == 23 && !Odd(Masked(8, v), N)
    ensures v[0] <==> v[1] <==> v[2] <==> v[4] <==> v[6] <==> v[10] <==> v[11] <==> v[20]
  {
    OddUnrolled(Masked(8, v));
  }

  lemma Row9(v: Bits)
    requires |v| == 23 && !Odd(Masked(9, v), N)
    ensures v[0] <==> v[1] <==> v[2] <==> v[3] <==> v[8] <==> v[9] <==> v[11] <==> v[21]
  {
    OddUnrolled(Masked(9, v));
  }

  lemma Row10(v: Bits)
    requires |v| == 23 && !Odd(Masked(10, v), N)
    ensures v[1] <==> v[2] <==> v[3] <==> v[4] <==> v[5] <==> v[6] <==> v[7] <==> v[8] <==> v[9] <==> v[10] <==> v[11] <==> v[22]
  {
    OddUnrolled(Masked(10, v));
  }

  ghost predicate Checks(v: Bits)
    requires |v| == 23
  {
    && (v[0] <==> v[3] <==> v[4] <==> v[5] <==> v[9] <==> v[10] <==> v[11] <==> v[12])
    && (v[0] <==> v[2] <==> v[4] <==> v[5] <==> v[7] <==> v[8] <==> v[11] <==> v[13])
    && (v[0] <==> v[2] <==> v[3] <==> v[5] <==> v[6] <==> v[8] <==> v[10] <==> v[14])
    && (v[0] <==> v[2] <==> v[3] <==> v[4] <==> v[6] <==> v[7] <==> v[9] <==> v[15])
    && (v[0] <==> v[1] <==> v[4] <==> v[5] <==> v[6] <==> v[8] <==> v[9] <==> v[16])
    && (v[0] <==> v[1] <==> v[3] <==> v[5] <==> v[6] <==> v[7] <==> v[11] <==> v[17])
    && (v[0] <==> v[1] <==> v[3] <==> v[4] <==> v[7] <==> v[8] <==> v[10] <==> v[18])
    && (v[0] <==> v[1] <==> v[2] <==> v[5] <==> v[7] <==> v[9] <==> v[10] <==> v[19])
    && (v[0] <==> v[1] <==> v[2] <==> v[4] <==> v[6] <==> v[10] <==> v[11] <==> v[20])
    && (v[0] <==> v[1] <==> v[2] <==> v[3] <==> v[8] <==> v[9] <==> v[11] <==> v[21])
    && (v[1] <==> v[2] <==> v[3] <==> v[4] <==> v[5] <==> v[6] <==> v[7] <==> v[8] <==> v[9] <==> v[10] <==> v[11] <==> v[22])
  }

  function Sum(v: Bits): nat
    requires |v| == 23
  {
    Val(v[0]) + Val(v[1]) + Val(v[2]) + Val(v[3]) + Val(v[4]) + Val(v[5]) + Val(v[6]) + Val(v[7]) +
    Val(v[8]) + Val(v[9]) + Val(v[10]) + Val(v[11]) + Val(v[12]) + Val(v[13]) + Val(v[14]) + Val(v[15]) +
    Val(v[16]) + Val(v[17]) + Val(v[18]) + Val(v[19]) + Val(v[20]) + Val(v[21]) + Val(v[22])
  }

  lemma SumIsWeight(v: Bits)
    requires |v| == 23
    ensures Weight(v) == Sum(v)
  {
    assert Ones(v, 1) == Ones(v, 0) + Val(v[0]);
    assert Ones(v, 2) == Ones(v, 1) + Val(v[1]);
    assert Ones(v, 3) == Ones(v, 2) + Val(v[2]);
    assert Ones(v, 4) == Ones(v, 3) + Val(v[3]);
    assert Ones(v, 5) == Ones(v, 4) + Val(v[4]);
    assert Ones(v, 6) == Ones(v, 5) + Val(v[5]);
    assert Ones(v, 7) == Ones(v, 6) + Val(v[6]);
    assert Ones(v, 8) == Ones(v, 7) + Val(v[7]);
    assert Ones(v, 9) == Ones(v, 8) + Val(v[8]);
    assert Ones(v, 10) == Ones(v, 9) + Val(v[9]);
    assert Ones(v, 11) == Ones(v, 10) + Val(v[10]);
    assert Ones(v, 12) == Ones(v, 11) + Val(v[11]);
    assert Ones(v, 13) == Ones(v, 12) + Val(v[12]);
    assert Ones(v, 14) == Ones(v, 13) + Val(v[13]);
    assert Ones(v, 15) == Ones(v, 14) + Val(v[14]);
    assert Ones(v, 16) == Ones(v, 15) + Val(v[15]);
    assert Ones(v, 17) == Ones(v, 16) + Val(v[16]);
    assert Ones(v, 18) == Ones(v, 17) + Val(v[17]);
    assert Ones(v, 19) == Ones(v, 18) + Val(v[18]);
    assert Ones(v, 20) == Ones(v, 19) + Val(v[19]);
    assert Ones(v, 21) == Ones(v, 20) + Val(v[20]);
    assert Ones(v, 22) == Ones(v, 21) + Val(v[21]);
    assert Ones(v, 23) == Ones(v, 22) + Val(v[22]);
  }

  lemma ZeroSyndromeChecks(v: Bits)
    requires |v| == 23 && Syndrome(v) == Zeros(CHECKS)
    ensures Checks(v)
  {
    assert forall i :: 0 <= i < CHECKS ==> Odd(Masked(i, v), N) == Syndrome(v)[i] == false;
    Row0(v); Row1(v); Row2(v); Row3(v); Row4(v); Row5(v);
    Row6(v); Row7(v); Row8(v); Row9(v); Row10(v);
  }

  lemma HeavyFrom11(v: Bits)
    requires |v| == 23 && Syndrome(v) == Zeros(CHECKS) && v[0] && v[1]
    ensures Weight(v) >= 7
  {
    ZeroSyndromeChecks(v);
    SumIsWeight(v);
  }

  lemma HeavyFrom10(v: Bits)
    requires |v| == 23 && Syndrome(v) == Zeros(CHECKS) && v[0] && !v[1]
    ensures Weight(v) >= 7
  {
    ZeroSyndromeChecks(v);
    SumIsWeight(v);
  }

  lemma HeavyFrom01(v: Bits)
    requires |v| == 23 && Syndrome(v) == Zeros(CHECKS) && !v[0] && v[1]
    ensures Weight(v) >= 7
  {
    ZeroSyndromeChecks(v);
    SumIsWeight(v);
  }

  lemma HeavyFrom001(v: Bits)
    requires |v| == 23 && Syndrome(v) == Zeros(CHECKS) && !v[0] && !v[1] && v[2]
    ensures Weight(v) >= 7
  {
    ZeroSyndromeChecks(v);
    SumIsWeight(v);
  }

  lemma HeavyFrom000(v: Bits)
    requires |v| == 23 && Syndrome(v) == Zeros(CHECKS) && !v[0] && !v[1] && !v[2] && Weight(v) <= 6
    ensures forall i :: 0 <= i < 23 ==> !v[i]
  {
    ZeroSyndromeChecks(v);
    SumIsWeight(v);
  }

  /** A nonzero word with a zero syndrome has weight at least 7. */
  lemma MinimumWeight(v: Bits)
    requires |v| == 23 && Syndrome(v) == Zeros(CHECKS)
    ensures v == Zeros(N) || Weight(v) >= 7
  {
    if v[0] && v[1] {
      HeavyFrom11(v);
    } else if v[0] {
      HeavyFrom10(v);
    } else if v[1] {
      HeavyFrom01(v);
    } else if v[2] {
      HeavyFrom001(v);
    } else if Weight(v) <= 6 {
      HeavyFrom000(v);
    }
  }

  /** Two words with one syndrome that differ in at most 6 places are one word. */
  lemma MinimumDistance(u: Bits, v: Bits)
    requires |u| == N == |v|
    requires Syndrome(u) == Syndrome(v)
    requires Distance(u, v) <= 6
    ensures u == v
  {
    SyndromeIsLinear(u, v);
    assert Xor(Syndrome(u), Syndrome(v)) == Zeros(CHECKS);
    MinimumWeight(Xor(u, v));
    DistanceZero(u, v);
    OnesZero(Xor(u, v), N);
  }
}
