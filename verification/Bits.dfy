/**
 Bit strings: the lists of 0/1 that qchat passes between measurement, error correction and key
 extraction. A bit is a `bool` (false is 0, true is 1), so addition modulo 2 is `!=`.
 */
module Bits {
  type Bits = seq<bool>

  function Val(b: bool): nat {
    if b then 1 else 0
  }

  /** How many of the first n bits are 1. */
  function Ones(v: Bits, n: nat): nat
    requires n <= |v|
  {
    if n == 0 then 0 else Ones(v, n - 1) + Val(v[n - 1])
  }

  function Weight(v: Bits): nat {
    Ones(v, |v|)
  }

  function Xor(u: Bits, v: Bits): (r: Bits)
    requires |u| == |v|
    ensures |r| == |u|
    ensures forall i :: 0 <= i < |u| ==> r[i] == (u[i] != v[i])
  {
    seq(|u|, i requires 0 <= i < |u| => u[i] != v[i])
  }

  function Zeros(n: nat): (r: Bits)
    ensures |r| == n
    ensures forall i :: 0 <= i < n ==> !r[i]
  {
    seq(n, i => false)
  }

  /** Hamming distance: the number of positions in which two equally long strings differ. */
  function Distance(u: Bits, v: Bits): nat
    requires |u| == |v|
  {
    Weight(Xor(u, v))
  }

  lemma {:induction false} OnesOfPrefix(u: Bits, v: Bits, n: nat)
    requires n <= |u| && n <= |v|
    requires forall i :: 0 <= i < n ==> u[i] == v[i]
    ensures Ones(u, n) == Ones(v, n)
  {
    if n > 0 { OnesOfPrefix(u, v, n - 1); }
  }

  lemma {:induction false} OnesOfConcat(u: Bits, v: Bits, n: nat)
    requires n <= |v|
    ensures Ones(u + v, |u| + n) == Weight(u) + Ones(v, n)
  {
    if n == 0 {
      OnesOfPrefix(u + v, u, |u|);
    } else {
      OnesOfConcat(u, v, n - 1);
    }
  }

  lemma WeightOfConcat(u: Bits, v: Bits)
    ensures Weight(u + v) == Weight(u) + Weight(v)
  {
    OnesOfConcat(u, v, |v|);
  }

  lemma {:induction false} OnesOfXor(u: Bits, v: Bits, n: nat)
    requires n <= |u| == |v|
    ensures Ones(Xor(u, v), n) <= Ones(u, n) + Ones(v, n)
  {
    if n > 0 { OnesOfXor(u, v, n - 1); }
  }

  lemma WeightOfXor(u: Bits, v: Bits)
    requires |u| == |v|
    ensures Distance(u, v) <= Weight(u) + Weight(v)
  {
    OnesOfXor(u, v, |u|);
  }

  lemma {:induction false} OnesZero(v: Bits, n: nat)
    requires n <= |v|
    ensures Ones(v, n) == 0 <==> forall i :: 0 <= i < n ==> !v[i]
  {
    if n > 0 { OnesZero(v, n - 1); }
  }

  lemma DistanceZero(u: Bits, v: Bits)
    requires |u| == |v|
    ensures Distance(u, v) == 0 <==> u == v
  {
    OnesZero(Xor(u, v), |u|);
    assert u == v <==> forall i :: 0 <= i < |u| ==> !Xor(u, v)[i];
  }

  lemma DistanceOfConcat(u: Bits, v: Bits, s: Bits, t: Bits)
    requires |u| == |v| && |s| == |t|
    ensures Distance(u + s, v + t) == Distance(u, v) + Distance(s, t)
  {
    assert Xor(u + s, v + t) == Xor(u, v) + Xor(s, t);
    WeightOfConcat(Xor(u, v), Xor(s, t));
  }

  lemma XorTwice(u: Bits, v: Bits)
    requires |u| == |v|
    ensures Xor(u, Xor(u, v)) == v
  {
  }
}
