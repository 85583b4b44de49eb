/** The two qubits of an EPR pair, and what superdense coding does to them (qchat/protocols.py). */
module Qubits {
  /** The two classical bits that travel on one pair. */
  datatype Quarter = Quarter(b1: bool, b2: bool)

  /** The amplitudes of 00, 01, 10 and 11, the sender's qubit first, up to a positive factor. */
  datatype Pair = Pair(a00: int, a01: int, a10: int, a11: int)

  /** What `createEPR` shares. */
  const EPR := Pair(1, 0, 0, 1)

  /** Gates on the sender's qubit; Cnot is controlled by it. */
  function X(v: Pair): Pair {
    Pair(v.a10, v.a11, v.a00, v.a01)
  }

  function Z(v: Pair): Pair {
    Pair(v.a00, v.a01, -v.a10, -v.a11)
  }

  function Cnot(v: Pair): Pair {
    Pair(v.a00, v.a01, v.a11, v.a10)
  }

  /** Hadamard, times the square root of 2. */
  function H(v: Pair): Pair {
    Pair(v.a00 + v.a10, v.a01 + v.a11, v.a00 - v.a10, v.a01 - v.a11)
  }

  /** The projection on the states in which the sender's qubit reads b. */
  function Collapsed(v: Pair, b: bool): Pair {
    if b then Pair(0, 0, v.a10, v.a11) else Pair(v.a00, v.a01, 0, 0)
  }

  /** Measuring the first qubit can give b: the projection does not vanish. */
  predicate CanRead(v: Pair, b: bool) {
    Collapsed(v, b) != Pair(0, 0, 0, 0)
  }

  /** Measuring the second qubit can give b. */
  predicate CanReadSecond(v: Pair, b: bool) {
    if b then v.a01 != 0 || v.a11 != 0 else v.a00 != 0 || v.a10 != 0
  }

  /** `b1 = qa.measure(); b2 = qb.measure()` can give these bits. */
  predicate CanMeasure(v: Pair, q: Quarter) {
    CanRead(v, q.b1) && CanReadSecond(Collapsed(v, q.b1), q.b2)
  }

  /** The sender's half of the work on one pair of bits. */
  function Encoded(v: Pair, q: Quarter): Pair {
    var x := if q.b2 then X(v) else v;
    if q.b1 then Z(x) else x
  }

  /** The receiver's gates. */
  function Decoded(v: Pair): Pair {
    H(Cnot(v))
  }

  /** The four encodings, which are the Bell states. */
  function Bell(q: Quarter): Pair {
    var sign := if q.b1 then -1 else 1;
    if q.b2 then Pair(0, 1, sign, 0) else Pair(1, 0, 0, sign)
  }

  lemma EncodingsAreBellStates(q: Quarter)
    ensures Encoded(EPR, q) == Bell(q)
  {
  }

  lemma DecodingIsExact(v: Pair)
    ensures Decoded(v) == Pair(v.a00 + v.a11, v.a01 + v.a10, v.a00 - v.a11, v.a01 - v.a10)
  {
  }

  function Amplitude(v: Pair, q: Quarter): int {
    if q.b1 then if q.b2 then v.a11 else v.a10
    else if q.b2 then v.a01 else v.a00
  }

  /** Measuring one qubit after the other gives exactly the outcomes of non-zero amplitude. */
  lemma OutcomesAreAmplitudes(v: Pair, q: Quarter)
    ensures CanMeasure(v, q) <==> Amplitude(v, q) != 0
  {
    var c := Collapsed(v, q.b1);
    assert CanReadSecond(c, q.b2) <==> Amplitude(v, q) != 0;
  }

  lemma BellStatesAreToldApart(q: Quarter, seen: Quarter)
    ensures Amplitude(Decoded(Bell(q)), seen) != 0 <==> seen == q
  {
    DecodingIsExact(Bell(q));
  }

  /** The two bits are read off with certainty: they, and no others, are a possible outcome. */
  lemma {:induction false} DecodingIsCertain(q: Quarter, seen: Quarter)
    ensures CanMeasure(Decoded(Encoded(EPR, q)), seen) <==> seen == q
  {
    EncodingsAreBellStates(q);
    BellStatesAreToldApart(q, seen);
    OutcomesAreAmplitudes(Decoded(Bell(q)), seen);
  }
}
