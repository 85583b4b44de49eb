/**
 Information reconciliation: `ECC.chunk`, `ECC.encode` and `ECC.decode` (qchat/ecc.py) lifted to bit
 strings of any length, as `_reconcile_information` (qchat/protocols.py) uses them.
 */
module Reconciliation {
  import opened Bits
  import opened Options
  import opened GolayCode
  import opened GolayDecoding
  import opened EprTest

  /** `ECC.chunk`: codewords of 23 bits, the last one possibly shorter. */
  function Chunk(x: Bits): (chunks: seq<Bits>)
    ensures forall i :: 0 <= i < |chunks| ==> 0 < |chunks[i]| <= N
    ensures forall i :: 0 <= i < |chunks| - 1 ==> |chunks[i]| == N
  {
    if |x| == 0 then [] else if |x| < N then [x] else [x[..N]] + Chunk(x[N..])
  }

  /** `ECC.decode`: None is the KeyError of a syndrome missing from the table. */
  function Decode(dictH: Table, x: Bits, s: Bits): Option<Bits>
    requires |x| == N && |s| == CHECKS
    requires forall k :: k in dictH ==> |dictH[k]| == N
  {
    var cs := Xor(s, Syndrome(x));
    if cs in dictH then Some(Xor(x, dictH[cs])) else None
  }

  /** With the table of `ECC_Golay`, decoding never misses and returns the corrected word. */
  lemma DecodeIsTotal(dictH: Table, x: Bits, s: Bits)
    requires Perfect(dictH) && |x| == N && |s| == CHECKS
    ensures Decode(dictH, x, s) == Some(Corrected(x, s))
  {
    var cs := Xor(s, Syndrome(x));
    LightSyndromesDiffer(dictH[cs], ErrorPattern(cs));
  }

  /** The bits after the last full codeword. */
  function Remainder(x: Bits): (r: Bits)
    ensures |r| < N && |r| <= |x|
  {
    if |x| < N then x else Remainder(x[N..])
  }

  /** The syndromes of the full codewords of x, in order. */
  function Syndromes(x: Bits): (r: seq<Bits>)
    ensures N * |r| + |Remainder(x)| == |x|
    ensures forall i :: 0 <= i < |r| ==> |r[i]| == CHECKS
  {
    if |x| < N then [] else [Syndrome(x[..N])] + Syndromes(x[N..])
  }

  /** The full codewords of x, each decoded against the syndrome in its place. */
  ghost function Corrections(x: Bits, syndromes: seq<Bits>): (r: Bits)
    requires |x| < N * |syndromes| + N
    requires forall i :: 0 <= i < |syndromes| ==> |syndromes[i]| == CHECKS
    ensures |r| + |Remainder(x)| == |x|
  {
    if |x| < N then [] else Corrected(x[..N], syndromes[0]) + Corrections(x[N..], syndromes[1..])
  }

  /** Aligned full codewords differ in at most 3 places. */
  ghost predicate CloseCodewords(x: Bits, z: Bits)
    requires |x| == |z|
  {
    forall i :: 0 <= i < |Chunk(x)| && i < |Chunk(z)| && |Chunk(x)[i]| == N == |Chunk(z)[i]|
                ==> Distance(Chunk(x)[i], Chunk(z)[i]) <= 3
  }

  lemma CloseTail(x: Bits, z: Bits)
    requires |x| == |z| >= N
    ensures CloseCodewords(x, z) <==> Distance(x[..N], z[..N]) <= 3 && CloseCodewords(x[N..], z[N..])
  {
    var u, v := Chunk(x), Chunk(z);
    var u', v' := Chunk(x[N..]), Chunk(z[N..]);
    assert u == [x[..N]] + u' && v == [z[..N]] + v';
    if CloseCodewords(x, z) {
      assert u[0] == x[..N] && v[0] == z[..N];
      forall i | 0 <= i < |u'| && i < |v'| && |u'[i]| == N == |v'[i]| ensures Distance(u'[i], v'[i]) <= 3 {
        assert u'[i] == u[i + 1] && v'[i] == v[i + 1];
      }
    }
    if Distance(x[..N], z[..N]) <= 3 && CloseCodewords(x[N..], z[N..]) {
      forall i | 0 <= i < |u| && i < |v| && |u[i]| == N == |v[i]| ensures Distance(u[i], v[i]) <= 3 {
        if i > 0 { assert u[i] == u'[i - 1] && v[i] == v'[i - 1]; }
      }
    }
  }

  lemma FirstSyndrome(x: Bits, z: Bits)
    requires |x| == |z| >= N
    ensures Corrections(x, Syndromes(z))
         == Corrected(x[..N], Syndrome(z[..N])) + Corrections(x[N..], Syndromes(z[N..]))
  {
    assert Syndromes(z)[0] == Syndrome(z[..N]) && Syndromes(z)[1..] == Syndromes(z[N..]);
  }

  lemma SplitAt(head: Bits, middle: Bits, tail: Bits, z: Bits, n: nat)
    requires n == |head| <= |z|
    ensures (head + middle) + tail == z <==> head == z[..n] && middle + tail == z[n..]
  {
    assert (head + middle) + tail == head + (middle + tail);
    assert z == z[..n] + z[n..];
    if (head + middle) + tail == z {
      assert (head + (middle + tail))[..n] == head && (head + (middle + tail))[n..] == middle + tail;
    }
  }

  /**
   Golay correction of whole strings, exactly: decoding x against the syndromes of z gives back z, up to the
   remainder that both sides keep for later, iff aligned codewords differ in at most 3 places.
   */
  lemma {:induction false} StringIsCorrected(x: Bits, z: Bits)
    requires |x| == |z|
    ensures Corrections(x, Syndromes(z)) + Remainder(z) == z <==> CloseCodewords(x, z)
  {
    if |x| >= N {
      CloseTail(x, z);
      FirstSyndrome(x, z);
      CorrectedIff(x[..N], z[..N]);
      StringIsCorrected(x[N..], z[N..]);
      SplitAt(Corrected(x[..N], Syndrome(z[..N])), Corrections(x[N..], Syndromes(z[N..])), Remainder(z[N..]), z, N);
    }
  }

  /** The k-th codeword of x. */
  function Codeword(x: Bits, k: nat): (r: Bits)
    requires N * k + N <= |x|
    ensures |r| == N
  {
    x[N * k..N * k + N]
  }

  /**
   Which codewords reconciliation leaves wrong: exactly those that differ in more than 3 places before,
   and these differ in at least 7 places after it.
   */
  lemma {:induction false} CodewordIsCorrected(x: Bits, z: Bits, k: nat)
    requires |x| == |z| && N * k + N <= |x|
    ensures N * k + N <= |Corrections(x, Syndromes(z))|
    ensures Codeword(Corrections(x, Syndromes(z)), k) == Corrected(Codeword(x, k), Syndrome(Codeword(z, k)))
    ensures Codeword(Corrections(x, Syndromes(z)), k) == Codeword(z, k)
       <==> Distance(Codeword(x, k), Codeword(z, k)) <= 3
    ensures Distance(Codeword(x, k), Codeword(z, k)) > 3 ==>
              Distance(Codeword(Corrections(x, Syndromes(z)), k), Codeword(z, k)) >= 7
  {
    FirstSyndrome(x, z);
    CorrectedIff(Codeword(x, k), Codeword(z, k));
    if k > 0 {
      CodewordIsCorrected(x[N..], z[N..], k - 1);
      CodewordOfTail(x, x[..N], x[N..], k);
      CodewordOfTail(z, z[..N], z[N..], k);
      CodewordOfTail(Corrections(x, Syndromes(z)), Corrected(x[..N], Syndrome(z[..N])),
                     Corrections(x[N..], Syndromes(z[N..])), k);
    }
  }

  lemma CodewordOfTail(x: Bits, head: Bits, tail: Bits, k: nat)
    requires x == head + tail && |head| == N && k > 0 && N * (k - 1) + N <= |tail|
    ensures N * k + N <= |x| && Codeword(x, k) == Codeword(tail, k - 1)
  {
  }

  /** On the leader's side, decoding against its own syndromes changes nothing. */
  lemma LeaderIsLossless(x: Bits)
    ensures Corrections(x, Syndromes(x)) + Remainder(x) == x && |Remainder(x)| < N
  {
    forall i | 0 <= i < |Chunk(x)| ensures Distance(Chunk(x)[i], Chunk(x)[i]) == 0 {
      DistanceZero(Chunk(x)[i], Chunk(x)[i]);
    }
    StringIsCorrected(x, x);
  }

  lemma {:induction false} ChunkCount(x: Bits)
    ensures N * |Chunk(x)| < |x| + N && |x| <= N * |Chunk(x)|
  {
    if |x| >= N { ChunkCount(x[N..]); }
  }

  lemma Ceiling(n: nat, k: nat)
    requires N * k < n + N && n <= N * k
    ensures k == n / N + if n % N == 0 then 0 else 1
  {
  }

  lemma TailSlices(x: Bits, a: nat)
    requires N + a <= |x|
    ensures x[N..][a..] == x[N + a..]
    ensures N + a + N <= |x| ==> x[N..][a..a + N] == x[N + a..N + a + N]
  {
  }

  lemma {:induction false} SliceAt(x: Bits, i: nat)
    requires i < |Chunk(x)|
    ensures N * i < |x| && Chunk(x)[i] == (if |x| - N * i < N then x[N * i..] else x[N * i..N * i + N])
  {
    if |x| >= N && i > 0 {
      SliceAt(x[N..], i - 1);
      TailSlices(x, N * (i - 1));
    }
  }

  /** Chunk i is the slice that starts at 23 i; there are as many as the length asks for. */
  lemma ChunkAt(x: Bits, i: nat)
    requires i < |Chunk(x)|
    ensures N * i < |x| && Chunk(x)[i] == (if |x| - N * i < N then x[N * i..] else x[N * i..N * i + N])
    ensures |Chunk(x)| == |x| / N + if |x| % N == 0 then 0 else 1
  {
    SliceAt(x, i);
    ChunkCount(x);
    Ceiling(|x|, |Chunk(x)|);
  }

  /** What the loop of `_reconcile_information` reads for its k-th codeword. */
  function SyndromesFor(role: Role, x: Bits, received: seq<Bits>): seq<Bits> {
    if role == Leader then Syndromes(x) else received
  }

  method Correct(dictH: Table, x: Bits, s: Bits) returns (y: Bits)
    requires Perfect(dictH) && |x| == N && |s| == CHECKS
    ensures y == Corrected(x, s)
  {
    DecodeIsTotal(dictH, x, s);
    y := Decode(dictH, x, s).value;
  }

  lemma ChunkStep(y: Bits, chunks: seq<Bits>)
    requires Chunk(y) == chunks && chunks != []
    ensures |chunks[0]| < N ==> chunks[0] == y && |y| < N
    ensures |chunks[0]| == N ==> |y| >= N && chunks[0] == y[..N] && chunks[1..] == Chunk(y[N..])
  {
  }

  /** Enough syndromes for the full codewords of x. */
  ghost predicate Suffice(syndromes: seq<Bits>, x: Bits) {
    |x| < N * |syndromes| + N && forall i :: 0 <= i < |syndromes| ==> |syndromes[i]| == CHECKS
  }

  /** With y and the syndromes r still ahead, `done` is what the loop has reconciled of x. */
  ghost predicate Progress(role: Role, x: Bits, received: seq<Bits>, done: Bits, y: Bits, r: seq<Bits>, k: nat)
    requires Suffice(SyndromesFor(role, x, received), x)
  {
    && Suffice(r, y) && Remainder(y) == Remainder(x)
    && Corrections(x, SyndromesFor(role, x, received)) == done + Corrections(y, r)
    && if role == Leader then r == Syndromes(y) else k <= |received| && r == received[k..]
  }

  lemma ProgressStep(role: Role, x: Bits, received: seq<Bits>, done: Bits, y: Bits, r: seq<Bits>, k: nat)
    requires Suffice(SyndromesFor(role, x, received), x)
    requires Progress(role, x, received, done, y, r, k) && |y| >= N
    ensures role == Follower ==> k < |received|
    ensures var s := if role == Leader then Syndrome(y[..N]) else received[k];
            |s| == CHECKS && Progress(role, x, received, done + Corrected(y[..N], s), y[N..], r[1..], k + 1)
  {
    var s := if role == Leader then Syndrome(y[..N]) else received[k];
    assert r[0] == s;
    assert (done + Corrected(y[..N], s)) + Corrections(y[N..], r[1..]) == done + Corrections(y, r);
  }

  lemma ProgressEnds(role: Role, x: Bits, received: seq<Bits>, done: Bits, y: Bits, r: seq<Bits>, k: nat)
    requires Suffice(SyndromesFor(role, x, received), x)
    requires Progress(role, x, received, done, y, r, k) && |y| < N
    ensures y == Remainder(x) && done == Corrections(x, SyndromesFor(role, x, received))
    ensures Reconciles(role, x, received, done, y)
  {
    ReconciliationMeans(role, x, received);
  }

  /**
   What reconciliation is for: the leader loses nothing; the follower ends with the bits of the string z whose
   syndromes it has received iff the codewords were close.
   */
  ghost predicate Reconciles(role: Role, x: Bits, received: seq<Bits>, reconciled: Bits, remaining: Bits) {
    && |remaining| < N
    && (role == Leader ==> reconciled + remaining == x)
    && (role == Follower ==> forall z: Bits :: |z| == |x| && Syndromes(z) == received ==>
          (reconciled + Remainder(z) == z <==> CloseCodewords(x, z)))
  }

  lemma ReconciliationMeans(role: Role, x: Bits, received: seq<Bits>)
    requires Suffice(SyndromesFor(role, x, received), x)
    ensures Reconciles(role, x, received, Corrections(x, SyndromesFor(role, x, received)), Remainder(x))
  {
    LeaderIsLossless(x);
    forall z: Bits | |z| == |x| && Syndromes(z) == received
      ensures Corrections(x, Syndromes(z)) + Remainder(z) == z <==> CloseCodewords(x, z)
    {
      StringIsCorrected(x, z);
    }
  }

  /**
   `_reconcile_information`, with the peer's messages as a parameter: the leader encodes its own
   codewords, the follower reads the syndromes it has received.
   */
  method ReconcileInformation(role: Role, x: Bits, received: seq<Bits>, dictH: Table)
      returns (remaining: Bits, reconciled: Bits)
    requires Perfect(dictH)
    requires Suffice(SyndromesFor(role, x, received), x)
    ensures remaining == Remainder(x)
    ensures reconciled == Corrections(x, SyndromesFor(role, x, received))
    ensures Reconciles(role, x, received, reconciled, remaining)
  {
    reconciled := [];
    var chunks := Chunk(x);
    ghost var y, r := x, SyndromesFor(role, x, received);
    var k := 0;
    while k < |chunks|
      invariant k <= |chunks| && Chunk(y) == chunks[k..]
      invariant Progress(role, x, received, reconciled, y, r, k)
    {
      var codeword := chunks[k];
      ChunkStep(y, chunks[k..]);
      if |codeword| < N {
        ProgressEnds(role, x, received, reconciled, y, r, k);
        return codeword, reconciled;
      }
      ProgressStep(role, x, received, reconciled, y, r, k);
      var s := if role == Leader then Syndrome(codeword) else received[k];
      var corrected := Correct(dictH, codeword, s);
      reconciled, y, r, k := reconciled + corrected, y[N..], r[1..], k + 1;
    }
    ProgressEnds(role, x, received, reconciled, y, r, k);
    return [], reconciled;
  }
}
