/**
 A BB84 run that ends with different keys: all test bits agree, the outcomes differ by a word of the code, and
 the one amplification round is accepted.
 */
module Disagreement {
  import opened Bits
  import opened Options
  import opened Sampling
  import opened EprTest
  import opened Extraction
  import opened GolayCode
  import opened GolayDecoding
  import opened Wire
  import opened KeyProtocol
  import opened Lockstep
  import opened Moves
  import opened Ordering

  // ----- The noise

  /** A word of the code; its first byte is 64, its second 0. */
  function Noise(): (w: Bits)
    ensures |w| == N
    ensures forall i :: 0 <= i < N ==> (w[i] <==> i == 1 || i >= 16)
  {
    seq(N, i => i == 1 || i >= 16)
  }

  /** What the follower measures; the leader measures zeros. */
  function Outcomes(): (y: Bits)
    ensures |y| == ROUND_SIZE
  {
    Zeros(TEST_SIZE) + Noise() + Zeros(52)
  }

  lemma MaskedNoise(i: nat)
    requires i < CHECKS
    ensures !Odd(Masked(i, Noise()), N)
  {
    var t := Masked(i, Noise());
    OddUnrolled(t);
    assert forall j :: 0 <= j < 23 ==> t[j] == (H(i, j) && (j == 1 || j >= 16));
  }

  lemma NoiseIsACodeword()
    ensures Syndrome(Noise()) == Zeros(CHECKS) == Syndrome(Zeros(N))
  {
    forall i | 0 <= i < CHECKS ensures !Syndrome(Noise())[i] { MaskedNoise(i); }
    ZeroPattern();
  }

  /** The follower's codewords are decoded to themselves. */
  lemma NoiseIsKept()
    ensures Corrected(Noise(), Syndrome(Zeros(N))) == Noise()
    ensures Corrected(Zeros(N), Syndrome(Zeros(N))) == Zeros(N)
  {
    NoiseIsACodeword();
    DistanceZero(Noise(), Noise());
    DistanceZero(Zeros(N), Zeros(N));
    CorrectedIsUnique(Noise(), Noise());
    CorrectedIsUnique(Zeros(N), Zeros(N));
  }

  lemma {:induction false} NumberOfZeros(n: nat)
    ensures Number(Zeros(n)) == 0
  {
    if n > 0 {
      NumberOfZeros(n - 1);
      assert Zeros(n)[..n - 1] == Zeros(n - 1);
    }
  }

  lemma {:induction false} NumberOfNoise(n: nat)
    requires 2 <= n <= 16
    ensures Number(Noise()[..n]) == Power(n - 2)
  {
    var b := Noise()[..n];
    assert b[..n - 1] == Noise()[..n - 1];
    if n == 2 {
      assert b[..1][..0] == [] && Number(b[..1]) == 2 * Number(b[..1][..0]) + Val(b[0]);
    } else {
      NumberOfNoise(n - 1);
    }
  }

  lemma NoiseBlock()
    ensures Number(Noise()[..BLOCK]) == 64 * 256
  {
    NumberOfNoise(16);
    assert Power(7) == 128;
    assert Power(14) == 16384;
  }

  // ----- The round, on the lists

  function SameBases(n: nat): (r: seq<nat>)
    ensures |r| == n && forall i :: 0 <= i < n ==> r[i] == 0
  {
    seq(n, i => 0)
  }

  lemma {:induction false} AllMatch(x: Bits, m: nat, n: nat)
    requires n <= |x| && n <= m
    ensures Matching(x, SameBases(m), SameBases(m), n) == x[..n]
  {
    if n > 0 {
      AllMatch(x, m, n - 1);
      assert x[..n] == x[..n - 1] + [x[n - 1]];
    }
  }

  lemma {:induction false} PopFront(x: Bits, n: nat)
    requires n <= |x|
    ensures PopAll(x, SameBases(n)) == Some(Split(x[..n], x[n..]))
    decreases n
  {
    if n == 0 {
      assert x[..0] == [] && x[0..] == x;
    } else {
      assert Pop(x, 0) == x[1..] && SameBases(n)[1..] == SameBases(n - 1);
      PopFront(x[1..], n - 1);
      assert [x[0]] + x[1..][..n - 1] == x[..n] && x[1..][n - 1..] == x[n..];
    }
  }

  // ----- The run

  /** A run of BB84 for a key of one byte, in whose last state the leader has spoken, and the parties in it. */
  ghost predicate Leads(run: seq<System>, l: Party, f: Party) {
    && OrderedRun(run) && run[0].leader.protocol == Bb84 && run[0].leader.keySize == 1
    && var s := run[|run| - 1]; Spoken(s) && s.leader == l && s.follower == f
  }

  function PartyAt(role: Role, key: seq<nat>, secret: Bits, reconciled: Bits, phase: Phase): Party {
    Party(role, Bb84, 1, key, secret, reconciled, phase)
  }

  /** The draws: basis 0, the outcome, the front of the list as test bits, the seed 128. */
  function Draw(outcome: bool): Coins {
    Coins(0, outcome, SameBases(TEST_SIZE), seq(50, i => i), 128)
  }

  /** One exchange leads the parties l and f, with these outcomes, to l' and f'. */
  ghost predicate Turn(l: Party, f: Party, x: bool, y: bool, l': Party, f': Party) {
    && Waiting(l) && Waiting(f) && |Heard(l, f)| == 1 && |Sent(f, Heard(l, f)[0], Draw(y))| == 1
    && Fair(l, Answer(l, f, Draw(y)), Draw(x))
    && f' == Receive(f, Heard(l, f)[0], Draw(y)) && l' == Receive(l, Answer(l, f, Draw(y)), Draw(x))
  }

  lemma TurnIsExchange(t: System, x: bool, y: bool, l': Party, f': Party) returns (u: System, s: System)
    requires Spoken(t) && !t.follower.phase.AwaitingTestSet? && Turn(t.leader, t.follower, x, y, l', f')
    ensures NextInOrder(t, u) && NextInOrder(u, s) && (Spoken(s) || Over(s))
    ensures s.leader == l' && s.follower == f'
  {
    u, s := ExchangeWith(t, Draw(y), Draw(x));
    PartiesReceive(t, s, Draw(y), Draw(x));
  }

  lemma TakeTurn(run: seq<System>, l: Party, f: Party, x: bool, y: bool, l': Party, f': Party)
    returns (longer: seq<System>)
    requires Leads(run, l, f) && !f.phase.AwaitingTestSet? && Turn(l, f, x, y, l', f')
    ensures OrderedRun(longer) && longer[0] == run[0]
    ensures longer[|longer| - 1].leader == l' && longer[|longer| - 1].follower == f'
    ensures !l'.phase.Done? && !l'.phase.Aborted? ==> Leads(longer, l', f')
  {
    var u, s := TurnIsExchange(run[|run| - 1], x, y, l', f');
    RunGoesOn(run, u);
    RunGoesOn(run + [u], s);
    longer := run + [u] + [s];
  }

  /** A turn, from what is said and what the two waits return to. */
  lemma TurnBy(l: Party, f: Party, x: bool, y: bool, m: Body, a: Body, l': Party, f': Party)
    requires Waiting(l) && Waiting(f) && l.role == Leader && f.role == Follower && !l.phase.Exchanging?
    requires Expected(l) == Expected(f) == BB84
    requires Speak(l) == [Message(BB84, m)] && Reply(f, m) == [Message(BB84, a)]
    requires Fair(l, Message(BB84, a), Draw(x))
    requires f' == Resume(f, m, Draw(y)) && l' == Resume(l, a, Draw(x))
    ensures Turn(l, f, x, y, l', f')
  {
  }

  lemma OpeningTurn()
    ensures var l := PartyAt(Leader, [], [], [], Opening);
            Turn(l, l.(role := Follower), false, false,
                 PartyAt(Leader, [], [], [], Distributing(Zeros(1), SameBases(1))),
                 PartyAt(Follower, [], [], [], Distributing(Outcomes()[..1], SameBases(1))))
  {
    assert Outcomes()[..1] == Zeros(1) == [false] && SameBases(1) == [0];
  }

  lemma QubitTurn(n: nat)
    requires 1 <= n < ROUND_SIZE
    ensures Turn(PartyAt(Leader, [], [], [], Distributing(Zeros(n), SameBases(n))),
                 PartyAt(Follower, [], [], [], Distributing(Outcomes()[..n], SameBases(n))),
                 false, Outcomes()[n],
                 PartyAt(Leader, [], [], [], Distributing(Zeros(n + 1), SameBases(n + 1))),
                 PartyAt(Follower, [], [], [], Distributing(Outcomes()[..n + 1], SameBases(n + 1))))
  {
    assert Zeros(n) + [false] == Zeros(n + 1) && SameBases(n) + [0] == SameBases(n + 1);
    assert Outcomes()[..n] + [Outcomes()[n]] == Outcomes()[..n + 1];
  }

  lemma LastQubitTurn()
    ensures Turn(PartyAt(Leader, [], [], [], Distributing(Zeros(ROUND_SIZE), SameBases(ROUND_SIZE))),
                 PartyAt(Follower, [], [], [], Distributing(Outcomes(), SameBases(ROUND_SIZE))), false, false,
                 PartyAt(Leader, [], [], [], Sifting(Zeros(ROUND_SIZE), SameBases(ROUND_SIZE))),
                 PartyAt(Follower, [], [], [], Sifting(Outcomes(), SameBases(ROUND_SIZE))))
  {
  }

  lemma SiftingTurn()
    ensures Turn(PartyAt(Leader, [], [], [], Sifting(Zeros(ROUND_SIZE), SameBases(ROUND_SIZE))),
                 PartyAt(Follower, [], [], [], Sifting(Outcomes(), SameBases(ROUND_SIZE))), false, false,
                 PartyAt(Leader, [], [], [], Selecting(Zeros(75), SameBases(TEST_SIZE), Zeros(TEST_SIZE))),
                 PartyAt(Follower, [], [], [], Selecting(Outcomes(), [], [])))
  {
    var theta := SameBases(ROUND_SIZE);
    var l := PartyAt(Leader, [], [], [], Sifting(Zeros(ROUND_SIZE), theta));
    var f := PartyAt(Follower, [], [], [], Sifting(Outcomes(), theta));
    SiftingResumes(false);
    TurnBy(l, f, false, false, Bases(theta), Bases(theta),
           PartyAt(Leader, [], [], [], Selecting(Zeros(75), SameBases(TEST_SIZE), Zeros(TEST_SIZE))),
           PartyAt(Follower, [], [], [], Selecting(Outcomes(), [], [])));
  }

  lemma ZerosSift()
    ensures Filtered(Zeros(ROUND_SIZE), SameBases(ROUND_SIZE), SameBases(ROUND_SIZE)) == Zeros(ROUND_SIZE)
    ensures Filtered(Outcomes(), SameBases(ROUND_SIZE), SameBases(ROUND_SIZE)) == Outcomes()
    ensures PopAll(Zeros(ROUND_SIZE), SameBases(TEST_SIZE)) == Some(Split(Zeros(TEST_SIZE), Zeros(75)))
  {
    var x, y := Zeros(ROUND_SIZE), Outcomes();
    AllMatch(x, ROUND_SIZE, ROUND_SIZE);
    AllMatch(y, ROUND_SIZE, ROUND_SIZE);
    assert x[..ROUND_SIZE] == x && y[..ROUND_SIZE] == y;
    PopFront(x, TEST_SIZE);
    assert x[..TEST_SIZE] == Zeros(TEST_SIZE) && x[TEST_SIZE..] == Zeros(75);
  }

  lemma SiftingResumes(x: bool)
    ensures var theta := SameBases(ROUND_SIZE);
            var l := PartyAt(Leader, [], [], [], Sifting(Zeros(ROUND_SIZE), theta));
            var f := PartyAt(Follower, [], [], [], Sifting(Outcomes(), theta));
            && ResumeSifting(l, Bases(theta), Draw(x))
               == PartyAt(Leader, [], [], [], Selecting(Zeros(75), SameBases(TEST_SIZE), Zeros(TEST_SIZE)))
            && ResumeSifting(f, Bases(theta), Draw(x)) == PartyAt(Follower, [], [], [], Selecting(Outcomes(), [], []))
            && Fair(l, Message(BB84, Bases(theta)), Draw(x))
  {
    ZerosSift();
  }

  lemma PartsOf(a: Bits, b: Bits, c: Bits)
    ensures (a + b + c)[..|a|] == a && (a + b + c)[|a|..] == b + c
  {
    assert a + b + c == a + (b + c);
  }

  lemma SelectingTurn()
    ensures Turn(PartyAt(Leader, [], [], [], Selecting(Zeros(75), SameBases(TEST_SIZE), Zeros(TEST_SIZE))),
                 PartyAt(Follower, [], [], [], Selecting(Outcomes(), [], [])), false, false,
                 PartyAt(Leader, [], [], [], Comparing(Zeros(75), Zeros(TEST_SIZE))),
                 PartyAt(Follower, [], [], [], Comparing(Noise() + Zeros(52), Zeros(TEST_SIZE))))
  {
    PopFront(Outcomes(), TEST_SIZE);
    PartsOf(Zeros(TEST_SIZE), Noise(), Zeros(52));
  }

  lemma ComparingTurn()
    ensures Turn(PartyAt(Leader, [], [], [], Comparing(Zeros(75), Zeros(TEST_SIZE))),
                 PartyAt(Follower, [], [], [], Comparing(Noise() + Zeros(52), Zeros(TEST_SIZE))), false, false,
                 PartyAt(Leader, [], [], [], Concluding(Zeros(75), Zeros(TEST_SIZE), 0)),
                 PartyAt(Follower, [], [], [], Concluding(Noise() + Zeros(52), Zeros(TEST_SIZE), 0)))
  {
    var u := Zeros(TEST_SIZE);
    assert u[..|u|] == u;
    DistanceZero(u, u);
  }

  lemma ConcludingTurn()
    ensures Turn(PartyAt(Leader, [], [], [], Concluding(Zeros(75), Zeros(TEST_SIZE), 0)),
                 PartyAt(Follower, [], [], [], Concluding(Noise() + Zeros(52), Zeros(TEST_SIZE), 0)), false, false,
                 PartyAt(Leader, [], Zeros(75), [], Reconciling(Zeros(75), [])),
                 PartyAt(Follower, [], Noise() + Zeros(52), [], Reconciling(Noise() + Zeros(52), [])))
  {
    assert [] + Zeros(75) == Zeros(75) && [] + (Noise() + Zeros(52)) == Noise() + Zeros(52);
  }

  /** A codeword of which more are to come; u and v are the follower's and its rest. */
  lemma CodewordTurn(secret: Bits, secret': Bits, rest: nat, u: Bits, done: nat, done': Bits)
    requires rest >= N && |u| == N && Corrected(u, Syndrome(Zeros(N))) == u
    ensures Turn(PartyAt(Leader, [], secret, [], Reconciling(Zeros(N + rest), Zeros(done))),
                 PartyAt(Follower, [], secret', [], Reconciling(u + Zeros(rest), done')), false, false,
                 PartyAt(Leader, [], secret, [], Reconciling(Zeros(rest), Zeros(done + N))),
                 PartyAt(Follower, [], secret', [], Reconciling(Zeros(rest), done' + u)))
  {
    var z := Zeros(N + rest);
    assert z[..N] == Zeros(N) && z[N..] == Zeros(rest) && Zeros(done) + Zeros(N) == Zeros(done + N);
    assert (u + Zeros(rest))[..N] == u && (u + Zeros(rest))[N..] == Zeros(rest);
    NoiseIsKept();
  }

  lemma LastCodewordTurn(secret: Bits, secret': Bits)
    ensures Turn(PartyAt(Leader, [], secret, [], Reconciling(Zeros(29), Zeros(46))),
                 PartyAt(Follower, [], secret', [], Reconciling(Zeros(29), Noise() + Zeros(N))), false, false,
                 PartyAt(Leader, [], Zeros(6), Zeros(53), Amplifying(0, 0, 128)),
                 PartyAt(Follower, [], Zeros(6), Noise()[BLOCK..] + Zeros(46), Amplifying(64, 0, 128)))
  {
    var l := PartyAt(Leader, [], secret, [], Reconciling(Zeros(29), Zeros(46)));
    var f := PartyAt(Follower, [], secret', [], Reconciling(Zeros(29), Noise() + Zeros(N)));
    var s := Syndrome(Zeros(N));
    assert Zeros(29)[..N] == Zeros(N) && Zeros(29)[N..] == Zeros(6);
    NoiseIsKept();
    BlocksAreTaken();
    assert [] + (Zeros(46) + Zeros(N)) == Zeros(69);
    assert [] + ((Noise() + Zeros(N)) + Zeros(N)) == Noise() + Zeros(46);
    TurnBy(l, f, false, false, SyndromeOf(s), Ack(true), Decoded(l, s, Draw(false)), Decoded(f, s, Draw(false)));
  }

  /** The first amplification round of either party, from its reconciled bits. */
  lemma BlocksAreTaken()
    ensures Advance(PartyAt(Leader, [], Zeros(6), Zeros(69), Opening), Draw(false))
         == PartyAt(Leader, [], Zeros(6), Zeros(53), Amplifying(0, 0, 128))
    ensures Advance(PartyAt(Follower, [], Zeros(6), Noise() + Zeros(46), Opening), Draw(false))
         == PartyAt(Follower, [], Zeros(6), Noise()[BLOCK..] + Zeros(46), Amplifying(64, 0, 128))
  {
    var r, r' := Zeros(69), Noise() + Zeros(46);
    assert r[..BLOCK] == Zeros(BLOCK) && r[BLOCK..] == Zeros(53);
    assert r'[..BLOCK] == Noise()[..BLOCK] && r'[BLOCK..] == Noise()[BLOCK..] + Zeros(46);
    NumberOfZeros(BLOCK);
    NoiseBlock();
  }

  /** The first key byte, for a product that is a multiple of 256. */
  lemma AmplifyingTurn(secret: Bits, rest: Bits, rest': Bits, f0: nat, seed: nat, q: nat)
    requires seed * f0 == 256 * q && q < 256
    ensures Turn(PartyAt(Leader, [], secret, rest, Amplifying(0, 0, seed)),
                 PartyAt(Follower, [], secret, rest', Amplifying(f0, 0, seed)), false, false,
                 PartyAt(Leader, [0], secret, rest, Finishing), PartyAt(Follower, [q], secret, rest', Finishing))
  {
    MultiplesShareTag(seed, f0, q);
    assert seed * f0 < 65536;
  }

  lemma FinishingTurn(secret: Bits, rest: Bits, rest': Bits)
    ensures Turn(PartyAt(Leader, [0], secret, rest, Finishing), PartyAt(Follower, [32], secret, rest', Finishing),
                 false, false,
                 PartyAt(Leader, [0], secret, rest, Done), PartyAt(Follower, [32], secret, rest', Done))
  {
  }

  // ----- All together

  lemma RunStarts() returns (run: seq<System>)
    ensures Leads(run, PartyAt(Leader, [], [], [], Opening), PartyAt(Follower, [], [], [], Opening))
  {
    var l := PartyAt(Leader, [], [], [], Opening);
    run := [System(l, l.(role := Follower), Speak(l), [], History(0, [], 0, 0, []))];
  }

  lemma {:induction false} QubitsAreMeasured(n: nat) returns (run: seq<System>)
    requires 1 <= n <= ROUND_SIZE
    ensures Leads(run, PartyAt(Leader, [], [], [], Distributing(Zeros(n), SameBases(n))),
                  PartyAt(Follower, [], [], [], Distributing(Outcomes()[..n], SameBases(n))))
  {
    var x, y := Zeros(n), Outcomes()[..n];
    var l := PartyAt(Leader, [], [], [], Distributing(x, SameBases(n)));
    var f := PartyAt(Follower, [], [], [], Distributing(y, SameBases(n)));
    if n == 1 {
      run := RunStarts();
      OpeningTurn();
      run := TakeTurn(run, PartyAt(Leader, [], [], [], Opening), PartyAt(Follower, [], [], [], Opening),
                      false, false, l, f);
    } else {
      run := QubitsAreMeasured(n - 1);
      QubitTurn(n - 1);
      run := TakeTurn(run, PartyAt(Leader, [], [], [], Distributing(Zeros(n - 1), SameBases(n - 1))),
                      PartyAt(Follower, [], [], [], Distributing(Outcomes()[..n - 1], SameBases(n - 1))),
                      false, Outcomes()[n - 1], l, f);
    }
  }

  /** The round ends: no error has been counted, all 75 bits are kept. */
  lemma RoundIsKept() returns (run: seq<System>)
    ensures Leads(run, PartyAt(Leader, [], Zeros(75), [], Reconciling(Zeros(75), [])),
                  PartyAt(Follower, [], Noise() + Zeros(52), [], Reconciling(Noise() + Zeros(52), [])))
  {
    var zeros, noisy, t := Zeros(75), Noise() + Zeros(52), Zeros(TEST_SIZE);
    var l := PartyAt(Leader, [], [], [], Distributing(Zeros(ROUND_SIZE), SameBases(ROUND_SIZE)));
    var f := PartyAt(Follower, [], [], [], Distributing(Outcomes(), SameBases(ROUND_SIZE)));
    run := QubitsAreMeasured(ROUND_SIZE);
    assert Outcomes()[..ROUND_SIZE] == Outcomes();
    LastQubitTurn();
    var l1 := l.(phase := Sifting(Zeros(ROUND_SIZE), SameBases(ROUND_SIZE)));
    var f1 := f.(phase := Sifting(Outcomes(), SameBases(ROUND_SIZE)));
    run := TakeTurn(run, l, f, false, false, l1, f1);
    SiftingTurn();
    var l2 := l.(phase := Selecting(zeros, SameBases(TEST_SIZE), t));
    var f2 := f.(phase := Selecting(Outcomes(), [], []));
    run := TakeTurn(run, l1, f1, false, false, l2, f2);
    SelectingTurn();
    var l3, f3 := l.(phase := Comparing(zeros, t)), f.(phase := Comparing(noisy, t));
    run := TakeTurn(run, l2, f2, false, false, l3, f3);
    ComparingTurn();
    var l4, f4 := l.(phase := Concluding(zeros, t, 0)), f.(phase := Concluding(noisy, t, 0));
    run := TakeTurn(run, l3, f3, false, false, l4, f4);
    ConcludingTurn();
    run := TakeTurn(run, l4, f4, false, false, PartyAt(Leader, [], zeros, [], Reconciling(zeros, [])),
                    PartyAt(Follower, [], noisy, [], Reconciling(noisy, [])));
  }

  /** Reconciliation leaves the difference as it is. */
  lemma NoiseIsReconciled() returns (run: seq<System>)
    ensures Leads(run, PartyAt(Leader, [], Zeros(6), Zeros(53), Amplifying(0, 0, 128)),
                  PartyAt(Follower, [], Zeros(6), Noise()[BLOCK..] + Zeros(46), Amplifying(64, 0, 128)))
  {
    var zeros, noisy := Zeros(75), Noise() + Zeros(52);
    var l := PartyAt(Leader, [], zeros, [], Reconciling(zeros, []));
    var f := PartyAt(Follower, [], noisy, [], Reconciling(noisy, []));
    run := RoundIsKept();
    NoiseIsKept();
    CodewordTurn(zeros, noisy, 52, Noise(), 0, []);
    assert Zeros(0) == [] && [] + Noise() == Noise();
    var l1, f1 := l.(phase := Reconciling(Zeros(52), Zeros(23))), f.(phase := Reconciling(Zeros(52), Noise()));
    run := TakeTurn(run, l, f, false, false, l1, f1);
    CodewordTurn(zeros, noisy, 29, Zeros(N), 23, Noise());
    assert Zeros(N) + Zeros(29) == Zeros(52);
    var l2 := l.(phase := Reconciling(Zeros(29), Zeros(46)));
    var f2 := f.(phase := Reconciling(Zeros(29), Noise() + Zeros(N)));
    run := TakeTurn(run, l1, f1, false, false, l2, f2);
    LastCodewordTurn(zeros, noisy);
    run := TakeTurn(run, l2, f2, false, false, PartyAt(Leader, [], Zeros(6), Zeros(53), Amplifying(0, 0, 128)),
                    PartyAt(Follower, [], Zeros(6), Noise()[BLOCK..] + Zeros(46), Amplifying(64, 0, 128)));
  }

  /**
   Keys can differ: an ordered run of BB84 in which no exception is raised, both parties are done, and their
   keys are [0] and [32]. So the agreement of keys does need close codewords.
   */
  lemma KeysCanDiffer() returns (run: seq<System>)
    ensures OrderedRun(run) && run[0].leader.protocol == Bb84 && run[0].leader.keySize == 1
    ensures var s := run[|run| - 1]; s.leader.phase.Done? && s.follower.phase.Done?
                                     && s.leader.key == [0] && s.follower.key == [32]
  {
    var secret, rest, rest' := Zeros(6), Zeros(53), Noise()[BLOCK..] + Zeros(46);
    run := NoiseIsReconciled();
    AmplifyingTurn(secret, rest, rest', 64, 128, 32);
    run := TakeTurn(run, PartyAt(Leader, [], secret, rest, Amplifying(0, 0, 128)),
                    PartyAt(Follower, [], secret, rest', Amplifying(64, 0, 128)), false, false,
                    PartyAt(Leader, [0], secret, rest, Finishing), PartyAt(Follower, [32], secret, rest', Finishing));
    FinishingTurn(secret, rest, rest');
    run := TakeTurn(run, PartyAt(Leader, [0], secret, rest, Finishing),
                    PartyAt(Follower, [32], secret, rest', Finishing), false, false,
                    PartyAt(Leader, [0], secret, rest, Done), PartyAt(Follower, [32], secret, rest', Done));
  }
}
