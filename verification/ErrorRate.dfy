/** The error estimate of a BB84 round over whole runs: what is counted, and who discards the round. */
module ErrorRate {
  import opened Bits
  import opened Sampling
  import opened EprTest
  import opened Wire
  import opened KeyProtocol
  import opened Lockstep
  import opened Moves
  import opened Accounts

  /** Both parties have counted the places in which their test bits differ. */
  ghost predicate Counted(s: System) {
    s.leader.phase.Concluding? && s.follower.phase.Concluding? ==>
      var l, f := s.leader.phase, s.follower.phase;
      && |l.testBits| == |f.testBits|
      && l.numError == Distance(l.testBits, f.testBits) == f.numError
  }

  lemma ComparingCounts(t: System, s: System, d: Coins, c: Coins)
    requires ExchangeStep(t, s, d, c) && t.leader.phase.Comparing?
    ensures Counted(s)
  {
    var u, v := t.leader.phase.testBits, t.follower.phase.testBits;
    assert u[..|u|] == u && v[..|v|] == v;
    DistanceIsSymmetric(u, v);
  }

  lemma ConcludingFollowsComparing(t: System, s: System, d: Coins, c: Coins)
    requires ExchangeStep(t, s, d, c) && s.leader.phase.Concluding?
    ensures t.leader.phase.Comparing?
  {
    if !t.leader.phase.Sifting? {
      AnswerIsReady(t, d);
      ListIsCarried(t.leader, Answer(t.leader, t.follower, d), c);
    }
  }

  lemma ExchangesCount(t: System, s: System)
    requires Exchanges(t, s)
    ensures Counted(s)
  {
    var d, c :| ExchangeStep(t, s, d, c);
    if s.leader.phase.Concluding? {
      ConcludingFollowsComparing(t, s, d, c);
      ComparingCounts(t, s, d, c);
    }
  }

  lemma TestSetKeepsPhase(t: System, s: System)
    requires TakesTestSet(t, s)
    ensures s.leader == t.leader && t.leader.phase.Exchanging?
  {
    var d :| TestSetTaken(t, s, d);
  }

  lemma ErrorsAreCounted(run: seq<System>, i: nat)
    requires OrderedRun(run) && i < |run| && Settled(run[i])
    ensures Counted(run[i])
  {
    forall t, s | Exchanges(t, s) ensures Counted(s) { ExchangesCount(t, s); }
    forall t, s | TakesTestSet(t, s) ensures Counted(s) { TestSetKeepsPhase(t, s); }
    OverExchanges(run, i, s => true, s => Counted(s));
  }

  /**
   One verdict: whatever the outcomes, both parties discard the round exactly when there are no test bits
   or their test bits differ in at least 3 of 23 places; otherwise both keep their untested bits.
   */
  lemma RoundsAreJudgedAlike(run: seq<System>, i: nat)
    requires OrderedRun(run) && i < |run| && Settled(run[i]) && run[i].leader.phase.Concluding?
    ensures run[i].follower.phase.Concluding?
    ensures var l, f := run[i].leader.phase, run[i].follower.phase;
            && |l.testBits| == |f.testBits| && |l.x| == |f.x|
            && var noisy := l.testBits == [] || 23 * Distance(l.testBits, f.testBits) >= 3 * |l.testBits|;
               && Distilled(run[i].leader) == (if noisy then [] else l.x)
               && Distilled(run[i].follower) == (if noisy then [] else f.x)
  {
    ErrorsAreCounted(run, i);
  }

  /** A round measures 100 qubits, and tests 25 of the outcomes kept, or all if there are fewer. */
  ghost predicate Shaped(s: System) {
    match s.leader.phase
    case Sifting(x, _) => |x| == ROUND_SIZE
    case Selecting(x, _, bits) => |bits| == Tests(|x| + |bits|)
    case Comparing(x, bits) => |bits| == Tests(|x| + |bits|)
    case Concluding(x, bits, _) => |bits| == Tests(|x| + |bits|)
    case Exchanging(x, _, _, T) => |x| == ROUND_SIZE && |T| == ROUND_SIZE / 2
    case _ => true
  }

  function Tests(kept: nat): nat {
    if kept < TEST_SIZE then kept else TEST_SIZE
  }

  /** How the leader's round goes on. */
  lemma RoundMovesOn(l: Party, m: Message, c: Coins)
    requires Waiting(l) && l.role == Leader && !l.phase.AwaitingTestSet? && Fair(l, m, c)
    ensures var q := Receive(l, m, c).phase;
            && (q.Sifting? ==> l.phase.Distributing? && q.x == l.phase.x && |q.x| >= ROUND_SIZE)
            && (q.Comparing? ==> l.phase.Selecting? && q.x == l.phase.x && q.testBits == l.phase.testBits)
            && (q.Concluding? ==> l.phase.Comparing? && q.x == l.phase.x && q.testBits == l.phase.testBits)
            && (q.Exchanging? ==> l.phase.Sifting? && q.x == l.phase.x && |q.testSet| == |q.x| / 2)
  {
  }

  lemma ShapeIsKept(t: System, s: System)
    requires Exchanges(t, s) && Shaped(t)
    ensures Shaped(s)
  {
    var d, c :| ExchangeStep(t, s, d, c);
    AnswerIsReady(t, d);
    BothHaveMoved(t, d, c);
    ContinuesSystem(s);
    RoundMovesOn(t.leader, Answer(t.leader, t.follower, d), c);
  }

  /** In every run a round measures exactly 100 qubits and tests exactly 25 outcomes, or all if fewer are kept. */
  lemma RoundsHaveShape(run: seq<System>, i: nat)
    requires OrderedRun(run) && i < |run| && Settled(run[i])
    ensures Shaped(run[i])
  {
    forall t, s | Exchanges(t, s) && Shaped(t) ensures Shaped(s) { ShapeIsKept(t, s); }
    forall t, s | TakesTestSet(t, s) && Shaped(t) ensures Shaped(s) { TestSetKeepsPhase(t, s); }
    OverExchanges(run, i, s => true, s => Shaped(s));
  }
}
