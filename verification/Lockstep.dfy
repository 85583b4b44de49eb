/**
 Lockstep: whatever the two parties measure and draw, they stay at the same point of the protocol with
 lists of equal lengths. The invariant describes the states in which the leader has spoken; one
 exchange, follower first, leads from such a state to the next.
 */
module Lockstep {
  import opened Bits
  import opened Sampling
  import opened EprTest
  import opened Extraction
  import opened GolayCode
  import opened GolayDecoding
  import opened Wire
  import opened KeyProtocol

  /** Same protocol and key size, lists of equal lengths. */
  ghost predicate SamePace(l: Party, f: Party) {
    && l.role == Leader && f.role == Follower
    && l.protocol == f.protocol && l.keySize == f.keySize
    && |l.key| == |f.key| && |l.secret| == |f.secret| && |l.reconciled| == |f.reconciled|
  }

  /** The phases of leader and follower, and the sizes of their local lists, fit together. */
  ghost predicate Matched(l: Party, f: Party) {
    match l.phase
    case Opening => l.role == Leader && f.role == Follower && Fresh(l) && Fresh(f)
    case Distributing(x, theta) =>
      && SamePace(l, f) && f.phase.Distributing?
      && |x| == |theta| == |f.phase.x| == |f.phase.theta| <= ROUND_SIZE
    case Sifting(x, theta) =>
      && SamePace(l, f) && f.phase.Sifting?
      && |x| == |theta| == |f.phase.x| == |f.phase.theta|
    case Selecting(x, indices, bits) =>
      && SamePace(l, f) && f.phase.Selecting? && l.protocol == Bb84
      && PickedBy(indices, |f.phase.x|) && |x| + |bits| == |f.phase.x| && |bits| == |indices|
    case Comparing(x, bits) =>
      && SamePace(l, f) && f.phase.Comparing? && l.protocol == Bb84
      && |x| == |f.phase.x| && |bits| == |f.phase.testBits|
    case Concluding(x, bits, e) =>
      && SamePace(l, f) && f.phase.Concluding? && l.protocol == Bb84
      && |x| == |f.phase.x| && |bits| == |f.phase.testBits| && e == f.phase.numError
    case Exchanging(x, theta, thetaHat, T) =>
      && SamePace(l, f) && l.protocol == Diqkd && InRange(T, |x|) && |theta| == |thetaHat| == |x|
      && (f.phase.AwaitingTestSet? || (f.phase.Exchanging? && f.phase.testSet == T))
      && |f.phase.x| == |x| && f.phase.theta == thetaHat && f.phase.thetaHat == theta
    case Reconciling(rest, corrected) =>
      && SamePace(l, f) && f.phase.Reconciling?
      && |rest| == |f.phase.rest| >= N && |corrected| == |f.phase.corrected|
    case Amplifying(x0, x1, seed) =>
      && SamePace(l, f) && f.phase.Amplifying?
      && x0 < 256 && x1 < 256 && seed < 256 && f.phase.x0 < 256 && f.phase.x1 < 256
    case Finishing => SamePace(l, f) && f.phase.Finishing?
    case _ => false
  }

  /** The follower's next message in a matched state. */
  ghost function Heard(l: Party, f: Party): seq<Message> {
    if l.phase.Exchanging? && f.phase.Exchanging? && |Speak(l)| == 2 then Speak(l)[1..] else Speak(l)
  }

  /** The leader has spoken, the follower has not yet reacted. */
  ghost predicate Spoken(s: System) {
    Matched(s.leader, s.follower) && s.toFollower == Heard(s.leader, s.follower) && s.toLeader == []
  }

  lemma NumberFits(b: Bits)
    requires |b| == BLOCK
    ensures Number(b) / 256 < 256 && Number(b) % 256 < 256
  {
    TwoBytes(b);
  }

  /** Parties in step that go on from a loop head arrive at the same wait. */
  lemma AdvanceMatches(l: Party, f: Party, c: Coins, d: Coins)
    requires SamePace(l, f) && c.seed < 256
    ensures Matched(Advance(l, c), Advance(f, d))
    ensures Waiting(Advance(l, c)) && Waiting(Advance(f, d))
    ensures !Advance(f, d).phase.Exchanging?
  {
    if |l.key| < l.keySize && |l.reconciled| >= BLOCK {
      NumberFits(l.reconciled[..BLOCK]);
      NumberFits(f.reconciled[..BLOCK]);
    }
  }


  ghost predicate Ended(l: Party, f: Party) {
    && SamePace(l, f)
    && ((l.phase.Done? && f.phase.Done?) || (l.phase.Aborted? && f.phase.Aborted? && l.protocol == Diqkd))
  }

  ghost predicate Continues(l: Party, f: Party) {
    (Matched(l, f) && !f.phase.Exchanging?) || Ended(l, f)
  }

  /** The follower's answer to the leader's message, where there is exactly one. */
  ghost function Answer(l: Party, f: Party, d: Coins): Message
    requires Waiting(f) && |Heard(l, f)| == 1 && |Sent(f, Heard(l, f)[0], d)| == 1
  {
    Sent(f, Heard(l, f)[0], d)[0]
  }

  /** The draws of one exchange. */
  ghost predicate FairExchange(l: Party, f: Party, c: Coins, d: Coins) {
    && c.seed < 256
    && (Waiting(f) && |Heard(l, f)| == 1 && |Sent(f, Heard(l, f)[0], d)| == 1 ==> Fair(l, Answer(l, f, d), c))
  }

  ghost predicate GoesOn(l: Party, f: Party, c: Coins, d: Coins) {
    && Waiting(l) && Waiting(f) && |Heard(l, f)| == 1 && |Sent(f, Heard(l, f)[0], d)| == 1
    && var f' := Receive(f, Heard(l, f)[0], d);
       var l' := Receive(l, Answer(l, f, d), c);
       Continues(l', f') && Sent(l, Answer(l, f, d), c) == Speak(l')
  }

  lemma OpeningExchange(l: Party, f: Party, c: Coins, d: Coins)
    requires Matched(l, f) && l.phase.Opening? && FairExchange(l, f, c, d)
    ensures GoesOn(l, f, c, d)
  {
    AdvanceMatches(l, f.(protocol := l.protocol, keySize := l.keySize), c, d);
  }

  lemma DistributingExchange(l: Party, f: Party, c: Coins, d: Coins)
    requires Matched(l, f) && l.phase.Distributing? && FairExchange(l, f, c, d)
    ensures GoesOn(l, f, c, d)
  {
  }

  lemma SiftingExchangeBb84(l: Party, f: Party, c: Coins, d: Coins)
    requires Matched(l, f) && l.phase.Sifting? && l.protocol == Bb84 && FairExchange(l, f, c, d)
    ensures GoesOn(l, f, c, d)
  {
    var x, theta, y, thetaHat := l.phase.x, l.phase.theta, f.phase.x, f.phase.theta;
    MatchingMirrors(x, y, theta, thetaHat, |x|);
    PopAllSucceeds(Filtered(x, theta, thetaHat), c.picks);
  }

  lemma SiftingExchangeDiqkd(l: Party, f: Party, c: Coins, d: Coins)
    requires Matched(l, f) && l.phase.Sifting? && l.protocol == Diqkd && FairExchange(l, f, c, d)
    ensures GoesOn(l, f, c, d)
  {
  }

  lemma SelectingMoves(l: Party, f: Party, c: Coins, d: Coins)
    requires Matched(l, f) && l.phase.Selecting? && f.role == Follower
    ensures Waiting(l) && Waiting(f) && |Heard(l, f)| == 1 && |Sent(f, Heard(l, f)[0], d)| == 1
    ensures Receive(l, Answer(l, f, d), c) == l.(phase := Comparing(l.phase.x, l.phase.testBits))
    ensures var f' := Receive(f, Heard(l, f)[0], d);
            && f' == f.(phase := f'.phase) && f'.phase.Comparing?
            && |f'.phase.x| == |l.phase.x| && |f'.phase.testBits| == |l.phase.testBits|
  {
    PopAllSucceeds(f.phase.x, l.phase.testIndices);
  }

  lemma SelectingExchange(l: Party, f: Party, c: Coins, d: Coins)
    requires Matched(l, f) && l.phase.Selecting? && FairExchange(l, f, c, d)
    ensures GoesOn(l, f, c, d)
  {
    SelectingMoves(l, f, c, d);
  }

  lemma ComparingExchange(l: Party, f: Party, c: Coins, d: Coins)
    requires Matched(l, f) && l.phase.Comparing? && FairExchange(l, f, c, d)
    ensures GoesOn(l, f, c, d)
  {
    var u, v := l.phase.testBits, f.phase.testBits;
    assert u[..|u|] == u && v[..|v|] == v;
    DistanceIsSymmetric(u, v);
  }

  lemma ConcludingExchange(l: Party, f: Party, c: Coins, d: Coins)
    requires Matched(l, f) && l.phase.Concluding? && FairExchange(l, f, c, d)
    ensures GoesOn(l, f, c, d)
  {
    AdvanceMatches(l.(secret := l.secret + Distilled(l)), f.(secret := f.secret + Distilled(f)), c, d);
  }

  lemma TestsAgree(l: Party, f: Party)
    requires Matched(l, f) && l.phase.Exchanging? && f.phase.Exchanging?
    ensures var v := Tested(l, Select(f.phase.x, l.phase.testSet));
            var w := Tested(f, Select(l.phase.x, l.phase.testSet));
            && (v.Some? <==> w.Some?)
            && (v.Some? ==> |v.value| == |w.value| <= |l.phase.x|)
  {
    VerdictsAgree(l.phase.x, f.phase.x, l.phase.theta, l.phase.thetaHat, l.phase.testSet);
  }

  /** The outcome of the test for either party, once the peer's outcomes are in. */
  function AfterTest(p: Party, xTHat: Bits, c: Coins): Party
    requires p.phase.Exchanging?
  {
    match Tested(p, xTHat)
    case None => p.(phase := Aborted)
    case Some(bits) => Advance(p.(secret := p.secret + bits), c)
  }

  lemma ExchangingMoves(l: Party, f: Party, c: Coins, d: Coins)
    requires Matched(l, f) && l.phase.Exchanging? && f.phase.Exchanging?
    ensures Waiting(l) && Waiting(f) && |Heard(l, f)| == 1 && |Sent(f, Heard(l, f)[0], d)| == 1
    ensures Receive(f, Heard(l, f)[0], d) == AfterTest(f, Select(l.phase.x, l.phase.testSet), d)
    ensures Receive(l, Answer(l, f, d), c) == AfterTest(l, Select(f.phase.x, l.phase.testSet), c)
    ensures Sent(l, Answer(l, f, d), c) == Speak(Receive(l, Answer(l, f, d), c))
  {
  }

  lemma AfterTestContinues(l: Party, f: Party, c: Coins, d: Coins)
    requires Matched(l, f) && l.phase.Exchanging? && f.phase.Exchanging? && c.seed < 256
    ensures Continues(AfterTest(l, Select(f.phase.x, l.phase.testSet), c),
                      AfterTest(f, Select(l.phase.x, l.phase.testSet), d))
  {
    TestsAgree(l, f);
    var v, w := Tested(l, Select(f.phase.x, l.phase.testSet)), Tested(f, Select(l.phase.x, l.phase.testSet));
    if v.Some? {
      AdvanceMatches(l.(secret := l.secret + v.value), f.(secret := f.secret + w.value), c, d);
    }
  }

  lemma ExchangingExchange(l: Party, f: Party, c: Coins, d: Coins)
    requires Matched(l, f) && l.phase.Exchanging? && f.phase.Exchanging? && FairExchange(l, f, c, d)
    ensures GoesOn(l, f, c, d)
  {
    ExchangingMoves(l, f, c, d);
    AfterTestContinues(l, f, c, d);
  }

  lemma ReconcilingExchange(l: Party, f: Party, c: Coins, d: Coins)
    requires Matched(l, f) && l.phase.Reconciling? && FairExchange(l, f, c, d)
    ensures GoesOn(l, f, c, d)
  {
    var s := Syndrome(l.phase.rest[..N]);
    var u := l.phase.corrected + Corrected(l.phase.rest[..N], s);
    var v := f.phase.corrected + Corrected(f.phase.rest[..N], s);
    AdvanceMatches(l.(secret := l.phase.rest[N..], reconciled := l.reconciled + u),
                   f.(secret := f.phase.rest[N..], reconciled := f.reconciled + v), c, d);
  }

  lemma AmplifyingExchange(l: Party, f: Party, c: Coins, d: Coins)
    requires Matched(l, f) && l.phase.Amplifying? && FairExchange(l, f, c, d)
    ensures GoesOn(l, f, c, d)
  {
    ProductFits(l.phase.seed, f.phase.x0);
    AdvanceMatches(l, f, c, d);
    AdvanceMatches(l.(key := l.key + [KeyByte(l.phase.seed, l.phase.x0)]),
                   f.(key := f.key + [KeyByte(l.phase.seed, f.phase.x0)]), c, d);
  }

  lemma FinishingExchange(l: Party, f: Party, c: Coins, d: Coins)
    requires Matched(l, f) && l.phase.Finishing? && FairExchange(l, f, c, d)
    ensures GoesOn(l, f, c, d)
  {
  }

  /** The follower takes in the test set; the leader's outcomes are still on their way. */
  lemma TestSetStep(l: Party, f: Party, d: Coins)
    requires Matched(l, f) && l.phase.Exchanging? && f.phase.AwaitingTestSet?
    ensures |Heard(l, f)| == 2
    ensures var f' := Receive(f, Heard(l, f)[0], d);
            Matched(l, f') && f'.phase.Exchanging? && Heard(l, f') == Heard(l, f)[1..]
    ensures Sent(f, Heard(l, f)[0], d) == []
  {
  }

  lemma Exchange(l: Party, f: Party, c: Coins, d: Coins)
    requires Matched(l, f) && !f.phase.AwaitingTestSet? && FairExchange(l, f, c, d)
    ensures GoesOn(l, f, c, d)
  {
    match l.phase
    case Opening => OpeningExchange(l, f, c, d);
    case Distributing(_, _) => DistributingExchange(l, f, c, d);
    case Sifting(_, _) =>
      if l.protocol == Bb84 { SiftingExchangeBb84(l, f, c, d); } else { SiftingExchangeDiqkd(l, f, c, d); }
    case Selecting(_, _, _) => SelectingExchange(l, f, c, d);
    case Comparing(_, _) => ComparingExchange(l, f, c, d);
    case Concluding(_, _, _) => ConcludingExchange(l, f, c, d);
    case Exchanging(_, _, _, _) => ExchangingExchange(l, f, c, d);
    case Reconciling(_, _) => ReconcilingExchange(l, f, c, d);
    case Amplifying(_, _, _) => AmplifyingExchange(l, f, c, d);
    case Finishing => FinishingExchange(l, f, c, d);
  }

  // ----- Over whole runs

  /** The random source can always make a draw. */
  lemma FairCoinsExist(p: Party, m: Message) returns (c: Coins)
    ensures Fair(p, m, c)
  {
    var n := if p.phase.Sifting? then |p.phase.x| / 2 else 0;
    var kept := if p.phase.Sifting? && m.body.Bases? then |Filtered(p.phase.x, p.phase.theta, m.body.theta)| else 0;
    var k := if kept < TEST_SIZE then kept else TEST_SIZE;
    c := Coins(0, false, seq(k, i => 0), seq(n, i => i), 0);
  }

  /** The follower has answered and is already at its next wait. */
  ghost predicate Answered(s: System) {
    exists t: System, d: Coins :: AnsweredFrom(s, t, d)
  }

  ghost predicate AnsweredFrom(s: System, t: System, d: Coins) {
    && Spoken(t) && !t.follower.phase.AwaitingTestSet?
    && |t.toFollower| > 0 && Waiting(t.follower) && s == ToFollower(t, 0, d)
  }

  ghost predicate Over(s: System) {
    Ended(s.leader, s.follower) && s.toFollower == [] && s.toLeader == []
  }

  ghost predicate InStep(s: System) {
    Spoken(s) || Answered(s) || Over(s)
  }

  lemma AnswerIsReady(t: System, d: Coins)
    requires Spoken(t) && !t.follower.phase.AwaitingTestSet?
    ensures Waiting(t.leader) && Waiting(t.follower) && |t.toFollower| == 1
    ensures |Sent(t.follower, t.toFollower[0], d)| == 1
    ensures var s := ToFollower(t, 0, d); s.toFollower == [] && s.toLeader == [Answer(t.leader, t.follower, d)]
  {
    var l, f := t.leader, t.follower;
    var m := if Waiting(f) && |Heard(l, f)| == 1 && |Sent(f, Heard(l, f)[0], d)| == 1 then Answer(l, f, d)
             else Message(PTCL, Accept);
    var c := FairCoinsExist(l, m);
    Exchange(l, f, c, d);
  }

  lemma StepFromSpoken(s: System, s': System)
    requires Spoken(s) && NextInOrder(s, s')
    ensures Spoken(s') || Answered(s')
  {
    var c :| Waiting(s.follower) && 0 < |s.toFollower| && s' == ToFollower(s, 0, c);
    if s.follower.phase.AwaitingTestSet? {
      TestSetStep(s.leader, s.follower, c);
      assert Pop(s.toFollower, 0) == s.toFollower[1..];
      assert s'.toLeader == [];
    } else {
      assert AnsweredFrom(s', s, c);
    }
  }

  lemma BothHaveMoved(t: System, d: Coins, c: Coins)
    requires Spoken(t) && !t.follower.phase.AwaitingTestSet?
    requires Waiting(t.follower) && |t.toFollower| == 1 && Waiting(t.leader)
    requires |ToFollower(t, 0, d).toLeader| == 1 && Fair(t.leader, ToFollower(t, 0, d).toLeader[0], c)
    ensures var s := ToLeader(ToFollower(t, 0, d), 0, c);
            Continues(s.leader, s.follower) && s.toFollower == Speak(s.leader) && s.toLeader == []
  {
    AnswerIsReady(t, d);
    Exchange(t.leader, t.follower, c, d);
  }

  lemma ContinuesSystem(s: System)
    requires Continues(s.leader, s.follower) && s.toFollower == Speak(s.leader) && s.toLeader == []
    ensures Spoken(s) || Over(s)
  {
  }

  lemma StepFromAnswered(s: System, s': System, t: System, d: Coins)
    requires AnsweredFrom(s, t, d) && NextInOrder(s, s')
    ensures Spoken(s') || Over(s')
  {
    AnswerIsReady(t, d);
    var c :| Fair(s.leader, s.toLeader[0], c) && s' == ToLeader(s, 0, c);
    BothHaveMoved(t, d, c);
    ContinuesSystem(s');
  }

  lemma StepStaysInStep(s: System, s': System)
    requires InStep(s) && NextInOrder(s, s')
    ensures InStep(s')
  {
    if Spoken(s) {
      StepFromSpoken(s, s');
    } else if Answered(s) {
      var t, d :| AnsweredFrom(s, t, d);
      StepFromAnswered(s, s', t, d);
    }
  }

  lemma LeaderKeepsTerms(l: Party, m: Message, c: Coins)
    requires Waiting(l) && l.role == Leader
    ensures var q := Receive(l, m, c); q.role == Leader && q.protocol == l.protocol && q.keySize == l.keySize
  {
  }

  lemma ProtocolIsKept(s: System, s': System, l: Party)
    requires KeepsTerms(s, l) && NextInOrder(s, s')
    ensures KeepsTerms(s', l)
  {
    if s'.leader != s.leader {
      var c :| 0 < |s.toLeader| && Waiting(s.leader) && s' == ToLeader(s, 0, c);
      LeaderKeepsTerms(s.leader, s.toLeader[0], c);
    }
  }

  /** Induction over runs: what holds initially and is kept by every step holds throughout. */
  lemma {:induction false} Invariant(run: seq<System>, P: System -> bool)
    requires OrderedRun(run) && P(run[0])
    requires forall s, s' :: P(s) && NextInOrder(s, s') ==> P(s')
    ensures forall i :: 0 <= i < |run| ==> P(run[i])
  {
    var k := 1;
    while k < |run|
      invariant 1 <= k <= |run|
      invariant forall i :: 0 <= i < k ==> P(run[i])
    {
      assert NextInOrder(run[k - 1], run[k]);
      k := k + 1;
    }
  }

  lemma RunsStayInStep(run: seq<System>, i: nat)
    requires OrderedRun(run) && i < |run|
    ensures InStep(run[i])
  {
    forall s, s' | InStep(s) && NextInOrder(s, s') ensures InStep(s') { StepStaysInStep(s, s'); }
    Invariant(run, s => InStep(s));
  }

  lemma RunsKeepProtocol(run: seq<System>, i: nat)
    requires OrderedRun(run) && i < |run|
    ensures run[i].leader.role == Leader
    ensures run[i].leader.protocol == run[0].leader.protocol && run[i].leader.keySize == run[0].leader.keySize
  {
    var l := run[0].leader;
    forall s, s' | KeepsTerms(s, l) && NextInOrder(s, s') ensures KeepsTerms(s', l) { ProtocolIsKept(s, s', l); }
    Invariant(run, s => KeepsTerms(s, l));
    assert KeepsTerms(run[i], l);
  }

  ghost predicate KeepsTerms(s: System, l: Party) {
    s.leader.role == Leader && s.leader.protocol == l.protocol && s.leader.keySize == l.keySize
  }

  /** What lockstep means for one state. */
  ghost predicate Safe(s: System) {
    // Nobody has met a wrong message class, a missing field, an index out of range or a failed handshake.
    && !s.leader.phase.Failed? && !s.follower.phase.Failed?
    // Control messages do not pile up: at most one in flight over both directions, two for DIQKD's test set.
    && |s.toFollower| + |s.toLeader| <= (if s.leader.protocol == Bb84 then 1 else 2)
    // Whenever the leader has spoken, all lists of `execute` have equal lengths on both sides.
    && (s.toLeader == [] && !s.leader.phase.Opening? ==> SamePace(s.leader, s.follower))
    // No deadlock: either a step is possible, or both have ended in the same way.
    && ((exists s' :: NextInOrder(s, s')) || Over(s))
    // Nobody ends alone.
    && (s.leader.phase.Done? ==> s.follower.phase.Done?)
    && (s.leader.phase.Aborted? ==> s.follower.phase.Aborted?)
  }

  lemma SpokenIsSafe(s: System)
    requires Spoken(s)
    ensures Safe(s)
  {
    if s.follower.phase.AwaitingTestSet? {
      TestSetStep(s.leader, s.follower, Coins(0, false, [], [], 0));
    } else {
      AnswerIsReady(s, Coins(0, false, [], [], 0));
    }
    var c := FairCoinsExist(s.follower, s.toFollower[0]);
    assert NextInOrder(s, ToFollower(s, 0, c));
  }

  lemma ContinuesMeans(l: Party, f: Party)
    requires Continues(l, f)
    ensures !f.phase.Failed? && !l.phase.Failed?
    ensures l.phase.Done? ==> f.phase.Done?
  {
  }

  lemma AnsweredLeaderGoesOn(l: Party, f: Party, d: Coins, c: Coins)
    requires Matched(l, f) && !f.phase.AwaitingTestSet?
    requires Waiting(f) && |Heard(l, f)| == 1 && |Sent(f, Heard(l, f)[0], d)| == 1
    requires Fair(l, Answer(l, f, d), c)
    ensures Waiting(l) && !Receive(f, Heard(l, f)[0], d).phase.Failed?
  {
    Exchange(l, f, c, d);
    ContinuesMeans(Receive(l, Answer(l, f, d), c), Receive(f, Heard(l, f)[0], d));
  }

  lemma AnsweredIsSafe(s: System, t: System, d: Coins)
    requires AnsweredFrom(s, t, d)
    ensures Safe(s)
  {
    AnswerIsReady(t, d);
    var c := FairCoinsExist(s.leader, s.toLeader[0]);
    AnsweredLeaderGoesOn(t.leader, t.follower, d, c);
    assert NextInOrder(s, ToLeader(s, 0, c));
  }

  /** Lockstep: every state of every run over ordered channels is safe. */
  lemma RunsAreSafe(run: seq<System>, i: nat)
    requires OrderedRun(run) && i < |run|
    ensures Safe(run[i])
  {
    RunsStayInStep(run, i);
    if Spoken(run[i]) {
      SpokenIsSafe(run[i]);
    } else if Answered(run[i]) {
      var t, d :| AnsweredFrom(run[i], t, d);
      AnsweredIsSafe(run[i], t, d);
    }
  }

  lemma OneMessageHasOneOrder(s: System, s': System)
    requires Safe(s) && s.leader.protocol == Bb84 && NextAnyOrder(s, s')
    ensures NextInOrder(s, s')
  {
    var i :| NextAt(s, s', i);
    assert i == 0;
  }

  lemma ChainOfPrefix(run: seq<System>, k: nat, step: (System, System) -> bool)
    requires 0 < k <= |run| && forall j :: 0 <= j < k - 1 ==> step(run[j], run[j + 1])
    ensures forall j :: 0 <= j < |run[..k]| - 1 ==> step(run[..k][j], run[..k][j + 1])
  {
  }

  lemma PrefixIsOrdered(run: seq<System>, k: nat)
    requires 0 < k <= |run| && Init(run[0]) && forall j :: 0 <= j < k - 1 ==> NextInOrder(run[j], run[j + 1])
    ensures OrderedRun(run[..k])
  {
    ChainOfPrefix(run, k, (s, s') => NextInOrder(s, s'));
  }

  lemma NextIsOrdered(run: seq<System>, k: nat)
    requires 0 < k < |run| && OrderedRun(run[..k]) && run[0].leader.protocol == Bb84
    requires NextAnyOrder(run[k - 1], run[k])
    ensures NextInOrder(run[k - 1], run[k])
  {
    RunsAreSafe(run[..k], k - 1);
    RunsKeepProtocol(run[..k], k - 1);
    OneMessageHasOneOrder(run[k - 1], run[k]);
  }

  /** Induction over a run with channels that may reorder: while no step is out of order, the run is an ordered one. */
  lemma {:induction false} OrderedWhile(run: seq<System>)
    requires UnorderedRun(run)
    requires forall k: nat :: 0 < k < |run| && OrderedRun(run[..k]) && NextAnyOrder(run[k - 1], run[k])
               ==> NextInOrder(run[k - 1], run[k])
    ensures OrderedRun(run)
  {
    var k := 1;
    while k < |run|
      invariant 1 <= k <= |run|
      invariant forall j :: 0 <= j < k - 1 ==> NextInOrder(run[j], run[j + 1])
    {
      PrefixIsOrdered(run, k);
      assert NextAnyOrder(run[k - 1], run[k]);
      k := k + 1;
    }
  }

  /**
   BB84 is strictly alternating, so the order of delivery cannot matter: every run over channels that
   may reorder messages is a run over ordered channels.
   */
  lemma Bb84NeedsNoOrder(run: seq<System>)
    requires UnorderedRun(run) && run[0].leader.protocol == Bb84
    ensures OrderedRun(run)
  {
    forall k: nat | 0 < k < |run| && OrderedRun(run[..k]) && NextAnyOrder(run[k - 1], run[k])
      ensures NextInOrder(run[k - 1], run[k])
    {
      NextIsOrdered(run, k);
    }
    OrderedWhile(run);
  }

  /**
   DIQKD does need the order. While the leader's test set and test outcomes are both in flight, taking
   them in order keeps the parties in step, taking the second one first raises a KeyError. (Ordering
   shows that runs come to this.)
   */
  lemma {:induction false} DiqkdNeedsOrder(s: System, i: nat, c: Coins)
    requires Spoken(s) && |s.toFollower| == 2 && i < 2
    ensures Waiting(s.follower)
    ensures i == 0 <==> Spoken(ToFollower(s, i, c))
    ensures i == 1 <==> ToFollower(s, i, c).follower.phase.Failed?
  {
    TestSetStep(s.leader, s.follower, c);
    assert Pop(s.toFollower, 0) == s.toFollower[1..];
  }

  /** The class of the messages in a phase: reconciliation and amplification use BB84Message in DIQKD too. */
  predicate InClass(protocol: Protocol, phase: Phase, kind: Kind) {
    if phase.Opening? then kind == PTCL
    else if phase.Reconciling? || phase.Amplifying? || protocol == Bb84 then kind == BB84
    else kind == DQKD
  }

  /** Which class every message has: what the leader says, and what the follower answers once it has begun. */
  lemma ClassesOnTheWire(run: seq<System>, i: nat, d: Coins)
    requires OrderedRun(run) && i < |run| && Spoken(run[i])
    ensures var l, f := run[i].leader, run[i].follower;
            && (forall m <- run[i].toFollower :: InClass(l.protocol, l.phase, m.kind))
            && run[i].toFollower != [] && Waiting(f)
            && (!l.phase.Opening? ==>
                  forall m <- Sent(f, run[i].toFollower[0], d) :: InClass(l.protocol, l.phase, m.kind))
            && (l.phase.Opening? ==>
                  forall m <- Sent(f, run[i].toFollower[0], d) :: m.kind == if l.protocol == Bb84 then BB84 else DQKD)
  {
    if run[i].follower.phase.AwaitingTestSet? {
      TestSetStep(run[i].leader, run[i].follower, d);
    } else {
      AnswerIsReady(run[i], d);
    }
  }
}
