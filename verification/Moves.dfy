/**
 The effect of one whole exchange on the lists of `execute`, in seven kinds. Every property of runs is
 proved from these kinds by one induction principle over the exchanges of a run.
 */
module Moves {
  import opened Bits
  import opened Options
  import opened Sampling
  import opened EprTest
  import opened Extraction
  import opened GolayCode
  import opened GolayDecoding
  import opened Wire
  import opened KeyProtocol
  import opened Lockstep

  /** From t to s both parties take one message: the follower the leader's, the leader the answer. */
  ghost predicate ExchangeStep(t: System, s: System, d: Coins, c: Coins) {
    && Spoken(t) && !t.follower.phase.AwaitingTestSet?
    && Waiting(t.follower) && |t.toFollower| == 1 && Waiting(t.leader)
    && |ToFollower(t, 0, d).toLeader| == 1 && Fair(t.leader, ToFollower(t, 0, d).toLeader[0], c)
    && s == ToLeader(ToFollower(t, 0, d), 0, c)
  }

  /** The follower takes the test set of DIQKD, which it does not answer. */
  ghost predicate TestSetTaken(t: System, s: System, d: Coins) {
    && Spoken(t) && t.follower.phase.AwaitingTestSet? && |t.toFollower| > 0
    && s == ToFollower(t, 0, d)
  }

  /** The moments between exchanges. */
  ghost predicate Settled(s: System) {
    Spoken(s) || Over(s)
  }

  ghost predicate Exchanges(t: System, s: System) {
    exists d, c :: ExchangeStep(t, s, d, c)
  }

  ghost predicate TakesTestSet(t: System, s: System) {
    exists d :: TestSetTaken(t, s, d)
  }

  ghost predicate ReachedFrom(run: seq<System>, k: nat, At: System -> bool, C: System -> bool,
                              big: (System, System) -> bool, small: (System, System) -> bool)
    requires 0 < k < |run|
  {
    || (At(run[k - 1]) && small(run[k - 1], run[k]))
    || (k > 1 && At(run[k - 2]) && C(run[k - 2]) && big(run[k - 2], run[k]))
  }

  lemma {:induction false} BackwardInduction(run: seq<System>, i: nat,
                                             At: System -> bool, C: System -> bool, P: System -> bool,
                                             big: (System, System) -> bool, small: (System, System) -> bool)
    requires i < |run| && P(run[0]) && At(run[i])
    requires forall k :: 0 < k < |run| && At(run[k]) ==> ReachedFrom(run, k, At, C, big, small)
    requires forall t, s :: big(t, s) && C(t) && P(t) ==> P(s)
    requires forall t, s :: small(t, s) && P(t) ==> P(s)
    ensures P(run[i])
    decreases i
  {
    if i > 0 {
      assert ReachedFrom(run, i, At, C, big, small);
      if At(run[i - 1]) && small(run[i - 1], run[i]) {
        BackwardInduction(run, i - 1, At, C, P, big, small);
      } else {
        BackwardInduction(run, i - 2, At, C, P, big, small);
      }
    }
  }

  /**
   Induction over the exchanges of a run: P holds in every state in which the leader has spoken, or
   the run is over, if it holds initially and every exchange from a state that meets C keeps it.
   */
  lemma OverExchanges(run: seq<System>, i: nat, C: System -> bool, P: System -> bool)
    requires OrderedRun(run) && i < |run| && Settled(run[i]) && P(run[0])
    requires forall k :: 0 <= k < |run| && Spoken(run[k]) ==> C(run[k])
    requires forall t, s :: Exchanges(t, s) && C(t) && P(t) ==> P(s)
    requires forall t, s :: TakesTestSet(t, s) && P(t) ==> P(s)
    ensures P(run[i])
  {
    var At, big, small := (s: System) => Settled(s), (t, s) => Exchanges(t, s), (t, s) => TakesTestSet(t, s);
    forall k | 0 < k < |run| && At(run[k])
      ensures ReachedFrom(run, k, At, C, big, small)
    {
      Predecessor(run, k);
    }
    BackwardInduction(run, i, At, C, P, big, small);
  }

  lemma Predecessor(run: seq<System>, k: nat)
    requires OrderedRun(run) && 0 < k < |run| && Settled(run[k])
    ensures || (Spoken(run[k - 1]) && TakesTestSet(run[k - 1], run[k]))
            || (k > 1 && Spoken(run[k - 2]) && Exchanges(run[k - 2], run[k]))
  {
    RunsStayInStep(run, k - 1);
    NextInRun(run, k - 1);
    if Spoken(run[k - 1]) {
      TakenFromSpoken(run[k - 1], run[k]);
    } else {
      PredecessorOfAnswered(run, k);
    }
  }

  lemma NextInRun(run: seq<System>, k: nat)
    requires OrderedRun(run) && k + 1 < |run|
    ensures NextInOrder(run[k], run[k + 1])
  {
  }

  lemma PredecessorOfAnswered(run: seq<System>, k: nat)
    requires OrderedRun(run) && 0 < k < |run| && !Spoken(run[k - 1])
    ensures k > 1 && Spoken(run[k - 2]) && Exchanges(run[k - 2], run[k])
  {
    if k == 1 {
      SpokenAtStart(run);
    } else {
      RunsStayInStep(run, k - 2);
      NextInRun(run, k - 2);
      NextInRun(run, k - 1);
      SpokenBeforeAnswered(run[k - 2], run[k - 1], run[k]);
      TwoStepsAreAnExchange(run[k - 2], run[k - 1], run[k]);
    }
  }

  lemma SpokenAtStart(run: seq<System>)
    requires OrderedRun(run)
    ensures Spoken(run[0])
  {
  }

  /** After a step from a state in which the leader has spoken, it is the leader's turn, except for the test set. */
  lemma TakenFromSpoken(t: System, s: System)
    requires Spoken(t) && NextInOrder(t, s) && Settled(s)
    ensures TakesTestSet(t, s)
  {
    var d :| Waiting(t.follower) && 0 < |t.toFollower| && s == ToFollower(t, 0, d);
    if !t.follower.phase.AwaitingTestSet? {
      AnswerIsReady(t, d);
    }
    assert TestSetTaken(t, s, d);
  }

  lemma OverIsFinal(s: System, s': System)
    requires Over(s)
    ensures !NextInOrder(s, s')
  {
  }

  lemma SpokenBeforeAnswered(r: System, t: System, s: System)
    requires InStep(r) && NextInOrder(r, t) && NextInOrder(t, s) && !Spoken(t)
    ensures Spoken(r)
  {
    if Answered(r) {
      var q, d :| AnsweredFrom(r, q, d);
      StepFromAnswered(r, t, q, d);
      OverIsFinal(t, s);
    } else if Over(r) {
      OverIsFinal(r, t);
    }
  }

  lemma StepFromSpokenAwaiting(r: System, d: Coins)
    requires Spoken(r) && r.follower.phase.AwaitingTestSet?
    ensures Waiting(r.follower) && |r.toFollower| == 2 && Spoken(ToFollower(r, 0, d))
  {
    TestSetStep(r.leader, r.follower, d);
    assert Pop(r.toFollower, 0) == r.toFollower[1..];
  }

  lemma TwoStepsAreAnExchange(r: System, t: System, s: System)
    requires Spoken(r) && !Spoken(t) && NextInOrder(r, t) && NextInOrder(t, s)
    ensures Exchanges(r, s)
  {
    var d :| Waiting(r.follower) && 0 < |r.toFollower| && t == ToFollower(r, 0, d);
    if r.follower.phase.AwaitingTestSet? {
      StepFromSpokenAwaiting(r, d);
    }
    AnswerIsReady(r, d);
    var c :| Fair(t.leader, t.toLeader[0], c) && s == ToLeader(t, 0, c);
    assert ExchangeStep(r, s, d, c);
  }

  // ----- The kinds of exchanges

  ghost predicate SameLists(p: Party, q: Party) {
    && q.role == p.role && q.protocol == p.protocol && q.keySize == p.keySize
    && q.key == p.key && q.secret == p.secret && q.reconciled == p.reconciled
  }

  predicate InRound(phase: Phase) {
    || phase.Distributing? || phase.Sifting? || phase.Selecting? || phase.Comparing?
    || phase.Concluding? || phase.Exchanging?
  }

  /** Both parties go on from a loop head, with the lists l and f and the history h. */
  ghost predicate GoOn(l: Party, f: Party, h: History, s: System) {
    exists c, d :: GoOnWith(l, f, h, s, c, d)
  }

  ghost predicate GoOnWith(l: Party, f: Party, h: History, s: System, c: Coins, d: Coins) {
    && c.seed < 256 && s.leader == Advance(l, c) && s.follower == Advance(f, d)
    && s.history == h.(passes := h.passes + if s.leader.phase.Reconciling? then 1 else 0)
  }

  ghost predicate Opens(t: System, s: System) {
    t.leader.phase.Opening? &&
    GoOn(t.leader, t.follower.(protocol := t.leader.protocol, keySize := t.leader.keySize), t.history, s)
  }

  /** How many exchanges of its round a party has behind it, or a small number outside of rounds. */
  function Position(phase: Phase): nat {
    match phase
    case Opening => 0
    case Distributing(x, _) => |x|
    case Sifting(_, _) => ROUND_SIZE + 1
    case Selecting(_, _, _) => ROUND_SIZE + 2
    case Comparing(_, _) => ROUND_SIZE + 3
    case Concluding(_, _, _) => ROUND_SIZE + 4
    case Exchanging(_, _, _, _) => ROUND_SIZE + 2
    case Done => 2
    case Aborted => ROUND_SIZE + 3
    case _ => 1
  }

  /** A step inside a distillation round. */
  ghost predicate Idles(t: System, s: System) {
    && InRound(t.leader.phase) && InRound(s.leader.phase) && Position(s.leader.phase) > Position(t.leader.phase)
    && SameLists(t.leader, s.leader) && SameLists(t.follower, s.follower) && s.history == t.history
  }

  /** The EPR test of the round that ends here passes without leaving a bit. */
  ghost predicate EmptyHanded(s: System) {
    && s.leader.phase.Exchanging? && s.follower.phase.Exchanging?
    && InRange(s.leader.phase.testSet, |s.follower.phase.x|)
    && Tested(s.leader, Select(s.follower.phase.x, s.leader.phase.testSet)) == Some([])
  }

  /** The end of a round: both append what they have distilled. */
  ghost predicate Yields(t: System, s: System, b: Bits, b': Bits) {
    && |b| == |b'| && (t.leader.phase.Concluding? || t.leader.phase.Exchanging?)
    && (t.leader.phase.Concluding? ==>
          t.follower.phase.Concluding? && b == Distilled(t.leader) && b' == Distilled(t.follower))
    && (t.leader.phase.Exchanging? ==> |b| <= |t.leader.phase.x| && (b == [] ==> EmptyHanded(t)))
    && GoOn(t.leader.(secret := t.leader.secret + b), t.follower.(secret := t.follower.secret + b'),
            t.history.(rounds := t.history.rounds + 1, stream := t.history.stream + b), s)
  }

  ghost predicate Aborts(t: System, s: System) {
    && t.leader.phase.Exchanging? && s.leader.phase.Aborted? && s.follower.phase.Aborted?
    && SameLists(t.leader, s.leader) && SameLists(t.follower, s.follower) && s.history == t.history
  }

  /** One more codeword: the leader's own, and the follower's corrected by the leader's syndrome. */
  ghost predicate Decodes(t: System, s: System) {
    && t.leader.phase.Reconciling? && t.follower.phase.Reconciling?
    && |t.leader.phase.rest| == |t.follower.phase.rest| >= N
    && var x, y := t.leader.phase.rest[..N], t.follower.phase.rest[..N];
       var u, v := t.leader.phase.corrected + x, t.follower.phase.corrected + Corrected(y, Syndrome(x));
       var h := t.history.(codewords := t.history.codewords + 1);
       if |t.leader.phase.rest| - N >= N then
         && s.leader == t.leader.(phase := Reconciling(t.leader.phase.rest[N..], u))
         && s.follower == t.follower.(phase := Reconciling(t.follower.phase.rest[N..], v))
         && s.history == h
       else
         GoOn(t.leader.(secret := t.leader.phase.rest[N..], reconciled := t.leader.reconciled + u),
              t.follower.(secret := t.follower.phase.rest[N..], reconciled := t.follower.reconciled + v), h, s)
  }

  /** One amplification round, accepted or not. */
  ghost predicate Amplifies(t: System, s: System) {
    && t.leader.phase.Amplifying? && t.follower.phase.Amplifying?
    && var l, f := t.leader.phase, t.follower.phase;
       var ok := TagMatches(t.follower, l.seed, Tag(l.seed, l.x0, l.x1));
       var h := t.history.(attempts := t.history.attempts + [Attempt(l.x0, l.x1, f.x0, f.x1, l.seed, ok)]);
       if ok then
         GoOn(t.leader.(key := t.leader.key + [KeyByte(l.seed, l.x0)]),
              t.follower.(key := t.follower.key + [KeyByte(l.seed, f.x0)]), h, s)
       else GoOn(t.leader, t.follower, h, s)
  }

  ghost predicate Finishes(t: System, s: System) {
    && t.leader.phase.Finishing? && s.leader.phase.Done? && s.follower.phase.Done?
    && SameLists(t.leader, s.leader) && SameLists(t.follower, s.follower) && s.history == t.history
  }

  datatype MoveKind = OpenMove | IdleMove | YieldMove | AbortMove | DecodeMove | AmplifyMove | FinishMove

  ghost predicate Move(kind: MoveKind, t: System, s: System, b: Bits, b': Bits) {
    match kind
    case OpenMove => Opens(t, s)
    case IdleMove => Idles(t, s)
    case YieldMove => Yields(t, s, b, b')
    case AbortMove => Aborts(t, s)
    case DecodeMove => Decodes(t, s)
    case AmplifyMove => Amplifies(t, s)
    case FinishMove => Finishes(t, s)
  }

  lemma ExchangeOpens(t: System, s: System, d: Coins, c: Coins)
    requires ExchangeStep(t, s, d, c) && t.leader.phase.Opening?
    ensures Opens(t, s)
  {
    var f := t.follower.(protocol := t.leader.protocol, keySize := t.leader.keySize);
    assert GoOnWith(t.leader, f, t.history, s, c, d);
  }

  lemma PhaseMovesOn(l: Party, m: Message, c: Coins)
    requires Waiting(l) && l.role == Leader
    requires l.phase.Distributing? || l.phase.Sifting? || l.phase.Selecting? || l.phase.Comparing?
    requires l.phase.Distributing? ==> |l.phase.x| <= ROUND_SIZE
    ensures var q := Receive(l, m, c);
            q.phase.Failed? || (InRound(q.phase) && Position(q.phase) > Position(l.phase) && SameLists(l, q))
  {
  }

  lemma FollowerMovesOn(f: Party, m: Message, d: Coins)
    requires Waiting(f) && f.role == Follower
    requires f.phase.Distributing? || f.phase.Sifting? || f.phase.Selecting? || f.phase.Comparing?
    ensures SameLists(f, Receive(f, m, d))
  {
  }

  lemma ExchangeIdles(t: System, s: System, d: Coins, c: Coins)
    requires ExchangeStep(t, s, d, c)
    requires var p := t.leader.phase; p.Distributing? || p.Sifting? || p.Selecting? || p.Comparing?
    ensures Idles(t, s)
  {
    BothHaveMoved(t, d, c);
    AnswerIsReady(t, d);
    ContinuesMeans(s.leader, s.follower);
    PhaseMovesOn(t.leader, Answer(t.leader, t.follower, d), c);
    FollowerMovesOn(t.follower, t.toFollower[0], d);
  }

  lemma ExchangeConcludes(t: System, s: System, d: Coins, c: Coins)
    requires ExchangeStep(t, s, d, c) && t.leader.phase.Concluding?
    ensures Yields(t, s, Distilled(t.leader), Distilled(t.follower))
  {
    var b, b' := Distilled(t.leader), Distilled(t.follower);
    var l, f := t.leader.(secret := t.leader.secret + b), t.follower.(secret := t.follower.secret + b');
    assert s.leader == Advance(l, c) && s.follower == Advance(f, d);
    assert s.leader.secret[|t.leader.secret|..] == b;
    assert GoOnWith(l, f, t.history.(rounds := t.history.rounds + 1, stream := t.history.stream + b), s, c, d);
  }

  /** In an exchange each party receives one message: the follower what the leader said, the leader the answer. */
  lemma PartiesReceive(t: System, s: System, d: Coins, c: Coins)
    requires ExchangeStep(t, s, d, c)
    ensures |Heard(t.leader, t.follower)| == 1 && |Sent(t.follower, Heard(t.leader, t.follower)[0], d)| == 1
    ensures s.follower == Receive(t.follower, Heard(t.leader, t.follower)[0], d)
    ensures s.leader == Receive(t.leader, Answer(t.leader, t.follower, d), c)
  {
  }

  lemma LeaderRecordsAlone(t: System, s: System, d: Coins, c: Coins)
    requires ExchangeStep(t, s, d, c) && !t.leader.phase.Amplifying?
    ensures s.history == LeaderRecord(t, s.leader)
  {
  }

  lemma BothTest(t: System, s: System, d: Coins, c: Coins)
    requires ExchangeStep(t, s, d, c) && t.leader.phase.Exchanging?
    ensures Matched(t.leader, t.follower) && t.follower.phase.Exchanging? && c.seed < 256
  {
  }

  /** The parties after the last exchange of a device-independent round are those after the test. */
  lemma TestedParties(t: System, s: System, d: Coins, c: Coins)
    requires ExchangeStep(t, s, d, c) && t.leader.phase.Exchanging?
    ensures t.follower.phase.Exchanging?
    ensures s.leader == AfterTest(t.leader, Select(t.follower.phase.x, t.leader.phase.testSet), c)
    ensures s.follower == AfterTest(t.follower, Select(t.leader.phase.x, t.leader.phase.testSet), d)
    ensures s.history == LeaderRecord(t, s.leader)
  {
    BothTest(t, s, d, c);
    PartiesReceive(t, s, d, c);
    LeaderRecordsAlone(t, s, d, c);
    ExchangingMoves(t.leader, t.follower, c, d);
  }

  lemma TestPasses(t: System, s: System, d: Coins, c: Coins, b: Bits, b': Bits)
    requires t.leader.phase.Exchanging? && c.seed < 256 && s.history == LeaderRecord(t, s.leader)
    requires |b| == |b'| <= |t.leader.phase.x| && (b == [] ==> EmptyHanded(t))
    requires s.leader == Advance(t.leader.(secret := t.leader.secret + b), c)
    requires s.follower == Advance(t.follower.(secret := t.follower.secret + b'), d)
    ensures Yields(t, s, b, b')
  {
    var l, f := t.leader.(secret := t.leader.secret + b), t.follower.(secret := t.follower.secret + b');
    assert s.leader.secret[|t.leader.secret|..] == b;
    assert GoOnWith(l, f, t.history.(rounds := t.history.rounds + 1, stream := t.history.stream + b), s, c, d);
  }

  lemma TestFails(t: System, s: System)
    requires t.leader.phase.Exchanging? && s.history == LeaderRecord(t, s.leader)
    requires s.leader == t.leader.(phase := Aborted) && s.follower == t.follower.(phase := Aborted)
    ensures Aborts(t, s)
  {
  }

  lemma ExchangeTests(t: System, s: System, d: Coins, c: Coins) returns (kind: MoveKind, b: Bits, b': Bits)
    requires ExchangeStep(t, s, d, c) && t.leader.phase.Exchanging?
    ensures Move(kind, t, s, b, b')
  {
    TestedParties(t, s, d, c);
    TestsAgree(t.leader, t.follower);
    var v, w := Tested(t.leader, Select(t.follower.phase.x, t.leader.phase.testSet)),
                Tested(t.follower, Select(t.leader.phase.x, t.leader.phase.testSet));
    if v.Some? {
      kind, b, b' := YieldMove, v.value, w.value;
      TestPasses(t, s, d, c, b, b');
    } else {
      kind, b, b' := AbortMove, [], [];
      TestFails(t, s);
    }
  }

  lemma ExchangeDecodes(t: System, s: System, d: Coins, c: Coins)
    requires ExchangeStep(t, s, d, c) && t.leader.phase.Reconciling?
    ensures Decodes(t, s)
  {
    var x, y := t.leader.phase.rest[..N], t.follower.phase.rest[..N];
    DistanceZero(x, x);
    CorrectedIsUnique(x, x);
    var u, v := t.leader.phase.corrected + x, t.follower.phase.corrected + Corrected(y, Syndrome(x));
    var h := t.history.(codewords := t.history.codewords + 1);
    if |t.leader.phase.rest| - N < N {
      assert GoOnWith(t.leader.(secret := t.leader.phase.rest[N..], reconciled := t.leader.reconciled + u),
                      t.follower.(secret := t.follower.phase.rest[N..], reconciled := t.follower.reconciled + v),
                      h, s, c, d);
    }
  }

  lemma ExchangeAmplifies(t: System, s: System, d: Coins, c: Coins)
    requires ExchangeStep(t, s, d, c) && t.leader.phase.Amplifying?
    ensures Amplifies(t, s)
  {
    var l, f := t.leader.phase, t.follower.phase;
    ProductFits(l.seed, f.x0);
    var ok := TagMatches(t.follower, l.seed, Tag(l.seed, l.x0, l.x1));
    var h := t.history.(attempts := t.history.attempts + [Attempt(l.x0, l.x1, f.x0, f.x1, l.seed, ok)]);
    if ok {
      assert GoOnWith(t.leader.(key := t.leader.key + [KeyByte(l.seed, l.x0)]),
                      t.follower.(key := t.follower.key + [KeyByte(l.seed, f.x0)]), h, s, c, d);
    } else {
      assert GoOnWith(t.leader, t.follower, h, s, c, d);
    }
  }

  lemma ExchangeFinishes(t: System, s: System, d: Coins, c: Coins)
    requires ExchangeStep(t, s, d, c) && t.leader.phase.Finishing?
    ensures Finishes(t, s)
  {
  }

  /** Every exchange is of one of the seven kinds. */
  lemma ExchangeMoves(t: System, s: System) returns (kind: MoveKind, b: Bits, b': Bits)
    requires Exchanges(t, s)
    ensures Spoken(t) && Move(kind, t, s, b, b')
  {
    var d, c :| ExchangeStep(t, s, d, c);
    b, b' := [], [];
    match t.leader.phase
    case Opening => ExchangeOpens(t, s, d, c); kind := OpenMove;
    case Distributing(_, _) => ExchangeIdles(t, s, d, c); kind := IdleMove;
    case Sifting(_, _) => ExchangeIdles(t, s, d, c); kind := IdleMove;
    case Selecting(_, _, _) => ExchangeIdles(t, s, d, c); kind := IdleMove;
    case Comparing(_, _) => ExchangeIdles(t, s, d, c); kind := IdleMove;
    case Concluding(_, _, _) =>
      ExchangeConcludes(t, s, d, c);
      kind, b, b' := YieldMove, Distilled(t.leader), Distilled(t.follower);
    case Exchanging(_, _, _, _) =>
      kind, b, b' := ExchangeTests(t, s, d, c);
    case Reconciling(_, _) => ExchangeDecodes(t, s, d, c); kind := DecodeMove;
    case Amplifying(_, _, _) => ExchangeAmplifies(t, s, d, c); kind := AmplifyMove;
    case Finishing => ExchangeFinishes(t, s, d, c); kind := FinishMove;
  }
}
