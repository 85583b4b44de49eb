/**
 Why the channels must keep the order for DIQKD, over whole runs: which runs over reordering channels go
 wrong, and that there are such runs.
 */
module Ordering {
  import opened EprTest
  import opened Sampling
  import opened Wire
  import opened KeyProtocol
  import opened Lockstep
  import opened Moves
  import opened Accounts

  // ----- Which runs go wrong

  /** Two messages are in flight only while the leader's test set and outcomes are on their way. */
  lemma TwoInFlight(s: System)
    requires InStep(s) && |s.toFollower| + |s.toLeader| > 1
    ensures Spoken(s) && |s.toFollower| == 2 && s.toLeader == [] && s.leader.phase.Exchanging?
  {
    if Answered(s) {
      var t, d :| AnsweredFrom(s, t, d);
      AnswerIsReady(t, d);
    }
  }

  /** A step out of order overtakes a message that is still in flight. */
  lemma DisorderOvertakes(s: System, s': System) returns (i: nat)
    requires NextAnyOrder(s, s') && !NextInOrder(s, s')
    ensures NextAt(s, s', i) && i > 0 && |s.toFollower| + |s.toLeader| > 1
  {
    var k: nat :| NextAt(s, s', k);
    i := k;
  }

  lemma StepToFollower(s: System, s': System, i: nat) returns (c: Coins)
    requires NextAt(s, s', i) && s.toLeader == []
    ensures i < |s.toFollower| && Waiting(s.follower) && s' == ToFollower(s, i, c)
  {
    c :| i < |s.toFollower| && Waiting(s.follower) && Fair(s.follower, s.toFollower[i], c) && s' == ToFollower(s, i, c);
  }

  /** A step out of order is the follower's failure. */
  lemma DisorderFails(s: System, s': System)
    requires InStep(s) && NextAnyOrder(s, s') && !NextInOrder(s, s')
    ensures s'.follower.phase.Failed?
  {
    var i := DisorderOvertakes(s, s');
    TwoInFlight(s);
    var c := StepToFollower(s, s', i);
    DiqkdNeedsOrder(s, i, c);
  }

  lemma PrefixStaysInStep(run: seq<System>, k: nat)
    requires 0 < k <= |run| && OrderedRun(run[..k])
    ensures InStep(run[k - 1])
  {
    RunsStayInStep(run[..k], k - 1);
  }

  /** Over channels that may reorder, a run of either protocol is an ordered one iff the follower never fails. */
  lemma OrderedIffNoFailure(run: seq<System>)
    requires UnorderedRun(run)
    ensures OrderedRun(run) <==> forall k :: 0 <= k < |run| ==> !run[k].follower.phase.Failed?
  {
    if OrderedRun(run) {
      forall k | 0 <= k < |run| ensures !run[k].follower.phase.Failed? { RunsDoNotFail(run, k); }
    }
    if forall k :: 0 <= k < |run| ==> !run[k].follower.phase.Failed? {
      forall k: nat | 0 < k < |run| && OrderedRun(run[..k]) && NextAnyOrder(run[k - 1], run[k])
        ensures NextInOrder(run[k - 1], run[k])
      {
        PrefixStaysInStep(run, k);
        if !NextInOrder(run[k - 1], run[k]) { DisorderFails(run[k - 1], run[k]); }
      }
      OrderedWhile(run);
    }
  }

  // ----- There are such runs

  /** The leader is inside a device-independent round, the follower not yet at the test. */
  ghost predicate BeforeTest(s: System) {
    Spoken(s) && s.leader.protocol == Diqkd && InRound(s.leader.phase) && !s.follower.phase.Exchanging?
  }

  lemma FollowerMoves(t: System, d: Coins)
    requires Waiting(t.follower) && t.toFollower != [] && t.follower.role == Follower && d.seed < 256
    ensures NextInOrder(t, ToFollower(t, 0, d))
  {
    assert Fair(t.follower, t.toFollower[0], d);
  }

  lemma LeaderMoves(u: System, c: Coins)
    requires Waiting(u.leader) && u.toLeader != [] && Fair(u.leader, u.toLeader[0], c)
    ensures NextInOrder(u, ToLeader(u, 0, c))
  {
  }

  /** The exchange with these draws. */
  lemma ExchangeWith(t: System, d: Coins, c: Coins) returns (u: System, s: System)
    requires Spoken(t) && !t.follower.phase.AwaitingTestSet?
    requires FairExchange(t.leader, t.follower, c, d) && d.seed < 256
    ensures NextInOrder(t, u) && NextInOrder(u, s) && ExchangeStep(t, s, d, c)
    ensures (Spoken(s) && !s.follower.phase.Exchanging?) || Over(s)
  {
    AnswerIsReady(t, d);
    u := ToFollower(t, 0, d);
    s := ToLeader(u, 0, c);
    BothHaveMoved(t, d, c);
    ContinuesSystem(s);
    FollowerMoves(t, d);
    LeaderMoves(u, c);
  }

  lemma OneExchange(t: System) returns (u: System, s: System, d: Coins, c: Coins)
    requires Spoken(t) && !t.follower.phase.AwaitingTestSet?
    ensures NextInOrder(t, u) && NextInOrder(u, s) && ExchangeStep(t, s, d, c)
    ensures (Spoken(s) && !s.follower.phase.Exchanging?) || Over(s)
  {
    d := Coins(0, false, [], [], 0);
    AnswerIsReady(t, d);
    c := FairCoinsExist(t.leader, Answer(t.leader, t.follower, d));
    u, s := ExchangeWith(t, d, c);
  }

  lemma RunGoesOn(run: seq<System>, s: System)
    requires OrderedRun(run) && NextInOrder(run[|run| - 1], s)
    ensures OrderedRun(run + [s])
  {
    var longer := run + [s];
    forall i | 0 <= i < |longer| - 1 ensures NextInOrder(longer[i], longer[i + 1]) {
      if i < |run| - 1 {
        assert NextInOrder(run[i], run[i + 1]);
      }
    }
  }

  lemma RoundGoesOn(t: System) returns (u: System, s: System)
    requires BeforeTest(t) && !t.leader.phase.Exchanging?
    ensures NextInOrder(t, u) && NextInOrder(u, s) && BeforeTest(s)
    ensures Position(s.leader.phase) > Position(t.leader.phase)
  {
    var d, c;
    u, s, d, c := OneExchange(t);
    ExchangeIdles(t, s, d, c);
  }

  /** From inside a round, the leader reaches the point where it has sent both. */
  lemma {:induction false} RoundReachesTest(run: seq<System>) returns (longer: seq<System>)
    requires OrderedRun(run) && BeforeTest(run[|run| - 1])
    ensures OrderedRun(longer) && longer[0] == run[0]
    ensures BeforeTest(longer[|longer| - 1]) && longer[|longer| - 1].leader.phase.Exchanging?
    decreases ROUND_SIZE + 4 - Position(run[|run| - 1].leader.phase)
  {
    var t := run[|run| - 1];
    if t.leader.phase.Exchanging? {
      longer := run;
    } else {
      var u, s := RoundGoesOn(t);
      RunGoesOn(run, u);
      RunGoesOn(run + [u], s);
      longer := RoundReachesTest(run + [u] + [s]);
    }
  }

  lemma RunOpens(keySize: nat) returns (run: seq<System>)
    requires keySize > 0
    ensures OrderedRun(run) && run[0].leader.keySize == keySize && run[0].leader.protocol == Diqkd
    ensures BeforeTest(run[|run| - 1])
  {
    var l := Party(Leader, Diqkd, keySize, [], [], [], Opening);
    var t := System(l, l.(role := Follower), Speak(l), [], History(0, [], 0, 0, []));
    run := [t];
    var u, s, d, c := OneExchange(t);
    ExchangeOpens(t, s, d, c);
    RunGoesOn(run, u);
    RunGoesOn(run + [u], s);
    run := run + [u] + [s];
  }

  /** The state in question is reached: both messages are in flight. */
  lemma TestSetIsReached(keySize: nat) returns (run: seq<System>)
    requires keySize > 0
    ensures OrderedRun(run) && run[0].leader.keySize == keySize && run[0].leader.protocol == Diqkd
    ensures Spoken(run[|run| - 1]) && |run[|run| - 1].toFollower| == 2
  {
    run := RunOpens(keySize);
    run := RoundReachesTest(run);
    var s := run[|run| - 1];
    TestSetStep(s.leader, s.follower, Coins(0, false, [], [], 0));
  }

  /** A DIQKD run for a key of this size, over channels that may reorder, in which the follower fails at step k. */
  ghost predicate FailsAt(run: seq<System>, keySize: nat, k: nat) {
    && UnorderedRun(run) && run[0].leader.protocol == Diqkd && run[0].leader.keySize == keySize
    && k < |run| && run[k].follower.phase.Failed?
  }

  lemma DisorderedRun(keySize: nat) returns (run: seq<System>)
    requires keySize > 0
    ensures run != [] && FailsAt(run, keySize, |run| - 1)
  {
    var before := TestSetIsReached(keySize);
    var s, c := before[|before| - 1], Coins(0, false, [], [], 0);
    DiqkdNeedsOrder(s, 1, c);
    var s' := ToFollower(s, 1, c);
    DisorderIsAStep(s, c);
    run := before + [s'];
    forall i | 0 <= i < |run| - 1 ensures NextAnyOrder(run[i], run[i + 1]) {
      if i < |before| - 1 {
        assert NextInOrder(before[i], before[i + 1]);
      }
    }
  }

  lemma DisorderIsAStep(s: System, c: Coins)
    requires Spoken(s) && |s.toFollower| == 2 && Waiting(s.follower) && c == Coins(0, false, [], [], 0)
    ensures NextAnyOrder(s, ToFollower(s, 1, c))
  {
    assert Fair(s.follower, s.toFollower[1], c);
    assert NextAt(s, ToFollower(s, 1, c), 1);
  }

  lemma NoRoundWithoutKey(run: seq<System>, s: System)
    requires OrderedRun(run) && s == run[|run| - 1] && Settled(s) && s.leader.keySize == 0
    ensures !s.leader.phase.Exchanging?
  {
    RunsAreAccounted(run, |run| - 1);
  }

  lemma NothingToOvertake(run: seq<System>, s: System, s': System)
    requires OrderedRun(run) && s == run[|run| - 1] && run[0].leader.keySize == 0 && NextAnyOrder(s, s')
    ensures NextInOrder(s, s')
  {
    RunsStayInStep(run, |run| - 1);
    RunsKeepProtocol(run, |run| - 1);
    if !NextInOrder(s, s') {
      var i := DisorderOvertakes(s, s');
      TwoInFlight(s);
      NoRoundWithoutKey(run, s);
    }
  }

  /** Without a key to make, no round is measured, and nothing can be overtaken. */
  lemma EmptyKeyNeedsNoOrder(run: seq<System>)
    requires UnorderedRun(run) && run[0].leader.keySize == 0
    ensures OrderedRun(run)
  {
    forall k: nat | 0 < k < |run| && OrderedRun(run[..k]) && NextAnyOrder(run[k - 1], run[k])
      ensures NextInOrder(run[k - 1], run[k])
    {
      NothingToOvertake(run[..k], run[k - 1], run[k]);
    }
    OrderedWhile(run);
  }

  /** DIQKD needs ordered channels: over others it can fail, for every key but the empty one. */
  lemma DiqkdCanFailIff(keySize: nat)
    ensures (exists run: seq<System>, k: nat :: FailsAt(run, keySize, k)) <==> keySize > 0
  {
    if keySize > 0 {
      var run := DisorderedRun(keySize);
      assert FailsAt(run, keySize, |run| - 1);
    } else {
      forall run: seq<System>, k: nat ensures !FailsAt(run, keySize, k) {
        if UnorderedRun(run) && run[0].leader.keySize == 0 {
          EmptyKeyNeedsNoOrder(run);
          OrderedIffNoFailure(run);
        }
      }
    }
  }
}
