/**
 What a finished round adds to `secret_bits`, over whole runs and from the measurements on: which qubits a party
 has tested, which it keeps, and on what the verdict depends.
 */
module Rounds {
  import opened Bits
  import opened Options
  import opened Sampling
  import opened EprTest
  import opened EprVerdict
  import opened Wire
  import opened KeyProtocol
  import opened Lockstep
  import opened Moves
  import opened Accounts
  import opened ErrorRate

  // ----- BB84

  /** Both parties have measured a qubit for each basis and sift. */
  ghost predicate Measured(s: System) {
    && s.leader.phase.Sifting? && s.follower.phase.Sifting?
    && var l, f := s.leader.phase, s.follower.phase;
       |l.x| == |l.theta| == |f.x| == |f.theta|
  }

  /** The leader has popped its test bits from the list that sifting leaves, the follower holds all of its own. */
  ghost predicate Sifted(t: System, s: System) {
    && Measured(t) && s.leader.phase.Selecting? && s.follower.phase.Selecting?
    && var l, f, q := t.leader.phase, t.follower.phase, s.leader.phase;
       && s.follower.phase.x == Filtered(f.x, f.theta, l.theta)
       && PopAll(Filtered(l.x, l.theta, f.theta), q.testIndices) == Some(Split(q.testBits, q.x))
       && ValidPicks(q.testIndices, |s.follower.phase.x|)
  }

  /** The follower has replayed the leader's indices. */
  ghost predicate Replayed(t: System, s: System) {
    && t.leader.phase.Selecting? && t.follower.phase.Selecting?
    && s.leader.phase.Comparing? && s.follower.phase.Comparing?
    && s.leader.phase.x == t.leader.phase.x && s.leader.phase.testBits == t.leader.phase.testBits
    && PopAll(t.follower.phase.x, t.leader.phase.testIndices)
       == Some(Split(s.follower.phase.testBits, s.follower.phase.x))
  }

  ghost predicate Compared(t: System, s: System) {
    && t.leader.phase.Comparing? && t.follower.phase.Comparing?
    && s.leader.phase.Concluding? && s.follower.phase.Concluding?
    && s.leader.phase.x == t.leader.phase.x && s.leader.phase.testBits == t.leader.phase.testBits
    && s.follower.phase.x == t.follower.phase.x && s.follower.phase.testBits == t.follower.phase.testBits
  }

  lemma ExchangeSifts(t: System, s: System, d: Coins, c: Coins)
    requires ExchangeStep(t, s, d, c) && t.leader.phase.Sifting? && t.leader.protocol == Bb84
    ensures Sifted(t, s)
  {
    AnswerIsReady(t, d);
    var l, f := t.leader.phase, t.follower.phase;
    MatchingMirrors(l.x, f.x, l.theta, f.theta, |l.x|);
    PopAllSucceeds(Filtered(l.x, l.theta, f.theta), c.picks);
  }

  lemma ExchangeReplays(t: System, s: System, d: Coins, c: Coins)
    requires ExchangeStep(t, s, d, c) && t.leader.phase.Selecting?
    ensures Replayed(t, s)
  {
    AnswerIsReady(t, d);
    PopAllSucceeds(t.follower.phase.x, t.leader.phase.testIndices);
  }

  lemma ExchangeCompares(t: System, s: System, d: Coins, c: Coins)
    requires ExchangeStep(t, s, d, c) && t.leader.phase.Comparing?
    ensures Compared(t, s)
  {
    AnswerIsReady(t, d);
  }

  lemma SameLast(p: seq<int>, q: seq<int>)
    requires Ascending(p) && Ascending(q) && (forall j :: j in p <==> j in q) && p != [] && q != []
    ensures p[|p| - 1] == q[|q| - 1]
  {
    assert p[|p| - 1] in p && q[|q| - 1] in q;
  }

  lemma {:induction false} AscendingIsUnique(p: seq<int>, q: seq<int>)
    requires Ascending(p) && Ascending(q) && forall j :: j in p <==> j in q
    ensures p == q
  {
    assert (q != [] ==> q[0] in q) && (p != [] ==> p[0] in p);
    if p != [] && q != [] {
      SameLast(p, q);
      var p', q' := p[..|p| - 1], q[..|q| - 1];
      forall j ensures j in p' <==> j in q' {
        assert j in p' <==> j in p && j != p[|p| - 1];
        assert j in q' <==> j in q && j != q[|q| - 1];
      }
      AscendingIsUnique(p', q');
    }
  }

  /** Test positions t and kept positions r: together all positions at which the bases agree, each once. */
  ghost predicate Divided(t: seq<int>, r: seq<int>, theta: seq<nat>, thetaHat: seq<nat>) {
    && Ascending(r) && (forall a, b :: 0 <= a < b < |t| ==> t[a] != t[b]) && (forall j :: j in t ==> j !in r)
    && forall j :: j in t || j in r <==> 0 <= j < |theta| && j < |thetaHat| && theta[j] == thetaHat[j]
  }

  /** Positions of x. */
  ghost predicate Within(p: seq<int>, n: nat) {
    forall k :: 0 <= k < |p| ==> 0 <= p[k] < n
  }

  /** Peers keep the outcomes of the same qubits, those measured in one basis. */
  lemma SiftAlike(x: Bits, y: Bits, theta: seq<nat>, thetaHat: seq<nat>) returns (p: seq<int>)
    requires |x| == |y| == |theta| == |thetaHat|
    ensures Ascending(p) && Within(p, |x|)
    ensures forall j :: j in p <==> 0 <= j < |theta| && theta[j] == thetaHat[j]
    ensures Filtered(x, theta, thetaHat) == Select(x, p) && Filtered(y, thetaHat, theta) == Select(y, p)
  {
    var a := FilteredSifts(x, theta, thetaHat);
    var b := FilteredSifts(y, thetaHat, theta);
    AscendingIsUnique(a, b);
    p := a;
  }

  /** Peers that sift and then pop the same indices have divided the same positions. */
  lemma SplitsAlike(x: Bits, y: Bits, theta: seq<nat>, thetaHat: seq<nat>, indices: seq<nat>)
      returns (t: seq<int>, r: seq<int>)
    requires |x| == |y| == |theta| == |thetaHat| && ValidPicks(indices, |Filtered(y, thetaHat, theta)|)
    ensures Divided(t, r, theta, thetaHat) && Within(t, |x|) && Within(r, |x|) && |t| == |indices|
    ensures PopAll(Filtered(x, theta, thetaHat), indices) == Some(Split(Select(x, t), Select(x, r)))
    ensures PopAll(Filtered(y, thetaHat, theta), indices) == Some(Split(Select(y, t), Select(y, r)))
  {
    var p := SiftAlike(x, y, theta, thetaHat);
    PopAllSucceeds(p, indices);
    PopAllDivides(p, indices);
    PopAllSelects(x, p, indices);
    PopAllSelects(y, p, indices);
    var s := PopAll(p, indices).value;
    t, r := s.test, s.rest;
  }

  lemma CameFrom(l: Party, m: Message, c: Coins)
    requires Waiting(l) && l.role == Leader && !l.phase.AwaitingTestSet?
    ensures var q := Receive(l, m, c).phase;
            && (q.Selecting? ==> l.phase.Sifting? && l.protocol == Bb84)
            && (q.Comparing? ==> l.phase.Selecting?)
            && (q.Concluding? ==> l.phase.Comparing?)
            && (q.Exchanging? ==> l.phase.Sifting? && l.protocol == Diqkd)
  {
    match l.phase
    case Distributing(_, _) =>
    case Sifting(_, _) =>
    case Selecting(_, _, _) =>
    case Comparing(_, _) =>
    case _ =>
  }

  lemma ExchangeCameFrom(t: System, s: System, d: Coins, c: Coins)
    requires ExchangeStep(t, s, d, c)
    ensures s.leader.phase.Selecting? ==> t.leader.phase.Sifting? && t.leader.protocol == Bb84
    ensures s.leader.phase.Comparing? ==> t.leader.phase.Selecting?
    ensures s.leader.phase.Concluding? ==> t.leader.phase.Comparing?
    ensures s.leader.phase.Exchanging? ==> t.leader.phase.Sifting? && t.leader.protocol == Diqkd
  {
    PartiesReceive(t, s, d, c);
    CameFrom(t.leader, Answer(t.leader, t.follower, d), c);
  }

  lemma Before(run: seq<System>, k: nat) returns (d: Coins, c: Coins)
    requires OrderedRun(run) && 0 < k < |run| && Settled(run[k]) && !run[k].leader.phase.Exchanging?
    ensures k > 1 && Spoken(run[k - 2]) && ExchangeStep(run[k - 2], run[k], d, c)
  {
    Predecessor(run, k);
    if Spoken(run[k - 1]) && TakesTestSet(run[k - 1], run[k]) {
      TestSetKeepsPhase(run[k - 1], run[k]);
    }
    d, c :| ExchangeStep(run[k - 2], run[k], d, c);
  }

  lemma ComparedBefore(run: seq<System>, i: nat)
    requires OrderedRun(run) && i < |run| && Settled(run[i]) && run[i].leader.phase.Concluding?
    ensures i >= 2 && Settled(run[i - 2]) && Compared(run[i - 2], run[i])
  {
    var d, c := Before(run, i);
    ExchangeCameFrom(run[i - 2], run[i], d, c);
    ExchangeCompares(run[i - 2], run[i], d, c);
  }

  lemma ReplayedBefore(run: seq<System>, i: nat)
    requires OrderedRun(run) && i < |run| && Settled(run[i]) && run[i].leader.phase.Comparing?
    ensures i >= 2 && Settled(run[i - 2]) && Replayed(run[i - 2], run[i])
  {
    var d, c := Before(run, i);
    ExchangeCameFrom(run[i - 2], run[i], d, c);
    ExchangeReplays(run[i - 2], run[i], d, c);
  }

  lemma SiftedBefore(run: seq<System>, i: nat)
    requires OrderedRun(run) && i < |run| && Settled(run[i]) && run[i].leader.phase.Selecting?
    ensures i >= 2 && Settled(run[i - 2]) && Sifted(run[i - 2], run[i])
  {
    var d, c := Before(run, i);
    ExchangeCameFrom(run[i - 2], run[i], d, c);
    ExchangeSifts(run[i - 2], run[i], d, c);
  }

  /** Three exchanges lead from sifting to the verdict. */
  lemma RoundBefore(run: seq<System>, i: nat)
    requires OrderedRun(run) && i < |run| && Settled(run[i]) && run[i].leader.phase.Concluding?
    ensures i >= 6 && Sifted(run[i - 6], run[i - 4]) && Replayed(run[i - 4], run[i - 2]) && Compared(run[i - 2], run[i])
  {
    ComparedBefore(run, i);
    ReplayedBefore(run, i - 2);
    SiftedBefore(run, i - 4);
  }

  /**
   In every run, when a round is judged, the test bits of both parties are the outcomes at the same positions t
   and the bits to be kept are those at the same positions r; together these are the qubits that both have
   measured in one basis.
   */
  lemma RoundsAreDivided(run: seq<System>, i: nat) returns (t: seq<int>, r: seq<int>)
    requires OrderedRun(run) && i < |run| && Settled(run[i]) && run[i].leader.phase.Concluding?
    ensures i >= 6 && Measured(run[i - 6]) && run[i].follower.phase.Concluding?
    ensures var x, y := run[i - 6].leader.phase.x, run[i - 6].follower.phase.x;
            && Divided(t, r, run[i - 6].leader.phase.theta, run[i - 6].follower.phase.theta)
            && Within(t, |x|) && Within(r, |x|)
            && run[i].leader.phase.testBits == Select(x, t) && run[i].leader.phase.x == Select(x, r)
            && run[i].follower.phase.testBits == Select(y, t) && run[i].follower.phase.x == Select(y, r)
  {
    RoundBefore(run, i);
    var l, f := run[i - 6].leader.phase, run[i - 6].follower.phase;
    t, r := SplitsAlike(l.x, f.x, l.theta, f.theta, run[i - 4].leader.phase.testIndices);
  }

  lemma {:induction false} OnesAreThose(v: Bits, n: nat, q: nat -> bool)
    requires n <= |v| && forall k: nat :: k < n ==> q(k) == v[k]
    ensures Ones(v, n) == |Those(n, q)|
  {
    if n == 0 {
      assert Those(0, q) == {};
    } else {
      OnesAreThose(v, n - 1, q);
      OneMoreOfThose(n, q);
    }
  }

  lemma DistanceIsSize(u: Bits, v: Bits)
    requires |u| == |v|
    ensures Distance(u, v) == |set k: nat | k < |u| && u[k] != v[k]|
  {
    var q := (k: nat) => k < |u| && u[k] != v[k];
    OnesAreThose(Xor(u, v), |u|, q);
    assert Those(|u|, q) == set k: nat | k < |u| && u[k] != v[k];
  }

  lemma DistanceAt(x: Bits, y: Bits, t: seq<int>)
    requires |x| == |y| && Within(t, |x|)
    ensures Distance(Select(x, t), Select(y, t)) == |set k: nat | k < |t| && x[t[k]] != y[t[k]]|
  {
    DistanceIsSize(Select(x, t), Select(y, t));
    assert (set k: nat | k < |t| && x[t[k]] != y[t[k]])
           == set k: nat | k < |Select(x, t)| && Select(x, t)[k] != Select(y, t)[k];
  }

  lemma TestsHaveSize(run: seq<System>, i: nat)
    requires OrderedRun(run) && i < |run| && Settled(run[i]) && run[i].leader.phase.Concluding?
    ensures var l := run[i].leader.phase; |l.testBits| == if |l.x| + |l.testBits| < 25 then |l.x| + |l.testBits| else 25
  {
    RoundsHaveShape(run, i);
  }

  lemma ExchangeAdds(t: System, s: System)
    requires Exchanges(t, s) && t.leader.phase.Concluding?
    ensures t.follower.phase.Concluding?
    ensures s.leader.secret == t.leader.secret + Distilled(t.leader)
    ensures s.follower.secret == t.follower.secret + Distilled(t.follower)
  {
    var d, c :| ExchangeStep(t, s, d, c);
    ExchangeConcludes(t, s, d, c);
  }

  /** Something has been tested, and less than 3 in 23 of the tested outcomes differ. */
  ghost predicate Accepted(x: Bits, y: Bits, t: seq<int>)
    requires |x| == |y| && Within(t, |x|)
  {
    var wrong := set k: nat | k < |t| && x[t[k]] != y[t[k]];
    t != [] && 23 * |wrong| < 3 * |t|
  }

  lemma DistilledIfAccepted(run: seq<System>, i: nat, x: Bits, y: Bits, t: seq<int>)
    requires OrderedRun(run) && i < |run| && Settled(run[i]) && run[i].leader.phase.Concluding?
    requires run[i].follower.phase.Concluding? && |x| == |y| && Within(t, |x|)
    requires run[i].leader.phase.testBits == Select(x, t) && run[i].follower.phase.testBits == Select(y, t)
    ensures var l, f := run[i].leader, run[i].follower;
            && Distilled(l) == (if Accepted(x, y, t) then l.phase.x else [])
            && Distilled(f) == (if Accepted(x, y, t) then f.phase.x else [])
  {
    RoundsAreJudgedAlike(run, i);
    DistanceAt(x, y, t);
  }

  /**
   What a BB84 round adds: nothing where no bit could be tested, or at least 3 in 23 of the tested outcomes
   differ; otherwise, to both lists, the outcomes of the untested qubits measured in one basis. 25 are tested, or
   all if there are fewer.
   */
  lemma RoundsAddUntested(run: seq<System>, i: nat, s: System) returns (t: seq<int>, r: seq<int>)
    requires OrderedRun(run) && i < |run| && Settled(run[i]) && run[i].leader.phase.Concluding? && Exchanges(run[i], s)
    ensures i >= 6 && Measured(run[i - 6])
    ensures |t| == if |t| + |r| < 25 then |t| + |r| else 25
    ensures var l, f := run[i - 6].leader.phase, run[i - 6].follower.phase;
            && Divided(t, r, l.theta, f.theta) && Within(t, |l.x|) && Within(r, |l.x|)
            && var ok := Accepted(l.x, f.x, t);
               && s.leader.secret == run[i].leader.secret + (if ok then Select(l.x, r) else [])
               && s.follower.secret == run[i].follower.secret + (if ok then Select(f.x, r) else [])
  {
    t, r := RoundsAreDivided(run, i);
    DistilledIfAccepted(run, i, run[i - 6].leader.phase.x, run[i - 6].follower.phase.x, t);
    TestsHaveSize(run, i);
    ExchangeAdds(run[i], s);
  }

  // ----- DIQKD

  /** The parties hold the outcomes and bases they have sifted with, and the leader's test set. */
  ghost predicate Chosen(t: System, s: System) {
    && Measured(t) && s.leader.phase.Exchanging? && s.follower.phase.Exchanging?
    && var l, f, T := t.leader.phase, t.follower.phase, s.leader.phase.testSet;
       && s.leader.phase == Exchanging(l.x, l.theta, f.theta, T)
       && s.follower.phase == Exchanging(f.x, f.theta, l.theta, T) && InRange(T, |l.x|)
  }

  lemma ExchangeChooses(t: System, s: System, d: Coins, c: Coins)
    requires ExchangeStep(t, s, d, c) && t.leader.phase.Sifting? && t.leader.protocol == Diqkd
    ensures Measured(t) && s.follower.phase.AwaitingTestSet?
    ensures var l, f := t.leader.phase, t.follower.phase;
            && s.leader.phase == Exchanging(l.x, l.theta, f.theta, c.sample)
            && s.follower.phase == AwaitingTestSet(f.x, f.theta, l.theta)
  {
    AnswerIsReady(t, d);
  }

  lemma FollowerTakes(t: System, s: System)
    requires TakesTestSet(t, s)
    ensures t.follower.phase.AwaitingTestSet? && s.leader == t.leader && t.leader.phase.Exchanging?
    ensures var f := t.follower.phase;
            s.follower.phase == Exchanging(f.x, f.theta, f.thetaHat, t.leader.phase.testSet)
    ensures InRange(t.leader.phase.testSet, |t.follower.phase.x|)
  {
    var d :| TestSetTaken(t, s, d);
  }

  lemma NotYetExchanging(t: System, s: System)
    requires Exchanges(t, s)
    ensures !s.follower.phase.Exchanging?
  {
    var d, c :| ExchangeStep(t, s, d, c);
    BothHaveMoved(t, d, c);
  }

  lemma TestBefore(run: seq<System>, i: nat)
    requires OrderedRun(run) && i < |run| && Settled(run[i])
    requires run[i].leader.phase.Exchanging? && run[i].follower.phase.Exchanging?
    ensures i >= 3 && Chosen(run[i - 3], run[i])
  {
    Predecessor(run, i);
    if i > 1 && Spoken(run[i - 2]) && Exchanges(run[i - 2], run[i]) { NotYetExchanging(run[i - 2], run[i]); }
    FollowerTakes(run[i - 1], run[i]);
    Predecessor(run, i - 1);
    if Spoken(run[i - 2]) && TakesTestSet(run[i - 2], run[i - 1]) { FollowerTakes(run[i - 2], run[i - 1]); }
    var d, c :| ExchangeStep(run[i - 3], run[i - 1], d, c);
    ExchangeCameFrom(run[i - 3], run[i - 1], d, c);
    ExchangeChooses(run[i - 3], run[i - 1], d, c);
  }

  lemma ExchangeJudges(t: System, s: System)
    requires Exchanges(t, s) && t.leader.phase.Exchanging?
    ensures t.follower.phase.Exchanging? && Matched(t.leader, t.follower)
    ensures var v := Tested(t.leader, Select(t.follower.phase.x, t.leader.phase.testSet));
            if v == None then s.leader.phase.Aborted? else s.leader.secret == t.leader.secret + v.value
    ensures var w := Tested(t.follower, Select(t.leader.phase.x, t.leader.phase.testSet));
            if w == None then s.follower.phase.Aborted? else s.follower.secret == t.follower.secret + w.value
  {
    var d, c :| ExchangeStep(t, s, d, c);
    BothTest(t, s, d, c);
    TestedParties(t, s, d, c);
  }

  /** The untested positions with leader's basis 0 and follower's 2, ascending. */
  ghost predicate Kept(R: seq<nat>, lead: seq<nat>, follow: seq<nat>, T: seq<nat>)
    requires |lead| == |follow|
  {
    && InRange(R, |lead|) && Ascending(R)
    && forall j: nat :: j in R <==> j < |lead| && j !in T && lead[j] == 0 && follow[j] == 2
  }

  /** Both verdicts of a round, by what the parties have measured. */
  lemma BothVerdicts(x: Bits, y: Bits, lead: seq<nat>, follow: seq<nat>, T: seq<nat>) returns (R: seq<nat>)
    requires |x| == |y| == |lead| == |follow| && InRange(T, |x|)
    requires forall j :: 0 <= j < |x| ==> lead[j] <= 2 && follow[j] <= 2
    ensures Kept(R, lead, follow, T)
    ensures var v := Verdict(Leader, x, lead, follow, T, Select(y, T));
            var w := Verdict(Follower, y, follow, lead, T, Select(x, T));
            if Passes(x, Select(y, T), lead, follow, T) then v == Some(Select(x, R)) && w == Some(Select(y, R))
            else v == None && w == None
  {
    R := KeepsUntested(Leader, x, lead, follow, T, Select(y, T), lead, follow);
    var R' := KeepsUntested(Follower, y, follow, lead, T, Select(x, T), lead, follow);
    AscendingIsUnique(R, R');
    PassesIff(Leader, x, lead, follow, T, Select(y, T), lead, follow);
    VerdictsAgree(x, y, lead, follow, T);
  }

  /** From r on the parties hold what they have measured; the exchange that ends the round leads from t to s. */
  lemma TestAddsUntested(r: System, t: System, s: System) returns (R: seq<nat>)
    requires Chosen(r, t) && Exchanges(t, s)
    requires forall j :: 0 <= j < |r.leader.phase.x| ==> r.leader.phase.theta[j] <= 2 && r.follower.phase.theta[j] <= 2
    ensures var l, f, T := r.leader.phase, r.follower.phase, t.leader.phase.testSet;
            && Kept(R, l.theta, f.theta, T)
            && if Passes(l.x, Select(f.x, T), l.theta, f.theta, T) then
                 && s.leader.secret == t.leader.secret + Select(l.x, R)
                 && s.follower.secret == t.follower.secret + Select(f.x, R)
               else s.leader.phase.Aborted? && s.follower.phase.Aborted?
  {
    ExchangeJudges(t, s);
    var l, f := r.leader.phase, r.follower.phase;
    R := BothVerdicts(l.x, f.x, l.theta, f.theta, t.leader.phase.testSet);
  }

  /**
   What a DIQKD round adds, for bases 0 to 2: if the outcomes of the test set pass, both parties add those of the
   same qubits, all untested ones with the bases 0 and 2; otherwise both abort.
   */
  lemma EprRoundsAddUntested(run: seq<System>, i: nat, s: System) returns (R: seq<nat>)
    requires OrderedRun(run) && i < |run| && Settled(run[i]) && run[i].leader.phase.Exchanging? && Exchanges(run[i], s)
    requires forall j <- run[i].leader.phase.theta + run[i].leader.phase.thetaHat :: j <= 2
    ensures i >= 3 && Chosen(run[i - 3], run[i])
    ensures var l, f, T := run[i - 3].leader.phase, run[i - 3].follower.phase, run[i].leader.phase.testSet;
            && Kept(R, l.theta, f.theta, T)
            && if Passes(l.x, Select(f.x, T), l.theta, f.theta, T) then
                 && s.leader.secret == run[i].leader.secret + Select(l.x, R)
                 && s.follower.secret == run[i].follower.secret + Select(f.x, R)
               else s.leader.phase.Aborted? && s.follower.phase.Aborted?
  {
    FollowerIsReady(run[i], s);
    TestBefore(run, i);
    BasesAreKnown(run[i - 3], run[i]);
    R := TestAddsUntested(run[i - 3], run[i], s);
  }

  lemma FollowerIsReady(t: System, s: System)
    requires Exchanges(t, s) && t.leader.phase.Exchanging?
    ensures t.follower.phase.Exchanging?
  {
    ExchangeJudges(t, s);
  }

  lemma BasesAreKnown(r: System, t: System)
    requires Chosen(r, t) && forall j <- t.leader.phase.theta + t.leader.phase.thetaHat :: j <= 2
    ensures forall j :: 0 <= j < |r.leader.phase.x| ==> r.leader.phase.theta[j] <= 2 && r.follower.phase.theta[j] <= 2
  {
    var both := t.leader.phase.theta + t.leader.phase.thetaHat;
    var l, f := r.leader.phase, r.follower.phase;
    forall j | 0 <= j < |l.x| ensures l.theta[j] <= 2 && f.theta[j] <= 2 {
      assert l.theta[j] == both[j] && both[j] in both;
      assert f.theta[j] == both[|l.theta| + j] && both[|l.theta| + j] in both;
    }
  }
}
