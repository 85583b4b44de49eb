/**
 The noiseless channel of BB84 as a corollary: if outcomes agree wherever bases agree, the parties hold
 the same lists throughout, no error is counted, and the keys are equal.
 */
module Noiseless {
  import opened Bits
  import opened Options
  import opened Sampling
  import opened EprTest
  import opened GolayCode
  import opened GolayDecoding
  import opened Extraction
  import opened Wire
  import opened KeyProtocol
  import opened Lockstep
  import opened Moves
  import opened Agreement
  import opened Accounts

  /** The round just measured is free of noise: equal bases have given equal outcomes. */
  ghost predicate QuietHere(s: System) {
    (s.toLeader == [] && s.leader.phase.Sifting? && s.follower.phase.Sifting?) ==>
      var l, f := s.leader.phase, s.follower.phase;
      forall i :: 0 <= i < |l.x| && i < |f.x| && At(l.theta, i) == At(f.theta, i) ==> l.x[i] == f.x[i]
  }

  /** All lists are the same on both sides; test bits agree. */
  ghost predicate Same(l: Party, f: Party) {
    && l.protocol == Bb84 && l.key == f.key && l.reconciled == f.reconciled && l.secret == f.secret
    && match l.phase
       case Selecting(x, indices, bits) => f.phase.Selecting? && PopAll(f.phase.x, indices) == Some(Split(bits, x))
       case Comparing(x, bits) => f.phase.Comparing? && f.phase.x == x && f.phase.testBits == bits
       case Concluding(x, bits, e) =>
         f.phase.Concluding? && f.phase.x == x && f.phase.testBits == bits && e == 0 == f.phase.numError
       case Exchanging(_, _, _, _) => false
       case Reconciling(rest, corrected) =>
         f.phase.Reconciling? && f.phase.rest == rest && f.phase.corrected == corrected
       case Amplifying(x0, x1, _) => f.phase.Amplifying? && f.phase.x0 == x0 && f.phase.x1 == x1
       case _ => true
  }

  ghost predicate SameHere(s: System) {
    Same(s.leader, s.follower)
  }

  lemma GoOnSame(l: Party, f: Party, h: History, s: System)
    requires GoOn(l, f, h, s) && l.keySize == f.keySize
    requires l.protocol == Bb84 && l.key == f.key && l.reconciled == f.reconciled && l.secret == f.secret
    ensures SameHere(s)
  {
    var c, d :| GoOnWith(l, f, h, s, c, d);
  }

  lemma SameAfterSifting(l: Party, f: Party, c: Coins, d: Coins)
    requires Matched(l, f) && l.phase.Sifting? && Same(l, f) && FairExchange(l, f, c, d)
    requires |Heard(l, f)| == 1 && Waiting(f) && |Sent(f, Heard(l, f)[0], d)| == 1
    requires forall i :: 0 <= i < |l.phase.x| && At(l.phase.theta, i) == At(f.phase.theta, i)
                         ==> l.phase.x[i] == f.phase.x[i]
    ensures Same(Receive(l, Answer(l, f, d), c), Receive(f, Heard(l, f)[0], d))
  {
    var x, y, theta, thetaHat := l.phase.x, f.phase.x, l.phase.theta, f.phase.theta;
    forall i | 0 <= i < |x| && theta[i] == thetaHat[i] ensures x[i] == y[i] {
      assert At(theta, i) == At(thetaHat, i);
    }
    MatchingMirrors(x, y, theta, thetaHat, |x|);
    PopAllSucceeds(Filtered(x, theta, thetaHat), c.picks);
  }

  lemma SameAfterComparing(l: Party, f: Party, c: Coins, d: Coins)
    requires Matched(l, f) && l.phase.Comparing? && Same(l, f)
    requires |Heard(l, f)| == 1 && Waiting(f) && |Sent(f, Heard(l, f)[0], d)| == 1
    ensures Same(Receive(l, Answer(l, f, d), c), Receive(f, Heard(l, f)[0], d))
  {
    var u := l.phase.testBits;
    assert u[..|u|] == u;
    DistanceZero(u, u);
  }

  lemma SameAfterIdling(t: System, s: System, d: Coins, c: Coins)
    requires ExchangeStep(t, s, d, c) && SameHere(t) && QuietHere(t)
    requires var p := t.leader.phase; p.Distributing? || p.Sifting? || p.Selecting? || p.Comparing?
    ensures SameHere(s)
  {
    AnswerIsReady(t, d);
    if t.leader.phase.Sifting? {
      SameAfterSifting(t.leader, t.follower, c, d);
    } else if t.leader.phase.Comparing? {
      SameAfterComparing(t.leader, t.follower, c, d);
    }
  }

  lemma SameAfterMove(kind: MoveKind, t: System, s: System, b: Bits, b': Bits)
    requires Spoken(t) && SameHere(t) && Move(kind, t, s, b, b') && !kind.IdleMove?
    ensures SameHere(s)
  {
    var l, f, h := t.leader, t.follower, t.history;
    match kind
    case OpenMove => GoOnSame(l, f.(protocol := l.protocol, keySize := l.keySize), h, s);
    case YieldMove =>
      GoOnSame(l.(secret := l.secret + b), f.(secret := f.secret + b'),
               h.(rounds := h.rounds + 1, stream := h.stream + b), s);
    case DecodeMove => SameAfterDecoding(t, s);
    case AmplifyMove =>
      var p := l.phase;
      GoOnSame(l.(key := l.key + [KeyByte(p.seed, p.x0)]), f.(key := f.key + [KeyByte(p.seed, p.x0)]),
               h.(attempts := h.attempts + [Attempt(p.x0, p.x1, p.x0, p.x1, p.seed, true)]), s);
    case AbortMove =>
    case FinishMove =>
  }

  lemma SameAfterDecoding(t: System, s: System)
    requires Spoken(t) && SameHere(t) && Decodes(t, s)
    ensures SameHere(s)
  {
    var rest := t.leader.phase.rest;
    var x := rest[..N];
    DistanceZero(x, x);
    CorrectedIsUnique(x, x);
    var u := t.leader.phase.corrected + x;
    if |rest| - N < N {
      GoOnSame(t.leader.(secret := rest[N..], reconciled := t.leader.reconciled + u),
               t.follower.(secret := rest[N..], reconciled := t.follower.reconciled + u),
               t.history.(codewords := t.history.codewords + 1), s);
    }
  }

  lemma SameIsKept(t: System, s: System)
    requires Exchanges(t, s) && SameHere(t) && QuietHere(t)
    ensures SameHere(s)
  {
    var p := t.leader.phase;
    if p.Distributing? || p.Sifting? || p.Selecting? || p.Comparing? {
      var d, c :| ExchangeStep(t, s, d, c);
      SameAfterIdling(t, s, d, c);
    } else {
      var kind, b, b' := ExchangeMoves(t, s);
      SameAfterMove(kind, t, s, b, b');
    }
  }

  lemma QuietRunsAreSame(run: seq<System>, i: nat)
    requires OrderedRun(run) && run[0].leader.protocol == Bb84 && i < |run| && Settled(run[i])
    requires forall k :: 0 <= k < |run| ==> QuietHere(run[k])
    ensures SameHere(run[i])
  {
    forall t, s | Exchanges(t, s) && QuietHere(t) && SameHere(t) ensures SameHere(s) { SameIsKept(t, s); }
    forall t, s | TakesTestSet(t, s) && SameHere(t) ensures SameHere(s) { TestSetKeepsLists(t, s); }
    OverExchanges(run, i, s => QuietHere(s), s => SameHere(s));
  }

  lemma QuietRunsAreClose(run: seq<System>, i: nat)
    requires OrderedRun(run) && run[0].leader.protocol == Bb84 && i < |run|
    requires forall k :: 0 <= k < |run| ==> QuietHere(run[k])
    ensures CloseHere(run[i])
  {
    if run[i].toLeader == [] && run[i].leader.phase.Reconciling? && |run[i].leader.phase.rest| >= N {
      RunsStayInStep(run, i);
      NotAnswered(run[i]);
      QuietRunsAreSame(run, i);
      var x := run[i].leader.phase.rest[..N];
      DistanceZero(x, x);
    }
  }

  lemma NotAnswered(s: System)
    requires InStep(s) && s.toLeader == []
    ensures Settled(s)
  {
    if Answered(s) {
      var t, d :| AnsweredFrom(s, t, d);
      AnswerIsReady(t, d);
    }
  }

  /** Noiseless BB84: at the end the keys are equal, of the requested length, and nothing was rejected. */
  lemma NoiselessKeysAgree(run: seq<System>, i: nat)
    requires OrderedRun(run) && run[0].leader.protocol == Bb84 && i < |run| && run[i].leader.phase.Done?
    requires forall k :: 0 <= k < |run| ==> QuietHere(run[k])
    ensures run[i].follower.phase.Done? && run[i].follower.key == run[i].leader.key
    ensures |run[i].leader.key| == run[0].leader.keySize == |run[i].history.attempts|
  {
    forall k | 0 <= k < |run| ensures CloseHere(run[k]) { QuietRunsAreClose(run, k); }
    KeyAgreement(run, i);
  }
}
