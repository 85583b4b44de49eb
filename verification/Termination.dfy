/**
 Conditional termination of `execute`: if every distillation round yields at least one bit and
 codewords are close, a run has at most key_size reconciliation passes, at most 23 * key_size
 distillation rounds, and a bounded number of steps.
 */
module Termination {
  import opened Bits
  import opened Sampling
  import opened GolayCode
  import opened GolayDecoding
  import opened Extraction
  import opened Wire
  import opened KeyProtocol
  import opened Lockstep
  import opened Moves
  import opened Agreement
  import opened Accounts

  /** A round that ends here does not end empty-handed. */
  ghost predicate ProductiveHere(s: System) {
    && (s.toLeader == [] && s.leader.phase.Concluding? ==> Distilled(s.leader) != [])
    && (s.toLeader == [] ==> !EmptyHanded(s))
  }

  /** Rounds are paid for by passes and by the bits at hand, passes by key bytes. */
  ghost predicate Pace(p: Party, h: History) {
    && h.rounds <= N * h.passes + (if InRound(p.phase) || p.phase.Aborted? then |p.secret| else 0)
    && (if p.phase.Reconciling? || p.phase.Amplifying? then h.passes <= |p.key| + 1 else h.passes <= |p.key|)
  }

  ghost predicate Good(s: System) {
    CloseHere(s) && ProductiveHere(s)
  }

  ghost predicate Paced(s: System) {
    Agree(s) && Accounted(s) && Pace(s.leader, s.history)
  }

  lemma PaceFromHead(p: Party, f: Party, h: History, s: System)
    requires GoOn(p, f, h, s)
    requires h.rounds <= N * h.passes + (if |p.secret| <= N then |p.secret| else N)
    requires |p.key| <= p.keySize
    requires h.passes <= |p.key| || (|p.reconciled| >= BLOCK && |p.key| < p.keySize && h.passes <= |p.key| + 1)
    requires |p.reconciled| >= BLOCK || |p.key| >= p.keySize ==> h.rounds <= N * h.passes
    ensures Pace(s.leader, s.history)
  {
    var c, d :| GoOnWith(p, f, h, s, c, d);
  }

  lemma PaceAfterYield(t: System, s: System, b: Bits, b': Bits)
    requires Spoken(t) && Yields(t, s, b, b') && Paced(t) && ProductiveHere(t)
    ensures Pace(s.leader, s.history)
  {
    assert b != [];
    PaceFromHead(t.leader.(secret := t.leader.secret + b), t.follower.(secret := t.follower.secret + b'),
                 t.history.(rounds := t.history.rounds + 1, stream := t.history.stream + b), s);
  }

  lemma PaceAfterDecoding(t: System, s: System)
    requires Spoken(t) && Decodes(t, s) && Paced(t)
    ensures Pace(s.leader, s.history)
  {
    var x, y := t.leader.phase.rest[..N], t.follower.phase.rest[..N];
    var u, v := t.leader.phase.corrected + x, t.follower.phase.corrected + Corrected(y, Syndrome(x));
    if |t.leader.phase.rest| - N < N {
      PaceFromHead(t.leader.(secret := t.leader.phase.rest[N..], reconciled := t.leader.reconciled + u),
                   t.follower.(secret := t.follower.phase.rest[N..], reconciled := t.follower.reconciled + v),
                   t.history.(codewords := t.history.codewords + 1), s);
    }
  }

  lemma PaceAfterAmplifying(t: System, s: System)
    requires Spoken(t) && Amplifies(t, s) && Paced(t)
    ensures Pace(s.leader, s.history)
  {
    var l, f := t.leader.phase, t.follower.phase;
    var h := t.history.(attempts := t.history.attempts + [Attempt(l.x0, l.x1, f.x0, f.x1, l.seed, true)]);
    PaceFromHead(t.leader.(key := t.leader.key + [KeyByte(l.seed, l.x0)]),
                 t.follower.(key := t.follower.key + [KeyByte(l.seed, f.x0)]), h, s);
  }

  lemma PaceAfterOther(t: System, s: System)
    requires Spoken(t) && Paced(t) && (Opens(t, s) || Idles(t, s) || Aborts(t, s) || Finishes(t, s))
    ensures Pace(s.leader, s.history)
  {
    if Opens(t, s) {
      PaceFromHead(t.leader, t.follower.(protocol := t.leader.protocol, keySize := t.leader.keySize), t.history, s);
    }
  }

  lemma PaceIsKept(t: System, s: System)
    requires Exchanges(t, s) && Good(t) && Paced(t)
    ensures Paced(s)
  {
    AgreementIsKept(t, s);
    BooksAreKept(t, s);
    BoundsAreKept(t, s);
    PaceAlone(t, s);
  }

  lemma PaceAlone(t: System, s: System)
    requires Exchanges(t, s) && Good(t) && Paced(t)
    ensures Pace(s.leader, s.history)
  {
    var kind, b, b' := ExchangeMoves(t, s);
    match kind
    case YieldMove => PaceAfterYield(t, s, b, b');
    case DecodeMove => PaceAfterDecoding(t, s);
    case AmplifyMove => PaceAfterAmplifying(t, s);
    case OpenMove => PaceAfterOther(t, s);
    case IdleMove => PaceAfterOther(t, s);
    case AbortMove => PaceAfterOther(t, s);
    case FinishMove => PaceAfterOther(t, s);
  }

  lemma RunsArePaced(run: seq<System>, i: nat)
    requires OrderedRun(run) && i < |run| && Settled(run[i])
    requires forall k :: 0 <= k < |run| ==> Good(run[k])
    ensures Paced(run[i])
  {
    forall t, s | Exchanges(t, s) && Good(t) && Paced(t) ensures Paced(s) { PaceIsKept(t, s); }
    forall t, s | TakesTestSet(t, s) && Paced(t) ensures Paced(s) { TestSetKeepsLists(t, s); }
    OverExchanges(run, i, s => Good(s), s => Paced(s));
  }

  // ----- A clock

  /** A count that every exchange moves on. */
  function Clock(s: System): nat {
    (ROUND_SIZE + 4) * s.history.rounds + s.history.codewords + |s.history.attempts| + Position(s.leader.phase)
  }

  lemma GoOnPosition(l: Party, f: Party, h: History, s: System)
    requires GoOn(l, f, h, s)
    ensures Position(s.leader.phase) == 1
    ensures s.history.rounds == h.rounds && s.history.codewords == h.codewords && s.history.attempts == h.attempts
  {
    var c, d :| GoOnWith(l, f, h, s, c, d);
  }

  lemma ClockTicksOnYield(t: System, s: System, b: Bits, b': Bits)
    requires Yields(t, s, b, b')
    ensures Clock(s) > Clock(t)
  {
    GoOnPosition(t.leader.(secret := t.leader.secret + b), t.follower.(secret := t.follower.secret + b'),
                 t.history.(rounds := t.history.rounds + 1, stream := t.history.stream + b), s);
  }

  lemma ClockTicksOnDecoding(t: System, s: System)
    requires Decodes(t, s)
    ensures Clock(s) > Clock(t)
  {
    var x, y := t.leader.phase.rest[..N], t.follower.phase.rest[..N];
    var u, v := t.leader.phase.corrected + x, t.follower.phase.corrected + Corrected(y, Syndrome(x));
    if |t.leader.phase.rest| - N < N {
      GoOnPosition(t.leader.(secret := t.leader.phase.rest[N..], reconciled := t.leader.reconciled + u),
                   t.follower.(secret := t.follower.phase.rest[N..], reconciled := t.follower.reconciled + v),
                   t.history.(codewords := t.history.codewords + 1), s);
    }
  }

  lemma ClockTicksOnAmplifying(t: System, s: System)
    requires Amplifies(t, s)
    ensures Clock(s) > Clock(t)
  {
    var l, f := t.leader.phase, t.follower.phase;
    var ok := TagMatches(t.follower, l.seed, Tag(l.seed, l.x0, l.x1));
    var h := t.history.(attempts := t.history.attempts + [Attempt(l.x0, l.x1, f.x0, f.x1, l.seed, ok)]);
    if ok {
      GoOnPosition(t.leader.(key := t.leader.key + [KeyByte(l.seed, l.x0)]),
                   t.follower.(key := t.follower.key + [KeyByte(l.seed, f.x0)]), h, s);
    } else {
      GoOnPosition(t.leader, t.follower, h, s);
    }
  }

  lemma ClockTicksOnOpening(t: System, s: System)
    requires Opens(t, s)
    ensures Clock(s) > Clock(t)
  {
    GoOnPosition(t.leader, t.follower.(protocol := t.leader.protocol, keySize := t.leader.keySize), t.history, s);
  }

  lemma ClockTicksOnQuiet(t: System, s: System)
    requires Idles(t, s) || Aborts(t, s) || Finishes(t, s)
    ensures Clock(s) > Clock(t)
  {
  }

  lemma ClockTicks(t: System, s: System)
    requires Exchanges(t, s)
    ensures Clock(s) > Clock(t)
  {
    var kind, b, b' := ExchangeMoves(t, s);
    match kind
    case OpenMove => ClockTicksOnOpening(t, s);
    case YieldMove => ClockTicksOnYield(t, s, b, b');
    case DecodeMove => ClockTicksOnDecoding(t, s);
    case AmplifyMove => ClockTicksOnAmplifying(t, s);
    case IdleMove => ClockTicksOnQuiet(t, s);
    case AbortMove => ClockTicksOnQuiet(t, s);
    case FinishMove => ClockTicksOnQuiet(t, s);
  }

  lemma {:induction false} TimeInduction(run: seq<System>, i: nat, At: System -> bool, big: (System, System) -> bool,
                                         small: (System, System) -> bool, clock: System -> nat, late: System -> bool)
    requires i < |run| && At(run[i]) && !late(run[0])
    requires forall k :: 0 < k < |run| && At(run[k]) ==> ReachedFrom(run, k, At, s => true, big, small)
    requires forall t, s :: big(t, s) ==> clock(s) > clock(t)
    requires forall t, s :: small(t, s) ==> clock(s) == clock(t) && late(t) && !late(s)
    ensures i + (if late(run[i]) then 1 else 0) <= 3 * clock(run[i])
    decreases i
  {
    if i > 0 {
      assert ReachedFrom(run, i, At, s => true, big, small);
      if At(run[i - 1]) && small(run[i - 1], run[i]) {
        TimeInduction(run, i - 1, At, big, small, clock, late);
      } else {
        TimeInduction(run, i - 2, At, big, small, clock, late);
        assert big(run[i - 2], run[i]);
      }
    }
  }

  lemma TestSetTime(t: System, s: System)
    requires TakesTestSet(t, s)
    ensures Clock(s) == Clock(t) && t.follower.phase.AwaitingTestSet? && !s.follower.phase.AwaitingTestSet?
  {
    TestSetKeepsLists(t, s);
  }

  /** Time in terms of the clock: an exchange takes two steps, or three with a test set. */
  lemma TimeIsBounded(run: seq<System>, i: nat)
    requires OrderedRun(run) && i < |run| && Settled(run[i])
    ensures i <= 3 * Clock(run[i])
  {
    var At, big, small := (s: System) => Settled(s), (t, s) => Exchanges(t, s), (t, s) => TakesTestSet(t, s);
    forall k | 0 < k < |run| && At(run[k]) ensures ReachedFrom(run, k, At, s => true, big, small) {
      Predecessor(run, k);
    }
    forall t, s | Exchanges(t, s) ensures Clock(s) > Clock(t) { ClockTicks(t, s); }
    forall t, s | TakesTestSet(t, s)
      ensures Clock(s) == Clock(t) && t.follower.phase.AwaitingTestSet? && !s.follower.phase.AwaitingTestSet?
    {
      TestSetTime(t, s);
    }
    TimeInduction(run, i, At, big, small, s => Clock(s), (s: System) => s.follower.phase.AwaitingTestSet?);
  }

  lemma CountsAreBounded(s: System)
    requires Paced(s) && Settled(s)
    ensures s.history.passes <= s.leader.keySize && s.history.rounds <= N * s.leader.keySize
    ensures |s.history.attempts| <= s.leader.keySize && s.history.codewords <= s.leader.keySize + 12
    ensures Position(s.leader.phase) <= ROUND_SIZE + 4
  {
  }

  lemma TurnIsBounded(run: seq<System>, i: nat)
    requires OrderedRun(run) && i < |run| && Settled(run[i])
    requires forall k :: 0 <= k < |run| ==> Good(run[k])
    ensures i <= 7182 * run[0].leader.keySize + 360
    ensures run[i].history.passes <= run[0].leader.keySize && run[i].history.rounds <= 23 * run[0].leader.keySize
  {
    assert Paced(run[i]) by { RunsArePaced(run, i); }
    assert run[i].leader.keySize == run[0].leader.keySize by { RunsKeepProtocol(run, i); }
    assert i <= 3 * Clock(run[i]) by { TimeIsBounded(run, i); }
    CountsAreBounded(run[i]);
  }

  /**
   Where every round yields a bit and codewords are close, a run of either protocol makes at most
   key_size reconciliation passes and 23 * key_size distillation rounds and has a bounded length; a run
   that cannot be continued is over (Lockstep.RunsAreSafe).
   */
  lemma GoodRunsAreBounded(run: seq<System>)
    requires OrderedRun(run)
    requires forall k :: 0 <= k < |run| ==> Good(run[k])
    ensures |run| <= 7182 * run[0].leader.keySize + 400
    ensures forall i :: 0 <= i < |run| && Settled(run[i]) ==>
              run[i].history.passes <= run[0].leader.keySize && run[i].history.rounds <= 23 * run[0].leader.keySize
  {
    forall i | 0 <= i < |run| && Settled(run[i])
      ensures i <= 7182 * run[0].leader.keySize + 360
      ensures run[i].history.passes <= run[0].leader.keySize && run[i].history.rounds <= 23 * run[0].leader.keySize
    {
      TurnIsBounded(run, i);
    }
    var n := |run| - 1;
    if !Settled(run[n]) {
      LastSettled(run, n);
    }
  }

  lemma LastSettled(run: seq<System>, n: nat)
    requires OrderedRun(run) && n < |run| && !Settled(run[n])
    ensures n > 0 && Settled(run[n - 1])
  {
    if n == 0 {
      SpokenAtStart(run);
    } else {
      RunsStayInStep(run, n - 1);
      RunsStayInStep(run, n);
      assert NextInOrder(run[n - 1], run[n]);
      if Answered(run[n - 1]) {
        var t, d :| AnsweredFrom(run[n - 1], t, d);
        StepFromAnswered(run[n - 1], run[n], t, d);
      }
    }
  }

  /**
   Total correctness where rounds yield and codewords are close: a run that cannot be continued has ended,
   in BB84 always with two equal keys of the requested length, in DIQKD so or with both parties aborted.
   */
  lemma CompleteRunsAgree(run: seq<System>, last: System)
    requires OrderedRun(run) && last == run[|run| - 1] && !exists s' :: NextInOrder(last, s')
    requires forall k :: 0 <= k < |run| ==> Good(run[k])
    ensures |run| <= 7182 * run[0].leader.keySize + 400
    ensures || (last.leader.phase.Done? && last.follower.phase.Done? && last.leader.key == last.follower.key
                && |last.leader.key| == run[0].leader.keySize)
            || (last.leader.phase.Aborted? && last.follower.phase.Aborted? && run[0].leader.protocol == Diqkd)
  {
    GoodRunsAreBounded(run);
    assert Over(last) by { RunsAreSafe(run, |run| - 1); }
    RunsKeepProtocol(run, |run| - 1);
    if last.leader.phase.Done? {
      KeyAgreement(run, |run| - 1);
    }
  }
}
