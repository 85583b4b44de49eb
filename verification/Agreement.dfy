/**
 What the two keys have to do with each other. In any run, noisy or not, each key byte comes from one
 accepted amplification round; where codewords are close, all rounds are accepted and the keys are equal.
 */
module Agreement {
  import opened Bits
  import opened Extraction
  import opened GolayCode
  import opened GolayDecoding
  import opened KeyProtocol
  import opened Lockstep
  import opened Moves

  // ----- Key bytes, in every run

  function Accepted(attempts: seq<Attempt>): seq<Attempt> {
    if attempts == [] then []
    else
      var init, a := attempts[..|attempts| - 1], attempts[|attempts| - 1];
      if a.accepted then Accepted(init) + [a] else Accepted(init)
  }

  lemma AcceptedOneMore(attempts: seq<Attempt>, a: Attempt)
    ensures Accepted(attempts + [a]) == if a.accepted then Accepted(attempts) + [a] else Accepted(attempts)
  {
    assert (attempts + [a])[..|attempts|] == attempts;
  }

  /** The attempt's verdict is the follower's tag test on byte-sized inputs. */
  ghost predicate Genuine(a: Attempt) {
    && a.lead0 < 256 && a.lead1 < 256 && a.follow0 < 256 && a.follow1 < 256 && a.seed < 256
    && (a.accepted <==> Tag(a.seed, a.lead0, a.lead1) == Tag(a.seed, a.follow0, a.follow1))
  }

  /** Byte k of each key is extracted from that party's input to the k-th accepted attempt. */
  ghost predicate Extracted(leadKey: seq<nat>, followKey: seq<nat>, attempts: seq<Attempt>) {
    var acc := Accepted(attempts);
    && (forall a :: a in acc ==> Genuine(a) && a.accepted)
    && |leadKey| == |acc| == |followKey|
    && (forall k :: 0 <= k < |acc| ==> leadKey[k] == KeyByte(acc[k].seed, acc[k].lead0))
    && (forall k :: 0 <= k < |acc| ==> followKey[k] == KeyByte(acc[k].seed, acc[k].follow0))
  }

  lemma ExtractedOneMore(leadKey: seq<nat>, followKey: seq<nat>, attempts: seq<Attempt>, a: Attempt)
    requires Extracted(leadKey, followKey, attempts) && Genuine(a)
    ensures if a.accepted
            then Extracted(leadKey + [KeyByte(a.seed, a.lead0)], followKey + [KeyByte(a.seed, a.follow0)],
                           attempts + [a])
            else Extracted(leadKey, followKey, attempts + [a])
  {
    AcceptedOneMore(attempts, a);
  }

  ghost predicate KeysFromAttempts(s: System) {
    Extracted(s.leader.key, s.follower.key, s.history.attempts)
  }

  lemma GoOnKeys(l: Party, f: Party, h: History, s: System)
    requires GoOn(l, f, h, s)
    ensures s.leader.key == l.key && s.follower.key == f.key && s.history.attempts == h.attempts
  {
    var c, d :| GoOnWith(l, f, h, s, c, d);
  }

  lemma KeysAfterAmplifying(t: System, s: System)
    requires Spoken(t) && Amplifies(t, s) && KeysFromAttempts(t)
    ensures KeysFromAttempts(s)
  {
    var l, f := t.leader.phase, t.follower.phase;
    var ok := TagMatches(t.follower, l.seed, Tag(l.seed, l.x0, l.x1));
    var a := Attempt(l.x0, l.x1, f.x0, f.x1, l.seed, ok);
    ExtractedOneMore(t.leader.key, t.follower.key, t.history.attempts, a);
    var h := t.history.(attempts := t.history.attempts + [a]);
    if ok {
      GoOnKeys(t.leader.(key := t.leader.key + [KeyByte(l.seed, l.x0)]),
               t.follower.(key := t.follower.key + [KeyByte(l.seed, f.x0)]), h, s);
    } else {
      GoOnKeys(t.leader, t.follower, h, s);
    }
  }

  lemma OtherMovesKeepKeys(kind: MoveKind, t: System, s: System, b: Bits, b': Bits)
    requires Spoken(t) && Move(kind, t, s, b, b') && !kind.AmplifyMove?
    ensures s.leader.key == t.leader.key && s.follower.key == t.follower.key && s.history.attempts == t.history.attempts
  {
  }

  lemma KeysAreKept(t: System, s: System)
    requires Exchanges(t, s) && KeysFromAttempts(t)
    ensures KeysFromAttempts(s)
  {
    var kind, b, b' := ExchangeMoves(t, s);
    if kind.AmplifyMove? {
      KeysAfterAmplifying(t, s);
    } else {
      OtherMovesKeepKeys(kind, t, s, b, b');
    }
  }

  lemma KeysFromAttemptsAlways(run: seq<System>, i: nat)
    requires OrderedRun(run) && i < |run| && Settled(run[i])
    ensures KeysFromAttempts(run[i])
  {
    forall t, s | Exchanges(t, s) && KeysFromAttempts(t) ensures KeysFromAttempts(s) { KeysAreKept(t, s); }
    forall t, s | TakesTestSet(t, s) && KeysFromAttempts(t) ensures KeysFromAttempts(s) { TestSetKeepsLists(t, s); }
    OverExchanges(run, i, s => true, s => KeysFromAttempts(s));
  }

  lemma TestSetKeepsLists(t: System, s: System)
    requires TakesTestSet(t, s)
    ensures s.leader == t.leader && SameLists(t.follower, s.follower) && s.history == t.history
    ensures t.leader.phase.Exchanging? && s.follower.phase.Exchanging?
  {
  }

  /**
   Key bytes in any run, whatever the noise: the keys agree at every byte whose two input blocks
   agreed, and at every byte whose second input byte agreed under an odd seed; exactly, where
   seed * X[0] + X[1] is one number on both sides. (An accepted round alone is not enough: see
   AcceptedKeyBytesCanDiffer.)
   */
  lemma KeyBytesAgreeWhere(run: seq<System>, i: nat, k: nat)
    requires OrderedRun(run) && i < |run| && Settled(run[i])
    requires k < |run[i].leader.key|
    ensures k < |run[i].follower.key| && k < |Accepted(run[i].history.attempts)|
    ensures var a := Accepted(run[i].history.attempts)[k];
            && run[i].leader.key[k] == KeyByte(a.seed, a.lead0) < 256
            && run[i].follower.key[k] == KeyByte(a.seed, a.follow0) < 256
            && ((a.lead0 == a.follow0 || (a.lead1 == a.follow1 && a.seed % 2 == 1))
                ==> run[i].leader.key[k] == run[i].follower.key[k])
            && (run[i].leader.key[k] == run[i].follower.key[k]
                <==> a.seed * a.lead0 + a.lead1 == a.seed * a.follow0 + a.follow1)
  {
    KeysFromAttemptsAlways(run, i);
    var a := Accepted(run[i].history.attempts)[k];
    assert Genuine(a);
    ProductFits(a.seed, a.lead0);
    ProductFits(a.seed, a.follow0);
    AcceptedBytesAgreeIff(a.seed, a.lead0, a.follow0, a.lead1, a.follow1);
    if a.lead1 == a.follow1 && a.seed % 2 == 1 {
      OddSeedIsInjective(a.seed, a.lead0, a.follow0);
    }
  }

  /** Noise in both input bytes can pass the follower's test and leave different key bytes, under an odd seed too. */
  lemma AcceptedKeyBytesCanDiffer(a: Attempt)
    requires a == Attempt(100, 0, 10, 14, 3, true)
    ensures Genuine(a) && a.accepted && a.seed % 2 == 1
    ensures KeyByte(a.seed, a.lead0) == 1 && KeyByte(a.seed, a.follow0) == 0
  {
  }

  // ----- Equal keys, where codewords are close

  /** If the leader has just sent the syndrome of its codeword, the follower's differs in at most 3 places. */
  ghost predicate CloseHere(s: System) {
    (s.toLeader == [] && s.leader.phase.Reconciling? && s.follower.phase.Reconciling?
      && |s.leader.phase.rest| >= N && |s.follower.phase.rest| >= N) ==>
      Distance(s.follower.phase.rest[..N], s.leader.phase.rest[..N]) <= 3
  }

  ghost predicate Agree(s: System) {
    && s.leader.key == s.follower.key && s.leader.reconciled == s.follower.reconciled
    && (s.leader.phase.Reconciling? ==>
          s.follower.phase.Reconciling? && s.leader.phase.corrected == s.follower.phase.corrected)
    && (s.leader.phase.Amplifying? ==>
          && s.follower.phase.Amplifying?
          && s.leader.phase.x0 == s.follower.phase.x0 && s.leader.phase.x1 == s.follower.phase.x1)
    && |s.leader.key| == |s.history.attempts|
    && (forall a :: a in s.history.attempts ==> a.accepted && a.lead0 == a.follow0 && a.lead1 == a.follow1)
  }

  lemma GoOnAgrees(l: Party, f: Party, h: History, s: System)
    requires SamePace(l, f) && l.key == f.key && l.reconciled == f.reconciled && GoOn(l, f, h, s)
    requires |l.key| == |h.attempts|
    requires forall a :: a in h.attempts ==> a.accepted && a.lead0 == a.follow0 && a.lead1 == a.follow1
    ensures Agree(s)
  {
    var c, d :| GoOnWith(l, f, h, s, c, d);
  }

  lemma OpeningAgrees(t: System, s: System)
    requires Spoken(t) && Opens(t, s) && Agree(t)
    ensures Agree(s)
  {
    GoOnAgrees(t.leader, t.follower.(protocol := t.leader.protocol, keySize := t.leader.keySize), t.history, s);
  }

  lemma YieldAgrees(t: System, s: System, b: Bits, b': Bits)
    requires Spoken(t) && Yields(t, s, b, b') && Agree(t)
    ensures Agree(s)
  {
    GoOnAgrees(t.leader.(secret := t.leader.secret + b), t.follower.(secret := t.follower.secret + b'),
               t.history.(rounds := t.history.rounds + 1, stream := t.history.stream + b), s);
  }

  lemma DecodingAgrees(t: System, s: System)
    requires Spoken(t) && Decodes(t, s) && Agree(t) && CloseHere(t)
    ensures Agree(s)
  {
    var x, y := t.leader.phase.rest[..N], t.follower.phase.rest[..N];
    CorrectedIsUnique(y, x);
    var u := t.leader.phase.corrected + x;
    if |t.leader.phase.rest| - N < N {
      GoOnAgrees(t.leader.(secret := t.leader.phase.rest[N..], reconciled := t.leader.reconciled + u),
                 t.follower.(secret := t.follower.phase.rest[N..], reconciled := t.follower.reconciled + u),
                 t.history.(codewords := t.history.codewords + 1), s);
    }
  }

  lemma AmplifyingAgrees(t: System, s: System)
    requires Spoken(t) && Amplifies(t, s) && Agree(t)
    ensures Agree(s)
  {
    var l := t.leader.phase;
    var byte := KeyByte(l.seed, l.x0);
    var a := Attempt(l.x0, l.x1, l.x0, l.x1, l.seed, true);
    GoOnAgrees(t.leader.(key := t.leader.key + [byte]), t.follower.(key := t.follower.key + [byte]),
               t.history.(attempts := t.history.attempts + [a]), s);
  }

  lemma AgreementIsKept(t: System, s: System)
    requires Exchanges(t, s) && CloseHere(t) && Agree(t)
    ensures Agree(s)
  {
    var kind, b, b' := ExchangeMoves(t, s);
    match kind
    case OpenMove => OpeningAgrees(t, s);
    case YieldMove => YieldAgrees(t, s, b, b');
    case DecodeMove => DecodingAgrees(t, s);
    case AmplifyMove => AmplifyingAgrees(t, s);
    case IdleMove =>
    case AbortMove =>
    case FinishMove =>
  }

  /** In a run whose aligned codewords are all close, both parties agree at every turn. */
  lemma CloseRunsAgree(run: seq<System>, i: nat)
    requires OrderedRun(run) && i < |run| && Settled(run[i])
    requires forall k :: 0 <= k < |run| ==> CloseHere(run[k])
    ensures Agree(run[i])
  {
    forall t, s | Exchanges(t, s) && CloseHere(t) && Agree(t) ensures Agree(s) { AgreementIsKept(t, s); }
    forall t, s | TakesTestSet(t, s) && Agree(t) ensures Agree(s) { TestSetKeepsLists(t, s); }
    OverExchanges(run, i, s => CloseHere(s), s => Agree(s));
  }
}
