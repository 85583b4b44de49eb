/**
 Bookkeeping over whole runs: no distilled bit is lost or used twice on the leader's side, the buffers
 of `execute` stay small, and, where every round yields something and codewords are close, runs end.
 */
module Accounts {
  import opened Bits
  import opened Sampling
  import opened EprTest
  import opened Extraction
  import opened GolayCode
  import opened GolayDecoding
  import opened Wire
  import opened KeyProtocol
  import opened Lockstep
  import opened Moves
  import opened Agreement

  /** The k-th block of 16 bits of the leader's stream. */
  function Block(stream: Bits, k: nat): Bits
    requires BLOCK * k + BLOCK <= |stream|
  {
    stream[BLOCK * k..BLOCK * k + BLOCK]
  }

  /** The attempts so far have used up the stream block by block. */
  ghost predicate Consumed(stream: Bits, attempts: seq<Attempt>) {
    && BLOCK * |attempts| <= |stream|
    && forall k :: 0 <= k < |attempts| ==>
         Number(Block(stream, k)) == 256 * attempts[k].lead0 + attempts[k].lead1 && attempts[k].lead1 < 256
  }

  /** The most bits one round can add: 100 less the 25 test bits, or all 100 in DIQKD. */
  function MostPerRound(protocol: Protocol): nat {
    if protocol == Bb84 then ROUND_SIZE - TEST_SIZE else ROUND_SIZE
  }

  function MostReconciled(protocol: Protocol): nat {
    BLOCK - 1 + N * ((N - 1 + MostPerRound(protocol)) / N)
  }

  /**
   The leader's books at a loop head of `execute`: the stream is what has been used, then `reconciled`,
   then `secret_bits`; buffers are bounded; a pass is paid for by an attempt, made or due.
   */
  ghost predicate AtHead(p: Party, h: History) {
    && |p.key| <= p.keySize
    && Consumed(h.stream, h.attempts) && h.stream[BLOCK * |h.attempts|..] == p.reconciled + p.secret
    && |p.secret| <= N - 1 + MostPerRound(p.protocol) && |p.reconciled| <= MostReconciled(p.protocol)
    && (|p.secret| < N || (|p.reconciled| < BLOCK && |p.key| < p.keySize))
    && N * h.codewords == BLOCK * |h.attempts| + |p.reconciled|
    && (h.passes <= |h.attempts| || (|p.reconciled| >= BLOCK && |p.key| < p.keySize && h.passes <= |h.attempts| + 1))
  }

  /** So many bits make up whole codewords. */
  predicate Whole(n: nat) {
    n == 0 || (n >= N && Whole(n - N))
  }

  lemma {:induction false} WholeIsMultiple(n: nat)
    ensures Whole(n) <==> n % N == 0
  {
    if n >= N { WholeIsMultiple(n - N); }
  }

  /** The leader's books at a wait. */
  ghost predicate Books(s: System) {
    var p, h := s.leader, s.history;
    var a := BLOCK * |h.attempts|;
    && |p.key| <= p.keySize && Consumed(h.stream, h.attempts)
    && match p.phase
       case Opening => h == History(0, [], 0, 0, [])
       case Reconciling(rest, corrected) =>
         && |p.key| < p.keySize && |p.reconciled| < BLOCK && |p.secret| <= N - 1 + MostPerRound(p.protocol)
         && corrected + rest == p.secret && Whole(|corrected|)
         && h.stream[a..] == p.reconciled + p.secret
         && N * h.codewords == a + |p.reconciled| + |corrected| && h.passes <= |h.attempts| + 1
       case Amplifying(x0, x1, _) =>
         && |p.key| < p.keySize && |p.reconciled| + BLOCK <= MostReconciled(p.protocol) && |p.secret| < N
         && a + BLOCK <= |h.stream| && Number(Block(h.stream, |h.attempts|)) == 256 * x0 + x1 && x1 < 256
         && h.stream[a + BLOCK..] == p.reconciled + p.secret
         && N * h.codewords == a + BLOCK + |p.reconciled| && h.passes <= |h.attempts| + 1
       case Failed => true
       case _ =>
         && (if InRound(p.phase) || p.phase.Aborted? then |p.key| < p.keySize && |p.reconciled| < BLOCK
             else |p.key| == p.keySize)
         && |p.secret| < N && |p.reconciled| <= MostReconciled(p.protocol)
         && h.stream[a..] == p.reconciled + p.secret
         && N * h.codewords == a + |p.reconciled| && h.passes <= |h.attempts|
  }

  lemma HeadToAmplifying(p: Party, h: History, c: Coins)
    requires AtHead(p, h) && |p.key| < p.keySize && |p.reconciled| >= BLOCK
    ensures var q := StartAmplifying(p, c);
            var a := BLOCK * |h.attempts|;
            && a + BLOCK <= |h.stream| && Number(Block(h.stream, |h.attempts|)) == 256 * q.phase.x0 + q.phase.x1
            && h.stream[a + BLOCK..] == q.reconciled + q.secret
  {
    var a := BLOCK * |h.attempts|;
    assert Block(h.stream, |h.attempts|) == h.stream[a..][..BLOCK] == p.reconciled[..BLOCK];
    assert h.stream[a + BLOCK..] == h.stream[a..][BLOCK..] == p.reconciled[BLOCK..] + p.secret;
  }

  /** Either party goes into amplification with the two bytes that its next sixteen reconciled bits spell. */
  lemma InputIsSpelled(p: Party, c: Coins)
    requires Advance(p, c).phase.Amplifying?
    ensures var q := Advance(p, c);
            |p.reconciled| >= BLOCK && q.reconciled == p.reconciled[BLOCK..]
            && Spells(q.phase.x0, q.phase.x1, p.reconciled[..BLOCK])
  {
    BlockIsSpelled(p.reconciled[..BLOCK]);
  }

  lemma HeadToWait(p: Party, f: Party, h: History, s: System)
    requires AtHead(p, h) && GoOn(p, f, h, s)
    ensures Books(s)
  {
    var c, d :| GoOnWith(p, f, h, s, c, d);
    if |p.key| < p.keySize && |p.reconciled| >= BLOCK {
      HeadToAmplifying(p, h, c);
    }
  }

  // ----- The lists of a round are bounded

  ghost predicate RoundIsBounded(s: System) {
    match s.leader.phase
    case Sifting(x, _) => |x| <= ROUND_SIZE
    case Selecting(x, _, _) => |x| <= ROUND_SIZE - TEST_SIZE
    case Comparing(x, _) => |x| <= ROUND_SIZE - TEST_SIZE
    case Concluding(x, _, _) => |x| <= ROUND_SIZE - TEST_SIZE
    case Exchanging(x, _, _, _) => |x| <= ROUND_SIZE
    case _ => true
  }

  lemma SiftingIsBounded(l: Party, f: Party, c: Coins, d: Coins)
    requires Matched(l, f) && l.phase.Sifting? && FairExchange(l, f, c, d) && |l.phase.x| <= ROUND_SIZE && Waiting(f)
    requires |Heard(l, f)| == 1 && |Sent(f, Heard(l, f)[0], d)| == 1
    ensures var q := Receive(l, Answer(l, f, d), c).phase;
            && (q.Selecting? ==> |q.x| <= ROUND_SIZE - TEST_SIZE)
            && (q.Exchanging? ==> |q.x| <= ROUND_SIZE)
  {
    if l.protocol == Bb84 {
      MatchingMirrors(l.phase.x, f.phase.x, l.phase.theta, f.phase.theta, |l.phase.x|);
      PopAllSucceeds(Filtered(l.phase.x, l.phase.theta, f.phase.theta), c.picks);
    }
  }

  /** Outside the sifting exchange, the leader's list is carried along as it is, or its round is over. */
  lemma ListIsCarried(l: Party, m: Message, c: Coins)
    requires Waiting(l) && l.role == Leader && !l.phase.Sifting? && !l.phase.AwaitingTestSet?
    ensures var q := Receive(l, m, c).phase;
            && (q.Sifting? ==> l.phase.Distributing? && q.x == l.phase.x)
            && !q.Selecting? && !q.Exchanging?
            && (q.Comparing? ==> l.phase.Selecting? && q.x == l.phase.x)
            && (q.Concluding? ==> l.phase.Comparing? && q.x == l.phase.x)
  {
    var q := Receive(l, m, c).phase;
    match l.phase
    case Distributing(_, _) => assert q.Distributing? || q.Sifting? || q.Failed?;
    case Selecting(_, _, _) => assert q.Comparing? || q.Failed?;
    case Comparing(_, _) => assert q.Concluding? || q.Failed?;
    case _ =>
  }

  lemma BoundsAreKept(t: System, s: System)
    requires Exchanges(t, s) && RoundIsBounded(t)
    ensures RoundIsBounded(s)
  {
    var d, c :| ExchangeStep(t, s, d, c);
    AnswerIsReady(t, d);
    if t.leader.phase.Sifting? {
      SiftingIsBounded(t.leader, t.follower, c, d);
    } else {
      ListIsCarried(t.leader, Answer(t.leader, t.follower, d), c);
    }
  }

  // ----- The books are kept

  lemma BooksAfterOpening(t: System, s: System)
    requires Spoken(t) && Opens(t, s) && Books(t)
    ensures Books(s)
  {
    HeadToWait(t.leader, t.follower.(protocol := t.leader.protocol, keySize := t.leader.keySize), t.history, s);
  }

  lemma ConsumedOfLonger(stream: Bits, b: Bits, attempts: seq<Attempt>)
    requires Consumed(stream, attempts)
    ensures Consumed(stream + b, attempts)
    ensures (stream + b)[BLOCK * |attempts|..] == stream[BLOCK * |attempts|..] + b
  {
    assert forall k :: 0 <= k < |attempts| ==> Block(stream + b, k) == Block(stream, k);
  }

  lemma HeadAfterYield(p: Party, h: History, b: Bits, tail: Bits)
    requires Consumed(h.stream, h.attempts) && h.stream[BLOCK * |h.attempts|..] == tail == p.reconciled + p.secret
    requires |p.key| < p.keySize && |p.secret| < N && |p.reconciled| < BLOCK && |b| <= MostPerRound(p.protocol)
    requires N * h.codewords == BLOCK * |h.attempts| + |p.reconciled| && h.passes <= |h.attempts|
    ensures AtHead(p.(secret := p.secret + b), h.(rounds := h.rounds + 1, stream := h.stream + b))
  {
    ConsumedOfLonger(h.stream, b, h.attempts);
    assert tail + b == p.reconciled + (p.secret + b);
  }

  lemma BooksAfterYield(t: System, s: System, b: Bits, b': Bits)
    requires Spoken(t) && Yields(t, s, b, b') && Books(t) && RoundIsBounded(t)
    ensures Books(s)
  {
    HeadAfterYield(t.leader, t.history, b, t.leader.reconciled + t.leader.secret);
    HeadToWait(t.leader.(secret := t.leader.secret + b), t.follower.(secret := t.follower.secret + b'),
               t.history.(rounds := t.history.rounds + 1, stream := t.history.stream + b), s);
  }

  lemma HeadAfterDecoding(p: Party, h: History, rest: Bits, corrected: Bits, u: Bits)
    requires N <= |rest| < N + N && Whole(|corrected|) && u == corrected + rest[..N]
    requires corrected + rest == p.secret && |p.secret| <= N - 1 + MostPerRound(p.protocol)
    requires Consumed(h.stream, h.attempts) && h.stream[BLOCK * |h.attempts|..] == p.reconciled + p.secret
    requires |p.key| < p.keySize && |p.reconciled| < BLOCK
    requires N * h.codewords == BLOCK * |h.attempts| + |p.reconciled| + |corrected| && h.passes <= |h.attempts| + 1
    ensures AtHead(p.(secret := rest[N..], reconciled := p.reconciled + u), h.(codewords := h.codewords + 1))
  {
    assert u + rest[N..] == corrected + rest;
    assert (p.reconciled + u) + rest[N..] == p.reconciled + (u + rest[N..]);
    ReconciledIsBounded(p.protocol, |p.reconciled|, |u|);
  }

  /** Full codewords of at most 22 + 75 (or 100) bits, on top of less than a block. */
  lemma ReconciledIsBounded(protocol: Protocol, before: nat, added: nat)
    requires before < BLOCK && Whole(added) && added <= N - 1 + MostPerRound(protocol)
    ensures before + added <= MostReconciled(protocol)
  {
    WholeIsMultiple(added);
    var q := added / N;
    assert added == N * q;
  }

  lemma BooksAfterLastCodeword(t: System, s: System)
    requires Spoken(t) && Decodes(t, s) && Books(t) && |t.leader.phase.rest| < N + N
    ensures Books(s)
  {
    var p, rest := t.leader, t.leader.phase.rest;
    var u := t.leader.phase.corrected + rest[..N];
    var v := t.follower.phase.corrected + Corrected(t.follower.phase.rest[..N], Syndrome(rest[..N]));
    HeadAfterDecoding(p, t.history, rest, t.leader.phase.corrected, u);
    HeadToWait(p.(secret := rest[N..], reconciled := p.reconciled + u),
               t.follower.(secret := t.follower.phase.rest[N..], reconciled := t.follower.reconciled + v),
               t.history.(codewords := t.history.codewords + 1), s);
  }

  lemma BooksAfterCodeword(t: System, s: System)
    requires Spoken(t) && Decodes(t, s) && Books(t) && |t.leader.phase.rest| >= N + N
    ensures Books(s)
  {
    var rest, corrected := t.leader.phase.rest, t.leader.phase.corrected;
    assert (corrected + rest[..N]) + rest[N..] == corrected + rest;
  }

  lemma BooksAfterAmplifying(t: System, s: System)
    requires Spoken(t) && Amplifies(t, s) && Books(t)
    ensures Books(s)
  {
    var l, f := t.leader.phase, t.follower.phase;
    var ok := TagMatches(t.follower, l.seed, Tag(l.seed, l.x0, l.x1));
    var h := t.history.(attempts := t.history.attempts + [Attempt(l.x0, l.x1, f.x0, f.x1, l.seed, ok)]);
    if ok {
      HeadToWait(t.leader.(key := t.leader.key + [KeyByte(l.seed, l.x0)]),
                 t.follower.(key := t.follower.key + [KeyByte(l.seed, f.x0)]), h, s);
    } else {
      HeadToWait(t.leader, t.follower, h, s);
    }
  }

  lemma BooksAfterQuiet(t: System, s: System)
    requires Spoken(t) && Books(t) && (Idles(t, s) || Aborts(t, s) || Finishes(t, s))
    ensures Books(s)
  {
  }

  lemma BooksAreKept(t: System, s: System)
    requires Exchanges(t, s) && Books(t) && RoundIsBounded(t)
    ensures Books(s)
  {
    var kind, b, b' := ExchangeMoves(t, s);
    match kind
    case OpenMove => BooksAfterOpening(t, s);
    case YieldMove => BooksAfterYield(t, s, b, b');
    case DecodeMove =>
      if |t.leader.phase.rest| < N + N { BooksAfterLastCodeword(t, s); } else { BooksAfterCodeword(t, s); }
    case AmplifyMove => BooksAfterAmplifying(t, s);
    case IdleMove => BooksAfterQuiet(t, s);
    case AbortMove => BooksAfterQuiet(t, s);
    case FinishMove => BooksAfterQuiet(t, s);
  }

  ghost predicate Accounted(s: System) {
    Books(s) && RoundIsBounded(s)
  }

  lemma AccountsAreKept(t: System, s: System)
    requires Exchanges(t, s) && Accounted(t)
    ensures Accounted(s)
  {
    assert Books(s) by { BooksAreKept(t, s); }
    assert RoundIsBounded(s) by { BoundsAreKept(t, s); }
  }

  lemma TestSetKeepsAccounts(t: System, s: System)
    requires TakesTestSet(t, s) && Accounted(t)
    ensures Accounted(s)
  {
    TestSetKeepsLists(t, s);
  }

  lemma RunsAreAccounted(run: seq<System>, i: nat)
    requires OrderedRun(run) && i < |run| && Settled(run[i])
    ensures Accounted(run[i])
  {
    forall t, s | Exchanges(t, s) && Accounted(t) ensures Accounted(s) { AccountsAreKept(t, s); }
    forall t, s | TakesTestSet(t, s) && Accounted(t) ensures Accounted(s) { TestSetKeepsAccounts(t, s); }
    OverExchanges(run, i, s => true, s => Accounted(s));
  }

  // ----- What the books say

  /** Sixteen bits are on their way from `reconciled` into an amplification round. */
  function Pending(p: Party): nat {
    if p.phase.Amplifying? then BLOCK else 0
  }

  /**
   Conservation: in every run, noisy or not, the bits the leader has distilled are, in this order, the
   blocks of 16 that the two bytes of its amplification rounds spell, `reconciled`, and `secret_bits`. The buffers never
   exceed 97 and 107 bits in BB84, and there is at most one reconciliation pass per amplification round.
   */
  lemma BitsAreConserved(run: seq<System>, i: nat)
    requires OrderedRun(run) && i < |run| && Settled(run[i]) && !run[i].leader.phase.Opening?
    ensures var p, h := run[i].leader, run[i].history;
            && |h.stream| == BLOCK * |h.attempts| + Pending(p) + |p.reconciled| + |p.secret|
            && h.stream[BLOCK * |h.attempts| + Pending(p)..] == p.reconciled + p.secret
            && (forall k :: 0 <= k < |h.attempts| ==>
                  && Number(Block(h.stream, k)) == 256 * h.attempts[k].lead0 + h.attempts[k].lead1
                  && Spells(h.attempts[k].lead0, h.attempts[k].lead1, Block(h.stream, k)))
            && h.passes <= |h.attempts| + 1
            && |p.key| <= p.keySize && (p.phase.Done? ==> |p.key| == p.keySize)
            && (p.protocol == Bb84 ==> |p.secret| <= 97 && |p.reconciled| + Pending(p) <= 107)
  {
    RunsAreAccounted(run, i);
    RunsDoNotFail(run, i);
    WhatBooksSay(run[i]);
  }

  /** The leader's input to an attempt is its block, bit by bit. */
  lemma AttemptSpells(stream: Bits, attempts: seq<Attempt>, k: nat)
    requires Consumed(stream, attempts) && k < |attempts|
    ensures Spells(attempts[k].lead0, attempts[k].lead1, Block(stream, k))
  {
    BlockIsSpelled(Block(stream, k));
  }

  lemma WhatBooksSay(s: System)
    requires Books(s) && !s.leader.phase.Opening? && !s.leader.phase.Failed?
    ensures var p, h := s.leader, s.history;
            && |h.stream| == BLOCK * |h.attempts| + Pending(p) + |p.reconciled| + |p.secret|
            && h.stream[BLOCK * |h.attempts| + Pending(p)..] == p.reconciled + p.secret
            && (forall k :: 0 <= k < |h.attempts| ==>
                  && Number(Block(h.stream, k)) == 256 * h.attempts[k].lead0 + h.attempts[k].lead1
                  && Spells(h.attempts[k].lead0, h.attempts[k].lead1, Block(h.stream, k)))
            && h.passes <= |h.attempts| + 1
            && |p.key| <= p.keySize && (p.phase.Done? ==> |p.key| == p.keySize)
            && (p.protocol == Bb84 ==> |p.secret| <= 97 && |p.reconciled| + Pending(p) <= 107)
  {
    var p, h := s.leader, s.history;
    var a := BLOCK * |h.attempts| + Pending(p);
    assert |h.stream[a..]| == |p.reconciled| + |p.secret|;
    forall k | 0 <= k < |h.attempts| ensures Spells(h.attempts[k].lead0, h.attempts[k].lead1, Block(h.stream, k)) {
      AttemptSpells(h.stream, h.attempts, k);
    }
  }

  lemma RunsDoNotFail(run: seq<System>, i: nat)
    requires OrderedRun(run) && i < |run|
    ensures !run[i].leader.phase.Failed? && !run[i].follower.phase.Failed?
  {
    RunsAreSafe(run, i);
  }

  lemma DoneIsSettled(run: seq<System>, i: nat)
    requires OrderedRun(run) && i < |run| && run[i].leader.phase.Done?
    ensures Over(run[i])
  {
    RunsStayInStep(run, i);
    if Answered(run[i]) {
      var t, d :| AnsweredFrom(run[i], t, d);
      AnswerIsReady(t, d);
    }
  }

  /**
   Key agreement: if in a run every codeword of the follower differs in at most 3 places from the
   leader's, then at its end the two keys are equal and have the requested length, and no amplification
   round has been rejected.
   */
  lemma KeyAgreement(run: seq<System>, i: nat)
    requires OrderedRun(run) && i < |run| && run[i].leader.phase.Done?
    requires forall k :: 0 <= k < |run| ==> CloseHere(run[k])
    ensures run[i].follower.phase.Done? && run[i].follower.key == run[i].leader.key
    ensures |run[i].leader.key| == run[0].leader.keySize == |run[i].history.attempts|
    ensures forall a :: a in run[i].history.attempts ==> a.accepted
  {
    DoneIsSettled(run, i);
    CloseRunsAgree(run, i);
    BitsAreConserved(run, i);
    RunsKeepProtocol(run, i);
  }
}
