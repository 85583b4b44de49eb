/**
 The two key-agreement protocols of qchat/protocols.py as a system of two processes. Each party runs
 `execute` between two blocking waits as one atomic step: it takes a control message, updates its lists
 and sends what the source sends before it waits again. Bases, measurement outcomes, test indices, test
 sets and seeds are drawn freely at every step (`Coins`).
 */
module KeyProtocol {
  import opened Bits
  import opened Options
  import opened Sampling
  import opened EprTest
  import opened Extraction
  import opened GolayCode
  import opened GolayDecoding
  import opened Wire

  const BLOCK := 16   // 2 * BYTE_LEN

  /** Where a party waits, with the local variables that are live there. */
  datatype Phase =
    | Opening                                                                   // PTCL, then ACK
    | Distributing(x: Bits, theta: seq<nat>)                                    // "ack" after each qubit
    | Sifting(x: Bits, theta: seq<nat>)                                         // "theta"
    | Selecting(x: Bits, testIndices: seq<nat>, testBits: Bits)                 // "test_indices" / "ack"
    | Comparing(x: Bits, testBits: Bits)                                        // "test_bits"
    | Concluding(x: Bits, testBits: Bits, numError: nat)                        // "fin"
    | AwaitingTestSet(x: Bits, theta: seq<nat>, thetaHat: seq<nat>)             // "T" (follower)
    | Exchanging(x: Bits, theta: seq<nat>, thetaHat: seq<nat>, testSet: seq<nat>)   // "x_T"
    | Reconciling(rest: Bits, corrected: Bits)                                  // "s" / "ack"
    | Amplifying(x0: nat, x1: nat, seed: nat)                                   // "Y", "T" / "ack"
    | Finishing                                                                 // "FIN"
    | Done
    | Aborted   // the EPR test raised
    | Failed    // any other exception

  /** The lists of `execute`: `key`, `secret_bits` and `reconciled`. */
  datatype Party = Party(role: Role, protocol: Protocol, keySize: nat,
                         key: seq<nat>, secret: Bits, reconciled: Bits, phase: Phase)

  datatype Coins = Coins(basis: nat, outcome: bool, picks: seq<nat>, sample: seq<nat>, seed: nat)

  function OwnKind(protocol: Protocol): Kind {
    if protocol == Bb84 then BB84 else DQKD
  }

  // ----- The loops of `execute`

  /** Receive and measure the first qubit of a distillation round. */
  function StartRound(p: Party, c: Coins): Party {
    p.(phase := Distributing([c.outcome], [c.basis]))
  }

  function StartAmplifying(p: Party, c: Coins): Party
    requires |p.reconciled| >= BLOCK
  {
    var n := Number(p.reconciled[..BLOCK]);
    p.(reconciled := p.reconciled[BLOCK..], phase := Amplifying(n / 256, n % 256, c.seed))
  }

  /** From the head of the innermost loop whose condition must be tested, to the next wait. */
  function Advance(p: Party, c: Coins): (r: Party)
    ensures r.role == p.role && r.protocol == p.protocol && r.keySize == p.keySize && r.key == p.key
    ensures r.secret == p.secret
    ensures r.phase.Finishing? || r.phase.Amplifying? || r.phase.Reconciling? || r.phase.Distributing?
  {
    if |p.key| >= p.keySize then p.(phase := Finishing)
    else if |p.reconciled| >= BLOCK then StartAmplifying(p, c)
    else if |p.secret| >= N then p.(phase := Reconciling(p.secret, []))
    else StartRound(p, c)
  }

  // ----- What each wait returns to

  function Fail(p: Party): Party {
    p.(phase := Failed)
  }

  function ResumeOpening(p: Party, m: Body, c: Coins): Party {
    if p.role == Leader then
      if m.Accept? then Advance(p, c) else Fail(p)
    else if m.Proposal? then Advance(p.(protocol := m.name, keySize := m.keySize), c)
    else Fail(p)
  }

  function ResumeDistributing(p: Party, m: Body, c: Coins): Party
    requires p.phase.Distributing?
  {
    if !(m.Ack? && m.ok) then Fail(p)
    else if |p.phase.x| < ROUND_SIZE then
      p.(phase := Distributing(p.phase.x + [c.outcome], p.phase.theta + [c.basis]))
    else p.(phase := Sifting(p.phase.x, p.phase.theta))
  }

  function ResumeSifting(p: Party, m: Body, c: Coins): Party
    requires p.phase.Sifting?
  {
    var x, theta := p.phase.x, p.phase.theta;
    if !m.Bases? then Fail(p)
    else if p.protocol == Bb84 then
      var kept := Filtered(x, theta, m.theta);
      if p.role == Leader then
        match PopAll(kept, c.picks)
        case None => Fail(p)
        case Some(s) => p.(phase := Selecting(s.rest, c.picks, s.test))
      else p.(phase := Selecting(kept, [], []))
    else if |m.theta| < |x| then Fail(p)
    else if p.role == Leader then p.(phase := Exchanging(x, theta, m.theta, c.sample))
    else p.(phase := AwaitingTestSet(x, theta, m.theta))
  }

  function ResumeSelecting(p: Party, m: Body): Party
    requires p.phase.Selecting?
  {
    if p.role == Leader then
      if m.Ack? && m.ok then p.(phase := Comparing(p.phase.x, p.phase.testBits)) else Fail(p)
    else if !m.TestIndices? then Fail(p)
    else
      match PopAll(p.phase.x, m.indices)
      case None => Fail(p)
      case Some(s) => p.(phase := Comparing(s.rest, s.test))
  }

  function ResumeComparing(p: Party, m: Body): Party
    requires p.phase.Comparing?
  {
    if m.TestBits? then p.(phase := Concluding(p.phase.x, p.phase.testBits, Errors(p.phase.testBits, m.bits)))
    else Fail(p)
  }

  /** `error_rate >= MAX_GOLAY_ERROR`, with MAX_GOLAY_ERROR = 3/23 and the rate 1 without test bits. */
  predicate TooNoisy(numError: nat, testBits: nat) {
    testBits == 0 || 23 * numError >= 3 * testBits
  }

  /** What `distill_tested_data` returns. */
  function Distilled(p: Party): Bits
    requires p.phase.Concluding?
  {
    if TooNoisy(p.phase.numError, |p.phase.testBits|) then [] else p.phase.x
  }

  function ResumeConcluding(p: Party, m: Body, c: Coins): Party
    requires p.phase.Concluding?
  {
    if m.Fin? && m.ok then Advance(p.(secret := p.secret + Distilled(p)), c) else Fail(p)
  }

  function ResumeAwaiting(p: Party, m: Body): Party
    requires p.phase.AwaitingTestSet?
  {
    if m.TestSet? && InRange(m.T, |p.phase.x|) then
      p.(phase := Exchanging(p.phase.x, p.phase.theta, p.phase.thetaHat, m.T))
    else Fail(p)
  }

  /** What `_device_independent_epr_test` returns, or None if it raises. */
  function Tested(p: Party, xTHat: Bits): Option<Bits>
    requires p.phase.Exchanging?
  {
    if !InRange(p.phase.testSet, |p.phase.x|) then None
    else Verdict(p.role, p.phase.x, p.phase.theta, p.phase.thetaHat, p.phase.testSet, xTHat)
  }

  function ResumeExchanging(p: Party, m: Body, c: Coins): Party
    requires p.phase.Exchanging?
  {
    if !m.TestOutcomes? then Fail(p)
    else
      match Tested(p, m.xT)
      case None => p.(phase := Aborted)
      case Some(bits) => Advance(p.(secret := p.secret + bits), c)
  }

  ghost function Decoded(p: Party, s: Bits, c: Coins): Party
    requires p.phase.Reconciling? && |p.phase.rest| >= N && |s| == CHECKS
  {
    var rest := p.phase.rest[N..];
    var corrected := p.phase.corrected + Corrected(p.phase.rest[..N], s);
    if |rest| >= N then p.(phase := Reconciling(rest, corrected))
    else Advance(p.(secret := rest, reconciled := p.reconciled + corrected), c)
  }

  /** The loop over codewords: decode this one, then wait for the next or leave with the remainder. */
  ghost function ResumeReconciling(p: Party, m: Body, c: Coins): Party
    requires p.phase.Reconciling?
  {
    var rest := p.phase.rest;
    if |rest| < N then Fail(p)
    else if p.role == Leader then
      if m.Ack? && m.ok then Decoded(p, Syndrome(rest[..N]), c) else Fail(p)
    else
      if m.SyndromeOf? && |m.s| == CHECKS then Decoded(p, m.s, c) else Fail(p)
  }

  /** The follower's test `T != X[1] + temp[1]`, negated. */
  predicate TagMatches(p: Party, seed: nat, tag: nat)
    requires p.phase.Amplifying?
  {
    tag == p.phase.x1 + seed * p.phase.x0 % 256
  }

  function ResumeAmplifying(p: Party, m: Body, c: Coins): Party
    requires p.phase.Amplifying?
  {
    if p.role == Leader then
      if !m.Ack? then Fail(p)
      else if m.ok then Advance(p.(key := p.key + [KeyByte(p.phase.seed, p.phase.x0)]), c)
      else Advance(p, c)
    else if !m.SeedAndTag? || m.seed * p.phase.x0 >= 65536 then Fail(p)
    else if TagMatches(p, m.seed, m.tag) then Advance(p.(key := p.key + [KeyByte(m.seed, p.phase.x0)]), c)
    else Advance(p, c)
  }

  function ResumeFinishing(p: Party, m: Body): Party {
    if m.Finish? && m.ok then p.(phase := Done) else Fail(p)
  }

  predicate Waiting(p: Party) {
    !p.phase.Done? && !p.phase.Aborted? && !p.phase.Failed?
  }

  /** The message class that the wait accepts; reconciliation and amplification use BB84 in both protocols. */
  function Expected(p: Party): Kind {
    match p.phase
    case Opening => if p.role == Follower then PTCL else OwnKind(p.protocol)
    case Reconciling(_, _) => BB84
    case Amplifying(_, _, _) => BB84
    case _ => OwnKind(p.protocol)
  }

  ghost function Resume(p: Party, m: Body, c: Coins): Party
    requires Waiting(p)
  {
    match p.phase
    case Opening => ResumeOpening(p, m, c)
    case Distributing(_, _) => ResumeDistributing(p, m, c)
    case Sifting(_, _) => ResumeSifting(p, m, c)
    case Selecting(_, _, _) => ResumeSelecting(p, m)
    case Comparing(_, _) => ResumeComparing(p, m)
    case Concluding(_, _, _) => ResumeConcluding(p, m, c)
    case AwaitingTestSet(_, _, _) => ResumeAwaiting(p, m)
    case Exchanging(_, _, _, _) => ResumeExchanging(p, m, c)
    case Reconciling(_, _) => ResumeReconciling(p, m, c)
    case Amplifying(_, _, _) => ResumeAmplifying(p, m, c)
    case Finishing => ResumeFinishing(p, m)
  }

  // ----- What is sent

  function One(protocol: Protocol, body: Body): seq<Message> {
    [Message(OwnKind(protocol), body)]
  }

  /** What the leader sends before it waits in its phase. */
  function Speak(p: Party): seq<Message> {
    match p.phase
    case Opening => [Message(PTCL, Proposal(p.protocol, p.keySize))]
    case Distributing(_, _) => One(p.protocol, Ack(true))
    case Sifting(_, theta) => One(p.protocol, Bases(theta))
    case Selecting(_, indices, _) => [Message(BB84, TestIndices(indices))]
    case Comparing(_, bits) => [Message(BB84, TestBits(bits))]
    case Concluding(_, _, _) => [Message(BB84, Fin(true))]
    case Exchanging(x, _, _, T) =>
      if InRange(T, |x|) then [Message(DQKD, TestSet(T)), Message(DQKD, TestOutcomes(Select(x, T)))] else []
    case Reconciling(rest, _) => if |rest| >= N then [Message(BB84, SyndromeOf(Syndrome(rest[..N])))] else []
    case Amplifying(x0, x1, seed) => [Message(BB84, SeedAndTag(seed, Tag(seed, x0, x1)))]
    case Finishing => One(p.protocol, Finish(true))
    case _ => []
  }

  /** What the follower answers to m; in `exchange_messages` it answers before it looks at m's data. */
  function Reply(p: Party, m: Body): seq<Message> {
    match p.phase
    case Opening => if m.Proposal? then One(m.name, Accept) else []
    case Distributing(_, _) => One(p.protocol, Ack(true))
    case Sifting(_, theta) => One(p.protocol, Bases(theta))
    case Selecting(_, _, _) => [Message(BB84, Ack(true))]
    case Comparing(_, bits) => [Message(BB84, TestBits(bits))]
    case Concluding(_, _, _) => [Message(BB84, Fin(true))]
    case Exchanging(x, _, _, T) => if InRange(T, |x|) then [Message(DQKD, TestOutcomes(Select(x, T)))] else []
    case Reconciling(_, _) => [Message(BB84, Ack(true))]
    case Amplifying(x0, _, _) =>
      if m.SeedAndTag? && m.seed * x0 < 65536 then [Message(BB84, Ack(TagMatches(p, m.seed, m.tag)))] else []
    case Finishing => One(p.protocol, Finish(true))
    case _ => []
  }

  ghost function Receive(p: Party, m: Message, c: Coins): Party
    requires Waiting(p)
  {
    if m.kind != Expected(p) then Fail(p) else Resume(p, m.body, c)
  }

  /** What a party sends in reaction to m: the follower its reply, the leader the opening of its next exchange. */
  ghost function Sent(p: Party, m: Message, c: Coins): seq<Message>
    requires Waiting(p)
  {
    if m.kind != Expected(p) then []
    else if p.role == Leader then Speak(Resume(p, m.body, c))
    else Reply(p, m.body)
  }

  /** The draws the random source can make: what the leader's sampling loops leave possible. */
  ghost predicate Fair(p: Party, m: Message, c: Coins) {
    && c.seed < 256
    && (p.role == Leader && p.phase.Sifting? && m.body.Bases? ==>
          && PickedBy(c.picks, |Filtered(p.phase.x, p.phase.theta, m.body.theta)|)
          && InRange(c.sample, |p.phase.x|)
          && |c.sample| == |p.phase.x| / 2
          && (forall i, j :: 0 <= i < j < |c.sample| ==> c.sample[i] != c.sample[j]))
  }

  // ----- The system

  /** One amplification round: both inputs, the seed and the follower's answer. */
  datatype Attempt = Attempt(lead0: nat, lead1: nat, follow0: nat, follow1: nat, seed: nat, accepted: bool)

  /**
   What has happened so far, read by no party: finished distillation rounds, the bits the leader has
   distilled in them, reconciliation passes begun, codewords decoded, amplification rounds.
   */
  datatype History = History(rounds: nat, stream: Bits, passes: nat, codewords: nat, attempts: seq<Attempt>)

  datatype System = System(leader: Party, follower: Party,
                           toFollower: seq<Message>, toLeader: seq<Message>, history: History)

  ghost predicate Fresh(p: Party) {
    p.key == [] && p.secret == [] && p.reconciled == [] && p.phase == Opening
  }

  /** The leader has just sent its proposal; the follower has not seen it yet. */
  ghost predicate Init(s: System) {
    && s.leader.role == Leader && Fresh(s.leader)
    && s.follower.role == Follower && Fresh(s.follower)
    && s.toFollower == Speak(s.leader) && s.toLeader == []
    && s.history == History(0, [], 0, 0, [])
  }

  /** The history after the follower has taken m. */
  function FollowerRecord(s: System, m: Message): History {
    var l, f := s.leader.phase, s.follower.phase;
    if l.Amplifying? && f.Amplifying? && m.body.SeedAndTag? then
      s.history.(attempts := s.history.attempts +
        [Attempt(l.x0, l.x1, f.x0, f.x1, m.body.seed, TagMatches(s.follower, m.body.seed, m.body.tag))])
    else s.history
  }

  /** The history after the leader has moved on to q. */
  function LeaderRecord(s: System, q: Party): History {
    var h, l := s.history, s.leader;
    var done := (l.phase.Concluding? || l.phase.Exchanging?) && Waiting(q) && |q.secret| >= |l.secret|;
    h.(rounds := h.rounds + if done then 1 else 0,
       stream := h.stream + if done then q.secret[|l.secret|..] else [],
       passes := h.passes + if q.phase.Reconciling? && !l.phase.Reconciling? then 1 else 0,
       codewords := h.codewords + if l.phase.Reconciling? then 1 else 0)
  }

  /** The i-th message on its way to the follower is delivered. */
  ghost function ToFollower(s: System, i: nat, c: Coins): System
    requires i < |s.toFollower| && Waiting(s.follower)
  {
    var m := s.toFollower[i];
    System(s.leader, Receive(s.follower, m, c),
           Pop(s.toFollower, i), s.toLeader + Sent(s.follower, m, c), FollowerRecord(s, m))
  }

  /** The i-th message on its way to the leader is delivered. */
  ghost function ToLeader(s: System, i: nat, c: Coins): System
    requires i < |s.toLeader| && Waiting(s.leader)
  {
    var m := s.toLeader[i];
    var q := Receive(s.leader, m, c);
    System(q, s.follower, s.toFollower + Sent(s.leader, m, c), Pop(s.toLeader, i), LeaderRecord(s, q))
  }

  /** One step in which the message at index i of some channel is delivered. */
  ghost predicate NextAt(s: System, s': System, i: nat) {
    || (exists c :: i < |s.toFollower| && Waiting(s.follower) && Fair(s.follower, s.toFollower[i], c)
                    && s' == ToFollower(s, i, c))
    || (exists c :: i < |s.toLeader| && Waiting(s.leader) && Fair(s.leader, s.toLeader[i], c)
                    && s' == ToLeader(s, i, c))
  }

  /** Delivery in the order of sending. */
  ghost predicate NextInOrder(s: System, s': System) {
    NextAt(s, s', 0)
  }

  /** Delivery in any order. */
  ghost predicate NextAnyOrder(s: System, s': System) {
    exists i :: NextAt(s, s', i)
  }

  /** A run, from its initial state on, with channels that keep the order. */
  ghost predicate OrderedRun(run: seq<System>) {
    |run| > 0 && Init(run[0]) && forall i :: 0 <= i < |run| - 1 ==> NextInOrder(run[i], run[i + 1])
  }

  /** A run with channels that may reorder messages. */
  ghost predicate UnorderedRun(run: seq<System>) {
    |run| > 0 && Init(run[0]) && forall i :: 0 <= i < |run| - 1 ==> NextAnyOrder(run[i], run[i + 1])
  }
}
