/**
 A whole superdense transfer (qchat/protocols.py) as a system of two processes, two message channels and the
 shared qubits. Deliveries, the receiver's quantum operations and the measurement outcomes interleave freely,
 and a channel may deliver its messages in any order.
 */
module DenseTransfer {
  import opened Qubits
  import opened DenseCoding
  import Sampling

  /** Where `send_message` waits; i and p are its loop variables, qa its half of the current pair. */
  datatype SenderPhase =
    | Inviting                          // PTCL sent
    | Announcing                        // "message_length" sent
    | Sharing(i: nat, p: nat, qa: nat)  // "ack": the pair is shared
    | Handing(i: nat, p: nat)           // "ack": our half is on its way
    | Pausing(i: nat, p: nat)           // for the receiver to be ready
    | Ending                            // "FIN" sent
    | Sent
    | SendingFailed

  /** Where `receive_message` waits: for a message, or in TakingHalf and TakingQubit for a qubit. */
  datatype ReceiverPhase =
    | Idle
    | AwaitingLength
    | AwaitingHalf
    | TakingHalf
    | AwaitingQubit(qb: nat)
    | TakingQubit(qb: nat)
    | Closing
    | Received
    | ReceivingFailed

  datatype Sender = Sender(message: seq<bv8>, phase: SenderPhase)

  /** `message_length`, `message`, the byte under construction and the loop variable p. */
  datatype Receiver = Receiver(length: nat, message: seq<bv8>, b: bv8, p: nat, phase: ReceiverPhase)

  /**
   The pairs in existence by number, the numbers of the halves that `recvEPR` can take and of the qubits that
   `recvQubit` can take, and how many pairs have been created.
   */
  datatype Device = Device(pairs: map<nat, Pair>, halves: seq<nat>, qubits: seq<nat>, created: nat)

  datatype World = World(sender: Sender, receiver: Receiver,
                         toReceiver: seq<Signal>, toSender: seq<Signal>, device: Device)

  function Start(message: seq<bv8>): World {
    World(Sender(message, Inviting), Receiver(0, [], 0, 0, Idle), [Invitation], [], Device(map[], [], [], 0))
  }

  // ----- The sender

  /** From the loop heads to the next wait: share a pair, or leave both loops. */
  function ShareNext(w: World, i: nat, p: nat): World {
    if i < |w.sender.message| then
      var d := w.device;
      w.(sender := w.sender.(phase := Sharing(i, p, d.created)),
         device := Device(d.pairs[d.created := EPR], d.halves + [d.created], d.qubits, d.created + 1),
         toReceiver := w.toReceiver + [Ack(true)])
    else
      w.(sender := w.sender.(phase := Ending), toReceiver := w.toReceiver + [Fin(true)])
  }

  function SenderFails(w: World): World {
    w.(sender := w.sender.(phase := SendingFailed))
  }

  /** X and Z on the sender's half, then `sendQubit`. */
  function HandOver(w: World): World
    requires w.sender.phase.Sharing? && w.sender.phase.i < |w.sender.message| && w.sender.phase.p < 4
  {
    var d, i, p, qa := w.device, w.sender.phase.i, w.sender.phase.p, w.sender.phase.qa;
    if qa !in d.pairs then SenderFails(w)
    else
      var q := QuarterAt(w.sender.message[i], p);
      w.(sender := w.sender.(phase := Handing(i, p)),
         device := d.(pairs := d.pairs[qa := Encoded(d.pairs[qa], q)], qubits := d.qubits + [qa]),
         toReceiver := w.toReceiver + [Ack(true)])
  }

  /** The sender takes m. */
  function SenderTakes(w: World, m: Signal): World {
    match w.sender.phase
    case Inviting =>
      if m == Accepted then
        w.(sender := w.sender.(phase := Announcing), toReceiver := w.toReceiver + [Length(|w.sender.message|)])
      else SenderFails(w)
    case Announcing => if m == Ack(true) then ShareNext(w, 0, 0) else SenderFails(w)
    case Sharing(i, p, _) =>
      if m == Ack(true) && i < |w.sender.message| && p < 4 then HandOver(w) else SenderFails(w)
    case Handing(i, p) =>
      if m == Ack(true) then w.(sender := w.sender.(phase := Pausing(i, p))) else SenderFails(w)
    case Pausing(i, p) =>
      if m != Ack(true) then SenderFails(w)
      else if p < 3 then ShareNext(w, i, p + 1) else ShareNext(w, i + 1, 0)
    case Ending => if m == Fin(true) then w.(sender := w.sender.(phase := Sent)) else SenderFails(w)
    case _ => w
  }

  predicate SenderWaits(w: World) {
    !w.sender.phase.Sent? && !w.sender.phase.SendingFailed?
  }

  // ----- The receiver

  function ReceiverFails(w: World): World {
    w.(receiver := w.receiver.(phase := ReceivingFailed))
  }

  /** Where the receiver waits when it is at the head of its outer loop. */
  function AtHead(r: Receiver): Receiver {
    r.(b := 0, p := 0, phase := if |r.message| < r.length then AwaitingHalf else Closing)
  }

  /** The receiver takes m; in an exchange it answers any SPDSMessage before it looks at m's data. */
  function ReceiverTakes(w: World, m: Signal): World {
    var r := w.receiver;
    if r.phase.Idle? then
      if m == Invitation then
        w.(receiver := r.(phase := AwaitingLength), toSender := w.toSender + [Accepted])
      else ReceiverFails(w)
    else if m == Invitation then ReceiverFails(w)
    else if r.phase.Closing? then
      w.(receiver := r.(phase := if m == Fin(true) then Received else ReceivingFailed),
         toSender := w.toSender + [Fin(true)])
    else
      w.(toSender := w.toSender + [Ack(true)], receiver :=
           match r.phase {
             case AwaitingLength =>
               if m.Length? then AtHead(r.(length := m.n, message := [])) else r.(phase := ReceivingFailed)
             case AwaitingHalf => r.(phase := if m == Ack(true) then TakingHalf else ReceivingFailed)
             case AwaitingQubit(qb) => r.(phase := if m == Ack(true) then TakingQubit(qb) else ReceivingFailed)
             case _ => r
           })
  }

  predicate ReceiverWaits(w: World) {
    var f := w.receiver.phase;
    f.Idle? || f.AwaitingLength? || f.AwaitingHalf? || f.AwaitingQubit? || f.Closing?
  }

  /** `recvEPR` */
  function TakeHalf(w: World): World
    requires w.receiver.phase.TakingHalf? && w.device.halves != []
  {
    w.(receiver := w.receiver.(phase := AwaitingQubit(w.device.halves[0])),
       device := w.device.(halves := w.device.halves[1..]))
  }

  /** The bits are stored, the next p, and after the fourth the next byte. */
  function Keep(r: Receiver, q: Quarter): Receiver {
    if r.p >= 4 then r.(phase := ReceivingFailed)
    else
      var b := Stored(r.b, r.p, q);
      if r.p < 3 then r.(b := b, p := r.p + 1, phase := AwaitingHalf)
      else AtHead(r.(message := r.message + [b]))
  }

  /** The receiver's two qubits are the halves of one pair, so that the pair's state describes them. */
  predicate Paired(w: World)
    requires w.receiver.phase.TakingQubit? && w.device.qubits != []
  {
    w.device.qubits[0] == w.receiver.phase.qb && w.receiver.phase.qb in w.device.pairs
  }

  /** `recvQubit`, the gates, both measurements with outcome q, and the "ack" for the next pair. */
  function TakeQubit(w: World, q: Quarter): World
    requires w.receiver.phase.TakingQubit? && w.device.qubits != []
  {
    var d, qb := w.device, w.receiver.phase.qb;
    if !Paired(w) then ReceiverFails(w)
    else
      w.(receiver := Keep(w.receiver, q), toSender := w.toSender + [Ack(true)],
         device := d.(pairs := d.pairs - {qb}, qubits := d.qubits[1..]))
  }

  // ----- Steps and runs

  predicate SenderStep(w: World, w': World, k: nat) {
    && k < |w.toSender| && SenderWaits(w)
    && w' == SenderTakes(w.(toSender := Sampling.Pop(w.toSender, k)), w.toSender[k])
  }

  predicate ReceiverStep(w: World, w': World, k: nat) {
    && k < |w.toReceiver| && ReceiverWaits(w)
    && w' == ReceiverTakes(w.(toReceiver := Sampling.Pop(w.toReceiver, k)), w.toReceiver[k])
  }

  predicate HalfStep(w: World, w': World) {
    w.receiver.phase.TakingHalf? && w.device.halves != [] && w' == TakeHalf(w)
  }

  predicate QubitStep(w: World, w': World, q: Quarter) {
    && w.receiver.phase.TakingQubit? && w.device.qubits != [] && w' == TakeQubit(w, q)
    && (Paired(w) ==> CanMeasure(Decoded(w.device.pairs[w.receiver.phase.qb]), q))
  }

  ghost predicate Next(w: World, w': World) {
    || (exists k :: SenderStep(w, w', k))
    || (exists k :: ReceiverStep(w, w', k))
    || HalfStep(w, w')
    || (exists q :: QubitStep(w, w', q))
  }

  ghost predicate Run(run: seq<World>, message: seq<bv8>) {
    && |run| > 0 && run[0] == Start(message)
    && forall i :: 0 <= i < |run| - 1 ==> Next(run[i], run[i + 1])
  }

  // ----- The states that are reached

  /** How far the transfer is. The points of one quarter: see `InQuarter`. */
  datatype Stage =
    | Invited | Welcomed | Announced | Known
    | Working(i: nat, p: nat, point: Point)
    | Parting | Parted | Over

  datatype Point = Shared | Noted | HalfFirst | EncodedFirst | Handed | Granted | DecodedFirst | GrantedFirst | Stowed

  predicate Possible(message: seq<bv8>, st: Stage) {
    st.Working? ==> st.i < |message| && st.p < 4
  }

  /** The receiver between two quarters, at the head of the loop body for (i, p). */
  function ReceiverAt(message: seq<bv8>, i: nat, p: nat, phase: ReceiverPhase): Receiver
    requires i <= |message| && p < 4
  {
    Receiver(|message|, message[..i], if i < |message| then Low(message[i], p) else 0, p, phase)
  }

  /** The receiver once the quarter (i, p) is stored. */
  function ReceiverAfter(message: seq<bv8>, i: nat, p: nat): Receiver
    requires i < |message| && p < 4
  {
    if p < 3 then ReceiverAt(message, i, p + 1, AwaitingHalf)
    else ReceiverAt(message, i + 1, 0, if i + 1 < |message| then AwaitingHalf else Closing)
  }

  function InQuarter(message: seq<bv8>, i: nat, p: nat, point: Point): World
    requires i < |message| && p < 4
  {
    var n := 4 * i + p;
    var ack := [Ack(true)];
    var sharing := Sender(message, Sharing(i, p, n));
    var handing := Sender(message, Handing(i, p));
    var pausing := Sender(message, Pausing(i, p));
    var plain := map[n := EPR];
    var encoded := map[n := Encoded(EPR, QuarterAt(message[i], p))];
    match point
    case Shared =>
      World(sharing, ReceiverAt(message, i, p, AwaitingHalf), ack, [], Device(plain, [n], [], n + 1))
    case Noted =>
      World(sharing, ReceiverAt(message, i, p, TakingHalf), [], ack, Device(plain, [n], [], n + 1))
    case HalfFirst =>
      World(sharing, ReceiverAt(message, i, p, AwaitingQubit(n)), [], ack, Device(plain, [], [], n + 1))
    case EncodedFirst =>
      World(handing, ReceiverAt(message, i, p, TakingHalf), ack, [], Device(encoded, [n], [n], n + 1))
    case Handed =>
      World(handing, ReceiverAt(message, i, p, AwaitingQubit(n)), ack, [], Device(encoded, [], [n], n + 1))
    case Granted =>
      World(handing, ReceiverAt(message, i, p, TakingQubit(n)), [], ack, Device(encoded, [], [n], n + 1))
    case DecodedFirst =>
      World(handing, ReceiverAfter(message, i, p), [], ack + ack, Device(map[], [], [], n + 1))
    case GrantedFirst =>
      World(pausing, ReceiverAt(message, i, p, TakingQubit(n)), [], [], Device(encoded, [], [n], n + 1))
    case Stowed =>
      World(pausing, ReceiverAfter(message, i, p), [], ack, Device(map[], [], [], n + 1))
  }

  function StateAt(message: seq<bv8>, st: Stage): World
    requires Possible(message, st)
  {
    var n := |message|;
    var untouched := Device(map[], [], [], 0);
    var spent := Device(map[], [], [], 4 * n);
    match st
    case Invited => Start(message)
    case Welcomed =>
      World(Sender(message, Inviting), Receiver(0, [], 0, 0, AwaitingLength), [], [Accepted], untouched)
    case Announced =>
      World(Sender(message, Announcing), Receiver(0, [], 0, 0, AwaitingLength), [Length(n)], [], untouched)
    case Known =>
      World(Sender(message, Announcing), ReceiverAt(message, 0, 0, if n > 0 then AwaitingHalf else Closing),
            [], [Ack(true)], untouched)
    case Working(i, p, point) => InQuarter(message, i, p, point)
    case Parting => World(Sender(message, Ending), ReceiverAt(message, n, 0, Closing), [Fin(true)], [], spent)
    case Parted => World(Sender(message, Ending), ReceiverAt(message, n, 0, Received), [], [Fin(true)], spent)
    case Over => World(Sender(message, Sent), ReceiverAt(message, n, 0, Received), [], [], spent)
  }

  /** The number of steps that lead to a stage, whatever their order. */
  function Steps(message: seq<bv8>, st: Stage): nat {
    match st
    case Invited => 0
    case Welcomed => 1
    case Announced => 2
    case Known => 3
    case Working(i, p, point) =>
      4 + 7 * (4 * i + p) + (match point {
        case Shared => 0 case Noted => 1 case HalfFirst => 2 case EncodedFirst => 2 case Handed => 3
        case Granted => 4 case DecodedFirst => 5 case GrantedFirst => 5 case Stowed => 6 })
    case Parting => 4 + 28 * |message|
    case Parted => 5 + 28 * |message|
    case Over => 6 + 28 * |message|
  }

  /** The stage in which the next pair has been shared, or the farewell sent. */
  function Beginning(message: seq<bv8>, i: nat, p: nat): Stage {
    if i < |message| then Working(i, p, Shared) else Parting
  }

  function After(message: seq<bv8>, i: nat, p: nat): Stage {
    if p < 3 then Beginning(message, i, p + 1) else Beginning(message, i + 1, 0)
  }

  lemma SharingStage(w: World, message: seq<bv8>, i: nat, p: nat)
    requires i <= |message| && p < 4 && (i == |message| ==> p == 0)
    requires w.sender.message == message && w.device == Device(map[], [], [], 4 * i + p)
    requires w.toReceiver == [] && w.toSender == []
    requires w.receiver == ReceiverAt(message, i, p, if i < |message| then AwaitingHalf else Closing)
    ensures ShareNext(w, i, p) == StateAt(message, Beginning(message, i, p))
  {
    assert map[][4 * i + p := EPR] == map[4 * i + p := EPR];
  }

  lemma StoringStage(message: seq<bv8>, i: nat, p: nat, phase: ReceiverPhase)
    requires i < |message| && p < 4
    ensures Keep(ReceiverAt(message, i, p, phase), QuarterAt(message[i], p)) == ReceiverAfter(message, i, p)
  {
    StoringExtends(message[i], p);
    assert message[..i] + [message[i]] == message[..i + 1];
    if i + 1 < |message| { StoringExtends(message[i + 1], 0); }
  }

  /** Of one ack, or of two equal ones, it does not matter which the sender takes. */
  lemma OneOfEqualAcks(w: World, w': World, k: nat)
    requires SenderStep(w, w', k) && (w.toSender == [Ack(true)] || w.toSender == [Ack(true)] + [Ack(true)])
    ensures w' == SenderTakes(w.(toSender := if |w.toSender| == 1 then [] else [Ack(true)]), Ack(true))
  {
    assert Sampling.Pop(w.toSender, k) == if |w.toSender| == 1 then [] else [Ack(true)];
  }

  lemma HandingOver(w: World, i: nat, p: nat, n: nat)
    requires w.sender.phase == Sharing(i, p, n) && i < |w.sender.message| && p < 4
    requires w.device.pairs == map[n := EPR]
    ensures SenderTakes(w, Ack(true)) == w.(sender := w.sender.(phase := Handing(i, p)),
              device := Device(map[n := Encoded(EPR, QuarterAt(w.sender.message[i], p))], w.device.halves,
                               w.device.qubits + [n], w.device.created),
              toReceiver := w.toReceiver + [Ack(true)])
  {
    var v := Encoded(EPR, QuarterAt(w.sender.message[i], p));
    assert map[n := EPR][n := v] == map[n := v];
  }

  lemma SenderHandsOver(message: seq<bv8>, i: nat, p: nat, point: Point)
    requires i < |message| && p < 4 && (point == Noted || point == HalfFirst)
    ensures SenderTakes(InQuarter(message, i, p, point).(toSender := []), Ack(true))
         == InQuarter(message, i, p, if point == Noted then EncodedFirst else Handed)
  {
    HandingOver(InQuarter(message, i, p, point).(toSender := []), i, p, 4 * i + p);
  }

  lemma SenderPauses(message: seq<bv8>, i: nat, p: nat, point: Point)
    requires i < |message| && p < 4 && (point == Granted || point == DecodedFirst)
    ensures SenderTakes(InQuarter(message, i, p, point).(toSender := if point == Granted then [] else [Ack(true)]),
                        Ack(true))
         == InQuarter(message, i, p, if point == Granted then GrantedFirst else Stowed)
  {
  }

  lemma SenderSharesNext(message: seq<bv8>, i: nat, p: nat)
    requires i < |message| && p < 4
    ensures SenderTakes(InQuarter(message, i, p, Stowed).(toSender := []), Ack(true))
         == StateAt(message, After(message, i, p))
  {
    var w := InQuarter(message, i, p, Stowed).(toSender := []);
    if p < 3 {
      SharingStage(w, message, i, p + 1);
    } else {
      SharingStage(w, message, i + 1, 0);
    }
  }

  lemma SenderMoves(message: seq<bv8>, st: Stage, w': World, k: nat) returns (next: Stage)
    requires Possible(message, st) && SenderStep(StateAt(message, st), w', k)
    ensures Possible(message, next) && w' == StateAt(message, next)
    ensures Steps(message, next) == Steps(message, st) + 1
  {
    var w := StateAt(message, st);
    match st
    case Welcomed => next := Announced;
    case Known =>
      next := Beginning(message, 0, 0);
      SharingStage(w.(toSender := []), message, 0, 0);
    case Working(i, p, point) =>
      next := SenderMovesInQuarter(message, i, p, point, w', k);
    case Parted => next := Over;
  }

  lemma SenderMovesInQuarter(message: seq<bv8>, i: nat, p: nat, point: Point, w': World, k: nat)
    returns (next: Stage)
    requires i < |message| && p < 4 && SenderStep(InQuarter(message, i, p, point), w', k)
    ensures Possible(message, next) && w' == StateAt(message, next)
    ensures Steps(message, next) == Steps(message, Working(i, p, point)) + 1
  {
    var w := InQuarter(message, i, p, point);
    OneOfEqualAcks(w, w', k);
    match point
    case Noted =>
      next := Working(i, p, EncodedFirst);
      SenderHandsOver(message, i, p, point);
    case HalfFirst =>
      next := Working(i, p, Handed);
      SenderHandsOver(message, i, p, point);
    case Granted =>
      next := Working(i, p, GrantedFirst);
      SenderPauses(message, i, p, point);
    case DecodedFirst =>
      next := Working(i, p, Stowed);
      SenderPauses(message, i, p, point);
    case Stowed =>
      next := After(message, i, p);
      SenderSharesNext(message, i, p);
  }

  lemma ReceiverMoves(message: seq<bv8>, st: Stage, w': World, k: nat) returns (next: Stage)
    requires Possible(message, st) && ReceiverStep(StateAt(message, st), w', k)
    ensures Possible(message, next) && w' == StateAt(message, next)
    ensures Steps(message, next) == Steps(message, st) + 1
  {
    match st
    case Invited => next := Welcomed;
    case Announced =>
      next := Known;
      if |message| > 0 { StoringExtends(message[0], 0); }
    case Working(i, p, point) =>
      match point {
        case Shared => next := Working(i, p, Noted);
        case EncodedFirst => assert false;
        case Handed => next := Working(i, p, Granted);
      }
    case Parting => next := Parted;
  }

  lemma HalfMoves(message: seq<bv8>, st: Stage, w': World) returns (next: Stage)
    requires Possible(message, st) && HalfStep(StateAt(message, st), w')
    ensures Possible(message, next) && w' == StateAt(message, next)
    ensures Steps(message, next) == Steps(message, st) + 1
  {
    match st
    case Working(i, p, point) =>
      next := Working(i, p, if point == Noted then HalfFirst else Handed);
  }

  /** The receiver holds both halves of the pair n: it reads what was encoded and stores it. */
  lemma ReadingStores(w: World, message: seq<bv8>, i: nat, p: nat, n: nat, v: Pair)
    requires i < |message| && p < 4
    requires w.receiver == ReceiverAt(message, i, p, TakingQubit(n))
    requires w.device == Device(map[n := v], [], [n], n + 1)
    ensures TakeQubit(w, QuarterAt(message[i], p)) == w.(receiver := ReceiverAfter(message, i, p),
              toSender := w.toSender + [Ack(true)], device := Device(map[], [], [], n + 1))
  {
    StoringStage(message, i, p, TakingQubit(n));
    assert map[n := v] - {n} == map[];
  }

  lemma QubitMoves(message: seq<bv8>, st: Stage, w': World, q: Quarter) returns (next: Stage)
    requires Possible(message, st) && QubitStep(StateAt(message, st), w', q)
    ensures Possible(message, next) && w' == StateAt(message, next)
    ensures Steps(message, next) == Steps(message, st) + 1
  {
    match st
    case Working(i, p, point) =>
      next := Working(i, p, if point == Granted then DecodedFirst else Stowed);
      QubitMovesInQuarter(message, i, p, point, w', q);
  }

  lemma OnlyWithBothQubits(message: seq<bv8>, i: nat, p: nat, point: Point, w': World, q: Quarter)
    requires i < |message| && p < 4 && QubitStep(InQuarter(message, i, p, point), w', q)
    ensures point == Granted || point == GrantedFirst
  {
  }

  lemma QubitMovesInQuarter(message: seq<bv8>, i: nat, p: nat, point: Point, w': World, q: Quarter)
    requires i < |message| && p < 4 && QubitStep(InQuarter(message, i, p, point), w', q)
    ensures point == Granted || point == GrantedFirst
    ensures w' == InQuarter(message, i, p, if point == Granted then DecodedFirst else Stowed)
  {
    OnlyWithBothQubits(message, i, p, point, w', q);
    var w, n := InQuarter(message, i, p, point), 4 * i + p;
    var v := Encoded(EPR, QuarterAt(message[i], p));
    assert w.device == Device(map[n := v], [], [n], n + 1) && w.receiver == ReceiverAt(message, i, p, TakingQubit(n));
    OutcomeIsPossible(w, w', n, v, q);
    DecodingIsCertain(QuarterAt(message[i], p), q);
    ReadingStores(w, message, i, p, n, v);
  }

  lemma OutcomeIsPossible(w: World, w': World, n: nat, v: Pair, q: Quarter)
    requires QubitStep(w, w', q) && w.receiver.phase == TakingQubit(n)
    requires w.device == Device(map[n := v], [], [n], n + 1)
    ensures CanMeasure(Decoded(v), q) && w' == TakeQubit(w, q)
  {
    assert Paired(w);
  }

  /** Every step leads from one of the listed states to another, one step further on. */
  lemma StepsLeadOn(message: seq<bv8>, st: Stage, w': World) returns (next: Stage)
    requires Possible(message, st) && Next(StateAt(message, st), w')
    ensures Possible(message, next) && w' == StateAt(message, next)
    ensures Steps(message, next) == Steps(message, st) + 1
  {
    var w := StateAt(message, st);
    if k :| SenderStep(w, w', k) {
      next := SenderMoves(message, st, w', k);
    } else if k :| ReceiverStep(w, w', k) {
      next := ReceiverMoves(message, st, w', k);
    } else if HalfStep(w, w') {
      next := HalfMoves(message, st, w');
    } else {
      var q :| QubitStep(w, w', q);
      next := QubitMoves(message, st, w', q);
    }
  }

  /** The i-th state of a run is a listed one, i steps from the start whatever order was taken. */
  lemma {:induction false} RunsFollowStages(run: seq<World>, message: seq<bv8>, i: nat) returns (st: Stage)
    requires Run(run, message) && i < |run|
    ensures Possible(message, st) && run[i] == StateAt(message, st) && Steps(message, st) == i
  {
    if i == 0 {
      st := Invited;
    } else {
      var before := RunsFollowStages(run, message, i - 1);
      assert Next(run[i - 1], run[i]);
      st := StepsLeadOn(message, before, run[i]);
    }
  }

  /** What a transfer must never violate. */
  predicate Orderly(w: World, message: seq<bv8>) {
    // No exception, and in particular never two halves of different pairs in the receiver's hands.
    && !w.sender.phase.SendingFailed? && !w.receiver.phase.ReceivingFailed?
    // At most one pair is outstanding: the one created last.
    && (forall id <- w.device.pairs :: id == w.device.created - 1)
    // recvEPR and recvQubit find at most one qubit, of that pair.
    && (w.receiver.phase.TakingHalf? ==> w.device.halves == [w.device.created - 1])
    && (w.receiver.phase.TakingQubit? ==> w.device.qubits == [w.receiver.phase.qb] == [w.device.created - 1])
    // Four pairs were created for each byte received, up to four more for the byte on its way.
    && 4 * |w.receiver.message| <= w.device.created <= 4 * |w.receiver.message| + 4
    // What has been received is what was sent.
    && w.receiver.message <= message
    // Messages that could overtake each other are equal.
    && |w.toReceiver| + |w.toSender| <= 2
    && (forall m <- w.toSender :: m == w.toSender[0])
  }

  /** Orderly, and no deadlock: a step is possible until both parties have finished. */
  ghost predicate Safe(w: World, message: seq<bv8>) {
    Orderly(w, message) && ((exists w' :: Next(w, w')) || Delivered(w, message))
  }

  predicate Delivered(w: World, message: seq<bv8>) {
    && w.sender.phase.Sent? && w.receiver.phase.Received?
    && w.receiver.message == message && w.receiver.length == |message|
    && w.device.created == 4 * |message|
    && w.device.pairs == map[] && w.toSender == [] && w.toReceiver == []
  }

  lemma QuartersKeepOrder(message: seq<bv8>, i: nat, p: nat, point: Point)
    requires i < |message| && p < 4
    ensures Orderly(InQuarter(message, i, p, point), message)
  {
  }

  lemma StagesKeepOrder(message: seq<bv8>, st: Stage)
    requires Possible(message, st)
    ensures Orderly(StateAt(message, st), message)
  {
    if st.Working? {
      QuartersKeepOrder(message, st.i, st.p, st.point);
    }
  }

  /** In every listed state but the last one a step is possible. */
  lemma StagesGoOn(message: seq<bv8>, st: Stage)
    requires Possible(message, st) && !st.Over?
    ensures exists w' :: Next(StateAt(message, st), w')
  {
    var w := StateAt(message, st);
    match st
    case Invited => ReceiverCanMove(w);
    case Welcomed => SenderCanMove(w);
    case Announced => ReceiverCanMove(w);
    case Known => SenderCanMove(w);
    case Working(i, p, point) => QuartersGoOn(message, i, p, point);
    case Parting => ReceiverCanMove(w);
    case Parted => SenderCanMove(w);
  }

  lemma SenderCanMove(w: World)
    requires w.toSender != [] && SenderWaits(w)
    ensures exists w' :: Next(w, w')
  {
    var w' := SenderTakes(w.(toSender := Sampling.Pop(w.toSender, 0)), w.toSender[0]);
    assert SenderStep(w, w', 0);
    assert Next(w, w');
  }

  lemma ReceiverCanMove(w: World)
    requires w.toReceiver != [] && ReceiverWaits(w)
    ensures exists w' :: Next(w, w')
  {
    var w' := ReceiverTakes(w.(toReceiver := Sampling.Pop(w.toReceiver, 0)), w.toReceiver[0]);
    assert ReceiverStep(w, w', 0);
    assert Next(w, w');
  }

  lemma QuartersGoOn(message: seq<bv8>, i: nat, p: nat, point: Point)
    requires i < |message| && p < 4
    ensures exists w' :: Next(InQuarter(message, i, p, point), w')
  {
    var w := InQuarter(message, i, p, point);
    match point
    case Shared => ReceiverCanMove(w);
    case Noted => SenderCanMove(w);
    case HalfFirst => SenderCanMove(w);
    case EncodedFirst => assert Next(w, TakeHalf(w));
    case Handed => ReceiverCanMove(w);
    case Granted => SenderCanMove(w);
    case DecodedFirst => SenderCanMove(w);
    case GrantedFirst =>
      var q := QuarterAt(message[i], p);
      DecodingIsCertain(q, q);
      assert QubitStep(w, TakeQubit(w, q), q);
      assert Next(w, TakeQubit(w, q));
    case Stowed => SenderCanMove(w);
  }

  /** Pairing, handshake and delivery, in every state of every run. */
  lemma TransfersAreSafe(run: seq<World>, message: seq<bv8>, i: nat)
    requires Run(run, message) && i < |run|
    ensures Safe(run[i], message)
  {
    var st := RunsFollowStages(run, message, i);
    StagesKeepOrder(message, st);
    if st.Over? {
      assert StateAt(message, st).receiver.message == message;
    } else {
      StagesGoOn(message, st);
    }
  }

  /**
   Every transfer of n bytes takes exactly 28n + 6 steps, whatever the interleaving: no run is longer, and
   a run of that length has delivered the message, while a shorter one has not ended.
   */
  lemma TransfersEnd(run: seq<World>, message: seq<bv8>)
    requires Run(run, message)
    ensures |run| <= 28 * |message| + 7
    ensures |run| == 28 * |message| + 7 <==> Delivered(run[|run| - 1], message)
  {
    var st := RunsFollowStages(run, message, |run| - 1);
    StepsAreBounded(message, st);
    if st.Over? {
      assert StateAt(message, st).receiver.message == message;
    }
  }

  lemma StepsAreBounded(message: seq<bv8>, st: Stage)
    requires Possible(message, st)
    ensures Steps(message, st) <= 28 * |message| + 6
    ensures Steps(message, st) == 28 * |message| + 6 <==> st.Over?
  {
  }
}
