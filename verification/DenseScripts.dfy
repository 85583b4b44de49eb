/**
 The two views of superdense coding against each other: in a run of the two processes, either side says
 exactly what the loop of the other one asks for.
 */
module DenseScripts {
  import opened Qubits
  import opened DenseCoding
  import opened DenseLoops
  import opened DenseTransfer

  /** What the sender puts into its channel in a step; every step of the sender changes its phase. */
  function SenderSpeech(w: World, w': World): seq<Signal> {
    if w.sender != w'.sender && |w.toReceiver| <= |w'.toReceiver| then w'.toReceiver[|w.toReceiver|..] else []
  }

  function ReceiverSpeech(w: World, w': World): seq<Signal> {
    if w.receiver != w'.receiver && |w.toSender| <= |w'.toSender| then w'.toSender[|w.toSender|..] else []
  }

  /** All that the sender has said in a run, its invitation aside. */
  function SenderSaid(run: seq<World>): seq<Signal> {
    if |run| < 2 then []
    else SenderSaid(run[..|run| - 1]) + SenderSpeech(run[|run| - 2], run[|run| - 1])
  }

  function ReceiverSaid(run: seq<World>): seq<Signal> {
    if |run| < 2 then []
    else ReceiverSaid(run[..|run| - 1]) + ReceiverSpeech(run[|run| - 2], run[|run| - 1])
  }

  // ----- What has been said at a stage

  function ManyAcks(n: nat): (r: seq<Signal>)
    ensures |r| == n && Acks(r, 0, n)
  {
    seq(n, k => Ack(true))
  }

  function SenderSaidAt(message: seq<bv8>, st: Stage): seq<Signal> {
    var n := |message|;
    match st
    case Invited => []
    case Welcomed => []
    case Announced => [Length(n)]
    case Known => [Length(n)]
    case Working(i, p, point) => [Length(n)] + ManyAcks(2 * (4 * i + p) + SenderAcks(point))
    case _ => [Length(n)] + ManyAcks(8 * n) + [Fin(true)]
  }

  function SenderAcks(point: Point): nat {
    if point.Shared? || point.Noted? || point.HalfFirst? then 1 else 2
  }

  function ReceiverSaidAt(message: seq<bv8>, st: Stage): seq<Signal> {
    var n := |message|;
    match st
    case Invited => []
    case Welcomed => [Accepted]
    case Announced => [Accepted]
    case Known => [Accepted] + ManyAcks(1)
    case Working(i, p, point) => [Accepted] + ManyAcks(1 + 3 * (4 * i + p) + ReceiverAcks(point))
    case Parting => [Accepted] + ManyAcks(12 * n + 1)
    case _ => [Accepted] + ManyAcks(12 * n + 1) + [Fin(true)]
  }

  function ReceiverAcks(point: Point): nat {
    match point
    case Shared => 0
    case Granted => 2
    case GrantedFirst => 2
    case DecodedFirst => 3
    case Stowed => 3
    case _ => 1
  }

  // ----- One step

  /** The points between which a step leads, within a quarter. */
  predicate Follows(point: Point, next: Point) {
    match point
    case Shared => next.Noted?
    case Noted => next.HalfFirst? || next.EncodedFirst?
    case HalfFirst => next.Handed?
    case EncodedFirst => next.Handed?
    case Handed => next.Granted?
    case Granted => next.DecodedFirst? || next.GrantedFirst?
    case DecodedFirst => next.Stowed?
    case GrantedFirst => next.Stowed?
    case Stowed => false
  }

  /** Stages one step apart. */
  lemma NextStage(message: seq<bv8>, st: Stage, next: Stage)
    requires Possible(message, st) && Possible(message, next) && Steps(message, next) == Steps(message, st) + 1
    ensures match st
            case Invited => next.Welcomed?
            case Welcomed => next.Announced?
            case Announced => next.Known?
            case Known => next == Beginning(message, 0, 0)
            case Working(i, p, point) =>
              if point.Stowed? then next == After(message, i, p)
              else next.Working? && next.i == i && next.p == p && Follows(point, next.point)
            case Parting => next.Parted?
            case Parted => next.Over?
            case Over => false
  {
  }

  lemma MoreAcks(head: seq<Signal>, k: nat, m: nat)
    ensures (head + ManyAcks(k)) + ManyAcks(m) == head + ManyAcks(k + m)
    ensures head + ManyAcks(0) == head && ManyAcks(1) == [Ack(true)]
    ensures (head + ManyAcks(k)) + [] == head + ManyAcks(k)
  {
    assert ManyAcks(k) + ManyAcks(m) == ManyAcks(k + m);
    assert (head + ManyAcks(k)) + ManyAcks(m) == head + (ManyAcks(k) + ManyAcks(m));
  }

  lemma SpeechInQuarter(message: seq<bv8>, i: nat, p: nat, point: Point, next: Point)
    requires i < |message| && p < 4 && Follows(point, next)
    ensures SenderSpeech(InQuarter(message, i, p, point), InQuarter(message, i, p, next))
         == ManyAcks(SenderAcks(next) - SenderAcks(point))
  {
  }

  lemma AnswersInQuarter(message: seq<bv8>, i: nat, p: nat, point: Point, next: Point)
    requires i < |message| && p < 4 && Follows(point, next)
    ensures ReceiverAcks(next) >= ReceiverAcks(point)
    ensures ReceiverSpeech(InQuarter(message, i, p, point), InQuarter(message, i, p, next))
         == ManyAcks(ReceiverAcks(next) - ReceiverAcks(point))
  {
  }

  lemma SpeechAfterPause(w: World, w': World)
    requires w.sender.phase.Pausing? && !w'.sender.phase.Pausing? && w.toReceiver == []
    requires |w.toSender| == 1 && w'.toSender == []
    ensures SenderSpeech(w, w') == w'.toReceiver && ReceiverSpeech(w, w') == []
  {
  }

  /** The stage after a quarter, as far as it matters here. */
  lemma AfterQuarter(message: seq<bv8>, i: nat, p: nat)
    requires i < |message| && p < 4
    ensures var w', next := StateAt(message, After(message, i, p)), After(message, i, p);
            && !w'.sender.phase.Pausing? && w'.toSender == []
            && w'.toReceiver == [if next.Working? then Ack(true) else Fin(true)]
  {
    var next := After(message, i, p);
    if next.Working? {
      assert next.point == Shared && StateAt(message, next) == InQuarter(message, next.i, next.p, Shared);
    } else {
      assert next == Parting;
    }
  }

  /** Between quarters the sender goes on with an ack or with its farewell, and the receiver says nothing. */
  lemma SpeechAfterQuarter(message: seq<bv8>, i: nat, p: nat)
    requires i < |message| && p < 4
    ensures var w, w' := InQuarter(message, i, p, Stowed), StateAt(message, After(message, i, p));
            && SenderSpeech(w, w') == [if After(message, i, p).Working? then Ack(true) else Fin(true)]
            && ReceiverSpeech(w, w') == []
  {
    AfterQuarter(message, i, p);
    SpeechAfterPause(InQuarter(message, i, p, Stowed), StateAt(message, After(message, i, p)));
  }

  lemma SpeechElsewhere(message: seq<bv8>, st: Stage, next: Stage)
    requires Possible(message, st) && Possible(message, next) && !st.Working?
    requires Steps(message, next) == Steps(message, st) + 1
    ensures SenderSpeech(StateAt(message, st), StateAt(message, next)) ==
            if st.Welcomed? then [Length(|message|)]
            else if st.Known? then [if next.Working? then Ack(true) else Fin(true)] else []
    ensures ReceiverSpeech(StateAt(message, st), StateAt(message, next)) ==
            if st.Invited? then [Accepted] else if st.Announced? then [Ack(true)]
            else if st.Parting? then [Fin(true)] else []
  {
    NextStage(message, st, next);
  }

  /** From st to next each side's words grow by its speech between the states w and w'. */
  ghost predicate Grows(message: seq<bv8>, st: Stage, next: Stage, w: World, w': World) {
    && SenderSaidAt(message, next) == SenderSaidAt(message, st) + SenderSpeech(w, w')
    && ReceiverSaidAt(message, next) == ReceiverSaidAt(message, st) + ReceiverSpeech(w, w')
  }

  lemma SenderGrows(message: seq<bv8>, i: nat, p: nat, point: Point, next: Point)
    requires i < |message| && p < 4 && Follows(point, next)
    ensures SenderSaidAt(message, Working(i, p, next)) == SenderSaidAt(message, Working(i, p, point))
            + SenderSpeech(InQuarter(message, i, p, point), InQuarter(message, i, p, next))
  {
    SpeechInQuarter(message, i, p, point, next);
    MoreAcks([Length(|message|)], 2 * (4 * i + p) + SenderAcks(point), SenderAcks(next) - SenderAcks(point));
  }

  lemma ReceiverGrows(message: seq<bv8>, i: nat, p: nat, point: Point, next: Point)
    requires i < |message| && p < 4 && Follows(point, next)
    ensures ReceiverSaidAt(message, Working(i, p, next)) == ReceiverSaidAt(message, Working(i, p, point))
            + ReceiverSpeech(InQuarter(message, i, p, point), InQuarter(message, i, p, next))
  {
    AnswersInQuarter(message, i, p, point, next);
    MoreAcks([Accepted], 1 + 3 * (4 * i + p) + ReceiverAcks(point), ReceiverAcks(next) - ReceiverAcks(point));
  }

  lemma QuarterGrows(message: seq<bv8>, i: nat, p: nat, point: Point, next: Point)
    requires i < |message| && p < 4 && Follows(point, next)
    ensures Grows(message, Working(i, p, point), Working(i, p, next),
                  InQuarter(message, i, p, point), InQuarter(message, i, p, next))
  {
    SenderGrows(message, i, p, point, next);
    ReceiverGrows(message, i, p, point, next);
  }

  /** The counts go on from one quarter to the next. */
  lemma AfterStowed(message: seq<bv8>, i: nat, p: nat)
    requires i < |message| && p < 4
    ensures var n, next := 4 * i + p, After(message, i, p);
            && SenderSaidAt(message, next) == [Length(|message|)]
               + (if next.Working? then ManyAcks(2 * n + 3) else ManyAcks(2 * n + 2) + [Fin(true)])
            && ReceiverSaidAt(message, next) == [Accepted] + ManyAcks(3 * n + 4)
  {
    var n := 4 * i + p;
    assert ([Length(|message|)] + ManyAcks(2 * n + 2)) + [Fin(true)]
        == [Length(|message|)] + (ManyAcks(2 * n + 2) + [Fin(true)]);
  }

  lemma StowedSenderGrows(message: seq<bv8>, i: nat, p: nat, speech: seq<Signal>)
    requires i < |message| && p < 4
    requires speech == [if After(message, i, p).Working? then Ack(true) else Fin(true)]
    ensures SenderSaidAt(message, After(message, i, p)) == SenderSaidAt(message, Working(i, p, Stowed)) + speech
  {
    AfterStowed(message, i, p);
    FarewellOrAck([Length(|message|)], 2 * (4 * i + p) + 2, After(message, i, p).Working?);
  }

  lemma StowedReceiverGrows(message: seq<bv8>, i: nat, p: nat, speech: seq<Signal>)
    requires i < |message| && p < 4 && speech == []
    ensures ReceiverSaidAt(message, After(message, i, p)) == ReceiverSaidAt(message, Working(i, p, Stowed)) + speech
  {
    AfterStowed(message, i, p);
    MoreAcks([Accepted], 3 * (4 * i + p) + 4, 0);
  }

  lemma StowedGrows(message: seq<bv8>, i: nat, p: nat, w: World, w': World)
    requires i < |message| && p < 4
    requires SenderSpeech(w, w') == [if After(message, i, p).Working? then Ack(true) else Fin(true)]
    requires ReceiverSpeech(w, w') == []
    ensures Grows(message, Working(i, p, Stowed), After(message, i, p), w, w')
  {
    StowedSenderGrows(message, i, p, SenderSpeech(w, w'));
    StowedReceiverGrows(message, i, p, ReceiverSpeech(w, w'));
  }

  lemma FarewellOrAck(head: seq<Signal>, k: nat, more: bool)
    ensures head + (if more then ManyAcks(k + 1) else ManyAcks(k) + [Fin(true)])
         == (head + ManyAcks(k)) + [if more then Ack(true) else Fin(true)]
  {
    if more {
      MoreAcks(head, k, 1);
    }
  }

  lemma WorkingGrows(message: seq<bv8>, i: nat, p: nat, point: Point, next: Stage)
    requires i < |message| && p < 4 && Possible(message, next)
    requires Steps(message, next) == Steps(message, Working(i, p, point)) + 1
    ensures Grows(message, Working(i, p, point), next, InQuarter(message, i, p, point), StateAt(message, next))
  {
    NextStage(message, Working(i, p, point), next);
    if point.Stowed? {
      SpeechAfterQuarter(message, i, p);
      StowedGrows(message, i, p, InQuarter(message, i, p, point), StateAt(message, next));
    } else {
      QuarterGrows(message, i, p, point, next.point);
    }
  }

  lemma OthersGrow(message: seq<bv8>, st: Stage, next: Stage)
    requires Possible(message, st) && Possible(message, next) && !st.Working?
    requires Steps(message, next) == Steps(message, st) + 1
    ensures Grows(message, st, next, StateAt(message, st), StateAt(message, next))
  {
    NextStage(message, st, next);
    SpeechElsewhere(message, st, next);
    MoreAcks([Length(|message|)], 0, 1);
    MoreAcks([Accepted], 0, 1);
  }

  lemma StageGrows(message: seq<bv8>, st: Stage, next: Stage)
    requires Possible(message, st) && Possible(message, next) && Steps(message, next) == Steps(message, st) + 1
    ensures Grows(message, st, next, StateAt(message, st), StateAt(message, next))
  {
    if st.Working? {
      WorkingGrows(message, st.i, st.p, st.point, next);
    } else {
      OthersGrow(message, st, next);
    }
  }

  /** At every point of a run both sides have said what the stage asks for, whatever the interleaving. */
  lemma {:induction false} RunsSay(run: seq<World>, message: seq<bv8>) returns (st: Stage)
    requires Run(run, message)
    ensures Possible(message, st) && run[|run| - 1] == StateAt(message, st) && Steps(message, st) == |run| - 1
    ensures SenderSaid(run) == SenderSaidAt(message, st) && ReceiverSaid(run) == ReceiverSaidAt(message, st)
    decreases |run|
  {
    st := RunsFollowStages(run, message, |run| - 1);
    if |run| == 1 {
      assert st == Invited;
    } else {
      var init := run[..|run| - 1];
      var before := RunsSay(init, message);
      StageGrows(message, before, st);
    }
  }

  lemma SenderScript(n: nat, said: seq<Signal>)
    requires said == [Length(n)] + ManyAcks(8 * n) + [Fin(true)]
    ensures SenderSpeaks(said, n) && |said| == 8 * n + 2
  {
    assert forall k :: 1 <= k < 8 * n + 1 ==> said[k] == ManyAcks(8 * n)[k - 1];
  }

  lemma ReceiverScript(n: nat, said: seq<Signal>)
    requires said == [Accepted] + ManyAcks(12 * n + 1) + [Fin(true)]
    ensures |said| == 12 * n + 3 && said[0] == Accepted && ReceiverSpeaks(said[1..], n)
  {
    var acks := ManyAcks(12 * n + 1);
    assert said[1..] == acks + [Fin(true)];
  }

  lemma WholeScripts(message: seq<bv8>, said: seq<Signal>, answers: seq<Signal>)
    requires said == SenderSaidAt(message, Over) && answers == ReceiverSaidAt(message, Over)
    ensures SenderSpeaks(said, |message|) && |said| == 8 * |message| + 2
    ensures |answers| == 12 * |message| + 3 && answers[0] == Accepted && ReceiverSpeaks(answers[1..], |message|)
  {
    SenderScript(|message|, said);
    ReceiverScript(|message|, answers);
  }

  /**
   A transfer that has run its course has followed both scripts: each side has said, once and in order, what
   the other one's loop waits for, and nothing else.
   */
  lemma DeliveredRunsFollowScripts(run: seq<World>, message: seq<bv8>)
    requires Run(run, message) && Delivered(run[|run| - 1], message)
    ensures SenderSpeaks(SenderSaid(run), |message|) && |SenderSaid(run)| == 8 * |message| + 2
    ensures ReceiverSaid(run) != [] && ReceiverSaid(run)[0] == Accepted
    ensures ReceiverSpeaks(ReceiverSaid(run)[1..], |message|) && |ReceiverSaid(run)| == 12 * |message| + 3
  {
    var st := RunsSay(run, message);
    assert st.Over? by {
      TransfersEnd(run, message);
      StepsAreBounded(message, st);
    }
    WholeScripts(message, SenderSaid(run), ReceiverSaid(run));
  }

  /** What the two sides have said in a run that has delivered the message. */
  ghost predicate Transcribes(run: seq<World>, message: seq<bv8>, said: seq<Signal>, answers: seq<Signal>) {
    && Run(run, message) && Delivered(run[|run| - 1], message)
    && said == SenderSaid(run) && [Accepted] + answers == ReceiverSaid(run)
  }

  /**
   The loops on the transcripts of a run: given what the peer has said in it and the outcomes that the pairs of
   the message leave possible, both loops succeed, with the message that the run has delivered.
   */
  method Replay(ghost run: seq<World>, message: seq<bv8>, said: seq<Signal>, answers: seq<Signal>,
                seen: nat -> nat -> Quarter)
    returns (ok: bool, received: seq<bv8>)
    requires Transcribes(run, message, said, answers)
    requires forall i :: 0 <= i < |message| ==> Measured(DenseLoops.Pairs(message[i], 4), seen(i))
    ensures ok && received == message && received == run[|run| - 1].receiver.message
  {
    DeliveredRunsFollowScripts(run, message);
    assert ([Accepted] + answers)[1..] == answers;
    var outbox, sent, r;
    ok, outbox, sent := SendMessage(message, answers);
    outbox, r := ReceiveMessage(said, seen);
    received := r.value;
    forall i | 0 <= i < |message| ensures received[i] == message[i] {
      ByteIsRead(message[i], seen(i), 4);
      StoringExtends(message[i], 0);
    }
  }
}
