/**
 A party as the object it is in qchat/protocols.py: it owns the two queues and the lists of `execute`,
 and updates them in place. Each method runs from one wait to the next; together they are the step
 relation of KeyProtocol.
 */
module Peer {
  import opened Bits
  import opened Sampling
  import opened EprTest
  import opened GolayCode
  import opened GolayDecoding
  import opened Reconciliation
  import opened Extraction
  import opened Wire
  import opened KeyProtocol

  class KeyPeer {
    const role: Role
    const dictH: Table            // ECC_Golay's table
    var protocol: Protocol
    var keySize: nat
    var key: seq<nat>
    var secretBits: Bits
    var reconciled: Bits
    var phase: Phase
    var ctrlMsgQ: seq<Message>    // inbound
    var outboundQ: seq<Message>

    ghost predicate Valid() {
      Perfect(dictH)
    }

    function State(): Party
      reads this
    {
      Party(role, protocol, keySize, key, secretBits, reconciled, phase)
    }

    constructor (role: Role, protocol: Protocol, keySize: nat, dictH: Table)
      requires Perfect(dictH)
      ensures Valid() && ctrlMsgQ == []
      ensures State() == Party(role, protocol, keySize, [], [], [], Opening)
      ensures outboundQ == if role == Leader then Speak(State()) else []
    {
      this.role, this.dictH, this.protocol, this.keySize := role, dictH, protocol, keySize;
      key, secretBits, reconciled, phase := [], [], [], Opening;
      ctrlMsgQ := [];
      outboundQ := if role == Leader then [Message(PTCL, Proposal(protocol, keySize))] else [];
    }

    method Send(messages: seq<Message>)
      modifies this`outboundQ
      ensures outboundQ == old(outboundQ) + messages
    {
      outboundQ := outboundQ + messages;
    }

    /** `_wait_for_control_message`, once a message is there. */
    method Take() returns (m: Message)
      requires ctrlMsgQ != []
      modifies this`ctrlMsgQ
      ensures m == old(ctrlMsgQ)[0] && ctrlMsgQ == Pop(old(ctrlMsgQ), 0)
    {
      m := ctrlMsgQ[0];
      ctrlMsgQ := ctrlMsgQ[1..];
    }

    /** The loop heads of `execute`. */
    method GoOn(c: Coins)
      modifies this`phase, this`reconciled
      ensures State() == Advance(old(State()), c)
    {
      if |key| >= keySize {
        phase := Finishing;
      } else if |reconciled| >= BLOCK {
        var n := Number(reconciled[..BLOCK]);
        reconciled := reconciled[BLOCK..];
        phase := Amplifying(n / 256, n % 256, c.seed);
      } else if |secretBits| >= N {
        phase := Reconciling(secretBits, []);
      } else {
        phase := Distributing([c.outcome], [c.basis]);
      }
    }

    method Handshake(m: Body, c: Coins)
      requires phase.Opening?
      modifies this`phase, this`reconciled, this`protocol, this`keySize
      ensures State() == ResumeOpening(old(State()), m, c)
    {
      if role == Leader {
        if m.Accept? { GoOn(c); } else { phase := Failed; }
      } else if m.Proposal? {
        protocol, keySize := m.name, m.keySize;
        GoOn(c);
      } else {
        phase := Failed;
      }
    }

    method NextQubit(m: Body, c: Coins)
      requires phase.Distributing?
      modifies this`phase
      ensures State() == ResumeDistributing(old(State()), m, c)
    {
      if !(m.Ack? && m.ok) {
        phase := Failed;
      } else if |phase.x| < ROUND_SIZE {
        phase := Distributing(phase.x + [c.outcome], phase.theta + [c.basis]);
      } else {
        phase := Sifting(phase.x, phase.theta);
      }
    }

    /** `_filter_theta` and the leader's choice of test bits, or the test set of DIQKD. */
    method Sift(m: Message, c: Coins)
      requires phase.Sifting? && Fair(State(), m, c)
      modifies this`phase
      ensures State() == ResumeSifting(old(State()), m.body, c)
    {
      if !m.body.Bases? {
        phase := Failed;
      } else if protocol == Bb84 {
        var xRemain := FilterTheta(phase.x, phase.theta, m.body.theta);
        if role == Leader {
          var x, testBits, testIndices := PickTestBits(xRemain, c.picks);
          phase := Selecting(x, testIndices, testBits);
        } else {
          phase := Selecting(xRemain, [], []);
        }
      } else if |m.body.theta| < |phase.x| {
        phase := Failed;
      } else if role == Leader {
        phase := Exchanging(phase.x, phase.theta, m.body.theta, c.sample);
      } else {
        phase := AwaitingTestSet(phase.x, phase.theta, m.body.theta);
      }
    }

    method SelectTestBits(m: Body)
      requires phase.Selecting?
      modifies this`phase
      ensures State() == ResumeSelecting(old(State()), m)
    {
      if role == Leader {
        if m.Ack? && m.ok { phase := Comparing(phase.x, phase.testBits); } else { phase := Failed; }
      } else if m.TestIndices? {
        var failed, x, testBits := ReplayTestBits(phase.x, m.indices);
        phase := if failed then Failed else Comparing(x, testBits);
      } else {
        phase := Failed;
      }
    }

    method CompareTestBits(m: Body)
      requires phase.Comparing?
      modifies this`phase
      ensures State() == ResumeComparing(old(State()), m)
    {
      if m.TestBits? {
        var numError := CountErrors(phase.testBits, m.bits);
        phase := Concluding(phase.x, phase.testBits, numError);
      } else {
        phase := Failed;
      }
    }

    method Conclude(m: Body, c: Coins)
      requires phase.Concluding?
      modifies this`phase, this`secretBits, this`reconciled
      ensures State() == ResumeConcluding(old(State()), m, c)
    {
      if m.Fin? && m.ok {
        if !TooNoisy(phase.numError, |phase.testBits|) {
          secretBits := secretBits + phase.x;
        }
        assert secretBits == old(secretBits + Distilled(State()));
        GoOn(c);
      } else {
        phase := Failed;
      }
    }

    method TakeTestSet(m: Body)
      requires phase.AwaitingTestSet?
      modifies this`phase
      ensures State() == ResumeAwaiting(old(State()), m)
    {
      if m.TestSet? {
        var inRange := true;
        for k := 0 to |m.T|
          invariant inRange <==> InRange(m.T[..k], |phase.x|)
        {
          assert m.T[..k + 1] == m.T[..k] + [m.T[k]];
          if m.T[k] >= |phase.x| { inRange := false; }
        }
        assert m.T[..|m.T|] == m.T;
        phase := if inRange then Exchanging(phase.x, phase.theta, phase.thetaHat, m.T) else Failed;
      } else {
        phase := Failed;
      }
    }

    method RunEprTest(m: Body, c: Coins)
      requires phase.Exchanging?
      modifies this`phase, this`secretBits, this`reconciled
      ensures State() == ResumeExchanging(old(State()), m, c)
    {
      if m.TestOutcomes? {
        var result := Tested(State(), m.xT);
        if result.Some? {
          secretBits := secretBits + result.value;
          GoOn(c);
        } else {
          phase := Aborted;
        }
      } else {
        phase := Failed;
      }
    }

    /** One turn of the loop of `_reconcile_information`. */
    method ReconcileCodeword(m: Body, c: Coins)
      requires Valid() && phase.Reconciling?
      modifies this`phase, this`secretBits, this`reconciled
      ensures State() == ResumeReconciling(old(State()), m, c)
    {
      var fits := if role == Leader then m.Ack? && m.ok else m.SyndromeOf? && |m.s| == CHECKS;
      if |phase.rest| < N || !fits {
        phase := Failed;
        return;
      }
      var codeword := phase.rest[..N];
      var s := if role == Leader then Syndrome(codeword) else m.s;
      var y := Correct(dictH, codeword, s);
      var rest, corrected := phase.rest[N..], phase.corrected + y;
      if |rest| >= N {
        phase := Reconciling(rest, corrected);
      } else {
        secretBits, reconciled := rest, reconciled + corrected;
        GoOn(c);
      }
    }

    /** `_amplify_privacy`, after the wait. */
    method Amplify(m: Body, c: Coins)
      requires phase.Amplifying?
      modifies this`phase, this`key, this`reconciled
      ensures State() == ResumeAmplifying(old(State()), m, c)
    {
      if role == Leader {
        if m.Ack? {
          if m.ok { key := key + [KeyByte(phase.seed, phase.x0)]; }
          GoOn(c);
        } else {
          phase := Failed;
        }
      } else if m.SeedAndTag? && m.seed * phase.x0 < 65536 {
        if m.tag == phase.x1 + m.seed * phase.x0 % 256 { key := key + [KeyByte(m.seed, phase.x0)]; }
        GoOn(c);
      } else {
        phase := Failed;
      }
    }

    method End(m: Body)
      requires phase.Finishing?
      modifies this`phase
      ensures State() == ResumeFinishing(old(State()), m)
    {
      phase := if m.Finish? && m.ok then Done else Failed;
    }

    method Resume(m: Message, c: Coins)
      requires Valid() && Waiting(State()) && Fair(State(), m, c)
      modifies this`phase, this`secretBits, this`reconciled, this`key, this`protocol, this`keySize
      ensures State() == KeyProtocol.Resume(old(State()), m.body, c)
    {
      match phase
      case Opening => Handshake(m.body, c);
      case Distributing(_, _) => NextQubit(m.body, c);
      case Sifting(_, _) => Sift(m, c);
      case Selecting(_, _, _) => SelectTestBits(m.body);
      case Comparing(_, _) => CompareTestBits(m.body);
      case Concluding(_, _, _) => Conclude(m.body, c);
      case AwaitingTestSet(_, _, _) => TakeTestSet(m.body);
      case Exchanging(_, _, _, _) => RunEprTest(m.body, c);
      case Reconciling(_, _) => ReconcileCodeword(m.body, c);
      case Amplifying(_, _, _) => Amplify(m.body, c);
      case Finishing => End(m.body);
    }

    /**
     From one wait to the next: take the oldest message, answer as the follower or open the next
     exchange as the leader. This is the step of KeyProtocol, on the object's own fields.
     */
    method React(c: Coins)
      requires Valid() && ctrlMsgQ != [] && Waiting(State()) && Fair(State(), ctrlMsgQ[0], c)
      modifies this
      ensures Valid()
      ensures State() == Receive(old(State()), old(ctrlMsgQ)[0], c)
      ensures outboundQ == old(outboundQ) + Sent(old(State()), old(ctrlMsgQ)[0], c)
      ensures ctrlMsgQ == Pop(old(ctrlMsgQ), 0)
    {
      var m := Take();
      if m.kind != Expected(State()) {
        phase := Failed;
      } else if role == Leader {
        Resume(m, c);
        Send(Speak(State()));
      } else {
        Send(Reply(State(), m.body));
        Resume(m, c);
      }
    }
  }
}
