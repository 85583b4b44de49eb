/**
 `send_message` and `receive_message` (qchat/protocols.py) as the nested loops they are, each against the
 control messages that its queue will deliver. A wait that finds no further message times out.
 */
module DenseLoops {
  import opened Options
  import opened Qubits
  import opened DenseCoding

  /** The messages number c to c + n - 1 are there, and each is a positive "ack". */
  predicate Acks(s: seq<Signal>, c: nat, n: nat) {
    c + n <= |s| && forall k :: c <= k < c + n ==> s[k] == Ack(true)
  }

  /** What the sender says from its first exchange on: the length n, two acks for each pair, the end. */
  predicate SenderSpeaks(s: seq<Signal>, n: nat) {
    8 * n + 1 < |s| && s[0] == Length(n) && Acks(s, 1, 8 * n) && s[8 * n + 1] == Fin(true)
  }

  /** What the receiver says for n bytes: one ack for the length, three for each pair, the end. */
  predicate ReceiverSpeaks(s: seq<Signal>, n: nat) {
    12 * n + 1 < |s| && Acks(s, 0, 12 * n + 1) && s[12 * n + 1] == Fin(true)
  }

  // ----- The sender

  /** The pairs handed over for the first n quarters of a byte. */
  function Pairs(b: bv8, n: nat): (r: seq<Pair>)
    requires n <= 4
    ensures |r| == n
  {
    if n == 0 then [] else Pairs(b, n - 1) + [Encoded(EPR, QuarterAt(b, n - 1))]
  }

  /** The body of the loop over p. */
  method SendQuarter(b: bv8, p: nat, inbox: seq<Signal>, c: nat)
    returns (ok: bool, outbox: seq<Signal>, qa: Pair)
    requires p < 4
    ensures ok <==> Acks(inbox, c, 3)
    ensures ok ==> outbox == [Ack(true), Ack(true)] && qa == Encoded(EPR, QuarterAt(b, p))
  {
    var b2 := (b >> Twice(p)) & 1;
    var b1 := (b >> (Twice(p) + 1)) & 1;
    qa := EPR;
    ok, outbox := false, [Ack(true)];
    if !Acks(inbox, c, 1) { return; }
    if b2 == 1 { qa := X(qa); }
    if b1 == 1 { qa := Z(qa); }
    outbox := outbox + [Ack(true)];
    if !Acks(inbox, c + 1, 1) { return; }
    ok := Acks(inbox, c + 2, 1);
  }

  /** The loop over p. */
  method SendByte(b: bv8, inbox: seq<Signal>, c: nat)
    returns (ok: bool, outbox: seq<Signal>, sent: seq<Pair>)
    requires c <= |inbox|
    ensures ok <==> Acks(inbox, c, 12)
    ensures ok ==> |outbox| == 8 && Acks(outbox, 0, 8) && sent == Pairs(b, 4)
  {
    ok, outbox, sent := false, [], [];
    var p := 0;
    while p < 4
      invariant p <= 4 && Acks(inbox, c, 3 * p)
      invariant |outbox| == 2 * p && Acks(outbox, 0, 2 * p)
      invariant sent == Pairs(b, p)
    {
      var more, signals, qa := SendQuarter(b, p, inbox, c + 3 * p);
      if !more { return; }
      outbox, sent := outbox + signals, sent + [qa];
      p := p + 1;
    }
    ok := true;
  }

  /**
   The sender succeeds exactly when the receiver says what it has to; it then has said what it has to, and
   has handed over the pairs that carry the message.
   */
  method SendMessage(message: seq<bv8>, inbox: seq<Signal>)
    returns (ok: bool, outbox: seq<Signal>, sent: seq<seq<Pair>>)
    ensures ok <==> ReceiverSpeaks(inbox, |message|)
    ensures ok ==> |outbox| == 8 * |message| + 2 && SenderSpeaks(outbox, |message|)
    ensures ok ==> |sent| == |message| && forall i :: 0 <= i < |message| ==> sent[i] == Pairs(message[i], 4)
  {
    ok, outbox, sent := false, [Length(|message|)], [];
    if !Acks(inbox, 0, 1) { return; }
    var i := 0;
    while i < |message|
      invariant i <= |message| && Acks(inbox, 0, 12 * i + 1)
      invariant |outbox| == 8 * i + 1 && outbox[0] == Length(|message|) && Acks(outbox, 1, 8 * i)
      invariant |sent| == i && forall j :: 0 <= j < i ==> sent[j] == Pairs(message[j], 4)
    {
      var more, signals, pairs := SendByte(message[i], inbox, 12 * i + 1);
      if !more { return; }
      outbox, sent := outbox + signals, sent + [pairs];
      i := i + 1;
    }
    outbox := outbox + [Fin(true)];
    ok := 12 * i + 1 < |inbox| && inbox[12 * i + 1] == Fin(true);
  }

  // ----- The receiver

  /** The byte after its first p quarters have been stored. */
  function Byte(seen: nat -> Quarter, p: nat): bv8
    requires p <= 4
  {
    if p == 0 then 0 else Stored(Byte(seen, p - 1), p - 1, seen(p - 1))
  }

  /** If b holds the low bits of some byte below quarter p, and q is that quarter, r holds the bits up to p. */
  method StoreQuarter(b: bv8, p: nat, q: Quarter) returns (r: bv8)
    requires p < 4
    ensures forall x: bv8 :: QuarterAt(x, p) == q && b == Low(x, p) ==> r == Low(x, p + 1)
    ensures r == Stored(b, p, q)
  {
    r := b | (AsBit(q.b2) << Twice(p));
    r := r | (AsBit(q.b1) << (Twice(p) + 1));
    forall x: bv8 | QuarterAt(x, p) == q && b == Low(x, p) ensures Stored(b, p, q) == Low(x, p + 1) {
      StoringExtends(x, p);
    }
  }

  /** The loop over p; seen(p) is the outcome of the measurements on the pair number p. */
  method ReceiveByte(inbox: seq<Signal>, c: nat, seen: nat -> Quarter)
    returns (outbox: seq<Signal>, r: Option<bv8>)
    requires c <= |inbox|
    ensures r.Some? <==> Acks(inbox, c, 8)
    ensures r.Some? ==> |outbox| == 12 && Acks(outbox, 0, 12) && r.value == Byte(seen, 4)
  {
    outbox, r := [], None;
    var b: bv8 := 0;
    var p := 0;
    while p < 4
      invariant p <= 4 && Acks(inbox, c, 2 * p)
      invariant |outbox| == 3 * p && Acks(outbox, 0, 3 * p)
      invariant b == Byte(seen, p)
    {
      if c + 2 * p >= |inbox| { return; }
      outbox := outbox + [Ack(true)];
      if !Acks(inbox, c + 2 * p, 1) { return; }
      if c + 2 * p + 1 >= |inbox| { return; }
      outbox := outbox + [Ack(true)];
      if !Acks(inbox, c + 2 * p + 1, 1) { return; }
      b := StoreQuarter(b, p, seen(p));
      outbox := outbox + [Ack(true)];
      p := p + 1;
    }
    r := Some(b);
  }

  /**
   The receiver succeeds exactly when the sender says what it has to; it then has said what it has to, and
   returns the bytes that the measured bits make up.
   */
  method ReceiveMessage(inbox: seq<Signal>, seen: nat -> nat -> Quarter)
    returns (outbox: seq<Signal>, r: Option<seq<bv8>>)
    ensures r.Some? <==> inbox != [] && inbox[0].Length? && SenderSpeaks(inbox, inbox[0].n)
    ensures r.Some? ==> |outbox| == 12 * inbox[0].n + 2 && ReceiverSpeaks(outbox, inbox[0].n)
    ensures r.Some? ==> |r.value| == inbox[0].n && forall i :: 0 <= i < inbox[0].n ==> r.value[i] == Byte(seen(i), 4)
  {
    outbox, r := [], None;
    if inbox == [] { return; }
    outbox := [Ack(true)];
    if !inbox[0].Length? { return; }
    var n := inbox[0].n;
    var message: seq<bv8> := [];
    var i := 0;
    while i < n
      invariant i <= n && Acks(inbox, 1, 8 * i)
      invariant |outbox| == 12 * i + 1 && Acks(outbox, 0, 12 * i + 1)
      invariant |message| == i && forall j :: 0 <= j < i ==> message[j] == Byte(seen(j), 4)
    {
      var signals, b := ReceiveByte(inbox, 8 * i + 1, seen(i));
      if b.None? { return; }
      outbox, message := outbox + signals, message + [b.value];
      i := i + 1;
    }
    if 8 * n + 1 >= |inbox| { return; }
    outbox := outbox + [Fin(true)];
    if inbox[8 * n + 1] != Fin(true) { return; }
    r := Some(message);
  }

  // ----- Round trip

  /** The outcomes that the measurements on the pairs of a byte can have. */
  ghost predicate Measured(pairs: seq<Pair>, seen: nat -> Quarter) {
    forall p :: 0 <= p < |pairs| ==> CanMeasure(Decoded(pairs[p]), seen(p))
  }

  lemma {:induction false} ByteIsRead(b: bv8, seen: nat -> Quarter, p: nat)
    requires p <= 4 && Measured(Pairs(b, p), seen)
    ensures Byte(seen, p) == Low(b, p)
  {
    if p == 0 {
      StoringExtends(b, 0);
    } else {
      QuarterIsRead(b, seen, p);
      ByteIsRead(b, seen, p - 1);
      StoringExtends(b, p - 1);
    }
  }

  lemma QuarterIsRead(b: bv8, seen: nat -> Quarter, p: nat)
    requires 0 < p <= 4 && Measured(Pairs(b, p), seen)
    ensures seen(p - 1) == QuarterAt(b, p - 1) && Measured(Pairs(b, p - 1), seen)
  {
    assert Pairs(b, p)[p - 1] == Encoded(EPR, QuarterAt(b, p - 1));
    DecodingIsCertain(QuarterAt(b, p - 1), seen(p - 1));
    forall k | 0 <= k < p - 1 ensures CanMeasure(Decoded(Pairs(b, p - 1)[k]), seen(k)) {
      assert Pairs(b, p)[k] == Pairs(b, p - 1)[k];
    }
  }

  /**
   The two loops against each other: for every byte string and all outcomes that its pairs leave possible,
   once the sender has succeeded the receiver does so too, and the bytes received are the bytes sent.
   */
  method Transfer(message: seq<bv8>, answers: seq<Signal>, seen: nat -> nat -> Quarter)
    returns (ok: bool, received: Option<seq<bv8>>)
    requires forall i :: 0 <= i < |message| ==> Measured(Pairs(message[i], 4), seen(i))
    ensures ok <==> ReceiverSpeaks(answers, |message|)
    ensures ok ==> received == Some(message)
  {
    var outbox, sent, back;
    ok, outbox, sent := SendMessage(message, answers);
    received := None;
    if ok {
      back, received := ReceiveMessage(outbox, seen);
      forall i | 0 <= i < |message| ensures Byte(seen(i), 4) == message[i] {
        ByteIsRead(message[i], seen(i), 4);
        StoringExtends(message[i], 0);
      }
      assert received.value == message;
    }
  }
}
