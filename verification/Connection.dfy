/** The receiving side of qchat/connection.py: the loop of `_handle_connection` and the queue it feeds. */
module Connection {
  import opened Options
  import opened Utf8
  import opened Framing
  import opened MessageData
  import opened Letters

  /** A connected socket whose peer has closed its end, holding what has arrived. */
  class Socket {
    var pieces: Pieces

    constructor (pieces: Pieces)
      ensures this.pieces == pieces
    {
      this.pieces := pieces;
    }

    /** `recv(n)` */
    method Recv(n: nat) returns (data: seq<Byte>)
      requires n > 0
      modifies this
      ensures data == Taken(old(pieces), n) && pieces == Left(old(pieces), n)
    {
      if pieces == [] {
        data := [];
      } else if |pieces[0]| <= n {
        data, pieces := pieces[0], pieces[1..];
      } else {
        data, pieces := pieces[0][..n], [pieces[0][n..]] + pieces[1..];
      }
    }
  }

  /** What `recv` returns and what it leaves make up what was there; it returns nothing only at the end. */
  lemma RecvConserves(s: Pieces, n: nat)
    requires n > 0
    ensures Taken(s, n) + Stream(Left(s, n)) == Stream(s)
    ensures Taken(s, n) == [] <==> Stream(s) == []
    ensures Stream(s) == [] <==> s == []
  {
    if s != [] {
      if |s[0]| > n { CutConserves(s, n); }
    }
  }

  lemma CutConserves(s: Pieces, n: nat)
    requires s != [] && |s[0]| > n > 0
    ensures Taken(s, n) + Stream(Left(s, n)) == Stream(s)
  {
    StreamOfPieces(s[0][n..], s[1..]);
    TogetherAgain(s[0], n, Stream(s[1..]));
  }

  lemma StreamOfPieces(first: seq<Byte>, others: seq<seq<Byte>>)
    ensures Stream([first] + others) == first + Stream(others)
  {
    assert ([first] + others)[1..] == others;
  }

  lemma TogetherAgain(b: seq<Byte>, n: nat, tail: seq<Byte>)
    requires n <= |b|
    ensures b[..n] + (b[n..] + tail) == b + tail
  {
  }

  /** The outcome of a connection on which these pieces have arrived. */
  function Accepted(s: Pieces, c: Codec): Outcome<Letter> {
    Built(Handle(s), c)
  }

  class QChatConnection {
    const codec: Codec
    var messageQueue: seq<Letter>

    constructor (codec: Codec)
      ensures this.codec == codec && messageQueue == []
    {
      this.codec, messageQueue := codec, [];
    }

    /** The loop that collects the payload and the two length checks, for a frame read up to its size field. */
    method ReceivePayload(conn: Socket, header: Header, sender: seq<Scalar>, declared: nat)
      returns (r: Outcome<Frame>)
      modifies conn
      ensures r == CheckLength(Frame(header, sender, Stream(old(conn.pieces))), declared)
    {
      ghost var all := Stream(conn.pieces);
      var messageData := [];
      while |messageData| < declared
        invariant messageData + Stream(conn.pieces) == all
      {
        RecvConserves(conn.pieces, 1024);
        var data := conn.Recv(1024);
        if data == [] {
          assert all == messageData;
          return Refused(TooShort);
        }
        messageData := messageData + data;
      }
      RecvConserves(conn.pieces, 1);
      if |messageData| > declared { return Refused(TooLong); }
      var more := conn.Recv(1);
      if more != [] { return Refused(TooLong); }
      assert all == messageData;
      r := Delivered(Frame(header, sender, messageData));
    }

    /** The checks, the payload, and the message. It goes to the end of the queue; a refusal changes nothing there. */
    method HandleConnection(conn: Socket) returns (r: Outcome<Letter>)
      modifies this, conn
      ensures r == Accepted(old(conn.pieces), codec)
      ensures messageQueue == old(messageQueue) + if r.Delivered? then [r.value] else []
    {
      var frame := ReceiveFrame(conn);
      if frame.Refused? { return Refused(frame.why); }
      var m := Constructed(frame.value, codec);
      if m.None? { return Refused(Malformed); }
      AppendMessageToQueue(m.value);
      r := Delivered(m.value);
    }

    /** The part of the handler that reads from the socket. */
    method ReceiveFrame(conn: Socket) returns (r: Outcome<Frame>)
      modifies conn
      ensures r == Handle(old(conn.pieces))
    {
      var header := conn.Recv(HEADER_LENGTH);
      if Lookup(header).None? { return Refused(IncorrectHeader); }
      var paddedSender := conn.Recv(MAX_SENDER_LENGTH);
      if |paddedSender| != MAX_SENDER_LENGTH { return Refused(IncorrectSenderLength); }
      var sender := Decode(WithoutNuls(paddedSender));
      if sender.None? { return Refused(UndecodableSender); }
      if sender.value == [] { return Refused(InvalidSender); }
      var size := conn.Recv(PAYLOAD_SIZE);
      if |size| != PAYLOAD_SIZE { return Refused(IncorrectPayloadSize); }
      r := ReceivePayload(conn, Lookup(header).value, sender.value, FromBigEndian(size));
    }

    method AppendMessageToQueue(m: Letter)
      modifies this
      ensures messageQueue == old(messageQueue) + [m]
    {
      messageQueue := messageQueue + [m];
    }

    /** The oldest message, or None. */
    method RecvMessage() returns (m: Option<Letter>)
      modifies this
      ensures m.None? <==> old(messageQueue) == []
      ensures if m.None? then messageQueue == [] else [m.value] + messageQueue == old(messageQueue)
    {
      if messageQueue == [] { return None; }
      m := Some(messageQueue[0]);
      messageQueue := messageQueue[1..];
    }
  }

  /** A letter is queued unchanged iff its stream would be received so in one piece, and no fixed field is cut. */
  lemma AcceptedIffWhole(l: Letter, c: Codec, pieces: Pieces)
    requires Faithful(c) && IsDict(l.data) && |l.sender| <= MAX_SENDER_LENGTH
    requires Encoded(l, c) == Some(Stream(pieces))
    ensures Accepted(pieces, c) == Delivered(l) <==> Sendable(l.sender) && FieldsAreWhole(pieces)
  {
    LettersArrive(l, c);
    var h := Handle(pieces);
    if h.Delivered? {
      DeliveredIffWhole(pieces, h.value);
    }
    var r := Parse(Stream(pieces));
    if r.Delivered? {
      DeliveredIffWhole(pieces, r.value);
    }
  }

  /**
   End to end: whatever message is encoded and however its bytes arrive, the connection queues that message and
   nothing else iff its sender is sendable and no fixed field was cut.
   */
  method SendAndReceive(l: Letter, codec: Codec, pieces: Pieces) returns (ok: bool)
    requires Faithful(codec) && IsDict(l.data) && |l.sender| <= MAX_SENDER_LENGTH
    requires Encoded(l, codec) == Some(Stream(pieces))
    ensures ok <==> Sendable(l.sender) && FieldsAreWhole(pieces)
  {
    var conn := new Socket(pieces);
    var c := new QChatConnection(codec);
    var r := c.HandleConnection(conn);
    assert r.Delivered? ==> c.messageQueue == [r.value];
    var first := c.RecvMessage();
    assert first.Some? ==> [r.value][0] == first.value;
    ok := first == Some(l);
    AcceptedIffWhole(l, codec, pieces);
  }
}
