/** Messages as values, and their way into bytes and back (qchat/messages.py). */
module Letters {
  import opened Options
  import opened Utf8
  import opened Framing
  import opened MessageData

  /** `json.dumps` and `json.loads` with the text encoding around them. */
  datatype Codec = Codec(dumps: seq<Entry> -> seq<Byte>, loads: seq<Byte> -> Option<seq<Entry>>)

  /** What is assumed of JSON: every dictionary comes back, its order included. */
  ghost predicate Faithful(c: Codec) {
    forall d :: IsDict(d) ==> c.loads(c.dumps(d)) == Some(d)
  }

  /** A message as a value. */
  datatype Letter = Letter(header: Header, sender: seq<Scalar>, data: seq<Entry>)

  /** `encode_message` */
  function Encoded(l: Letter, c: Codec): Option<seq<Byte>> {
    Print(Frame(l.header, l.sender, c.dumps(l.data)))
  }

  /** `create_message`, None where the constructor raises MalformedMessage. */
  function Constructed(f: Frame, c: Codec): Option<Letter> {
    if !Constructible(f) then None
    else
      match c.loads(f.payload)
      case None => None
      case Some(d) => Some(Letter(f.header, f.sender, d))
  }

  /** A frame that is read becomes a message, unless its payload is malformed. */
  function Built(r: Outcome<Frame>, c: Codec): Outcome<Letter> {
    match r
    case Refused(why) => Refused(why)
    case Delivered(f) =>
      match Constructed(f, c)
      case None => Refused(Malformed)
      case Some(l) => Delivered(l)
  }

  /** What becomes of a stream that arrives in one piece. */
  function Received(b: seq<Byte>, c: Codec): Outcome<Letter> {
    Built(Parse(b), c)
  }

  /** A letter arrives as it was sent iff its sender is sendable. */
  lemma LettersArrive(l: Letter, c: Codec)
    requires Faithful(c) && IsDict(l.data) && |l.sender| <= MAX_SENDER_LENGTH && Encoded(l, c).Some?
    ensures Received(Encoded(l, c).value, c) == Delivered(l) <==> Sendable(l.sender)
  {
    var f := Frame(l.header, l.sender, c.dumps(l.data));
    PrintThenParse(f);
    var r := Parse(Encoded(l, c).value);
    if r.Delivered? && r != Delivered(f) {
      FieldsParsed(Encoded(l, c).value, r.value);
      FieldsOf(f.header, f.sender, |f.payload|, f.payload);
      LookupInvertsCode(Code(f.header), r.value.header);
      LookupInvertsCode(Code(f.header), f.header);
    }
  }

  /** Different data encode to different bytes. */
  lemma EncodingIsFaithful(l: Letter, d: seq<Entry>, c: Codec)
    requires Faithful(c) && IsDict(l.data) && IsDict(d) && Encoded(l, c).Some?
    ensures Encoded(l.(data := d), c) == Encoded(l, c) <==> d == l.data
  {
    FieldsOf(l.header, l.sender, |c.dumps(l.data)|, c.dumps(l.data));
    if Encoded(l.(data := d), c) == Encoded(l, c) {
      FieldsOf(l.header, l.sender, |c.dumps(d)|, c.dumps(d));
      assert c.dumps(d) == c.dumps(l.data);
      assert c.loads(c.dumps(d)) == Some(d) && c.loads(c.dumps(l.data)) == Some(l.data);
    }
  }
}
