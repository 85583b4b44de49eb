/** Signing, stripping and verifying messages (qchat/core.py). */
module Signing {
  import opened Options
  import opened Utf8
  import opened Framing
  import opened MessageData
  import opened Letters

  /** The data once the signature of b has been stored in it. */
  function WithSignature(d: seq<Entry>, signature: seq<Byte>): seq<Entry> {
    Put(d, SIG, Text(FromLatin1(signature)))
  }

  /** `_sign_message`, None where `encode_message` raises. */
  function Signed(l: Letter, c: Codec, sign: seq<Byte> -> seq<Byte>): Option<Letter> {
    match Encoded(l, c)
    case None => None
    case Some(b) => Some(l.(data := WithSignature(l.data, sign(b))))
  }

  datatype Opened = Opened(letter: Letter, signature: seq<Byte>)

  /** `_strip_signature`, None where the key is missing, its value not a string, or not ISO-8859-1. */
  function Stripped(l: Letter): Option<Opened> {
    match Get(l.data, SIG)
    case Some(Text(s)) =>
      (match ToLatin1(s)
       case None => None
       case Some(b) => Some(Opened(l.(data := Remove(l.data, SIG)), b)))
    case _ => None
  }

  /** The class attribute `verify`; these classes also strip. */
  predicate Verifies(h: Header) {
    h == QCHT || h == PTCL || h == BB84 || h == DQKD || h == SPDS
  }

  /** The class attribute `strip`. */
  predicate Strips(h: Header) {
    Verifies(h) || h == GETU || h == PUTU
  }

  /**
   The keys of other users: whether a sender's key is known, at the latest once the registry has been
   asked, and the verification of data and signature with that key.
   */
  datatype Keys = Keys(knows: seq<Scalar> -> bool, verify: (seq<Scalar>, seq<Byte>, seq<Byte>) -> bool)

  /** A signature scheme under which the sender's signatures verify, and only for the data they were made of. */
  ghost predicate Honest(keys: Keys, sender: seq<Scalar>, sign: seq<Byte> -> seq<Byte>) {
    forall b, b' :: keys.verify(sender, b', sign(b)) <==> b' == b
  }

  /** `"*"`, the name under which all users are asked for: the request for it does not wait for an answer. */
  const EVERYBODY: seq<Scalar> := [42]

  /** `process_message` up to the handler: the message the handler gets, None if an exception keeps it away. */
  function Processed(l: Letter, c: Codec, keys: Keys, allowInvalid: bool): Option<Letter> {
    if !Strips(l.header) then Some(l)
    else if Verifies(l.header) && !keys.knows(l.sender) && l.sender != EVERYBODY then None
    else
      match Stripped(l)
      case None => None
      case Some(o) =>
        if !Verifies(l.header) || allowInvalid then Some(o.letter)
        else
          match Encoded(o.letter, c)
          case None => None
          case Some(b) =>
            if keys.knows(l.sender) && keys.verify(l.sender, b, o.signature) then Some(o.letter) else None
  }

  // ----- In place, as the source does it

  class Message {
    const header: Header
    const sender: seq<Scalar>
    var data: seq<Entry>

    ghost predicate Valid()
      reads this
    {
      IsDict(data) && |sender| <= MAX_SENDER_LENGTH
    }

    function Value(): Letter
      reads this
    {
      Letter(header, sender, data)
    }

    constructor (header: Header, sender: seq<Scalar>, data: seq<Entry>)
      requires IsDict(data) && |sender| <= MAX_SENDER_LENGTH
      ensures Valid() && Value() == Letter(header, sender, data)
    {
      this.header, this.sender, this.data := header, sender, data;
    }
  }

  class Core {
    const codec: Codec
    const signer: seq<Byte> -> seq<Byte>
    const keys: Keys
    const allowInvalid: bool

    constructor (codec: Codec, signer: seq<Byte> -> seq<Byte>, keys: Keys, allowInvalid: bool)
      ensures this.codec == codec && this.signer == signer && this.keys == keys
      ensures this.allowInvalid == allowInvalid
    {
      this.codec, this.signer, this.keys, this.allowInvalid := codec, signer, keys, allowInvalid;
    }

    method SignMessage(m: Message) returns (ok: bool)
      requires m.Valid()
      modifies m
      ensures m.Valid()
      ensures ok <==> Signed(old(m.Value()), codec, signer).Some?
      ensures m.Value() == if ok then Signed(old(m.Value()), codec, signer).value else old(m.Value())
    {
      var b := Encoded(m.Value(), codec);
      ok := b.Some?;
      if ok {
        var sig := signer(b.value);
        PutKeepsDict(m.data, SIG, Text(FromLatin1(sig)));
        m.data := Put(m.data, SIG, Text(FromLatin1(sig)));
      }
    }

    /** The entry is gone even if its value then turns out to be no signature. */
    method StripSignature(m: Message) returns (signature: Option<seq<Byte>>)
      requires m.Valid()
      modifies m
      ensures m.Valid() && m.data == Remove(old(m.data), SIG)
      ensures var o := Stripped(old(m.Value()));
              if o.None? then signature == None else signature == Some(o.value.signature) && m.Value() == o.value.letter
    {
      var v := Get(m.data, SIG);
      RemoveKeepsDict(m.data, SIG);
      m.data := Remove(m.data, SIG);
      signature := if v.Some? && v.value.Text? then ToLatin1(v.value.chars) else None;
    }

    /**
     The signature is checked against the encoding of the message as it now is. A signature made honestly
     is accepted exactly if the sender's key is known and these are the bytes it was made of.
     */
    method VerifyMessage(m: Message, signature: seq<Byte>) returns (ok: bool)
      ensures forall sign: seq<Byte> -> seq<Byte>, b: seq<Byte> ::
                Honest(keys, m.sender, sign) && sign(b) == signature
                ==> (ok <==> keys.knows(m.sender) && Encoded(m.Value(), codec) == Some(b))
      ensures var b := Encoded(m.Value(), codec);
              ok <==> b.Some? && keys.knows(m.sender) && keys.verify(m.sender, b.value, signature)
    {
      var data := Encoded(m.Value(), codec);
      ok := data.Some? && keys.knows(m.sender) && keys.verify(m.sender, data.value, signature);
    }

    /** ok: m is passed to its handler, in the state it then has. */
    method ProcessMessage(m: Message) returns (ok: bool)
      requires m.Valid()
      modifies m
      ensures m.Valid()
      ensures ok <==> Processed(old(m.Value()), codec, keys, allowInvalid).Some?
      ensures ok ==> Some(m.Value()) == Processed(old(m.Value()), codec, keys, allowInvalid)
    {
      ok := true;
      if Verifies(m.header) {
        if !keys.knows(m.sender) && m.sender != EVERYBODY { return false; }
        var signature := StripSignature(m);
        ok := signature.Some?;
        if ok && !allowInvalid { ok := VerifyMessage(m, signature.value); }
      } else if Strips(m.header) {
        var signature := StripSignature(m);
        ok := signature.Some?;
      }
    }
  }

  // ----- What the receiver rebuilds

  lemma SignedIsStripped(l: Letter, signature: seq<Byte>)
    requires IsDict(l.data)
    ensures Stripped(l.(data := WithSignature(l.data, signature)))
         == Some(Opened(l.(data := Remove(l.data, SIG)), signature))
  {
    PutKeepsDict(l.data, SIG, Text(FromLatin1(signature)));
    Latin1RoundTrip(signature);
    RemoveOfPut(l.data, SIG, Text(FromLatin1(signature)));
  }

  /**
   The receiver rebuilds the signed bytes. A signed letter that is sent, received and stripped yields the
   signature made; encoding it again gives the bytes that were signed iff the data had no "sig" of its own.
   */
  lemma SignedBytesAreReproduced(l: Letter, c: Codec, sign: seq<Byte> -> seq<Byte>) returns (o: Opened)
    requires Faithful(c) && IsDict(l.data) && Sendable(l.sender)
    requires Signed(l, c, sign).Some? && Encoded(Signed(l, c, sign).value, c).Some?
    ensures Received(Encoded(Signed(l, c, sign).value, c).value, c) == Delivered(Signed(l, c, sign).value)
    ensures Stripped(Signed(l, c, sign).value) == Some(o)
    ensures o.signature == sign(Encoded(l, c).value)
    ensures Encoded(o.letter, c) == Encoded(l, c) <==> !Has(l.data, SIG)
    ensures o.letter == l <==> !Has(l.data, SIG)
  {
    var signature := sign(Encoded(l, c).value);
    PutKeepsDict(l.data, SIG, Text(FromLatin1(signature)));
    LettersArrive(Signed(l, c, sign).value, c);
    SignedIsStripped(l, signature);
    RemoveKeepsDict(l.data, SIG);
    EncodingIsFaithful(l, Remove(l.data, SIG), c);
    o := Opened(l.(data := Remove(l.data, SIG)), signature);
  }

  /**
   End to end for the verified classes: what an honest peer signs and sends reaches the handler exactly as it
   was before signing iff its key can be had and its data had no "sig"; otherwise the handler never sees it.
   */
  lemma {:induction false} HonestMessagesAreAccepted(l: Letter, c: Codec, sign: seq<Byte> -> seq<Byte>, keys: Keys)
    requires Faithful(c) && IsDict(l.data) && Sendable(l.sender)
    requires Signed(l, c, sign).Some? && Encoded(Signed(l, c, sign).value, c).Some?
    requires Verifies(l.header) && Honest(keys, l.sender, sign)
    ensures Received(Encoded(Signed(l, c, sign).value, c).value, c) == Delivered(Signed(l, c, sign).value)
    ensures Processed(Signed(l, c, sign).value, c, keys, false)
         == if keys.knows(l.sender) && !Has(l.data, SIG) then Some(l) else None
  {
    var o := SignedBytesAreReproduced(l, c, sign);
  }

  /** A chat message whose data has an entry "sig" of its own. */
  function Overlapping(): Letter {
    Letter(QCHT, [97], [Entry(SIG, Text([]))])
  }

  /** The failing input: the code signs and sends such a message, and every honest verifier rejects it. */
  lemma OwnSigIsRejected(c: Codec, sign: seq<Byte> -> seq<Byte>, keys: Keys)
    requires Faithful(c) && Honest(keys, Overlapping().sender, sign)
    requires Signed(Overlapping(), c, sign).Some? && Encoded(Signed(Overlapping(), c, sign).value, c).Some?
    ensures Sendable(Overlapping().sender) && IsDict(Overlapping().data) && Verifies(Overlapping().header)
    ensures Received(Encoded(Signed(Overlapping(), c, sign).value, c).value, c)
         == Delivered(Signed(Overlapping(), c, sign).value)
    ensures Processed(Signed(Overlapping(), c, sign).value, c, keys, false) == None
  {
    assert Encode([97]) == [97];
    HonestMessagesAreAccepted(Overlapping(), c, sign, keys);
  }

  /** What a message is after its signature has been taken off: all other entries are as they were. */
  lemma StrippingKeepsTheRest(l: Letter, k: seq<Scalar>)
    requires IsDict(l.data) && Stripped(l).Some?
    ensures var h := Stripped(l).value.letter;
            && h.header == l.header && h.sender == l.sender && IsDict(h.data)
            && Get(h.data, k) == if k == SIG then None else Get(l.data, k)
  {
    RemoveKeepsDict(l.data, SIG);
    EntriesAfterRemove(l.data, SIG, k);
  }

  /**
   A message of the five signed classes reaches its handler iff its sender's key can be had and there is
   a signature in it that verifies, for this sender, the encoding of the rest.
   */
  lemma HandledIffVerified(l: Letter, c: Codec, keys: Keys)
    requires l.header in {QCHT, PTCL, BB84, DQKD, SPDS} && IsDict(l.data)
    ensures Processed(l, c, keys, false).Some?
       <==> keys.knows(l.sender) && Stripped(l).Some? && var o := Stripped(l).value;
              Encoded(o.letter, c).Some? && keys.verify(l.sender, Encoded(o.letter, c).value, o.signature)
    ensures Stripped(l).Some? <==> exists signature :: Get(l.data, SIG) == Some(Text(FromLatin1(signature)))
    ensures Stripped(l).Some? ==> Get(l.data, SIG) == Some(Text(FromLatin1(Stripped(l).value.signature)))
  {
    StrippedIff(l);
  }

  /**
   Where invalid signatures are allowed, a message of these classes needs only some signature and a sender who
   is known or goes by the name "*".
   */
  lemma LenientlyHandledIff(l: Letter, c: Codec, keys: Keys)
    requires Verifies(l.header) && IsDict(l.data)
    ensures Processed(l, c, keys, true).Some?
       <==> (keys.knows(l.sender) || l.sender == EVERYBODY)
            && exists signature :: Get(l.data, SIG) == Some(Text(FromLatin1(signature)))
    ensures Processed(l, c, keys, true).Some? ==> WithoutSignature(l, Processed(l, c, keys, true).value)
  {
    StrippedIff(l);
    if Stripped(l).Some? { StrippingTakesSignature(l); }
  }

  /** h is l without the entry "sig", every other entry unchanged. */
  ghost predicate WithoutSignature(l: Letter, h: Letter) {
    && h.header == l.header && h.sender == l.sender && IsDict(h.data) && !Has(h.data, SIG)
    && forall k :: k != SIG ==> Get(h.data, k) == Get(l.data, k)
  }

  lemma StrippingTakesSignature(l: Letter)
    requires IsDict(l.data) && Stripped(l).Some?
    ensures WithoutSignature(l, Stripped(l).value.letter)
  {
    var h := Stripped(l).value.letter;
    forall k ensures Get(h.data, k) == if k == SIG then None else Get(l.data, k) { StrippingKeepsTheRest(l, k); }
    StrippingKeepsTheRest(l, SIG);
    assert Get(h.data, SIG) == None;
  }

  /** What the handler gets is the received message without its signature, all other entries unchanged. */
  lemma HandledMessagesAreVerified(l: Letter, c: Codec, keys: Keys)
    requires l.header in {QCHT, PTCL, BB84, DQKD, SPDS} && IsDict(l.data)
    requires Processed(l, c, keys, false).Some?
    ensures var h := Processed(l, c, keys, false).value;
            && WithoutSignature(l, h)
            && Encoded(h, c).Some? && keys.verify(l.sender, Encoded(h, c).value, Stripped(l).value.signature)
  {
    StrippingTakesSignature(l);
  }

  /**
   Messages that are stripped and not verified reach their handler, whatever the keys, iff there is a signature
   to take off, and then without it, every other entry as it was.
   */
  lemma StrippedMessages(l: Letter, c: Codec, keys: Keys, allowInvalid: bool)
    requires l.header in {GETU, PUTU} && IsDict(l.data)
    ensures Processed(l, c, keys, allowInvalid).Some?
       <==> exists signature :: Get(l.data, SIG) == Some(Text(FromLatin1(signature)))
    ensures Processed(l, c, keys, allowInvalid).Some? ==>
              WithoutSignature(l, Processed(l, c, keys, allowInvalid).value)
  {
    StrippedIff(l);
    if Stripped(l).Some? { StrippingTakesSignature(l); }
  }

  /** A signature can be taken off iff the entry "sig" is a text of ISO-8859-1. */
  lemma StrippedIff(l: Letter)
    ensures Stripped(l).Some? <==> exists signature :: Get(l.data, SIG) == Some(Text(FromLatin1(signature)))
    ensures Stripped(l).Some? ==> Get(l.data, SIG) == Some(Text(FromLatin1(Stripped(l).value.signature)))
  {
    if Stripped(l).Some? {
      FromToLatin1(Get(l.data, SIG).value.chars);
    }
    forall signature | Get(l.data, SIG) == Some(Text(FromLatin1(signature))) ensures Stripped(l).Some? {
      Latin1RoundTrip(signature);
    }
  }

  /** All other messages reach their handler as they are. */
  lemma PlainMessages(l: Letter, c: Codec, keys: Keys, allowInvalid: bool)
    requires l.header in {MSSG, RGST, AUTH, RQQB}
    ensures Processed(l, c, keys, allowInvalid) == Some(l)
  {
  }

  /** The key of the signature and the name for all users, as they are spelled in the source. */
  lemma Names()
    ensures SIG == Characters("sig") && EVERYBODY == Characters("*")
  {
  }
}
