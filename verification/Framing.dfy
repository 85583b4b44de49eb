/**
 The frame around every message: how qchat/messages.py prints it and how qchat/connection.py reads it back
 from a socket that may deliver it in pieces.
 */
module Framing {
  import opened Options
  import opened Utf8

  const HEADER_LENGTH := 4
  const MAX_SENDER_LENGTH := 16
  const PAYLOAD_SIZE := 4
  const PREFIX := 24   // the three fixed fields
  const SIZE_LIMIT := 0x1_0000_0000

  /** The classes in `MessageFactory.message_mapping`. */
  datatype Header = MSSG | RGST | AUTH | PUTU | GETU | QCHT | BB84 | PTCL | RQQB | SPDS | DQKD

  /** `header`, in ASCII. */
  function Code(h: Header): (r: seq<Byte>)
    ensures |r| == HEADER_LENGTH
  {
    match h
    case MSSG => [77, 83, 83, 71]
    case RGST => [82, 71, 83, 84]
    case AUTH => [65, 85, 84, 72]
    case PUTU => [80, 85, 84, 85]
    case GETU => [71, 69, 84, 85]
    case QCHT => [81, 67, 72, 84]
    case BB84 => [66, 66, 56, 52]
    case PTCL => [80, 84, 67, 76]
    case RQQB => [82, 81, 81, 66]
    case SPDS => [83, 80, 68, 83]
    case DQKD => [68, 81, 75, 68]
  }

  /** `message_mapping[header]` */
  function Lookup(b: seq<Byte>): Option<Header> {
    if b == Code(MSSG) then Some(MSSG)
    else if b == Code(RGST) then Some(RGST)
    else if b == Code(AUTH) then Some(AUTH)
    else if b == Code(PUTU) then Some(PUTU)
    else if b == Code(GETU) then Some(GETU)
    else if b == Code(QCHT) then Some(QCHT)
    else if b == Code(BB84) then Some(BB84)
    else if b == Code(PTCL) then Some(PTCL)
    else if b == Code(RQQB) then Some(RQQB)
    else if b == Code(SPDS) then Some(SPDS)
    else if b == Code(DQKD) then Some(DQKD)
    else None
  }

  lemma LookupInvertsCode(b: seq<Byte>, h: Header)
    ensures Lookup(b) == Some(h) <==> b == Code(h)
  {
  }

  /** The characters of each class's header. */
  function NameOf(h: Header): (r: string)
    ensures |r| == 4 && forall i :: 0 <= i < 4 ==> r[i] < 128 as char
  {
    match h
    case MSSG => "MSSG"
    case RGST => "RGST"
    case AUTH => "AUTH"
    case PUTU => "PUTU"
    case GETU => "GETU"
    case QCHT => "QCHT"
    case BB84 => "BB84"
    case PTCL => "PTCL"
    case RQQB => "RQQB"
    case SPDS => "SPDS"
    case DQKD => "DQKD"
  }

  /** The header of a class is its name. */
  lemma CodeIsName(h: Header)
    ensures forall i :: 0 <= i < 4 ==> Code(h)[i] == NameOf(h)[i] as int
  {
    var n, c := NameOf(h), Code(h);
    assert c[0] == n[0] as int && c[1] == n[1] as int && c[2] == n[2] as int && c[3] == n[3] as int;
  }

  // ----- Printing

  /** `n.to_bytes(4, 'big')` */
  function BigEndian(n: nat): (r: seq<Byte>)
    requires n < SIZE_LIMIT
    ensures |r| == PAYLOAD_SIZE
  {
    [n / 256 / 256 / 256, n / 256 / 256 % 256, n / 256 % 256, n % 256]
  }

  /** `int.from_bytes(b, 'big')` */
  function FromBigEndian(b: seq<Byte>): nat {
    if b == [] then 0 else FromBigEndian(b[..|b| - 1]) * 256 + b[|b| - 1]
  }

  function Nuls(n: nat): (r: seq<Byte>)
    ensures |r| == n
  {
    seq(n, i => 0)
  }

  /** `(b'\x00'*16 + bytes(sender, 'utf-8'))[-16:]` */
  function Padded(sender: seq<Scalar>): (r: seq<Byte>)
    ensures |r| == MAX_SENDER_LENGTH
  {
    var b := Nuls(MAX_SENDER_LENGTH) + Encode(sender);
    b[|b| - MAX_SENDER_LENGTH..]
  }

  datatype Frame = Frame(header: Header, sender: seq<Scalar>, payload: seq<Byte>)

  /** The constructor refuses a sender of more than 16 characters. */
  predicate Constructible(f: Frame) {
    |f.sender| <= MAX_SENDER_LENGTH
  }

  /** `encode_message`, None where `to_bytes` raises OverflowError. */
  function Print(f: Frame): Option<seq<Byte>> {
    if |f.payload| >= SIZE_LIMIT then None
    else Some(Code(f.header) + Padded(f.sender) + BigEndian(|f.payload|) + f.payload)
  }

  // ----- Reading

  /** `padded_sender.replace(b'\x00', b'')` */
  function WithoutNuls(b: seq<Byte>): (r: seq<Byte>)
    ensures 0 !in r && |r| <= |b|
  {
    if b == [] then [] else (if b[0] == 0 then [] else [b[0]]) + WithoutNuls(b[1..])
  }

  /** The exceptions of `_handle_connection`, Malformed being that of the message's constructor. */
  datatype Refusal =
    | IncorrectHeader | IncorrectSenderLength | UndecodableSender | InvalidSender | IncorrectPayloadSize
    | TooShort | TooLong | Malformed

  datatype Outcome<+T> = Delivered(value: T) | Refused(why: Refusal)

  /** The checks on the sender field. */
  function ReadSender(field: seq<Byte>): Outcome<seq<Scalar>> {
    match Decode(WithoutNuls(field))
    case None => Refused(UndecodableSender)
    case Some(s) => if s == [] then Refused(InvalidSender) else Delivered(s)
  }

  /** The length checks on what follows the size field. */
  function CheckLength(f: Frame, declared: nat): Outcome<Frame> {
    if |f.payload| < declared then Refused(TooShort)
    else if |f.payload| > declared then Refused(TooLong)
    else Delivered(f)
  }

  /** Reading a stream of which every `recv` returns as much as it asks for, as long as there is any. */
  function Parse(b: seq<Byte>): Outcome<Frame> {
    if |b| < HEADER_LENGTH || Lookup(b[..4]).None? then Refused(IncorrectHeader)
    else if |b| < 20 then Refused(IncorrectSenderLength)
    else
      var s := ReadSender(b[4..20]);
      if s.Refused? then Refused(s.why)
      else if |b| < PREFIX then Refused(IncorrectPayloadSize)
      else CheckLength(Frame(Lookup(b[..4]).value, s.value, b[24..]), FromBigEndian(b[20..24]))
  }

  // ----- What a socket delivers

  /** A socket whose peer has closed: what has arrived, piece by piece. */
  type Pieces = s: seq<seq<Byte>> | forall p <- s :: p != []

  function Stream(s: seq<seq<Byte>>): seq<Byte> {
    if s == [] then [] else s[0] + Stream(s[1..])
  }

  /** `recv(n)`: at most n bytes of the first piece, nothing at the end. */
  function Taken(s: Pieces, n: nat): seq<Byte> {
    if s == [] then [] else if |s[0]| <= n then s[0] else s[0][..n]
  }

  function Left(s: Pieces, n: nat): Pieces {
    if s == [] then [] else if |s[0]| <= n then s[1..] else [s[0][n..]] + s[1..]
  }

  /** `_handle_connection`, its loop over the payload taken as reading all that is left. */
  function Handle(s: Pieces): Outcome<Frame> {
    var header, s1 := Taken(s, HEADER_LENGTH), Left(s, HEADER_LENGTH);
    if Lookup(header).None? then Refused(IncorrectHeader)
    else
      var sender, s2 := Taken(s1, MAX_SENDER_LENGTH), Left(s1, MAX_SENDER_LENGTH);
      if |sender| != MAX_SENDER_LENGTH then Refused(IncorrectSenderLength)
      else if ReadSender(sender).Refused? then Refused(ReadSender(sender).why)
      else
        var size, s3 := Taken(s2, PAYLOAD_SIZE), Left(s2, PAYLOAD_SIZE);
        if |size| != PAYLOAD_SIZE then Refused(IncorrectPayloadSize)
        else
          CheckLength(Frame(Lookup(header).value, ReadSender(sender).value, Stream(s3)),
                      FromBigEndian(size))
  }

  /** Some piece ends strictly between the positions lo and hi. */
  predicate Cut(s: seq<seq<Byte>>, lo: int, hi: int) {
    s != [] && (lo < |s[0]| < hi || Cut(s[1..], lo - |s[0]|, hi - |s[0]|))
  }

  // ----- Print and parse

  lemma BigEndianInverts(n: nat, b: seq<Byte>)
    requires n < SIZE_LIMIT && |b| == PAYLOAD_SIZE
    ensures FromBigEndian(b) == n <==> b == BigEndian(n)
    ensures FromBigEndian(b) == ((b[0] * 256 + b[1]) * 256 + b[2]) * 256 + b[3] < SIZE_LIMIT
  {
    assert FromBigEndian(b) == FromBigEndian(b[..3]) * 256 + b[3];
    assert b[..3][..2] == b[..2] && FromBigEndian(b[..3]) == FromBigEndian(b[..2]) * 256 + b[2];
    assert b[..2][..1] == b[..1] && FromBigEndian(b[..2]) == FromBigEndian(b[..1]) * 256 + b[1];
    assert b[..1][..0] == [] && FromBigEndian(b[..1]) == b[0];
    assert b == [b[0], b[1], b[2], b[3]];
    FourBytes(b[0], b[1], b[2], b[3], n);
  }

  lemma LastByte(v: nat, b: Byte, n: nat)
    ensures v * 256 + b == n <==> v == n / 256 && b == n % 256
  {
  }

  lemma FourBytes(a: Byte, b: Byte, c: Byte, d: Byte, n: nat)
    requires n < SIZE_LIMIT
    ensures ((a * 256 + b) * 256 + c) * 256 + d == n
       <==> [a, b, c, d] == BigEndian(n)
  {
    LastByte((a * 256 + b) * 256 + c, d, n);
    LastByte(a * 256 + b, c, n / 256);
    LastByte(a, b, n / 256 / 256);
  }

  lemma {:induction false} NoNulsToStrip(b: seq<Byte>)
    requires 0 !in b
    ensures WithoutNuls(b) == b
  {
    if b != [] { NoNulsToStrip(b[1..]); }
  }

  lemma {:induction false} NulsAreStripped(n: nat, b: seq<Byte>)
    requires 0 !in b
    ensures WithoutNuls(Nuls(n) + b) == b
  {
    if n == 0 {
      assert Nuls(0) + b == b;
      NoNulsToStrip(b);
    } else {
      NulsAreStripped(n - 1, b);
      assert (Nuls(n) + b)[1..] == Nuls(n - 1) + b;
    }
  }

  /** The senders that survive: 1 to 16 bytes of UTF-8, without the character 0. */
  predicate Sendable(sender: seq<Scalar>) {
    1 <= |Encode(sender)| <= MAX_SENDER_LENGTH && 0 !in sender
  }

  lemma TailOfConcat(a: seq<Byte>, b: seq<Byte>)
    requires |b| <= |a|
    ensures (a + b)[|b|..] == a[|b|..] + b
  {
  }

  lemma NulsFrom(n: nat, k: nat)
    requires k <= n
    ensures Nuls(n)[k..] == Nuls(n - k)
  {
  }

  lemma PaddedShort(sender: seq<Scalar>)
    requires |Encode(sender)| <= MAX_SENDER_LENGTH
    ensures Padded(sender) == Nuls(MAX_SENDER_LENGTH - |Encode(sender)|) + Encode(sender)
  {
    TailOfConcat(Nuls(MAX_SENDER_LENGTH), Encode(sender));
    NulsFrom(MAX_SENDER_LENGTH, |Encode(sender)|);
  }

  lemma FieldIsRead(field: seq<Byte>, n: nat, e: seq<Byte>)
    requires field == Nuls(n) + e && 0 !in e
    ensures WithoutNuls(field) == e
  {
    NulsAreStripped(n, e);
  }

  lemma ShortSenderIsRead(sender: seq<Scalar>, e: seq<Byte>)
    requires e == Encode(sender) && |e| <= MAX_SENDER_LENGTH && 0 !in e
    ensures WithoutNuls(Padded(sender)) == e
  {
    PaddedShort(sender);
    FieldIsRead(Padded(sender), MAX_SENDER_LENGTH - |e|, e);
  }

  lemma SenderRoundTrip(sender: seq<Scalar>)
    ensures ReadSender(Padded(sender)) == Delivered(sender) <==> Sendable(sender)
  {
    NulIsNul(sender);
    DecodeInverts(WithoutNuls(Padded(sender)), sender);
    if |Encode(sender)| <= MAX_SENDER_LENGTH && 0 !in sender {
      ShortSenderIsRead(sender, Encode(sender));
    }
  }

  /** A frame with a size field of n and any bytes after it. */
  function Labelled(h: Header, sender: seq<Scalar>, n: nat, body: seq<Byte>): seq<Byte>
    requires n < SIZE_LIMIT
  {
    Code(h) + Padded(sender) + BigEndian(n) + body
  }

  lemma FieldsOf(h: Header, sender: seq<Scalar>, n: nat, body: seq<Byte>)
    requires n < SIZE_LIMIT
    ensures |Labelled(h, sender, n, body)| == PREFIX + |body|
    ensures Labelled(h, sender, n, body)[..4] == Code(h)
    ensures Labelled(h, sender, n, body)[4..20] == Padded(sender)
    ensures Labelled(h, sender, n, body)[20..24] == BigEndian(n)
    ensures Labelled(h, sender, n, body)[24..] == body
  {
  }

  /** The length checks pass exactly when the bytes after the size field number what it declares. */
  lemma LengthChecksAreExact(h: Header, sender: seq<Scalar>, n: nat, body: seq<Byte>)
    requires n < SIZE_LIMIT && Sendable(sender)
    ensures Parse(Labelled(h, sender, n, body)) == Delivered(Frame(h, sender, body)) <==> |body| == n
    ensures Parse(Labelled(h, sender, n, body)) == Refused(TooShort) <==> |body| < n
    ensures Parse(Labelled(h, sender, n, body)) == Refused(TooLong) <==> |body| > n
  {
    FieldsOf(h, sender, n, body);
    LookupInvertsCode(Code(h), h);
    SenderRoundTrip(sender);
    BigEndianInverts(n, BigEndian(n));
  }

  /** The sender field: NULs, then the text; of a long text the last 16 bytes. */
  lemma SenderField(sender: seq<Scalar>)
    ensures var e, field := Encode(sender), Padded(sender);
            if |e| <= 16 then
              && field[16 - |e|..] == e && forall i :: 0 <= i < 16 - |e| ==> field[i] == 0
            else field == e[|e| - 16..]
  {
  }

  /** Every byte of a printed frame: name, sender, size, payload. */
  lemma PrintedBytes(f: Frame, b: seq<Byte>)
    requires Print(f) == Some(b)
    ensures |b| == 24 + |f.payload| && b[24..] == f.payload
    ensures forall i :: 0 <= i < 4 ==> b[i] == NameOf(f.header)[i] as int
    ensures var e, field := Encode(f.sender), b[4..20];
            if |e| <= 16 then
              && field[16 - |e|..] == e && forall i :: 0 <= i < 16 - |e| ==> field[i] == 0
            else field == e[|e| - 16..]
    ensures |f.payload| == (((b[20] as int) * 256 + b[21]) * 256 + b[22]) * 256 + b[23]
  {
    var n := |f.payload|;
    assert b == Labelled(f.header, f.sender, n, f.payload);
    FieldsOf(f.header, f.sender, n, f.payload);
    CodeIsName(f.header);
    assert forall i :: 0 <= i < 4 ==> b[i] == b[..4][i];
    SenderField(f.sender);
    BigEndianInverts(n, b[20..24]);
  }

  /** Round trip, with its exact condition: a printed frame is read back unchanged iff its sender is sendable. */
  lemma PrintThenParse(f: Frame)
    requires |f.payload| < SIZE_LIMIT
    ensures Parse(Print(f).value) == Delivered(f) <==> Sendable(f.sender)
  {
    var n := |f.payload|;
    assert Print(f).value == Labelled(f.header, f.sender, n, f.payload);
    FieldsOf(f.header, f.sender, n, f.payload);
    SenderRoundTrip(f.sender);
    if Sendable(f.sender) {
      LengthChecksAreExact(f.header, f.sender, n, f.payload);
    }
  }

  /** A name of n letters e with an acute accent, each of two bytes. */
  function Accented(n: nat): (s: seq<Scalar>)
    ensures |s| == n && 0 !in s
  {
    if n == 0 then [] else [0xE9] + Accented(n - 1)
  }

  lemma OneMoreAccent(n: nat)
    requires n > 0
    ensures Encode(Accented(n)) == [0xC3, 0xA9] + Encode(Accented(n - 1))
  {
    assert Accented(n)[1..] == Accented(n - 1);
    assert EncodeScalar(0xE9) == [0xC3, 0xA9];
  }

  lemma {:induction false} AccentedEncodes(m: nat, n: nat)
    ensures Encode(Accented(m + n)) == Encode(Accented(m)) + Encode(Accented(n))
    ensures |Encode(Accented(m))| == 2 * m
  {
    if m == 0 {
      assert Accented(0 + n) == Accented(n);
    } else {
      AccentedEncodes(m - 1, n);
      OneMoreAccent(m + n);
      OneMoreAccent(m);
    }
  }

  lemma AccentedField(n: nat)
    requires 8 <= n
    ensures |Encode(Accented(n))| == 2 * n && Padded(Accented(n)) == Encode(Accented(8))
  {
    AccentedEncodes(n - 8, 8);
    AccentedEncodes(n, 0);
    AccentedEncodes(8, 0);
    assert (Nuls(MAX_SENDER_LENGTH) + Encode(Accented(n - 8))) + Encode(Accented(8))
        == Nuls(MAX_SENDER_LENGTH) + Encode(Accented(n));
  }

  /** The failing input: a sender of 9 to 16 such letters is accepted and sent, and arrives as one of 8. */
  lemma LongSendersAreCut(f: Frame, n: nat)
    requires f.sender == Accented(n) && 8 < n <= MAX_SENDER_LENGTH && |f.payload| < SIZE_LIMIT
    ensures Constructible(f) && Print(f).Some? && !Sendable(f.sender)
    ensures Parse(Print(f).value) == Delivered(f.(sender := Accented(8))) != Delivered(f)
  {
    AccentedField(n);
    AccentedField(8);
    PrintThenParse(f.(sender := Accented(8)));
  }

  /** Two byte strings that agree but for the sender field. */
  lemma AgreeingFields(b: seq<Byte>, p: seq<Byte>)
    requires |b| >= PREFIX && |p| >= PREFIX
    requires b[..4] == p[..4] && b[20..24] == p[20..24] && b[24..] == p[24..]
    ensures b[20..] == p[20..] && (b == p <==> b[4..20] == p[4..20])
  {
    assert b == b[..4] + b[4..20] + b[20..] && p == p[..4] + p[4..20] + p[20..];
    assert b[20..] == b[20..24] + b[24..] && p[20..] == p[20..24] + p[24..];
  }

  lemma FieldsParsed(b: seq<Byte>, f: Frame)
    requires Parse(b) == Delivered(f)
    ensures |b| >= PREFIX && b[..4] == Code(f.header) && b[24..] == f.payload
    ensures |f.payload| < SIZE_LIMIT && b[20..24] == BigEndian(|f.payload|)
    ensures Encode(f.sender) == WithoutNuls(b[4..20])
  {
    LookupInvertsCode(b[..4], f.header);
    DecodeInverts(WithoutNuls(b[4..20]), f.sender);
    BigEndianInverts(0, b[20..24]);
    BigEndianInverts(|f.payload|, b[20..24]);
  }

  /** The other way round: what is read back prints as the bytes it was read from, the sender field excepted. */
  lemma ParseThenPrint(b: seq<Byte>, f: Frame)
    requires Parse(b) == Delivered(f)
    ensures |b| >= PREFIX && Print(f).Some? && Constructible(f)
    ensures |Print(f).value| >= PREFIX
    ensures Print(f).value[..4] == b[..4] && Print(f).value[20..] == b[20..]
    ensures Print(f).value == b <==> Padded(f.sender) == b[4..20]
  {
    FieldsParsed(b, f);
    FieldsOf(f.header, f.sender, |f.payload|, f.payload);
    AgreeingFields(b, Labelled(f.header, f.sender, |f.payload|, f.payload));
  }

  // ----- Fragmentation

  lemma {:induction false} NoCutBefore(s: Pieces, lo: int, hi: int)
    requires hi <= 0
    ensures !Cut(s, lo, hi)
  {
    if s != [] { NoCutBefore(s[1..], lo - |s[0]|, hi - |s[0]|); }
  }

  /** `recv(n)` returns n bytes iff there are so many and no piece ends among them. */
  lemma TakenInFull(s: Pieces, n: nat)
    requires n > 0
    ensures |Taken(s, n)| == n <==> |Stream(s)| >= n && !Cut(s, 0, n)
    ensures |Taken(s, n)| == n ==> Taken(s, n) == Stream(s)[..n] && Stream(Left(s, n)) == Stream(s)[n..]
  {
    if s != [] {
      if |s[0]| >= n {
        NoCutBefore(s[1..], -|s[0]|, n - |s[0]|);
        FirstPieceSuffices(s, n);
      }
    }
  }

  lemma FirstPieceSuffices(s: Pieces, n: nat)
    requires n > 0 && s != [] && |s[0]| >= n
    ensures |Stream(s)| >= n && Taken(s, n) == Stream(s)[..n] && Stream(Left(s, n)) == Stream(s)[n..]
  {
    var tail := Stream(s[1..]);
    assert (s[0] + tail)[..n] == s[0][..n] && (s[0] + tail)[n..] == s[0][n..] + tail;
    if |s[0]| > n {
      assert Left(s, n)[1..] == s[1..];
    } else {
      assert s[0][..n] == s[0] && s[0][n..] + tail == tail;
    }
  }

  lemma CutsMoveUp(s: Pieces, n: nat, lo: nat, hi: nat)
    requires n > 0 && |Taken(s, n)| == n
    ensures Cut(Left(s, n), lo, hi) == Cut(s, lo + n, hi + n)
  {
    if |s[0]| > n {
      assert Left(s, n)[1..] == s[1..];
      assert lo + n - |s[0]| == lo - |Left(s, n)[0]| && hi + n - |s[0]| == hi - |Left(s, n)[0]|;
    }
  }

  /** No piece ends inside the header, the sender or the size field. */
  predicate FieldsAreWhole(s: seq<seq<Byte>>) {
    !Cut(s, 0, 4) && !Cut(s, 4, 20) && !Cut(s, 20, 24)
  }

  lemma NoHeaderWithoutFourBytes(b: seq<Byte>)
    ensures Lookup(b).Some? ==> |b| == HEADER_LENGTH
  {
  }

  /** The last two fields, in what is left after the header. */
  lemma LaterFieldsAreTaken(s: Pieces)
    ensures |Taken(s, 16)| == 16 && |Taken(Left(s, 16), 4)| == 4
       <==> !Cut(s, 0, 16) && !Cut(s, 16, 20) && |Stream(s)| >= 20
    ensures |Taken(s, 16)| == 16 && |Taken(Left(s, 16), 4)| == 4 ==>
              && Taken(s, 16) == Stream(s)[..16] && Taken(Left(s, 16), 4) == Stream(s)[16..20]
              && Stream(Left(Left(s, 16), 4)) == Stream(s)[20..]
  {
    TakenInFull(s, 16);
    if |Taken(s, 16)| == 16 {
      CutsMoveUp(s, 16, 0, 4);
      TakenInFull(Left(s, 16), 4);
      var b := Stream(s);
      if |b| >= 20 { assert b[16..][..4] == b[16..20] && b[16..][4..] == b[20..]; }
    }
  }

  /** The three fields as `recv` returns them are those of the stream. */
  lemma FieldsAreTaken(s: Pieces)
    ensures FieldsAreWhole(s) && |Stream(s)| >= PREFIX
       <==> |Taken(s, 4)| == 4 && |Taken(Left(s, 4), 16)| == 16 && |Taken(Left(Left(s, 4), 16), 4)| == 4
    ensures FieldsAreWhole(s) && |Stream(s)| >= PREFIX ==>
              && Taken(s, 4) == Stream(s)[..4] && Taken(Left(s, 4), 16) == Stream(s)[4..20]
              && Taken(Left(Left(s, 4), 16), 4) == Stream(s)[20..24]
              && Stream(Left(Left(Left(s, 4), 16), 4)) == Stream(s)[24..]
  {
    TakenInFull(s, 4);
    if |Taken(s, 4)| == 4 {
      var b := Stream(s);
      CutsMoveUp(s, 4, 0, 16);
      CutsMoveUp(s, 4, 16, 20);
      LaterFieldsAreTaken(Left(s, 4));
      if |b| >= 24 {
        assert b[4..][..16] == b[4..20] && b[4..][16..20] == b[20..24] && b[4..][20..] == b[24..];
      }
    }
  }

  /**
   Reading under fragmentation, for every stream and every way it arrives: a frame is delivered iff the same
   bytes in one piece deliver it and none of the three fixed fields is cut. Cuts in the payload do not matter.
   */
  lemma DeliveredIffWhole(s: Pieces, f: Frame)
    ensures Handle(s) == Delivered(f) <==> FieldsAreWhole(s) && Parse(Stream(s)) == Delivered(f)
  {
    FieldsAreTaken(s);
    NoHeaderWithoutFourBytes(Taken(s, 4));
  }

  /** The failing stream: a frame that would be read, arriving with its header in two pieces. */
  lemma CutHeaderIsRefused(f: Frame, b: seq<Byte>, n: nat)
    requires Sendable(f.sender) && Print(f) == Some(b) && 0 < n < HEADER_LENGTH
    ensures |b| >= PREFIX && Stream([b[..n], b[n..]]) == b && Parse(b) == Delivered(f)
    ensures Handle([b[..n], b[n..]]) == Refused(IncorrectHeader)
  {
    FieldsOf(f.header, f.sender, |f.payload|, f.payload);
    PrintThenParse(f);
    var tail := [b[n..]];
    assert [b[..n], b[n..]][1..] == tail && Stream(tail) == b[n..] + [];
    assert b[..n] + (b[n..] + []) == b;
    NoHeaderWithoutFourBytes(b[..n]);
  }

  /** Which streams are refused, and why: the checks in their order. */
  lemma Refusals(b: seq<Byte>)
    ensures Parse(b) == Refused(IncorrectHeader) <==> |b| < 4 || forall h: Header :: b[..4] != Code(h)
    ensures Parse(b) == Refused(IncorrectSenderLength) <==> 4 <= |b| < 20 && exists h: Header :: b[..4] == Code(h)
    ensures |b| >= 20 && (exists h: Header :: b[..4] == Code(h)) ==>
              && (Parse(b) == Refused(InvalidSender) <==> forall i :: 4 <= i < 20 ==> b[i] == 0)
              && (Parse(b) == Refused(UndecodableSender) <==> Decode(WithoutNuls(b[4..20])) == None)
              && (Parse(b) == Refused(IncorrectPayloadSize)
                  <==> |b| < 24 && (exists i :: 4 <= i < 20 && b[i] != 0) && Decode(WithoutNuls(b[4..20])) != None)
  {
    if |b| >= 4 {
      KnownHeader(b[..4]);
      if |b| >= 20 {
        OnlyNuls(b[4..20]);
        assert forall i :: 4 <= i < 20 ==> b[i] == b[4..20][i - 4];
        assert forall i :: 0 <= i < 16 ==> b[4..20][i] == b[i + 4];
        DecodedIsNothing(WithoutNuls(b[4..20]));
      }
    }
  }

  lemma KnownHeader(b: seq<Byte>)
    ensures Lookup(b).Some? <==> exists h: Header :: b == Code(h)
  {
    if Lookup(b).Some? {
      LookupInvertsCode(b, Lookup(b).value);
    }
    forall h: Header | b == Code(h) ensures Lookup(b).Some? { LookupInvertsCode(b, h); }
  }

  lemma {:induction false} OnlyNuls(b: seq<Byte>)
    ensures WithoutNuls(b) == [] <==> forall i :: 0 <= i < |b| ==> b[i] == 0
  {
    if b != [] {
      OnlyNuls(b[1..]);
      assert forall i :: 0 < i < |b| ==> b[i] == b[1..][i - 1];
      assert forall i :: 0 <= i < |b[1..]| ==> b[1..][i] == b[i + 1];
    }
  }

  lemma DecodedIsNothing(b: seq<Byte>)
    ensures Decode(b) == Some([]) <==> b == []
  {
    DecodeInverts(b, []);
  }

  /** A stream with no fixed field cut and none missing is treated as if it came in one piece, refusals included. */
  lemma WholeIsParsed(s: Pieces)
    requires FieldsAreWhole(s) && |Stream(s)| >= PREFIX
    ensures Handle(s) == Parse(Stream(s))
  {
    FieldsAreTaken(s);
  }
}
