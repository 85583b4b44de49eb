/** UTF-8, as `bytes(s, 'utf-8')` and `str(b, 'utf-8')` compute it (RFC 3629, section 3). */
module Utf8 {
  import opened Options

  type Byte = n: nat | n < 256

  /** A Unicode scalar value; a Python string that holds surrogates cannot be encoded. */
  type Scalar = c: nat | c < 0xD800 || 0xE000 <= c < 0x110000

  /** A continuation byte with the six low bits of v. */
  function Low(v: nat): Byte {
    0x80 + v % 64
  }

  function EncodeScalar(c: Scalar): (r: seq<Byte>)
    ensures 1 <= |r| <= 4
  {
    if c < 0x80 then [c]
    else if c < 0x800 then [0xC0 + c / 64, Low(c)]
    else if c < 0x10000 then [0xE0 + c / 64 / 64, Low(c / 64), Low(c)]
    else [0xF0 + c / 64 / 64 / 64, Low(c / 64 / 64), Low(c / 64), Low(c)]
  }

  function Encode(s: seq<Scalar>): (r: seq<Byte>)
    ensures |s| <= |r|
  {
    if s == [] then [] else EncodeScalar(s[0]) + Encode(s[1..])
  }

  /** b[k] is there and carries six more bits. */
  predicate Continues(b: seq<Byte>, k: nat) {
    k < |b| && 0x80 <= b[k] < 0xC0
  }

  /** Six more bits after the high part v. */
  function More(v: nat, b: Byte): nat
    requires 0x80 <= b
  {
    v * 64 + (b - 0x80)
  }

  lemma MoreIsDivision(v: nat, b: Byte)
    requires 0x80 <= b < 0xC0
    ensures More(v, b) / 64 == v && Low(More(v, b)) == b
  {
  }

  /** The first character and the number of its bytes. */
  datatype Head = Head(c: Scalar, n: nat)

  /** None for a truncated, overlong or surrogate form and for values above 0x10FFFF. */
  function DecodeHead(b: seq<Byte>): (r: Option<Head>)
    requires b != []
    ensures r.Some? ==> 1 <= r.value.n <= |b|
  {
    if b[0] < 0x80 then Some(Head(b[0], 1))
    else if 0xC0 <= b[0] < 0xE0 && Continues(b, 1) then
      var c := More(b[0] - 0xC0, b[1]);
      if c < 0x80 then None else Some(Head(c, 2))
    else if 0xE0 <= b[0] < 0xF0 && Continues(b, 1) && Continues(b, 2) then
      var c := More(More(b[0] - 0xE0, b[1]), b[2]);
      if c < 0x800 || 0xD800 <= c < 0xE000 then None else Some(Head(c, 3))
    else if 0xF0 <= b[0] < 0xF8 && Continues(b, 1) && Continues(b, 2) && Continues(b, 3) then
      var c := More(More(More(b[0] - 0xF0, b[1]), b[2]), b[3]);
      if c < 0x10000 || 0x110000 <= c then None else Some(Head(c, 4))
    else None
  }

  /** None where Python raises UnicodeDecodeError. */
  function Decode(b: seq<Byte>): Option<seq<Scalar>> {
    if b == [] then Some([])
    else
      match DecodeHead(b)
      case None => None
      case Some(h) =>
        match Decode(b[h.n..])
        case None => None
        case Some(s) => Some([h.c] + s)
  }

  lemma HeadOfEncoded(c: Scalar, rest: seq<Byte>)
    ensures DecodeHead(EncodeScalar(c) + rest) == Some(Head(c, |EncodeScalar(c)|))
  {
    var b := EncodeScalar(c) + rest;
    assert forall k :: 0 <= k < |EncodeScalar(c)| ==> b[k] == EncodeScalar(c)[k];
  }

  lemma EncodingOfHead(b: seq<Byte>)
    requires b != [] && DecodeHead(b).Some?
    ensures EncodeScalar(DecodeHead(b).value.c) == b[..DecodeHead(b).value.n]
  {
    var h := DecodeHead(b).value;
    if h.n == 2 {
      TwoBytes(b[0] - 0xC0, b[1]);
    } else if h.n == 3 {
      ThreeBytes(b[0] - 0xE0, b[1], b[2]);
    } else if h.n == 4 {
      FourBytes(b[0] - 0xF0, b[1], b[2], b[3]);
    }
  }

  lemma TwoBytes(lead: nat, b1: Byte)
    requires lead < 32 && 0x80 <= b1 < 0xC0
    ensures var c := More(lead, b1); c / 64 == lead && Low(c) == b1 && c < 0x800
  {
    MoreIsDivision(lead, b1);
  }

  lemma ThreeBytes(lead: nat, b1: Byte, b2: Byte)
    requires lead < 16 && 0x80 <= b1 < 0xC0 && 0x80 <= b2 < 0xC0
    ensures var c := More(More(lead, b1), b2);
            c / 64 / 64 == lead && Low(c / 64) == b1 && Low(c) == b2 && c < 0x10000
  {
    MoreIsDivision(lead, b1);
    MoreIsDivision(More(lead, b1), b2);
  }

  lemma FourBytes(lead: nat, b1: Byte, b2: Byte, b3: Byte)
    requires 0x80 <= b1 < 0xC0 && 0x80 <= b2 < 0xC0 && 0x80 <= b3 < 0xC0
    ensures var c := More(More(More(lead, b1), b2), b3);
            c / 64 / 64 / 64 == lead && Low(c / 64 / 64) == b1 && Low(c / 64) == b2 && Low(c) == b3
  {
    MoreIsDivision(lead, b1);
    MoreIsDivision(More(lead, b1), b2);
    MoreIsDivision(More(More(lead, b1), b2), b3);
  }

  lemma {:induction false} EncodedIsDecoded(s: seq<Scalar>)
    ensures Decode(Encode(s)) == Some(s)
  {
    if s != [] {
      var e := EncodeScalar(s[0]);
      HeadOfEncoded(s[0], Encode(s[1..]));
      EncodedIsDecoded(s[1..]);
      assert Encode(s)[|e|..] == Encode(s[1..]);
      assert s == [s[0]] + s[1..];
    }
  }

  lemma EncodingOfFirst(b: seq<Byte>, h: Head, s: seq<Scalar>)
    requires b != [] && DecodeHead(b) == Some(h) && Encode(s) == b[h.n..]
    ensures Encode([h.c] + s) == b
  {
    EncodingOfHead(b);
    assert ([h.c] + s)[1..] == s;
  }

  lemma {:induction false} DecodedIsEncoded(b: seq<Byte>)
    requires Decode(b).Some?
    ensures Encode(Decode(b).value) == b
  {
    if b != [] {
      var h := DecodeHead(b).value;
      DecodedIsEncoded(b[h.n..]);
      EncodingOfFirst(b, h, Decode(b[h.n..]).value);
    }
  }

  /** Decoding and encoding are inverse: a text is read from exactly one byte string, its encoding. */
  lemma {:induction false} DecodeInverts(b: seq<Byte>, s: seq<Scalar>)
    ensures Decode(b) == Some(s) <==> b == Encode(s)
  {
    EncodedIsDecoded(s);
    if Decode(b) == Some(s) {
      DecodedIsEncoded(b);
    }
  }

  /** The byte 0 is used for the character 0 and for nothing else. */
  lemma {:induction false} NulIsNul(s: seq<Scalar>)
    ensures 0 in Encode(s) <==> 0 in s
  {
    if s != [] {
      NulIsNul(s[1..]);
      assert s == [s[0]] + s[1..];
      assert 0 in EncodeScalar(s[0]) <==> s[0] == 0;
    }
  }

  /** An ASCII literal as a text. */
  function Characters(s: string): (r: seq<Scalar>)
    requires forall i :: 0 <= i < |s| ==> s[i] < 128 as char
    ensures |r| == |s| && forall i :: 0 <= i < |s| ==> r[i] == s[i] as int
  {
    if s == "" then [] else [s[0] as int] + Characters(s[1..])
  }

  /** ASCII is encoded as itself. */
  lemma {:induction false} AsciiEncodes(s: seq<Scalar>)
    requires forall i :: 0 <= i < |s| ==> s[i] < 128
    ensures |Encode(s)| == |s| && forall i :: 0 <= i < |s| ==> Encode(s)[i] == s[i]
  {
    if s != [] { AsciiEncodes(s[1..]); }
  }

  /** The examples of RFC 3629, section 7, one of each length, and the last character there is. */
  lemma KnownEncodings()
    ensures EncodeScalar(0x41) == [0x41]
    ensures EncodeScalar(0x391) == [0xCE, 0x91]
    ensures EncodeScalar(0x2262) == [0xE2, 0x89, 0xA2]
    ensures EncodeScalar(0xD55C) == [0xED, 0x95, 0x9C]
    ensures EncodeScalar(0x233B4) == [0xF0, 0xA3, 0x8E, 0xB4]
    ensures EncodeScalar(0x10FFFF) == [0xF4, 0x8F, 0xBF, 0xBF]
  {
  }
}
