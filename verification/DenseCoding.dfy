/**
 Superdense coding (qchat/protocols.py): a byte is cut into four pairs of bits, each pair is carried by one
 EPR pair, and the receiver puts the measured bits together again.
 */
module DenseCoding {
  import opened Qubits

  // ----- Bytes

  /** `2 * p`, as a shift distance. */
  function Twice(p: nat): (d: bv8)
    requires p < 4
    ensures d <= 6
  {
    if p == 0 then 0 else if p == 1 then 2 else if p == 2 then 4 else 6
  }

  function QuarterAt(b: bv8, p: nat): Quarter
    requires p < 4
  {
    Quarter((b >> (Twice(p) + 1)) & 1 == 1, (b >> Twice(p)) & 1 == 1)
  }

  function AsBit(b: bool): bv8 {
    if b then 1 else 0
  }

  /** `b |= (b2 << 2*p); b |= (b1 << (2*p + 1))` */
  function Stored(b: bv8, p: nat, q: Quarter): bv8
    requires p < 4
  {
    (b | (AsBit(q.b2) << Twice(p))) | (AsBit(q.b1) << (Twice(p) + 1))
  }

  /** The 2p low bits of a byte. */
  function Low(b: bv8, p: nat): bv8
    requires p <= 4
  {
    b & (if p == 0 then 0 else if p == 1 then 3 else if p == 2 then 15 else if p == 3 then 63 else 255)
  }

  /** The two bits of quarter p are bits 2p (the second) and 2p + 1 (the first) of the byte. */
  lemma QuarterBits(b: bv8)
    ensures QuarterAt(b, 0) == Quarter(b & 2 != 0, b & 1 != 0)
    ensures QuarterAt(b, 1) == Quarter(b & 8 != 0, b & 4 != 0)
    ensures QuarterAt(b, 2) == Quarter(b & 32 != 0, b & 16 != 0)
    ensures QuarterAt(b, 3) == Quarter(b & 128 != 0, b & 64 != 0)
  {
  }

  lemma StoringExtends(b: bv8, p: nat)
    requires p < 4
    ensures Stored(Low(b, p), p, QuarterAt(b, p)) == Low(b, p + 1)
    ensures Low(b, 0) == 0 && Low(b, 4) == b
  {
  }

  // ----- The two message loops

  /** The control messages; all but the invitation are of class SPDSMessage. */
  datatype Signal =
    | Invitation          // PTCL, {"name"}
    | Accepted            // {"ACK": "ACK"}
    | Length(n: nat)      // {"message_length"}
    | Ack(ok: bool)       // {"ack"}
    | Fin(ok: bool)       // {"FIN"}
}
