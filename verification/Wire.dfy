/** The control messages of the protocols: a message class and the one data field that is read from it. */
module Wire {
  import opened Bits

  /** The message classes, by header (qchat/messages.py). */
  datatype Kind = PTCL | BB84 | DQKD | SPDS

  datatype Protocol = Bb84 | Diqkd

  datatype Body =
    | Proposal(name: Protocol, keySize: nat)     // {"name", "key_size"}
    | Accept                                     // {"ACK": "ACK"}
    | Ack(ok: bool)                              // {"ack"}
    | Bases(theta: seq<nat>)                     // {"theta"}
    | TestIndices(indices: seq<nat>)             // {"test_indices"}
    | TestBits(bits: Bits)                       // {"test_bits"}
    | Fin(ok: bool)                              // {"fin"}
    | TestSet(T: seq<nat>)                       // {"T"}
    | TestOutcomes(xT: Bits)                     // {"x_T"}
    | SyndromeOf(s: Bits)                        // {"s"}
    | SeedAndTag(seed: nat, tag: nat)            // {"Y", "T"}
    | Finish(ok: bool)                           // {"FIN"}

  datatype Message = Message(kind: Kind, body: Body)
}
