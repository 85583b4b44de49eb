# QChat in Dafny

A model of the two-party protocols of QChat and proofs about them: the Golay code and its syndrome table, the
BB84 and DIQKD key agreements as systems of two communicating processes, superdense coding, the message frame
with its reader, and signing. `dafny verify dfyconfig.toml` checks everything.

## What is modelled

**Coding theory.** `Bits`, `GolayCode` and `GolayDecoding` hold the parity-check matrix, syndromes, the minimum
distance 7, the three nested loops that fill the table, and the perfect-code argument: 2048 light patterns, all
under different syndromes, and no more than 2048 syndromes. `Reconciliation` lifts decoding to strings.

**One round.** `Sampling` has the loops that keep matching outcomes and move test bits by `x.pop(index)`,
`EprTest` the comprehensions of the device-independent test, `EprVerdict` what they decide, said without them,
`Extraction` the key byte and its tag.

**Key agreement.** `Wire` and `KeyProtocol` are the state machine of both protocols: two parties, a channel in each
direction, bases, outcomes, test indices, test sets and seeds drawn freely. A party runs from one blocking wait to
the next in one step. `Peer` is the same party as an object that updates its fields and queues in place; each of its
methods is proved to be that step, and `Session` connects two of them, so that every delivery between the objects is
a step of the system. `Lockstep` has the relational invariant, deadlock freedom and the exchanges, `Ordering` which
runs over reordering channels go wrong, `Moves` the effect of an exchange in seven kinds and one induction principle
over exchanges, `ErrorRate`, `Rounds`, `Agreement`, `Accounts`, `Termination` and `Noiseless` what follows for whole
runs, `Disagreement` a run whose keys differ. A `History` that no party reads records distilled bits, reconciliation
passes and amplification rounds.

**Superdense coding.** `Qubits` is the two-qubit model (integer amplitudes up to a positive factor), `DenseCoding`
the bit slicing of a byte, `DenseLoops` the two message loops, `DenseTransfer` the whole transfer as a system of
two processes with channels in any order, pairs in flight, and all interleavings, `DenseScripts` what ties the two
views together.

**Messages.** `Utf8` and `Framing` print and parse frames, `Connection` reads them from a socket that delivers
pieces and queues the messages made of them (`Letters`), `MessageData` and `Signing` are the ordered dictionaries,
signing, stripping and verification.

## Main results

- The table is complete and no entry is written twice, so decoding never misses and returns the only word with
  the requested syndrome within distance 3. Reconciled strings agree iff their codewords differed in at most 3 places.
- Lockstep: whatever is measured and drawn, in either protocol, nobody meets a wrong message or a missing field,
  nobody waits forever, and both end together. BB84 does not need ordered channels. DIQKD does, for every key but
  the empty one: a run over reordering channels is an ordered one iff the follower never fails, and failing runs exist.
- Rounds: in any run both parties test the same qubits and keep the others measured in matching bases, and a round
  adds exactly these bits to both lists, or none, by a test stated on the outcomes measured: the error rate in BB84,
  the CHSH game and the same-basis rounds in DIQKD.
- Keys: equal, of length `key_size` and without a rejected round wherever codewords are close; in any run, byte by
  byte, wherever the input blocks agreed, or the second input byte agreed under an odd seed. That an accepted tag
  proves the key byte is true for the seeds 0 and 1 only, since noise may reach both input bytes; for parties that
  share the second byte it is true for 0 and all odd seeds. There is a run that ends with two different keys.
- No distilled bit is lost or used twice; buffers stay within 97 and 107 bits; with close codewords and rounds
  that yield something every run is finite, with an explicit bound, and ends in agreement.
- Every superdense transfer of n bytes takes exactly 28n + 6 steps in any interleaving and delivers the n bytes.
- A frame is read back unchanged iff its sender is 1 to 16 bytes of UTF-8 without NUL and no piece ends inside one of
  the three fixed fields; cuts in the payload do not matter. Longer senders that the code accepts arrive cut.
- The receiver rebuilds the signed bytes iff the data had no `sig` of its own.

## Assumptions

- One protocol run per pair of peers, control queues empty at the start, no message lost, no timeout. Channels keep
  the order for DIQKD; for BB84 and superdense coding they may reorder.
- The leader's draws are those its code can make (`KeyProtocol.Fair`): indices in range for `pop`, a sample of half
  the positions without repetition, a seed below 256.
- Ratios of floats are compared exactly: the round is discarded when `23 * errors >= 3 * test bits`; the CHSH bound
  is 0.7535533905932738, the matching bound 0.9. The counts are at most 50, so rounding decides no case.
- `set(range(n)) - set(T)` is iterated in ascending order by both roles.
- A division by zero in the EPR test (no game round or no matching round) ends the run like a failed test; it is
  proved that both roles meet it together.
- DIQKD bases are drawn qubit by qubit instead of up front, and range over all naturals instead of 0 to 2; only what a
  round decides is stated for 0 to 2.
- JSON is a codec that gives every dictionary back in its order (`Letters.Faithful`); a signature scheme is an
  abstract pair, ideal where a lemma says `Honest`. Which senders' keys are known, at the latest once the registry has
  answered or its time is up, is a parameter (`Signing.Keys`).
- The peer closes its socket after sending, as `send_message` does.

## Where the code and its comments differ

The model follows the code.

- The comment in `distill_tested_data` says that too high an error rate aborts the protocol
  (qchat/protocols.py:410-412); the code discards the round and goes on.
- `_wait_for_control_message` announces the newest message (qchat/protocols.py:104-105); it takes the oldest.
- `_estimate_error_rate` documents a parameter for the number of test bits (qchat/protocols.py:255-256); the number
  is 25, or fewer if the list is shorter.
- `BB84_Purified` promises 1200 qubits for a 16 byte key without noise (qchat/protocols.py:184); the code fixes no
  such number, as rounds can even yield nothing.
- `encode_message` (qchat/messages.py:57) cuts a sender of more than 16 bytes of UTF-8 without an error; only more
  than 16 characters are refused (qchat/messages.py:25-26).

## Model

| member | source | states |
|---|---|---|
| `GolayCode.OddIsParity` | qchat/ecc.py:23-34 | The modulo-2 sum of a syndrome entry is the parity of the number of ones. |
| `GolayCode.SyndromeEntry` | qchat/ecc.py:33-34 | Entry i of a syndrome is the parity of the number of ones that the word has where row i of the matrix has them. |
| `GolayCode.MatrixIsTheSource` | qchat/ecc.py:5-15 | The matrix has the rows of the source, written out as text. |
| `GolayCode.SyndromeIsLinear` | qchat/ecc.py:23-34 | The syndrome of a sum of words is the sum of their syndromes. |
| `GolayCode.MinimumWeight` | qchat/ecc.py:5-15 | Every nonzero word with a zero syndrome has at least 7 ones. |
| `GolayCode.MinimumDistance` | qchat/ecc.py:5-15 | Words with one syndrome that differ in at most 6 places are equal. |
| `GolayDecoding.EVect` | qchat/ecc.py:37-49 | One 1, at the given position counted from the end. |
| `GolayDecoding.AddTriples` | qchat/ecc.py:127-132 | The innermost loop enters exactly the enumerated patterns, in their order. |
| `GolayDecoding.AddPairs` | qchat/ecc.py:120-132 | The middle loop, likewise. |
| `GolayDecoding.BuildTable` | qchat/ecc.py:102-132 | The constructor's loops build the table of all patterns; it has 2048 entries, one for each 11-bit syndrome, each of weight at most 3 and with its key as syndrome. |
| `GolayDecoding.EnumerateAdds` | qchat/ecc.py:114-132 | The nested loops never produce a pattern twice, and produce as many as there are subsets. |
| `GolayDecoding.LightSyndromesDiffer` | qchat/ecc.py:102-132 | No two patterns of weight at most 3 have one syndrome. |
| `GolayDecoding.TableOfIsFaithful` | qchat/ecc.py:114-132 | No entry is overwritten: as many entries as patterns, each under its own syndrome. |
| `GolayDecoding.TableHasAllKeys` | qchat/ecc.py:102-132 | 2048 entries leave out no syndrome. |
| `GolayDecoding.TableIsPerfect` | qchat/ecc.py:102-132 | The table of the source is complete and right. |
| `GolayDecoding.PerfectCode` | qchat/ecc.py:102-132 | Every syndrome has a pattern of weight at most 3. |
| `GolayDecoding.CorrectedIsNear` | qchat/ecc.py:80-96 | The decoded word has the requested syndrome and lies within distance 3. |
| `GolayDecoding.CorrectedIsUnique` | qchat/ecc.py:80-96 | It is the only such word: a peer's word within distance 3 is recovered from its syndrome. |
| `GolayDecoding.CorrectedIff` | qchat/ecc.py:80-96 | A peer's word is recovered iff it lies within distance 3; otherwise the result differs from it in at least 7 places. |
| `Reconciliation.ChunkAt` | qchat/ecc.py:59-67 | Chunk i is the slice that starts at 23 i, and there are as many chunks as the length asks for. |
| `Reconciliation.DecodeIsTotal` | qchat/ecc.py:80-96 | With the source's table, decoding raises no KeyError and returns the corrected word. |
| `Reconciliation.Correct` | qchat/ecc.py:80-96 | Decoding one codeword, by table lookup. |
| `Reconciliation.StringIsCorrected` | qchat/protocols.py:322-345 | For strings of any length, decoding one with the other's syndromes gives the other iff aligned codewords differ in at most 3 places. |
| `Reconciliation.CodewordIsCorrected` | qchat/protocols.py:322-345 | Exactly the codewords that differ in more than 3 places stay wrong, and they then differ in at least 7. |
| `Reconciliation.LeaderIsLossless` | qchat/protocols.py:319-345 | Decoding with one's own syndromes changes nothing; less than a codeword remains. |
| `Reconciliation.ReconcileInformation` | qchat/protocols.py:311-345 | The loop over codewords returns all corrected codewords and the remainder: the leader loses nothing, and the follower has the bits of the string whose syndromes it received iff codewords were close. |
| `Sampling.FilterTheta` | qchat/protocols.py:241-248 | The loop keeps the outcomes at exactly the positions at which the bases agree, as far as all three lists go, in their order. |
| `Sampling.FilteredSifts` | qchat/protocols.py:241-248 | The same for the function that the parties of the state machine use. |
| `Sampling.MatchingMirrors` | qchat/protocols.py:227-248 | Peers with mirrored bases keep equally many outcomes, the same ones if outcomes agree where bases do. |
| `Sampling.PickTestBits` | qchat/protocols.py:264-272 | The leader's loop splits the list as popping its indices in turn does. |
| `Sampling.ReplayTestBits` | qchat/protocols.py:280-287 | The follower's replay fails exactly on an IndexError and otherwise splits its list by the same indices. |
| `Sampling.CountErrors` | qchat/protocols.py:293-297 | The loop counts the disagreements, as far as both lists go. |
| `Sampling.PopAllSucceeds` | qchat/protocols.py:285-287 | A replay is in range iff each index is below the length left at its turn. |
| `Sampling.PopAllByPosition` | qchat/protocols.py:264-287 | Which original positions are taken depends on the indices alone. |
| `Sampling.PopAllPermutes` | qchat/protocols.py:264-287 | Test bits and remaining bits together are the list rearranged. |
| `Sampling.PopAllPartitions` | qchat/protocols.py:264-287 | Every position goes to the test bits or stays, no test position occurs twice, and the rest keeps its order. |
| `Sampling.TestBitAt` | qchat/protocols.py:268-271 | Test bit k is the one at the k-th index of what is left after k pops. |
| `Sampling.PopAllConservesErrors` | qchat/protocols.py:264-297 | Mismatches in the test bits and in the rest add up to those there were. |
| `Sampling.ReplayAgrees` | qchat/protocols.py:260-309 | All of this for any equally long lists and indices valid for the leader's. |
| `ErrorRate.ErrorsAreCounted` | qchat/protocols.py:289-297 | In every run both parties count the number of places in which their test bits differ. |
| `ErrorRate.RoundsAreJudgedAlike` | qchat/protocols.py:289-309 | In every run both discard a round iff there are no test bits or at least 3 in 23 differ; otherwise both keep the untested bits. |
| `ErrorRate.RoundsHaveShape` | qchat/protocols.py:200-272 | In every run a round measures exactly 100 qubits and tests exactly 25 of the outcomes kept, or all if there are fewer; the DIQKD test set is half the positions. |
| `Rounds.RoundsAreDivided` | qchat/protocols.py:227-297 | In every run, when a round is judged, both hold as test bits the outcomes of the same qubits, and as bits to keep those of the same other qubits; together these are all qubits measured in one basis, each once. |
| `Rounds.RoundsAddUntested` | qchat/protocols.py:299-309 | What a BB84 round adds to both lists: the outcomes of the untested qubits measured in one basis if something was tested and less than 3 in 23 of the tested outcomes differ, otherwise nothing. 25 are tested, or all if there are fewer. |
| `Rounds.EprRoundsAddUntested` | qchat/protocols.py:518-593 | What a DIQKD round adds, for bases 0 to 2: if the measured outcomes of the test set pass, both add those of the same untested qubits, the ones with leader basis 0 and follower basis 2; otherwise both abort. |
| `EprTest.Untested` | qchat/protocols.py:548-548 | The positions outside the test set, each once, ascending. |
| `EprTest.SetsMirror` | qchat/protocols.py:541-563 | The two roles' comprehensions select the same rounds from mirrored bases. |
| `EprTest.WonMirrors` | qchat/protocols.py:571-574 | Both roles count the same game rounds as won. |
| `EprTest.AgreedMirrors` | qchat/protocols.py:577-580 | Both roles count the same same-basis rounds as matching. |
| `EprTest.VerdictsAgree` | qchat/protocols.py:518-593 | Both roles raise or neither does; on success both keep the outcomes at exactly the untested same-basis positions, ascending. |
| `EprVerdict.PassesIff` | qchat/protocols.py:534-589 | For either role the test passes iff there are game rounds and same-basis rounds, at least 0.7535533905932738 of the game rounds are won (outcomes differ exactly if both bases are 1), and at least nine tenths of the same-basis rounds agree. |
| `EprVerdict.KeepsUntested` | qchat/protocols.py:548-593 | What a passing round returns: the outcomes of the untested positions with leader basis 0 and follower basis 2, ascending. |
| `EprVerdict.ThresholdsSeparate` | qchat/protocols.py:570-589 | Devices that win at or below the classical three quarters of the game rounds are always rejected, as are those below nine agreements in ten; 76 wins in 100 with nine in ten always pass. |
| `Extraction.TwoBytes` | qchat/protocols.py:443-445 | Sixteen bits are a number below 65536, whose two bytes spell them, most significant bit first. |
| `Extraction.DigitOfNumber` | qchat/protocols.py:445-445 | Bit i of a list of any length is digit |b| - 1 - i of its number. |
| `Extraction.NumberIsInjective` | qchat/protocols.py:445-445 | Different lists of one length have different numbers. |
| `Extraction.BlockIsSpelled` | qchat/protocols.py:445-445 | The first byte is the number of the first eight bits, the second that of the others. |
| `Extraction.ProductFits` | qchat/protocols.py:362-363 | The product fits the two bytes asked for, and its high half is a byte. |
| `Extraction.HalvesOfProduct` | qchat/protocols.py:361-364 | Key byte and tag are made of the high and the low byte of seed * X[0]. |
| `Extraction.OddSeedIsInjective` | qchat/protocols.py:361-364 | Multiplication by an odd seed is injective modulo 256. |
| `Extraction.AcceptanceProvesKeyByte` | qchat/protocols.py:361-387 | An accepted tag proves equal key bytes, whatever both input bytes are, iff the seed is 0 or 1. |
| `Extraction.NoisyTagCollides` | qchat/protocols.py:361-387 | For every seed from 2 on, a pair of inputs that shares its tag and has the key bytes seed - 1 and 0. |
| `Extraction.AcceptedBytesAgreeIff` | qchat/protocols.py:361-387 | After an accepted tag the key bytes agree iff seed * X[0] + X[1] is one number on both sides. |
| `Extraction.TagProvesKeyByte` | qchat/protocols.py:361-387 | For parties that share the second input byte, a matching tag proves equal key bytes iff the seed is odd or 0. |
| `Extraction.EvenSeedCollides` | qchat/protocols.py:361-387 | For an even seed, the inputs 0 and 128 share their tag and have the key bytes 0 and half the seed. |
| `Peer.KeyPeer.constructor` | qchat/protocols.py:23-65 | A fresh party: empty lists, and the leader's proposal sent. |
| `Peer.KeyPeer.Send` | qchat/protocols.py:113-123 | Messages go to the end of the outbound queue. |
| `Peer.KeyPeer.Take` | qchat/protocols.py:104-105 | The oldest message leaves the control queue. |
| `Peer.KeyPeer.GoOn` | qchat/protocols.py:429-446 | The three loop heads, in place. |
| `Peer.KeyPeer.Handshake` | qchat/protocols.py:153-169 | The opening of either role. |
| `Peer.KeyPeer.NextQubit` | qchat/protocols.py:200-225 | The loop over the qubits of a round. |
| `Peer.KeyPeer.Sift` | qchat/protocols.py:237-272 | Sifting, then the leader's choice of test bits; in DIQKD the choice of the test set. |
| `Peer.KeyPeer.SelectTestBits` | qchat/protocols.py:274-287 | The follower's replay of the leader's indices. |
| `Peer.KeyPeer.CompareTestBits` | qchat/protocols.py:289-297 | Counting errors on the peer's test bits. |
| `Peer.KeyPeer.Conclude` | qchat/protocols.py:299-309 | The verdict on the round, and what it adds to `secret_bits`. |
| `Peer.KeyPeer.TakeTestSet` | qchat/protocols.py:551-563 | The follower takes the test set; an index out of range fails. |
| `Peer.KeyPeer.RunEprTest` | qchat/protocols.py:565-593 | The EPR test and what it adds to `secret_bits`. |
| `Peer.KeyPeer.ReconcileCodeword` | qchat/protocols.py:322-345 | One turn of the reconciliation loop. |
| `Peer.KeyPeer.Amplify` | qchat/protocols.py:356-392 | The tag test and the key byte. |
| `Peer.KeyPeer.End` | qchat/protocols.py:171-178 | The final exchange. |
| `Peer.KeyPeer.React` | qchat/protocols.py:81-141 | From one wait to the next: type test, answer, new state and queues are those of the state machine. |
| `Session.Deliver` | qchat/protocols.py:81-123 | A delivery between two objects: the receiver takes the first message of the channel and writes its answer to the other. |
| `Session.KeySession.constructor` | qchat/protocols.py:23-65 | Two connected objects in an initial state of the system start a run of it. |
| `Session.NewPeers` | qchat/protocols.py:23-65 | The objects that two peers make are in an initial state of the system. |
| `Session.KeySession.StepFollower` | qchat/protocols.py:125-141 | A delivery to the follower object is a step of the system and continues its run. |
| `Session.KeySession.StepLeader` | qchat/protocols.py:125-141 | A delivery to the leader object is a step of the system and continues its run. |
| `Session.KeySession.ObjectsAreSafe` | qchat/protocols.py:417-455 | Two connected objects are, after any deliveries, in a state that is safe in the sense of lockstep. |
| `Lockstep.OpeningExchange` | qchat/protocols.py:153-169 | After the opening both parties wait at the same point with the same terms. |
| `Lockstep.SiftingExchangeBb84` | qchat/protocols.py:227-276 | Sifting leaves both with equally long lists, and indices valid for both. |
| `Lockstep.SelectingExchange` | qchat/protocols.py:274-289 | The replay is in range and removes equally many bits. |
| `Lockstep.ComparingExchange` | qchat/protocols.py:289-301 | Both count the same number of errors. |
| `Lockstep.ExchangingExchange` | qchat/protocols.py:565-593 | After the EPR test both go on or both abort. |
| `Lockstep.ReconcilingExchange` | qchat/protocols.py:322-345 | Both leave the codeword loop together. |
| `Lockstep.AmplifyingExchange` | qchat/protocols.py:356-392 | Both append a key byte or neither does. |
| `Lockstep.Exchange` | qchat/protocols.py:125-141 | Every exchange leads from lockstep to lockstep, or to a common end. |
| `Lockstep.StepStaysInStep` | qchat/protocols.py:81-141 | Every single delivery keeps the invariant. |
| `Lockstep.RunsKeepProtocol` | qchat/protocols.py:144-162 | The terms proposed at the start hold throughout. |
| `Lockstep.RunsAreSafe` | qchat/protocols.py:417-455 | In every state of every run: no exception but the EPR test's, lists of equal lengths, at most one message in flight (two for the DIQKD test set), no deadlock, no party ends alone. |
| `Lockstep.ClassesOnTheWire` | qchat/protocols.py:331-389 | Which message class travels when: the proposal as PTCL, reconciliation and amplification as BB84 in both protocols, everything else in the protocol's own class. |
| `Lockstep.Bb84NeedsNoOrder` | qchat/protocols.py:125-141 | Every BB84 run over reordering channels is a run over ordered ones. |
| `Lockstep.DiqkdNeedsOrder` | qchat/protocols.py:530-568 | With test set and outcomes in flight, the order of sending keeps lockstep and the other order fails. |
| `Ordering.OrderedIffNoFailure` | qchat/protocols.py:81-141 | A run of either protocol over reordering channels is an ordered run iff the follower never fails in it. |
| `Ordering.TestSetIsReached` | qchat/protocols.py:518-568 | For every non-empty key a DIQKD run reaches the point where test set and outcomes are both in flight. |
| `Ordering.DisorderedRun` | qchat/protocols.py:518-568 | From there a run over reordering channels in which the follower fails. |
| `Ordering.EmptyKeyNeedsNoOrder` | qchat/protocols.py:632-653 | For an empty key every run over reordering channels is an ordered one. |
| `Ordering.DiqkdCanFailIff` | qchat/protocols.py:518-653 | Over reordering channels DIQKD can fail iff the key to make is not empty. |
| `Moves.OverExchanges` | qchat/protocols.py:125-141 | Induction over the exchanges of a run. |
| `Moves.ExchangeMoves` | qchat/protocols.py:417-455 | Every exchange opens, idles, ends a round, aborts, decodes, amplifies or finishes, with the stated effect on all lists. |
| `Agreement.KeysFromAttemptsAlways` | qchat/protocols.py:429-449 | In any run byte k of each key is extracted from that party's input to accepted attempt k. |
| `Agreement.KeyBytesAgreeWhere` | qchat/protocols.py:347-392 | In any run the keys agree at every byte whose input blocks agreed, and at every byte whose second input byte agreed under an odd seed; exactly, iff seed * X[0] + X[1] is one number on both sides. |
| `Agreement.AcceptedKeyBytesCanDiffer` | qchat/protocols.py:380-387 | The attempt with inputs (100, 0) and (10, 14) under the odd seed 3 is accepted with the key bytes 1 and 0. |
| `Agreement.CloseRunsAgree` | qchat/protocols.py:311-449 | With close codewords, keys, reconciled bits and amplification inputs are equal at every turn. |
| `Accounts.RunsAreAccounted` | qchat/protocols.py:429-449 | The leader's books hold between all exchanges of all runs. |
| `Accounts.BitsAreConserved` | qchat/protocols.py:429-449 | Distilled bits are, in order, the blocks amplified, `reconciled` and `secret_bits`; the two input bytes of an attempt spell its block bit by bit; the BB84 buffers stay within 97 and 107 bits; passes are paid for by attempts. |
| `Accounts.InputIsSpelled` | qchat/protocols.py:443-446 | Either party goes into amplification with the two bytes that its next sixteen reconciled bits spell. |
| `Accounts.KeyAgreement` | qchat/protocols.py:417-455 | With close codewords, at the end the keys are equal, of length `key_size`, and no round was rejected. |
| `Disagreement.KeysCanDiffer` | qchat/protocols.py:417-455 | Without close codewords keys can differ: an ordered BB84 run, without any exception, in which both parties end with the keys 0 and 32. |
| `Disagreement.NoiseIsACodeword` | qchat/ecc.py:23-34 | The difference between the outcomes in that run has the syndrome zero. |
| `Termination.ClockTicks` | qchat/protocols.py:429-449 | Every exchange increases a count of rounds, codewords, attempts and position. |
| `Termination.TimeIsBounded` | qchat/protocols.py:429-449 | A run has at most three steps for each tick of that count. |
| `Termination.GoodRunsAreBounded` | qchat/protocols.py:429-449 | If rounds yield and codewords are close: at most `key_size` passes and 23 `key_size` rounds, and a bounded run. |
| `Termination.CompleteRunsAgree` | qchat/protocols.py:417-455 | Such a run, when it can go no further, has ended in equal keys of the requested length, or (DIQKD) with both aborted. |
| `Noiseless.QuietRunsAreSame` | qchat/protocols.py:394-449 | Without noise all lists of a BB84 run are equal on both sides and no error is counted. |
| `Noiseless.NoiselessKeysAgree` | qchat/protocols.py:417-455 | Noiseless BB84 ends in equal keys of the requested length. |
| `Qubits.EncodingsAreBellStates` | qchat/protocols.py:715-728 | The four pairs of bits are encoded as the four Bell states. |
| `Qubits.OutcomesAreAmplitudes` | qchat/protocols.py:778-783 | Measuring one qubit after the other can give exactly the outcomes of non-zero amplitude. |
| `Qubits.DecodingIsCertain` | qchat/protocols.py:715-783 | The bits encoded, and no others, are a possible outcome of the receiver's measurements. |
| `DenseCoding.StoringExtends` | qchat/protocols.py:785-787 | Storing quarter p on top of the 2p low bits of a byte gives its 2p + 2 low bits. |
| `DenseCoding.QuarterBits` | qchat/protocols.py:711-713 | The two bits of quarter p are bits 2p and 2p + 1 of the byte. |
| `DenseLoops.SendQuarter` | qchat/protocols.py:711-742 | The body of the inner loop of the sender. |
| `DenseLoops.SendByte` | qchat/protocols.py:709-742 | The inner loop hands over the four pairs of a byte iff the twelve acks are there. |
| `DenseLoops.SendMessage` | qchat/protocols.py:694-744 | The sender succeeds iff the receiver says what it has to, and then has said its own part and handed over the pairs of the message. |
| `DenseLoops.StoreQuarter` | qchat/protocols.py:785-787 | If the byte held the low 2p bits of some byte and the pair is its quarter p, it then holds the low 2p + 2 bits. |
| `DenseLoops.ReceiveByte` | qchat/protocols.py:761-790 | The inner loop of the receiver makes up one byte iff the eight acks are there. |
| `DenseLoops.ReceiveMessage` | qchat/protocols.py:746-798 | The receiver succeeds iff the sender says what it has to, and returns the bytes that the measured bits make up. |
| `DenseLoops.ByteIsRead` | qchat/protocols.py:760-787 | Whatever the measurements can give on the pairs of a byte, its bits are read. |
| `DenseLoops.Transfer` | qchat/protocols.py:694-798 | Round trip of the two loops, for every byte string. |
| `DenseTransfer.StepsLeadOn` | qchat/protocols.py:694-798 | Every step in any interleaving leads from one listed stage to a next one. |
| `DenseTransfer.RunsFollowStages` | qchat/protocols.py:694-798 | The i-th state of any run is a listed stage at distance i from the start. |
| `DenseTransfer.TransfersAreSafe` | qchat/protocols.py:694-798 | In every state: no exception, one pair outstanding, both halves of one pair taken, four pairs for each byte, a prefix received, equal messages where two are in flight, no deadlock before delivery. |
| `DenseTransfer.TransfersEnd` | qchat/protocols.py:694-798 | A transfer of n bytes takes exactly 28n + 6 steps; a run of that length has delivered the message, a shorter one has not ended. |
| `DenseScripts.RunsSay` | qchat/protocols.py:694-798 | At every point of a run both sides have said exactly what the stage asks for. |
| `DenseScripts.DeliveredRunsFollowScripts` | qchat/protocols.py:694-798 | In a finished transfer each side has said, once and in order, what the other one's loop waits for, and nothing else. |
| `DenseScripts.Replay` | qchat/protocols.py:694-798 | On what has been said in such a run both loops succeed, with the message that it has delivered. |
| `Utf8.DecodeInverts` | qchat/connection.py:117-117 | A text is decoded from exactly one byte string, its encoding. |
| `Utf8.NulIsNul` | qchat/connection.py:117-117 | The byte 0 occurs in an encoding iff the character 0 occurs in the text. |
| `Utf8.KnownEncodings` | qchat/messages.py:57-57 | The examples of RFC 3629, section 7, and the last character. |
| `Framing.LookupInvertsCode` | qchat/messages.py:153-171 | Different message classes have different headers, all known to the factory. |
| `Framing.CodeIsName` | qchat/messages.py:13-148 | The header of each class is its four-letter name. |
| `Framing.BigEndianInverts` | qchat/messages.py:63-63 | The size field determines the length and is determined by it. |
| `Framing.SenderRoundTrip` | qchat/connection.py:112-119 | A sender is read back from its field iff it has 1 to 16 bytes of UTF-8 and no NUL. |
| `Framing.SenderField` | qchat/messages.py:57-57 | The sender field ends with the text and has NULs before it; of a text over 16 bytes it is the last 16. |
| `Framing.PrintedBytes` | qchat/messages.py:50-64 | Every byte of a printed frame: name, sender field, big-endian length, payload. |
| `Framing.LengthChecksAreExact` | qchat/connection.py:126-138 | Accepted, too short and too long are decided exactly by the number of bytes after the size field. |
| `Framing.PrintThenParse` | qchat/messages.py:50-64 | A printed frame is parsed back to itself iff its sender is sendable. |
| `Framing.LongSendersAreCut` | qchat/messages.py:25-57 | A sender of 9 to 16 accented letters is accepted by the constructor and arrives as one of 8. |
| `Framing.ParseThenPrint` | qchat/connection.py:107-143 | A parsed frame prints as the bytes it came from, the padding of the sender field excepted. |
| `Framing.Refusals` | qchat/connection.py:107-124 | Which streams are refused for their header, sender or size field, by their bytes, and with which error. |
| `Framing.TakenInFull` | qchat/connection.py:107-122 | `recv(n)` returns n bytes iff that many are there and no piece ends among them. |
| `Framing.DeliveredIffWhole` | qchat/connection.py:107-143 | However a stream arrives, a frame is delivered iff it would be in one piece and no fixed field is cut. |
| `Framing.WholeIsParsed` | qchat/connection.py:107-143 | A stream of at least 24 bytes whose fixed fields are uncut has the outcome that it has in one piece. |
| `Framing.CutHeaderIsRefused` | qchat/connection.py:107-110 | A frame that would be read is refused when its header arrives in two pieces. |
| `Connection.Socket.Recv` | qchat/connection.py:108-138 | Which bytes a receive returns and which it leaves. |
| `Connection.RecvConserves` | qchat/connection.py:127-138 | A receive loses no byte and returns nothing only at the end. |
| `Connection.QChatConnection.ReceivePayload` | qchat/connection.py:126-138 | The loop of reads and the two checks decide by the total number of bytes left. |
| `Connection.QChatConnection.ReceiveFrame` | qchat/connection.py:107-138 | The part of the handler that reads: its outcome for every stream in any pieces. |
| `Connection.QChatConnection.HandleConnection` | qchat/connection.py:99-144 | The whole handler: a message is queued last if all checks pass and its data can be decoded; nothing is queued otherwise. |
| `Connection.QChatConnection.AppendMessageToQueue` | qchat/connection.py:146-154 | A message goes to the end of the queue. |
| `Connection.QChatConnection.RecvMessage` | qchat/connection.py:156-171 | The oldest message leaves the queue; none if it is empty. |
| `Connection.AcceptedIffWhole` | qchat/connection.py:99-144 | However the bytes of a message arrive, it is queued unchanged iff its sender is sendable and no fixed field is cut. |
| `Connection.SendAndReceive` | qchat/connection.py:99-171 | The same for the handler and the queue: what is sent is what is received, on this condition. |
| `MessageData.EntriesAfterRemove` | qchat/core.py:185-186 | Popping a key leaves every other entry as it was. |
| `MessageData.PutPlaces` | qchat/core.py:174-174 | A new key goes to the end, a known one keeps its place, and nothing else changes. |
| `MessageData.DictIff` | qchat/core.py:174-186 | A list of entries is a dictionary iff no key occurs twice, and then every entry is found under its key. |
| `MessageData.RemoveUndoesPut` | qchat/core.py:173-186 | Popping a key just stored gives the ordered dictionary back iff the key was not there before. |
| `MessageData.Latin1RoundTrip` | qchat/core.py:174-185 | A signature survives as ISO-8859-1 text. |
| `Signing.Core.SignMessage` | qchat/core.py:165-175 | The signature of the encoded message is stored in its data; nothing changes if encoding fails. |
| `Signing.Core.StripSignature` | qchat/core.py:177-186 | The entry is removed in any case; a signature is returned iff it was one. |
| `Signing.Core.VerifyMessage` | qchat/core.py:188-203 | An honestly made signature is accepted exactly if the sender's key is known and the message, as it now is, encodes to the bytes the signature was made of. |
| `Signing.Core.ProcessMessage` | qchat/core.py:135-163 | Which messages reach their handler, and in what state; a sender whose key cannot be had is turned away first, unless it is "*". |
| `Letters.LettersArrive` | qchat/messages.py:50-64 | A message arrives as it was sent iff its sender is sendable. |
| `Letters.EncodingIsFaithful` | qchat/messages.py:50-64 | Different data encode to different bytes. |
| `Signing.SignedBytesAreReproduced` | qchat/core.py:165-199 | Sign, send, receive, strip: the signature comes out, and the re-encoding is the signed bytes iff the data had no `sig`. |
| `Signing.HonestMessagesAreAccepted` | qchat/core.py:146-203 | An honest peer's message reaches the handler as it was before signing iff its key can be had and its data had no `sig`; otherwise it is rejected. |
| `Signing.OwnSigIsRejected` | qchat/core.py:165-203 | A message with an entry `sig` of its own is signed and sent, and rejected by every honest verifier. |
| `Signing.HandledIffVerified` | qchat/core.py:135-163 | A message of a signed class reaches its handler iff its sender's key can be had and it holds a signature that verifies, for this sender, the encoding of the rest. |
| `Signing.LenientlyHandledIff` | qchat/core.py:146-158 | Where invalid signatures are allowed, some signature and a sender who is known, or named "*", are enough and needed; the handler then gets the message without it. |
| `Signing.HandledMessagesAreVerified` | qchat/core.py:135-163 | What the handler gets is the received message without its signature, every other entry unchanged, and its encoding is what was verified. |
| `Signing.StrippedMessages` | qchat/core.py:157-158 | A GETU or PUTU message reaches its handler iff its "sig" holds ISO-8859-1 text, and then without it, everything else unchanged, whether or not invalid signatures are allowed. |
| `Signing.PlainMessages` | qchat/core.py:160-161 | MSSG, RGST, AUTH and RQQB messages reach their handler as they are. |

## Left out

- `ECC_Hamming`: it indexes a dictionary by arrays and uses the Golay matrix, so there is no behaviour to model.
- RSA, SHA-384 and AES-GCM: library calls; signing and verifying are an abstract pair.
- Qubit transport and the retry loops of the devices: outcomes are free, except in superdense coding.
- Sockets, threads, locks, sleeps, timeouts, logging, configuration: a connection is what has arrived on it; each
  handler runs alone, so the queue order is that in which handlers finish.
- JSON text: a codec that gives dictionaries back; message data that is not a dictionary is not modelled.
- The user database, mailbox, registry, client and server dispatch, and the RPC interface: they would add only map
  updates. Of the request for an unknown sender's key only the outcome is modelled.
- Probabilities: winning chances, secrecy of the extracted byte, expected numbers of rounds.
- The numpy matrices and tuples of qchat/ecc.py are bit strings; the sums of unit vectors in the table loops are
  sums modulo 2, which they are for different positions. The three nested loops are three methods.
- The loops of `execute` are cut at the waits in `KeyProtocol` and `Peer`: a party's phase holds the local variables
  that are live there. The loops inside a wait-free stretch are loops of methods.
- `send_message` and `receive_message` are loops in `DenseLoops`, against queues whose contents are given; their
  interleaving with each other is in `DenseTransfer`, cut at the waits, and `DenseScripts` connects the two.
- A gate across the halves of two different pairs has no meaning in the two-qubit model: it counts as a failure, and is
  proved not to happen.
- Accounts.BitsAreConserved: the bounds of 97 and 107 bits are stated for BB84; DIQKD keeps up to 100 bits per round.
- Noiseless.NoiselessKeysAgree: stated for BB84 only, since equal outcomes under equal bases is not what the DIQKD
  devices promise.
- Termination.GoodRunsAreBounded: the bound on the length of a run is explicit but not the least one.
