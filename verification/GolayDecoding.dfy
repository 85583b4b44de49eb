/**
 The syndrome table of qchat/ecc.py and the perfect-code argument. The three nested loops write
 1 + 23 + 253 + 1771 = 2048 error patterns, no two under the same syndrome; there are only 2^11
 syndromes, so every syndrome has exactly one pattern of weight at most 3. Decoding is therefore
 total, and returns the only word with the requested syndrome within distance 3.
 */
module GolayDecoding {
  import opened Bits
  import opened GolayCode

  type Table = map<Bits, Bits>

  /** `eVect`: a zero vector with a one in the given position, counted from the end. */
  function EVect(length: nat, position: nat): (v: Bits)
    requires 1 <= position <= length
    ensures |v| == length
    ensures forall i :: 0 <= i < length ==> v[i] == (i == length - position)
  {
    Zeros(length)[length - position := true]
  }

  /**
   The error patterns in the order of the source's nested loops: after those in `acc`, every pattern
   that adds to v between one and `depth` further ones, at positions `from` and up (`depth` is the
   number of loops).
   */
  function Enumerate(depth: nat, v: Bits, from: nat, acc: seq<Bits>): seq<Bits>
    requires |v| == N && 1 <= from <= N + 1
    decreases depth, N + 1 - from, |acc|
  {
    if depth == 0 || from == N + 1 then acc
    else
      var w := Xor(v, EVect(N, from));
      Enumerate(depth, v, from + 1, Enumerate(depth - 1, w, from + 1, acc + [w]))
  }

  function AllPatterns(): seq<Bits> {
    Enumerate(3, Zeros(N), 1, [Zeros(N)])
  }

  /** The table that records the given patterns, one after the other, under their syndromes. */
  function TableOf(acc: seq<Bits>): Table {
    if acc == [] then map[]
    else
      var e := acc[|acc| - 1];
      TableOf(acc[..|acc| - 1])[(if |e| == N then Syndrome(e) else []) := e]
  }

  lemma TableOfOneMore(acc: seq<Bits>, e: Bits)
    requires |e| == N
    ensures TableOf(acc + [e]) == TableOf(acc)[Syndrome(e) := e]
  {
    assert (acc + [e])[..|acc|] == acc;
  }

  /** One entry for each of the 2048 syndromes: a pattern of weight at most 3 that has this syndrome. */
  ghost predicate Perfect(t: Table) {
    && |t| == 1 + 23 + 253 + 1771
    && (forall s: Bits :: s in t <==> |s| == CHECKS)
    && (forall s :: s in t ==> |t[s]| == N && Syndrome(t[s]) == s && Weight(t[s]) <= 3)
  }

  /** The innermost loop of `ECC_Golay.__init__`: three errors, two of them given. */
  method AddTriples(vij: Bits, j: nat, dictH0: Table, ghost log0: seq<Bits>) returns (dictH: Table)
    requires |vij| == N && 1 <= j <= 23 && dictH0 == TableOf(log0)
    ensures dictH == TableOf(Enumerate(1, vij, j + 1, log0))
  {
    dictH := dictH0;
    ghost var log := log0;
    for k := j + 1 to 24
      invariant Enumerate(1, vij, k, log) == Enumerate(1, vij, j + 1, log0) && dictH == TableOf(log)
    {
      var vijk := Xor(vij, EVect(N, k));
      TableOfOneMore(log, vijk);
      dictH, log := dictH[Syndrome(vijk) := vijk], log + [vijk];
    }
  }

  /** The middle loop: two and three errors, one of them given. */
  method AddPairs(vi: Bits, i: nat, dictH0: Table, ghost log0: seq<Bits>) returns (dictH: Table)
    requires |vi| == N && 1 <= i <= 23 && dictH0 == TableOf(log0)
    ensures dictH == TableOf(Enumerate(2, vi, i + 1, log0))
  {
    dictH := dictH0;
    ghost var log := log0;
    for j := i + 1 to 24
      invariant Enumerate(2, vi, j, log) == Enumerate(2, vi, i + 1, log0) && dictH == TableOf(log)
    {
      var vij := Xor(vi, EVect(N, j));
      TableOfOneMore(log, vij);
      dictH := AddTriples(vij, j, dictH[Syndrome(vij) := vij], log + [vij]);
      log := Enumerate(1, vij, j + 1, log + [vij]);
    }
  }

  /** `ECC_Golay.__init__`: the zero pattern, then the three nested loops. */
  method BuildTable() returns (dictH: Table)
    ensures dictH == TableOf(AllPatterns())
    ensures Perfect(dictH)
  {
    dictH := map[Zeros(CHECKS) := Zeros(N)];
    ghost var log: seq<Bits> := [Zeros(N)];
    ZeroPattern();
    for i := 1 to 24
      invariant Enumerate(3, Zeros(N), i, log) == AllPatterns() && dictH == TableOf(log)
    {
      var vi := EVect(N, i);
      OneErrorNext(vi, i, log);
      dictH := AddPairs(vi, i, dictH[Syndrome(vi) := vi], log + [vi]);
      log := Enumerate(2, vi, i + 1, log + [vi]);
    }
    TableIsPerfect();
  }

  /** One turn of the outermost loop. */
  lemma OneErrorNext(vi: Bits, i: nat, log: seq<Bits>)
    requires 1 <= i <= 23 && vi == EVect(N, i)
    ensures TableOf(log + [vi]) == TableOf(log)[Syndrome(vi) := vi]
    ensures Enumerate(3, Zeros(N), i, log)
         == Enumerate(3, Zeros(N), i + 1, Enumerate(2, vi, i + 1, log + [vi]))
  {
    assert vi == Xor(Zeros(N), EVect(N, i));
    TableOfOneMore(log, vi);
  }

  // ----- The patterns are different, light, and 2048 in number

  ghost predicate Light(acc: seq<Bits>) {
    forall i :: 0 <= i < |acc| ==> |acc[i]| == N && Weight(acc[i]) <= 3
  }

  ghost predicate Distinct(acc: seq<Bits>) {
    forall i, j :: 0 <= i < j < |acc| ==> acc[i] != acc[j]
  }

  /** e has the bits of v below position `from`, and some further one. */
  ghost predicate Extends(e: Bits, v: Bits, from: nat)
    requires |v| == N && 1 <= from <= N + 1
  {
    |e| == N && e != v && forall q :: N - from < q < N ==> e[q] == v[q]
  }

  ghost predicate Unextended(acc: seq<Bits>, v: Bits, from: nat)
    requires |v| == N && 1 <= from <= N + 1
  {
    forall i :: 0 <= i < |acc| ==> !Extends(acc[i], v, from)
  }

  /** r goes on from acc with extensions of v. */
  ghost predicate Grown(acc: seq<Bits>, r: seq<Bits>, v: Bits, from: nat)
    requires |v| == N && 1 <= from <= N + 1
  {
    && Light(r) && Distinct(r)
    && acc <= r
    && forall i :: |acc| <= i < |r| ==> Extends(r[i], v, from)
  }

  function Sum2(r: nat): nat {
    if r == 0 then 0 else r + Sum2(r - 1)
  }

  function Sum3(r: nat): nat {
    if r == 0 then 0 else 1 + Sum2(r - 1) + Sum3(r - 1)
  }

  /** Number of patterns of at most `depth` ones in r positions, without the empty one. */
  function Patterns(depth: nat, r: nat): nat {
    if depth == 0 then 0 else if depth == 1 then r else if depth == 2 then Sum2(r) else Sum3(r)
  }

  lemma PatternsOf23()
    ensures Patterns(3, 23) == 23 + 253 + 1771
  {
    assert Sum2(11) == 66;
    assert Sum3(12) == 298;
  }

  lemma {:induction false} OnesOfSum(v: Bits, p: nat, n: nat)
    requires |v| == N && 1 <= p <= N && n <= N && !v[N - p]
    ensures Ones(Xor(v, EVect(N, p)), n) == Ones(v, n) + if n > N - p then 1 else 0
  {
    if n > 0 { OnesOfSum(v, p, n - 1); }
  }

  lemma AfterOne(acc: seq<Bits>, v: Bits, from: nat, w: Bits)
    requires |v| == N && 1 <= from <= N && !v[N - from] && Weight(v) < 3
    requires w == Xor(v, EVect(N, from))
    requires Light(acc) && Distinct(acc) && Unextended(acc, v, from)
    ensures |w| == N && Weight(w) == Weight(v) + 1
    ensures Grown(acc, acc + [w], v, from)
    ensures Unextended(acc + [w], w, from + 1)
  {
    OnesOfSum(v, from, N);
    assert w[N - from];
    assert Extends(w, v, from);
    forall i | 0 <= i < |acc| ensures !Extends(acc[i], w, from + 1) && acc[i] != w {
      if Extends(acc[i], w, from + 1) {
        assert acc[i][N - from] == w[N - from];
        assert Extends(acc[i], v, from);
      }
    }
  }

  lemma AfterInner(acc: seq<Bits>, r: seq<Bits>, v: Bits, from: nat, w: Bits)
    requires |v| == N && 1 <= from <= N && !v[N - from]
    requires w == Xor(v, EVect(N, from))
    requires Unextended(acc, v, from) && Grown(acc + [w], r, w, from + 1)
    ensures Unextended(r, v, from + 1) && Grown(acc, r, v, from)
  {
    assert w[N - from];
    forall i | |acc| <= i < |r| ensures r[i][N - from] && Extends(r[i], v, from) {
      assert i == |acc| ==> r[i] == (acc + [w])[i];
      assert i > |acc| ==> Extends(r[i], w, from + 1);
    }
    forall i | 0 <= i < |r| ensures !Extends(r[i], v, from + 1) {
      if i < |acc| {
        assert r[i] == (acc + [w])[i] == acc[i];
        assert !Extends(acc[i], v, from);
      }
    }
  }

  /**
   If no pattern in acc extends v yet, the enumeration goes on with new patterns only, all of them
   extensions of v, as many as there are.
   */
  lemma {:induction false} EnumerateAdds(depth: nat, v: Bits, from: nat, acc: seq<Bits>)
    requires |v| == N && 1 <= from <= N + 1 && Weight(v) + depth <= 3
    requires forall q :: 0 <= q <= N - from ==> !v[q]
    requires Light(acc) && Distinct(acc) && Unextended(acc, v, from)
    ensures Grown(acc, Enumerate(depth, v, from, acc), v, from)
    ensures |Enumerate(depth, v, from, acc)| == |acc| + Patterns(depth, N + 1 - from)
    decreases depth, N + 1 - from
  {
    if depth > 0 && from <= N {
      var w := Xor(v, EVect(N, from));
      AfterOne(acc, v, from, w);
      EnumerateAdds(depth - 1, w, from + 1, acc + [w]);
      var r := Enumerate(depth - 1, w, from + 1, acc + [w]);
      AfterInner(acc, r, v, from, w);
      EnumerateAdds(depth, v, from + 1, r);
    }
  }

  lemma LightSyndromesDiffer(d: Bits, e: Bits)
    requires |d| == N == |e| && Weight(d) <= 3 && Weight(e) <= 3
    requires Syndrome(d) == Syndrome(e)
    ensures d == e
  {
    WeightOfXor(d, e);
    MinimumDistance(d, e);
  }

  // ----- No entry is overwritten

  ghost predicate Sound(t: Table, acc: seq<Bits>) {
    forall s :: s in t ==> t[s] in acc && |s| == CHECKS && |t[s]| == N && Syndrome(t[s]) == s && Weight(t[s]) <= 3
  }

  /** Different light patterns have different syndromes, so each of them keeps an entry of its own. */
  lemma {:induction false} TableOfIsFaithful(acc: seq<Bits>)
    requires Light(acc) && Distinct(acc)
    ensures Sound(TableOf(acc), acc) && |TableOf(acc)| == |acc|
  {
    if acc != [] {
      var init, e := acc[..|acc| - 1], acc[|acc| - 1];
      TableOfIsFaithful(init);
      assert e !in init;
      var t := TableOf(init);
      if Syndrome(e) in t {
        LightSyndromesDiffer(t[Syndrome(e)], e);
      }
    }
  }

  // ----- There are no more syndromes

  ghost function Extended(S: set<Bits>, b: bool): set<Bits> {
    set v | v in S :: v + [b]
  }

  /** All bit strings of length n. */
  ghost function Words(n: nat): set<Bits> {
    if n == 0 then {[]} else Extended(Words(n - 1), false) + Extended(Words(n - 1), true)
  }

  ghost function Pow2(n: nat): nat {
    if n == 0 then 1 else 2 * Pow2(n - 1)
  }

  lemma {:induction false} ExtendedSize(S: set<Bits>, b: bool)
    ensures |Extended(S, b)| == |S|
  {
    if S == {} {
      assert Extended(S, b) == {};
    } else {
      var u :| u in S;
      ExtendedSize(S - {u}, b);
      forall v | v in S && v + [b] == u + [b] ensures v == u {
        assert v == (v + [b])[..|v|] && u == (u + [b])[..|u|];
      }
      assert Extended(S, b) == Extended(S - {u}, b) + {u + [b]};
    }
  }

  lemma ExtendedDisjoint(S: set<Bits>)
    ensures |Extended(S, false) + Extended(S, true)| == 2 * |S|
  {
    ExtendedSize(S, false);
    ExtendedSize(S, true);
    assert forall v :: v in Extended(S, false) ==> !v[|v| - 1];
    assert forall v :: v in Extended(S, true) ==> v[|v| - 1];
    assert Extended(S, false) !! Extended(S, true);
  }

  lemma {:induction false} WordsSize(n: nat)
    ensures |Words(n)| == Pow2(n)
  {
    if n > 0 {
      WordsSize(n - 1);
      ExtendedDisjoint(Words(n - 1));
    }
  }

  lemma {:induction false} WordsAreAll(n: nat, v: Bits)
    requires |v| == n
    ensures v in Words(n)
  {
    if n > 0 {
      WordsAreAll(n - 1, v[..n - 1]);
      assert v == v[..n - 1] + [v[n - 1]];
      assert v in Extended(Words(n - 1), v[n - 1]);
    }
  }

  lemma SubsetOfSameSize<T>(S: set<T>, U: set<T>)
    requires S <= U && |S| >= |U|
    ensures S == U
  {
    assert U == S + (U - S);
    assert |U| == |S| + |U - S|;
  }

  lemma ZeroPattern()
    ensures Weight(Zeros(N)) == 0 && Syndrome(Zeros(N)) == Zeros(CHECKS)
    ensures TableOf([Zeros(N)]) == map[Zeros(CHECKS) := Zeros(N)]
  {
    OnesZero(Zeros(N), N);
    assert Xor(Zeros(N), Zeros(N)) == Zeros(N);
    SyndromeIsLinear(Zeros(N), Zeros(N));
    var s := Syndrome(Zeros(N));
    assert Xor(s, s) == Zeros(CHECKS);
    TableOfOneMore([], Zeros(N));
    assert [] + [Zeros(N)] == [Zeros(N)];
  }

  lemma PatternsAreGood(depth: nat, from: nat, acc: seq<Bits>)
    requires depth == 3 && from == 1 && acc == [Zeros(N)]
    ensures var r := Enumerate(depth, Zeros(N), from, acc); Light(r) && Distinct(r) && |r| == 2048
  {
    ZeroPattern();
    EnumerateAdds(depth, Zeros(N), from, acc);
    PatternsOf23();
  }

  lemma TableHasAllKeys(t: Table)
    requires (forall s :: s in t ==> |s| == CHECKS) && |t| == 2048
    ensures forall s: Bits :: s in t <==> |s| == CHECKS
  {
    forall s | s in t ensures s in Words(CHECKS) { WordsAreAll(CHECKS, s); }
    WordsSize(CHECKS);
    assert Pow2(11) == 2048;
    assert |t.Keys| == |t|;
    SubsetOfSameSize(t.Keys, Words(CHECKS));
    forall s: Bits | |s| == CHECKS ensures s in t { WordsAreAll(CHECKS, s); }
  }

  /** The table is complete: 2048 entries, one for each syndrome, each the light pattern of its key. */
  lemma TableIsPerfect()
    ensures Perfect(TableOf(AllPatterns()))
  {
    PatternsAreGood(3, 1, [Zeros(N)]);
    TableOfIsFaithful(AllPatterns());
    TableHasAllKeys(TableOf(AllPatterns()));
  }

  // ----- Decoding

  /** Every syndrome has an error pattern of weight at most 3. */
  lemma PerfectCode(s: Bits)
    requires |s| == CHECKS
    ensures exists e: Bits :: |e| == N && Syndrome(e) == s && Weight(e) <= 3
  {
    TableIsPerfect();
    var e := TableOf(AllPatterns())[s];
  }

  /** The error pattern that a syndrome stands for. */
  ghost function ErrorPattern(s: Bits): (e: Bits)
    requires |s| == CHECKS
    ensures |e| == N && Syndrome(e) == s && Weight(e) <= 3
  {
    PerfectCode(s);
    var e: Bits :| |e| == N && Syndrome(e) == s && Weight(e) <= 3;
    e
  }

  /** What decoding x against the syndrome s of the peer's word means. */
  ghost function Corrected(x: Bits, s: Bits): (y: Bits)
    requires |x| == N && |s| == CHECKS
    ensures |y| == N
  {
    Xor(x, ErrorPattern(Xor(s, Syndrome(x))))
  }

  /** The corrected word has the requested syndrome and lies within distance 3 of x. */
  lemma CorrectedIsNear(x: Bits, s: Bits)
    requires |x| == N && |s| == CHECKS
    ensures Syndrome(Corrected(x, s)) == s
    ensures Distance(x, Corrected(x, s)) <= 3
  {
    var e := ErrorPattern(Xor(s, Syndrome(x)));
    SyndromeIsLinear(x, e);
    assert Xor(Syndrome(x), Xor(s, Syndrome(x))) == s;
    XorTwice(x, e);
    assert Xor(x, Corrected(x, s)) == e;
  }

  /** It is the only such word: whoever is within distance 3 of x is recovered from x by its syndrome. */
  lemma CorrectedIsUnique(x: Bits, z: Bits)
    requires |x| == N == |z| && Distance(x, z) <= 3
    ensures Corrected(x, Syndrome(z)) == z
  {
    var y := Corrected(x, Syndrome(z));
    CorrectedIsNear(x, Syndrome(z));
    WeightOfXor(Xor(x, y), Xor(x, z));
    assert Xor(Xor(x, y), Xor(x, z)) == Xor(y, z);
    MinimumDistance(y, z);
  }

  /**
   What decoding does for any noise: it recovers the peer's word iff that lies within distance 3, and
   otherwise returns a word at least 7 places away from it.
   */
  lemma CorrectedIff(x: Bits, z: Bits)
    requires |x| == N == |z|
    ensures Corrected(x, Syndrome(z)) == z <==> Distance(x, z) <= 3
    ensures Distance(x, z) > 3 ==> Distance(Corrected(x, Syndrome(z)), z) >= 7
  {
    CorrectedIsNear(x, Syndrome(z));
    if Distance(x, z) <= 3 {
      CorrectedIsUnique(x, z);
    } else if Distance(Corrected(x, Syndrome(z)), z) <= 6 {
      MinimumDistance(Corrected(x, Syndrome(z)), z);
    }
  }
}
