/**
 The list work of one BB84 round (qchat/protocols.py): keeping the outcomes measured in matching
 bases, and moving randomly chosen test bits out of the list with `x.pop(index)` while the peer
 replays the same indices.
 */
module Sampling {
  import opened Bits
  import opened Options

  const ROUND_SIZE := 100
  const TEST_SIZE := ROUND_SIZE / 4

  // ----- Matching bases

  /** The outcomes among the first n whose bases agree. */
  function Matching(x: Bits, theta: seq<nat>, thetaHat: seq<nat>, n: nat): Bits
    requires n <= |x| && n <= |theta| && n <= |thetaHat|
  {
    if n == 0 then []
    else if theta[n - 1] == thetaHat[n - 1] then Matching(x, theta, thetaHat, n - 1) + [x[n - 1]]
    else Matching(x, theta, thetaHat, n - 1)
  }

  /** How far Python's `zip` goes over three lists. */
  function Shortest(a: nat, b: nat, c: nat): nat {
    if a <= b && a <= c then a else if b <= c then b else c
  }

  function Filtered(x: Bits, theta: seq<nat>, thetaHat: seq<nat>): Bits {
    Matching(x, theta, thetaHat, Shortest(|x|, |theta|, |thetaHat|))
  }

  /** The loop of `_filter_theta`. */
  method FilterTheta(x: Bits, theta: seq<nat>, thetaHat: seq<nat>) returns (xRemain: Bits)
    ensures exists p :: Sifts(p, x, theta, thetaHat, xRemain)
    ensures xRemain == Filtered(x, theta, thetaHat)
  {
    xRemain := [];
    var n := 0;
    while n < |x| && n < |theta| && n < |thetaHat|
      invariant n <= Shortest(|x|, |theta|, |thetaHat|)
      invariant xRemain == Matching(x, theta, thetaHat, n)
    {
      if theta[n] == thetaHat[n] {
        xRemain := xRemain + [x[n]];
      }
      n := n + 1;
    }
    ghost var p := FilteredSifts(x, theta, thetaHat);
  }

  /** The kept outcomes are those at the positions p: all positions at which the bases agree, ascending. */
  ghost predicate Sifts(p: seq<nat>, x: Bits, theta: seq<nat>, thetaHat: seq<nat>, kept: Bits) {
    && (forall a, b :: 0 <= a < b < |p| ==> p[a] < p[b])
    && (forall j: nat :: j in p <==> j < |x| && j < |theta| && j < |thetaHat| && theta[j] == thetaHat[j])
    && |kept| == |p| && forall a :: 0 <= a < |p| ==> p[a] < |x| && kept[a] == x[p[a]]
  }

  lemma {:induction false} MatchingSifts(x: Bits, theta: seq<nat>, thetaHat: seq<nat>, n: nat) returns (p: seq<nat>)
    requires n <= |x| && n <= |theta| && n <= |thetaHat|
    ensures Sifts(p, x[..n], theta[..n], thetaHat[..n], Matching(x, theta, thetaHat, n))
  {
    if n == 0 {
      p := [];
    } else {
      p := MatchingSifts(x, theta, thetaHat, n - 1);
      assert forall a :: 0 <= a < |p| ==> p[a] in p;
      if theta[n - 1] == thetaHat[n - 1] {
        p := p + [n - 1];
      }
    }
  }

  /** Sifting keeps the outcomes at exactly the positions where the bases agree, in their order. */
  lemma FilteredSifts(x: Bits, theta: seq<nat>, thetaHat: seq<nat>) returns (p: seq<nat>)
    ensures Sifts(p, x, theta, thetaHat, Filtered(x, theta, thetaHat))
  {
    var n := Shortest(|x|, |theta|, |thetaHat|);
    p := MatchingSifts(x, theta, thetaHat, n);
    assert forall a :: 0 <= a < |p| ==> p[a] in p;
  }

  /** Peers with mirrored bases keep equally many bits, and their kept bits differ only where the inputs do. */
  lemma {:induction false} MatchingMirrors(x: Bits, y: Bits, theta: seq<nat>, thetaHat: seq<nat>, n: nat)
    requires n <= |x| && n <= |y| && n <= |theta| && n <= |thetaHat|
    ensures |Matching(x, theta, thetaHat, n)| == |Matching(y, thetaHat, theta, n)| <= n
    ensures (forall i :: 0 <= i < n && theta[i] == thetaHat[i] ==> x[i] == y[i])
            ==> Matching(x, theta, thetaHat, n) == Matching(y, thetaHat, theta, n)
  {
    if n > 0 { MatchingMirrors(x, y, theta, thetaHat, n - 1); }
  }

  // ----- Popping test bits

  datatype Split<T> = Split(test: seq<T>, rest: seq<T>)

  function Pop<T>(x: seq<T>, i: nat): (r: seq<T>)
    requires i < |x|
    ensures |r| == |x| - 1
  {
    x[..i] + x[i + 1..]
  }

  /** Pop the given indices one after the other; None where `x.pop(index)` raises IndexError. */
  function PopAll<T>(x: seq<T>, indices: seq<nat>): Option<Split<T>>
    decreases |indices|
  {
    if indices == [] then Some(Split([], x))
    else if indices[0] >= |x| then None
    else
      match PopAll(Pop(x, indices[0]), indices[1..])
      case None => None
      case Some(s) => Some(Split([x[indices[0]]] + s.test, s.rest))
  }

  /** What `random.randint(0, len(x) - 1)` can yield in the leader's loop: each index is below the length left. */
  predicate ValidPicks(picks: seq<nat>, n: nat) {
    forall k :: 0 <= k < |picks| ==> picks[k] + k < n
  }

  /** The leader's loop runs until it has 25 indices or no bits are left. */
  predicate PickedBy(picks: seq<nat>, n: nat) {
    ValidPicks(picks, n) && |picks| == if n < TEST_SIZE then n else TEST_SIZE
  }

  /** A replay is in range exactly when every index is below the length left at its turn. */
  lemma {:induction false} PopAllSucceeds<T>(x: seq<T>, indices: seq<nat>)
    ensures PopAll(x, indices).Some? <==> ValidPicks(indices, |x|)
    ensures PopAll(x, indices).Some? ==>
              var s := PopAll(x, indices).value;
              |s.test| == |indices| && |s.test| + |s.rest| == |x|
    decreases |indices|
  {
    if indices == [] {
    } else if indices[0] >= |x| {
      assert !ValidPicks(indices, |x|);
    } else {
      var tail := indices[1..];
      PopAllSucceeds(Pop(x, indices[0]), tail);
      if ValidPicks(indices, |x|) {
        forall k | 0 <= k < |tail| ensures tail[k] + k < |x| - 1 {
          assert tail[k] == indices[k + 1];
        }
      }
      if ValidPicks(tail, |x| - 1) {
        forall k | 0 <= k < |indices| ensures indices[k] + k < |x| {
          if k > 0 { assert indices[k] == tail[k - 1]; }
        }
      }
    }
  }

  lemma {:induction false} PopAllExtends<T>(x: seq<T>, indices: seq<nat>, i: nat)
    requires PopAll(x, indices).Some?
    requires i < |PopAll(x, indices).value.rest|
    ensures var s := PopAll(x, indices).value;
            PopAll(x, indices + [i]) == Some(Split(s.test + [s.rest[i]], Pop(s.rest, i)))
    decreases |indices|
  {
    var all := indices + [i];
    if indices == [] {
      assert all[1..] == [];
      assert PopAll(Pop(x, i), all[1..]) == Some(Split([], Pop(x, i)));
      assert [x[i]] + [] == [] + [x[i]];
    } else {
      assert all[0] == indices[0] && all[1..] == indices[1..] + [i];
      PopAllExtends(Pop(x, indices[0]), indices[1..], i);
      var s := PopAll(Pop(x, indices[0]), indices[1..]).value;
      assert [x[indices[0]]] + (s.test + [s.rest[i]]) == [x[indices[0]]] + s.test + [s.rest[i]];
    }
  }

  /** The leader's loop of `_estimate_error_rate`; `draws` are the values of `random.randint`. */
  method PickTestBits(x0: Bits, draws: seq<nat>) returns (x: Bits, testBits: Bits, testIndices: seq<nat>)
    requires PickedBy(draws, |x0|)
    ensures testIndices == draws
    ensures PopAll(x0, testIndices) == Some(Split(testBits, x))
  {
    x, testBits, testIndices := x0, [], [];
    while |testIndices| < TEST_SIZE && |x| > 0
      invariant |testIndices| <= TEST_SIZE && |testIndices| + |x| == |x0|
      invariant testIndices <= draws
      invariant PopAll(x0, testIndices) == Some(Split(testBits, x))
      decreases |x|
    {
      var index := draws[|testIndices|];
      PopAllExtends(x0, testIndices, index);
      x, testBits, testIndices := x[..index] + x[index + 1..], testBits + [x[index]], testIndices + [index];
    }
  }

  /** The follower's replay; `failed` is the IndexError of `x.pop`. */
  method ReplayTestBits(x0: Bits, testIndices: seq<nat>) returns (failed: bool, x: Bits, testBits: Bits)
    ensures failed <==> PopAll(x0, testIndices).None?
    ensures !failed ==> PopAll(x0, testIndices) == Some(Split(testBits, x))
  {
    failed, x, testBits := false, x0, [];
    for k := 0 to |testIndices|
      invariant !failed
      invariant PopAll(x0, testIndices[..k]) == Some(Split(testBits, x))
    {
      PopAllSucceeds(x0, testIndices[..k]);
      if testIndices[k] >= |x| {
        failed := true;
        PopAllSucceeds(x0, testIndices);
        return;
      }
      PopAllExtends(x0, testIndices[..k], testIndices[k]);
      assert testIndices[..k + 1] == testIndices[..k] + [testIndices[k]];
      x, testBits := x[..testIndices[k]] + x[testIndices[k] + 1..], testBits + [x[testIndices[k]]];
    }
    assert testIndices[..|testIndices|] == testIndices;
  }

  /** The loop that counts disagreeing test bits; `zip` stops at the shorter list. */
  method CountErrors(testBits: Bits, targetTestBits: Bits) returns (numError: nat)
    ensures |testBits| == |targetTestBits| ==> numError == Distance(testBits, targetTestBits)
    ensures numError == Errors(testBits, targetTestBits)
  {
    numError := 0;
    var n := 0;
    while n < |testBits| && n < |targetTestBits|
      invariant n <= |testBits| && n <= |targetTestBits|
      invariant numError == Distance(testBits[..n], targetTestBits[..n])
    {
      DistanceOfOneMore(testBits, targetTestBits, n);
      if testBits[n] != targetTestBits[n] {
        numError := numError + 1;
      }
      n := n + 1;
    }
    assert n == |testBits| ==> testBits[..n] == testBits;
    assert n == |targetTestBits| ==> targetTestBits[..n] == targetTestBits;
  }

  /** Disagreements between two lists, as far as both go. */
  function Errors(u: Bits, v: Bits): nat {
    if |u| <= |v| then Distance(u, v[..|u|]) else Distance(u[..|v|], v)
  }

  lemma DistanceOfOneMore(u: Bits, v: Bits, n: nat)
    requires n < |u| && n < |v|
    ensures Distance(u[..n + 1], v[..n + 1]) == Distance(u[..n], v[..n]) + if u[n] != v[n] then 1 else 0
  {
    assert u[..n + 1] == u[..n] + [u[n]] && v[..n + 1] == v[..n] + [v[n]];
    DistanceOfConcat(u[..n], v[..n], [u[n]], [v[n]]);
    DistanceOfOne(u[n], v[n]);
  }

  lemma DistanceOfOne(a: bool, b: bool)
    ensures Distance([a], [b]) == if a != b then 1 else 0
  {
    assert Ones(Xor([a], [b]), 1) == Ones(Xor([a], [b]), 0) + Val(a != b);
  }

  lemma DistanceIsSymmetric(u: Bits, v: Bits)
    requires |u| == |v|
    ensures Distance(u, v) == Distance(v, u)
  {
    assert Xor(u, v) == Xor(v, u);
  }

  // ----- Both sides lose the same positions

  function Positions(n: nat): (p: seq<int>)
    ensures |p| == n && forall k :: 0 <= k < n ==> p[k] == k
  {
    seq(n, k => k)
  }

  function Select<T>(x: seq<T>, p: seq<int>): (r: seq<T>)
    requires forall k :: 0 <= k < |p| ==> 0 <= p[k] < |x|
    ensures |r| == |p| && forall k :: 0 <= k < |p| ==> r[k] == x[p[k]]
  {
    seq(|p|, k requires 0 <= k < |p| => x[p[k]])
  }

  function Zip<A, B>(u: seq<A>, v: seq<B>): (r: seq<(A, B)>)
    requires |u| == |v|
    ensures |r| == |u| && forall k :: 0 <= k < |u| ==> r[k] == (u[k], v[k])
  {
    seq(|u|, k requires 0 <= k < |u| => (u[k], v[k]))
  }

  lemma {:induction false} PopAllSelects<T>(x: seq<T>, p: seq<int>, indices: seq<nat>)
    requires forall k :: 0 <= k < |p| ==> 0 <= p[k] < |x|
    requires PopAll(p, indices).Some?
    ensures var s := PopAll(p, indices).value;
            && (forall k :: 0 <= k < |s.test| ==> 0 <= s.test[k] < |x|)
            && (forall k :: 0 <= k < |s.rest| ==> 0 <= s.rest[k] < |x|)
            && PopAll(Select(x, p), indices) == Some(Split(Select(x, s.test), Select(x, s.rest)))
    decreases |indices|
  {
    if indices != [] {
      var i := indices[0];
      PopAllSelects(x, Pop(p, i), indices[1..]);
      var s := PopAll(Pop(p, i), indices[1..]).value;
      assert Pop(Select(x, p), i) == Select(x, Pop(p, i));
      assert [x[p[i]]] + Select(x, s.test) == Select(x, [p[i]] + s.test);
    } else {
      assert Select(x, []) == [];
    }
  }

  /** Which original positions end up as test bits and which remain is a matter of the indices alone. */
  lemma PopAllByPosition<T>(x: seq<T>, indices: seq<nat>)
    requires ValidPicks(indices, |x|)
    ensures PopAll(Positions(|x|), indices).Some?
    ensures var s := PopAll(Positions(|x|), indices).value;
            && (forall k :: 0 <= k < |s.test| ==> 0 <= s.test[k] < |x|)
            && (forall k :: 0 <= k < |s.rest| ==> 0 <= s.rest[k] < |x|)
            && PopAll(x, indices) == Some(Split(Select(x, s.test), Select(x, s.rest)))
  {
    PopAllSucceeds(Positions(|x|), indices);
    PopAllSelects(x, Positions(|x|), indices);
    assert Select(x, Positions(|x|)) == x;
  }

  ghost predicate Ascending(p: seq<int>) {
    forall a, b :: 0 <= a < b < |p| ==> p[a] < p[b]
  }

  /** Popping from an ascending list leaves an ascending one, and every element goes to one side only. */
  lemma {:induction false} PopAllDivides(p: seq<int>, indices: seq<nat>)
    requires Ascending(p) && PopAll(p, indices).Some?
    ensures var s := PopAll(p, indices).value;
            && Ascending(s.rest)
            && (forall j :: j in p <==> j in s.test || j in s.rest)
            && (forall j :: j in s.test ==> j !in s.rest)
            && (forall a, b :: 0 <= a < b < |s.test| ==> s.test[a] != s.test[b])
    decreases |indices|
  {
    if indices != [] {
      var i, tail := indices[0], Pop(p, indices[0]);
      PopDivides(p, i);
      PopAllDivides(tail, indices[1..]);
      var s := PopAll(tail, indices[1..]).value;
      assert forall b :: 0 <= b < |s.test| ==> s.test[b] in s.test;
    }
  }

  lemma PopDivides(p: seq<int>, i: nat)
    requires Ascending(p) && i < |p|
    ensures Ascending(Pop(p, i)) && p[i] !in Pop(p, i)
    ensures forall j :: j in p <==> j == p[i] || j in Pop(p, i)
  {
    var r := Pop(p, i);
    assert forall k :: 0 <= k < |r| ==> r[k] == if k < i then p[k] else p[k + 1];
    assert forall k :: 0 <= k < |p| && k != i ==> p[k] == if k < i then r[k] else r[k - 1];
  }

  /**
   What popping does to a list: every position ends up on one side only, the remaining ones in their old
   order, and test bit k is the one at indices[k] of what is left after k pops.
   */
  lemma PopAllPartitions<T>(x: seq<T>, indices: seq<nat>) returns (t: seq<int>, p: seq<int>)
    requires ValidPicks(indices, |x|)
    ensures forall j :: 0 <= j < |x| <==> j in t || j in p
    ensures Ascending(p) && (forall j :: j in t ==> j !in p) && forall a, b :: 0 <= a < b < |t| ==> t[a] != t[b]
    ensures (forall k :: 0 <= k < |t| ==> 0 <= t[k] < |x|) && (forall k :: 0 <= k < |p| ==> 0 <= p[k] < |x|)
    ensures PopAll(x, indices) == Some(Split(Select(x, t), Select(x, p)))
  {
    PopAllByPosition(x, indices);
    PopAllDivides(Positions(|x|), indices);
    var s := PopAll(Positions(|x|), indices).value;
    t, p := s.test, s.rest;
    forall j | 0 <= j < |x| ensures j in Positions(|x|) { assert Positions(|x|)[j] == j; }
  }

  lemma {:induction false} TestBitAt<T>(x: seq<T>, indices: seq<nat>, k: nat)
    requires PopAll(x, indices).Some? && k < |indices|
    ensures PopAll(x, indices[..k]).Some? && indices[k] < |PopAll(x, indices[..k]).value.rest|
    ensures k < |PopAll(x, indices).value.test|
    ensures PopAll(x, indices).value.test[k] == PopAll(x, indices[..k]).value.rest[indices[k]]
    decreases |indices|
  {
    if k > 0 {
      assert indices[..k][0] == indices[0] && indices[..k][1..] == indices[1..][..k - 1];
      TestBitAt(Pop(x, indices[0]), indices[1..], k - 1);
    }
  }

  lemma PopPermutes<T>(x: seq<T>, i: nat)
    requires i < |x|
    ensures multiset(x) == multiset([x[i]]) + multiset(Pop(x, i))
  {
    assert x == x[..i] + ([x[i]] + x[i + 1..]);
  }

  lemma {:induction false} PopAllPermutes<T>(x: seq<T>, indices: seq<nat>)
    requires PopAll(x, indices).Some?
    ensures var s := PopAll(x, indices).value; multiset(s.test) + multiset(s.rest) == multiset(x)
    decreases |indices|
  {
    if indices != [] {
      var i := indices[0];
      PopAllPermutes(Pop(x, i), indices[1..]);
      PopPermutes(x, i);
    }
  }

  lemma DistanceOfPop(u: Bits, v: Bits, i: nat)
    requires i < |u| == |v|
    ensures Distance(u, v) == Distance([u[i]], [v[i]]) + Distance(Pop(u, i), Pop(v, i))
  {
    assert u == u[..i] + ([u[i]] + u[i + 1..]) && v == v[..i] + ([v[i]] + v[i + 1..]);
    DistanceOfConcat(u[..i], v[..i], [u[i]] + u[i + 1..], [v[i]] + v[i + 1..]);
    DistanceOfConcat([u[i]], [v[i]], u[i + 1..], v[i + 1..]);
    DistanceOfConcat(u[..i], v[..i], u[i + 1..], v[i + 1..]);
  }

  lemma {:induction false} PopAllConservesErrors(u: Bits, v: Bits, indices: seq<nat>)
    requires |u| == |v| && PopAll(u, indices).Some? && PopAll(v, indices).Some?
    ensures var s, t := PopAll(u, indices).value, PopAll(v, indices).value;
            && |s.test| == |t.test| && |s.rest| == |t.rest|
            && Distance(u, v) == Distance(s.test, t.test) + Distance(s.rest, t.rest)
    decreases |indices|
  {
    if indices == [] {
      DistanceZero([], []);
    } else {
      var i := indices[0];
      PopAllConservesErrors(Pop(u, i), Pop(v, i), indices[1..]);
      var s, t := PopAll(Pop(u, i), indices[1..]).value, PopAll(Pop(v, i), indices[1..]).value;
      DistanceOfPop(u, v, i);
      DistanceOfConcat([u[i]], [v[i]], s.test, t.test);
    }
  }

  lemma PopAllOfZip(u: Bits, v: Bits, indices: seq<nat>)
    requires |u| == |v| && PopAll(u, indices).Some? && PopAll(v, indices).Some?
    requires ValidPicks(indices, |u|)
    ensures var s, t := PopAll(u, indices).value, PopAll(v, indices).value;
            && |s.test| == |t.test| && |s.rest| == |t.rest|
            && PopAll(Zip(u, v), indices) == Some(Split(Zip(s.test, t.test), Zip(s.rest, t.rest)))
  {
    PopAllByPosition(u, indices);
    PopAllByPosition(v, indices);
    PopAllByPosition(Zip(u, v), indices);
    var p := PopAll(Positions(|u|), indices).value;
    assert Select(Zip(u, v), p.test) == Zip(Select(u, p.test), Select(v, p.test));
    assert Select(Zip(u, v), p.rest) == Zip(Select(u, p.rest), Select(v, p.rest));
  }

  /**
   Pop and replay: for equally long lists and any indices valid for the leader's list, the replay
   succeeds, the zipped test bits and remaining bits rearrange the zipped input, and the mismatches
   counted on the test bits plus those left in the remainder are all the mismatches there were.
   */
  lemma {:induction false} ReplayAgrees(u: Bits, v: Bits, indices: seq<nat>)
    requires |u| == |v| && ValidPicks(indices, |u|)
    ensures PopAll(u, indices).Some? && PopAll(v, indices).Some?
    ensures var s, t := PopAll(u, indices).value, PopAll(v, indices).value;
            && |s.test| == |t.test| == |indices| && |s.rest| == |t.rest| == |u| - |indices|
            && PopAll(Zip(u, v), indices) == Some(Split(Zip(s.test, t.test), Zip(s.rest, t.rest)))
            && multiset(Zip(s.test, t.test)) + multiset(Zip(s.rest, t.rest)) == multiset(Zip(u, v))
            && Distance(u, v) == Distance(s.test, t.test) + Distance(s.rest, t.rest)
  {
    PopAllSucceeds(u, indices);
    PopAllSucceeds(v, indices);
    PopAllOfZip(u, v, indices);
    PopAllPermutes(Zip(u, v), indices);
    PopAllConservesErrors(u, v, indices);
  }
}
