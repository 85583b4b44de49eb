/**
 The EPR test of the device-independent protocol (qchat/protocols.py, `_device_independent_epr_test`):
 leader and follower evaluate role-dependent comprehensions over mirrored bases and must reach one
 verdict and keep the same positions.
 */
module EprTest {
  import opened Bits
  import opened Options
  import opened Sampling

  datatype Role = Leader | Follower

  /** A list comprehension `[j for j in T if p(j)]`. */
  function Keep(T: seq<nat>, p: nat -> bool): (r: seq<nat>)
    ensures forall j :: j in r <==> j in T && p(j)
    ensures |r| <= |T|
  {
    if T == [] then []
    else
      var init, j := T[..|T| - 1], T[|T| - 1];
      assert T == init + [j];
      if p(j) then Keep(init, p) + [j] else Keep(init, p)
  }

  /** Python's `&` on naturals. */
  function BitAnd(a: nat, b: nat): nat {
    if a == 0 || b == 0 then 0 else 2 * BitAnd(a / 2, b / 2) + (a % 2) * (b % 2)
  }

  lemma {:induction false} BitAndIsSymmetric(a: nat, b: nat)
    ensures BitAnd(a, b) == BitAnd(b, a)
  {
    if a > 0 && b > 0 { BitAndIsSymmetric(a / 2, b / 2); }
  }

  predicate InRange(T: seq<nat>, n: nat) {
    forall k :: 0 <= k < |T| ==> T[k] < n
  }

  function At(theta: seq<nat>, j: nat): nat {
    if j < |theta| then theta[j] else 0
  }

  // ----- The sets, as each role computes them

  /** The rounds used for the CHSH game. */
  function GameRounds(role: Role, theta: seq<nat>, thetaHat: seq<nat>, T: seq<nat>): seq<nat> {
    if role == Leader then Keep(T, (j: nat) => At(thetaHat, j) == 0 || At(thetaHat, j) == 1)
    else Keep(T, (j: nat) => At(theta, j) == 0 || At(theta, j) == 1)
  }

  /** The rounds measured "in the same basis": leader's 0 against follower's 2. */
  function SameBasis(role: Role, theta: seq<nat>, thetaHat: seq<nat>, from: seq<nat>): (r: seq<nat>)
    ensures |r| <= |from| && forall k :: 0 <= k < |r| ==> r[k] in from
  {
    if role == Leader then Keep(from, (j: nat) => At(theta, j) == 0 && At(thetaHat, j) == 2)
    else Keep(from, (j: nat) => At(thetaHat, j) == 0 && At(theta, j) == 2)
  }

  /** `set(range(n)) - set(T)` in ascending order. */
  function Untested(n: nat, T: seq<nat>): (r: seq<nat>)
    ensures forall j: nat :: j in r <==> j < n && j !in T
    ensures forall k :: 0 <= k < |r| ==> r[k] < n
    ensures forall a, b :: 0 <= a < b < |r| ==> r[a] < r[b]
    ensures |r| <= n
  {
    if n == 0 then []
    else if n - 1 in T then Untested(n - 1, T)
    else Untested(n - 1, T) + [n - 1]
  }

  /** The game rounds won, among the first n of the test set. */
  function Won(T: seq<nat>, xT: Bits, xTHat: Bits, theta: seq<nat>, thetaHat: seq<nat>, game: seq<nat>, n: nat): nat
    requires n <= |T| && n <= |xT| && n <= |xTHat|
  {
    if n == 0 then 0
    else
      var j := T[n - 1];
      Won(T, xT, xTHat, theta, thetaHat, game, n - 1)
      + if Val(xT[n - 1] != xTHat[n - 1]) == BitAnd(At(theta, j), At(thetaHat, j)) && j in game then 1 else 0
  }

  /** The same-basis rounds in which the outcomes agree, among the first n of the test set. */
  function Agreed(T: seq<nat>, xT: Bits, xTHat: Bits, same: seq<nat>, n: nat): nat
    requires n <= |T| && n <= |xT| && n <= |xTHat|
  {
    if n == 0 then 0
    else Agreed(T, xT, xTHat, same, n - 1) + if xT[n - 1] == xTHat[n - 1] && T[n - 1] in same then 1 else 0
  }

  /** Won rounds and game rounds, matching rounds and same-basis rounds: what the two ratios are made of. */
  datatype Score = Score(won: nat, game: nat, agreed: nat, same: nat)

  function ScoreOf(role: Role, x: Bits, theta: seq<nat>, thetaHat: seq<nat>, T: seq<nat>, xTHat: Bits): Score
    requires InRange(T, |x|)
  {
    var game, same := GameRounds(role, theta, thetaHat, T), SameBasis(role, theta, thetaHat, T);
    var n := if |T| <= |xTHat| then |T| else |xTHat|;
    Score(Won(T, Select(x, T), xTHat, theta, thetaHat, game, n), |game|,
          Agreed(T, Select(x, T), xTHat, same, n), |same|)
  }

  const UNIT := 10000000000000000

  /** PCHSH - 0.1, in units of 10^-16. */
  const CHSH_BOUND := 7535533905932738

  /**
   The remaining bits, or None where the source raises: on an empty set of game or same-basis rounds
   (a division by zero) and when a ratio is below its bound.
   */
  function Verdict(role: Role, x: Bits, theta: seq<nat>, thetaHat: seq<nat>, T: seq<nat>, xTHat: Bits): Option<Bits>
    requires InRange(T, |x|)
  {
    var R := SameBasis(role, theta, thetaHat, Untested(|x|, T));
    assert InRange(R, |x|);
    var s := ScoreOf(role, x, theta, thetaHat, T, xTHat);
    if s.game == 0 || s.same == 0 then None
    else if s.won * UNIT < CHSH_BOUND * s.game || 10 * s.agreed < 9 * s.same then None
    else Some(Select(x, R))
  }

  // ----- Symmetry

  lemma {:induction false} SetsMirror(theta: seq<nat>, thetaHat: seq<nat>, T: seq<nat>)
    ensures GameRounds(Leader, theta, thetaHat, T) == GameRounds(Follower, thetaHat, theta, T)
    ensures SameBasis(Leader, theta, thetaHat, T) == SameBasis(Follower, thetaHat, theta, T)
  {
  }

  lemma {:induction false} WonMirrors(T: seq<nat>, xT: Bits, yT: Bits,
                                      theta: seq<nat>, thetaHat: seq<nat>, game: seq<nat>, n: nat)
    requires n <= |T| && n <= |xT| && n <= |yT|
    ensures Won(T, xT, yT, theta, thetaHat, game, n) == Won(T, yT, xT, thetaHat, theta, game, n)
  {
    if n > 0 {
      WonMirrors(T, xT, yT, theta, thetaHat, game, n - 1);
      BitAndIsSymmetric(At(theta, T[n - 1]), At(thetaHat, T[n - 1]));
    }
  }

  lemma {:induction false} AgreedMirrors(T: seq<nat>, xT: Bits, yT: Bits, same: seq<nat>, n: nat)
    requires n <= |T| && n <= |xT| && n <= |yT|
    ensures Agreed(T, xT, yT, same, n) == Agreed(T, yT, xT, same, n)
  {
    if n > 0 { AgreedMirrors(T, xT, yT, same, n - 1); }
  }

  /** The positions both sides keep when the test passes. */
  function KeptPositions(theta: seq<nat>, thetaHat: seq<nat>, n: nat, T: seq<nat>): seq<nat> {
    SameBasis(Leader, theta, thetaHat, Untested(n, T))
  }

  lemma {:induction false} KeepAscends(T: seq<nat>, p: nat -> bool)
    requires forall a, b :: 0 <= a < b < |T| ==> T[a] < T[b]
    ensures forall a, b :: 0 <= a < b < |Keep(T, p)| ==> Keep(T, p)[a] < Keep(T, p)[b]
  {
    if T != [] {
      var init := T[..|T| - 1];
      KeepAscends(init, p);
      var k := Keep(init, p);
      forall a | 0 <= a < |k| ensures k[a] < T[|T| - 1] {
        assert k[a] in k && k[a] in init;
      }
      assert T == init + [T[|T| - 1]];
    }
  }

  lemma KeptAscend(theta: seq<nat>, thetaHat: seq<nat>, n: nat, T: seq<nat>)
    ensures var R := KeptPositions(theta, thetaHat, n, T); forall a, b :: 0 <= a < b < |R| ==> R[a] < R[b]
  {
    KeepAscends(Untested(n, T), (j: nat) => At(theta, j) == 0 && At(thetaHat, j) == 2);
  }

  /**
   From mirrored bases and one test set, both roles raise or neither does; on success both keep the
   outcomes of the same positions, none of which was tested.
   */
  lemma {:induction false} VerdictsAgree(x: Bits, y: Bits, theta: seq<nat>, thetaHat: seq<nat>, T: seq<nat>)
    requires |x| == |y| && InRange(T, |x|)
    ensures var R := KeptPositions(theta, thetaHat, |x|, T);
            var l := Verdict(Leader, x, theta, thetaHat, T, Select(y, T));
            var f := Verdict(Follower, y, thetaHat, theta, T, Select(x, T));
            && InRange(R, |x|) && (forall a, b :: 0 <= a < b < |R| ==> R[a] < R[b])
            && (forall j :: j in R ==> j < |x| && j !in T && At(theta, j) == 0 && At(thetaHat, j) == 2)
            && (forall j: nat :: j < |x| && j !in T && At(theta, j) == 0 && At(thetaHat, j) == 2 ==> j in R)
            && (l.Some? <==> f.Some?)
            && (l.Some? ==> l.value == Select(x, R) && f.value == Select(y, R))
  {
    SetsMirror(theta, thetaHat, T);
    SetsMirror(theta, thetaHat, Untested(|x|, T));
    KeptAscend(theta, thetaHat, |x|, T);
    var game := GameRounds(Leader, theta, thetaHat, T);
    var same := SameBasis(Leader, theta, thetaHat, T);
    WonMirrors(T, Select(x, T), Select(y, T), theta, thetaHat, game, |T|);
    AgreedMirrors(T, Select(x, T), Select(y, T), same, |T|);
  }

  /**
   What the thresholds mean. Devices that win no more than the classical three quarters of the game
   rounds are always rejected, as are those that agree in less than nine tenths of the same-basis rounds;
   devices with 76 wins in 100 and nine agreements in ten always pass.
   */
  lemma ScoreThresholds(role: Role, x: Bits, theta: seq<nat>, thetaHat: seq<nat>, T: seq<nat>, xTHat: Bits)
    requires InRange(T, |x|)
    ensures var s := ScoreOf(role, x, theta, thetaHat, T, xTHat);
            var v := Verdict(role, x, theta, thetaHat, T, xTHat);
            && (4 * s.won <= 3 * s.game ==> v == None)
            && (10 * s.agreed < 9 * s.same ==> v == None)
            && (s.game > 0 && s.same > 0 && 100 * s.won >= 76 * s.game && 10 * s.agreed >= 9 * s.same ==> v.Some?)
  {
  }
}
