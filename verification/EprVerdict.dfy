/**
 What the EPR test of the device-independent protocol decides (qchat/protocols.py), said about the rounds
 of the test set and not about how they are counted.
 */
module EprVerdict {
  import opened Bits
  import opened Options
  import opened Sampling
  import opened EprTest

  /** The k below n with p. */
  ghost function Those(n: nat, p: nat -> bool): set<nat> {
    set k: nat | k < n && p(k)
  }

  lemma OneMoreOfThose(n: nat, p: nat -> bool)
    requires n > 0
    ensures |Those(n, p)| == |Those(n - 1, p)| + if p(n - 1) then 1 else 0
  {
    assert Those(n, p) == Those(n - 1, p) + if p(n - 1) then {n - 1} else {};
  }

  lemma KeepOneMore(T: seq<nat>, p: nat -> bool)
    requires T != []
    ensures |Keep(T, p)| == |Keep(T[..|T| - 1], p)| + if p(T[|T| - 1]) then 1 else 0
  {
  }

  lemma {:induction false} KeepCounts(T: seq<nat>, n: nat, p: nat -> bool, q: nat -> bool)
    requires n <= |T| && forall k: nat :: k < n ==> q(k) == p(T[k])
    ensures |Keep(T[..n], p)| == |Those(n, q)|
  {
    if n == 0 {
      assert Those(0, q) == {};
    } else {
      KeepCounts(T, n - 1, p, q);
      OneMoreOfThose(n, q);
      KeepOneMore(T[..n], p);
      assert T[..n][..n - 1] == T[..n - 1] && q(n - 1) == p(T[n - 1]);
    }
  }

  lemma {:induction false} WonCounts(T: seq<nat>, xT: Bits, xTHat: Bits, theta: seq<nat>, thetaHat: seq<nat>,
                                     game: seq<nat>, n: nat, q: nat -> bool)
    requires n <= |T| && n <= |xT| && n <= |xTHat|
    requires forall k: nat :: k < n ==>
               (q(k) <==> Val(xT[k] != xTHat[k]) == BitAnd(At(theta, T[k]), At(thetaHat, T[k])) && T[k] in game)
    ensures Won(T, xT, xTHat, theta, thetaHat, game, n) == |Those(n, q)|
  {
    if n == 0 {
      assert Those(0, q) == {};
    } else {
      WonCounts(T, xT, xTHat, theta, thetaHat, game, n - 1, q);
      OneMoreOfThose(n, q);
    }
  }

  lemma {:induction false} AgreedCounts(T: seq<nat>, xT: Bits, xTHat: Bits, same: seq<nat>, n: nat, q: nat -> bool)
    requires n <= |T| && n <= |xT| && n <= |xTHat|
    requires forall k: nat :: k < n ==> (q(k) <==> xT[k] == xTHat[k] && T[k] in same)
    ensures Agreed(T, xT, xTHat, same, n) == |Those(n, q)|
  {
    if n == 0 {
      assert Those(0, q) == {};
    } else {
      AgreedCounts(T, xT, xTHat, same, n - 1, q);
      OneMoreOfThose(n, q);
    }
  }

  /** `&` on the bases that occur in a game round. */
  lemma AndOfBases(a: nat, b: nat)
    requires a <= 2 && b < 2
    ensures BitAnd(a, b) == BitAnd(b, a) == if a == 1 && b == 1 then 1 else 0
  {
    BitAndIsSymmetric(a, b);
    assert a > 0 && b > 0 ==> BitAnd(a, b) == 2 * BitAnd(a / 2, b / 2) + (a % 2) * (b % 2) && b / 2 == 0;
  }

  /** The bases of the leader and of the follower, for what the party of this role holds as its own and its peer's. */
  function BasesOf(role: Role, theta: seq<nat>, thetaHat: seq<nat>): (seq<nat>, seq<nat>) {
    if role == Leader then (theta, thetaHat) else (thetaHat, theta)
  }

  /** Round k of the test set is a game round: the follower has measured in basis 0 or 1. */
  ghost function Games(follow: seq<nat>, T: seq<nat>): set<nat>
    requires InRange(T, |follow|)
  {
    set k: nat | k < |T| && (follow[T[k]] == 0 || follow[T[k]] == 1)
  }

  /** It is won: the outcomes differ exactly if both bases are 1. */
  ghost function Wins(x: Bits, xTHat: Bits, lead: seq<nat>, follow: seq<nat>, T: seq<nat>): set<nat>
    requires InRange(T, |x|) && |lead| == |follow| == |x| && |xTHat| == |T|
  {
    set k: nat | k < |T| && (follow[T[k]] == 0 || follow[T[k]] == 1)
                 && ((x[T[k]] != xTHat[k]) <==> (lead[T[k]] == 1 && follow[T[k]] == 1))
  }

  /** A same-basis round: the leader in basis 0, the follower in basis 2. */
  ghost function Pairs(lead: seq<nat>, follow: seq<nat>, T: seq<nat>): set<nat>
    requires |lead| == |follow| && InRange(T, |lead|)
  {
    set k: nat | k < |T| && lead[T[k]] == 0 && follow[T[k]] == 2
  }

  ghost function Matches(x: Bits, xTHat: Bits, lead: seq<nat>, follow: seq<nat>, T: seq<nat>): set<nat>
    requires InRange(T, |x|) && |lead| == |follow| == |x| && |xTHat| == |T|
  {
    set k: nat | k < |T| && lead[T[k]] == 0 && follow[T[k]] == 2 && x[T[k]] == xTHat[k]
  }

  lemma {:induction false} SameKeep(T: seq<nat>, p: nat -> bool, q: nat -> bool)
    requires forall j: nat :: p(j) == q(j)
    ensures Keep(T, p) == Keep(T, q)
  {
    if T != [] { SameKeep(T[..|T| - 1], p, q); }
  }

  lemma GamesCount(role: Role, x: Bits, theta: seq<nat>, thetaHat: seq<nat>, T: seq<nat>)
    requires InRange(T, |x|) && |theta| == |thetaHat| == |x|
    ensures |GameRounds(role, theta, thetaHat, T)| == |Games(BasesOf(role, theta, thetaHat).1, T)|
  {
    var follow := BasesOf(role, theta, thetaHat).1;
    var p := (j: nat) => At(follow, j) == 0 || At(follow, j) == 1;
    var G := Games(follow, T);
    var q := (k: nat) => k in G;
    KeepCounts(T, |T|, p, q);
    assert T[..|T|] == T;
    GameRoundsAre(role, theta, thetaHat, T, p);
    assert Those(|T|, q) == G;
  }

  lemma GameRoundsAre(role: Role, theta: seq<nat>, thetaHat: seq<nat>, T: seq<nat>, p: nat -> bool)
    requires forall j: nat :: p(j) <==> var b := At(BasesOf(role, theta, thetaHat).1, j); b == 0 || b == 1
    ensures GameRounds(role, theta, thetaHat, T) == Keep(T, p)
  {
    if role == Leader {
      SameKeep(T, p, (j: nat) => At(thetaHat, j) == 0 || At(thetaHat, j) == 1);
    } else {
      SameKeep(T, p, (j: nat) => At(theta, j) == 0 || At(theta, j) == 1);
    }
  }

  lemma PairsCount(role: Role, x: Bits, theta: seq<nat>, thetaHat: seq<nat>, T: seq<nat>)
    requires InRange(T, |x|) && |theta| == |thetaHat| == |x|
    ensures var (lead, follow) := BasesOf(role, theta, thetaHat);
            |SameBasis(role, theta, thetaHat, T)| == |Pairs(lead, follow, T)|
  {
    var (lead, follow) := BasesOf(role, theta, thetaHat);
    var p := (j: nat) => At(lead, j) == 0 && At(follow, j) == 2;
    var S := Pairs(lead, follow, T);
    var q := (k: nat) => k in S;
    KeepCounts(T, |T|, p, q);
    assert T[..|T|] == T;
    SameBasisIs(role, theta, thetaHat, T, p);
    assert Those(|T|, q) == S;
  }

  lemma SameBasisIs(role: Role, theta: seq<nat>, thetaHat: seq<nat>, T: seq<nat>, p: nat -> bool)
    requires forall j: nat :: p(j) <==>
               At(BasesOf(role, theta, thetaHat).0, j) == 0 && At(BasesOf(role, theta, thetaHat).1, j) == 2
    ensures SameBasis(role, theta, thetaHat, T) == Keep(T, p)
  {
    if role == Leader {
      SameKeep(T, p, (j: nat) => At(theta, j) == 0 && At(thetaHat, j) == 2);
    } else {
      SameKeep(T, p, (j: nat) => At(thetaHat, j) == 0 && At(theta, j) == 2);
    }
  }

  lemma MembersOfGame(role: Role, theta: seq<nat>, thetaHat: seq<nat>, T: seq<nat>, j: nat)
    requires j in T && j < |theta| == |thetaHat|
    ensures j in GameRounds(role, theta, thetaHat, T) <==>
            var b := BasesOf(role, theta, thetaHat).1[j]; b == 0 || b == 1
    ensures j in SameBasis(role, theta, thetaHat, T) <==>
            BasesOf(role, theta, thetaHat).0[j] == 0 && BasesOf(role, theta, thetaHat).1[j] == 2
  {
  }

  /** Round k is won, in the terms of the code and in those of the game. */
  lemma WinAt(role: Role, x: Bits, theta: seq<nat>, thetaHat: seq<nat>, T: seq<nat>, xTHat: Bits, k: nat)
    requires InRange(T, |x|) && |theta| == |thetaHat| == |x| && |xTHat| == |T| && k < |T|
    requires forall j :: 0 <= j < |x| ==> theta[j] <= 2 && thetaHat[j] <= 2
    ensures var (lead, follow) := BasesOf(role, theta, thetaHat);
            k in Wins(x, xTHat, lead, follow, T) <==>
              && Val(Select(x, T)[k] != xTHat[k]) == BitAnd(At(theta, T[k]), At(thetaHat, T[k]))
              && T[k] in GameRounds(role, theta, thetaHat, T)
  {
    var (lead, follow) := BasesOf(role, theta, thetaHat);
    MembersOfGame(role, theta, thetaHat, T, T[k]);
    if follow[T[k]] < 2 {
      AndOfBases(lead[T[k]], follow[T[k]]);
    }
  }

  lemma WinsCount(role: Role, x: Bits, theta: seq<nat>, thetaHat: seq<nat>, T: seq<nat>, xTHat: Bits)
    requires InRange(T, |x|) && |theta| == |thetaHat| == |x| && |xTHat| == |T|
    requires forall j :: 0 <= j < |x| ==> theta[j] <= 2 && thetaHat[j] <= 2
    ensures var (lead, follow) := BasesOf(role, theta, thetaHat);
            Won(T, Select(x, T), xTHat, theta, thetaHat, GameRounds(role, theta, thetaHat, T), |T|)
            == |Wins(x, xTHat, lead, follow, T)|
  {
    var (lead, follow) := BasesOf(role, theta, thetaHat);
    var W := Wins(x, xTHat, lead, follow, T);
    var q := (k: nat) => k in W;
    forall k: nat | k < |T|
      ensures q(k) <==> Val(Select(x, T)[k] != xTHat[k]) == BitAnd(At(theta, T[k]), At(thetaHat, T[k]))
                        && T[k] in GameRounds(role, theta, thetaHat, T)
    {
      WinAt(role, x, theta, thetaHat, T, xTHat, k);
    }
    WonCounts(T, Select(x, T), xTHat, theta, thetaHat, GameRounds(role, theta, thetaHat, T), |T|, q);
    assert Those(|T|, q) == W;
  }

  lemma MatchesCount(role: Role, x: Bits, theta: seq<nat>, thetaHat: seq<nat>, T: seq<nat>, xTHat: Bits)
    requires InRange(T, |x|) && |theta| == |thetaHat| == |x| && |xTHat| == |T|
    ensures var (lead, follow) := BasesOf(role, theta, thetaHat);
            Agreed(T, Select(x, T), xTHat, SameBasis(role, theta, thetaHat, T), |T|)
            == |Matches(x, xTHat, lead, follow, T)|
  {
    var (lead, follow) := BasesOf(role, theta, thetaHat);
    var A := Matches(x, xTHat, lead, follow, T);
    var q := (k: nat) => k in A;
    forall k: nat | k < |T|
      ensures q(k) <==> Select(x, T)[k] == xTHat[k] && T[k] in SameBasis(role, theta, thetaHat, T)
    {
      MembersOfGame(role, theta, thetaHat, T, T[k]);
    }
    AgreedCounts(T, Select(x, T), xTHat, SameBasis(role, theta, thetaHat, T), |T|, q);
    assert Those(|T|, q) == A;
  }

  /** The four numbers that a party computes are the sizes of these sets. */
  lemma ScoreCounts(role: Role, x: Bits, theta: seq<nat>, thetaHat: seq<nat>, T: seq<nat>, xTHat: Bits)
    requires InRange(T, |x|) && |theta| == |thetaHat| == |x| && |xTHat| == |T|
    requires forall j :: 0 <= j < |x| ==> theta[j] <= 2 && thetaHat[j] <= 2
    ensures var (lead, follow) := BasesOf(role, theta, thetaHat);
            ScoreOf(role, x, theta, thetaHat, T, xTHat)
            == Score(|Wins(x, xTHat, lead, follow, T)|, |Games(follow, T)|,
                     |Matches(x, xTHat, lead, follow, T)|, |Pairs(lead, follow, T)|)
  {
    GamesCount(role, x, theta, thetaHat, T);
    PairsCount(role, x, theta, thetaHat, T);
    WinsCount(role, x, theta, thetaHat, T, xTHat);
    MatchesCount(role, x, theta, thetaHat, T, xTHat);
  }

  lemma Empty(S: set<nat>)
    ensures |S| == 0 <==> S == {}
  {
  }

  /**
   The test of a round: there are game rounds G and same-basis rounds S, at least the share 0.7535533905932738 of
   the game rounds is won (W), and at least nine tenths of the same-basis rounds agree (A).
   */
  ghost predicate Passes(x: Bits, xTHat: Bits, lead: seq<nat>, follow: seq<nat>, T: seq<nat>)
    requires InRange(T, |x|) && |lead| == |follow| == |x| && |xTHat| == |T|
  {
    var G := set k: nat | k < |T| && (follow[T[k]] == 0 || follow[T[k]] == 1);
    var W := set k: nat | k in G && ((x[T[k]] != xTHat[k]) <==> (lead[T[k]] == 1 && follow[T[k]] == 1));
    var S := set k: nat | k < |T| && lead[T[k]] == 0 && follow[T[k]] == 2;
    var A := set k: nat | k in S && x[T[k]] == xTHat[k];
    G != {} && S != {} && 10000000000000000 * |W| >= 7535533905932738 * |G| && 10 * |A| >= 9 * |S|
  }

  lemma PassesByCount(x: Bits, xTHat: Bits, lead: seq<nat>, follow: seq<nat>, T: seq<nat>)
    requires InRange(T, |x|) && |lead| == |follow| == |x| && |xTHat| == |T|
    ensures var g, w := |Games(follow, T)|, |Wins(x, xTHat, lead, follow, T)|;
            var s, a := |Pairs(lead, follow, T)|, |Matches(x, xTHat, lead, follow, T)|;
            Passes(x, xTHat, lead, follow, T)
            <==> g > 0 && s > 0 && 10000000000000000 * w >= 7535533905932738 * g && 10 * a >= 9 * s
  {
    var G := set k: nat | k < |T| && (follow[T[k]] == 0 || follow[T[k]] == 1);
    var S := set k: nat | k < |T| && lead[T[k]] == 0 && follow[T[k]] == 2;
    assert Games(follow, T) == G && Pairs(lead, follow, T) == S;
    assert Wins(x, xTHat, lead, follow, T)
        == set k: nat | k in G && ((x[T[k]] != xTHat[k]) <==> (lead[T[k]] == 1 && follow[T[k]] == 1));
    assert Matches(x, xTHat, lead, follow, T) == set k: nat | k in S && x[T[k]] == xTHat[k];
    Empty(G);
    Empty(S);
  }

  /** When a party lets a round of the device-independent protocol pass, whatever its role. */
  lemma PassesIff(role: Role, x: Bits, theta: seq<nat>, thetaHat: seq<nat>, T: seq<nat>, xTHat: Bits,
                  lead: seq<nat>, follow: seq<nat>)
    requires |theta| == |thetaHat| == |x| && |xTHat| == |T| && InRange(T, |x|)
    requires forall j :: 0 <= j < |x| ==> theta[j] <= 2 && thetaHat[j] <= 2
    requires (lead, follow) == if role == Leader then (theta, thetaHat) else (thetaHat, theta)
    ensures Verdict(role, x, theta, thetaHat, T, xTHat).Some? <==> Passes(x, xTHat, lead, follow, T)
  {
    ScoreCounts(role, x, theta, thetaHat, T, xTHat);
    PassesByCount(x, xTHat, lead, follow, T);
  }

  /**
   What the thresholds mean. Devices that win no more than the classical three quarters of the game rounds are
   always rejected, as are those that agree in less than nine tenths of the same-basis rounds; devices with
   76 wins in 100 and nine agreements in ten always pass.
   */
  lemma ThresholdsSeparate(role: Role, x: Bits, theta: seq<nat>, thetaHat: seq<nat>, T: seq<nat>, xTHat: Bits,
                           lead: seq<nat>, follow: seq<nat>)
    requires |theta| == |thetaHat| == |x| && |xTHat| == |T| && InRange(T, |x|)
    requires forall j :: 0 <= j < |x| ==> theta[j] <= 2 && thetaHat[j] <= 2
    requires (lead, follow) == if role == Leader then (theta, thetaHat) else (thetaHat, theta)
    ensures var v := Verdict(role, x, theta, thetaHat, T, xTHat);
            var g, w := |Games(follow, T)|, |Wins(x, xTHat, lead, follow, T)|;
            var s, a := |Pairs(lead, follow, T)|, |Matches(x, xTHat, lead, follow, T)|;
            && (4 * w <= 3 * g ==> v == None)
            && (10 * a < 9 * s ==> v == None)
            && (g > 0 && s > 0 && 100 * w >= 76 * g && 10 * a >= 9 * s ==> v.Some?)
  {
    ScoreCounts(role, x, theta, thetaHat, T, xTHat);
    ScoreThresholds(role, x, theta, thetaHat, T, xTHat);
  }

  /** What is kept: the outcomes of the untested positions with leader's basis 0 and follower's 2, ascending. */
  lemma KeepsUntested(role: Role, x: Bits, theta: seq<nat>, thetaHat: seq<nat>, T: seq<nat>, xTHat: Bits,
                      lead: seq<nat>, follow: seq<nat>) returns (R: seq<nat>)
    requires |theta| == |thetaHat| == |x| && InRange(T, |x|)
    requires (lead, follow) == if role == Leader then (theta, thetaHat) else (thetaHat, theta)
    ensures InRange(R, |x|) && forall a, b :: 0 <= a < b < |R| ==> R[a] < R[b]
    ensures forall j: nat :: j in R <==> j < |x| && j !in T && lead[j] == 0 && follow[j] == 2
    ensures var v := Verdict(role, x, theta, thetaHat, T, xTHat); v.Some? ==> v.value == Select(x, R)
  {
    R := KeptPositions(lead, follow, |x|, T);
    KeptAscend(lead, follow, |x|, T);
    SetsMirror(lead, follow, Untested(|x|, T));
  }
}
