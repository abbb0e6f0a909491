/** Progression: the XP -> level -> rank rules shared by the server handler
    and the client.

    Both places compute the level as `floor((xp / 200) ^ 0.45) + 1` in floating
    point. This module states the exact-arithmetic meaning of that expression:
    for xp >= 0 and k >= 0, `(xp / 200) ^ (9/20) >= k` holds exactly when
    `k^20 * 200^9 <= xp^9`, so the level is one more than the greatest such k.
    Floating-point rounding at the band boundaries themselves is not modelled. */
module Progression {

  function Pow(b: int, n: nat): int
  {
    if n == 0 then 1 else b * Pow(b, n - 1)
  }

  lemma {:induction false} PowNonneg(b: nat, n: nat)
    ensures Pow(b, n) >= 0
  {
    if n > 0 { PowNonneg(b, n - 1); }
  }

  lemma {:induction false} PowPositive(b: nat, n: nat)
    requires b >= 1
    ensures Pow(b, n) >= 1
  {
    if n > 0 { PowPositive(b, n - 1); }
  }

  lemma {:induction false} PowOfOne(n: nat)
    ensures Pow(1, n) == 1
  {
    if n > 0 { PowOfOne(n - 1); }
  }

  lemma MulMonotone(a: int, b: int, x: int, y: int)
    requires 0 <= a <= b && 0 <= x <= y
    ensures a * x <= b * y
  {
    assert a * x <= a * y;
    assert a * y <= b * y;
  }

  lemma MulStrict(a: int, b: int, x: int, y: int)
    requires 0 <= a < b && 0 <= x <= y && y >= 1
    ensures a * x < b * y
  {
    assert a * x <= a * y;
    assert a * y < b * y;
  }

  /** Raising to a power is monotone on the naturals. */
  lemma {:induction false} PowMonotone(a: nat, b: nat, n: nat)
    requires a <= b
    ensures Pow(a, n) <= Pow(b, n)
  {
    if n > 0 {
      PowMonotone(a, b, n - 1);
      PowNonneg(a, n - 1);
      MulMonotone(a, b, Pow(a, n - 1), Pow(b, n - 1));
    }
  }

  lemma {:induction false} PowStrict(a: nat, b: nat, n: nat)
    requires a < b && n >= 1
    ensures Pow(a, n) < Pow(b, n)
  {
    PowMonotone(a, b, n - 1);
    PowNonneg(a, n - 1);
    PowPositive(b, n - 1);
    MulStrict(a, b, Pow(a, n - 1), Pow(b, n - 1));
  }

  /** A base of at least 1 does not shrink under a larger exponent. */
  lemma {:induction false} PowGrowsWithExponent(b: nat, m: nat, n: nat)
    requires b >= 1 && m <= n
    ensures Pow(b, m) <= Pow(b, n)
  {
    if m < n {
      PowGrowsWithExponent(b, m, n - 1);
      PowPositive(b, n - 1);
      assert Pow(b, n - 1) <= b * Pow(b, n - 1);
    }
  }

  lemma {:induction false} PowOfProduct(a: int, b: int, n: nat)
    ensures Pow(a * b, n) == Pow(a, n) * Pow(b, n)
  {
    if n > 0 {
      PowOfProduct(a, b, n - 1);
      calc {
        Pow(a * b, n);
        (a * b) * (Pow(a, n - 1) * Pow(b, n - 1));
        { MulRearrange(a, b, Pow(a, n - 1), Pow(b, n - 1)); }
        (a * Pow(a, n - 1)) * (b * Pow(b, n - 1));
      }
    }
  }

  lemma MulRearrange(a: int, b: int, x: int, y: int)
    ensures (a * b) * (x * y) == (a * x) * (b * y)
  {
  }

  /** `(xp / 200) ^ 0.45 >= k`, in exact integer arithmetic. */
  predicate Reaches(xp: nat, k: nat)
  {
    Pow(k, 20) * Pow(200, 9) <= Pow(xp, 9)
  }

  lemma ReachesZero(xp: nat)
    ensures Reaches(xp, 0)
  {
    PowNonneg(xp, 9);
  }

  /** A band that is reached implies every lower band is reached. */
  lemma ReachesDownward(xp: nat, i: nat, j: nat)
    requires i <= j && Reaches(xp, j)
    ensures Reaches(xp, i)
  {
    PowMonotone(i, j, 20);
    PowPositive(200, 9);
  }

  /** More xp reaches at least the same bands. */
  lemma ReachesUpward(x1: nat, x2: nat, k: nat)
    requires x1 <= x2 && Reaches(x1, k)
    ensures Reaches(x2, k)
  {
    PowMonotone(x1, x2, 9);
  }

  /** No band above xp itself can be reached. */
  lemma ReachesBounded(xp: nat, k: nat)
    requires xp < k
    ensures !Reaches(xp, k)
  {
    PowStrict(xp, k, 9);
    PowGrowsWithExponent(k, 9, 20);
    PowPositive(200, 9);
    PowPositive(k, 20);
    assert Pow(k, 20) <= Pow(k, 20) * Pow(200, 9);
  }

  /** The greatest band at most k that xp reaches. */
  function Greatest(xp: nat, k: nat): (g: nat)
    ensures g <= k && Reaches(xp, g)
    ensures forall j: nat :: g < j <= k ==> !Reaches(xp, j)
  {
    if k == 0 then ReachesZero(xp); 0
    else if Reaches(xp, k) then k
    else Greatest(xp, k - 1)
  }

  /** `calculateLevel`: 1 for negative xp, otherwise one more than the greatest
      band reached, so the bands reached are exactly those below the level. */
  function Level(xp: int): (level: int)
    ensures level >= 1
    ensures xp < 0 ==> level == 1
    ensures xp >= 0 ==> forall k: nat :: Reaches(xp, k) <==> k < level
  {
    if xp < 0 then 1
    else
      var g := Greatest(xp, xp);
      LevelBands(xp, g);
      g + 1
  }

  lemma LevelBands(xp: nat, g: nat)
    requires g <= xp && Reaches(xp, g)
    requires forall j: nat :: g < j <= xp ==> !Reaches(xp, j)
    ensures forall k: nat :: Reaches(xp, k) <==> k <= g
  {
    forall k: nat
      ensures Reaches(xp, k) <==> k <= g
    {
      if k <= g {
        ReachesDownward(xp, k, g);
      } else if k > xp {
        ReachesBounded(xp, k);
      }
    }
  }

  /** The level never decreases as xp grows. */
  lemma LevelMonotone(x1: int, x2: int)
    requires x1 <= x2
    ensures Level(x1) <= Level(x2)
  {
    if x1 >= 0 {
      var l1 := Level(x1);
      assert Reaches(x1, l1 - 1);
      ReachesUpward(x1, x2, l1 - 1);
    }
  }

  /** Every xp below 200 is level 1. */
  lemma LevelBelow200(xp: int)
    requires xp < 200
    ensures Level(xp) == 1
  {
    if xp >= 0 {
      PowStrict(xp, 200, 9);
      PowOfOne(20);
      assert !Reaches(xp, 1);
    }
  }

  /** Level 2 starts exactly at 200 xp and lasts at least until 400. */
  lemma LevelTwoFrom200(xp: int)
    requires 200 <= xp < 400
    ensures Level(xp) == 2
  {
    PowOfOne(20);
    PowMonotone(200, xp, 9);
    assert Reaches(xp, 1);
    PowStrict(xp, 400, 9);
    PowOfProduct(2, 200, 9);
    PowGrowsWithExponent(2, 10, 20);
    PowPositive(2, 9);
    PowPositive(200, 9);
    assert Pow(2, 9) < Pow(2, 10);
    MulStrict(Pow(2, 9), Pow(2, 20), Pow(200, 9), Pow(200, 9));
    assert !Reaches(xp, 2);
  }

  datatype Rank = E | D | C | B | A | S | National

  /** The rank ladder: the highest band whose threshold the level meets. */
  function RankOf(level: int): (r: Rank)
    ensures r == National <==> level >= 100
    ensures r == S <==> 80 <= level < 100
    ensures r == A <==> 60 <= level < 80
    ensures r == B <==> 40 <= level < 60
    ensures r == C <==> 25 <= level < 40
    ensures r == D <==> 10 <= level < 25
    ensures r == E <==> level < 10
  {
    if level >= 100 then National
    else if level >= 80 then S
    else if level >= 60 then A
    else if level >= 40 then B
    else if level >= 25 then C
    else if level >= 10 then D
    else E
  }

  /** The rank's position on the ladder, E lowest. */
  function Ordinal(r: Rank): nat
  {
    match r
    case E => 0
    case D => 1
    case C => 2
    case B => 3
    case A => 4
    case S => 5
    case National => 6
  }

  /** The name the document and the client display for a rank. */
  function RankName(r: Rank): (name: string)
    ensures name != ""
    ensures r == National <==> name == "NATIONAL"
  {
    match r
    case E => "E"
    case D => "D"
    case C => "C"
    case B => "B"
    case A => "A"
    case S => "S"
    case National => "NATIONAL"
  }

  lemma RankNameInjective(r1: Rank, r2: Rank)
    requires RankName(r1) == RankName(r2)
    ensures r1 == r2
  {
  }

  /** The rank never falls as xp grows. */
  lemma RankMonotoneInXp(x1: int, x2: int)
    requires x1 <= x2
    ensures Ordinal(RankOf(Level(x1))) <= Ordinal(RankOf(Level(x2)))
  {
    LevelMonotone(x1, x2);
  }
}
