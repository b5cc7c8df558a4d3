/**
 * The console tracker's experience system (ConsoleApp/Models/LevelSystem.cs):
 * the XP curve `100 * level^1.5`, the level a total of XP reaches, the progress
 * inside that level, and the XP that tasks and habits grant.
 */
module Leveling {

  /** The highest level `CalculateLevel` ever reports. */
  const MaxLevel := 1000

  /** The integer square root: the largest `r` with `r * r <= n`. */
  function ISqrt(n: nat): (r: nat)
    ensures r * r <= n < (r + 1) * (r + 1)
  {
    if n < 4 then (if n == 0 then 0 else 1)
    else
      var s := ISqrt(n / 4);
      var r := 2 * s;
      HalfRootStep(n, s);
      if (r + 1) * (r + 1) <= n then r + 1 else r
  }

  lemma HalfRootStep(n: nat, s: nat)
    requires s * s <= n / 4 < (s + 1) * (s + 1)
    ensures (2 * s) * (2 * s) <= n < (2 * s + 2) * (2 * s + 2)
  {
    assert n / 4 + 1 <= (s + 1) * (s + 1);
    assert (2 * s + 2) * (2 * s + 2) == 4 * ((s + 1) * (s + 1));
    assert (2 * s) * (2 * s) == 4 * (s * s);
  }

  lemma SquareMonotone(a: nat, b: nat)
    ensures a <= b ==> a * a <= b * b
  {
    if a <= b {
      assert a * a <= a * b <= b * b;
    }
  }

  /** Every `r` whose square fits under `n` is at most `ISqrt(n)`. */
  lemma ISqrtLower(n: nat, r: nat)
    requires r * r <= n
    ensures r <= ISqrt(n)
  {
    SquareMonotone(ISqrt(n) + 1, r);
  }

  /** The bracket `r * r <= n < (r + 1)^2` determines the root. */
  lemma ISqrtUnique(n: nat, r: nat)
    requires r * r <= n < (r + 1) * (r + 1)
    ensures ISqrt(n) == r
  {
    ISqrtLower(n, r);
    SquareMonotone(r + 1, ISqrt(n));
  }

  /**
   * `GetXPForLevel`: `(long)(100 * Math.Pow(level, 1.5))`, the XP that completing
   * `level` costs, as the exact floor `floor(sqrt(10000 * level^3))`.
   */
  function XPForLevel(level: nat): nat
  {
    ISqrt(10000 * (level * level * level))
  }

  /** Level 1 costs 100 XP: the `XPToNextLevel` a new player starts with. */
  lemma XPForFirstLevel()
    ensures XPForLevel(1) == 100
  {
    ISqrtUnique(10000, 100);
  }

  /** The curve is positive from level 1 on and strictly increasing. */
  lemma XPForLevelGrows(level: nat)
    requires level >= 1
    ensures XPForLevel(level) >= 100
    ensures XPForLevel(level) < XPForLevel(level + 1)
  {
    var n := level;
    var r := XPForLevel(n);
    CubeFacts(n);
    ISqrtLower(10000 * (n * n * n), 100);
    RootBelowSquare(n * n, n * n * n, r);
    NextRootFits(n * n, n * n * n, (n + 1) * (n + 1) * (n + 1), r);
    ISqrtLower(10000 * ((n + 1) * (n + 1) * (n + 1)), r + 1);
  }

  lemma CubeFacts(n: nat)
    requires n >= 1
    ensures n * n >= 1
    ensures 1 <= n * n * n <= (n * n) * (n * n)
    ensures (n + 1) * (n + 1) * (n + 1) == n * n * n + 3 * (n * n) + 3 * n + 1
    ensures n <= n * n
  {
    assert n * n >= n * 1;
    assert n * n * n == (n * n) * n;
    assert (n * n) * n <= (n * n) * (n * n);
    assert (n + 1) * (n + 1) == n * n + 2 * n + 1;
    assert (n + 1) * (n + 1) * (n + 1) == (n * n + 2 * n + 1) * (n + 1);
  }

  /** With q = n^2 and c = n^3 <= q^2: a root of 10000 c is at most 100 q. */
  lemma RootBelowSquare(q: nat, c: nat, r: nat)
    requires c <= q * q
    requires r * r <= 10000 * c
    ensures r <= 100 * q
  {
    assert (100 * q) * (100 * q) == 10000 * (q * q);
    SquareMonotone(100 * q + 1, r);
    assert (100 * q + 1) * (100 * q + 1) > (100 * q) * (100 * q);
  }

  /** One more unit of root still fits under the next cube. */
  lemma NextRootFits(q: nat, c: nat, c': nat, r: nat)
    requires q >= 1
    requires c' >= c + 3 * q + 1
    requires r <= 100 * q
    requires r * r <= 10000 * c
    ensures (r + 1) * (r + 1) <= 10000 * c'
  {
    assert (r + 1) * (r + 1) == r * r + 2 * r + 1;
  }

  /** The XP needed to complete levels 1..n: `Cum(n)`; zero for `n <= 0`. */
  function Cum(n: int): nat
  {
    if n <= 0 then 0 else Cum(n - 1) + XPForLevel(n)
  }

  /** The cumulative curve is strictly increasing on the naturals. */
  lemma {:induction false} CumStrict(a: int, b: int)
    requires 0 <= a < b
    ensures Cum(a) < Cum(b)
  {
    CumStep(b);
    if a < b - 1 {
      CumStrict(a, b - 1);
    }
  }

  /** Each level adds at least the first level's 100 XP to the cumulative curve. */
  lemma CumStep(n: int)
    requires n >= 1
    ensures Cum(n) >= Cum(n - 1) + 100
  {
    XPForLevelGrows(n);
  }

  /** The cumulative curve never decreases. */
  lemma CumMonotone(a: int, b: int)
    ensures 0 <= a <= b ==> Cum(a) <= Cum(b)
  {
    if 0 <= a < b {
      CumStrict(a, b);
    }
  }

  /**
   * The level search from `l` on: the first level `r >= l` whose cumulative cost
   * exceeds `xp`, stopping at `MaxLevel`.
   */
  function Find(xp: int, l: nat): (r: nat)
    requires 1 <= l <= MaxLevel
    ensures l <= r <= MaxLevel
    ensures r < MaxLevel ==> xp < Cum(r)
    ensures forall k :: l <= k < r ==> Cum(k) <= xp
    decreases MaxLevel - l
  {
    if l >= MaxLevel || xp < Cum(l) then l else Find(xp, l + 1)
  }

  /**
   * The level that `xp` total experience reaches: the first level whose
   * cumulative cost is above `xp`, or `MaxLevel`.
   */
  function LevelOf(xp: int): (r: nat)
    ensures 1 <= r <= MaxLevel
    ensures r < MaxLevel ==> xp < Cum(r)
    ensures xp >= 0 ==> Cum(r - 1) <= xp
  {
    Find(xp, 1)
  }

  /** Conversely, a level whose bracket holds `xp` is the level of `xp`. */
  lemma LevelOfUnique(xp: int, level: nat)
    requires 1 <= level <= MaxLevel
    requires Cum(level - 1) <= xp
    requires level < MaxLevel ==> xp < Cum(level)
    ensures LevelOf(xp) == level
  {
    var r := LevelOf(xp);
    CumMonotone(r, level - 1);
    CumMonotone(level, r - 1);
  }

  /** More experience never lowers the level. */
  lemma LevelOfMonotone(x: int, y: int)
    requires x <= y
    ensures LevelOf(x) <= LevelOf(y)
  {
    var rx, ry := LevelOf(x), LevelOf(y);
    assert forall k :: 1 <= k < rx ==> Cum(k) <= x;
  }

  /** Any total below the first level's 100 XP, negative ones included, is level 1. */
  lemma LevelOfBelowFirst(xp: int)
    requires xp < 100
    ensures LevelOf(xp) == 1
  {
    XPForFirstLevel();
    assert Cum(1) == 100;
  }

  /**
   * `LevelCalculator.CalculateLevel`: counts up the levels while the
   * cumulative cost stays within `totalXP`, breaking off past level 1000.
   */
  method CalculateLevel(totalXP: int) returns (r: int)
    ensures r == LevelOf(totalXP)
  {
    var level := 1;
    var xpNeeded := 0;
    while xpNeeded <= totalXP
      invariant 1 <= level <= MaxLevel
      invariant xpNeeded == Cum(level - 1)
      invariant level >= 2 ==> Find(totalXP, 1) == Find(totalXP, level - 1)
      decreases MaxLevel - level
    {
      level := level + 1;
      xpNeeded := xpNeeded + XPForLevel(level - 1);
      assert xpNeeded == Cum(level - 1);
      if level > MaxLevel {
        break;
      }
    }
    r := if level - 1 > 1 then level - 1 else 1;
  }

  /** The progress through a level: XP earned inside it and the XP it costs. */
  datatype Progress = Progress(currentLevelXP: int, xpToNextLevel: int)

  /**
   * `LevelCalculator.GetLevelProgress`: the XP beyond what levels
   * 1..currentLevel-1 cost, and the cost of `currentLevel` itself.
   */
  method GetLevelProgress(totalXP: int, currentLevel: nat) returns (p: Progress)
    ensures p.currentLevelXP == totalXP - Cum(currentLevel - 1)
    ensures p.xpToNextLevel == XPForLevel(currentLevel)
  {
    var xpForCurrentLevel := 0;
    var i := 1;
    while i < currentLevel
      invariant 1 <= i <= if currentLevel < 1 then 1 else currentLevel
      invariant xpForCurrentLevel == Cum(i - 1)
    {
      xpForCurrentLevel := xpForCurrentLevel + XPForLevel(i);
      i := i + 1;
    }
    p := Progress(totalXP - xpForCurrentLevel, XPForLevel(currentLevel));
  }

  /**
   * Below the cap, the progress of a non-negative total at its own level lies
   * inside the level: `0 <= CurrentLevelXP < XPToNextLevel`.
   */
  lemma ProgressWithinLevel(xp: int)
    requires 0 <= xp && LevelOf(xp) < MaxLevel
    ensures var l := LevelOf(xp);
      0 <= xp - Cum(l - 1) < XPForLevel(l)
  {
  }

  /** `GetXPForTask`: 20 XP per priority point plus 10. */
  function XPForTask(priority: int): int
  {
    priority * 20 + 10
  }

  /** A task of a higher priority is worth strictly more; priorities 1..5 give 30..110. */
  lemma XPForTaskOrder(p: int, q: int)
    requires p < q
    ensures XPForTask(p) < XPForTask(q)
    ensures 1 <= p ==> XPForTask(p) >= 30
    ensures q <= 5 ==> XPForTask(q) <= 110
  {
  }

  /** `GetXPForHabit`: every habit is worth the same. */
  const XPForHabit := 15

  /**
   * `LevelSystem`: the player's saved level state. `lastLevelUp` is in ticks;
   * `DateTime.MinValue` is tick 0.
   */
  class LevelSystem {
    var level: int
    var totalXP: int
    var currentLevelXP: int
    var xpToNextLevel: int
    var lastLevelUp: int

    /** The fields agree with what `AddXPAsync` derives from `totalXP`. */
    predicate Valid()
      reads this
    {
      level == LevelOf(totalXP)
      && currentLevelXP == totalXP - Cum(level - 1)
      && xpToNextLevel == XPForLevel(level)
    }

    /** A new player: level 1, no XP, 100 XP to go. */
    constructor ()
      ensures level == 1 && totalXP == 0 && currentLevelXP == 0 && xpToNextLevel == 100
      ensures lastLevelUp == 0
      ensures Valid()
    {
      level, totalXP, currentLevelXP, xpToNextLevel, lastLevelUp := 1, 0, 0, 100, 0;
      XPForFirstLevel();
      LevelOfBelowFirst(0);
    }
  }
}
