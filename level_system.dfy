/**
 * The geometric leveling curve: the XP cost of each level, the level reached
 * with a cumulative XP total, progress within a level, level-up detection,
 * the per-level messages and the reference XP table.
 */
module LevelSystem {
  import opened Js

  const BaseXP: nat := 500

  function Pow(b: nat, e: nat): (r: nat)
    ensures b > 0 ==> r > 0
  {
    if e == 0 then 1 else b * Pow(b, e - 1)
  }

  /**
   * floor(500 * 1.5^(level - 1)), computed exactly over the integers:
   * 500 * 3^(level-1) div 2^(level-1), and for a level below 1 (negative
   * exponent) 500 * 2^(1-level) div 3^(1-level).
   */
  function RequiredXP(level: int): (r: nat)
    ensures level >= 1 ==>
      r * Pow(2, level - 1) <= BaseXP * Pow(3, level - 1) < (r + 1) * Pow(2, level - 1)
    ensures level < 1 ==>
      r * Pow(3, 1 - level) <= BaseXP * Pow(2, 1 - level) < (r + 1) * Pow(3, 1 - level)
  {
    if level >= 1 then FloorDiv(BaseXP * Pow(3, level - 1), Pow(2, level - 1))
    else FloorDiv(BaseXP * Pow(2, 1 - level), Pow(3, 1 - level))
  }

  /** Integer division of naturals: the floor of a / b. */
  function FloorDiv(a: nat, b: nat): (q: nat)
    requires b > 0
    ensures q * b <= a < (q + 1) * b
  {
    var q, m := a / b, a % b;
    assert a == q * b + m && m < b;
    assert (q + 1) * b == q * b + b;
    q
  }

  lemma {:induction false} PowTwoAtMostPowThree(k: nat)
    ensures Pow(2, k) <= Pow(3, k)
  {
    if k > 0 {
      PowTwoAtMostPowThree(k - 1);
    }
  }

  lemma DivAtLeast(a: nat, b: nat, c: nat)
    requires b > 0 && c * b <= a
    ensures c <= a / b
  {
    var q, m := a / b, a % b;
    assert a == q * b + m && m < b;
    assert (q + 1 - c) * b == q * b + b - c * b;
    assert (q + 1 - c) * b > 0;
  }

  /** Every level from 1 on costs at least the base 500 XP. */
  lemma RequiredAtLeastBase(level: int)
    requires level >= 1
    ensures RequiredXP(level) >= BaseXP
  {
    PowTwoAtMostPowThree(level - 1);
    DivAtLeast(BaseXP * Pow(3, level - 1), Pow(2, level - 1), BaseXP);
  }

  /** The concrete costs of the first three levels. */
  lemma RequiredXPValues()
    ensures RequiredXP(1) == 500 && RequiredXP(2) == 750 && RequiredXP(3) == 1125
  {
    assert Pow(3, 2) == 9 && Pow(2, 2) == 4;
  }

  /** Each level costs strictly more than the one before it. */
  lemma RequiredXPIncreasing(level: int)
    requires level >= 1
    ensures RequiredXP(level + 1) > RequiredXP(level)
  {
    var k := level - 1;
    var a, b := BaseXP * Pow(3, k), Pow(2, k);
    assert BaseXP * Pow(3, k + 1) == 3 * a;
    assert Pow(2, k + 1) == 2 * b;
    var q := a / b;
    assert q * b <= a;
    PowTwoAtMostPowThree(k);
    assert BaseXP * b <= a;
    assert (q + 1) * (2 * b) == 2 * (q * b) + 2 * b;
    DivAtLeast(3 * a, 2 * b, q + 1);
  }

  /** The sum of RequiredXP(i) for 1 <= i < level: the total XP at which `level` begins. */
  function Accumulated(level: int): (r: nat)
    ensures level <= 1 ==> r == 0
    ensures level >= 1 ==> r >= BaseXP * (level - 1)
    decreases level
  {
    if level <= 1 then 0
    else
      RequiredAtLeastBase(level - 1);
      Accumulated(level - 1) + RequiredXP(level - 1)
  }

  lemma {:induction false} AccumulatedGrows(a: int, b: int)
    requires 1 <= a < b
    ensures Accumulated(a + 1) <= Accumulated(b)
    decreases b - a
  {
    if a + 1 < b {
      AccumulatedGrows(a, b - 1);
    }
  }

  /** `level` is the level of total `x`: its threshold fits (or it is level 1) and the next one does not. */
  predicate IsLevelOf(x: int, level: int)
  {
    level >= 1 && (level == 1 || Accumulated(level) <= x) && x < Accumulated(level + 1)
  }

  /** The level search started at `level`, with the same steps as the source's loop. */
  function LevelFrom(x: int, level: int): (r: int)
    requires level >= 1 && (level == 1 || Accumulated(level) <= x)
    ensures r >= level && IsLevelOf(x, r)
    decreases x - Accumulated(level)
  {
    RequiredAtLeastBase(level);
    if Accumulated(level) + RequiredXP(level) > x then level
    else LevelFrom(x, level + 1)
  }

  /** The level reached with cumulative XP `x`. */
  function Level(x: int): (r: int)
    ensures IsLevelOf(x, r)
  {
    LevelFrom(x, 1)
  }

  /** Only one level satisfies the characterization. */
  lemma LevelUnique(x: int, a: int, b: int)
    requires IsLevelOf(x, a) && IsLevelOf(x, b)
    ensures a == b
  {
    if a < b {
      AccumulatedGrows(a, b);
    } else if b < a {
      AccumulatedGrows(b, a);
    }
  }

  /** For x >= 0 the level is the largest L whose threshold Accumulated(L) fits in x. */
  lemma LevelIsLargest(x: int, l: int)
    requires x >= 0 && l >= 1
    ensures Accumulated(l) <= x <==> l <= Level(x)
  {
    var m := Level(x);
    if l < m {
      AccumulatedGrows(l, m);
      RequiredAtLeastBase(l);
    } else if l > m {
      AccumulatedGrows(m, l);
    }
  }

  /** More XP never means a lower level. */
  lemma LevelMonotone(x: int, y: int)
    requires x <= y
    ensures Level(x) <= Level(y)
  {
    var a, b := Level(x), Level(y);
    if b < a {
      AccumulatedGrows(b, a);
    }
  }

  /** The level begins exactly at its threshold. */
  lemma LevelAtThreshold(level: int)
    requires level >= 1
    ensures Level(Accumulated(level)) == level
  {
    RequiredAtLeastBase(level);
    LevelUnique(Accumulated(level), level, Level(Accumulated(level)));
  }

  lemma LevelValues()
    ensures Level(0) == 1 && Level(499) == 1
    ensures Level(500) == 2 && Level(1249) == 2 && Level(1250) == 3
  {
    RequiredXPValues();
    assert Accumulated(2) == 500;
    assert Accumulated(3) == 1250;
    assert Accumulated(4) == 2375;
    LevelUnique(0, 1, Level(0));
    LevelUnique(499, 1, Level(499));
    LevelUnique(500, 2, Level(500));
    LevelUnique(1249, 2, Level(1249));
    LevelUnique(1250, 3, Level(1250));
  }

  /** With L = Level(x) and x >= 0, progress within L lies in [0, RequiredXP(L)). */
  lemma ProgressWithinLevel(x: int)
    requires x >= 0
    ensures 0 <= x - Accumulated(Level(x)) < RequiredXP(Level(x))
  {
  }

  /** Level from cumulative XP: the greedy subtract-while-it-fits loop. */
  method CalculateLevel(totalXP: int) returns (level: int)
    ensures level == Level(totalXP)
    ensures level >= 1 && (level == 1 || Accumulated(level) <= totalXP)
    ensures totalXP < Accumulated(level) + RequiredXP(level)
  {
    level := 1;
    var accumulatedXP := 0;
    while true
      invariant level >= 1 && accumulatedXP == Accumulated(level)
      invariant level == 1 || accumulatedXP <= totalXP
      invariant LevelFrom(totalXP, level) == Level(totalXP)
      decreases totalXP - accumulatedXP
    {
      var requiredForNextLevel := RequiredXP(level);
      if accumulatedXP + requiredForNextLevel > totalXP {
        break;
      }
      RequiredAtLeastBase(level);
      accumulatedXP := accumulatedXP + requiredForNextLevel;
      level := level + 1;
    }
  }

  /** XP earned inside `currentLevel`: the total minus the threshold of that level. */
  method XPForCurrentLevel(totalXP: int, currentLevel: int) returns (r: int)
    ensures Accumulated(currentLevel) + r == totalXP
    ensures currentLevel == Level(totalXP) && totalXP >= 0 ==> 0 <= r < RequiredXP(currentLevel)
  {
    var accumulatedXP := 0;
    var level := 1;
    while level < currentLevel
      invariant 1 <= level && (currentLevel >= 1 ==> level <= currentLevel)
      invariant currentLevel < 1 ==> level == 1
      invariant accumulatedXP == Accumulated(level)
    {
      accumulatedXP := accumulatedXP + RequiredXP(level);
      level := level + 1;
    }
    r := totalXP - accumulatedXP;
    if currentLevel == Level(totalXP) && totalXP >= 0 {
      ProgressWithinLevel(totalXP);
    }
  }

  /** XP still missing before the next level-up. */
  method XPToNextLevel(totalXP: int, currentLevel: int) returns (r: int)
    ensures r + (totalXP - Accumulated(currentLevel)) == RequiredXP(currentLevel)
    ensures currentLevel >= 1 ==> totalXP + r == Accumulated(currentLevel + 1)
    ensures currentLevel == Level(totalXP) && totalXP >= 0 ==> 0 < r <= RequiredXP(currentLevel)
  {
    var currentLevelXP := XPForCurrentLevel(totalXP, currentLevel);
    var requiredXP := RequiredXP(currentLevel);
    r := requiredXP - currentLevelXP;
  }

  datatype LevelUp = LevelUp(leveled: bool, oldLevel: int, newLevel: int)

  /** Compares the levels before and after an XP change; a multi-level jump reports its endpoints only. */
  method CheckLevelUp(oldXP: int, newXP: int) returns (r: LevelUp)
    ensures r.oldLevel == Level(oldXP) && r.newLevel == Level(newXP)
    ensures r.leveled <==> r.newLevel > r.oldLevel
    ensures oldXP <= newXP ==> r.oldLevel <= r.newLevel
    ensures oldXP == newXP ==> !r.leveled
  {
    var oldLevel := CalculateLevel(oldXP);
    var newLevel := CalculateLevel(newXP);
    if oldXP <= newXP {
      LevelMonotone(oldXP, newXP);
    }
    r := LevelUp(newLevel > oldLevel, oldLevel, newLevel);
  }

  datatype LevelMessage = LevelMessage(title: string, message: string, isSpecial: bool)

  const LevelMessages: map<int, LevelMessage> := map[
    1 := LevelMessage("Lv.1 · 플레이 시작", "당신의 첫 캐릭터가 생성되었습니다.", false),
    2 := LevelMessage("🎉 레벨 업! Lv.2 도달", "이제 하루를 '의식적으로' 플레이하고 있습니다.", true),
    3 := LevelMessage("🎉 Lv.3 달성", "당신은 자신의 하루를 객관적으로 보기 시작했습니다.", false),
    4 := LevelMessage("🎉 Lv.4 도달", "플레이가 습관이 되었습니다.", false),
    5 := LevelMessage("🎉 Lv.5 달성", "이제 당신은 이 게임의 규칙을 이해했습니다.", true),
    6 := LevelMessage("🎉 Lv.6 도달", "플레이에 '조절'이 들어가기 시작했습니다.", false),
    7 := LevelMessage("🎉 Lv.7 달성", "당신만의 플레이 스타일이 보입니다.", false),
    8 := LevelMessage("🎉 Lv.8 도달", "꾸준함이 가장 강한 스킬이 되었습니다.", false),
    9 := LevelMessage("🎉 Lv.9 달성", "당신은 이미 충분히 잘 플레이하고 있습니다.", false),
    10 := LevelMessage("👑 Lv.10 도달", "당신은 이 게임의 베테랑입니다.", true)
  ]

  /** The message of a level: the table entry for 1..10, a generic one otherwise. */
  function GetLevelMessage(level: int): (r: LevelMessage)
    ensures 1 <= level <= 10 ==> level in LevelMessages && r == LevelMessages[level]
    ensures !(1 <= level <= 10) ==>
      r == LevelMessage("🎉 Lv." + IntToString(level) + " 달성", "플레이를 계속하고 있습니다.", false)
    ensures r.isSpecial <==> level == 2 || level == 5 || level == 10
  {
    if level in LevelMessages then LevelMessages[level]
    else LevelMessage("🎉 Lv." + IntToString(level) + " 달성", "플레이를 계속하고 있습니다.", false)
  }

  /** Levels outside the table print their number, sign included. */
  lemma DefaultMessageExamples()
    ensures GetLevelMessage(11).title == "🎉 Lv.11 달성"
    ensures GetLevelMessage(123).title == "🎉 Lv.123 달성"
    ensures GetLevelMessage(-3).title == "🎉 Lv.-3 달성"
    ensures GetLevelMessage(0).title == "🎉 Lv.0 달성"
  {
  }

  datatype XPRow = XPRow(level: int, required: nat, accumulated: nat)

  /** The reference table of the first `maxLevel` levels (10 by default). */
  method XPTable(maxLevel: int := 10) returns (table: seq<XPRow>)
    ensures |table| == if maxLevel < 0 then 0 else maxLevel
    ensures forall k :: 0 <= k < |table| ==>
      table[k] == XPRow(k + 1, RequiredXP(k + 1), Accumulated(k + 1))
    ensures |table| > 0 ==> table[0].accumulated == 0
    ensures forall k :: 0 < k < |table| ==>
      table[k].accumulated == table[k - 1].accumulated + table[k - 1].required
  {
    table := [];
    var accumulated := 0;
    var level := 1;
    while level <= maxLevel
      invariant 1 <= level && (maxLevel >= 0 ==> level <= maxLevel + 1)
      invariant maxLevel < 0 ==> level == 1
      invariant |table| == level - 1 && accumulated == Accumulated(level)
      invariant forall k :: 0 <= k < |table| ==>
        table[k] == XPRow(k + 1, RequiredXP(k + 1), Accumulated(k + 1))
    {
      var required := RequiredXP(level);
      table := table + [XPRow(level, required, accumulated)];
      accumulated := accumulated + required;
      level := level + 1;
    }
  }
}
