/**
 * How the stored level relates to the leveling curve. The store keeps the
 * flat level `xp / 500 + 1`, while the pages read progress through the
 * geometric curve with that stored level.
 */
module LevelMismatch {
  import LevelSystem
  import CharacterService

  /** The stored flat level is never below the level the curve gives. */
  lemma FlatLevelAtLeastCurve(x: int)
    requires x >= 0
    ensures CharacterService.FlatLevel(x) >= LevelSystem.Level(x)
  {
    var l := LevelSystem.Level(x);
    assert LevelSystem.BaseXP * (l - 1) <= x;
    assert 500 * CharacterService.FlatLevel(x) > x;
  }

  /**
   * Progress within the stored level is `xp` minus the curve's threshold of
   * that level; it is negative exactly when the stored level is ahead of
   * the curve.
   */
  function StoredProgress(xp: int): (p: int)
    ensures xp >= 0 ==> (p < 0 <==> CharacterService.FlatLevel(xp) > LevelSystem.Level(xp))
    ensures xp < 0 ==> p == xp
  {
    var flat := CharacterService.FlatLevel(xp);
    if xp >= 0 then
      LevelSystem.LevelIsLargest(xp, flat);
      FlatLevelAtLeastCurve(xp);
      xp - LevelSystem.Accumulated(flat)
    else
      xp - LevelSystem.Accumulated(flat)
  }

  /** At 1000 XP the stored level is 3 while the curve gives 2, and the progress shown is -250. */
  lemma ProgressNegativeAt1000()
    ensures CharacterService.FlatLevel(1000) == 3
    ensures LevelSystem.Level(1000) == 2
    ensures LevelSystem.Accumulated(3) == 1250
    ensures StoredProgress(1000) == -250
  {
    LevelSystem.RequiredXPValues();
    assert LevelSystem.Accumulated(3) == 1250;
    LevelSystem.LevelIsLargest(1000, 2);
    LevelSystem.LevelIsLargest(1000, 3);
  }

  /**
   * Negative XP is reachable (the reply check does not bound it): 0 XP plus
   * -5 is stored as flat level 0, where the curve says level 1, and the
   * character page then asks the curve for the cost of level 0.
   */
  lemma NegativeXPStoresLevelZero()
    ensures CharacterService.FlatLevel(-5) == 0
    ensures LevelSystem.Level(-5) == 1
    ensures LevelSystem.RequiredXP(0) == 333
    ensures StoredProgress(-5) == -5
  {
    assert LevelSystem.Pow(2, 1) == 2 && LevelSystem.Pow(3, 1) == 3;
  }

  /** Below the second threshold of the curve the two levels agree. */
  lemma LevelsAgreeBelow1000(xp: int)
    requires 0 <= xp < 1000
    ensures CharacterService.FlatLevel(xp) == LevelSystem.Level(xp)
  {
    LevelSystem.RequiredXPValues();
    assert LevelSystem.Accumulated(2) == 500;
    assert LevelSystem.Accumulated(3) == 1250;
    if xp < 500 {
      LevelSystem.LevelIsLargest(xp, 2);
    } else {
      LevelSystem.LevelIsLargest(xp, 2);
      LevelSystem.LevelIsLargest(xp, 3);
    }
  }
}
