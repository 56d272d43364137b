/**
 * The play-style label of a stat vector and the percentile rank tier of a
 * player among the eligible population.
 */
module PlayerStyle {
  import opened Records

  datatype PlayStyle =
    | StartingOut      // too little activity to classify
    | Balanced
    | GrowthCentred
    | MentalSteady
    | FocusCentred
    | HealthMinded
    | Freeform         // the fallback after the four dimension checks

  function StyleLabel(p: PlayStyle): string
  {
    match p
    case StartingOut => "플레이 시작 단계"
    case Balanced => "균형 잡힌 플레이어"
    case GrowthCentred => "성장 중심 플레이어"
    case MentalSteady => "멘탈 안정형 플레이어"
    case FocusCentred => "집중력 중심 플레이어"
    case HealthMinded => "건강 관리형 플레이어"
    case Freeform => "자유로운 플레이어"
  }

  function Abs(x: int): nat { if x < 0 then -x else x }

  function Max(a: int, b: int): int { if a < b then b else a }

  function Min(a: int, b: int): int { if a < b then a else b }

  function Max4(a: int, b: int, c: int, d: int): int { Max(Max(Max(a, b), c), d) }

  function Min4(a: int, b: int, c: int, d: int): int { Min(Min(Min(a, b), c), d) }

  /** The sum of the four magnitudes. */
  function TotalActivity(s: Stats): nat
  {
    Abs(s.focus) + Abs(s.health) + Abs(s.mental) + Abs(s.growth)
  }

  /** Largest minus smallest of the four signed totals. */
  function Spread(s: Stats): int
  {
    Max4(s.focus, s.health, s.mental, s.growth) - Min4(s.focus, s.health, s.mental, s.growth)
  }

  /** Is `x` at least as large in magnitude as each of `others`? */
  predicate Dominates(x: int, a: int, b: int, c: int)
  {
    Abs(x) >= Abs(a) && Abs(x) >= Abs(b) && Abs(x) >= Abs(c)
  }

  /**
   * The play style of a stat vector. Too little activity first, then a
   * narrow spread with enough activity, then the largest magnitude with ties
   * going to growth, mental, focus, health in that order; sign is ignored in
   * that last step, and the fallback can never be reached.
   */
  function GetPlayStyle(s: Stats): (r: PlayStyle)
    ensures r != Freeform
    ensures r == StartingOut <==> TotalActivity(s) < 10
    ensures r == Balanced <==> Spread(s) < 20 && TotalActivity(s) > 20
    ensures r == GrowthCentred ==> Dominates(s.growth, s.mental, s.focus, s.health)
    ensures r == MentalSteady ==>
      Abs(s.mental) > Abs(s.growth) && Dominates(s.mental, s.growth, s.focus, s.health)
    ensures r == FocusCentred ==>
      Abs(s.focus) > Abs(s.growth) && Abs(s.focus) > Abs(s.mental)
      && Dominates(s.focus, s.growth, s.mental, s.health)
    ensures r == HealthMinded ==>
      Abs(s.health) > Abs(s.growth) && Abs(s.health) > Abs(s.mental) && Abs(s.health) > Abs(s.focus)
  {
    Classify(TotalActivity(s), Spread(s), Abs(s.focus), Abs(s.health), Abs(s.mental), Abs(s.growth))
  }

  /** The decision steps of GetPlayStyle on the activity, the spread and the four magnitudes. */
  function Classify(total: int, spread: int, focus: int, health: int, mental: int, growth: int): (r: PlayStyle)
    ensures r != Freeform
    ensures r == StartingOut <==> total < 10
    ensures r == Balanced <==> spread < 20 && total > 20
    ensures r == GrowthCentred ==> growth >= Max4(focus, health, mental, growth)
  {
    if total < 10 then StartingOut
    else
      var maxStat := Max4(focus, health, mental, growth);
      if spread < 20 && total > 20 then Balanced
      else if growth == maxStat then GrowthCentred
      else if mental == maxStat then MentalSteady
      else if focus == maxStat then FocusCentred
      else if health == maxStat then HealthMinded
      else Freeform
  }

  /** Activity between 10 and 20 is never classified as balanced, whatever the spread. */
  lemma ModerateActivityNeverBalanced(s: Stats)
    requires 10 <= TotalActivity(s) <= 20
    ensures GetPlayStyle(s) != Balanced && GetPlayStyle(s) != StartingOut
  {
  }

  function Negate(s: Stats): Stats
  {
    Stats(-s.focus, -s.health, -s.mental, -s.growth)
  }

  /** Flipping the sign of every stat never changes the play style. */
  lemma PlayStyleSignFree(s: Stats)
    ensures GetPlayStyle(Negate(s)) == GetPlayStyle(s)
  {
    var n := Negate(s);
    NegatedSpread(s);
    assert Abs(n.focus) == Abs(s.focus) && Abs(n.health) == Abs(s.health);
    assert Abs(n.mental) == Abs(s.mental) && Abs(n.growth) == Abs(s.growth);
    StyleFromMagnitudesAndSpread(n, s);
  }

  lemma NegatedSpread(s: Stats)
    ensures Spread(Negate(s)) == Spread(s)
  {
    var n := Negate(s);
    assert Max4(n.focus, n.health, n.mental, n.growth) == -Min4(s.focus, s.health, s.mental, s.growth);
    assert Min4(n.focus, n.health, n.mental, n.growth) == -Max4(s.focus, s.health, s.mental, s.growth);
  }

  /** The style is a function of the four magnitudes and the spread. */
  lemma StyleFromMagnitudesAndSpread(s: Stats, t: Stats)
    requires Spread(s) == Spread(t)
    requires Abs(s.focus) == Abs(t.focus) && Abs(s.health) == Abs(t.health)
    requires Abs(s.mental) == Abs(t.mental) && Abs(s.growth) == Abs(t.growth)
    ensures GetPlayStyle(s) == GetPlayStyle(t)
  {
    assert TotalActivity(s) == TotalActivity(t);
  }

  lemma PlayStyleExamples()
    ensures GetPlayStyle(Stats(0, 0, 0, 0)) == StartingOut
    ensures GetPlayStyle(Stats(15, 14, 13, 16)) == Balanced
    ensures GetPlayStyle(Stats(5, 3, 2, 40)) == GrowthCentred
    ensures GetPlayStyle(Stats(0, 0, -20, 20)) == GrowthCentred
    ensures GetPlayStyle(Stats(-30, 0, 0, 0)) == FocusCentred
  {
  }

  datatype RankTier = Top10 | Top30 | Playing

  function TierLabel(t: RankTier): string
  {
    match t
    case Top10 => "상위 10%"
    case Top30 => "상위 30%"
    case Playing => "플레이 중"
  }

  /** 0 for the best tier, 2 for the plain one. */
  function TierOrder(t: RankTier): nat
  {
    match t
    case Top10 => 0
    case Top30 => 1
    case Playing => 2
  }

  /**
   * The tier of a player given the eligible population size and the number
   * of eligible players with strictly more XP. The percentile
   * (higher / total) * 100 is compared against 10 and 30 by
   * cross-multiplication; the player's own XP plays no part.
   */
  function GetRankTier(myXP: int, totalPlayers: int, higherRankedCount: int): (r: RankTier)
    ensures r == Top10 <==> totalPlayers >= 2 && 10 * higherRankedCount <= totalPlayers
    ensures r == Top30 <==>
      totalPlayers >= 2 && totalPlayers < 10 * higherRankedCount <= 3 * totalPlayers
    ensures r == Playing <==> totalPlayers < 2 || 3 * totalPlayers < 10 * higherRankedCount
  {
    if totalPlayers < 2 then Playing
    else if higherRankedCount * 100 <= 10 * totalPlayers then Top10
    else if higherRankedCount * 100 <= 30 * totalPlayers then Top30
    else Playing
  }

  /** The tier does not depend on the player's own XP. */
  lemma RankTierIgnoresXP(x: int, y: int, totalPlayers: int, higherRankedCount: int)
    ensures GetRankTier(x, totalPlayers, higherRankedCount) == GetRankTier(y, totalPlayers, higherRankedCount)
  {
  }

  /** More players ahead, at the same population size, never gives a better tier. */
  lemma RankTierMonotone(x: int, totalPlayers: int, h1: int, h2: int)
    requires h1 <= h2
    ensures TierOrder(GetRankTier(x, totalPlayers, h1)) <= TierOrder(GetRankTier(x, totalPlayers, h2))
  {
  }

  lemma RankTierExamples(x: int, t: int)
    requires t >= 2
    ensures GetRankTier(x, 1, 0) == Playing
    ensures GetRankTier(x, 100, 5) == Top10
    ensures GetRankTier(x, 100, 25) == Top30
    ensures GetRankTier(x, 100, 50) == Playing
    ensures GetRankTier(x, t, 0) == Top10
  {
  }
}
