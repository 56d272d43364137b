/** The row shapes of the `characters` and `daily_logs` tables. */
module Records {
  import opened Wrappers

  /** The four stat totals (or the four per-session deltas). */
  datatype Stats = Stats(focus: int, health: int, mental: int, growth: int)

  const ZeroStats := Stats(0, 0, 0, 0)

  /** Elementwise sum, without clamping. */
  function AddStats(a: Stats, b: Stats): Stats
  {
    Stats(a.focus + b.focus, a.health + b.health, a.mental + b.mental, a.growth + b.growth)
  }

  /**
   * A `characters` row. `userId` is null for characters created without an
   * account; `name` is set by the character-creation page and `nickname` by
   * the first sign-in.
   */
  datatype Character = Character(
    id: string,
    userId: Option<string>,
    name: Option<string>,
    nickname: Option<string>,
    level: int,
    xp: int,
    stats: Stats)

  /** A `daily_logs` row. */
  datatype DailyLog = DailyLog(
    characterId: string,
    logDate: string,
    rawText: string,
    focusDelta: int,
    healthDelta: int,
    mentalDelta: int,
    growthDelta: int,
    xpGained: int,
    aiComment: string)
}
