/**
 * Character persistence: the flat level formula used when a character is
 * saved, the record builders, and the store of `characters` and
 * `daily_logs` rows with its create, read, update and log operations.
 */
module CharacterService {
  import opened Wrappers
  import opened Records

  /** floor(xp / 500) + 1; Dafny's division by a positive divisor already floors. */
  function FlatLevel(xp: int): (r: int)
    ensures 500 * (r - 1) <= xp < 500 * r
  {
    xp / 500 + 1
  }

  lemma FlatLevelValues()
    ensures FlatLevel(0) == 1 && FlatLevel(499) == 1 && FlatLevel(500) == 2 && FlatLevel(1000) == 3
  {
  }

  /** The row inserted for a new character. */
  function NewCharacter(id: string, name: string): (c: Character)
    ensures c.id == id && c.name == Some(name) && c.userId == None && c.nickname == None
    ensures c.level == 1 && c.xp == 0 && c.stats == ZeroStats
  {
    Character(id, None, Some(name), None, 1, 0, ZeroStats)
  }

  /** A new character's stored level agrees with the flat formula. */
  lemma NewCharacterLevelIsFlat(id: string, name: string)
    ensures NewCharacter(id, name).level == FlatLevel(NewCharacter(id, name).xp)
  {
  }

  /**
   * The row after one stat update: stats summed elementwise without clamping,
   * XP summed, level recomputed with the flat formula; the identity fields
   * are kept.
   */
  function ApplyUpdate(c: Character, statDeltas: Stats, xpGained: int): (r: Character)
    ensures r.id == c.id && r.userId == c.userId && r.name == c.name && r.nickname == c.nickname
    ensures r.stats.focus == c.stats.focus + statDeltas.focus
    ensures r.stats.health == c.stats.health + statDeltas.health
    ensures r.stats.mental == c.stats.mental + statDeltas.mental
    ensures r.stats.growth == c.stats.growth + statDeltas.growth
    ensures r.xp == c.xp + xpGained
    ensures r.level == FlatLevel(r.xp)
  {
    var newXp := c.xp + xpGained;
    c.(stats := AddStats(c.stats, statDeltas), xp := newXp, level := FlatLevel(newXp))
  }

  /** Two updates in sequence amount to one update with the summed deltas. */
  lemma UpdatesCompose(c: Character, d1: Stats, x1: int, d2: Stats, x2: int)
    ensures ApplyUpdate(ApplyUpdate(c, d1, x1), d2, x2) == ApplyUpdate(c, AddStats(d1, d2), x1 + x2)
  {
  }

  /** The `daily_logs` row of one analysed session, dated `today`. */
  function NewLog(characterId: string, rawText: string, stats: Stats, xpGained: int,
                  aiComment: string, today: string): (l: DailyLog)
    ensures l.characterId == characterId && l.logDate == today && l.rawText == rawText
    ensures l.focusDelta == stats.focus && l.healthDelta == stats.health
    ensures l.mentalDelta == stats.mental && l.growthDelta == stats.growth
    ensures l.xpGained == xpGained && l.aiComment == aiComment
  {
    DailyLog(characterId, today, rawText, stats.focus, stats.health, stats.mental, stats.growth,
             xpGained, aiComment)
  }

  /**
   * The `characters` table keyed by id and the append-only `daily_logs`
   * table. A `writeOk` argument stands for the remote store accepting or
   * failing a write.
   */
  class CharacterStore {
    var characters: map<string, Character>
    var logs: seq<DailyLog>

    /** Every row is stored under its own id. */
    ghost predicate Valid()
      reads this
    {
      forall id :: id in characters ==> characters[id].id == id
    }

    /** Every stored level is the flat level of the stored XP. */
    ghost predicate LevelsFlat()
      reads this
    {
      forall id :: id in characters ==> characters[id].level == FlatLevel(characters[id].xp)
    }

    constructor ()
      ensures Valid() && LevelsFlat()
      ensures characters == map[] && logs == []
    {
      characters := map[];
      logs := [];
    }

    /** Inserts a row; an id already in use is refused like a failed write. */
    method Insert(c: Character, writeOk: bool) returns (r: Option<Character>)
      requires Valid()
      modifies this`characters
      ensures Valid()
      ensures r.Some? <==> writeOk && c.id !in old(characters)
      ensures r.Some? ==> r.value == c && characters == old(characters)[c.id := c]
      ensures r.None? ==> characters == old(characters)
      ensures old(LevelsFlat()) && c.level == FlatLevel(c.xp) ==> LevelsFlat()
    {
      if writeOk && c.id !in characters {
        characters := characters[c.id := c];
        r := Some(c);
      } else {
        r := None;
      }
    }

    /** Creates a character with the given name; `id` is the id the server assigns. */
    method CreateCharacter(id: string, name: string, writeOk: bool) returns (r: Option<Character>)
      requires Valid()
      modifies this`characters
      ensures Valid()
      ensures r.Some? <==> writeOk && id !in old(characters)
      ensures r.Some? ==> r.value == NewCharacter(id, name) && characters == old(characters)[id := r.value]
      ensures r.None? ==> characters == old(characters)
      ensures old(LevelsFlat()) ==> LevelsFlat()
    {
      r := Insert(NewCharacter(id, name), writeOk);
    }

    /** The row with the given id, if any; `readOk` says whether the query succeeds. */
    method GetCharacter(id: string, readOk: bool) returns (r: Option<Character>)
      requires Valid()
      ensures r.Some? <==> readOk && id in characters
      ensures r.Some? ==> r.value == characters[id] && r.value.id == id
    {
      if readOk && id in characters {
        r := Some(characters[id]);
      } else {
        r := None;
      }
    }

    /**
     * Read-modify-write of one row: a missing id or a failed read yields
     * None and writes nothing; otherwise the row becomes ApplyUpdate of the
     * old row and every other row is left as it was.
     */
    method UpdateCharacterStats(id: string, statDeltas: Stats, xpGained: int, readOk: bool, writeOk: bool)
      returns (r: Option<Character>)
      requires Valid()
      modifies this`characters
      ensures Valid()
      ensures r.Some? <==> id in old(characters) && readOk && writeOk
      ensures r.Some? ==>
        r.value == ApplyUpdate(old(characters)[id], statDeltas, xpGained)
        && characters == old(characters)[id := r.value]
      ensures r.None? ==> characters == old(characters)
      ensures old(LevelsFlat()) ==> LevelsFlat()
    {
      var character := GetCharacter(id, readOk);
      if character.None? {
        return None;
      }
      var updated := ApplyUpdate(character.value, statDeltas, xpGained);
      if writeOk {
        characters := characters[id := updated];
        r := Some(updated);
      } else {
        r := None;
      }
    }

    /** Appends the log row of one session, dated `today`. */
    method SaveDailyLog(characterId: string, rawText: string, stats: Stats, xpGained: int,
                        aiComment: string, today: string, writeOk: bool)
      returns (r: Option<DailyLog>)
      modifies this`logs
      ensures r.Some? <==> writeOk
      ensures r.Some? ==>
        r.value == NewLog(characterId, rawText, stats, xpGained, aiComment, today)
        && logs == old(logs) + [r.value]
      ensures r.None? ==> logs == old(logs)
    {
      if writeOk {
        var newLog := NewLog(characterId, rawText, stats, xpGained, aiComment, today);
        logs := logs + [newLog];
        r := Some(newLog);
      } else {
        r := None;
      }
    }
  }
}
