/**
 * The player-roster handler: the sign-in and level gates, the requester's
 * rank among all eligible players, and an anonymised random sample of up to
 * ten other eligible players.
 */
module PlayersRoute {
  import opened Wrappers
  import opened Records
  import opened PlayerStyle

  datatype PlayerInfo = PlayerInfo(
    nickname: Option<string>,
    level: int,
    playStyle: string,
    rankTier: string,
    isMe: bool)

  datatype PlayersResponse =
    | Roster(myInfo: PlayerInfo, otherPlayers: seq<PlayerInfo>, totalPlayers: nat)
    | Refused(status: nat, error: string)

  const AnonymousNickname := "익명 플레이어"
  const RosterLevel := 5
  const SampleSize := 10

  /** The rows of `s` that satisfy `p`, in order and with their multiplicity. */
  function Filter(s: seq<Character>, p: Character -> bool): (r: seq<Character>)
    ensures |r| <= |s|
    ensures forall x :: multiset(r)[x] == if p(x) then multiset(s)[x] else 0
  {
    if s == [] then []
    else
      assert s == [s[0]] + s[1..];
      (if p(s[0]) then [s[0]] else []) + Filter(s[1..], p)
  }

  /** The rows the `user_id` query returns. */
  function OwnedBy(rows: seq<Character>, uid: string): seq<Character>
  {
    Filter(rows, (c: Character) => c.userId == Some(uid))
  }

  /** The rows the `level >= 5` query returns. */
  function Eligible(rows: seq<Character>): seq<Character>
  {
    Filter(rows, (c: Character) => c.level >= RosterLevel)
  }

  /** The rows whose `user_id` differs from `uid` (rows without a user are kept). */
  function OthersOf(rows: seq<Character>, uid: string): seq<Character>
  {
    Filter(rows, (c: Character) => c.userId != Some(uid))
  }

  /** The rows with strictly more XP than `xp`. */
  function HigherThan(rows: seq<Character>, xp: int): seq<Character>
  {
    Filter(rows, (c: Character) => c.xp > xp)
  }

  /** The requester's character: the single row owned by `uid`; none or several rows fail. */
  function Requester(rows: seq<Character>, uid: string): (r: Option<Character>)
    ensures r.Some? <==> |OwnedBy(rows, uid)| == 1
    ensures r.Some? ==> r.value in rows && r.value.userId == Some(uid)
  {
    var mine := OwnedBy(rows, uid);
    if |mine| == 1 then
      assert mine[0] in multiset(mine);
      Some(mine[0])
    else None
  }

  /** The anonymised entry of another eligible player, ranked against all of `all`. */
  function OtherEntry(all: seq<Character>, p: Character): (e: PlayerInfo)
    ensures e.nickname == Some(AnonymousNickname) && !e.isMe && e.level == p.level
    ensures e.playStyle == StyleLabel(GetPlayStyle(p.stats))
    ensures e.rankTier == TierLabel(GetRankTier(p.xp, |all|, |HigherThan(all, p.xp)|))
  {
    PlayerInfo(Some(AnonymousNickname), p.level, StyleLabel(GetPlayStyle(p.stats)),
               TierLabel(GetRankTier(p.xp, |all|, |HigherThan(all, p.xp)|)), false)
  }

  /**
   * Reorders `s`, taking at step k the element at index rand[k] mod the number
   * left (index 0 once the random draws run out).
   */
  method Shuffle<T>(s: seq<T>, rand: seq<nat>) returns (t: seq<T>)
    ensures multiset(t) == multiset(s)
  {
    var rest := s;
    t := [];
    var k := 0;
    while |rest| > 0
      invariant multiset(t) + multiset(rest) == multiset(s)
    {
      var j := if k < |rand| then rand[k] % |rest| else 0;
      assert rest == rest[..j] + [rest[j]] + rest[j + 1..];
      t := t + [rest[j]];
      rest := rest[..j] + rest[j + 1..];
      k := k + 1;
    }
  }

  /**
   * The roster handler over a snapshot `rows` of the `characters` table.
   * `userId` is the signed-in user, if any; `lookupOk` and `rosterOk` say
   * whether the own-character lookup and the roster query succeeded; `rand` drives the random order. The ghost result
   * `sampled` is the list of players behind `otherPlayers`.
   */
  method GetPlayers(userId: Option<string>, rows: seq<Character>, lookupOk: bool, rosterOk: bool, rand: seq<nat>)
    returns (r: PlayersResponse, ghost sampled: seq<Character>)
    ensures userId.None? ==> r == Refused(401, "로그인이 필요합니다.")
    ensures userId.Some? && (!lookupOk || Requester(rows, userId.value).None?) ==>
      r == Refused(404, "캐릭터를 찾을 수 없습니다.")
    ensures userId.Some? && lookupOk && Requester(rows, userId.value).Some?
            && Requester(rows, userId.value).value.level < RosterLevel ==>
      r == Refused(403, "Lv.5 이상만 이용 가능합니다.")
    ensures userId.Some? && lookupOk && Requester(rows, userId.value).Some?
            && Requester(rows, userId.value).value.level >= RosterLevel && !rosterOk ==>
      r == Refused(500, "플레이어 목록을 불러올 수 없습니다.")
    ensures userId.Some? && lookupOk && Requester(rows, userId.value).Some?
            && Requester(rows, userId.value).value.level >= RosterLevel && rosterOk ==>
      r.Roster?
    ensures r.Roster? ==>
      && userId.Some? && lookupOk && rosterOk && Requester(rows, userId.value).Some?
      && var uid, me, all := userId.value, Requester(rows, userId.value).value, Eligible(rows);
      && me.level >= RosterLevel && me in all
      && r.totalPlayers == |all| >= 1
      && r.myInfo == PlayerInfo(me.nickname, me.level, StyleLabel(GetPlayStyle(me.stats)),
                                TierLabel(GetRankTier(me.xp, |all|, |HigherThan(all, me.xp)|)), true)
      && multiset(sampled) <= multiset(OthersOf(all, uid))
      && |sampled| == Min(SampleSize, |OthersOf(all, uid)|)
      && (forall p :: p in sampled ==> p in all && p.userId != Some(uid) && p.level >= RosterLevel)
      && |r.otherPlayers| == |sampled|
      && (forall i :: 0 <= i < |sampled| ==> r.otherPlayers[i] == OtherEntry(all, sampled[i]))
  {
    sampled := [];
    if userId.None? {
      return Refused(401, "로그인이 필요합니다."), sampled;
    }
    var uid := userId.value;
    var mine := Requester(rows, uid);
    if !lookupOk || mine.None? {
      return Refused(404, "캐릭터를 찾을 수 없습니다."), sampled;
    }
    var me := mine.value;
    if me.level < RosterLevel {
      return Refused(403, "Lv.5 이상만 이용 가능합니다."), sampled;
    }
    if !rosterOk {
      return Refused(500, "플레이어 목록을 불러올 수 없습니다."), sampled;
    }
    var allPlayers := Eligible(rows);
    var higherRankedCount := |HigherThan(allPlayers, me.xp)|;
    var totalPlayers := |allPlayers|;
    var myRankTier := GetRankTier(me.xp, totalPlayers, higherRankedCount);

    var otherPlayers, picked := SampleOthers(allPlayers, uid, rand);
    sampled := picked;
    EligibleMembers(rows, me);
    forall p | p in sampled
      ensures p.level >= RosterLevel
    {
      EligibleMembers(rows, p);
    }
    var myInfo := PlayerInfo(me.nickname, me.level, StyleLabel(GetPlayStyle(me.stats)),
                             TierLabel(myRankTier), true);
    r := Roster(myInfo, otherPlayers, totalPlayers);
  }

  /**
   * The other-players pipeline: drop the requester's rows, shuffle, keep the
   * first ten, and turn each kept player into its anonymised entry.
   */
  method SampleOthers(all: seq<Character>, uid: string, rand: seq<nat>)
    returns (others: seq<PlayerInfo>, sampled: seq<Character>)
    ensures multiset(sampled) <= multiset(OthersOf(all, uid))
    ensures |sampled| == Min(SampleSize, |OthersOf(all, uid)|)
    ensures forall p :: p in sampled ==> p in all && p.userId != Some(uid)
    ensures |others| == |sampled|
    ensures forall i :: 0 <= i < |sampled| ==> others[i] == OtherEntry(all, sampled[i])
  {
    var candidates := OthersOf(all, uid);
    var shuffled := Shuffle(candidates, rand);
    var picked := Prefix(shuffled, candidates);
    forall p | p in picked
      ensures p in all && p.userId != Some(uid)
    {
      OthersMembers(all, uid, p);
    }
    others := seq(|picked|, i requires 0 <= i < |picked| => OtherEntry(all, picked[i]));
    sampled := picked;
  }

  /** The first (at most ten) elements of a permutation of `candidates`. */
  method Prefix(shuffled: seq<Character>, ghost candidates: seq<Character>) returns (picked: seq<Character>)
    requires multiset(shuffled) == multiset(candidates)
    ensures |picked| <= |shuffled| && picked == shuffled[..|picked|]
    ensures |picked| == Min(SampleSize, |candidates|)
    ensures multiset(picked) <= multiset(candidates)
  {
    assert |shuffled| == |multiset(shuffled)| == |candidates|;
    picked := shuffled[..Min(SampleSize, |shuffled|)];
    assert shuffled == picked + shuffled[|picked|..];
  }

  /** A row kept by OthersOf is a row of the table not owned by `uid`. */
  lemma OthersMembers(all: seq<Character>, uid: string, p: Character)
    requires p in multiset(OthersOf(all, uid))
    ensures p in all && p.userId != Some(uid)
  {
    assert p in multiset(all);
  }

  /** A row is in the roster exactly when it is in the table at level 5 or above. */
  lemma EligibleMembers(rows: seq<Character>, p: Character)
    ensures p in Eligible(rows) <==> p in rows && p.level >= RosterLevel
  {
    assert p in Eligible(rows) <==> p in multiset(Eligible(rows));
    assert p in rows <==> p in multiset(rows);
  }
}
