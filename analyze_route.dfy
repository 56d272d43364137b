/**
 * The analysis handler: request checks, the shape check of the model's JSON
 * reply, then the character update followed by the log write.
 */
module AnalyzeRoute {
  import opened Wrappers
  import opened Js
  import opened Records
  import opened CharacterService

  /** The outcome of the model call: an empty text, a text that is not JSON, or a parsed value. */
  datatype ModelReply = EmptyText | Unparseable | Parsed(value: Json)

  datatype AnalyzeRequest = AnalyzeRequest(text: string, characterId: string)

  /** The three fields the handler reads from an accepted reply. */
  datatype Analysis = Analysis(stats: Stats, xp: int, comment: string)

  datatype AnalyzeResponse =
    /** `{...parsed, character}`: the reply's other fields, and the updated row under `character`. */
    | Analyzed(fields: map<string, Json>, character: Character)
    /** An error status; `details` is None where the message would come from the runtime. */
    | Refused(status: nat, error: string, details: Option<string>)

  const MsgBadText := "유효한 텍스트를 입력해주세요."
  const MsgNoCharacterId := "캐릭터 ID가 필요합니다."
  const MsgNoApiKey := "Google API 키가 설정되지 않았습니다."
  const MsgFailed := "분석 중 오류가 발생했습니다."
  const DetailEmptyReply := "AI 응답이 비어있습니다."
  const DetailBadShape := "AI 응답 형식이 올바르지 않습니다."
  const DetailUpdateFailed := "캐릭터 업데이트에 실패했습니다."

  /** `!v || typeof v !== 'string'` is false: a non-empty string. */
  predicate NonEmptyString(v: Option<Json>)
  {
    Truthy(v) && IsString(v)
  }

  /** The body is an object whose `key` field is a non-empty string. */
  predicate HasText(body: Json, key: string)
  {
    body.JObject? && key in body.fields && body.fields[key].JString? && body.fields[key].s != ""
  }

  /**
   * The request checks, in order: a body that is not JSON or is null fails
   * like any thrown error (500); then text, then characterId must be
   * non-empty strings (400 each).
   */
  function CheckRequest(body: Option<Json>): (r: Result<AnalyzeRequest, AnalyzeResponse>)
    ensures r.Success? <==> body.Some? && HasText(body.value, "text") && HasText(body.value, "characterId")
    ensures r.Success? ==>
      r.value == AnalyzeRequest(body.value.fields["text"].s, body.value.fields["characterId"].s)
    ensures (body.None? || body == Some(JNull)) ==> r == Failure(Refused(500, MsgFailed, None))
    ensures body.Some? && body.value != JNull && !HasText(body.value, "text") ==>
      r == Failure(Refused(400, MsgBadText, None))
    ensures body.Some? && HasText(body.value, "text") && !HasText(body.value, "characterId") ==>
      r == Failure(Refused(400, MsgNoCharacterId, None))
  {
    if body.None? || body.value.JNull? then Failure(Refused(500, MsgFailed, None))
    else
      var b := body.value;
      var text := Property(b, "text");
      var characterId := Property(b, "characterId");
      if !NonEmptyString(text) then Failure(Refused(400, MsgBadText, None))
      else if !NonEmptyString(characterId) then Failure(Refused(400, MsgNoCharacterId, None))
      else Success(AnalyzeRequest(text.value.s, characterId.value.s))
  }

  predicate NumberField(m: map<string, Json>, key: string)
  {
    key in m && m[key].JNumber?
  }

  /** The expected reply: an object with a `stats` object of four numbers, a number `xp` and a string `comment`. */
  predicate WellShaped(p: Json)
  {
    && p.JObject?
    && "stats" in p.fields && p.fields["stats"].JObject?
    && NumberField(p.fields["stats"].fields, "focus")
    && NumberField(p.fields["stats"].fields, "health")
    && NumberField(p.fields["stats"].fields, "mental")
    && NumberField(p.fields["stats"].fields, "growth")
    && NumberField(p.fields, "xp")
    && "comment" in p.fields && p.fields["comment"].JString?
  }

  /**
   * The reply check on a non-null parsed value: `stats` truthy, its four
   * fields, `xp` and `comment` of the right `typeof`. Values are taken as
   * they are; no range is checked.
   */
  function ParseAnalysis(parsed: Json): (r: Option<Analysis>)
    ensures r.Some? <==> WellShaped(parsed)
    ensures r.Some? ==>
      var st := parsed.fields["stats"].fields;
      r.value == Analysis(Stats(st["focus"].n, st["health"].n, st["mental"].n, st["growth"].n),
                          parsed.fields["xp"].n, parsed.fields["comment"].s)
  {
    var stats := Property(parsed, "stats");
    if !Truthy(stats)
       || !IsNumber(Property(stats.value, "focus")) || !IsNumber(Property(stats.value, "health"))
       || !IsNumber(Property(stats.value, "mental")) || !IsNumber(Property(stats.value, "growth"))
       || !IsNumber(Property(parsed, "xp")) || !IsString(Property(parsed, "comment"))
    then None
    else
      Some(Analysis(
        Stats(Property(stats.value, "focus").value.n, Property(stats.value, "health").value.n,
              Property(stats.value, "mental").value.n, Property(stats.value, "growth").value.n),
        Property(parsed, "xp").value.n, Property(parsed, "comment").value.s))
  }

  /** Out-of-range values are accepted as they are. */
  lemma RangesNotChecked()
    ensures ParseAnalysis(JObject(map[
      "stats" := JObject(map["focus" := JNumber(1000), "health" := JNumber(-50),
                             "mental" := JNumber(0), "growth" := JNumber(7)]),
      "xp" := JNumber(-5), "comment" := JString("")])) ==
      Some(Analysis(Stats(1000, -50, 0, 7), -5, ""))
  {
  }

  /** What the handler makes of the model call: the accepted fields, or the 500 it returns. */
  function ReadReply(reply: ModelReply): (r: Result<(Analysis, map<string, Json>), AnalyzeResponse>)
    ensures r.Success? <==> reply.Parsed? && WellShaped(reply.value)
    ensures r.Success? ==> r.value == (ParseAnalysis(reply.value).value, reply.value.fields)
    ensures r.Failure? ==> r.error.Refused? && r.error.status == 500 && r.error.error == MsgFailed
    ensures r.Failure? && reply.Parsed? && reply.value != JNull ==>
      r.error.details == Some(DetailBadShape)
    ensures reply.EmptyText? ==> r == Failure(Refused(500, MsgFailed, Some(DetailEmptyReply)))
    ensures reply.Unparseable? || reply == Parsed(JNull) ==> r == Failure(Refused(500, MsgFailed, None))
  {
    if reply.EmptyText? then Failure(Refused(500, MsgFailed, Some(DetailEmptyReply)))
    else if reply.Unparseable? || reply.value.JNull? then Failure(Refused(500, MsgFailed, None))
    else
      var p := reply.value;
      var a := ParseAnalysis(p);
      if a.None? then Failure(Refused(500, MsgFailed, Some(DetailBadShape)))
      else Success((a.value, p.fields))
  }

  /**
   * The handler. `apiKeyConfigured` is whether the model's key is set,
   * `reply` the model call's outcome, `today` the date of the log,
   * `readOk` whether the update's read of the row succeeds, `updateOk` and
   * `logOk` whether the two writes reach the store. The
   * character is updated first; no log is written unless that update
   * returned a row; a failed log write is ignored.
   */
  method Analyze(store: CharacterStore, body: Option<Json>, apiKeyConfigured: bool, reply: ModelReply,
                 today: string, readOk: bool, updateOk: bool, logOk: bool)
    returns (r: AnalyzeResponse)
    requires store.Valid()
    modifies store
    ensures store.Valid()
    ensures old(store.LevelsFlat()) ==> store.LevelsFlat()
    ensures CheckRequest(body).Failure? ==> r == CheckRequest(body).error && unchanged(store)
    ensures CheckRequest(body).Success? && !apiKeyConfigured ==>
      r == Refused(500, MsgNoApiKey, None) && unchanged(store)
    ensures CheckRequest(body).Success? && apiKeyConfigured && ReadReply(reply).Failure? ==>
      r == ReadReply(reply).error && unchanged(store)
    ensures CheckRequest(body).Success? && apiKeyConfigured && ReadReply(reply).Success? ==>
      var req, a := CheckRequest(body).value, ReadReply(reply).value.0;
      if req.characterId in old(store.characters) && readOk && updateOk then
        var updated := ApplyUpdate(old(store.characters)[req.characterId], a.stats, a.xp);
        && r == Analyzed(ReadReply(reply).value.1 - {"character"}, updated)
        && store.characters == old(store.characters)[req.characterId := updated]
        && store.logs == old(store.logs)
             + (if logOk then [NewLog(req.characterId, req.text, a.stats, a.xp, a.comment, today)] else [])
      else
        r == Refused(500, MsgFailed, Some(DetailUpdateFailed)) && unchanged(store)
  {
    var request := CheckRequest(body);
    if request.Failure? {
      return request.error;
    }
    var req := request.value;
    if !apiKeyConfigured {
      return Refused(500, MsgNoApiKey, None);
    }
    var read := ReadReply(reply);
    if read.Failure? {
      return read.error;
    }
    var (analysis, fields) := read.value;
    var updatedCharacter := store.UpdateCharacterStats(req.characterId, analysis.stats, analysis.xp,
                                                       readOk, updateOk);
    if updatedCharacter.None? {
      return Refused(500, MsgFailed, Some(DetailUpdateFailed));
    }
    var _ := store.SaveDailyLog(req.characterId, req.text, analysis.stats, analysis.xp,
                                analysis.comment, today, logOk);
    r := Analyzed(fields - {"character"}, updatedCharacter.value);
  }
}
