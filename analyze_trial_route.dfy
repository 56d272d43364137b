/**
 * The trial analysis handler: a text check, then a truthiness check of the
 * model's reply, which is returned as it is; nothing is stored.
 */
module AnalyzeTrialRoute {
  import opened Wrappers
  import opened Js
  import opened AnalyzeRoute

  datatype TrialResponse =
    | TrialAnalyzed(parsed: Json)
    | TrialRefused(status: nat, error: string)

  const MsgNeedText := "입력 텍스트가 필요합니다."
  const MsgTrialFailed := "AI 분석 중 오류가 발생했습니다."

  /** The body is an object whose `text` is a string with a non-whitespace character. */
  predicate HasRealText(body: Json)
  {
    body.JObject? && "text" in body.fields && body.fields["text"].JString?
    && !AllWhitespace(body.fields["text"].s)
  }

  /** `!parsed.stats || !parsed.xp || !parsed.comment` is false. */
  predicate ReplyAccepted(p: Json)
  {
    Truthy(Property(p, "stats")) && Truthy(Property(p, "xp")) && Truthy(Property(p, "comment"))
  }

  /**
   * The handler: `body` is the parsed request (None when it is not JSON) and
   * `reply` the model call's outcome. A missing, non-string or
   * whitespace-only text gives 400; every other failure, however caused,
   * gives the same 500; an accepted reply is returned unchanged.
   */
  function AnalyzeTrial(body: Option<Json>, reply: ModelReply): (r: TrialResponse)
    ensures r.TrialRefused? ==>
      r == TrialRefused(400, MsgNeedText) || r == TrialRefused(500, MsgTrialFailed)
    ensures r == TrialRefused(400, MsgNeedText) <==>
      body.Some? && !body.value.JNull? && !HasRealText(body.value)
    ensures r.TrialAnalyzed? <==>
      && body.Some? && HasRealText(body.value)
      && reply.Parsed? && !reply.value.JNull? && ReplyAccepted(reply.value)
    ensures r.TrialAnalyzed? ==> reply == Parsed(r.parsed)
  {
    if body.None? || body.value.JNull? then TrialRefused(500, MsgTrialFailed)
    else
      var text := Property(body.value, "text");
      if !Truthy(text) || !IsString(text) || |Trim(text.value.s)| == 0 then TrialRefused(400, MsgNeedText)
      else if !reply.Parsed? || reply.value.JNull? then TrialRefused(500, MsgTrialFailed)
      else if !ReplyAccepted(reply.value) then TrialRefused(500, MsgTrialFailed)
      else TrialAnalyzed(reply.value)
  }

  /** A request body with a real text. */
  const SampleBody := JObject(map["text" := JString("산책")])

  lemma SampleBodyHasText()
    ensures HasRealText(SampleBody)
  {
    var t := SampleBody.fields["text"].s;
    assert t[0] == '산';
    assert !AllWhitespace(t);
  }

  /** With a real text, a reply is returned exactly when it passes the truthiness check. */
  lemma TrialDecidedByReply(body: Json, p: Json)
    requires HasRealText(body) && p.JObject?
    ensures ReplyAccepted(p) ==> AnalyzeTrial(Some(body), Parsed(p)) == TrialAnalyzed(p)
    ensures !ReplyAccepted(p) ==> AnalyzeTrial(Some(body), Parsed(p)) == TrialRefused(500, MsgTrialFailed)
  {
  }

  /** An XP of 0 is falsy, so a reply with xp = 0 is refused. */
  lemma ZeroXPRefused(stats: Json, comment: string)
    requires Truthy(Some(stats)) && comment != ""
    ensures AnalyzeTrial(Some(SampleBody),
                         Parsed(JObject(map["stats" := stats, "xp" := JNumber(0), "comment" := JString(comment)])))
            == TrialRefused(500, MsgTrialFailed)
  {
    var p := JObject(map["stats" := stats, "xp" := JNumber(0), "comment" := JString(comment)]);
    SampleBodyHasText();
    assert p.fields["xp"] == JNumber(0);
    assert !ReplyAccepted(p);
    TrialDecidedByReply(SampleBody, p);
  }

  /** The stat fields are never looked at: an empty `stats` object passes. */
  lemma EmptyStatsAccepted(xp: int, comment: string)
    requires xp != 0 && comment != ""
    ensures var p := JObject(map["stats" := JObject(map[]), "xp" := JNumber(xp), "comment" := JString(comment)]);
            AnalyzeTrial(Some(SampleBody), Parsed(p)) == TrialAnalyzed(p)
  {
    var p := JObject(map["stats" := JObject(map[]), "xp" := JNumber(xp), "comment" := JString(comment)]);
    SampleBodyHasText();
    assert p.fields["stats"] == JObject(map[]);
    assert p.fields["xp"] == JNumber(xp);
    assert p.fields["comment"] == JString(comment);
    assert ReplyAccepted(p);
    TrialDecidedByReply(SampleBody, p);
  }

  /** An empty comment is falsy and refused. */
  lemma EmptyCommentRefused(stats: Json, xp: int)
    requires Truthy(Some(stats)) && xp != 0
    ensures AnalyzeTrial(Some(SampleBody),
                         Parsed(JObject(map["stats" := stats, "xp" := JNumber(xp), "comment" := JString("")])))
            == TrialRefused(500, MsgTrialFailed)
  {
    var p := JObject(map["stats" := stats, "xp" := JNumber(xp), "comment" := JString("")]);
    SampleBodyHasText();
    assert p.fields["comment"] == JString("");
    assert !ReplyAccepted(p);
    TrialDecidedByReply(SampleBody, p);
  }
}
