/**
 * The request validators of the Supercell-backed and database-backed routes
 * (src/zod/supercell.ts and src/zod/mongo.ts), built from the shared field
 * rules. A request part (`params`, `query`, a document) is a JSON object;
 * the value a validator returns is the request part as the route sees it.
 */
module RequestSchemas {
  import opened Wrappers
  import opened Text
  import opened JsonValues
  import opened FieldSchemas

  /** A tag under the key `tag`: `playerSchema`, `clanSchema` and `playerDocumentSchema`. */
  function ParseTagObject(o: Json): (r: Result<string, seq<Issue>>)
    ensures r.Success? <==> (o.JObject? && "tag" in o.fields && o.fields["tag"].JString?
      && |o.fields["tag"].s| >= 3 && AllAlnum(o.fields["tag"].s))
    ensures r.Success? ==> r.value == o.fields["tag"].s
    ensures o.JObject? ==> r == ParseTag(Get(o, "tag"))
  {
    if o.JObject? then ParseTag(Get(o, "tag")) else Failure([InvalidType])
  }

  const NameEmpty: string := "name cannot be empty"

  /** `searchSchema`: the query's `name` is a string of at least one character. */
  function ParseSearch(query: Json): (r: Result<string, seq<Issue>>)
    ensures r.Success? <==> (query.JObject? && "name" in query.fields && query.fields["name"].JString?
      && query.fields["name"].s != "")
    ensures r.Success? ==> r.value == query.fields["name"].s
    ensures query.JObject? && Get(query, "name") == Some(JString("")) ==> r == Failure([Message(NameEmpty)])
  {
    if !query.JObject? then Failure([InvalidType])
    else match Get(query, "name")
      case None => Failure([Required])
      case Some(JString(name)) => if |name| >= 1 then Success(name) else Failure([Message(NameEmpty)])
      case Some(_) => Failure([InvalidType])
  }

  /** A leaderboard location: the global board or a numeric location id. */
  datatype LocationId = Global | Numeric(id: nat)

  /** `/^\d+$/`. */
  predicate MatchesDigits(s: string) { |s| >= 1 && AllDigits(s) }

  /** `z.union([z.literal('global'), z.string().regex(/^\d+$/).transform(Number)])`. */
  function ParseLocationId(v: Option<Json>): (r: Result<LocationId, seq<Issue>>)
    ensures r == Success(Global) <==> v == Some(JString("global"))
    ensures r.Success? && r.value.Numeric? <==> (v.Some? && v.value.JString? && MatchesDigits(v.value.s))
    ensures r.Success? && r.value.Numeric? ==> r.value.id == DigitsValue(v.value.s)
  {
    match v
    case Some(JString(s)) =>
      if s == "global" then
        assert !IsAsciiDigit(s[0]);
        Success(Global)
      else if MatchesDigits(s) then Success(Numeric(DigitsValue(s)))
      else Failure([InvalidUnion])
    case _ => Failure([InvalidUnion])
  }

  const LimitNotPositive: string := "limit must be greater than 0"

  /**
   * The optional `limit`: a digit string whose value is greater than 0. The
   * positivity check runs only on a string that matched the regex.
   */
  function ParseLimit(v: Option<Json>): (r: Result<Option<nat>, seq<Issue>>)
    ensures r == Success(None) <==> v.None?
    ensures r.Success? && r.value.Some? <==>
      (v.Some? && v.value.JString? && MatchesDigits(v.value.s) && DigitsValue(v.value.s) > 0)
    ensures r.Success? && r.value.Some? ==> r.value.value == DigitsValue(v.value.s) > 0
    ensures r == Failure([Message(LimitNotPositive)]) <==>
      (v.Some? && v.value.JString? && MatchesDigits(v.value.s) && DigitsValue(v.value.s) == 0)
  {
    match v
    case None => Success(None)
    case Some(JString(s)) =>
      if !MatchesDigits(s) then Failure([InvalidString])
      else if DigitsValue(s) > 0 then Success(Some(DigitsValue(s)))
      else Failure([Message(LimitNotPositive)])
    case Some(_) => Failure([InvalidType])
  }

  datatype LeaderboardWarRequest = LeaderboardWarRequest(locationId: LocationId, limit: Option<nat>)

  /** The issues of a failed result, none for a success. */
  function IssuesOf<T>(r: Result<T, seq<Issue>>): seq<Issue> {
    if r.Success? then [] else r.error
  }

  /**
   * `leaderboardWarSchema`: `params.locationId` and `query.limit`, each
   * checked, with the issues of both reported together.
   */
  function ParseLeaderboardWar(params: Json, query: Json): (r: Result<LeaderboardWarRequest, seq<Issue>>)
    requires params.JObject? && query.JObject?
    ensures r.Success? <==> ParseLocationId(Get(params, "locationId")).Success? && ParseLimit(Get(query, "limit")).Success?
    ensures r.Success? ==> r.value == LeaderboardWarRequest(
      ParseLocationId(Get(params, "locationId")).value, ParseLimit(Get(query, "limit")).value)
    ensures r.Failure? ==>
      r.error == IssuesOf(ParseLocationId(Get(params, "locationId"))) + IssuesOf(ParseLimit(Get(query, "limit")))
  {
    var locationId := ParseLocationId(Get(params, "locationId"));
    var limit := ParseLimit(Get(query, "limit"));
    if locationId.Success? && limit.Success? then Success(LeaderboardWarRequest(locationId.value, limit.value))
    else Failure(IssuesOf(locationId) + IssuesOf(limit))
  }

  const TagsOnlyInvalid: string := "tagsOnly must be 'true' or 'false'"

  /** `plusClansSchema`: `tagsOnly` is `'true'` or `'false'`, and `'false'` when absent. */
  function ParsePlusClans(query: Json): (r: Result<string, seq<Issue>>)
    requires query.JObject?
    ensures r.Success? ==> r.value in {"true", "false"}
    ensures "tagsOnly" !in query.fields ==> r == Success("false")
    ensures "tagsOnly" in query.fields ==>
      (r.Success? <==> query.fields["tagsOnly"] in {JString("true"), JString("false")})
    ensures "tagsOnly" in query.fields && r.Success? ==> query.fields["tagsOnly"] == JString(r.value)
    ensures r.Failure? ==> r.error == [Message(TagsOnlyInvalid)]
  {
    match Get(query, "tagsOnly")
    case None => Success("false")
    case Some(JString(s)) => if s == "true" || s == "false" then Success(s) else Failure([Message(TagsOnlyInvalid)])
    case Some(_) => Failure([Message(TagsOnlyInvalid)])
  }

  /** `guildClansSchema`: the `id` param is a Discord id. */
  function ParseGuildClans(params: Json): (r: Result<string, seq<Issue>>)
    requires params.JObject?
    ensures r.Success? <==> ("id" in params.fields && params.fields["id"].JString?
      && MatchesDiscordId(params.fields["id"].s))
    ensures r.Success? ==> r.value == params.fields["id"].s
  {
    ParseDiscordId(Get(params, "id"))
  }

  /** `'global'` is kept as is; an id with leading zeros reads as its value. */
  lemma {:induction false} LocationIdExamples()
    ensures ParseLocationId(Some(JString("global"))) == Success(Global)
    ensures ParseLocationId(Some(JString("57"))) == Success(Numeric(57))
    ensures ParseLocationId(Some(JString("007"))) == Success(Numeric(7))
  {
    assert MatchesDigits("57") && MatchesDigits("007");
    assert "57"[..1] == "5" && "007"[..2] == "00" && "00"[..1] == "0";
    assert DigitsValue("5") == 5;
    assert DigitsValue("57") == 57;
  }

  /** The empty string, a negative number and a capitalised `Global` are rejected. */
  lemma {:induction false} LocationIdRejected()
    ensures ParseLocationId(Some(JString(""))).Failure?
    ensures ParseLocationId(Some(JString("-1"))).Failure?
    ensures ParseLocationId(Some(JString("Global"))).Failure?
  {
    assert !IsAsciiDigit("-1"[0]);
    assert !IsAsciiDigit("Global"[0]);
  }

  /** A limit of zero is rejected by the positivity rule; one is the least accepted. */
  lemma {:induction false} LimitExamples()
    ensures ParseLimit(Some(JString("0"))) == Failure([Message(LimitNotPositive)])
    ensures ParseLimit(Some(JString("00"))) == Failure([Message(LimitNotPositive)])
    ensures ParseLimit(Some(JString("1"))) == Success(Some(1))
    ensures ParseLimit(Some(JString("-5"))) == Failure([InvalidString])
  {
    assert MatchesDigits("0") && MatchesDigits("00") && MatchesDigits("1");
    assert !IsAsciiDigit("-5"[0]);
  }

  /** The player document follows the shared tag rule. */
  lemma PlayerDocumentTag(tag: string, rest: map<string, Json>)
    ensures ParseTagObject(JObject(rest["tag" := JString(tag)])).Success? <==> |tag| >= 3 && AllAlnum(tag)
  {
  }
}
