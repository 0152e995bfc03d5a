/**
 * The shared field rules of the request and document validators
 * (src/schemas/utils.ts and src/zod/utils.ts, which state the same tag and
 * Discord-id rules): each schema accepts a value and returns it, or rejects
 * it with the list of issues the validation library reports, in check order.
 */
module FieldSchemas {
  import opened Wrappers
  import opened Text
  import opened JsonValues

  /**
   * A validation issue: a message the schema sets itself, or one of the
   * library's own issues where the schema sets none.
   */
  datatype Issue =
    | Message(text: string)
    | Required
    | InvalidType
    | InvalidString
    | InvalidUnion
    | InvalidEnum

  const TagRequired: string := "tag is required"
  const TagNotString: string := "tag must be a string"
  const TagNotAlphanumeric: string := "tag must be alphanumeric"
  const TagTooShort: string := "tag must be at least 3 characters long"
  const IdRequired: string := "id is required"
  const IdNotString: string := "id must be a string"
  const IdNotDiscordId: string := "id must be a valid Discord ID (17\U{2013}19 digits)"

  /** `/^[a-zA-Z0-9]+$/`. */
  predicate MatchesAlnum(s: string) { |s| >= 1 && AllAlnum(s) }

  /** `/^\d{17,19}$/` (without the `u` flag `\d` is the ASCII digits). */
  predicate MatchesDiscordId(s: string) { 17 <= |s| <= 19 && AllDigits(s) }

  /**
   * The checks of the tag schema on a string, all run, in order:
   * `nonempty`, `regex`, `min(3)`. Lengths are JavaScript's, in UTF-16
   * code units.
   */
  function TagIssues(s: string): (issues: seq<Issue>)
    ensures issues == [] <==> |s| >= 3 && AllAlnum(s)
    ensures Message(TagRequired) in issues <==> s == ""
    ensures Message(TagNotAlphanumeric) in issues <==> !MatchesAlnum(s)
    ensures Message(TagTooShort) in issues <==> Utf16Length(s) < 3
  {
    if AllAlnum(s) then AlnumUtf16Length(s); TagChecks(s) else TagChecks(s)
  }

  function TagChecks(s: string): seq<Issue> {
    (if Utf16Length(s) == 0 then [Message(TagRequired)] else [])
    + (if MatchesAlnum(s) then [] else [Message(TagNotAlphanumeric)])
    + (if Utf16Length(s) >= 3 then [] else [Message(TagTooShort)])
  }

  /** `tagSchema` applied to a value that may be missing. */
  function ParseTag(v: Option<Json>): (r: Result<string, seq<Issue>>)
    ensures r.Success? <==> v.Some? && v.value.JString? && |v.value.s| >= 3 && AllAlnum(v.value.s)
    ensures r.Success? ==> r.value == v.value.s
    ensures v.None? ==> r == Failure([Message(TagRequired)])
    ensures v.Some? && !v.value.JString? ==> r == Failure([Message(TagNotString)])
    ensures v.Some? && v.value.JString? ==> r.Failure? ==> r.error == TagIssues(v.value.s)
  {
    match v
    case None => Failure([Message(TagRequired)])
    case Some(JString(s)) => if TagIssues(s) == [] then Success(s) else Failure(TagIssues(s))
    case Some(_) => Failure([Message(TagNotString)])
  }

  /** The checks of the Discord-id schema on a string: `nonempty`, then the regex. */
  function DiscordIdIssues(s: string): (issues: seq<Issue>)
    ensures issues == [] <==> MatchesDiscordId(s)
    ensures Message(IdRequired) in issues <==> s == ""
  {
    (if |s| == 0 then [Message(IdRequired)] else [])
    + (if MatchesDiscordId(s) then [] else [Message(IdNotDiscordId)])
  }

  /** `discordIdSchema` (src/schemas/utils.ts) and `guildIdSchema` (src/zod/utils.ts). */
  function ParseDiscordId(v: Option<Json>): (r: Result<string, seq<Issue>>)
    ensures r.Success? <==> v.Some? && v.value.JString? && MatchesDiscordId(v.value.s)
    ensures r.Success? ==> r.value == v.value.s
    ensures v.None? ==> r == Failure([Message(IdRequired)])
    ensures v.Some? && !v.value.JString? ==> r == Failure([Message(IdNotString)])
  {
    match v
    case None => Failure([Message(IdRequired)])
    case Some(JString(s)) => if DiscordIdIssues(s) == [] then Success(s) else Failure(DiscordIdIssues(s))
    case Some(_) => Failure([Message(IdNotString)])
  }

  /** An empty tag is reported as required, as not alphanumeric and as too short. */
  lemma {:induction false} EmptyTagRejected()
    ensures ParseTag(Some(JString(""))) ==
      Failure([Message(TagRequired), Message(TagNotAlphanumeric), Message(TagTooShort)])
  {
    assert !MatchesAlnum("");
    assert TagIssues("") == [Message(TagRequired)] + [Message(TagNotAlphanumeric)] + [Message(TagTooShort)];
    assert [Message(TagRequired)] + [Message(TagNotAlphanumeric)] + [Message(TagTooShort)]
      == [Message(TagRequired), Message(TagNotAlphanumeric), Message(TagTooShort)];
  }

  /** A tag with any character outside `[A-Za-z0-9]`, such as a leading `#`, is not alphanumeric. */
  lemma NonAlphanumericTagRejected(s: string, i: nat)
    requires i < |s| && !IsAsciiAlnum(s[i])
    ensures ParseTag(Some(JString(s))).Failure?
    ensures Message(TagNotAlphanumeric) in ParseTag(Some(JString(s))).error
  {
  }

  /** `#ABC` is rejected only for its `#`. */
  /**
   * An astral character counts twice towards `min(3)`: a smiling face and a
   * letter fail only as not alphanumeric.
   */
  lemma {:induction false} AstralTagExample()
    ensures TagIssues("\U{1F600}a") == [Message(TagNotAlphanumeric)]
  {
    var s := "\U{1F600}a";
    assert s[..1] == "\U{1F600}" && s[..1][..0] == [];
    assert Utf16Length(s) == 3;
    assert !IsAsciiAlnum(s[0]);
  }

  lemma {:induction false} HashTagExample()
    ensures ParseTag(Some(JString("#ABC"))) == Failure([Message(TagNotAlphanumeric)])
  {
    assert !IsAsciiAlnum("#ABC"[0]);
    assert TagIssues("#ABC") == [Message(TagNotAlphanumeric)];
  }

  /** Sixteen or twenty digits, letters or spaces are not a Discord id. */
  lemma {:induction false} DiscordIdExamples()
    ensures ParseDiscordId(Some(JString("1234567890123456"))).Failure?
    ensures ParseDiscordId(Some(JString("12345678901234567890"))).Failure?
    ensures ParseDiscordId(Some(JString("1234567890123456a"))).Failure?
    ensures ParseDiscordId(Some(JString("12345678 901234567"))).Failure?
    ensures ParseDiscordId(Some(JString("12345678901234567"))) == Success("12345678901234567")
  {
    assert !IsAsciiDigit("1234567890123456a"[16]);
    assert !IsAsciiDigit("12345678 901234567"[8]);
    assert AllDigits("12345678901234567") by {
      forall i | 0 <= i < 17 ensures IsAsciiDigit("12345678901234567"[i]) {
        DigitAt(i);
      }
    }
  }

  lemma DigitAt(i: nat)
    requires i < 17
    ensures IsAsciiDigit("12345678901234567"[i])
  {
  }

  /** A location as `locationSchema` returns it: unknown keys dropped. */
  datatype Location = Location(countryCode: Option<string>, id: int, isCountry: bool, name: string)

  /** `z.string().optional()` on an object key: absent, or a string. */
  predicate OptionalString(v: Option<Json>) { v.None? || v.value.JString? }

  function StringOf(v: Option<Json>): (r: Option<string>)
    requires OptionalString(v)
    ensures r.Some? <==> v.Some?
  {
    if v.None? then None else Some(v.value.s)
  }

  predicate IsNumber(v: Option<Json>) { v.Some? && v.value.JNumber? }
  predicate IsBool(v: Option<Json>) { v.Some? && v.value.JBool? }
  predicate IsString(v: Option<Json>) { v.Some? && v.value.JString? }

  /** `locationSchema`: numeric `id`, boolean `isCountry`, string `name`, optional string `countryCode`. */
  function ParseLocation(v: Option<Json>): (r: Option<Location>)
    ensures r.Some? <==> (v.Some? && v.value.JObject? && IsNumber(Get(v.value, "id"))
      && IsBool(Get(v.value, "isCountry")) && IsString(Get(v.value, "name"))
      && OptionalString(Get(v.value, "countryCode")))
    ensures r.Some? ==> (r.value.id == v.value.fields["id"].n && r.value.name == v.value.fields["name"].s
      && r.value.isCountry == v.value.fields["isCountry"].b
      && (r.value.countryCode.Some? <==> "countryCode" in v.value.fields))
  {
    if v.None? || !v.value.JObject? then None
    else
      var o := v.value;
      var countryCode, id, isCountry, name := Get(o, "countryCode"), Get(o, "id"), Get(o, "isCountry"), Get(o, "name");
      if IsNumber(id) && IsBool(isCountry) && IsString(name) && OptionalString(countryCode) then
        Some(Location(StringOf(countryCode), id.value.n, isCountry.value.b, name.value.s))
      else None
  }

  /** The JSON object a location is sent as. */
  function LocationJson(l: Location): (j: Json)
    ensures j.JObject?
  {
    var fields := map["id" := JNumber(l.id), "isCountry" := JBool(l.isCountry), "name" := JString(l.name)];
    JObject(if l.countryCode.Some? then fields["countryCode" := JString(l.countryCode.value)] else fields)
  }

  /** Every location passes the schema unchanged. */
  lemma LocationRoundTrip(l: Location)
    ensures ParseLocation(Some(LocationJson(l))) == Some(l)
  {
  }

  /** A missing `countryCode` is allowed, a missing `id`, `isCountry` or `name` is not. */
  lemma LocationRequiredKeys(fields: map<string, Json>, key: string)
    requires key in {"id", "isCountry", "name"} && key !in fields
    ensures ParseLocation(Some(JObject(fields))).None?
  {
  }

  /** An entry of the risers and fallers list as `riserFallerEntrySchema` returns it. */
  datatype RiserFallerEntry = RiserFallerEntry(
    badgeId: int,
    clanScore: int,
    location: Location,
    members: int,
    name: string,
    previousRank: int,
    rank: int,
    tag: string)

  /** `riserFallerEntrySchema`: the eight keys with their types, the location by its own schema. */
  function ParseRiserFallerEntry(v: Option<Json>): (r: Option<RiserFallerEntry>)
    ensures r.Some? <==> (v.Some? && v.value.JObject?
      && IsNumber(Get(v.value, "badgeId")) && IsNumber(Get(v.value, "clanScore"))
      && ParseLocation(Get(v.value, "location")).Some?
      && IsNumber(Get(v.value, "members")) && IsString(Get(v.value, "name"))
      && IsNumber(Get(v.value, "previousRank")) && IsNumber(Get(v.value, "rank"))
      && IsString(Get(v.value, "tag")))
    ensures r.Some? ==> (r.value.location == ParseLocation(Get(v.value, "location")).value
      && r.value.tag == v.value.fields["tag"].s && r.value.rank == v.value.fields["rank"].n
      && r.value.previousRank == v.value.fields["previousRank"].n)
  {
    if v.None? || !v.value.JObject? then None
    else
      var o := v.value;
      var location := ParseLocation(Get(o, "location"));
      var badgeId, clanScore, members := Get(o, "badgeId"), Get(o, "clanScore"), Get(o, "members");
      var name, previousRank, rank, tag := Get(o, "name"), Get(o, "previousRank"), Get(o, "rank"), Get(o, "tag");
      if IsNumber(badgeId) && IsNumber(clanScore) && location.Some? && IsNumber(members) && IsString(name)
        && IsNumber(previousRank) && IsNumber(rank) && IsString(tag)
      then
        Some(RiserFallerEntry(badgeId.value.n, clanScore.value.n, location.value, members.value.n,
          name.value.s, previousRank.value.n, rank.value.n, tag.value.s))
      else None
  }

  function RiserFallerEntryJson(e: RiserFallerEntry): (j: Json)
    ensures j.JObject?
  {
    JObject(map[
      "badgeId" := JNumber(e.badgeId), "clanScore" := JNumber(e.clanScore),
      "location" := LocationJson(e.location), "members" := JNumber(e.members),
      "name" := JString(e.name), "previousRank" := JNumber(e.previousRank),
      "rank" := JNumber(e.rank), "tag" := JString(e.tag)])
  }

  /** Every entry passes the schema unchanged. */
  lemma {:induction false} RiserFallerEntryRoundTrip(e: RiserFallerEntry)
    ensures ParseRiserFallerEntry(Some(RiserFallerEntryJson(e))) == Some(e)
  {
    LocationRoundTrip(e.location);
  }
}
