/**
 * The player search index (src/services/redis.ts): player names are
 * normalised for word search, queries are escaped for the RediSearch query
 * syntax, the flat FT.SEARCH reply is parsed into records, and players are
 * kept as field hashes under `player:<#TAG>`, rewritten only when their name
 * or clan name changed.
 *
 * The Redis server is modelled as a map from key to field hash; a search
 * reply is a parameter (the server's answer, or None when the call fails).
 */
module PlayerIndex {
  import opened Wrappers
  import opened Text
  import Format

  // ---------------------------------------------------------------------
  // Name normalisation
  // ---------------------------------------------------------------------

  /** The class `[\x00-\x1F\x21-\x2F\x3A-\x40\x5B-\x60\x7B-\x7F]`: ASCII controls and punctuation, not the space. */
  predicate IsStripped(c: char) {
    c <= '\U{1F}' || ('\U{21}' <= c <= '\U{2F}') || ('\U{3A}' <= c <= '\U{40}')
    || ('\U{5B}' <= c <= '\U{60}') || ('\U{7B}' <= c <= '\U{7F}')
  }

  predicate Clean(s: string) { forall i :: 0 <= i < |s| ==> !IsStripped(s[i]) }
  predicate NoAsciiUpper(s: string) { forall i :: 0 <= i < |s| ==> !IsAsciiUpper(s[i]) }
  /** Every white-space character is the plain space. */
  predicate BlankSpaces(s: string) { forall i :: 0 <= i < |s| && IsJsSpace(s[i]) ==> s[i] == ' ' }
  predicate NoDoubleSpace(s: string) { forall i :: 0 <= i < |s| - 1 ==> !(IsJsSpace(s[i]) && IsJsSpace(s[i + 1])) }
  predicate Trimmed(s: string) { s == [] || (!IsJsSpace(s[0]) && !IsJsSpace(s[|s| - 1])) }

  /** What `normalizeName` promises of its result. */
  predicate Normalized(s: string) {
    NoAsciiUpper(s) && Clean(s) && BlankSpaces(s) && NoDoubleSpace(s) && Trimmed(s)
  }

  /** The first `replace`: every stripped character removed. */
  function Strip(s: string): (r: string)
    ensures |r| <= |s|
    ensures Clean(r)
    ensures NoAsciiUpper(s) ==> NoAsciiUpper(r)
  {
    if s == [] then [] else (if IsStripped(s[0]) then [] else [s[0]]) + Strip(s[1..])
  }

  /** The second `replace`: every run of white space becomes one space. */
  function Collapse(s: string): (r: string)
    ensures |r| <= |s|
    ensures r == [] <==> s == []
    ensures r != [] ==> r[0] == (if IsJsSpace(s[0]) then ' ' else s[0])
    ensures BlankSpaces(r) && NoDoubleSpace(r)
    ensures Clean(s) ==> Clean(r)
    ensures NoAsciiUpper(s) ==> NoAsciiUpper(r)
    decreases |s|
  {
    if s == [] then []
    else if IsJsSpace(s[0]) then
      var t := TrimStart(s);
      assert |t| < |s|;
      [' '] + Collapse(t)
    else [s[0]] + Collapse(s[1..])
  }

  /** `normalizeName`: lower-case, strip punctuation, collapse white space, trim. */
  function NormalizeName(name: string): string {
    Trim(Collapse(Strip(LowerString(name))))
  }

  lemma {:induction false} SlicePreserves(s: string, a: nat, b: nat)
    requires a <= b <= |s|
    ensures NoAsciiUpper(s) ==> NoAsciiUpper(s[a..b])
    ensures Clean(s) ==> Clean(s[a..b])
    ensures BlankSpaces(s) ==> BlankSpaces(s[a..b])
    ensures NoDoubleSpace(s) ==> NoDoubleSpace(s[a..b])
  {
    var t := s[a..b];
    assert forall i :: 0 <= i < |t| ==> t[i] == s[a + i];
    if NoDoubleSpace(s) {
      forall i | 0 <= i < |t| - 1 ensures !(IsJsSpace(t[i]) && IsJsSpace(t[i + 1])) {
        assert t[i] == s[a + i] && t[i + 1] == s[a + i + 1];
      }
    }
  }

  /**
   * The result of `normalizeName` holds no ASCII upper-case letter, no
   * stripped character, no white space but single inner spaces, and nothing
   * at either end.
   */
  lemma {:induction false} NormalizeNameIsNormalized(name: string)
    ensures Normalized(NormalizeName(name))
  {
    var c := Collapse(Strip(LowerString(name)));
    CleanedIsInner(name);
    TrimNormalizes(c);
  }

  /** What holds of a name after the first three steps. */
  predicate Inner(s: string) {
    NoAsciiUpper(s) && Clean(s) && BlankSpaces(s) && NoDoubleSpace(s)
  }

  lemma CleanedIsInner(name: string)
    ensures Inner(Collapse(Strip(LowerString(name))))
  {
    var l := LowerString(name);
    assert NoAsciiUpper(l);
  }

  lemma TrimNormalizes(c: string)
    requires Inner(c)
    ensures Normalized(Trim(c))
  {
    var t := TrimStart(c);
    SlicePreserves(c, |c| - |t|, |c|);
    var y := TrimEnd(t);
    SlicePreserves(t, 0, |y|);
    assert y == t[0..|y|];
    if y != [] {
      assert y[0] == t[0];
    }
  }

  lemma {:induction false} StripFixesClean(s: string)
    requires Clean(s)
    ensures Strip(s) == s
  {
    if s != [] {
      StripFixesClean(s[1..]);
    }
  }

  lemma {:induction false} CollapseFixesSingleSpaces(s: string)
    requires BlankSpaces(s) && NoDoubleSpace(s)
    ensures Collapse(s) == s
    decreases |s|
  {
    if s != [] {
      var rest := s[1..];
      assert BlankSpaces(rest) && NoDoubleSpace(rest) by {
        SlicePreserves(s, 1, |s|);
      }
      CollapseFixesSingleSpaces(rest);
      assert s == [s[0]] + rest;
      if IsJsSpace(s[0]) {
        assert s[0] == ' ';
        assert rest == [] || !IsJsSpace(rest[0]);
        assert TrimStart(s) == TrimStart(rest) == rest;
        assert Collapse(s) == [' '] + Collapse(rest);
      } else {
        assert Collapse(s) == [s[0]] + Collapse(rest);
      }
    }
  }

  lemma LowerFixesNoUpper(s: string)
    requires NoAsciiUpper(s)
    ensures LowerString(s) == s
  {
  }

  /** A normalised name is its own normal form. */
  lemma {:induction false} NormalizedIsFixed(s: string)
    requires Normalized(s)
    ensures NormalizeName(s) == s
  {
    LowerFixesNoUpper(s);
    StripFixesClean(s);
    CollapseFixesSingleSpaces(s);
    assert TrimStart(s) == s;
  }

  /** Normalising twice gives the same as normalising once. */
  lemma {:induction false} NormalizeNameIdempotent(name: string)
    ensures NormalizeName(NormalizeName(name)) == NormalizeName(name)
  {
    NormalizeNameIsNormalized(name);
    NormalizedIsFixed(NormalizeName(name));
  }

  lemma {:induction false} StripAppend(a: string, b: string)
    ensures Strip(a + b) == Strip(a) + Strip(b)
  {
    if a != [] {
      var h := if IsStripped(a[0]) then [] else [a[0]];
      assert (a + b)[0] == a[0] && (a + b)[1..] == a[1..] + b;
      assert Strip(a + b) == h + Strip(a[1..] + b);
      StripAppend(a[1..], b);
      assert Strip(a) == h + Strip(a[1..]);
      assert h + (Strip(a[1..]) + Strip(b)) == (h + Strip(a[1..])) + Strip(b);
    } else {
      assert a + b == b;
    }
  }

  lemma {:induction false} ExampleLower(x: string)
    requires x == "(ReKt) Mider8"
    ensures LowerString(x) == "(rekt) mider8"
  {
    forall i | 0 <= i < 13 ensures LowerString(x)[i] == "(rekt) mider8"[i] {
      ExampleLowerChar(i);
    }
  }

  lemma {:induction false} ExampleLowerChar(i: nat)
    requires i < 13
    ensures ToLower("(ReKt) Mider8"[i]) == "(rekt) mider8"[i]
  {
    match i
    case 0 => case 1 => case 2 => case 3 => case 4 => case 5 => case 6 =>
    case 7 => case 8 => case 9 => case 10 => case 11 => case 12 =>
  }

  lemma {:induction false} ExampleWordsChar(i: nat)
    requires i < 11
    ensures !IsStripped("rekt mider8"[i]) && !IsAsciiUpper("rekt mider8"[i])
    ensures i != 4 ==> !IsJsSpace("rekt mider8"[i])
  {
    match i
    case 0 => case 1 => case 2 => case 3 => case 4 => case 5 => case 6 =>
    case 7 => case 8 => case 9 => case 10 =>
  }

  lemma {:induction false} ExampleWordsNormalized()
    ensures Normalized("rekt mider8")
  {
    var words := "rekt mider8";
    forall i | 0 <= i < 11 ensures !IsStripped(words[i]) && !IsAsciiUpper(words[i]) && (i != 4 ==> !IsJsSpace(words[i])) {
      ExampleWordsChar(i);
    }
    ExampleWordsChar(0);
    ExampleWordsChar(10);
    assert words[4] == ' ';
  }

  lemma {:induction false} ExampleStripPieces()
    ensures Strip("(") == [] && Strip(")") == []
    ensures Strip("rekt") == "rekt" && Strip(" mider8") == " mider8"
  {
    assert "("[1..] == [] && ")"[1..] == [];
    var words := "rekt mider8";
    ExampleWordsNormalized();
    SlicePreserves(words, 0, 4);
    SlicePreserves(words, 4, 11);
    assert words[..4] == "rekt" && words[4..] == " mider8";
    StripFixesClean("rekt");
    StripFixesClean(" mider8");
  }

  lemma ExampleSplit()
    ensures "(rekt) mider8" == "(" + "rekt" + ")" + " mider8"
    ensures "rekt" + " mider8" == "rekt mider8"
  {
  }

  /** Stripping four pieces of which the first and third vanish and the others stay. */
  lemma {:induction false} StripPieces(a: string, b: string, c: string, d: string)
    requires Strip(a) == [] && Strip(c) == [] && Strip(b) == b && Strip(d) == d
    ensures Strip(a + b + c + d) == b + d
  {
    var ab := a + b;
    StripAppend(a, b);
    assert Strip(ab) == [] + b == b;
    var abc := ab + c;
    StripAppend(ab, c);
    assert Strip(abc) == b + [] == b;
    StripAppend(abc, d);
  }

  lemma {:induction false} ExampleStrip(x: string)
    requires x == "(rekt) mider8"
    ensures Strip(x) == "rekt mider8"
  {
    ExampleSplit();
    ExampleStripPieces();
    StripPieces("(", "rekt", ")", " mider8");
  }

  lemma {:induction false} ExampleTail()
    ensures Trim(Collapse("rekt mider8")) == "rekt mider8"
  {
    ExampleWordsNormalized();
    CollapseFixesSingleSpaces("rekt mider8");
    assert TrimStart("rekt mider8") == "rekt mider8";
  }

  /** The example the service documents: two searchable words. */
  lemma {:induction false} NormalizeNameExample()
    ensures NormalizeName("(ReKt) Mider8") == "rekt mider8"
  {
    ExampleLower("(ReKt) Mider8");
    ExampleStrip("(rekt) mider8");
    ExampleTail();
  }

  // ---------------------------------------------------------------------
  // Query escaping
  // ---------------------------------------------------------------------

  /** The class `[-@!{}()[\]"~*\\:]` of characters special in a RediSearch query. */
  predicate IsSpecial(c: char) {
    c in "-@!{}()[]\"~*\\:"
  }

  /** `escapeTextQuery`: a backslash before every special character. */
  function EscapeTextQuery(s: string): (r: string)
    ensures |r| >= |s|
  {
    if s == [] then [] else (if IsSpecial(s[0]) then ['\\', s[0]] else [s[0]]) + EscapeTextQuery(s[1..])
  }

  /** Reading an escaped query back: a backslash makes the next character literal. */
  function UnescapeTextQuery(t: string): string {
    if t == [] then []
    else if t[0] == '\\' && |t| >= 2 then [t[1]] + UnescapeTextQuery(t[2..])
    else [t[0]] + UnescapeTextQuery(t[1..])
  }

  /** Escaping loses nothing: unescaping gives the input back. */
  lemma {:induction false} EscapeRoundTrip(s: string)
    ensures UnescapeTextQuery(EscapeTextQuery(s)) == s
  {
    if s != [] {
      EscapeRoundTrip(s[1..]);
      var rest := EscapeTextQuery(s[1..]);
      if IsSpecial(s[0]) {
        var t := ['\\', s[0]] + rest;
        assert t[2..] == rest;
      } else {
        var t := [s[0]] + rest;
        assert s[0] != '\\';
        assert t[1..] == rest;
      }
    }
  }

  /** Every special character is stripped by normalisation, so a normalised query is escaped unchanged. */
  lemma {:induction false} EscapeFixesClean(s: string)
    requires Clean(s)
    ensures EscapeTextQuery(s) == s
  {
    if s != [] {
      EscapeFixesClean(s[1..]);
      assert !IsStripped(s[0]);
    }
  }

  // ---------------------------------------------------------------------
  // Search reply parsing
  // ---------------------------------------------------------------------

  /**
   * One element of the flat reply `[total, key1, [fields1], key2, ...]`.
   * A field list alternates names and values.
   */
  datatype ReplyItem = Count(n: int) | Key(key: string) | Fields(fs: seq<string>) | Nil

  datatype SearchResult = SearchResult(clanName: string, name: string, tag: string)

  /** `fields[k]`, undefined past the end. */
  function ValueAt(fs: seq<string>, k: nat): Option<string> {
    if k < |fs| then Some(fs[k]) else None
  }

  /** The number of `j += 2` steps over a field list. */
  function PairCount(fs: seq<string>): nat {
    (|fs| + 1) / 2
  }

  function FieldName(fs: seq<string>, p: nat): string
    requires p < PairCount(fs)
  {
    fs[2 * p]
  }

  function FieldValue(fs: seq<string>, p: nat): Option<string> {
    ValueAt(fs, 2 * p + 1)
  }

  /** The `player` record after the first `n` assignments `player[fields[j]] = fields[j + 1]`. */
  function FieldsOf(fs: seq<string>, n: nat): map<string, Option<string>>
    requires n <= PairCount(fs)
  {
    if n == 0 then map[] else FieldsOf(fs, n - 1)[FieldName(fs, n - 1) := FieldValue(fs, n - 1)]
  }

  /** A name appears in the record exactly when some pair names it, and the last such pair wins. */
  lemma {:induction false} FieldsOfLastWrite(fs: seq<string>, n: nat, k: string)
    requires n <= PairCount(fs)
    ensures k in FieldsOf(fs, n) <==> exists p :: 0 <= p < n && FieldName(fs, p) == k
    ensures k in FieldsOf(fs, n) ==> exists p :: (0 <= p < n && FieldName(fs, p) == k
      && FieldsOf(fs, n)[k] == FieldValue(fs, p) && forall q :: p < q < n ==> FieldName(fs, q) != k)
  {
    if n > 0 {
      FieldsOfLastWrite(fs, n - 1, k);
      if k != FieldName(fs, n - 1) && k in FieldsOf(fs, n) {
        var p :| 0 <= p < n - 1 && FieldName(fs, p) == k
          && FieldsOf(fs, n - 1)[k] == FieldValue(fs, p) && forall q :: p < q < n - 1 ==> FieldName(fs, q) != k;
        assert forall q :: p < q < n ==> FieldName(fs, q) != k;
      }
    }
  }

  /** The inner loop: the `player` record built from one field list. */
  method BuildRecord(fs: seq<string>) returns (player: map<string, Option<string>>)
    ensures player == FieldsOf(fs, PairCount(fs))
  {
    player := map[];
    var j := 0;
    while j < |fs|
      invariant j % 2 == 0 && j / 2 <= PairCount(fs)
      invariant j < |fs| || j / 2 == PairCount(fs)
      invariant player == FieldsOf(fs, j / 2)
    {
      var value := if j + 1 < |fs| then Some(fs[j + 1]) else None;
      player := player[fs[j] := value];
      j := j + 2;
    }
  }

  /** `player[k]`, undefined when absent. */
  function Lookup(player: map<string, Option<string>>, k: string): Option<string> {
    if k in player then player[k] else None
  }

  /** The record pushed for a `player`, if its name and tag are both non-empty. */
  function RecordOf(player: map<string, Option<string>>): (r: Option<SearchResult>)
    ensures r.Some? <==> (Lookup(player, "name").Some? && Lookup(player, "name").value != ""
      && Lookup(player, "tag").Some? && Lookup(player, "tag").value != "")
    ensures r.Some? ==> (r.value.name == Lookup(player, "name").value && r.value.tag == Lookup(player, "tag").value
      && r.value.clanName == Lookup(player, "clanName").GetOr(""))
  {
    var name, tag := Lookup(player, "name"), Lookup(player, "tag");
    if name.Some? && name.value != "" && tag.Some? && tag.value != "" then
      Some(SearchResult(Lookup(player, "clanName").GetOr(""), name.value, tag.value))
    else None
  }

  /**
   * The record of the `p`-th result, whose field list is at `1 + 2 * p + 1`.
   * A missing or non-list element gives no record: `!fields` skips a missing
   * one, and the characters of a string or the missing length of a number
   * never form the names `name` and `tag`.
   */
  function RecordAt(raw: seq<ReplyItem>, p: nat): Option<SearchResult> {
    var i := 1 + 2 * p;
    if i + 1 < |raw| && raw[i + 1].Fields? then
      var fs := raw[i + 1].fs;
      RecordOf(FieldsOf(fs, PairCount(fs)))
    else None
  }

  /** The records of the first `n` results, in reply order. */
  function RecordsBefore(raw: seq<ReplyItem>, n: nat): (r: seq<SearchResult>)
    ensures |r| <= n
  {
    if n == 0 then []
    else
      var rec := RecordAt(raw, n - 1);
      RecordsBefore(raw, n - 1) + (if rec.Some? then [rec.value] else [])
  }

  /** The number of results the reply holds. */
  function ResultCount(raw: seq<ReplyItem>): nat {
    |raw| / 2
  }

  /** Every record the reply holds, in reply order. */
  function AllRecords(raw: seq<ReplyItem>): seq<SearchResult> {
    RecordsBefore(raw, ResultCount(raw))
  }

  /** What `parseSearchResults` returns: the reply's records, cut at `limit`. */
  function Collect(raw: seq<ReplyItem>, limit: int): seq<SearchResult> {
    var all := AllRecords(raw);
    if limit <= 0 then [] else if |all| <= limit then all else all[..limit]
  }

  lemma {:induction false} RecordsBeforePrefix(raw: seq<ReplyItem>, m: nat, n: nat)
    requires m <= n
    ensures |RecordsBefore(raw, m)| <= |RecordsBefore(raw, n)| <= |RecordsBefore(raw, m)| + (n - m)
    ensures RecordsBefore(raw, n)[..|RecordsBefore(raw, m)|] == RecordsBefore(raw, m)
    decreases n - m
  {
    if m < n {
      RecordsBeforePrefix(raw, m, n - 1);
      var a, b := RecordsBefore(raw, m), RecordsBefore(raw, n - 1);
      assert RecordsBefore(raw, n)[..|b|] == b;
      assert b[..|a|] == a;
    }
  }

  lemma {:induction false} RecordsBeforePastEnd(raw: seq<ReplyItem>, n: nat)
    requires n >= ResultCount(raw)
    ensures RecordsBefore(raw, n) == AllRecords(raw)
  {
    if n > ResultCount(raw) {
      RecordsBeforePastEnd(raw, n - 1);
      assert RecordAt(raw, n - 1).None?;
    }
  }

  /**
   * `parseSearchResults`: step over the reply two elements at a time from
   * index 1, build each `player` record, and push it when it has a name and
   * a tag, until the reply ends or `limit` records are collected.
   */
  method ParseSearchResults(raw: seq<ReplyItem>, limit: int) returns (results: seq<SearchResult>)
    ensures results == Collect(raw, limit)
  {
    results := [];
    var i := 1;
    while i < |raw| && |results| < limit
      invariant i % 2 == 1 && 1 <= i <= |raw| + 1
      invariant results == RecordsBefore(raw, (i - 1) / 2)
      invariant limit <= 0 ==> i == 1
      invariant limit > 0 ==> |results| <= limit
    {
      ghost var p := (i - 1) / 2;
      assert 1 + 2 * p == i;
      if i + 1 < |raw| && raw[i + 1].Fields? {
        var fields := raw[i + 1].fs;
        var player := BuildRecord(fields);
        var name, tag := Lookup(player, "name"), Lookup(player, "tag");
        assert RecordAt(raw, p) == RecordOf(player);
        if name.Some? && name.value != "" && tag.Some? && tag.value != "" {
          results := results + [SearchResult(Lookup(player, "clanName").GetOr(""), name.value, tag.value)];
        }
      } else {
        assert RecordAt(raw, p).None?;
      }
      assert (i + 1) / 2 == p + 1;
      i := i + 2;
    }
    CollectAt(raw, limit, (i - 1) / 2);
  }

  /** Where the loop stops, the records collected so far are the result. */
  lemma {:induction false} CollectAt(raw: seq<ReplyItem>, limit: int, n: nat)
    requires limit <= 0 ==> n == 0
    requires limit > 0 ==> |RecordsBefore(raw, n)| <= limit
    requires n >= ResultCount(raw) || |RecordsBefore(raw, n)| >= limit
    ensures RecordsBefore(raw, n) == Collect(raw, limit)
  {
    if n >= ResultCount(raw) {
      RecordsBeforePastEnd(raw, n);
    } else {
      RecordsBeforePrefix(raw, n, ResultCount(raw));
    }
  }

  /** The parsed records: never more than `limit`, each with a name and a tag, a prefix of the reply's records. */
  lemma {:induction false} CollectBounds(raw: seq<ReplyItem>, limit: int)
    ensures |Collect(raw, limit)| <= if limit < 0 then 0 else limit
    ensures forall r :: r in Collect(raw, limit) ==> r.name != "" && r.tag != ""
    ensures Collect(raw, limit) == AllRecords(raw)[..|Collect(raw, limit)|]
    ensures limit > 0 ==> |Collect(raw, limit)| == if |AllRecords(raw)| < limit then |AllRecords(raw)| else limit
  {
    RecordsValid(raw, ResultCount(raw));
  }

  lemma {:induction false} RecordsValid(raw: seq<ReplyItem>, n: nat)
    ensures forall r :: r in RecordsBefore(raw, n) ==> r.name != "" && r.tag != ""
  {
    if n > 0 {
      RecordsValid(raw, n - 1);
    }
  }

  // ---------------------------------------------------------------------
  // Search
  // ---------------------------------------------------------------------

  const SearchIndex: string := "players:idx"

  /** `FT.SEARCH players:idx <query> LIMIT 0 <limit> RETURN 3 name tag clanName`. */
  datatype SearchCommand = SearchCommand(index: string, query: string, offset: int, count: int, fields: seq<string>)

  /**
   * The command `searchPlayersInRedis` sends, or None when the query is too
   * short to send; the length is JavaScript's, in UTF-16 code units.
   */
  function SearchCommandFor(query: string, limit: int): (r: Option<SearchCommand>)
    ensures r.None? <==> Utf16Length(NormalizeName(Trim(query))) < 2
    ensures r.Some? ==> r.value.query == "@nameNorm:" + NormalizeName(Trim(query)) + "*"
  {
    var normalizedQuery := NormalizeName(Trim(query));
    if Utf16Length(normalizedQuery) < 2 then None
    else
      NormalizeNameIsNormalized(Trim(query));
      EscapeFixesClean(normalizedQuery);
      Some(SearchCommand(SearchIndex, "@nameNorm:" + EscapeTextQuery(normalizedQuery) + "*", 0, limit,
        ["name", "tag", "clanName"]))
  }

  /**
   * A single astral character is two UTF-16 code units long, so it is
   * searched for rather than refused as too short.
   */
  lemma AstralQuerySearched(limit: int)
    ensures SearchCommandFor("\U{1F600}", limit).Some?
  {
    var q := "\U{1F600}";
    assert |q| == 1 && !IsJsSpace(q[0]) && !IsStripped(q[0]) && !IsAsciiUpper(q[0]);
    assert TrimStart(q) == q && TrimEnd(q) == q;
    assert Normalized(q);
    NormalizedIsFixed(q);
    assert q[..0] == [];
    assert Utf16Length(q) == Utf16Length([]) + 2;
  }

  /**
   * `searchPlayersInRedis` (the caller's default `limit` is 10): `reply` is
   * the server's answer to the command sent, None when the call fails.
   */
  method SearchPlayers(query: string, limit: int, reply: Option<seq<ReplyItem>>)
    returns (sent: Option<SearchCommand>, results: seq<SearchResult>)
    ensures sent == SearchCommandFor(query, limit)
    ensures sent.None? ==> results == []
    ensures sent.Some? && reply.Some? ==> results == Collect(reply.value, limit)
    ensures sent.Some? && reply.None? ==> results == []
  {
    var normalizedQuery := NormalizeName(Trim(query));
    if Utf16Length(normalizedQuery) < 2 {
      return None, [];
    }
    var escapedQuery := EscapeTextQuery(normalizedQuery);
    sent := Some(SearchCommand(SearchIndex, "@nameNorm:" + escapedQuery + "*", 0, limit, ["name", "tag", "clanName"]));
    if reply.None? {
      return sent, [];
    }
    results := ParseSearchResults(reply.value, limit);
  }

  // ---------------------------------------------------------------------
  // The player store
  // ---------------------------------------------------------------------

  const PlayerHashPrefix: string := "player:"

  datatype PlayerData = PlayerData(clanName: Option<string>, name: string, tag: string)

  /** What `getPlayerFromRedis` returns: the stored `tag` field may be missing. */
  datatype PlayerRecord = PlayerRecord(clanName: string, name: string, tag: Option<string>)

  type Store = map<string, map<string, string>>

  /** The key of a player's hash, for a tag in any spelling. */
  function KeyFor(tag: string): string {
    PlayerHashPrefix + Format.FormatTag(tag, true)
  }

  /** `HMGET key field`: null when the key or the field is missing. */
  function Field(h: Store, key: string, f: string): Option<string> {
    if key in h && f in h[key] then Some(h[key][f]) else None
  }

  /** The hash stored under `key`; `{}` for a missing key, as `HGETALL` answers. */
  function HashAt(h: Store, key: string): map<string, string> {
    if key in h then h[key] else map[]
  }

  /** A hash holding the five fields of a player. */
  function PlayerHash(clanName: string, name: string, nameLower: string, nameNorm: string, tag: string): (m: map<string, string>)
    ensures m.Keys == {"clanName", "name", "nameLower", "nameNorm", "tag"}
    ensures m["clanName"] == clanName && m["name"] == name && m["nameLower"] == nameLower
    ensures m["nameNorm"] == nameNorm && m["tag"] == tag
  {
    map["clanName" := clanName, "name" := name, "nameLower" := nameLower, "nameNorm" := nameNorm, "tag" := tag]
  }

  /** The fields the upsert writes. */
  function StoredFields(p: PlayerData): map<string, string> {
    PlayerHash(p.clanName.GetOr(""), p.name, LowerString(p.name), NormalizeName(p.name), Format.FormatTag(p.tag, true))
  }

  /** The stored player has a name and a normalised name, and neither the name nor the clan name changed. */
  predicate Skips(h: Store, p: PlayerData) {
    var key := KeyFor(p.tag);
    var existingName, existingNameNorm := Field(h, key, "name"), Field(h, key, "nameNorm");
    && existingName.Some? && existingNameNorm.Some?
    && existingName.value == p.name
    && Field(h, key, "clanName").GetOr("") == p.clanName.GetOr("")
  }

  /** The store after `upsertPlayerInRedis`: unchanged when skipped, else the fields merged into the hash. */
  function Upserted(h: Store, p: PlayerData): Store {
    if Skips(h, p) then h
    else h[KeyFor(p.tag) := HashAt(h, KeyFor(p.tag)) + StoredFields(p)]
  }

  /** `getPlayerFromRedis` over a store. */
  function LookupPlayer(h: Store, tag: string): (r: Option<PlayerRecord>)
    ensures r.Some? <==> Field(h, KeyFor(tag), "name").Some? && Field(h, KeyFor(tag), "name").value != ""
  {
    var data := HashAt(h, KeyFor(tag));
    if "name" in data && data["name"] != "" then
      Some(PlayerRecord(
        if "clanName" in data then data["clanName"] else "",
        data["name"],
        if "tag" in data then Some(data["tag"]) else None))
    else None
  }

  /** The upsert touches no key but the player's own. */
  lemma UpsertTouchesOnlyItsKey(h: Store, p: PlayerData, k: string)
    requires k != KeyFor(p.tag)
    ensures k in Upserted(h, p) <==> k in h
    ensures k in h ==> Upserted(h, p)[k] == h[k]
  {
  }

  /**
   * The store is left as it was exactly when the skip test holds: the stored
   * `name` and `clanName` match and a `nameNorm` is present. Stale
   * `nameLower`, `nameNorm` or `tag` values are then kept as they are.
   */
  lemma {:induction false} UpsertSkipsExactlyWhenUnchanged(h: Store, p: PlayerData)
    ensures Upserted(h, p) == h <==> Skips(h, p)
  {
    var key := KeyFor(p.tag);
    if !Skips(h, p) {
      var old_, new_ := HashAt(h, key), HashAt(h, key) + StoredFields(p);
      assert Upserted(h, p)[key] == new_;
      if key in h {
        if "name" !in old_ || "nameNorm" !in old_ {
          assert "name" in new_ && "nameNorm" in new_;
        } else if old_["name"] != p.name {
          assert new_["name"] == p.name;
        } else {
          assert new_["clanName"] == p.clanName.GetOr("");
          assert "clanName" in old_ ==> old_["clanName"] != new_["clanName"];
        }
        assert new_ != old_;
      }
    }
  }

  /** After a write, the player's hash holds the written fields and keeps every other field it had. */
  lemma UpsertWrites(h: Store, p: PlayerData)
    requires !Skips(h, p)
    ensures KeyFor(p.tag) in Upserted(h, p)
    ensures var stored := Upserted(h, p)[KeyFor(p.tag)];
      && stored["clanName"] == p.clanName.GetOr("")
      && stored["name"] == p.name
      && stored["nameLower"] == LowerString(p.name)
      && stored["nameNorm"] == NormalizeName(p.name)
      && stored["tag"] == Format.FormatTag(p.tag, true)
      && forall f :: f in HashAt(h, KeyFor(p.tag)) && f !in StoredFields(p) ==> f in stored && stored[f] == HashAt(h, KeyFor(p.tag))[f]
  {
  }

  /**
   * Reading a player back after the upsert gives its name and clan name, and
   * the canonical tag when the hash was written; a player with an empty name
   * is never read back.
   */
  lemma UpsertThenLookup(h: Store, p: PlayerData)
    ensures var r := LookupPlayer(Upserted(h, p), p.tag);
      && (r.Some? <==> p.name != "")
      && (r.Some? ==> r.value.name == p.name && r.value.clanName == p.clanName.GetOr(""))
      && (r.Some? && !Skips(h, p) ==> r.value.tag == Some(Format.FormatTag(p.tag, true)))
  {
  }

  /** The store's hashes, kept by the Redis server between requests. */
  class PlayerStore {
    var hashes: Store

    constructor ()
      ensures hashes == map[]
    {
      hashes := map[];
    }

    /** `upsertPlayerInRedis`: read the three fields, skip when nothing changed, else write the five fields. */
    method Upsert(player: PlayerData)
      modifies this
      ensures hashes == Upserted(old(hashes), player)
    {
      var tag := Format.FormatTag(player.tag, true);
      var key := PlayerHashPrefix + tag;
      assert key == KeyFor(player.tag);
      var existingName, existingClanName, existingNameNorm :=
        Field(hashes, key, "name"), Field(hashes, key, "clanName"), Field(hashes, key, "nameNorm");
      if existingName.Some? && existingNameNorm.Some? {
        var nameChanged := existingName.value != player.name;
        var clanChanged := existingClanName.GetOr("") != player.clanName.GetOr("");
        if !nameChanged && !clanChanged {
          assert Skips(hashes, player);
          return;
        }
      }
      assert !Skips(hashes, player);
      hashes := hashes[key := HashAt(hashes, key) + StoredFields(player)];
    }

    /** `getPlayerFromRedis`. */
    method GetPlayer(tag: string) returns (r: Option<PlayerRecord>)
      ensures r == LookupPlayer(hashes, tag)
    {
      var data := HashAt(hashes, PlayerHashPrefix + Format.FormatTag(tag, true));
      if "name" in data && data["name"] != "" {
        var clanName := if "clanName" in data then data["clanName"] else "";
        var storedTag := if "tag" in data then Some(data["tag"]) else None;
        return Some(PlayerRecord(clanName, data["name"], storedTag));
      }
      return None;
    }
  }
}
