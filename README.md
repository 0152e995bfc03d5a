# cwstats-api core, modelled in Dafny

This project models the parts of the cwstats-api backend whose behaviour can
be stated exactly. The backend is an HTTP API for a Clash Royale clan-war
statistics product. Each part below is one Dafny module, and each module
follows one source file (or a pair of them).

- **League and badge lookup** (`League`, src/lib/utils.ts). A descending
  threshold table maps a trophy count to a league name. A badge key is a
  badge name, `_`, and that league, or `no_clan`. The static badge table is
  a parameter.
- **Tag canonicalisation** (`Format`, src/lib/format.ts). `formatTag` drops
  every character that is not an ASCII letter or digit, upper-cases, maps
  `O` to `0`, and optionally prefixes `#`.
- **River-race responses** (`ClanRace`, get-clan-race.ts and
  get-clan-race-limited.ts).
  - The snapshot and its clans are classes. `delete race.clan` and the
    per-clan `decksUsed`/`badge` writes are in-place updates, done by methods
    with `modifies` clauses and a loop invariant.
  - The `findIndex` callback reads `race.clan.tag`. A snapshot without a
    `clan` record but with clans makes that callback throw, and the
    controller answers 500. With no clans the callback never runs, so
    nothing throws and the answer carries `clanIndex` -1.
  - The full controller reads `c.trophyCount` for the badge league
    (get-clan-race.ts:32). The declared clan type has no such field; its
    trophies are `clanScore`. The model keeps the two apart:
    `trophyCount` is an optional field, and when it is absent the league is
    `bronze-1` whatever the clan's score (`BadgeIgnoresClanScore`).
- **Player scores** (`PlayerScores`, get-player-scores.ts).
  - The three nested loops become one method per loop. Each is proved
    against a functional specification: the matching entries in encounter
    order, grouped by `season-week` key.
  - The JavaScript object is a key list in first-insertion order plus a map.
  - Both sorts are the stable `Array.prototype.sort`, modelled once as a
    stable insertion sort in `Sorting`.
- **Player search index** (`PlayerIndex`, src/services/redis.ts).
  - Name normalisation and query escaping are functions.
  - `parseSearchResults` is a method with its two loops.
  - The Redis server is a class holding a map from key to field hash, with
    `Upsert` and `GetPlayer` methods.
  - The reply to `FT.SEARCH` is a parameter. It is None when the call fails.
- **Upstream status mapping** (`Supercell`, src/services/supercell.ts).
- **Duplicate Stripe customers** (`StripeCustomers`, src/lib/stripe.ts).
  - The primary customer and the duplicates are chosen from the search
    result.
  - A method with the source's `continue` loop returns the ids it would
    try to delete.
- **Bearer-token check** (`Auth`, src/middleware/auth.ts). It decides
  between 401, 403 and `next()`.
- **Validators**.
  - `FieldSchemas` covers src/schemas/utils.ts and src/zod/utils.ts.
  - `RequestSchemas` covers src/zod/supercell.ts and src/zod/mongo.ts.
  - `LinkedAccount` covers the duplicate-tag validators of
    src/models/linked-account.model.ts.
  - A zod schema is a function from a JSON value (`JsonValues.Json`, where
    `undefined` is None) to a parsed value or the list of issues, in check
    order. Every check runs, as zod runs them.
- **Helper modules.**
  - `Wrappers`: Option and Result.
  - `Text`: ASCII character classes, JavaScript white space, `trim`, the
    truncating `%` as `JsRem`, and lexicographic order.
  - `Sorting`: the stable sort.
  - `SeqUtil`: `map` over a sequence.

Runtime conventions:

- JavaScript's `%` truncates toward zero, so `dayIndex` is negative for a
  negative `periodIndex`.
- `localeCompare` is modelled as plain lexicographic order of Unicode scalar values.
- A string's `length` is counted in UTF-16 code units (`Text.Utf16Length`): an astral character counts twice.
- `toLowerCase` and `toUpperCase` change ASCII letters only.
- `\s` and `trim` use JavaScript's white-space set.

## Model

| member | source | states |
|---|---|---|
| League.FindLeague | src/lib/utils.ts:18 | `find` over the table gives None exactly when every threshold is above the count, and otherwise the name of the first entry whose `min` the count reaches |
| League.FindLeagueByCount | src/lib/utils.ts:4-18 | in a strictly descending table, `find` stops at the highest reached threshold, which is the n-th from the bottom when n thresholds are reached |
| League.LeaguesDescending | src/lib/utils.ts:4-16 | the league table's thresholds are strictly descending |
| League.ReachedBetween | src/lib/utils.ts:4-18 | a count between two consecutive thresholds reaches exactly the lower ones |
| League.LeagueIsTier | src/lib/utils.ts:4-19 | `getLeague` is the tier whose position, counted from `bronze-1`, is the number of thresholds reached, so it is always one of the twelve league names |
| League.LeagueBetween | src/lib/utils.ts:4-19 | a count between the thresholds of tiers n and n+1 gets tier n |
| League.BelowAllThresholds | src/lib/utils.ts:18-19 | every count below 200 gives `bronze-1` |
| League.AtTopThreshold | src/lib/utils.ts:5-18 | every count of at least 5000 gives `legendary-3` |
| League.InclusiveThresholds | src/lib/utils.ts:5-19 | thresholds are inclusive: 200 gives `bronze-2`, 199 `bronze-1`, 4999 `legendary-2`, 5000 `legendary-3` |
| League.LeagueMonotone | src/lib/utils.ts:4-19 | more trophies never give a lower tier |
| League.LeagueOfValue | src/controllers/clan/get-clan-race.ts:32 | `getLeague` of a possibly undefined count is always a league name, and `bronze-1` for undefined, since no comparison with undefined holds |
| League.FindBadgeName | src/lib/utils.ts:25 | None exactly when no badge has the id; otherwise the name of the first badge with that id |
| League.GetClanBadge | src/lib/utils.ts:22-29 | `no_clan` exactly when the id is -1 or 0 or its badge name is missing or empty; otherwise the first matching badge's name, `_`, and the league |
| League.BadgeKeyOfKnownBadge | src/lib/utils.ts:22-29 | a known non-empty badge name gives `<name>_<getLeague(trophies)>` |
| Format.CanonicalChar | src/lib/format.ts:3-5 | every kept character maps to a digit or an upper-case letter other than `O`; `o` and `O` map to `0`; canonical characters map to themselves |
| Format.TagBody | src/lib/format.ts:2-5 | the tag body holds only digits and upper-case letters other than `O`, and is never longer than the input |
| Format.TagBodyIsKeptCharacters | src/lib/format.ts:3-5 | the body is the canonical form of each ASCII letter or digit of the input, in input order |
| Format.TagBodyAppend | src/lib/format.ts:3-5 | the body of a concatenation is the concatenation of the bodies |
| Format.LetterOBecomesZero | src/lib/format.ts:4-5 | an `o` or `O` anywhere becomes `0` at its place in the body |
| Format.TagBodyFixesCanonical | src/lib/format.ts:3-5 | a string of canonical characters is its own body |
| Format.HashPrefix | src/lib/format.ts:7 | `formatTag(s, true)` is `#` followed by `formatTag(s, false)` |
| Format.FormatTagIdempotent | src/lib/format.ts:1-8 | formatting a formatted tag again changes nothing, for either flag |
| Text.Utf16Length | src/services/redis.ts:94 | JavaScript `length`: at least the number of characters and at most twice it, and zero only for the empty string |
| Text.JsRem | src/controllers/clan/get-clan-race.ts:22 | JavaScript `%`: for a non-negative dividend it is the mathematical remainder; for a negative one it is zero or negative |
| ClanRace.FindTagIndex | src/controllers/clan/get-clan-race.ts:25 | `findIndex` by tag equality: -1 exactly when the tag is absent, otherwise the first position holding it |
| ClanRace.Summarize | src/controllers/clan/get-clan-race.ts:22-25 | `dayIndex` is `periodIndex % 7`, in 0..6 for a non-negative index; the phase flags hold exactly for `colosseum` and `training` and never both; `clanIndex` is the first position of the own clan's tag or -1 |
| ClanRace.ReduceDecksIsTotal | src/controllers/clan/get-clan-race.ts:31 | the `reduce` the controller runs is the sum of the roster's `decksUsedToday`, offset by its start value |
| ClanRace.EmptyRosterUsesNoDecks | src/controllers/clan/get-clan-race.ts:31 | an empty roster has used no decks |
| ClanRace.TotalDecksBounds | src/controllers/clan/get-clan-race.ts:31 | with at most four decks per player a day, a roster uses between 0 and four decks per member |
| ClanRace.AddDecksUsedAndBadges | src/controllers/clan/get-clan-race.ts:30-33 | afterwards every clan object holds its roster's deck total and `getClanBadge(badgeId, trophyCount)` |
| ClanRace.GetClanRace | src/controllers/clan/get-clan-race.ts:22-45 | without a `clan` record but with clans: status 500 and nothing changed; without either: `clanIndex` -1 and success; otherwise the summary over the clans in snapshot order, `clan` removed, every clan augmented, and `clanIndex` still pointing at the own clan after the loop |
| ClanRace.GetClanRaceLimited | src/controllers/clan/get-clan-race-limited.ts:21-38 | the same 500 and `clanIndex` -1 cases, the same summary and the same removal of `clan`, with no clan's `decksUsed` or `badge` changed |
| ClanRace.BadgeIgnoresClanScore | src/controllers/clan/get-clan-race.ts:32 | with no `trophyCount`, a known badge gets the `bronze-1` league whatever the clan's score |
| PlayerScores.MatchScoresExact | src/controllers/player/get-player-scores.ts:32-39 | the inner loop keeps exactly the scores whose tag equals the formatted tag, each copied with its day's fields |
| PlayerScores.MatchDaysExact | src/controllers/player/get-player-scores.ts:29-41 | the middle loop collects exactly the matching scores of every tracking entry |
| PlayerScores.MatchClansExact | src/controllers/player/get-player-scores.ts:28-43 | the outer loop collects exactly the matching scores of every tracking entry of every clan, a missing tracking list counting as empty |
| PlayerScores.Push | src/controllers/player/get-player-scores.ts:38-39 | push-or-create adds the entry under its `season-week` key, and adds the key at the end of the key order the first time it is seen |
| PlayerScores.CollectDay | src/controllers/player/get-player-scores.ts:32-41 | the loop over a day's scores leaves the dictionary holding the earlier entries followed by that day's matching ones |
| PlayerScores.CollectClan | src/controllers/player/get-player-scores.ts:29-42 | the loop over a clan's days adds that clan's matching entries in order |
| PlayerScores.CollectScores | src/controllers/player/get-player-scores.ts:26-43 | the three loops build the dictionary of all matching entries grouped by week key, keys in first-seen order |
| PlayerScores.GroupByAt | src/controllers/player/get-player-scores.ts:34-39 | a key is in the dictionary exactly when some entry has it, and its group is those entries in push order, never empty |
| PlayerScores.KeyOrderDistinct | src/controllers/player/get-player-scores.ts:38-39 | each key appears once in the dictionary's key order |
| PlayerScores.ByDayIsPreorder | src/controllers/player/get-player-scores.ts:48 | the day comparator is a consistent total preorder |
| PlayerScores.ByKeyDescendingIsPreorder | src/controllers/player/get-player-scores.ts:49 | the descending key comparator is a consistent total preorder |
| PlayerScores.GetPlayerScores | src/controllers/player/get-player-scores.ts:21-50 | the controller's result is the response built from the matching entries of the formatted tag |
| PlayerScores.ResponseGroups | src/controllers/player/get-player-scores.ts:46-49 | every response group has a week key of the player's entries, is non-empty, holds only that week's entries of the formatted tag, and is those entries sorted by day |
| PlayerScores.GroupsSortedByDayStably | src/controllers/player/get-player-scores.ts:48 | within a group, days never decrease, and entries of equal day keep push order |
| PlayerScores.ResponseKeysDescending | src/controllers/player/get-player-scores.ts:49 | response keys are distinct and in descending string order |
| PlayerScores.ResponseKeys | src/controllers/player/get-player-scores.ts:46-49 | the response has a group for exactly the week keys of the player's entries |
| PlayerScores.ResponseCount | src/controllers/player/get-player-scores.ts:28-50 | the groups together hold exactly as many entries as there are matching scores |
| Sorting.SortBySorted | src/controllers/player/get-player-scores.ts:48-49 | the stable sort's result is ordered by the comparator |
| Sorting.SortByStable | src/controllers/player/get-player-scores.ts:48-49 | elements that compare equal keep their input order |
| Sorting.SortByHead | src/lib/stripe.ts:46-54 | the sort's first element is the first input element that may precede every element |
| PlayerIndex.Strip | src/services/redis.ts:30 | the first `replace` leaves no stripped ASCII control or punctuation character, never lengthens, and adds no upper-case letter |
| PlayerIndex.Collapse | src/services/redis.ts:31 | the second `replace` leaves only plain single spaces as white space and keeps the earlier properties |
| PlayerIndex.NormalizeNameIsNormalized | src/services/redis.ts:27-33 | a normalised name has no ASCII upper case, no stripped character, only single inner spaces as white space, and no white space at either end |
| PlayerIndex.NormalizedIsFixed | src/services/redis.ts:27-33 | a string with those properties normalises to itself |
| PlayerIndex.NormalizeNameIdempotent | src/services/redis.ts:27-33 | normalising twice is normalising once |
| PlayerIndex.NormalizeNameExample | src/services/redis.ts:25-33 | `(ReKt) Mider8` normalises to `rekt mider8` |
| PlayerIndex.EscapeRoundTrip | src/services/redis.ts:38-40 | reading the escaped query back, a backslash making the next character literal, gives the input |
| PlayerIndex.EscapeFixesClean | src/services/redis.ts:38-40 | a string without stripped characters has no special character, so escaping leaves it unchanged |
| PlayerIndex.FieldsOfLastWrite | src/services/redis.ts:133-136 | the record has a field exactly when some pair names it, and its value is the one of the last pair naming it |
| PlayerIndex.BuildRecord | src/services/redis.ts:133-136 | the inner loop builds that record from all pairs |
| PlayerIndex.RecordOf | src/services/redis.ts:138-144 | a record yields a result exactly when `name` and `tag` are non-empty; `clanName` defaults to the empty string |
| PlayerIndex.ParseSearchResults | src/services/redis.ts:125-148 | the loop returns the valid records of the reply in reply order, stopping once `limit` are collected |
| PlayerIndex.CollectBounds | src/services/redis.ts:129-145 | at most `limit` results, each with a non-empty name and tag, forming a prefix of all valid records, and exactly `min(limit, all)` of them |
| PlayerIndex.SearchCommandFor | src/services/redis.ts:92-113 | no command exactly when the normalised query is shorter than 2 UTF-16 code units; otherwise the prefix search `@nameNorm:<normalised query>*`, since escaping leaves a normalised query unchanged |
| PlayerIndex.SearchPlayers | src/services/redis.ts:90-120 | a short query returns `[]` without querying; a failed call returns `[]`; otherwise the parsed reply |
| PlayerIndex.AstralQuerySearched | src/services/redis.ts:92-94 | a single astral character is two code units long, so it is searched for, not refused |
| PlayerIndex.LookupPlayer | src/services/redis.ts:153-171 | a player is returned exactly when the stored hash has a non-empty `name` |
| PlayerIndex.UpsertSkipsExactlyWhenUnchanged | src/services/redis.ts:55-67 | the store is left as it was exactly when the stored `name` and `nameNorm` exist, the name is unchanged and the clan names agree with absent read as empty |
| PlayerIndex.UpsertWrites | src/services/redis.ts:72-78 | otherwise the key `player:<#TAG>` holds the clan name or empty, the name, its lower case, its normal form and the formatted tag, and other fields of that hash stay |
| PlayerIndex.UpsertTouchesOnlyItsKey | src/services/redis.ts:48-83 | no other key of the store changes |
| PlayerIndex.UpsertThenLookup | src/services/redis.ts:72-166 | after an upsert, a lookup by the same tag finds the player exactly when the name is non-empty, with its name and clan name |
| PlayerIndex.PlayerStore.Upsert | src/services/redis.ts:48-83 | the store's new map is the upsert of the old one |
| PlayerIndex.PlayerStore.GetPlayer | src/services/redis.ts:153-171 | the result is the lookup in the current map, with nothing changed |
| Supercell.ErrorMessage | src/services/supercell.ts:14-18 | 404, 429 and 503 get their own messages, and every other status the unexpected-error message |
| Supercell.ErrorMessagesDistinct | src/services/supercell.ts:14-18 | two non-200 statuses share a message only when they are equal or both unlisted |
| Supercell.Unwrap | src/services/supercell.ts:10 | `data?.items ?? data` is the `items` field when it is present and not null, otherwise the data itself |
| Supercell.UnwrapItems | src/services/supercell.ts:10 | an object with `items` gives the items; one without gives itself |
| Supercell.HandleSupercellResponse | src/services/supercell.ts:5-25 | the status is echoed; a data result exactly for 200, carrying the unwrapped data, and otherwise an error result with the status's message |
| StripeCustomers.CountLive | src/lib/stripe.ts:42 | the active count is at most the total, and zero exactly when no status is active, trialing or past_due |
| StripeCustomers.Rank | src/lib/stripe.ts:40-45 | each record carries its customer, with the active count at most the total count |
| StripeCustomers.ByPriorityIsPreorder | src/lib/stripe.ts:46-52 | the comparator is a consistent total preorder |
| StripeCustomers.ByPriorityMeaning | src/lib/stripe.ts:46-52 | a record may precede another exactly when its customer has more live subscriptions, or as many and at least as many in total |
| StripeCustomers.SelectCustomers | src/lib/stripe.ts:26-55 | nothing for no customer, the customer itself for one, and otherwise a primary with one fewer duplicates than customers found |
| StripeCustomers.SelectionIsPartition | src/lib/stripe.ts:39-55 | the primary and the duplicates together are the customers found, each as often as found |
| StripeCustomers.PrimaryIsBest | src/lib/stripe.ts:39-54 | the primary has the most live subscriptions among those found, and among equals the most subscriptions |
| StripeCustomers.FirstBest | src/lib/stripe.ts:46-54 | the first position, in search order, of a customer at least as good as every other |
| StripeCustomers.PrimaryIsFirstBest | src/lib/stripe.ts:46-54 | full ties go to the customer the search returned first |
| StripeCustomers.PrimaryNotDuplicate | src/lib/stripe.ts:54-55 | for distinct customers, the primary is not among the duplicates |
| StripeCustomers.DeletableIds | src/lib/stripe.ts:66-80 | an id is attempted exactly when some duplicate with that id has no subscriptions |
| StripeCustomers.DeleteDuplicates | src/lib/stripe.ts:66-88 | the loop with `continue` attempts exactly those ids, in order |
| StripeCustomers.DuplicateWithSubscriptionKept | src/lib/stripe.ts:67-76 | a duplicate with a subscription is never attempted |
| StripeCustomers.PrimaryNeverDeleted | src/lib/stripe.ts:54-79 | with distinct ids, the primary's id is never attempted |
| StripeCustomers.FindCustomerByDiscordId | src/lib/stripe.ts:26-99 | a failed or empty search gives null, no deletion and no save; one customer is saved and returned as is; otherwise the deletable duplicates are attempted and the primary is saved and returned; when the save throws, the result is null, after the same deletions |
| Auth.Split | src/middleware/auth.ts:11 | `split(' ')` gives at least one part, no part contains a space, and a string without a space is its own single part |
| Auth.JoinSplit | src/middleware/auth.ts:11 | joining the parts with the separator gives the string back |
| Auth.SplitJoin | src/middleware/auth.ts:11 | splitting a join of separator-free parts gives the parts back |
| Auth.Token | src/middleware/auth.ts:11 | the token taken from a `Bearer ` header contains no space |
| Auth.TokenIsFirstWord | src/middleware/auth.ts:11 | the token is the text after `Bearer ` up to its first space |
| Auth.TokenExample | src/middleware/auth.ts:11 | `Bearer a b` is checked as the token `a` |
| Auth.Authorize | src/middleware/auth.ts:3-18 | 401 exactly when the header is absent or does not start with `Bearer `; 403 exactly when it does and the token is not the configured key; `next()` exactly when it is |
| Auth.UnsetKeyRejectsEveryRequest | src/middleware/auth.ts:12-15 | with no configured key no request passes |
| Auth.KeyPasses | src/middleware/auth.ts:6-17 | `Bearer <key>` passes for a key without a space |
| FieldSchemas.TagIssues | src/zod/utils.ts:3-10 | no issue exactly for at least three ASCII letters or digits; "required" exactly for the empty string, "alphanumeric" exactly when the pattern fails, "at least 3" exactly when shorter than 3 UTF-16 code units |
| FieldSchemas.ParseTag | src/schemas/utils.ts:4-11 | accepted exactly for a string of at least three ASCII letters or digits, returned as is; missing and non-string values get their own messages |
| FieldSchemas.EmptyTagRejected | src/schemas/utils.ts:9-11 | the empty tag is reported as required, not alphanumeric and too short, in that order |
| FieldSchemas.NonAlphanumericTagRejected | src/schemas/utils.ts:10 | any character outside `[A-Za-z0-9]` makes the tag fail as not alphanumeric |
| FieldSchemas.HashTagExample | src/schemas/utils.ts:10 | `#ABC` fails only as not alphanumeric |
| FieldSchemas.AstralTagExample | src/zod/utils.ts:9-10 | an astral character and a letter are 3 code units long, so they fail only as not alphanumeric |
| FieldSchemas.DiscordIdIssues | src/zod/utils.ts:12-18 | no issue exactly for 17 to 19 ASCII digits; "required" exactly for the empty string |
| FieldSchemas.ParseDiscordId | src/schemas/utils.ts:14-20 | accepted exactly for a string of 17 to 19 digits; missing and non-string values get their own messages |
| FieldSchemas.DiscordIdExamples | src/zod/utils.ts:17-18 | 16 and 20 digits, a letter or a space are rejected; 17 digits are accepted |
| FieldSchemas.ParseLocation | src/schemas/utils.ts:22-27 | accepted exactly for an object with numeric `id`, boolean `isCountry`, string `name` and an optional string `countryCode`, whose values it returns |
| FieldSchemas.LocationRoundTrip | src/schemas/utils.ts:22-27 | parsing the JSON form of a location gives the location back |
| FieldSchemas.LocationRequiredKeys | src/schemas/utils.ts:24-26 | a location without `id`, `isCountry` or `name` is rejected |
| FieldSchemas.ParseRiserFallerEntry | src/schemas/utils.ts:29-38 | accepted exactly when all eight fields have their types and the location parses |
| FieldSchemas.RiserFallerEntryRoundTrip | src/schemas/utils.ts:29-38 | parsing the JSON form of an entry gives the entry back |
| RequestSchemas.ParseTagObject | src/zod/supercell.ts:5-15 | a `tag` param is accepted exactly when it follows the shared tag rule |
| RequestSchemas.PlayerDocumentTag | src/zod/mongo.ts:5-7 | a player document's `tag` is accepted exactly when it follows the tag rule, whatever the other fields |
| RequestSchemas.ParseSearch | src/zod/supercell.ts:17-21 | the search `name` is accepted exactly when it is a non-empty string; the empty name gets "name cannot be empty" |
| RequestSchemas.ParseLocationId | src/zod/supercell.ts:25 | `global` passes as itself; a non-empty digit string becomes its number; anything else fails |
| RequestSchemas.LocationIdExamples | src/zod/supercell.ts:25 | `global` stays global, `57` becomes 57 and `007` becomes 7 |
| RequestSchemas.LocationIdRejected | src/zod/supercell.ts:25 | the empty string, `-1` and `Global` are rejected |
| RequestSchemas.ParseLimit | src/zod/supercell.ts:28-35 | absent is accepted as absent; a digit string with a positive value becomes that number; a digit string of value 0 gets "limit must be greater than 0" |
| RequestSchemas.LimitExamples | src/zod/supercell.ts:28-35 | `0` and `00` are not positive, `1` is 1, `-5` fails the pattern |
| RequestSchemas.ParseLeaderboardWar | src/zod/supercell.ts:23-37 | accepted exactly when both fields are; the issues of both fields are reported together |
| RequestSchemas.ParsePlusClans | src/zod/mongo.ts:9-16 | `tagsOnly` is `'false'` when absent, accepted exactly when it is the string `'true'` or `'false'`, and otherwise fails with the enum message |
| RequestSchemas.ParseGuildClans | src/zod/mongo.ts:18-22 | the guild `id` is accepted exactly when it is 17 to 19 digits |
| LinkedAccount.SetOfSize | src/models/linked-account.model.ts:47 | a `Set` of the tags is never larger than the array, and as large exactly when the tags are pairwise distinct |
| LinkedAccount.NoDuplicateTagsIsDistinct | src/models/linked-account.model.ts:46-47 | the size test holds exactly when no two tags are equal |
| LinkedAccount.SavedClansValidIff | src/models/linked-account.model.ts:45-48 | saved clans are valid exactly when no two have the same tag |
| LinkedAccount.SavedPlayersValidIff | src/models/linked-account.model.ts:55-58 | saved players are valid exactly when no two have the same tag |
| LinkedAccount.EmptyListsValid | src/models/linked-account.model.ts:45-58 | empty lists are valid |
| LinkedAccount.SameTagRejected | src/models/linked-account.model.ts:45-58 | two entries with the same tag are rejected, whatever their names or badges |
| LinkedAccount.NoDuplicateTagsOrderFree | src/models/linked-account.model.ts:46-47 | the size test does not depend on the order of the tags |
| LinkedAccount.SavedClansOrderFree | src/models/linked-account.model.ts:45-48 | reordering saved clans does not change validity |
| LinkedAccount.SavedPlayersOrderFree | src/models/linked-account.model.ts:55-58 | reordering saved players does not change validity |

## Left out

- Express plumbing is not modelled: routing, request parsing, `res.status(...).json(...)`, and the error and logging middleware. Each controller's result is returned as a value instead.
- The Supercell fetch (`getRiverRace`, `getPlayer`) is not modelled. Its outcome is an input.
- The MongoDB queries are not modelled. The clans fetched for the scores are an input.
- The Stripe calls are not modelled: search, delete, and `setStripeCustomerId`. The search result is an input, and so is whether `setStripeCustomerId` succeeds. The ids the loop would delete and the id passed to `setStripeCustomerId` are outputs. Failures of `del` are caught and logged by the source; they change nothing the model returns.
- Redis errors are not modelled. They are caught and logged by the source, so an upsert that fails leaves the store unchanged.
- `checkRedisHealth` is not modelled, because it is a ping.
- Logging is not modelled.
- Fame averages, fame projection, placement ranking and finish-line ordering are not modelled. The response type declares those fields, but neither race controller computes them, and the model follows the controllers.
- `PlayerScores.ResponseKeysDescending`: `localeCompare` is modelled as plain lexicographic order of Unicode scalar values. Locale collation is a runtime facility.
- `PlayerIndex.NormalizeNameIsNormalized`: lower-casing is modelled for ASCII letters only. Unicode case mapping is a runtime table.
- `Supercell.HandleSupercellResponse`: JSON numbers are modelled as integers. Floating point plays no part in the mapping.
- `RequestSchemas.ParseLocationId`: `Number(...)` of a long digit string is modelled as its exact value. The loss of precision above 2^53 is not modelled.
- `RequestSchemas.ParseLimit`: `.transform(Number)` is modelled as the exact value of the digits. Rounding above 2^53, and `Infinity` past about 309 digits, are not modelled.
- `FieldSchemas.TagIssues`: zod's issue paths and its default messages are modelled as issue kinds, such as `InvalidType`, rather than as exact text.
- The legacy schemas under src/schemas/zod and src/schemas/mongo.ts are not part of this model. They repeat the rules of the modelled schemas.
- The badge table src/static/badges.json is not part of this model. It is a parameter.
- `PlayerIndex.PlayerStore.Upsert`: a Redis hash is modelled as a map from field to string, so a field whose value is absent is modelled as missing.
