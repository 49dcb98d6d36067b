# NIU CSCI Discord bot — a Dafny model of its core

The bot tracks an xp counter and a level per Discord member. It keeps them
in a remote record store (a NocoDB table) reached over HTTP. Every fallible
operation returns an Ok/Err `Result` instead of throwing. This project models
three pure pieces of that code and proves properties of them:

- **The `Result` type** (`result.dfy`, module `Results`). It has the
  predicates `is_ok`/`is_err` and the eliminators `unwrap`, `unwrap_err`,
  `expect` and `match`. It has the combinators `and_then` and `or_else`, and
  the `Ok(value?)`/`Err(value?)` factories. The factories store the `Nothing`
  marker in place of an absent or falsy payload. The aborting eliminators
  become preconditions. The chaining laws are lemmas: left and right
  identity, associativity, and "the first Err of a pipeline is its result".
- **The levelling rule** (`members.dfy` and `levelling.dfy`, modules
  `Members` and `Levelling`). It covers the record shape, the three levels,
  the thresholds `[3, 5]`, and the per-message step. Every message adds 1 xp.
  Once the xp reaches the current level's threshold, the level rises by one
  and xp resets to 0. The lemmas cover any number of messages.
- **The record-store client** (`database.dfy`, module `Database`), plus the
  sequencing of `update_xp` (`bot.dfy`, module `Bot`). Each `fetch_json`
  round trip is an input of type `Database.Fetched`. What remains is
  validation and lookup: the all-or-nothing listing, the first-match lookup
  with a create fallback, and the Ok/Err mapping of the update.

`values.dfy` (module `Values`) holds the JavaScript values the core handles.
These are JSON values plus the `Nothing` marker, with JavaScript truthiness
and property reads. A missing property reads as `undefined`, which is `None`
here.

Edge cases of the code that the model keeps:

- `Ok(value?)` and `Err(value?)` replace every falsy payload (`null`,
  `false`, `0`, `""`), not only an absent one (`value || new Nothing()`,
  src/types/result.ts:116 and 119), so `Results.Stored` does too. A fetch
  whose JSON body is `null` therefore reaches `get_members` as `Nothing`,
  and there it yields `NoRecordList` rather than a crash.
- Besides failing on a missing `list` wrapper or a missing field, a listing
  iterates a `list` that is a string, one character per row, and so fails on
  the first row's missing `Id`. It throws a TypeError for any other
  non-array truthy `list` (an object, a number, `true`), because the loop
  header sits outside the per-row `try` (src/lib/database.ts:87-88).
- In a create response whose first element is `null`, `json[0].Id` throws
  instead of returning the "No ID found" error (src/lib/database.ts:161).
  `Database.ParseCreated` models that throw.
- `fetch_json` catches every exception, so a fetch outcome's failure is
  always a plain message (`Database.Fetched` allows no other).

A TypeError thrown outside any `try` rejects the async call's promise. The
model writes it as the error `Failure.Uncaught`. `get_member` passes it on
unchanged, because the rejection propagates through `await`.
`update_xp` then ends with `Report.Rejected` rather than logging.

## Model

| member | source | states |
|---|---|---|
| `Results.Result.IsOk` | src/types/result.ts:25-28 | `is_ok` holds exactly for a value built by `Ok`, and then that value is `Ok` of its payload; otherwise it is `Err` of its error |
| `Results.Result.IsErr` | src/types/result.ts:27-35 | `is_err` is exactly the negation of `is_ok`, for every value |
| `Results.Result.Unwrap` | src/types/result.ts:38-47 | defined only on an Ok (an Err aborts) and returns exactly the Ok's payload |
| `Results.Result.UnwrapErr` | src/types/result.ts:49-58 | defined only on an Err (an Ok aborts) and returns exactly the Err's payload |
| `Results.Result.Expect` | src/types/result.ts:60-70 | defined only on an Ok, returns the payload and agrees with `Unwrap`; the reason does not affect the value |
| `Results.Result.Match` | src/types/result.ts:73-87 | applies the Ok callback to the payload of an Ok and the Err callback to the payload of an Err, and returns that callback's result |
| `Results.Result.AndThen` | src/types/result.ts:89-99 | on an Err returns that same Err; on `Ok(v)` returns the callback's result for `v` |
| `Results.Result.OrElse` | src/types/result.ts:101-111 | on an Ok returns that same Ok; on `Err(e)` returns the callback's result for `e` |
| `Results.Stored` | src/types/result.ts:114-120 | the stored payload is the argument when present and truthy, else the `Nothing` marker; never null |
| `Results.OkOf` | src/types/result.ts:115-117 | `Ok(value?)` builds an Ok whose payload is the stored form of the argument |
| `Results.ErrOf` | src/types/result.ts:118-120 | `Err(value?)` builds an Err whose payload is the stored form of the argument |
| `Results.StoredIsStable` | src/types/result.ts:115-120 | wrapping an already stored payload again stores the same payload |
| `Results.AndThenLeftIdentity` | src/types/result.ts:93-99 | `Ok(v).and_then(f)` equals `f(v)` for every truthy `v` |
| `Results.AndThenRightIdentity` | src/types/result.ts:93-99 | `r.and_then(Ok)` equals `r` |
| `Results.AndThenAssociative` | src/types/result.ts:93-99 | chaining `f` then `g` equals chaining the composite `x => f(x).and_then(g)` |
| `Results.AndThenSkipsCallbackOnErr` | src/types/result.ts:93-99 | on an Err the result does not depend on the callback at all: it is the Err itself |
| `Results.OrElseSkipsCallbackOnOk` | src/types/result.ts:105-111 | on an Ok the result does not depend on the recovery callback: it is the Ok itself |
| `Results.CombinatorsAreMatches` | src/types/result.ts:78-111 | `and_then` and `or_else` are `match` with one side returning the value as it is; matching with the two constructors rebuilds the value |
| `Results.ChainPropagatesErr` | src/types/result.ts:93-99 | an Err fed into a pipeline of any length comes out unchanged |
| `Results.ChainSplits` | src/types/result.ts:93-99 | running a pipeline in two consecutive pieces gives the same result as running it whole |
| `Results.FirstErrIsFinal` | src/types/result.ts:93-99 | once some prefix of a pipeline yields an Err, that Err is the result of the whole pipeline |
| `Members.DiscordUserLevel.Number` | src/types/database.ts:7-11 | each level's stored number is in {0, 1, 2} |
| `Members.LevelOf` | src/types/database.ts:7-11 | a stored number names a level exactly when it is 0, 1 or 2, and then that level's number is the stored number |
| `Members.LevelsOrderedAndNumbered` | src/types/database.ts:7-11 | there are exactly three levels, ordered New < Regular < Veteran, and numbering then reading back gives the level |
| `Members.ThresholdsCoverNonTopLevels` | src/types/database.ts:12-15 | there is one threshold per non-top level, so the table length equals Veteran's number (2); New is left at 3 xp and Regular at 5 |
| `Levelling.GainXp` | src/lib/bot.ts:71-88 | one message adds exactly 1 xp. A level-up happens iff the level has a threshold and the new xp reaches it. A level-up raises the level by exactly 1 and sets xp to 0. `Id` and `discord_user_id` never change |
| `Levelling.StepKeepsLevelNamed` | src/lib/bot.ts:74-77 | a level in {0, 1, 2} stays in that range after a message, as the same level or the next one, and Veteran never levels up |
| `Levelling.RunAdds` | src/lib/bot.ts:72-77 | `n` messages followed by `m` more reach the same record as `n + m` messages |
| `Levelling.RunKeepsLevelInRange` | src/lib/bot.ts:74-77 | over any number of messages the level never decreases, never passes Veteran from {0, 1, 2}, and the row's identity is kept |
| `Levelling.TopLevelOnlyGainsXp` | src/lib/bot.ts:72-75 | a level with no threshold (Veteran, or a stored number outside the table) never levels up, and its xp grows by exactly one per message |
| `Levelling.LevelsUpAtThreshold` | src/lib/bot.ts:72-77 | below a level's threshold `t`, xp grows by one per message, and exactly the `(t - xp)`-th message levels up to xp 0 |
| `Levelling.NewMemberJourney` | src/lib/bot.ts:72-77 | from New with xp 0, 3 messages give Regular with xp 0, and 5 more give Veteran with xp 0 |
| `Database.FirstMissing` | src/lib/database.ts:89-95 | finds the first required column, in the order checked, that a row lacks; it finds none iff every column is present |
| `Database.DecodeRow` | src/lib/database.ts:88-105 | a null row is a caught conversion error. Otherwise the error names the first missing column among Id, discord_user_id, xp, level. A complete row becomes a record holding exactly the row's four values |
| `Database.DecodeEncode` | src/types/database.ts:1-6 | a record sent as a row has exactly the four columns Id, discord_user_id, xp, level, and reads back as the same record |
| `Database.ConvertRows` | src/lib/database.ts:84-108 | all or nothing: Ok iff every row converts. Then the output has the rows' length and order. Otherwise the error is the first failing row's |
| `Database.ToUsers` | src/lib/database.ts:83-108 | a `list` that cannot be iterated throws outside the per-row `try`. An iterable `list` converts its elements (an array's items, a string's characters) all or nothing. Ok iff it is iterable and every element converts |
| `Database.RecordList` | src/lib/database.ts:73-79 | the response's `list` value is passed on iff it is present and truthy; otherwise the error echoes the response |
| `Database.GetMembers` | src/lib/database.ts:58-112 | a fetch Err is passed through unchanged, and a missing `list` gives Err. A truthy `list` that cannot be iterated throws. Ok iff every listed row converts, keeping length and order. Otherwise the first bad row's error is returned |
| `Database.ListingRoundTrip` | src/lib/database.ts:83-108 | a table whose rows encode some records lists back as exactly those records, in order |
| `Database.ListingExamples` | src/lib/database.ts:73-108 | a listing of one complete row yields exactly one record; a response without `list` yields an error |
| `Database.FindByDiscordId` | src/lib/database.ts:131-136 | returns the first record whose Discord id equals the argument exactly, and finds none iff no record matches |
| `Database.ParseCreated` | src/lib/database.ts:159-171 | a numeric `Id` on a non-null first element gives Ok. On success the record has the given Discord id, xp 0, level 0 and the `Id` of the response's first element. A missing first element or `Id` gives "No ID found". A null first element throws |
| `Database.GetMember` | src/lib/database.ts:122-172 | a found or created record always has the requested Discord id. A failed listing gives "Failed to get members." and creates nothing. A match returns the first matching record and creates nothing. Otherwise it creates exactly one row with the id, xp 0, level 0 and returns the create response's outcome |
| `Database.UpdateMember` | src/lib/database.ts:183-205 | sends a one-row array holding exactly the record's four columns Id, discord_user_id, xp, level and no other, which reads back as that record. Returns the empty `Ok()` iff the PATCH succeeded, otherwise "Failed to update member record." |
| `Bot.UpdateXp` | src/lib/bot.ts:66-98 | if the lookup fails, no update is sent. Otherwise exactly one update is sent with the post-rule record, even without a level-up. "Level Up!" is announced iff a level-up happened and names the new level. A failed write is reported |
| `Bot.WrittenRecordIsAuthors` | src/lib/bot.ts:70-93 | the record written back belongs to the message author, keeps the looked-up row id, never has a lower level, and has xp + 1 unless it levelled up |
| `Bot.FirstMessageFromNewUser` | src/lib/bot.ts:70-98 | for an unknown author against an empty table, a row is created with xp 0 and level 0. The record takes the assigned `Id` and is written back with xp 1 and no announcement |
| `Bot.ThirdMessagePromotes` | src/lib/bot.ts:72-93 | a New member with xp 2 is written back as Regular with xp 0, and the level-up is announced |

## Left out

- HTTP transport (`src/lib/fetch.ts`): the request, status classification and JSON parsing. Each `fetch_json` outcome is an input, and its error text is a `Failure.Message`.
- URL and header construction in `Database`, the `Database` constructor's configuration lookups, and `verify`. `verify` only returns the listing fetch's outcome, and it is used once at start-up.
- Configuration and boot (`src/lib/env.ts`, `src/index.ts`): reading `process.env`, dotenv and the `process.exit` gate.
- Gateway wiring (`src/events/*.ts`, plus `start`, the constructor and `get_channel` in `src/lib/bot.ts`). This includes the check that ignores the bot's own messages.
- Concurrency: `on_message` starts `update_xp` without awaiting it. Overlapping messages can lose updates, and that race is not modelled.
- Embeds (`src/lib/discord.ts`): an announcement is a value holding the title, the mention and the new level. The body's text formatting and the random thumbnail are not modelled.
- Console logging, `process.exit` inside `unwrap`/`expect`/`unwrap_err`, and `toString`. An abort is a precondition, and a log line is a `Bot.Report` value.
- Error text: `Failure` keeps the offending field, row or response instead of the message string. The `JSON.stringify` rendering inside that string is not modelled.
- Numbers: `Values.Num` holds an unbounded integer. The source's numbers are doubles, exact only up to 2^53: there `xp + 1` stops growing, and a large `Id` loses precision. The model's xp grows by one per message without bound. Fractional numbers, `NaN` and `-0` are not modelled.
- `deserialize_json` in `src/lib/fetch.ts`: not used by the core.
- Database.DecodeRow: returns `WrongKind` for a present column of the wrong JSON kind (for example xp as a string). The source copies such a value unchecked into the record. The model's record has typed fields, as the store's typed columns declare.
- Database.ParseCreated: returns `WrongKind` when the created row's `Id` is present but not a number. The source copies it unchecked.
