# velik-schedule-bot timetable core, in Dafny

A model of the timetable-resolution core of a small Telegram schedule bot. The bot
answers `/subject [slot] [date]` with the subjects a chat's group has in one class
period, and `/config <group>` stores a chat's group. The model covers four parts:

- **Domain values** (`domain.dfy`). The closed enumerations `Repeat`, `Group`, `Day`
  and `Slot`, with their exact text tokens and their `u8` discriminants. `Repeat` is a
  two-bit flag set, and `Both` is `Odd | Even`.
- **Temporal resolution** (`temporal.dfy`). A point in time, already seen in Kyiv civil
  time, gives a teaching day (a weekend is an error). The time of day gives a slot
  through the table of period ends. The day of the month gives the week parity.
  `Slot::from` keeps its loop (`SlotAt`) and is proved equal to a decision chain
  (`SlotOfTime`). From 15:40 on, the slot is `I` again, as the source does it.
- **Flat-record codec** (`codec.dfy`). The four record unpackers read positional fields
  from an iterator. `FieldIter` is a class advanced one step at a time. Each unpacker is
  proved equal to a pure decoder with a round trip against the export layout. The
  `unpack` driver cuts the lines into chunks of `fields + 1`, keeps every record that
  decodes in order, and skips the rest.
- **Storage and commands** (`storage.dfy`, `bot.dfy`):
  - the database's three tables as a class with the source's queries, except that its subject
    lookup runs the corrected `IN` selection (see "Findings");
  - the `get_subjects` selection and its row mapping;
  - `parse_command_subject`;
  - the `/subject` resolution chain with its error order, and the `/config` upsert.

`outcome.dfy` holds the `Result`/`Option` types and a sequence filter.

Where the code and its design notes differ, the model follows the code:

- A date given to `/subject` is anchored at 12:00 **UTC**, not at local noon. Kyiv is two
  or three hours ahead, so this is the same civil date.
- When the message's own time falls on a weekend, the `InvalidWeekday` error names the
  weekday **in UTC**, which can be the day before the Kyiv weekday that was rejected
  (`Bot.WeekdayMessageNamesUtcDay`).
- `get_subjects` uses a scalar subquery, and a bare `/subject` never reaches the
  "no arguments" arm of `parse_command_subject`. See "Findings".

## Model

| member | source | states |
|---|---|---|
| Domain.RepeatCode | src/data.rs:35-41 | the `Repeat` discriminants lie in 1..3 (Odd = 1, Even = 2, Both = 3) |
| Domain.DayCode | src/data.rs:97-105 | the `Day` discriminants lie in 1..5 (Mon = 1 … Fri = 5) |
| Domain.SlotCode | src/data.rs:140-147 | the `Slot` discriminants lie in 1..4 (I = 1 … IV = 4) |
| Domain.CodesInjective | src/db.rs:41-43 | distinct days, slots and repeats have distinct stored codes |
| Domain.BothIsUnionOfParities | src/data.rs:37-41 | `Both` is the bitwise OR of `Odd` and `Even`, and those two share no bit |
| Domain.CoversIsBitOverlap | src/db.rs:70 | for a concrete parity, "equal or `Both`" is "the flag sets overlap" |
| Domain.ParseRepeat | src/data.rs:43-56 | only the three names parse, each to the value it names; anything else is `NotARepeat` with the text |
| Domain.ParseGroup | src/data.rs:75-85 | only `K-25` parses; anything else is `NotAGroup` with the text |
| Domain.ParseDay | src/data.rs:107-122 | only the five day names parse, each to its day; anything else is `NotADay` |
| Domain.ParseSlot | src/data.rs:149-163 | a slot parses from exactly its digit or its numeral; anything else is `NotASlot` |
| Domain.RepeatNameRoundTrip | src/data.rs:43-56 | every repeat's name parses back to it |
| Domain.DayNameRoundTrip | src/data.rs:107-122 | every day's name parses back to it |
| Domain.GroupTokenRoundTrip | src/data.rs:75-95 | `Group::try_from(String::from(&g)) == g` |
| Domain.SlotTokensRoundTrip | src/data.rs:149-163 | each slot has two distinct tokens, both parsing to it; the digit is the discriminant in decimal |
| Domain.TokensAreExact | src/data.rs:149-163 | tokens are matched exactly: wrong case, trailing blanks, `5` and the empty text are rejected |
| Temporal.DayOf | src/data.rs:124-138 | Monday–Friday map to their teaching day; Saturday and Sunday, and only they, are errors carrying the weekday |
| Temporal.DayOfIsBijectiveOnWeekdays | src/data.rs:124-138 | the day mapping is one-to-one between Mon–Fri and the teaching days |
| Temporal.ParityOf | src/data.rs:58-67 | the week parity is never `Both` |
| Temporal.ParityBands | src/data.rs:58-67 | days 1–7 Even, 8–14 Odd, 15–21 Even, 22–28 Odd, 29–31 Even |
| Temporal.ParityAlternatesWeekly | src/data.rs:58-67 | seven days later the parity flips |
| Temporal.ParityConstantWithinBand | src/data.rs:58-67 | the parity is constant within each seven-day band of the month |
| Temporal.SlotAt | src/data.rs:165-181 | the slot of the first period end strictly later than the time, else `I`; equal to `SlotOfTime` |
| Temporal.FirstLaterEndIsSlotOfTime | src/data.rs:168-180 | the table scan and the decision chain agree on the first later end |
| Temporal.EndsIncreasing | src/data.rs:168-173 | the period ends and their slots are strictly increasing |
| Temporal.SlotBoundaries | src/data.rs:165-181 | 10:14:59 is I, 10:15 is II, 15:39:59 is IV, 15:40 and later is I (boundaries exclusive) |
| Temporal.SlotMonotoneUntilLastEnd | src/data.rs:174-178 | before 15:40 a later time never gives an earlier slot |
| Temporal.SlotWrapsAfterLastEnd | src/data.rs:174-180 | every time at or after 15:40 resolves to slot I |
| Temporal.SlotOfInstant | src/data.rs:165-167 | the slot of a message is the slot of its Kyiv time of day |
| Temporal.AtNoonUtc | src/bot.rs:151-160 | a date at 12:00 UTC keeps its civil date and weekday in Kyiv and falls at 14:00 or 15:00 |
| Codec.ParseI64 | src/data.rs:198-201 | an accepted text is a sign or digit followed by digits and its value is within the i64 range; the empty text is rejected |
| Codec.ParseShowI64 | src/data.rs:198-201 | the decimal rendering of an i64 parses back to it; beyond the range it is the overflow error |
| Codec.ParseI64Examples | src/data.rs:198-201 | signs and leading zeros accepted; blanks, a lone sign and mixed characters rejected |
| Codec.Field | src/data.rs:193-196 | the i-th line exists, or the error names the missing field |
| Codec.DecodeSubject | src/data.rs:190-222 | success iff four lines with an i64 id and a group token; the id is the parsed first line; title copied; `optional` iff the text is exactly `true` |
| Codec.DecodeMeeting | src/data.rs:224-253 | success iff four lines with an i64 id and a group token; the id is the parsed first line; name and link copied |
| Codec.DecodeSchedule | src/data.rs:255-284 | fields in order day, subject_id, repeat, slot; success iff all four parse |
| Codec.DecodeAssigned | src/data.rs:286-314 | success iff two lines, both i64 ids |
| Codec.SubjectRoundTrip | src/data.rs:190-222 | a packed subject decodes to itself whatever follows |
| Codec.MeetingRoundTrip | src/data.rs:224-253 | a packed meeting decodes to itself whatever follows |
| Codec.ScheduleRoundTrip | src/data.rs:255-284 | a packed schedule entry decodes to itself whatever follows |
| Codec.AssignedRoundTrip | src/data.rs:286-314 | a packed assignment decodes to itself whatever follows |
| Codec.ScheduleMissingField | src/data.rs:255-268 | with too few lines the error names the first missing field |
| Codec.ScheduleFirstBadFieldWins | src/data.rs:263 | a bad day is reported even when later fields are missing |
| Codec.SubjectMissingField | src/data.rs:190-204 | with too few lines the subject error names the first missing field |
| Codec.UnpackExamples | src/data.rs:343-397 | the source's unit-test records decode to the expected values |
| Codec.FieldIter.constructor | src/data.rs:192 | the iterator starts at the first line |
| Codec.FieldIter.Next | src/data.rs:193 | yields the next line and advances, or nothing at the end |
| Codec.FieldIter.Take | src/data.rs:193-196 | the next line, or the missing-value error naming the field |
| Codec.WarnOnExtra | src/data.rs:209-213 | warns iff the value after the fields is present and non-empty; the iterator advances past it |
| Codec.UnpackSubject | src/data.rs:190-222 | equals `DecodeSubject`; warns only on success with a non-empty extra value |
| Codec.UnpackMeeting | src/data.rs:224-253 | equals `DecodeMeeting`; warns only on success with a non-empty extra value |
| Codec.UnpackSchedule | src/data.rs:255-284 | equals `DecodeSchedule`; warns only on success with a non-empty extra value |
| Codec.UnpackAssigned | src/data.rs:286-314 | equals `DecodeAssigned`; warns only on success with a non-empty extra value |
| Codec.Chunks | src/data.rs:324 | the chunks flatten back to the lines, are non-empty and at most `size` long, and all but the last are full |
| Codec.ChunkCount | src/data.rs:324 | there are ceil(n / size) chunks |
| Codec.Successes | src/data.rs:324-334 | at most one record per chunk |
| Codec.Kept | src/data.rs:326-333 | a chunk contributes at most one record |
| Codec.Unpack | src/data.rs:316-337 | the records of the chunks that decode, in chunk order |
| Codec.SuccessesAppend | src/data.rs:324-334 | the kept records of two chunk runs are those of each, concatenated |
| Codec.ChunksAppend | src/data.rs:324 | lines that begin with whole chunks are chunked part by part |
| Codec.UnpackIsChunkwise | src/data.rs:324-334 | a failed chunk does not abort: whole leading chunks load independently of what follows |
| Codec.UnpackOneChunk | src/data.rs:325-333 | one chunk yields its record when it decodes and nothing otherwise |
| Codec.UnpackLengthBound | src/data.rs:316-337 | the output has at most ceil(n / (fields + 1)) records |
| Codec.ChunkThenRest | src/data.rs:324-334 | a whole leading chunk contributes its own record and the rest load unchanged |
| Codec.ThreeChunks | src/data.rs:324-334 | two full chunks and a last one load as their records, in chunk order |
| Codec.ScheduleExportLoads | src/data.rs:316-337 | the export layout loads back every entry in order, skipping a malformed record between them |
| Storage.SubjectRowOf | src/db.rs:14-32 | the stored row keeps id and title, stores a token that parses to the group, and `optional` as 1 or 0 |
| Storage.ScheduleRowOf | src/db.rs:34-56 | the stored codes are in range and the subject id is kept |
| Storage.SubjectOfRow | src/db.rs:72-85 | a row maps to a subject with its id and title, the group its token names, and `optional` iff the column is 1 |
| Storage.SubjectRowRoundTrip | src/db.rs:14-32 | a stored subject reads back as itself |
| Storage.EncodingAgrees | src/db.rs:66-70 | the SQL condition on stored codes holds iff day and slot match and the repeat covers the key's |
| Storage.RepeatWildcard | src/db.rs:70 | a `Both` entry matches odd and even weeks; an `Odd` entry does not match an even week, nor `Even` an odd one |
| Storage.FirstScheduledId | src/db.rs:70 | the scalar subquery is NULL iff no schedule row is selected |
| Storage.FirstScheduledIdIsFirst | src/db.rs:70 | the subquery's id is that of the first selected schedule row |
| Storage.SelectAsWritten | src/db.rs:70 | a row is returned as written iff it is stored, of the query group, and its id is the subquery's |
| Storage.AsWrittenKeepsOrder | src/db.rs:70-86 | as written, results also come in table order |
| Storage.SelectSubjects | src/db.rs:70 | a subject row is returned iff it is stored, of the query group, and named by some selected schedule row; every returned token parses to the query group |
| Storage.AsWrittenHasOneId | src/db.rs:70 | as written, all returned subjects share one id |
| Storage.NoMatchIsEmpty | src/db.rs:70-87 | no selected schedule row gives an empty result, not an error |
| Storage.AgreeOnOneId | src/db.rs:70 | when all selected schedule rows name one subject, the as-written and corrected lookups agree |
| Storage.SelectionKeepsOrder | src/db.rs:70-86 | results come in table order |
| Storage.StoredSubjectIsFound | src/db.rs:14-70 | a stored subject with a matching stored entry for its group is found |
| Storage.ScalarSubqueryDropsSubjects | src/db.rs:70 | two subjects in one period: as written only the first is returned |
| Storage.FirstGang | src/db.rs:106-111 | `fetch_one` finds no row iff the chat has none; otherwise a stored row of the chat |
| Storage.SetChatGang | src/db.rs:98-104 | the update rewrites exactly the chat's rows |
| Storage.SetChatGangLookup | src/db.rs:98-111 | after an update the chat reads the new group; other chats are unchanged |
| Storage.InsertLookup | src/db.rs:90-111 | after inserting for a chat with no row, the chat reads the new group; other chats are unchanged |
| Storage.GroupOf | src/db.rs:106-111 | `RowNotFound` iff the chat has no row; otherwise a group stored for the chat |
| Storage.WritesKeepGangsValid | src/db.rs:90-104 | both user writes keep every stored token parseable |
| Storage.Database.constructor | src/db.rs:10-12 | a database starts with empty, valid tables |
| Storage.Database.AddSubject | src/db.rs:14-32 | appends exactly the subject's row |
| Storage.Database.AddSchedule | src/db.rs:34-56 | appends exactly the entry's row |
| Storage.Database.AddUser | src/db.rs:90-96 | appends the chat's row and keeps the table valid |
| Storage.Database.UpdateUser | src/db.rs:98-104 | rewrites the chat's rows and keeps the table valid |
| Storage.Database.GetSubjects | src/db.rs:58-88 | one subject per returned row in row order, each of the query group; the unwrap cannot fail |
| Bot.Split | src/bot.rs:60 | one piece more than there are blanks, none containing a blank |
| Bot.SplitJoin | src/bot.rs:60 | joining the pieces with blanks gives the text back |
| Bot.JoinSplit | src/bot.rs:60 | blank-free pieces split back out of their join |
| Bot.ParseCommandSubject | src/bot.rs:59-68 | an error iff there are two or more blanks, with the fixed message; a success always carries a slot or a date |
| Bot.ParsedArgsRebuildText | src/bot.rs:59-68 | parsed arguments rebuild the text and are never an explicit `_` slot with a date |
| Bot.ArgsRoundTrip | src/bot.rs:59-68 | every expressible argument pair parses back from its text |
| Bot.EmptyArgumentsAreOneToken | src/bot.rs:60-63 | the empty text gives an empty slot token; the no-argument arm is never reached |
| Bot.TwoPieceExamples | src/bot.rs:64-65 | for a blank-free date text `d`, `_ d` is a date only and `3 d` is slot `3` and the date |
| Bot.BareSubjectIsInvalidSlot | src/bot.rs:59-63 | a bare `/subject` always resolves to `InvalidSlot` with the empty token |
| Bot.ParseCommandSubjectIntended | src/bot.rs:59-68 | an error iff two or more blanks, with the fixed message; no slot and no date iff the text is empty |
| Bot.IntendedArgsRoundTrip | src/bot.rs:59-68 | under the intended parse, the empty pair and every pair with a non-empty text parse back from their text |
| Bot.BareSubjectUsesMessageTime | src/bot.rs:62 | under the intended parse, a bare `/subject` on a weekday takes slot, day and parity from the message's Kyiv time |
| Bot.DoubledBlankRejected | src/bot.rs:66 | a doubled blank or a third piece is rejected |
| Bot.ResolveKey | src/bot.rs:141-183 | a resolved key never has parity `Both`; an error always names the message's chat |
| Bot.SlotPrecedence | src/bot.rs:144-149 | a slot token overrides the message time's slot, also when a date is given; the group is the chat's |
| Bot.DateAnchoring | src/bot.rs:151-174 | with a date, day and parity are the date's; without, the message's in Kyiv |
| Bot.SummerTimeIrrelevant | src/bot.rs:151-174 | with a date, the summer-time offset cannot change the outcome |
| Bot.ErrorOrder | src/bot.rs:144-183 | invalid slot first, then invalid date, then weekend, then no group or storage failure, each exactly when earlier steps passed |
| Bot.WeekendDateRejected | src/bot.rs:165-172 | a Saturday date is rejected as `Sat`, before any group lookup |
| Bot.WeekdayMessageNamesUtcDay | src/bot.rs:165-172 | a message that is Saturday in Kyiv but Friday in UTC is rejected naming `Fri` |
| Bot.SubjectLine | src/display.rs:23-30 | a subject line is the slot emoji, a blank and the title; it has no newline when the title has none |
| Bot.ListingHasOneLinePerSubject | src/bot.rs:200-204 | with newline-free titles, the listing has one line per subject |
| Bot.ListingSnoc | src/bot.rs:200-204 | one more subject appends its line after the others, so the listing keeps the subjects' order |
| Bot.BuildListing | src/bot.rs:200-204 | the appended message is the listing |
| Bot.FoundSubjects | src/db.rs:71-86 | one mapped subject per selected row, in order |
| Bot.SubjectReply | src/bot.rs:195-210 | the fixed notice exactly when no subject is scheduled for the key; otherwise the Markdown listing |
| Bot.HandleSubject | src/bot.rs:141-211 | the handler's result is the outcome of the resolution chain, the lookup and the reply |
| Bot.ConfigureThenLookup | src/bot.rs:111-139 | after `/config`, the chat's group is the configured one and no other chat's changes |
| Bot.Configure | src/bot.rs:111-139 | bad token is `InvalidGroup`; a failed query is `Unexpected`; otherwise update or insert, and the tables change only on success |

## Left out

- File reading and `.lines()` in `unpack` are not modelled; the driver starts from a sequence of lines.
- Logging is not modelled. The extra-value warning is the boolean `warned`; the per-chunk error log is dropped.
- The Kyiv time-zone conversion is a library call. An `Instant` carries its Kyiv date and time and its UTC weekday, and the summer-time rule is a parameter (`summer`).
- `NaiveDate::parse_from_str` with `%d.%m.%Y` is a library call; it is the `parseDate` parameter.
- The SQL engine, the connection pool, `async` and the lazily created global database are not modelled. A query failure other than "no row" is a `Query` in the `faults` set.
- Storage.Database.AddSubject: never fails; the database schema (keys, uniqueness) is not part of this model, so constraint errors are not represented.
- Storage.Database.AddSchedule: never fails, for the same reason.
- Storage.Database.GetSubjects: uses the corrected selection (`Storage.SelectSubjects`), not the scalar subquery; see "Findings".
- Storage.GroupOf: requires every stored token to parse, where the source unwraps and would panic; the model proves that its own writers keep this.
- Codec.ParseI64: the contract states the accepted shape and range, not the value; the value is pinned by `Codec.ParseShowI64`.
- Record ids are unbounded integers; only the text parser enforces the i64 range.
- Bot.HandleSubject: takes the arguments already parsed; which of `Bot.ParseCommandSubject` (as written) and `Bot.ParseCommandSubjectIntended` produces them is up to the caller (see "Findings").
- teloxide dispatch, `run`, command registration, sending messages and the error handler's message texts are transport and are not modelled.
- Bot.SubjectLine: the emoji is the keycap digit the `emojis` crate returns for `one` … `four`. Markdown escaping, and Telegram rejecting unescaped titles, are not modelled.
- Meetings are never attached to a listed subject (the source always passes an empty list), so their rendering is not modelled.
- The gap between `get_group` and `add_user`/`update_user` in `/config` is a race under concurrent messages; concurrency is not modelled.
- `src/bin/setup.rs`, `src/config.rs` and `src/main.rs` (process start-up and bulk import) are not part of this model.

## Findings

| source | as written | input that shows it | evidently intended | confidence | as-written member | corrected member |
|---|---|---|---|---|---|---|
| src/db.rs:70 | `WHERE id = (SELECT subject_id FROM schedule WHERE …)`: a scalar subquery, which SQLite answers with the first selected schedule row only | key Mon / Odd / I / K-25; schedule rows (Mon, Both, I, subject 1) and (Mon, Odd, I, subject 2); both subjects in K-25: only subject 1 is returned | `id IN (SELECT …)`: every subject named by a matching schedule row, so that all classes of the period are listed | not executed | Storage.SelectAsWritten (shown by Storage.ScalarSubqueryDropsSubjects) | Storage.SelectSubjects (Storage.StoredSubjectIsFound, Storage.AgreeOnOneId) |
| src/bot.rs:60-63 | `s.split(" ")` never yields zero pieces, so a bare `/subject` (empty argument text) becomes the slot token `""` and the `[]` arm is unreachable | the command `/subject` with no arguments: `Slot::try_from("")` fails and the reply is `InvalidSlot` with an empty value | no arguments means no slot and no date, so slot, day and parity come from the message's time, as the `[] => Ok((None, None))` arm states | medium, not executed | Bot.ParseCommandSubject (shown by Bot.BareSubjectIsInvalidSlot) | Bot.ParseCommandSubjectIntended (Bot.IntendedArgsRoundTrip, Bot.BareSubjectUsesMessageTime) |
