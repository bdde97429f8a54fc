# Laundry room bot — a Dafny model of its machine table and decision logic

The laundry bot is a Telegram bot for a shared laundry room with four washing
machines (WM1–WM4) and three dryers (D1–D3). A resident reserves a free
machine for a preset or custom number of minutes and receives a six-character
collection code. A job is scheduled to notify them when the time runs out. The
machine is released when someone types its code back. Every registered user
hears when a machine finishes or becomes free.

This project models that core in Dafny and proves properties of it:

* `options.dfy` — `Options.Option`, standing for Python's `None` / an empty CSV cell.
* `text.dfy` — module `Text`: the Python string built-ins the bot relies on
  (`strip`, `upper`, `split`, `startswith`, `int(text)`, `str(n)`), over `seq<char>`.
* `sequences.dfy` — module `Sequences`: order-preserving `Filter`, the shape of
  every "loop over rows, keep the matching ones" in the source.
* `data_manager.dfy` — module `DataManager`: the machine table and the user
  table. `Store` is a class holding both tables as sequences, and its methods
  are the operations that rewrite them (`init_csv_files`, `add_user`,
  `use_machine`, `collect_machine`). The queries are pure functions: lookup by
  id, subscribed users, per-machine status classification, finished machines.
  `GenerateCode` is a loop that makes a nondeterministic choice.
* `bot.dfy` — module `Bot`: callback-string parsing and the buttons that
  produce those strings, the 1..300 custom-duration check, the
  `waiting_custom_time` mode, the first-match scan for a typed code, the
  scheduled job and the guard that runs when it fires. `Bot` is a class holding
  the store, the per-user mode map, the jobs handed to the job queue and the
  messages sent (an outbox of `Notice`s).

Time is integer seconds, and the current time is a parameter. A row's
`end_time` is `NoEnd` (empty cell), `At(seconds)`, or `Unparsable` (text that
is not an ISO 8601 instant). In the last case the status shows plain "In Use"
and `check_finished_machines` skips the row. User ids are integers. The CSV
files store them as `str(id)`, so the source's text comparisons are integer
comparisons here.

Two behaviours of the code are modelled as written, and lemmas exhibit them:

* `use_machine` does not check that the machine is free. Reserving an in-use
  machine hands it to the new user, and the old code stops working
  (`DataManager.ReserveOverwritesHolder`).
* No scheduled job is ever cancelled. The guard in `send_machine_notification`
  checks only that the machine is in use by the job's user. So if that user
  collects early and reserves the same machine again, the first job still fires
  at the first expiry (`Bot.StaleJobFiresForSameUser`).

The source comments that the expiry broadcast goes to "all other users", but
the code sends it to every subscribed user, including the holder. The model
follows the code (`Bot.BroadcastReachesRegistered`).

## Model

| member | source | states |
|---|---|---|
| DataManager.SeedContents | data_manager.py:23-31 | the seeded table is WM1..WM4 (washing machines) then D1..D3 (dryers), each row free with empty holder, code and end time |
| DataManager.SeedValid | data_manager.py:26-31 | the seeded table is consistent and its machine ids are pairwise distinct |
| DataManager.Store.constructor | data_manager.py:16-37 | an existing table file is kept unchanged; a missing machine table is seeded by the two creation loops, a missing user table starts empty |
| DataManager.GenerateCode | data_manager.py:39-41 | the code has the requested length (6 by default) and every character is in A–Z or 0–9 |
| DataManager.CodeCharIsPlain | data_manager.py:41 | a code character is an upper-case letter or digit, so `upper()` and `strip()` leave it unchanged |
| DataManager.DisplayName | data_manager.py:55 | `username or 'Unknown'`: never empty, a non-empty username is kept, and an empty one becomes `'Unknown'` |
| DataManager.AddUserRows | data_manager.py:45-55 | a registered id leaves the user table unchanged; otherwise exactly one row `(id, username or 'Unknown', subscribed)` is appended after the old rows; afterwards the id is registered |
| DataManager.Store.AddUser | data_manager.py:43-55 | the user table becomes `AddUserRows` of the old one (append a subscribed row unless a subscribed row has the id); machines unchanged |
| DataManager.AddUserIdempotent | data_manager.py:43-55 | registering twice equals registering once; afterwards the id has exactly one subscribed row if it had none before, otherwise its count is unchanged; other ids' counts are unchanged |
| DataManager.RegisteredIffCounted | data_manager.py:48-50 | the existence check of `add_user` holds exactly when the id has at least one subscribed row |
| DataManager.GetAllUsers | data_manager.py:57-65 | a row is returned exactly when it is in the table and subscribed |
| Sequences.Filter | data_manager.py:62-64 | the kept rows are at most the input rows, each comes from the input and satisfies the test, and every input row that satisfies it is kept |
| Sequences.FilterAppend | data_manager.py:62-64 | filtering a concatenation filters each part and keeps them in order |
| DataManager.IndexOfId | data_manager.py:79-82 | the returned position holds the id and no earlier row does; `None` means no row has the id |
| DataManager.GetMachineById | data_manager.py:76-82 | `None` exactly when no row has the id; otherwise the first row of the table with that id |
| DataManager.IndexOfIdLayout | data_manager.py:79-82 | tables with the same ids in the same places find an id at the same position |
| DataManager.UseRows | data_manager.py:95-115 | same row count, ids and types; rows with other ids unchanged; each row with the id is in use, held by the user under `username or 'Unknown'`, with the given code and end time |
| DataManager.Store.UseMachine | data_manager.py:84-117 | the returned code is a valid code, and the machine table becomes `UseRows` of the old one with end time `now + 60 * duration`; users unchanged |
| DataManager.UseUnknownIdKeepsTable | data_manager.py:95-115 | an id that no row has leaves the table exactly as it was |
| DataManager.UsePreservesValid | data_manager.py:95-115 | reserving with a generated code keeps every row consistent and the ids distinct |
| DataManager.ReserveOverwritesHolder | data_manager.py:95-105 | reserving an in-use machine overwrites its holder, and the previous holder's code is then refused as wrong |
| DataManager.FreeRows | data_manager.py:141-161 | same row count, ids and types; rows with other ids unchanged; each row with the id becomes free with empty holder, code and end time |
| DataManager.CollectCheck | data_manager.py:124-133 | not found exactly when no row has the id; otherwise, judged on the first row with the id: not in use exactly when its status is not `in_use`, collected exactly when it is in use and its code matches |
| DataManager.CollectMessagesDistinct | data_manager.py:124-163 | the four outcomes of `collect_machine` return four different messages |
| DataManager.Store.CollectMachine | data_manager.py:119-163 | success exactly when the id exists, is in use and the code matches case-sensitively, with the source's message for each outcome; the table is rewritten by `FreeRows` on success and untouched otherwise |
| DataManager.FreePreservesValid | data_manager.py:141-161 | collecting keeps every row consistent and the ids distinct |
| DataManager.CollectSucceedsIff | data_manager.py:124-133 | with distinct ids, collection succeeds exactly when some row has the id, is in use and holds the code |
| DataManager.ReserveThenCollect | data_manager.py:84-163 | after reserving an existing machine, collecting it with the returned code succeeds, and the layout is kept |
| DataManager.ReserveThenCollectRestores | data_manager.py:84-163 | reserving a free machine and collecting it with the returned code gives back the original table |
| DataManager.Classify | data_manager.py:178-191 | shown free exactly when not in use with an end time; in use exactly when time remains, showing the floor of the remaining minutes; plain "In Use" exactly for an unparsable end time; finished exactly when `check_finished_machines` counts the row |
| DataManager.OfKind | data_manager.py:173-174 | a row is kept exactly when it is in the table and of the kind |
| DataManager.StatusSection | data_manager.py:171-193 | one line per machine of the kind, in table order, each with the machine's id and classification |
| DataManager.StatusReportCoversTable | data_manager.py:165-219 | the washer rows and the dryer rows together are the table's rows as a multiset, so every machine is listed exactly once, and the two sections' lengths add up to the table's |
| DataManager.CheckFinished | data_manager.py:221-236 | a row is returned exactly when it is in the table, in use, with a parsed end time that `now` has reached |
| DataManager.CheckFinishedInOrder | data_manager.py:227-236 | the finished rows keep table order |
| DataManager.FinishedAgreesWithStatus | data_manager.py:227-234 | a row is returned by `check_finished_machines` exactly when the status message shows it finished |
| Text.TrimStartMeaning | bot.py:252 | left-stripping removes exactly a whitespace prefix and leaves text that does not start with whitespace |
| Text.TrimEndMeaning | bot.py:252 | right-stripping removes exactly a whitespace suffix and leaves text that does not end with whitespace |
| Text.StripMeaning | bot.py:252 | `strip()` yields a slice cut only at whitespace that neither starts nor ends with whitespace |
| Text.StripUnchanged | bot.py:252 | text that neither starts nor ends with whitespace is its own strip |
| Text.StripIdempotent | bot.py:252 | stripping twice gives the same text as stripping once |
| Text.Upper | bot.py:309 | `upper()` keeps the length and upper-cases each ASCII letter in place |
| Text.UpperChar | bot.py:309 | a lower-case ASCII letter is shifted to upper case; every other character is kept |
| Text.Split | bot.py:74 | `split('_')` yields at least one part, two or more when the separator occurs, the whole text when it does not, and no part contains the separator |
| Text.SplitAfterHead | bot.py:74-75 | splitting `a + '_' + b` with no `_` in `a` gives `a` followed by the parts of `b` |
| Text.DecimalText | bot.py:181 | `str(n)` is non-empty and made of digits |
| Text.DecimalTextValue | bot.py:181 | the digits of `str(n)` have the value `n` |
| Text.ParseIntAccepts | bot.py:261 | `int()` succeeds exactly on stripped text that is a digit run, optionally after one `+` or `-`; a negative result needs a leading `-` |
| Text.ParseDigits | bot.py:261 | `int()` on a run of digits gives its value |
| Text.ParseNegativeDigits | bot.py:261 | `int()` on a minus sign followed by digits gives the negated value |
| Text.ParseDecimalText | bot.py:76 | `int(str(n)) == n` |
| Bot.TimeOptions | bot.py:172-177 | three presets per machine type, each within the 1..300 custom bound |
| Bot.ParseCallback | bot.py:53-91 | each of the seven exact names (`status`, `use_machine`, `washing_machines`, `dryers`, `collect`, `back_to_main`, `back_to_machines`) parses to its own callback and nothing else does; a machine, duration or custom-time callback needs its prefix, and its machine id contains no underscore |
| Bot.ParsePrefixed | bot.py:67-91 | a machine pick exactly for the `machine_` prefix, a duration pick or crash exactly for `time_`, a custom-time request exactly for `custom_`; `collect`, `back_to_main` and `back_to_machines` exactly for those names; never one of the four names checked before the prefixes |
| Bot.ParseTimeParts | bot.py:74-76 | crashes exactly when the duration part is missing or `int()` refuses it; otherwise picks machine `parts[1]` with the parsed duration |
| Bot.MachineButtonParses | bot.py:67-70 | `machine_X` parses back to machine X when X has no underscore |
| Bot.TimeButtonParses | bot.py:72-77 | `time_X_N` parses back to machine X and duration N |
| Bot.CustomButtonParses | bot.py:79-82 | `custom_X` parses back to machine X |
| Bot.TimeMenuParses | bot.py:179-184 | every button of the duration menu reserves its machine for a duration within 1..300 or asks for a custom one |
| Bot.SeedIdsRoundTrip | bot.py:69 | no seeded id contains an underscore, so every seeded machine survives the `split("_")` |
| Bot.IndexOfCode | bot.py:316-319 | the position returned is the first in-use row holding the code; `None` means no in-use row holds it |
| Bot.FindMachineWithCode | bot.py:313-319 | the `for`/`break` scan returns exactly the first in-use row holding the code |
| Bot.DecideText | bot.py:250-330 | a pending custom-time request makes the text a duration and never a code; a reservation needs a parsed duration within 1..300; otherwise the upper-cased, stripped text selects the first in-use row holding it, or nothing |
| Bot.CodeSurvivesNormalisation | bot.py:309 | a generated code typed back unchanged still matches after `strip()` and `upper()` |
| Bot.DecideParsedDuration | bot.py:260-269 | in the custom-time branch, the decision depends only on the parsed number: reserve within 1..300, refuse otherwise |
| Bot.DurationBoundary | bot.py:262 | "0" and "301" are refused; "1" and "300" reserve the pending machine |
| Bot.DurationFormat | bot.py:260-306 | "-5" parses and is refused as out of range, while "ten" is refused as a format error |
| Bot.FoundCodeCollects | bot.py:332-333 | with distinct ids, a machine found by the scan is always collected successfully |
| Bot.ShouldNotify | bot.py:377-378 | the guard holds exactly when the first row with the job's machine id is in use and held by the job's user |
| Bot.NotifyAfterReserve | bot.py:376-378 | right after a reservation, its job passes the guard exactly when the machine exists |
| Bot.JobFiresWhenFinished | bot.py:229-235 | when the job fires, `60 * duration` seconds later, the reserved machine is shown finished and listed by `check_finished_machines` |
| Bot.NoNotifyAfterCollect | bot.py:376-378 | after the machine is collected, the guard refuses the job |
| Bot.NoNotifyForNewHolder | bot.py:376-378 | once another user has reserved the machine, the guard refuses the earlier holder's job |
| Bot.StaleJobFiresForSameUser | bot.py:376-378 | a job outlives collection: after the same user collects and reserves again, the first job still passes the guard |
| Bot.Recipients | bot.py:399-404 | one recipient per subscribed user row, each the id of a subscribed row of the table |
| Bot.BroadcastReachesRegistered | bot.py:397-408 | a broadcast reaches a user exactly when the user has a subscribed row, holder and collector included |
| Bot.Bot.Start | bot.py:27-32 | `/start` registers the user as `add_user` does; machines unchanged |
| Bot.Bot.StartMachine | bot.py:209-235 | reserves the machine with a valid code, replies with it, and schedules exactly one job with delay `60 * duration` for that machine and user |
| Bot.Bot.ButtonHandler | bot.py:48-91 | a `time_` button reserves and schedules; a `custom_` button sets the user's pending machine; `status` replies with the report; a `machine_` button offers that machine's presets (nothing for an unknown id); every other callback, including a malformed `time_` one, changes nothing |
| Bot.Bot.HandleCodeMessage | bot.py:250-353 | format and range errors reply and keep the pending mode; a valid duration clears the mode, then reserves and schedules; an unknown code replies without table change; a found code runs `collect_machine`, and only a success frees the row and broadcasts "now free" |
| Bot.Bot.SendMachineNotification | bot.py:370-395 | if the machine exists, is in use and is held by the job's user, the holder gets their code and every subscribed user gets a broadcast; otherwise nothing is sent |
| Bot.ReserveCollectOnSeed | bot.py:309-348 | on the seeded table, WM1 reserved for 50 minutes shows 50 minutes left, and its code typed back collects it and restores the seed |

## Left out

- Telegram transport: inline keyboards, menu texts, Markdown, `query.answer()`, polling and `main` are not modelled. Messages are `Notice` values appended to an outbox.
- Bot.Bot.ButtonHandler: the callbacks that only show a menu (`use_machine`, `washing_machines`, `dryers`, `collect`, `back_to_main`, `back_to_machines`) are modelled as sending nothing. The free-machine lists of `show_washing_machines` and `show_dryers` (a `machine_` button per free machine, `noop` per busy one) are not modelled. A `time_` callback whose duration takes the end time outside datetime's years 1..9999 (for example `time_WM1_5000000000`) makes `use_machine` raise `OverflowError` in the source, so nothing changes; the model reserves, replies and schedules a job instead.
- Bot.Bot.StartMachine: datetime's year range is not modelled. For a duration whose end time falls outside years 1..9999, the source's `use_machine` raises `OverflowError` before writing any row, and `start_machine` sends no reply and schedules no job; the model reserves, replies and schedules.
- Bot.ParseCallback: an exception raised inside the handler (a `time_` callback with no duration part, or a duration that `int()` refuses) is the `Crash` value, with no effect on the state.
- CSV files: the tables are in-memory sequences. File format, header rows, and the read-all/rewrite-all race between concurrent handlers are left out.
- DataManager.Store.UseMachine: datetime's year range is not modelled; the end time `now + 60 * duration` is an unbounded integer. For a duration whose end time falls outside years 1..9999 (about 4.19e9 minutes or more, or about -1.07e9 or less, at present), `datetime.now() + timedelta(minutes=...)` raises `OverflowError` in the source, and `use_machine` changes nothing; the model reserves the machine. Only the `time_` callback path can reach this, since the custom-duration path is bounded to 1..300.
- Dates: `datetime.now`, `isoformat` and `fromisoformat` are replaced by integer seconds and the `EndTime` cases. The model uses one `now` for the end time and for scheduling; the source reads the clock twice.
- DataManager.Classify: `int(total_seconds() / 60)` on a float is modelled as integer floor division of the remaining seconds. They agree because the remaining time is positive there, but float rounding is not modelled.
- DataManager.GenerateCode: `random.choices` is a nondeterministic choice from the alphabet; the distribution and any uniqueness across machines are not modelled.
- Job queue: only the job's delay and data are modelled. The job name, the timing, and the chance that a job fires at all are left out. `SendMachineNotification` is the callback applied to a given job.
- Delivery failures in `send_machine_notification` and `notify_all_users` are I/O and are left out. Every recipient is listed in the broadcast.
- DataManager.StatusReportCoversTable: `status` and `machine_type` are two-valued enums here, so a table cell holding any other text cannot be represented. In the source, a row of another type is listed in neither status section (data_manager.py:174,198), and `show_time_options` treats it as a dryer (bot.py:172-176). The lemma holds only because `MachineType` has two values. A status other than `in_use` behaves as free in every check the core makes, which is what `Free` gives.
- Text.Strip: `strip()` is modelled for ASCII and Latin-1 whitespace only. Python also strips other Unicode whitespace such as U+3000, so a code typed with such a character around it finds its machine in the source but gives `NoSuchCode` here.
- Text.ParseInt: `int()` is modelled for ASCII digits with optional sign and single underscores between digits. Non-ASCII digits and whitespace beyond Latin-1 are not modelled.
- Text.Upper: `upper()` is modelled on ASCII letters only. Non-ASCII case mappings are not modelled, for example `'ß'.upper() == 'SS'`.
- Text.Split: only the one-character separator `_` that the bot uses is modelled. A machine id containing `_` would be cut at it; seeded ids contain none.
- A Telegram username of `None` is modelled as the empty string. Both are falsy and both become `'Unknown'`.
- `start_collect` and `back_to_main` only send menus and are not modelled. The unused `WAITING_FOR_CODE` conversation state is not modelled either.
