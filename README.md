# Persian voice assistant: the command pipeline

A model of the command pipeline of `persian_assistant_complete.py`. It covers the
`CommandProcessor` class and the small pieces of `PersianVoiceAssistant` state
logic that use it.

The pipeline works in four steps:

1. Lower-case and strip the recognised text.
2. Classify it against a fixed, ordered catalog of `re.search` patterns, one
   list per intent kind. The result is the kind and the captured groups.
3. Run that kind's handler. A handler can read the contacts table, write a
   note or a reminder, or only compute a reply from constant tables.
4. Turn any exception into a failure record, then report the kind and success
   to the `on_command_executed` hook, which appends a `command_logs` row.

Around the pipeline, the assistant does four more things:

- It rejects input shorter than two characters after stripping.
- It speaks the result's response or error, unless muted.
- It counts successful commands.
- Periodically, it announces and completes the reminders that are due.

Modules, one per file:

- `Strings` (`strings.dfy`): `lower()`, `strip()`, containment, digit strings
  and `int()`/`str()` of naturals.
- `Clock` (`clock.dfy`): an abstract local time stamp with `replace`,
  `timedelta` and `<=`.
- `Regex` (`regex.dfy`): the slice of `re.search` the catalog needs. It is a
  backtracking matcher over patterns made of literal text, `(.+)` and `(\d+)`,
  proved against a declarative description of a match. The proof covers the
  leftmost start, the greediest reading and one group per capture.
- `Intents` (`intents.dfy`): the catalog and `identify_command` as a
  first-match function.
- `Database` (`store.dfy`): the tables as a `Store` class holding sequences,
  plus the bookkeeping of `check_reminders`.
- `Handlers` (`handlers.dfy`): the constant tables, each `execute_*` as a value
  (its record and the row it writes, or the exception it raises), and
  `execute_command`'s dispatch and `except`.
- `Pipeline` (`pipeline.dfy`): `process` as a value, and the end-to-end
  properties, which combine the catalog's group counts with the handlers.
- `Processor` (`processor.dfy`): the `CommandProcessor` class with its loops
  (`identify_command`, the mapping scan of `execute_app`, the time-pattern
  scan of `execute_reminder`) and its writes. Each is proved against the
  functions above.
- `Assistant` (`assistant.dfy`): the `PersianVoiceAssistant` state, which is
  the mute flag, the command counter, what has been spoken, and the shared
  store.

The clock and the random choice are inputs:

- `datetime.now()` is a `Moment` parameter named `now`.
- `random.choice` is an index `pick < 4` into the four-element list.
- What the assistant says is a sequence `spoken` of the texts handed to the
  speech engine.

Behaviour of the code that is easy to miss:

- The reminder handler reads its hour off the normalised (lower-cased,
  stripped) text that `process` passes on, not off the text as recognised.
- The reminder handler can fail. An hour of 24 or more makes
  `datetime.replace` raise before the insert. `execute_command` turns the
  exception into a failure, and no reminder is stored.
- Captured groups are substrings of the lower-cased text, because matching
  runs on the normalised text.
- `.` in `(.+)` matches any character but a newline, as Python's does.

## Model

| member | source | states |
|---|---|---|
| Strings.LowerSpec | persian_assistant_complete.py:608 | `lower()` keeps the length, leaves no upper-case letter, keeps every other character, and is idempotent |
| Strings.Strip | persian_assistant_complete.py:608 | `strip()` returns a slice of its input with only whitespace on either side, neither starting nor ending with whitespace |
| Strings.StripOfStripped | persian_assistant_complete.py:608 | stripping text that neither starts nor ends with whitespace returns it unchanged |
| Strings.ParseNatZero | persian_assistant_complete.py:820-829 | `int()` of a digit string is 0 exactly when every digit is zero, so `if hour:` rejects only such strings |
| Strings.NatToString | persian_assistant_complete.py:839 | the decimal rendering of the hour in the response is a non-empty string of ASCII digits with a leading zero only for 0 |
| Strings.ParseNatToString | persian_assistant_complete.py:839 | reading back the rendered hour gives the hour |
| Clock.AtHour | persian_assistant_complete.py:831 | `replace(hour=h, minute=0, second=0)` keeps the day and yields a valid time at h:00:00 |
| Clock.NextDay | persian_assistant_complete.py:832-833 | `+ timedelta(days=1)` keeps the time of day and moves exactly one day of seconds later |
| Clock.AddMinutes | persian_assistant_complete.py:844 | `+ timedelta(minutes=n)` yields a valid moment exactly 60·n seconds later |
| Clock.AddMinutesIsLater | persian_assistant_complete.py:842-846 | a reminder set minutes ahead is strictly later than now and is not due at now |
| Regex.MatchSound | persian_assistant_complete.py:672 | whatever the backtracking matcher returns at a position is a reading of the pattern there, with one string per group |
| Regex.MatchComplete | persian_assistant_complete.py:672 | if the pattern can be read at a position, the matcher succeeds there with a reading at least as greedy as any other |
| Regex.SearchFromSpec | persian_assistant_complete.py:672 | scanning from a position finds the first start at which a reading exists, or reports that none exists |
| Regex.SearchSpec | persian_assistant_complete.py:670-674 | `re.search` succeeds exactly when the pattern occurs; it reports the leftmost start, the greediest reading there, and exactly one string per group |
| Intents.FirstHitSpec | persian_assistant_complete.py:671-674 | the inner loop returns the groups of the first pattern of a kind that is found, and none only if no pattern is found |
| Intents.ClassifyInSpec | persian_assistant_complete.py:670-676 | the nested loop returns the kind and groups of the first pattern in catalog order that is found, or `('unknown', ())` when none is |
| Intents.CatalogKinds | persian_assistant_complete.py:624-668 | the catalog tries call, app, music, reminder, weather, navigation, note and control, in that order |
| Intents.CatalogGroups | persian_assistant_complete.py:624-668 | the number of capture groups of every catalog pattern |
| Intents.ClassifySpec | persian_assistant_complete.py:622-676 | `identify_command` returns unknown exactly when no pattern is found, and then no groups; otherwise the first pattern found decides the kind, and the tuple has one string per group of that pattern |
| Intents.ClassifyGroupShape | persian_assistant_complete.py:624-668 | weather, control and unknown carry no groups; call, app, navigation and note exactly one; music at most one; a reminder one or two, and when two the first is a digit string |
| Intents.HourGroupDigits | persian_assistant_complete.py:645 | the first group of `ساعت (\d+) (.+)` is a non-empty digit string |
| Database.SettleSpec | persian_assistant_complete.py:295-324 | the check keeps every row's title and time, completes exactly the rows that were completed or due, leaves no row due, and repeating it changes nothing |
| Database.AnnouncementsSpec | persian_assistant_complete.py:302-316 | at most one announcement per row, and none exactly when no row is due |
| Database.SecondCheckIsSilent | persian_assistant_complete.py:295-324 | a second check at the same time announces nothing |
| Database.SettleStep | persian_assistant_complete.py:308-321 | handling one fetched row extends the settled prefix and its announcements by that row |
| Database.Store.constructor | persian_assistant_complete.py:90-161 | a fresh database has empty tables |
| Database.Store.InsertContacts | persian_assistant_complete.py:177-180 | the contact rows are appended and no other table changes |
| Database.Store.InsertNote | persian_assistant_complete.py:903-906 | one note row is appended and no other table changes |
| Database.Store.InsertReminder | persian_assistant_complete.py:834-846 | one uncompleted reminder row is appended and no other table changes |
| Database.Store.InsertLog | persian_assistant_complete.py:402-412 | `on_command_executed` appends exactly one `command_logs` row with the kind and the success flag, and no other table changes |
| Database.Store.MarkCompleted | persian_assistant_complete.py:318-321 | only the given reminder becomes completed |
| Handlers.LookupSpec | persian_assistant_complete.py:886 | a dictionary lookup finds nothing exactly when no entry has the key, and otherwise returns that entry's value |
| Handlers.FirstContactSpec | persian_assistant_complete.py:714-720 | `LIKE '%name%'` with `fetchone` yields nothing exactly when no contact name contains the name, and otherwise the first such row in row order |
| Handlers.CallSpec | persian_assistant_complete.py:707-738 | with no name the call fails with `نام مخاطب را مشخص کنید`; otherwise it succeeds iff some contact name contains the name, returns the phone of the first such contact and names the contact in the response, and otherwise fails with `مخاطب <name> پیدا نشد` |
| Handlers.FirstApp | persian_assistant_complete.py:760-763 | the found index is inside the mapping |
| Handlers.FirstAppSpec | persian_assistant_complete.py:760-763 | the scan finds the first entry in declaration order whose key contains, or is contained in, the name, and nothing only if no entry qualifies |
| Handlers.AppSpec | persian_assistant_complete.py:740-776 | with no name the app command fails with `نام برنامه را مشخص کنید`; otherwise it succeeds iff some entry qualifies, with the package of the first one, and otherwise fails with `برنامه <name> پیدا نشد` |
| Handlers.MusicLibrarySongs | persian_assistant_complete.py:783-787 | every artist in the library has at least one song, so `songs[0]` never raises |
| Handlers.MusicSpec | persian_assistant_complete.py:778-805 | music always succeeds with its fixed response and a non-empty song: the artist's first song for a listed artist, otherwise the first artist's first song |
| Handlers.ReadsDigitGroups | persian_assistant_complete.py:810-814 | every group of a pattern whose groups are all `(\d+)` is a digit string |
| Handlers.TimeGroupDigits | persian_assistant_complete.py:816-821 | a time pattern that is found captures exactly one digit string, and the hour is its value |
| Handlers.TomorrowPatternShadowed | persian_assistant_complete.py:810-821 | wherever `فردا ساعت (\d+)` is found, `ساعت (\d+)` is found too and is tried first, so the third pattern never decides |
| Handlers.ReminderSpec | persian_assistant_complete.py:807-854 | the hour comes from the first time pattern found; a hour of 24 or more raises before the insert; a non-zero hour schedules today, or tomorrow when `فردا` appears, at that hour with minute and second zero, with the response naming the hour; no hour or hour 0 schedules now plus five minutes with `یادآوری ثبت شد`; otherwise exactly one reminder titled by the first parameter is written |
| Handlers.MinutesReadAsHour | persian_assistant_complete.py:810-831 | when `(\d+) دقیقه دیگه` decides, its count of minutes from 1 to 23 schedules that hour of the day |
| Handlers.NavigationSpec | persian_assistant_complete.py:874-893 | navigation always succeeds; the destination is the first parameter or `مقصد`; the time is the table's entry for exactly that destination, or `۳۰ دقیقه` when there is none; the response names both |
| Handlers.ControlSpec | persian_assistant_complete.py:916-936 | control always succeeds; a parameter containing `ساکت` or `سکوت` mutes with `ساکت شدم`; otherwise one containing `خاموش` or `خواب` shuts down with `خاموش شدم. برای فعال شدن دوباره برنامه را باز کنید`; any other parameter, or none, gets `دستور کنترل اجرا شد` with no action |
| Pipeline.NormalizeIdempotent | persian_assistant_complete.py:606-614 | normalising the text handlers receive again changes nothing |
| Pipeline.DispatchSpec | persian_assistant_complete.py:678-705 | for every kind: the record carries the key its caller reads; only note and reminder write; music, weather, navigation and control succeed without writing; weather replies with the chosen condition; unknown fails with `فرمان نامشخص` and one of the four replies; a note with text stores it; a reminder succeeds exactly when it writes, titled by the first parameter or `یادآوری` |
| Pipeline.DispatchCall | persian_assistant_complete.py:707-738 | a dispatched call yields a well-formed record and writes nothing |
| Pipeline.DispatchApp | persian_assistant_complete.py:740-776 | a dispatched app command yields a well-formed record and writes nothing |
| Pipeline.DispatchReminder | persian_assistant_complete.py:807-854 | a dispatched reminder succeeds exactly when it writes its row, titled by the first parameter or `یادآوری` |
| Pipeline.ReminderShape | persian_assistant_complete.py:807-854 | when the reminder handler returns, it has succeeded with a response and writes one reminder titled by the first parameter or the default |
| Pipeline.FaultBecomesFailure | persian_assistant_complete.py:700-705 | an exception in a handler becomes a failure whose error starts with `خطا در اجرا: ` and nothing is written; in the model, only the reminder handler raises |
| Pipeline.ControlNeverActs | persian_assistant_complete.py:662-667 | through `process`, a control command always gets `دستور کنترل اجرا شد` with no action, and writes nothing |
| Pipeline.NamesAlwaysCaptured | persian_assistant_complete.py:627-636 | through `process`, call and app commands always carry a name, so their "name missing" errors never occur and nothing is written |
| Pipeline.FixedOutcomes | persian_assistant_complete.py:778-955 | through `process`, music, weather, navigation and control always succeed without writing; unknown always fails with `فرمان نامشخص` and one of the four replies |
| Pipeline.OnlyNotesAndRemindersWrite | persian_assistant_complete.py:807-914 | through `process`, only note and reminder commands write; a note always stores its captured text; a reminder succeeds exactly when it writes |
| Pipeline.HourPatternTitlesWithDigits | persian_assistant_complete.py:824 | when `ساعت (\d+) (.+)` decides, the reminder is titled with the hour's digit string |
| Processor.CommandProcessor.constructor | persian_assistant_complete.py:602-604 | a new processor uses the given database and has no callback set |
| Processor.CommandProcessor.IdentifyCommand | persian_assistant_complete.py:622-676 | the nested loop with early return computes the classification |
| Processor.CommandProcessor.ExecuteApp | persian_assistant_complete.py:740-776 | the loop over the mapping with `break` computes the app result, and that result meets the app description |
| Processor.CommandProcessor.ReadHour | persian_assistant_complete.py:816-821 | the loop over the time patterns computes the hour read off the text |
| Processor.CommandProcessor.ExecuteReminder | persian_assistant_complete.py:807-854 | the reminder handler returns the reminder result and inserts exactly its row, or nothing when it raises |
| Processor.CommandProcessor.ExecuteNote | persian_assistant_complete.py:895-914 | the note handler inserts exactly one note with the default category, or nothing without text |
| Processor.CommandProcessor.ExecuteCommand | persian_assistant_complete.py:678-705 | the dispatched handler's record is returned, exceptions become failures, and the store changes exactly by the handler's row |
| Processor.CommandProcessor.Process | persian_assistant_complete.py:606-620 | `process` returns the record for the normalised text, writes the handler's row, and appends exactly one log row with the kind and success when the callback is set, none otherwise |
| Assistant.ReplyIsHandlerText | persian_assistant_complete.py:381-390 | the `get` defaults are never used: a success is answered with the handler's response and a failure with its error; an unknown command is answered with `فرمان نامشخص` |
| Assistant.PersianVoiceAssistant.constructor | persian_assistant_complete.py:58-203 | startup appends the sample contacts and note, connects the processor to the shared database with the logger as callback, and starts unmuted with a zero counter |
| Assistant.PersianVoiceAssistant.Speak | persian_assistant_complete.py:414-417 | nothing is said while muted; otherwise the text is said |
| Assistant.PersianVoiceAssistant.ToggleMute | persian_assistant_complete.py:466-471 | the flag flips; `صدا روشن شد` is said after unmuting, and nothing is heard after muting |
| Assistant.PersianVoiceAssistant.ProcessCommandText | persian_assistant_complete.py:367-393 | text under two characters after stripping gets `متوجه نشدم، لطفا دوباره بگویید` and never reaches the processor; otherwise the reply is said, the counter grows by one exactly when the command succeeded, and one log row is written |
| Assistant.PersianVoiceAssistant.CheckReminders | persian_assistant_complete.py:295-324 | every due, uncompleted reminder is announced in row order and marked completed, and nothing else changes |
| Assistant.PersianVoiceAssistant.CheckRow | persian_assistant_complete.py:308-321 | one row: if due, its title is announced and it is marked completed; otherwise nothing changes |

## Left out

- The Kivy user interface: screens, popups, label and button updates, and the listening state. The log label update inside `process_command_text` is part of this.
- Audio capture, speech recognition and the text-to-speech engine. What the speech engine is handed is recorded as the sequence `spoken`, in order; the threads that play it are not modelled. `recognize_offline` and the stub services (`AppLauncher`, `MusicPlayer`, `ReminderManager`, `WeatherService`, `NavigationService`) are constant or never called by the pipeline.
- Threads, the periodic timer that calls `check_reminders`, and desktop notifications. Only the announcement through `speak` is modelled.
- SQLite itself: table creation, commits and persistence. The database file's existing rows are the constructor's `db` argument.
- The `LIKE` wildcards `%` and `_` inside a captured name, and `LIKE`'s ASCII case-insensitivity. Contact lookup is plain substring containment.
- Column defaults set by SQLite: a note's `created_at` is `CURRENT_TIMESTAMP` (UTC), modelled as `now`. The log's `executed_at` is modelled the same way, and its unused `command_text` column is left out.
- `datetime.now()` is an input. Calendars, time zones and microseconds are not modelled: `replace` keeps the microseconds in the source, and a `Moment` has none. Days are abstract numbers.
- Handlers.ReminderResult: for an hour too large for a C integer, CPython raises `OverflowError` with a different message. The model uses the `ValueError` text `hour must be in 0..23` for every hour from 24 up, so only the error text can differ.
- Unicode beyond the modelled sets. `lower()` folds only ASCII letters; Persian has no case. `strip()` uses the characters Python treats as whitespace. `\d` and `int()` accept ASCII, Arabic-Indic and Extended Arabic-Indic digits.
- `random.choice`: the choice is the injected index `pick`.
- The extra keys of a result record that no caller reads are kept (phone, package, song, reminder, destination, time, note, action). The whole dictionary passed to `on_command_executed` as `details` is not, since the logger ignores it.
- The `users` and `expenses` tables, `main` and `start.py`: nothing in the pipeline reads or writes them.
- Logging: the `Logger.info` and `Logger.error` calls (for example in `on_command_executed`, in the `except` of `execute_command`, and in `execute_call`) only write to the log output and are not modelled.
- Database errors: the in-memory store never fails. In the source, `execute_call`, `execute_note` and `execute_reminder` can raise a `sqlite3` error inside the `try` of `execute_command`, which would become a failure record. The logger bound to `on_command_executed` runs outside that `try`, so its error would escape `process`. Neither is modelled.
