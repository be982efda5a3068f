# jira-notifications: a verified model of the polling core

The notifier is a desktop program. It polls an issue tracker and raises
desktop notifications about new tickets. Each round of its `while True`
loop does the following:

- It enters two actions into a `sched.scheduler`:
  - the **daily summary**, with delay 5 and the current value of the `repeated` flag;
  - the **routine report**, with delay `toast_time_seconds`.
- It runs the scheduler until both actions have fired.
- It recomputes `repeated` from the wall clock.

The daily summary searches the tickets created today. It notifies only when
the clock shows the configured `daily_toast_time` (`HH:MM`) and `repeated` is
false. The routine report always searches the tickets created in the last
`tickets_from_last_min` minutes. Both actions send a notification exactly
when their search returns keys. The notification body has one of three forms:

- on Windows 10/11, the keys joined by newlines;
- otherwise, when `jira_api_url` is set and non-empty, one HTML link per key,
  with the key passed through `html.escape`, each link followed by a newline;
- otherwise (no `jira_api_url`, or an empty one), each key unescaped,
  followed by a newline.

The model is made of these modules:

- `Helper` (helper.dfy): the configuration record and `load_config`'s
  missing-file case. Also the `%H:%M` rendering of the clock, with its
  parser as partner, and `is_time_equal_to_input`.
- `JiraClient` (jira_client.dfy): the client's defaults and the two JQL
  builders, reproduced byte for byte. The remote search is an input
  (`Found(keys)` or `SearchFailed`). The module also holds the asymmetric
  failure handling of the two queries and both body builders.
  `prepare_tickets_with_link` is a method with the source's two `for`
  loops, proved against the function `LinkBody`.
- `Html` (html.dfy): `html.escape` as the chain of five `str.replace`
  calls it performs. It is proved equal to a per-character map, safe in a
  quoted attribute, and undone by `Unescape`.
- `Text` (text.dfy): Python's `str.join` and `str.split`, and "each element
  followed by a newline". It also proves that splitting undoes joining.
- `Triggers` (triggers.dfy): `jira_daily_toast` and `jira_routine_toast`.
  Each is a function from its inputs to the searches it issued, the
  notification it sent (title, body, click URL, sound) and whether an
  exception escaped.
- `MainLoop` (main_loop.dfy):
  - the scheduler, as a class whose queue is kept in `(time, priority,
    entry number)` order; every entry preserves that order and adds exactly
    the new event;
  - one round as the function `Round`, and consecutive rounds as `RunRounds`;
  - the loop of `main` as the method `RunScheduler`, proved equal to
    `RunRounds` from the initial flag `false`.
- `LoopProperties` (loop_properties.dfy): what rounds guarantee about order,
  notifications and the flag.
- `Scenarios` (scenarios.dfy): worked runs on a sample configuration.

Some behaviours of the code are easy to misread. The model follows the code
as written:

- **`repeated` is not a "sent during this minute" flag.** Outside the
  matching minute, src/jira_notifications/main.py:75-78 sets the flag to
  false only when it was true, and to true otherwise. The flag therefore
  flips every round.
  - `LoopProperties.FlagAlternatesOutsideMinute` proves the alternation.
  - `Scenarios.SummarySkippedAfterOneEarlierRound` proves a consequence. One
    round at 08:59 leaves the flag true. The 09:00 round then sends no
    summary, although today's search finds tickets. Started from `false`,
    the same 09:00 round does send it (`Scenarios.SummarySentFromInitialFlag`).
  - Whether a day's summary is sent therefore depends on the parity of the
    number of rounds since the last matching minute.
- **A failed recent search ends the loop.** `get_tickets_created_seconds`
  does not catch the search's exception. It escapes from the routine action
  and from `scheduler.run()`. The model stops with
  `Stopped(RecentSearchFailed)`. A failed search for today's tickets, in
  contrast, is caught and read as no tickets.
- **Projects and users are lists.** They are iterated in order with
  duplicates kept, and the model uses sequences.
- **A missing `toast_time_seconds` ends the loop.** The code calls
  `scheduler.enter(None, …)`, which raises when it adds `None` to the clock,
  so the first round stops. The model stops with `Stopped(IntervalMissing)`
  before anything is searched.

## Model

| member | source | states |
|---|---|---|
| JiraClient.EmptyConfigDefaults | src/jira_notifications/jira_client.py:23-29 | with no configuration file the client has no projects, an empty URL and token, and a 5-minute recent window |
| JiraClient.JqlLayout | src/jira_notifications/jira_client.py:49-55 | the today and recent JQL are the same text for the same date: project clause, `created >=` bound, a user filter present exactly when the users list is non-empty, then the ordering |
| JiraClient.JqlFrame | src/jira_notifications/jira_client.py:75-81 | both JQL strings start with `project in (` + projects joined by `, ` + `)` and end with ` ORDER BY created DESC` |
| JiraClient.TodayJqlExample | src/jira_notifications/jira_client.py:51-52 | two users give `(assignee="u" OR reporter="u")` clauses joined by ` OR ` after ` AND `, unparenthesised |
| JiraClient.RecentJqlExample | src/jira_notifications/jira_client.py:77-81 | with no users the recent query has no user clause |
| JiraClient.GetTicketsCreatedToday | src/jira_notifications/jira_client.py:57-62 | the today query never raises; it returns the found keys, or no keys when the search fails |
| JiraClient.GetTicketsCreatedSeconds | src/jira_notifications/jira_client.py:75-84 | the recent query uses the window `tickets_from_last_min` minutes back, raises exactly when the search fails, and otherwise returns the found keys |
| JiraClient.PrepareTicketsWithLink | src/jira_notifications/jira_client.py:97-108 | the loops build `LinkBody`: the empty string for `None`, otherwise one newline-terminated line per ticket, in order |
| JiraClient.LinkBodyLines | src/jira_notifications/jira_client.py:101-104 | with a non-empty base URL, splitting the body at newlines gives each ticket's link line in input order, then the empty text after the final newline |
| JiraClient.PlainBodyLines | src/jira_notifications/jira_client.py:105-107 | without a base URL, the body's lines are the newline-free keys, unescaped and in order |
| JiraClient.PlainBodyIsWindowsBody | src/jira_notifications/jira_client.py:105-107 | without a base URL, no keys give `""`; otherwise the body is the Windows body plus one newline |
| JiraClient.LinkLineEscapes | src/jira_notifications/jira_client.py:103 | the key appears twice in the link, both times escaped; the escaped text is attribute-safe and unescapes back to the key |
| JiraClient.WindowsBodyLines | src/jira_notifications/jira_client.py:121 | the Windows body is `""` for no keys and the key itself for one key; splitting it at newlines gives newline-free keys back; it ends without a newline when the last key is non-empty |
| Html.EscapeIsPerChar | src/jira_notifications/jira_client.py:103 | the five-step replace chain of `html.escape` equals escaping each character on its own |
| Html.EscapeSafe | src/jira_notifications/jira_client.py:103 | escaped text has no raw `<`, `>`, `"` or `'`, and every `&` in it starts one of the five entities |
| Html.UnescapeEscape | src/jira_notifications/jira_client.py:103 | unescaping the escaped text gives the original key back |
| Html.EscapeKeepsOut | src/jira_notifications/jira_client.py:103 | escaping introduces no character other than those of the entities (so no newline) |
| Text.SplitJoin | src/jira_notifications/jira_client.py:121 | splitting a newline join of newline-free keys gives the keys back |
| Text.TerminatedLines | src/jira_notifications/jira_client.py:104 | splitting newline-terminated lines gives the lines followed by one empty piece |
| Triggers.Announce | src/jira_notifications/triggers.py:55-60 | a notification exists exactly when there are tickets; its title is the action's, click URL `jira_api_url`, sound `toast_sound`, body the Windows join or the link form |
| Triggers.JiraDailyToast | src/jira_notifications/triggers.py:53-60 | searches today's tickets only when the clock matches and `repeated` is false, never lets a search failure escape, and notifies with "Jira Today Notification" exactly when the gate is open and the search found keys |
| Triggers.JiraRoutineToast | src/jira_notifications/triggers.py:75-81 | always issues the recent search, raises exactly when it fails, and notifies with "Jira New Ticket(S)" exactly when it found keys |
| MainLoop.InsertSorted | src/jira_notifications/main.py:72-73 | inserting into a queue ordered by `(time, priority, entry number)` keeps it ordered, and the queue gains exactly the new event |
| MainLoop.Scheduler.Enter | src/jira_notifications/main.py:72-73 | `enter` keeps the queue ordered, adds exactly the new event numbered by the counter, and advances the counter |
| MainLoop.Scheduler.Run | src/jira_notifications/main.py:74 | actions are popped and called in queue order until the queue is empty or one raises; the queue keeps what was not popped, still ordered |
| MainLoop.RunScheduler | src/jira_notifications/main.py:69-78 | the loop, with the flag starting `false`, sends, searches and stops exactly as `RunRounds` does from `false` |
| MainLoop.RoundOrder | src/jira_notifications/main.py:72-73 | each round queues each action once; the daily action comes first unless `toast_time_seconds` is below 5 |
| MainLoop.RoundFromAgenda | src/jira_notifications/main.py:72-78 | running the round's queue, whatever the entry numbers, gives the outcome of one `Round` and the flag update |
| LoopProperties.RoundRunsBothActions | src/jira_notifications/main.py:72-74 | both actions run in the order above, the daily one with the flag the round started from; the round stops exactly when the recent search fails |
| LoopProperties.RoundFlagUpdate | src/jira_notifications/main.py:75-78 | after a round that does not stop, the flag is false exactly when the clock does not match and the flag was true |
| LoopProperties.RoundDailyCount | src/jira_notifications/triggers.py:53-60 | a round sends one daily summary exactly when the gate is open and today's search found keys (and the action gets to run), otherwise none |
| LoopProperties.RoundRoutineCount | src/jira_notifications/triggers.py:75-81 | whatever the flag, every round issues the recent search and sends one routine report exactly when it found keys |
| LoopProperties.EmptyResultsNeverNotify | src/jira_notifications/triggers.py:55 | searches that find nothing or fail never produce a notification, over any number of rounds |
| LoopProperties.NoDailyOnceRepeated | src/jira_notifications/main.py:75-78 | from a true flag, while the clock matches at every update, no summary is sent and the flag stays true |
| LoopProperties.AtMostOneDailyWhileMinuteMatches | src/jira_notifications/main.py:75-78 | while the clock matches at every update, at most one daily summary is sent and the flag is true after the first round |
| LoopProperties.FlagAlternatesOutsideMinute | src/jira_notifications/main.py:75-78 | while the clock does not match at any update, each round flips the flag |
| LoopProperties.MissingConfigFileStopsFirstRound | src/jira_notifications/helper.py:36-38 | without a configuration file, and provided the client is built (construction is not modelled), the first round stops when it enters the routine action, with nothing searched or sent |
| Helper.TimeEqualIffNamesNow | src/jira_notifications/helper.py:50-54 | the clock check holds exactly when a time is configured, it is a well-formed `HH:MM`, and it names the current hour and minute; an absent time never matches |
| Helper.MalformedNeverMatches | src/jira_notifications/helper.py:50-51 | a configured time that is not a zero-padded `HH:MM` (such as `9:00`) never matches |
| Helper.ParseFormat | src/jira_notifications/helper.py:50 | `%H:%M` rendering gives a well-formed `HH:MM` that reads back as the same time |
| Helper.FormatParse | src/jira_notifications/helper.py:50 | a well-formed `HH:MM` read as a time and rendered again is the same text |
| Scenarios.FirstMatchingRound | src/jira_notifications/triggers.py:53-60 | at 09:00 from the false flag, with keys PRA-1 and PRA-2, one round sends exactly the summary linking both keys and leaves the flag true |
| Scenarios.SecondMatchingRound | src/jira_notifications/main.py:75-78 | a second round at 09:00 sends nothing and the flag stays true |
| Scenarios.MinutePassed | src/jira_notifications/main.py:75-76 | at 09:01 the true flag resets to false and no summary is sent |
| Scenarios.TwoMatchingRounds | src/jira_notifications/main.py:70-78 | two rounds at 09:00 from the loop's start send exactly one summary |
| Scenarios.SummarySentFromInitialFlag | src/jira_notifications/main.py:70-72 | from the loop's initial flag, a round at 09:00 sends the summary |
| Scenarios.SummarySkippedAfterOneEarlierRound | src/jira_notifications/main.py:75-78 | one round at 08:59 before the 09:00 round means no summary is sent |

## Left out

- Remote search: the tracker's `search_issues` and the `JIRA(options)` client construction are inputs to the model. Their results are `Found(keys)` or `SearchFailed`. A failure of the constructor itself is not modelled.
- Clock: `datetime.now()`, `strftime` and the `timedelta` subtraction are parameters of each round. These are the clock at the daily check and at the flag update, today's date text, and the window start for a number of minutes. The model does not relate these readings to one another.
- Scheduler timing: `sched`'s real-time sleeping is not modelled. Both entries of a round are made at the same instant, which is what the queue order depends on.
- Endless loop: `while True` never ends. The model runs it over any finite list of rounds.
- Notifier: toast rendering (`win11toast`, `notifypy`, icons, sound files) is a sink. A notification is recorded as its title, body, click URL and sound flag. A failure inside `notify` is not modelled. If `win11toast` or `notifypy` raised, the exception would escape the action and end the loop, as a failed recent search does. The statements that an action "never raises" hold under this assumption.
- Logging: the logger (colour formatting, its lock) has no effect on behaviour and is left out.
- Platform detection: `platform.system()` and `platform.release()` are a boolean parameter.
- Startup: the command line, YAML parsing and `generate_sample_config` are not modelled. `load_config` is modelled only as "a parsed configuration, or the empty configuration `{}` for a missing file".
- YAML values: a key present with a `null` value or a value of an unexpected type is not modelled. Examples are `users: null`, which makes the recent query raise, an unquoted time that YAML reads as a number, and a float such as `toast_time_seconds: 4.5` or `tickets_from_last_min: 2.5`, which `sched.enter` and `timedelta` accept. The model has absent keys and well-typed values only; both durations are integers.
- Helper.IsTimeEqualToInput: the configured value is an optional string. The source compares any YAML value with the rendered time, and a non-string never matches.
