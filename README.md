# Unsend watcher of a LINE group bot, modelled in Dafny

The bot (`api.py`) watches LINE group chats. For every group text message it remembers
who sent it, in which group, and what it said, keyed by the message id. When a member
recalls ("unsends") a message the bot has on record, it raises that member's count of
recalls for the week, looks up the member's display name, and pushes a warning into the
group. The warning quotes the recalled text, tags the member with a mention, and gives
the running count. A background loop sleeps until the next Monday 00:00 and then empties
the counts.

The model follows `api.py` as written:
- counts are keyed by user id alone, so recalls in different groups share one count;
- there is only the warning, with no removal from the group;
- a recall of a message that was never recorded is ignored;
- the weekly reset empties only the counts and keeps the message records;
- records are keyed by message id and never removed.

Modules:
- `Wrappers`: `Option`.
- `Reply`: the display name with its `<@user_id>` fallback, the decimal rendering of the
  count, and the warning text with its mention span.
- `Schedule`: Python's `weekday()` on proleptic Gregorian day ordinals, and the next-Monday
  boundary and wait.
- `Events`: the two dictionaries as a value, and one function per handler. The unsend
  handler decides on a `Warning` (record, display name, count); `Notice` renders it as
  the push. A fold runs a sequence of events, and the lemmas here relate several events.
- `LineBot`: class `Bot`, whose two map fields the handlers update in place. Each method
  is specified by the matching `Events` function and keeps `Valid()`.

Inputs that come from outside the program are parameters:
- the outcome of the profile lookup (`Some(display name)` or `None` when it raised);
- the current time (a day ordinal and a second of the day).

The message to push is the result of `HandleUnsend`.

## Model

| member | source | states |
|---|---|---|
| LineBot.Bot.constructor | api.py:18-19 | both dictionaries start empty |
| LineBot.Bot.HandleMessage | api.py:35-46 | the new state is `Remember` of the old one; the counts are untouched; `Valid()` is kept |
| LineBot.Bot.HandleUnsend | api.py:49-99 | the new state is the one `Unsend` computes from the old state; the returned push is the rendering (`Notice`) of the warning `Unsend` decides on, or nothing; the records are untouched; a push always goes to a non-empty group id |
| LineBot.Bot.WeeklyClear | api.py:111 | the counts become empty; the records stay; `Valid()` is kept |
| Events.Remember | api.py:35-46 | no contract of its own: the value form of `handle_message`, specified by `Events.RememberStores` |
| Events.RememberStores | api.py:35-46 | a message with a non-empty group id stores exactly (user, group, text) under its id, replacing any earlier record for that id, and every other record stays; a message whose group id is absent or empty changes nothing; the counts never change |
| Events.Unsend | api.py:49-70 | no contract of its own: the value form of `handle_unsend` up to the choice of warning, specified by `Events.UnsendUnrecorded` and `Events.UnsendRecorded` |
| Events.UnsendUnrecorded | api.py:50-55 | a recall of a message id with no record leaves the state as it was and produces no push |
| Events.UnsendRecorded | api.py:51-63 | a recall of a recorded message leaves the records alone; it sets the sender's count to its old value (absent = 0) plus 1 and leaves every other user's count unchanged; it warns with the record, the resolved display name and the new count |
| Events.UnsendPushesToGroup | api.py:41-58 | in a reachable state, every warning is pushed to a non-empty group id, because only messages with a truthy group id are recorded |
| Events.Clear | api.py:111 | no contract of its own: the clear of the counts, specified by `Events.ClearDropsCounts` |
| Events.ClearDropsCounts | api.py:111 | after the clear every count is 0 and the records are unchanged |
| Events.Notice | api.py:73-99 | no contract of its own: the push built from a warning, specified by `Events.NoticeMentionsName` |
| Events.NoticeMentionsName | api.py:73-99 | the push goes to the record's group and tags the record's user; its mention span covers exactly the display name; the recalled text and the count's numeral appear in it |
| Events.StepKeepsValid | api.py:41-63 | every handler keeps the invariant: each record has a non-empty group id, and each stored count is at least 1 |
| Events.RunKeepsValid | api.py:34-111 | any sequence of events keeps the invariant; no record is ever removed, by a recall or by the reset; at most one push is made per event |
| Events.RepeatedUnsend | api.py:51-70 | recalling one message n times, each recall with its own profile-lookup outcome, raises its sender's count by exactly n; other users' counts and all records stay unchanged |
| Events.RepeatedUnsendNotices | api.py:51-99 | those n recalls make n pushes; the i-th quotes the same stored record, names the recaller as the i-th lookup resolved (display name or `<@user_id>` fallback), and carries count old + i + 1 |
| Events.CountIsSharedAcrossGroups | api.py:57-63 | recalls of one user's messages in two different groups add up in one count; the second warning already carries old + 2 |
| Events.UnrecordedUnsendIsIgnored | api.py:38-55 | a message without a group id, and then its recall, leave the state exactly as it was and push nothing |
| Events.SendThenUnsend | api.py:41-63 | a group message recalled at once gives one warning about exactly the sent (user, group, text), with count old + 1 |
| Events.ResetStartsNewWeek | api.py:111 | after the reset, a recall of a recorded message counts as the first of the week and is still announced |
| Events.CountsGrowWithinWeek | api.py:61-63 | with no reset among the events, no user's count decreases |
| Reply.DisplayName | api.py:66-70 | the name is the profile's display name when the lookup succeeded; when it failed, it is `<@`, then the user id, then `>` |
| Reply.FallbackNameIsInjective | api.py:70 | two users whose lookups failed get different fallback names |
| Reply.Decimal | api.py:92 | no contract of its own: `str(count)` in the f-string, specified by `Reply.DecimalIsCanonical`, `Reply.ValueOfDecimal` and `Reply.DecimalOfValue` |
| Reply.DecimalIsCanonical | api.py:92 | the count's rendering is a decimal numeral with no leading zero (except "0"); it has one digit exactly for counts below ten |
| Reply.ValueOfDecimal | api.py:92 | reading the rendering back as a decimal numeral gives the count |
| Reply.DecimalOfValue | api.py:92 | every canonical numeral is the rendering of the number it denotes, so the rendering is a bijection |
| Reply.PreText | api.py:73-77 | no contract of its own: the text before the mention, specified by `Reply.ReplyLayout` |
| Reply.BuildReply | api.py:73-93 | no contract of its own: the reply text with its mention index and length, specified by `Reply.ReplyLayout` and `Reply.CountReadsBack` |
| Reply.ReplyLayout | api.py:73-93 | the mention index is the length of the pre-text and the mention length is the length of the name; the reply starts with the pre-text; the mention slice is exactly the display name; the name is inside the first quote and the recalled text inside the second; the count's numeral follows the mention |
| Reply.CountReadsBack | api.py:91-93 | the digits after the mention in the reply denote the count |
| Schedule.Weekday | api.py:105 | `now.weekday()`: a value below 7 that counts the days since the latest Monday, the days whose proleptic ordinal is 1 modulo 7 |
| Schedule.NextMonday | api.py:104-107 | the reset day is a Monday, 1 to 7 days after today, and 7 days after when today is Monday; the wait is the seconds from now to its midnight, in (0, 7 * 86400] |
| Schedule.NextMondayIsEarliest | api.py:104-107 | no Monday midnight lies strictly after now and before the computed reset |

## Left out

- The Flask app and the `/callback` route, with its signature check and `abort(400)` (api.py:12, 21-32). This is transport plumbing.
- The LINE SDK calls `get_group_member_profile` and `push_message`. These are network calls. The lookup's outcome is a parameter, and the push is the handler's result.
- The daemon thread and `time.sleep` (api.py:101-116). The loop is split into the pure boundary computation (`Schedule.NextMonday`) and the clear (`Bot.WeeklyClear`).
- Concurrency between the reset thread and the handlers is not modelled. The handlers' read-modify-write of a count is not atomic against the clear, and the model runs one step at a time.
- Wall-clock time is modelled as a day ordinal plus a whole second of the day. Sub-second precision is dropped, so the float `total_seconds()` becomes an integer. Time zones and daylight-saving shifts of the naive local clock are not modelled.
- Logging with `print` (api.py:29, 54, 108, 112).
- The `Mention`, `Mentionee` and `TextSendMessage` wrappers are not modelled. Only the text, the index, the length and the tagged user are kept.
- Lengths and offsets are counted in code points, as Python's `len` counts them. Whether LINE reads the mention offsets in UTF-16 units is not modelled.
- The default `'[內容無法識別]'` (api.py:59) is unreachable, because every record stores `text` (api.py:45).
- User ids and message ids are plain strings. An event whose `user_id` is absent is not modelled.
