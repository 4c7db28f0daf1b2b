# KunalCensorBot decision core, in Dafny

A model of the decision logic of a single-file Discord moderation bot
(`bot.py`). The bot watches messages from monitored users. When a message
carries a banned sticker, it deletes the message and posts a replacement
sticker in the same channel. The bot can also post one configured sticker to
one configured channel on a timer.

The project has six modules, one per piece of logic:

- `Wrappers` defines `Option`, used for Python's `None`.
- `UserIds` models `_parse_target_user_ids`. The raw `TARGET_USER_IDS`
  string has its commas turned into spaces. It is split on whitespace
  (`Words`, modelling `str.split()`), and every token that `int()` accepts
  (`ParseInt`) is added to a set. The method `ParseTargetUserIds` keeps the
  source's loop and is proved equal to the function `TargetUserIds`.
  Decimal formatting (`Show`, `JoinIds`) is the partner for round-trip lemmas.
- `Stickers` models `get_message_sticker_ids`. It unions the present ids of
  the two optional record lists `sticker_items` and `stickers`, using the
  source's two loops (`AddSourceIds`).
- `Rest` models the success rule of `send_sticker`. The request body carries
  `[sticker_id]`. A status of 400 or more, or a transport exception, is a
  failure. A channel without an `id` fails before any request is made.
- `Filter` models `on_message`. `Decide` is the guard chain in source order.
  `Moderated` states independently when the bot acts. `OnMessage` gives the
  effect trace (delete, then maybe post) and how the handler ends, for a
  given delete outcome and post response.
- `Periodic` models the periodic poster. The class `PeriodicTask` holds the
  `running` flag that `on_ready` checks and sets. `Tick` is the body of one
  timer tick. `ChannelOrFetch` is the cache-then-fetch channel lookup.

The network, the Discord library and the environment are parameters:

- the outcome of `message.delete()` (`Deleted`, `Forbidden`, any other error);
- the HTTP response of the post (a status code, or a transport exception);
- the channel cache entry and the outcome of `fetch_channel`;
- the raw configuration strings and ids.

An empty `TARGET_USER_IDS` means no message is ever acted on, because
bot.py:118 tests `message.author.id not in TARGET_USER_IDS`;
`Filter.EmptyTargetsNeverAct` states this.

## Model

| member | source | states |
|---|---|---|
| `UserIds.ReplaceCommas` | bot.py:17 | result has the input's length; every comma becomes a space and every other character is kept |
| `UserIds.Words` | bot.py:17 | every token `split()` yields is non-empty and contains no whitespace |
| `UserIds.WordsSplit` | bot.py:17 | a whitespace character splits the token list: `Words(x + [c] + y) == Words(x) + Words(y)` |
| `UserIds.WordsOfWord` | bot.py:17 | a whitespace-free non-empty string splits to itself alone |
| `UserIds.WordsSpaceEquivalent` | bot.py:17 | strings that differ only in which whitespace character stands where split the same |
| `UserIds.ParseInt` | bot.py:19-20 | a token `int()` accepts is one non-empty token and contains no separator |
| `UserIds.ParseIntAccepts` | bot.py:19 | `int()` accepts an optional `+` or `-` followed by one to 4300 digits (leading zeros allowed), with the signed decimal value |
| `UserIds.ParseIntRejects` | bot.py:19-21 | `int()` rejects any token with a non-digit after its optional leading sign |
| `UserIds.ParseIntRejectsBare` | bot.py:19-21 | `int()` rejects the empty token and a bare sign |
| `UserIds.ParseIntRejectsLong` | bot.py:19-21 | `int()` rejects a digit string of more than 4300 digits (CPython's default `int_max_str_digits`), so the token is skipped |
| `UserIds.ParseShow` | bot.py:19 | round trip: `int(str(v)) == v` for every integer `v` whose decimal form has at most 4300 digits |
| `UserIds.ParseTargetUserIds` | bot.py:13-22 | the loop (with the empty-string shortcut) returns `TargetUserIds(raw)`: `v` is in the result exactly when some token of `raw.replace(",", " ").split()` converts to `v` |
| `UserIds.TargetUserIdsNoShortcut` | bot.py:15-17 | the empty-input early return gives the same set as the general path |
| `UserIds.TargetUserIdsMembers` | bot.py:15-22 | both directions: an id is in the result iff some token converts to it |
| `UserIds.EmptyInput` | bot.py:15-16 | the empty string yields the empty set |
| `UserIds.SplitAtSeparator` | bot.py:17-21 | a comma or whitespace character splits the input: the ids of `a + [c] + b` are the ids of `a` plus the ids of `b` |
| `UserIds.WellFormedTokenKept` | bot.py:17-21 | a well-formed token contributes its value whatever surrounds it, and the surrounding text contributes its own ids |
| `UserIds.MalformedTokenSkipped` | bot.py:18-21 | a malformed token is skipped with no error: the result equals that of the input with the token removed |
| `UserIds.SeparatorsInterchangeable` | bot.py:17 | inputs that differ only in which separator (comma or whitespace) stands where give the same set |
| `UserIds.CommaAndSpaceExample` | bot.py:17 | `"1,2"` and `"1 2"` both give `{1, 2}` |
| `UserIds.JoinIdsRoundTrip` | bot.py:13-22 | round trip: ids of at most 4300 digits, written in decimal and joined by a comma or whitespace, parse back to exactly the set of those ids |
| `Stickers.RecordIds` | bot.py:55-57 | an id is in the result iff some record of the list carries it |
| `Stickers.AddSourceIds` | bot.py:53-64 | one loop adds exactly that source's present ids to the set; a missing or empty source adds nothing |
| `Stickers.GetMessageStickerIds` | bot.py:49-66 | the two loops return exactly the ids carried by `sticker_items` or by `stickers` |
| `Stickers.NormaliserIsUnion` | bot.py:49-66 | an id is in the normalised set iff one of the two sources carries it |
| `Stickers.AbsentSourceContributesNothing` | bot.py:53-61 | a missing or empty source contributes nothing, on either side |
| `Stickers.SharedIdsOnce` | bot.py:49-66 | the same records under both names give the same set as under one name |
| `Stickers.MissingIdsIgnored` | bot.py:56-57 | records without an id contribute no id |
| `Rest.SendSticker` | bot.py:69-85 | a request is made iff the channel has an id; it targets that channel with body `[sticker_id]`; success iff the status is below 400; a transport error is a failure |
| `Filter.SourcePolicy` | bot.py:25-35 | the script's policy: banned set `{1461152152243142756, 1461253269824471141}`, replacement `1461235460943642656` (not itself banned), empty allow-list, and monitored ids the set parsed from `TARGET_USER_IDS` |
| `Filter.Decide` | bot.py:109-127 | the decision is "delete and replace" iff `Moderated` holds (not a bot, in a guild, channel allowed, author monitored, some sticker id banned); the action carries the message's channel and the replacement id |
| `Filter.OnMessage` | bot.py:109-140 | at most two effects; no effect iff not moderated; the first effect is the delete; a post is only ever the second effect and carries exactly `[replacement]` to the message's channel; a post happens iff moderated and the delete succeeded; the handler ends replaced iff the post got a status below 400; a `Forbidden` or other failed delete leaves exactly one effect, the delete, and a non-`Forbidden` error escapes |
| `Filter.BotAndDirectMessageIgnored` | bot.py:110-113 | a bot's message or a message outside a guild produces no effect, whatever it carries |
| `Filter.ChannelGuard` | bot.py:115-116 | with a non-empty allow-list, a message from another channel produces no effect |
| `Filter.UserGuard` | bot.py:118-119 | a message from an unmonitored author produces no effect |
| `Filter.EmptyTargetsNeverAct` | bot.py:118-119 | with an empty `TARGET_USER_IDS` no message ever produces an effect |
| `Filter.NoBannedStickerNeverActs` | bot.py:121-127 | a message with no sticker id, or none in the banned set, produces no effect |
| `Filter.SourcePolicyAllChannels` | bot.py:35 | with the script's empty allow-list, the channel never affects the decision |
| `Filter.ForbiddenDeleteNoPost` | bot.py:130-134 | a `Forbidden` delete ends the handler after the delete, with no post |
| `Filter.FailedPostNoRetry` | bot.py:137-140 | a failed post leaves the same trace as a successful one: no retry and no further effect |
| `Filter.BannedStickerScenario` | bot.py:27-32 | a banned sticker from a monitored user (an id of at most 4300 digits) in a guild gives exactly: delete, then a post of `[1461235460943642656]` to the same channel |
| `Periodic.ChannelOrFetch` | bot.py:88-96 | a cached channel is used; otherwise the fetched channel, or none when the fetch fails |
| `Periodic.Tick` | bot.py:144-153 | a disabled config sends nothing; an unresolved channel sends nothing; an enabled tick with a resolved channel sends, and a request is made iff that channel has an id; the request posts exactly `[PERIODIC_STICKER_ID]` to the resolved channel and succeeds iff the status is below 400 |
| `Periodic.TickPostsToConfiguredChannel` | bot.py:145-151 | when the cache and the fetch answer with a channel whose id is the one asked for, an enabled tick that resolves a channel posts `[PERIODIC_STICKER_ID]` to `PERIODIC_CHANNEL_ID` |
| `Periodic.PeriodicTask.constructor` | bot.py:143 | a new task is not running and was never started |
| `Periodic.PeriodicTask.OnReady` | bot.py:100-105 | the task is started iff it was not running, both ids are non-zero and `change_interval` accepts the interval; it raises before `start()` iff it was not running, both ids are non-zero and the interval is rejected; it runs afterwards iff it ran before or it was started; it is never started twice |
| `Periodic.PeriodicTask.Fire` | bot.py:143-158 | a tick only happens on a started task, so the disabled early return never fires, and a tick changes no state |
| `Periodic.FetchFailureThenTick` | bot.py:145-153 | a tick whose channel fetch fails sends nothing and leaves the task running; the next tick with a resolved channel posts the sticker there, succeeding iff the status is below 400 |
| `Periodic.ReadyTwice` | bot.py:102-105 | a second `on_ready` does not start the task again; the first starts it iff both ids are non-zero and the interval is accepted |

## Left out

- Network calls are not modelled. The aiohttp POST, `message.delete()`, `client.get_channel` and `client.fetch_channel` appear only as outcome parameters.
- The request URL and headers (bot token, content type) are not modelled. The request records only the channel and the `sticker_ids` body.
- Configuration loading is not modelled: `load_dotenv`, `os.getenv`, and the `int(... or "0")` conversions of the periodic ids. The configuration is given as parameters.
- `PERIODIC_EVERY_HOURS`, the `tasks.loop` timer and `wait_until_ready` are floating point and async scheduling. Only the running flag is modelled. Whether `change_interval` accepts the interval is a flag of the configuration, `intervalAccepted`; the library's rule for it (a negative interval raises `ValueError`) is not modelled. "A tick happens only on a started task" stands for "no tick before ready".
- The `print` calls are log output with no effect on behaviour. The end states `DeleteForbidden` and `ReplaceFailed` mark where the source logs.
- An exception that escapes `on_message`, such as a delete error other than `Forbidden`, goes to the library's error handler. What that handler does is not modelled; the run ends `DeleteRaised`.
- UserIds.ParseInt: does not model Python's full `int()` grammar. Digit-group underscores (`1_000`) and non-ASCII digits are rejected here, although Python accepts them. The 4300-digit limit is CPython's default since 3.11 (and in the 3.7-3.10 security releases); an interpreter without the limit, or one configured with another limit, accepts longer tokens.
- UserIds.Words: treats only ASCII whitespace (code points 9-13 and 28-32) as separators. Python's `str.split()` also splits on non-ASCII whitespace such as U+00A0.
- Stickers.RecordIds: record ids are integers already, so the `int(s.id)` conversion of bot.py:57 is the identity here. A non-integer id that makes `int()` raise is not modelled.
- Periodic.Tick: the cache entry and fetch outcome are parameters that are not keyed by `PERIODIC_CHANNEL_ID`. That the library returns the channel with the requested id is an assumption of `Periodic.TickPostsToConfiguredChannel`, not something `Tick` promises.
- Concurrency between the periodic task and message handling is not modelled. The two share no mutable state.
- `client.run` and the event registration are not modelled; they are library plumbing.
