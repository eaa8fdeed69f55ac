# botrbot forwarding engine in Dafny

botrbot is a Telegram bot that reposts messages from a list of *source channels*
to a set of *target chats*. This project models the bot's core and proves
properties of it:

- the two-state forwarding machine (Idle and Running);
- the Running state's *rotation cursor*: the global repost interval, the
  auto-forward flag, each channel's last post time, the last processed channel,
  the time of the last global post and the pending message IDs;
- one iteration of the periodic rotation task. It picks the next channel (the
  first one, the successor named by a channel-pair interval, or the round-robin
  successor), applies the cooldowns, builds the message-ID window
  `max(1, N-10)..N`, sweeps the 30-minute map of unforwardable messages, and
  delivers the window in ascending order;
- the inbound channel-post handler, moving a channel in the rotation order,
  setting pair and global intervals, and the downward probe for a channel's latest
  message;
- the configuration's admin and source-channel lists and the per-bot clone
  admins;
- the chat-info cache: a TTL cache with oldest-entry eviction, a one-hour map of
  invalid chats, and classification of lookup errors;
- the pagination and label arithmetic of the channel-interval and
  channel-removal keyboards.

The model is split into modules:

- **Wrappers**: the option type.
- **Text**: the Python string and integer operations the code relies on, with
  their round-trip lemmas.
- **Lists**: sequence facts: no duplicates, append-if-absent, remove-first,
  sorting.
- **Repository**: the configuration, last-message and channel-interval tables,
  held as maps.
- **Rotation**: the decisions of one tick, as pure functions.
- **BotState**: the unavailability cache, the Running state and `Tick`, and the
  context's own forwarding path. These are proved against Rotation.
- **Bot**: the bot's handlers.
- **Configuration**: the configuration object.
- **ChatCache**: the chat-info cache service.
- **Keyboards**: the button lists.

Telegram is reached only through parameters:

- `forward` is the outcome of forwarding one message ID;
- `send` is the outcome of one forward to one target chat;
- `probe` and `exists_` answer the message-existence probes;
- `fetch` is what one chat lookup produced;
- `discovered` is the result of the latest-message discovery;
- `deletable` is the set of chats whose removal from the target table succeeds.

Time is an integer parameter, one per clock read. The tick reads the clock at
the start (`now`) and again after delivery (`doneAt`). The inbound handler reads
it three times: `now` for the cooldown and sequence checks, `sweptAt` for the
30-minute clean-up, and `doneAt` for the channel's new last post time.

The model follows the code as written, including where it departs from what its
comments suggest:

- The tick merges a channel's pending IDs into a window and clears them. The
  merged window is then overwritten by the base window
  (utils/bot_state.py:372-400). Pending IDs are therefore dropped, never
  forwarded.
- In the tick, every forward that returns False or raises is recorded as
  unavailable (utils/bot_state.py:453-471). The inbound handler records no
  failure (bot.py:1685-1696).
- `_check_message` reports every message as available.
- The tick calls `find_latest_message` on the context (utils/bot_state.py:360),
  but the context class has no such method; it is defined on the bot class. The
  call raises, the handler at utils/bot_state.py:367-370 stamps the channel, and
  the iteration is skipped. `discovered` stands for what the call yields; `None`
  covers both "nothing found" and the raise.
- Saving clone admins keeps repeated integer entries from the file
  (utils/config.py:225-236). The saved list is strictly ascending only when the
  file had no repeats, and `Configuration.SortedMergeUnion` says exactly that.
- `_get_next_channel_to_repost` and `_get_channel_pair_interval` are modelled,
  but no code path calls them.

## Model

| member | source | states |
|---|---|---|
| Repository.Stores.GetConfig | database/repository.py:495-503 | the stored value of a key, or the caller's default when the key is absent |
| Repository.Stores.SetConfig | database/repository.py:506-513 | insert-or-replace: only that key changes, to the new value |
| Repository.Stores.GetLastMessage | database/repository.py:540-548 | `Some` exactly when the channel has a row, with that row's ID |
| Repository.Stores.SaveLastMessage | database/repository.py:526-537 | upsert keyed by channel; reading the channel back gives the saved ID |
| Repository.Stores.SetChannelInterval | database/repository.py:430-445 | writes the seconds as a decimal string under `channel_interval_{c1}_{c2}`, and replaces c1's record with (c2, seconds) |
| Rotation.SelectCandidate | utils/bot_state.py:286-345 | no candidate exactly when no channel is configured; a picked candidate is a configured channel. With no previous channel, or one no longer listed, the first channel is picked with no interval check. A pair record of the previous channel whose successor is listed decides alone: that successor once its seconds have elapsed, otherwise wait, whatever the global interval. Without such a record: wait exactly when the global interval has not elapsed |
| Rotation.RoundRobinSuccessor | utils/bot_state.py:330-340 | after channel i, with no usable pair record and the global interval elapsed, the candidate is channel (i+1) mod n, wrapping around |
| Rotation.Window | utils/bot_state.py:396-400 | at most 11 IDs, consecutive from max(1, N-10); an ID is in the window exactly when it lies in max(1, N-10)..N; strictly ascending |
| Rotation.Sweep | utils/bot_state.py:406-409 | keeps exactly the entries younger than 1800 seconds, with their times |
| Rotation.Available | utils/bot_state.py:413-422 | an ID remains exactly when it is in the window and its channel:id key is not in the map |
| Rotation.AvailableAscending | utils/bot_state.py:443-453 | filtering keeps ascending order, so delivery is in ascending ID order |
| Rotation.Record | utils/bot_state.py:453-471 | after delivery the map holds exactly the earlier keys plus the keys of IDs whose forward returned False or raised, and those get the current time |
| Rotation.CountOf | utils/bot_state.py:448-471 | a counter never exceeds the number of delivered IDs |
| Rotation.CountPartition | utils/bot_state.py:448-471 | every delivered ID increments exactly one of forwarded, not-forwarded and error |
| Rotation.ResolveLastId | utils/bot_state.py:354-370 | a non-zero stored last message wins. Otherwise the result is the discovered ID when it is non-zero, and None exactly when discovery gave nothing or 0 |
| Rotation.Decide | utils/bot_state.py:279-370 | no decision without channels; waiting exactly when the selection waits; every other decision names the selected channel. A selected channel still in its own cooldown is cooling down. Otherwise it is delivered with the resolved last ID exactly when one resolves, and has no message exactly when none does |
| Rotation.ClearPending | utils/bot_state.py:372-388 | the channel's pending list is emptied and every other list is kept |
| Rotation.Enqueue | bot.py:1611-1616 | an ID already waiting leaves the list as it was; a new ID is appended after the waiting ones; a new channel gets a list of just that ID; no other list changes; no duplicate is created |
| BotState.UnavailableCache.SweepExpired | utils/bot_state.py:402-409 | the map becomes its 30-minute sweep |
| BotState.UnavailableCache.Suppress | utils/bot_state.py:463-471 | the key is (re)inserted with the given time |
| BotState.CheckMessage | utils/bot_state.py:219-230 | every message is reported available, and the result names the channel and message |
| BotState.ProbeWindow | utils/bot_state.py:411-441 | the IDs collected for sending are exactly the window IDs the map does not hold, in window order |
| BotState.DeliverInOrder | utils/bot_state.py:443-471 | forwarded/skipped/error counts match the outcomes, skipped starts at the unchecked IDs, the three counts add up to the window length, and failures are recorded only on the periodic path |
| BotState.SentTo | utils/bot_state.py:245-268 | a chat is in the result exactly when it is a target other than the source and the forward to it succeeded |
| BotState.SendToTargets | utils/bot_state.py:245-268 | the loop sends to every target but the source, keeps going after failures, and reports the chats reached and whether any chat said the message is unforwardable |
| BotState.ForwardSpecificMessage | utils/bot_state.py:233-270 | True exactly when some target chat other than the source received the message |
| BotState.SweepAndDeliver | utils/bot_state.py:403-471 | the window pass shared by the tick and the inbound handler: the map is swept, the window IDs it does not hold are delivered in ascending order, the counters split the window, and failures are recorded only when asked |
| BotState.StampChannels | utils/bot_state.py:57-63 | every listed channel gets time `now`; other entries are kept |
| BotState.ChannelPairInterval | utils/bot_state.py:200-214 | `Some` exactly when channel1's record names channel2, and then it holds the record's seconds |
| BotState.RunningState.constructor | utils/bot_state.py:51-73 | keeps the interval and auto-forward flag; every configured channel is stamped `now`, the global time is `now`, nothing is processed and nothing is pending |
| BotState.RunningState.StampChannel | bot.py:1702-1703 | only the channel's last post time changes, to the given time |
| BotState.RunningState.ToggleAutoForward | utils/bot_state.py:80-83 | flips auto-forward and changes nothing else |
| BotState.RunningState.NextChannelToRepost | utils/bot_state.py:174-198 | None exactly when no channel is due; otherwise a due channel with the oldest last post, the first such in list order |
| BotState.RunningState.ChooseCandidate | utils/bot_state.py:286-345 | the source's early returns and `next_channel` fallback select what `Rotation.SelectCandidate` states: the first channel on a restart, the pair record's successor or a wait, else the global interval's wait or the round-robin successor |
| BotState.RunningState.Tick | utils/bot_state.py:279-477 | the decision is `Rotation.Decide`. Waiting or cooling down changes nothing. A missing message stamps only the channel. Delivery saves the discovered ID, sweeps the map, delivers the available window IDs in ascending order recording every failure, clears the channel's pending list, and sets the channel's last post, the global time (both to the re-read clock) and the last processed channel |
| BotState.RunningState.DeliverChannel | utils/bot_state.py:372-477 | the delivery half of a tick, with the same state equations as Tick's delivery case |
| BotState.BotContext.constructor | utils/bot_state.py:592-595 | starts Idle with auto-forward off and an empty unavailability map |
| BotState.BotContext.Start | utils/bot_state.py:34-36 | from Idle, enters Running with the stored interval (default 3600) and the carried-over auto-forward flag and a fresh cursor; an unparseable interval leaves the state unchanged; starting while Running does nothing |
| BotState.BotContext.Stop | utils/bot_state.py:89-93 | from Running, clears auto-forward and returns to Idle(false); stopping while Idle does nothing |
| BotState.BotContext.ForwardMessage | utils/bot_state.py:606-666 | without targets returns False. Otherwise it sweeps, and returns False on a suppressed key or on a probe that finds no message (recording the key). Otherwise it sends to every other target, and records the key when a chat reports the message unforwardable. True exactly when some chat received it |
| Bot.IsSource | bot.py:1573-1577 | True exactly when some configured channel equals the chat's decimal ID or, ignoring case, its username |
| Bot.MoveDataRoundTrip | bot.py:757-759 | a reorder button's data `move_{direction}_{channel}` is split back into its direction and channel, even when the channel contains underscores |
| Bot.GlobalIntervalRoundTrip | bot.py:1291-1293 | every `interval_{seconds}` button is read back as its own number of seconds |
| Bot.PairRequestRoundTrip | bot.py:1240-1245 | every `set_interval_{c1}_{c2}_{seconds}` option is read back as its pair and seconds, when neither channel contains `_` |
| Bot.ForwarderBot.HandleChannelPost | bot.py:1564-1703 | a non-source post changes nothing. A source post always becomes the channel's last message, even when Idle. While Running it is queued, ignored or forwarded, as HandleRunningPost states, with the clean-up at its own clock read |
| Bot.ForwarderBot.QueuePost | bot.py:1611-1616 | the cursor changes only in its pending map, which becomes `Rotation.Enqueue` |
| Bot.ForwarderBot.HandleRunningPost | bot.py:1586-1703 | during the cooldown, and when not next in sequence, the post is enqueued and nothing else changes. With auto-forward off nothing changes. Otherwise the window ending at the post is swept at the clean-up's clock read, filtered and delivered in ascending order without recording failures, and only the channel's last post time changes, to the last clock read |
| Bot.ForwarderBot.SequenceGate | bot.py:1593-1602 | the nested tests hold exactly when the previous channel's record names this channel and its interval has elapsed |
| Bot.ForwarderBot.ForwardWindow | bot.py:1629-1696 | the map becomes its sweep at the clean-up time and nothing is recorded; the available window IDs are delivered in ascending order; the counters add up to the window length |
| Bot.ForwarderBot.MoveChannel | bot.py:752-777 | for an admin, moves exactly when the channel is listed and has a neighbour in that direction, by swapping the two; otherwise the list is unchanged; always a permutation, and well-formedness is kept |
| Bot.ForwarderBot.SetInterval | bot.py:1210-1325 | non-admins change nothing. A pair option writes the pair's config key and record. A global button stores `repost_interval` and, while Running, adopts it and stamps every configured channel and the global time with `now`. Nothing else in the cursor changes |
| Bot.PairConfig | bot.py:1240-1247 | a well-formed pair option adds or replaces exactly its pair's config key, with the seconds in decimal; any other request leaves the table as it was |
| Bot.PairRecords | bot.py:1240-1247 | a well-formed pair option replaces exactly its first channel's record; any other request leaves the records as they were |
| Bot.ForwarderBot.StorePair | bot.py:1240-1247 | the config table and the records become those after the pair request |
| Bot.ForwarderBot.SetGlobalInterval | bot.py:1293-1304 | stores the interval as a decimal string and, while Running, restarts every cooldown |
| Bot.ForwarderBot.RestartCooldowns | bot.py:1297-1304 | the new interval is adopted and every configured channel and the global time are set to `now`; the rest of the cursor is kept |
| Bot.ForwarderBot.FindLatestMessage | bot.py:782-809 | returns the highest ID in 4999..10000 that the probe reports existing, or None exactly when there is none |
| Text.ParseIntRoundTrip | bot.py:1293-1295 | the interval stored with `str()` is read back unchanged by `int()` (utils/bot_state.py:35) |
| Configuration.ParseIdList | utils/config.py:34-38 | fails exactly when some non-blank piece is not an integer; never more IDs than pieces |
| Configuration.ParseAdminIds | utils/config.py:28-38 | an empty variable gives no admins; a piece that is not an integer discards the whole list; otherwise the parsed IDs; never more IDs than comma-separated pieces |
| Configuration.AdminIdsRoundTrip | utils/config.py:28-38 | a non-empty list of IDs written comma-separated is parsed back exactly |
| Configuration.CleanChannels | utils/config.py:136-138 | `@`-stripped entries with empty ones dropped; never longer than the input |
| Configuration.MergeKeepsWellFormed | utils/config.py:134-139 | merging file channels into a duplicate-free list of non-empty names keeps it so, and only adds at the end |
| Configuration.IntsOf | utils/config.py:195-199 | the integer entries in file order; an integer is present exactly when the file holds it |
| Configuration.Without | utils/config.py:103-105 | the admin list without the clone admins; order kept; no duplicates introduced |
| Configuration.SortedMergeUnion | utils/config.py:223-236 | the saved list holds exactly the file's IDs and the cached IDs; it is strictly ascending when the file had no repeats |
| Configuration.AddCachedIds | utils/config.py:224-234 | the file IDs, plus each cached ID not among them, exactly once |
| Configuration.Config.constructor | utils/config.py:18-75 | admins parsed from the environment and the owner is the first of them (0 when none); the `@`-stripped initial channel, then the file's channels merged in; clone admins for bot "main" appended when absent and cached |
| Configuration.InitialChannels | utils/config.py:49-51 | the `@`-stripped `SOURCE_CHANNEL` as a one-element list, or no channel when nothing is left; always well formed |
| Configuration.OwnerOf | utils/config.py:41 | the first admin, or 0 when there are none |
| Configuration.Config.MergeChannels | utils/config.py:136-139 | the merge loop appends, in file order, each cleaned entry not yet listed |
| Configuration.Config.IntEntries | utils/config.py:195-199 | the loop keeps exactly the integer entries, in file order |
| Configuration.Config.MergeCloneAdmins | utils/config.py:194-204 | the integer entries in order, each appended to the admins when not yet one |
| Configuration.Config.IsAdmin | utils/config.py:93-95 | True exactly when the ID is in the admin list |
| Configuration.Config.LoadChannelsFromConfig | utils/config.py:129-142 | appends, in file order, each cleaned entry not yet listed; a missing file adds nothing |
| Configuration.Config.AddSourceChannel | utils/config.py:165-172 | True exactly when the stripped name is non-empty and new, and then it is appended; otherwise nothing changes |
| Configuration.Config.RemoveSourceChannel | utils/config.py:174-181 | True exactly when the stripped name was listed; its first occurrence is removed |
| Configuration.Config.LoadCloneAdmins | utils/config.py:183-207 | the file's integer entries for this bot are appended when absent, and become the clone cache |
| Configuration.Config.SaveCloneAdmins | utils/config.py:209-241 | with a bot ID, this bot's file entry becomes the sorted merge of its integer entries and the cache, and other bots are untouched; without a bot ID nothing is written |
| Configuration.Config.SetBotId | utils/config.py:97-108 | the same ID does nothing; otherwise the cached clone admins leave the admin list, the ID becomes the new one ("main" when empty), and its clone admins are loaded |
| Configuration.Config.AddCloneAdmin | utils/config.py:110-127 | a non-integer is refused with nothing changed. An existing admin is only cached (False). A new one is appended, cached and saved (True) |
| ChatCache.BadRequestKind | services/chat_cache.py:155-175 | the error type of a bad request: "upgraded" exactly when the lower-cased text contains the upgrade phrase; "bad_request" exactly when it has neither the upgrade nor the not-found phrase; never "forbidden" |
| ChatCache.BadRequestNotice | services/chat_cache.py:158-175 | observers are not notified exactly when the text matches no phrase at all; otherwise they get a notice for that chat |
| ChatCache.ClassificationIgnoresCase | services/chat_cache.py:156 | the classification and whether observers are notified depend on the text only up to letter case |
| ChatCache.TitleOr | services/chat_cache.py:130 | a non-empty title is kept; otherwise "Chat <id>"; never empty |
| ChatCache.AfterInvalidCheck | services/chat_cache.py:76-86 | the chat's record stays exactly when it is younger than an hour; other records are untouched |
| ChatCache.MarkedInCache | services/chat_cache.py:97-98 | the chat's cached entry, if any, becomes invalid; nothing else changes |
| ChatCache.EvictionKeepsBound | services/chat_cache.py:149-151 | evicting one oldest entry on overflow keeps the cache at or below 100 entries and changes no surviving entry |
| ChatCache.Removable | services/chat_cache.py:222-230 | a chat is removed exactly when its error type is upgraded, not-found or forbidden and its target-table removal succeeds |
| ChatCache.AddObserverIdempotent | services/chat_cache.py:47-50 | registering twice equals registering once; the observer is then present, with no duplicates |
| ChatCache.ChatCacheService.AddObserver | services/chat_cache.py:47-50 | appends the observer unless already registered |
| ChatCache.ChatCacheService.RemoveObserver | services/chat_cache.py:52-55 | removes the observer's first occurrence; it is then absent |
| ChatCache.ChatCacheService.IsKnownInvalid | services/chat_cache.py:76-86 | True exactly when a record younger than an hour exists; an expired record is deleted |
| ChatCache.ChatCacheService.MarkInvalid | services/chat_cache.py:88-98 | records type, message and time, and invalidates the cached entry; the chat is then known invalid |
| ChatCache.ChatCacheService.OldestEntry | services/chat_cache.py:150 | a key whose entry has the minimal `last_updated` |
| ChatCache.ChatCacheService.StoreFetched | services/chat_cache.py:138-151 | stores the entry, drops its invalid record, evicts one oldest entry on overflow; the size bound is kept |
| ChatCache.ChatCacheService.GetChatInfo | services/chat_cache.py:100-194 | known-invalid: None, no fetch. Fresh valid entry: returned unchanged. Successful fetch: stored with the title fallback, the invalid record cleared, eviction. Error classes: marked invalid with their type and notice. Any other exception: None with both maps unchanged |
| ChatCache.ChatCacheService.ClearInvalidChat | services/chat_cache.py:200-205 | True exactly when the chat had an invalid record, which is removed |
| ChatCache.ChatCacheService.ClearCache | services/chat_cache.py:207-209 | the cache becomes empty; the invalid map is kept |
| ChatCache.ChatCacheService.RemoveFromCache | services/chat_cache.py:211-214 | the chat leaves both maps and nothing else changes |
| ChatCache.ChatCacheService.CleanupOne | services/chat_cache.py:223-235 | a chat of type upgraded, not-found or forbidden whose removal succeeds leaves both maps; any other chat changes nothing |
| ChatCache.ChatCacheService.CleanupInvalidChats | services/chat_cache.py:216-237 | returns exactly the removable chats, without duplicates, and removes exactly those from both maps |
| Keyboards.ChannelPairs | utils/keyboard_factory.py:62-66 | exactly the pairs (channels[i], channels[i+1]), in order, n-1 of them |
| Keyboards.PageItems | utils/keyboard_factory.py:74-77 | the page's slice, with Python slice rules; never longer than the list |
| Keyboards.TotalPagesIsCeiling | utils/keyboard_factory.py:131 | the page count is the ceiling of total / per_page |
| Keyboards.PageSlice | utils/keyboard_factory.py:74-77 | a page shows items from page*per_page up to min(start+per_page, total), at most per_page of them |
| Keyboards.PagesCover | utils/keyboard_factory.py:74-77 | item k is entry k mod per_page of page k div per_page, so the pages partition the list |
| Keyboards.Navigation | utils/keyboard_factory.py:124-137 | one button for a page after the first, plus one when there is more than one page, plus "next" when items remain |
| Keyboards.PageDataDistinct | utils/keyboard_factory.py:127-137 | the previous- and next-page buttons carry different data, and neither is the placeholder "dummy" |
| Keyboards.NavigationShown | utils/keyboard_factory.py:127-137 | "previous" appears exactly when page > 0, "next" exactly when end < total, the indicator exactly when there is more than one page |
| Keyboards.PairName | utils/keyboard_factory.py:90-98 | a raw `-100…` ID without a title becomes "ID:" followed by its last six characters (a suffix of the ID); other names over ten characters are cut to ten plus "...", shorter ones kept; at most 13 characters |
| Keyboards.IntervalLabel | utils/keyboard_factory.py:101-116 | "not set" exactly when c1's record does not name c2 or its seconds are not positive; otherwise " (", the `Duration` of the seconds, then ")" |
| Keyboards.DurationRoundsDown | utils/keyboard_factory.py:107-110 | the duration in a label shows seconds div 3600 hours from one hour on, and seconds div 60 minutes below |
| Keyboards.PairsOnPage | utils/keyboard_factory.py:74-80 | entry i of a page of pairs is the pair starting at channel page*per_page + i |
| Keyboards.IntervalKeyboardLayout | utils/keyboard_factory.py:57-152 | with fewer than two channels only the placeholder and back; otherwise one button per pair on the page, whose data names that pair, then the navigation, then back |
| Keyboards.IntervalOptionsKeyboard | utils/keyboard_factory.py:155-171 | six option buttons with data `set_interval_{c1}_{c2}_{seconds}`, then back |
| Keyboards.OptionDataSplits | utils/keyboard_factory.py:163-167 | when neither channel contains `_`, splitting the data on `_` gives five parts, and parts 2, 3 and 4 are the channels and the seconds |
| Keyboards.RemovalName | utils/keyboard_factory.py:216-222 | a raw `-100…` ID without a title becomes "ID: " followed by its last eight characters (a suffix of the ID); other names over 25 characters are cut to 22 plus "...", shorter ones kept; at most 25 characters |
| Keyboards.RemovalKeyboardLayout | utils/keyboard_factory.py:193-257 | no channels: placeholder and back; otherwise the page's channels, the navigation only when it has at least two buttons, then back |

## Left out

- Bot cloning, process management and the bot manager: they spawn processes and
  copy files.
- The asyncio loop around the tick: the ten-second sleep, task creation,
  cancellation, the 60-second back-off after an exception, and `asyncio.gather`.
  One iteration is modelled as `Tick`, and the parallel checks run as a
  sequential pass, since every check succeeds.
- Telegram transport and message contents: forwarding, chat lookups, probes,
  replies, menus and admin notifications are parameters or omitted; logging is
  omitted.
- SQL, the connection pool and the migration scripts: the three tables the core
  uses are maps in `Repository.Stores`.
- JSON and `.env` file I/O: files are given as values (the channel file's
  entries, the clone-admin file as a map). File and JSON errors are the "missing"
  case.
- `save_config` and `_save_channels_to_config` write files and are not modelled.
  Their effect on the in-memory lists is none.
- The main-menu, chat-list and channel-management keyboards, the row layout
  (`adjust`), menu texts and the next-post time shown in the tick's log.
- `_create_forward_task`, `_forward_message_task` and `_log_forwarding_results`:
  unused helpers.
- `RunningState.handle_message`, `IdleState.handle_message` and
  `BotContext.handle_message`: the bot forwards inbound posts through its own
  handler (`Bot.ForwarderBot.HandleChannelPost`). This delegation path is not part
  of this model.
- Float timestamps: times are whole seconds.
- Python's tie-breaks by dictionary order: on an eviction tie the model removes
  any entry of minimal `last_updated`, and the clean-up may remove chats in any
  order. The saved clone admins visit the cache set in any order before sorting.
- The singletons (`__new__`) of the configuration and the chat cache: one object
  each is modelled.
- Observer callbacks: the notification a lookup produces is returned as a value;
  calling the observers is not modelled.
- `get_invalid_chats`: a plain copy of the invalid map.
- `remove_target_chat`: its success or failure for each chat is the `deletable`
  set.
- Lower-casing is ASCII-only (`Text.Lower`). Non-ASCII letters in usernames and
  error texts keep their case.
- Text.ParseInt: accepts only an optional sign and ASCII digits. Python's `int()`
  also accepts digit underscores (`"1_000"`), non-ASCII digits and surrounding
  whitespace. So `ADMIN_IDS="1_000"` yields no admins here (`Configuration.ParseAdminIds`,
  `Configuration.ParseIdList`), but yields `[1000]` in the source.
- Text.Strip: removes ASCII whitespace only. Python's `str.strip()` also removes
  `\x1c`-`\x1f`, `\x85`, `\xa0` and other Unicode spaces.
- Configuration.Config.constructor: the check that raises when the token or
  admin list is missing is the predicate `HasRequiredSettings`, stated about the
  initialised object, and not an error path.
- Keyboards.Navigation: the page size must be positive, as every caller passes a
  positive constant. With a zero page size Python raises when it counts the pages.
- ChatCache.ChatCacheService.GetChatInfo: the clock is read once. A lookup
  that fails with an error class stores its invalid record with that same time.
