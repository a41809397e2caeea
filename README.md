# MerilCat core, modelled in Dafny

MerilCat is a QQ bot bridge. A Napcat gateway connects over one WebSocket.
The bridge splits that connection onto two signal hubs: one for events and
one for action responses. It decodes the events into a typed taxonomy and
publishes them to per-kind hubs, from which plugins read. Plugin actions go
out as requests stamped with an `echo` key, and the responses are matched
back to their callers by that key.

This project models the sequential core under the async plumbing:

- the signal bus: a 256-slot broadcast log with per-port cursors, plus a
  fan-in FIFO queue;
- the adapter's frame routing;
- event decoding and fan-out;
- the action correlator;
- the request and message builders;
- the plugin registry and help listing;
- the chat plugin's logic, with its language model taken as input.

Modules follow the source files:

| module | file |
|---|---|
| `SignalType` | `signal_type.dfy` |
| `Adapter` | `adapter.dfy` |
| `EventType` | `event_type.dfy` |
| `EventParser` | `event_parser.dfy` |
| `Event` | `event.dfy` |
| `Action` | `action.dfy` |
| `ActionType` | `action_type.dfy` |
| `RequestParser` | `request_parser.dfy` |
| `MessageParser` | `message_parser.dfy` |
| `PluginType` | `plugin_type.dfy` |
| `Plugin` | `plugin.dfy` |
| `LegacyPlugin` | `legacy_plugin.dfy` |
| `GetHelp` | `get_help.dfy` |
| `AiChat` | `ai_chat.dfy` |

Shared helpers:

- `Wrappers`: Option and Result.
- `Ints`: fixed-width integers and `to_string`.
- `Json`: an abstract `serde_json::Value` and the field readers of derived deserialisers.
- `RustStr`: `trim`, `starts_with` and `split(';')`.

State that the source changes in place is held in classes:

- hubs and ports;
- the action manager's pending table and counter;
- the event manager's hubs;
- the plugin list;
- the chat plugin's sessions, mood and reply counter.

Each method is specified against a function or a state relation. Decoders,
builders and decision functions are pure functions with lemmas.

Endless loops become bounded runs:

- the socket loop runs over a given sequence of `select!` arms;
- `run` loops run for a given number of passes.

The older plugin manager in `src/plugin.rs` has the same list, `new`,
`add_plugin` and `handle_plugin` as the current one (lines 17-41),
and its inline help plugin (lines 52-86) is the current help plugin line for
line. Both are modelled once, by `Plugin.PluginManager` and
`GetHelp.HelpPlugin`; only its `run` differs, which `LegacyPlugin.Run` models.
Likewise the older `NapcatRequestData` in `src/utils/parser/request_parser.rs`
is the same record with the same setters (lines 50-63) as the one in
`src/types/action_type.rs`; the model shares `ActionType`'s record and
setters and gives the older one only its own `new`.

An asynchronous `request` is split into two steps, `Issue` and `Await`.
Any number of response-loop passes may run between them. A time-out is
`Await` before the response arrives.

## Model

| member | source | states |
|---|---|---|
| SignalType.Broadcast | src/types/signal_type.rs:39-41 | With no live receiver the value is not stored. Otherwise exactly this value is appended after all earlier values, which stay unchanged. |
| SignalType.Deliver | src/types/signal_type.rs:77-79 | A port's `recv` returns a value exactly when its cursor is inside the 256-slot window and before the tail; that value is the one at the cursor, and the cursor moves past it. It returns Lagged exactly when the port is more than 256 behind; the number missed is then positive and the cursor jumps to the oldest retained value. It returns nothing exactly at the tail. |
| SignalType.DrainIsRetainedSuffix | src/types/signal_type.rs:77-79 | Reading until empty yields exactly the log from max(cursor, tail - 256). Each retained value comes once, in send order, and nothing from before the cursor appears. |
| SignalType.DrainWithinCapacity | src/types/signal_type.rs:22-30 | A port at most 256 behind loses nothing: it reads exactly `log[cursor..]`. |
| SignalType.SignalHub.constructor | src/types/signal_type.rs:22-30 | A new hub has an empty broadcast log, an empty fan-in queue and no receivers. |
| SignalType.SignalHub.GetPort | src/types/signal_type.rs:32-37 | The new port's cursor is the current tail, so it only sees values sent after its creation. One more receiver is counted; log and queue are unchanged. |
| SignalType.SignalHub.Send | src/types/signal_type.rs:39-41 | The new log is `Broadcast` of the old one. The result is the receiver count, or the value handed back when there are no receivers. |
| SignalType.SignalHub.Recv | src/types/signal_type.rs:43-45 | Fan-in is FIFO: the oldest queued value is returned and removed, and an empty queue gives Pending. |
| SignalType.SignalPort.Send | src/types/signal_type.rs:73-75 | The value goes to the end of the hub's fan-in queue only. The broadcast log, and so every cursor's view, is untouched. |
| SignalType.SignalPort.Recv | src/types/signal_type.rs:77-79 | The result and the new cursor are `Deliver` on the hub's log at the old cursor, and the port stays valid. |
| SignalType.SignalPort.Clone | src/types/signal_type.rs:82-90 | The clone shares the hub and subscribes afresh at the current tail, not at the original's cursor. |
| Adapter.Classify | src/core/adapter.rs:73-107 | Frames are skipped exactly when they are absent, a read error, a frame whose `to_text()` fails, or unparseable. A parsed value goes to the action hub exactly when it has an "echo" key, of any type. Otherwise it goes to the event hub, and the value is forwarded unchanged. |
| Adapter.EventFrame | src/core/adapter.rs:108-121 | An event-hub item is written exactly when it is a JSON string, and what is written is its raw content. |
| Adapter.ActionFrame | src/core/adapter.rs:122-131 | An action-hub item is always written, as the serialisation of that very value. |
| Adapter.InboundExclusive | src/core/adapter.rs:102-106 | An inbound frame changes at most one hub's log, never both. It never touches the outbound queues or the written frames. With a live receiver it adds exactly its value to the hub it is routed to. |
| Adapter.BadFramesSkipped | src/core/adapter.rs:74-100 | An absent frame, a read error, a frame whose `to_text()` fails or an unparseable frame leaves the whole state unchanged, so the loop goes on. |
| Adapter.RunWritesOnlyOutbound | src/core/adapter.rs:64-134 | Over any run, each outbound queue loses a prefix and what is written only grows at the end. The new raw-text frames are exactly the JSON strings of the consumed event-queue prefix, and the new serialised frames are exactly the consumed action-queue values, each in queue order. Hub logs never shrink. |
| Adapter.NapcatAdapter.constructor | src/core/adapter.rs:19-25 | Two distinct, fresh and empty hubs. |
| Adapter.NapcatAdapter.GetEventPort | src/core/adapter.rs:35-37 | Gives a valid port on the event hub at its tail. |
| Adapter.NapcatAdapter.GetActionPort | src/core/adapter.rs:39-41 | Gives a valid port on the action hub at its tail. |
| Adapter.NapcatAdapter.HandleInbound | src/core/adapter.rs:73-107 | The hubs change exactly as one inbound `Step` says. A failed hub send is ignored. |
| Adapter.NapcatAdapter.ForwardEvent | src/core/adapter.rs:108-121 | The queue and the written frame are exactly one event-arm `Step`. |
| Adapter.NapcatAdapter.ForwardAction | src/core/adapter.rs:122-131 | The queue and the written frame are exactly one action-arm `Step`. |
| Adapter.NapcatAdapter.HandleSocket | src/core/adapter.rs:64-134 | Hub state and written frames equal `Run` over the chosen arms. Write failures never stop the loop. |
| EventType.FromPrivate | src/types/event_type.rs:104-108 | Wraps a private message event in the Private variant, unchanged. |
| EventType.FromGroup | src/types/event_type.rs:110-114 | Wraps a group message event in the Group variant, unchanged. |
| EventType.PrivateToBase | src/types/event_type.rs:116-127 | All six fields are carried over unchanged. |
| EventType.PrivateToBaseInjective | src/types/event_type.rs:116-127 | The private conversion loses nothing: equal bases come from equal events. |
| EventType.GroupToBase | src/types/event_type.rs:129-140 | Keeps the six shared fields. |
| EventType.GroupToBaseForgetsGroup | src/types/event_type.rs:129-140 | Two group events have the same base exactly when they differ at most in group id and group name. |
| EventType.DecodeAnyEvent | src/types/event_type.rs:3-14 | A missing or non-string "post_type" fails. Any string other than "message", "meta_event" or "notice" gives Other. A decoded Message, Meta or Notice carries the matching tag. |
| EventType.DecodeMessageEvent | src/types/event_type.rs:95-102 | A decoded message's variant is the one its "message_type" names. |
| EventType.DecodeMetaEvent | src/types/event_type.rs:19-26 | A decoded meta event's variant is the one its "meta_event_type" names. |
| EventType.DecodeHeartBeat | src/types/event_type.rs:36-49 | A heartbeat decodes only with a "status" object carrying boolean "good" and "online", and it carries those values. |
| EventType.UnknownMessageTypeFails | src/types/event_type.rs:95-102 | A "message_type" other than "group" or "private" fails the whole event. There is no fallback to Other. |
| EventType.UnknownMetaTypeFails | src/types/event_type.rs:19-26 | A "meta_event_type" other than "lifecycle" or "heartbeat" fails the whole event. |
| EventType.MessageEventRoundTrip | src/types/event_type.rs:95-102 | Decoding an encoded message event, tagged inside an outer tag, gives it back. |
| EventType.MetaEventRoundTrip | src/types/event_type.rs:19-49 | Decoding an encoded meta event gives it back. |
| EventType.NoticeRoundTrip | src/types/event_type.rs:146-154 | Decoding an encoded notice gives it back. |
| EventType.AnyEventRoundTrip | src/types/event_type.rs:3-14 | Encoding any event and decoding it again gives an equal event, since the serialiser and deserialiser are derived as a pair. |
| EventParser.DecodeAnyEvent | src/utils/parser/event_parser.rs:3-12 | Only "message" and "meta_event" are recognised. Every other string, "notice" included, gives Other. |
| EventParser.FromCurrent | src/utils/parser/event_parser.rs:3-12 | Messages and meta events keep their content. Notices become Other. |
| EventParser.AgreesWithCurrent | src/utils/parser/event_parser.rs:3-12 | Apart from notices, the older decoder succeeds exactly when the newer one does, and with the same event. A "notice" is always Other here. |
| Event.Targets | src/core/event.rs:35-87 | The all-events hub comes first and at most one specific hub follows. Group messages go to the group hub, private messages to the private hub, lifecycles to the lifecycle hub and heartbeats to the heartbeat hub. Notices and Other go only to the all-events hub. |
| Event.EventHubs.constructor | src/core/event.rs:114-122 | Five fresh hubs with empty logs. |
| Event.EventHubs.GetNexus | src/core/event.rs:124-132 | The nexus holds the very same five hubs. |
| Event.EventNexus.constructor | src/core/event.rs:150-164 | Holds the five given hubs. |
| Event.EventNexus.Clone | src/core/event.rs:187-197 | The clone reads the same hubs as the original. |
| Event.EventNexus.GetPrivateMessagePort | src/core/event.rs:166-168 | Gives a valid port at the private hub's tail. |
| Event.EventNexus.GetGroupMessagePort | src/core/event.rs:170-172 | Gives a valid port at the group hub's tail. |
| Event.EventNexus.GetHeartbeatPort | src/core/event.rs:174-176 | Gives a valid port at the heartbeat hub's tail. |
| Event.EventNexus.GetLifecyclePort | src/core/event.rs:178-180 | Gives a valid port at the lifecycle hub's tail. |
| Event.EventNexus.GetAllEventPort | src/core/event.rs:182-184 | Gives a valid port at the all-events hub's tail. |
| Event.EventManager.constructor | src/core/event.rs:18-23 | Keeps the given port and makes fresh, empty hubs. |
| Event.EventManager.GetEventNexus | src/core/event.rs:90-92 | Subscribers read exactly the hubs this manager publishes to. |
| Event.EventManager.Publish | src/core/event.rs:35-87 | The event is broadcast to the all-events hub, and the event's payload to the one hub of its kind. Every other hub log is unchanged. |
| Event.EventManager.HandleEvent | src/core/event.rs:25-88 | The port advances as `Deliver` says. Nothing to read is Idle. A lag panics through `unwrap`. A decode failure publishes nothing. A decoded event is published to exactly the hubs in `Targets`, and no other log changes. |
| Event.Outcome | src/core/event.rs:25-34 | Nothing to read is Idle and only that. A lag is Panicked and only that. A published event is what the raw value decodes to, with its `Targets`. A decode failure carries the decoder's error. |
| Event.HandleRunWithinCapacity | src/core/event.rs:94-102 | A port at most 256 behind never panics: it reads the raw log from its cursor in order, one outcome per value, up to the tail. Every remaining pass finds nothing. |
| Event.EventManager.HandleOne | src/core/event.rs:25-88 | The outcome is `Outcome` of what the port's `recv` delivers, and the cursor moves as `Deliver` says. With subscribers, the all-events log grows by exactly the event handled, if one was published. |
| Event.EventManager.Run | src/core/event.rs:94-102 | The outcomes and the final cursor are `HandleRun` over the raw event log from the port's cursor. The loop ends only by a lag panic, and no panic comes before the last call. While the all-events hub has subscribers, its log grows by exactly the published events, in read order. |
| Action.SendPrivateMessageData | src/core/action.rs:52-64 | Action "send_private_msg", empty echo. The params are exactly `user_id` and `message`, and they decode back to the given id and message. |
| Action.SendGroupMessageData | src/core/action.rs:66-74 | Action "send_group_msg". The params are exactly `group_id` and `message`, and they decode back to their arguments. |
| Action.SendLikeData | src/core/action.rs:76-82 | Action "send_like". The params are exactly `user_id` and `times`, and they decode back to their arguments. |
| Action.SendLikeReply | src/core/action.rs:83-90 | Gives Ok exactly when the reply has a string at `message.message`, and that string is the result. Anything else, including a request error, gives "Send Like Error.". |
| Action.SendPrivatePokeData | src/core/action.rs:93-100 | Action "friend_poke". The params are exactly `user_id`. |
| Action.SendGroupPokeData | src/core/action.rs:102-110 | Action "group_poke". The params are exactly `user_id` and `group_id`, with the right values. |
| Action.EchoKey | src/core/action.rs:120-124 | A response names a key exactly when it has a string "echo". |
| Action.NextKeyIsFresh | src/core/action.rs:28-30 | Until the counter wraps, the next key is not in the pending table. |
| Action.KeysOfIssuedInjective | src/core/action.rs:44 | No two pending entries belong to the same request. |
| Action.Settle | src/core/action.rs:120-130 | A response without a string echo, or with an unmatched echo, changes nothing. A matching echo removes exactly that entry, and no other entry changes. The response is delivered to that request's channel only if its caller still waits. Responses already delivered stay. |
| Action.SettleOnce | src/core/action.rs:126-130 | A response is taken at most once: handling it again changes nothing. |
| Action.ActionManager.constructor | src/core/action.rs:19-25 | An empty table and the counter at 0. |
| Action.ActionManager.Issue | src/core/action.rs:27-44 | The key is the counter's decimal string and the counter advances by 1, wrapping at 2^64. The echo is overwritten with the key. The payload is sent on the port before the entry is parked under that key. Until the counter wraps the key is fresh. |
| Action.ActionManager.Await | src/core/action.rs:45-49 | Gives the delivered response, or "Time Out Error" when none arrived. On time-out the pending entry stays. |
| Action.ActionManager.HandleResponse | src/core/action.rs:115-130 | A lag is skipped. A received response changes the table and channels exactly as `Settle` says. |
| Action.ActionManager.Run | src/core/action.rs:112-134 | The table, the channels and the cursor end as `ResponseLoop` says: each `recv` as `Deliver` gives it, with a lag skipped and a response settled. The pending table only loses entries, and the remaining ones are unchanged. A delivered response stays until its caller takes it. |
| Action.ResponseLoopSettlesAll | src/core/action.rs:112-134 | A loop at most 256 behind, given one pass per unread response, settles every unread response in arrival order and reaches the tail. |
| ActionType.New | src/types/action_type.rs:12-18 | An empty action, an empty echo and null params. |
| ActionType.Default | src/types/action_type.rs:36-40 | `Default` equals `new`. |
| ActionType.WithAction | src/types/action_type.rs:20-23 | Only the action changes. |
| ActionType.WithEcho | src/types/action_type.rs:25-28 | Only the echo changes. |
| ActionType.WithParams | src/types/action_type.rs:30-33 | Only the params change. |
| ActionType.LaterSetterWins | src/types/action_type.rs:20-33 | A later call of a setter overrides an earlier one. |
| ActionType.SettersCommute | src/types/action_type.rs:20-33 | Setters of different fields commute. |
| ActionType.ToValue | src/types/action_type.rs:5-9 | Serialises to an object with exactly "action", "echo" and "params", and the echo is readable from it. |
| ActionType.ValueRoundTrip | src/types/action_type.rs:5-9 | Decoding the serialised request gives it back. |
| RequestParser.New | src/utils/parser/request_parser.rs:42-48 | An empty action and echo. The params are the JSON string "", not null. |
| RequestParser.BuilderReachesEveryRecord | src/utils/parser/request_parser.rs:42-63 | Setting the three fields from `new`, in either order, gives exactly the chosen record. |
| RequestParser.NewPrivateMessage | src/utils/parser/request_parser.rs:23-30 | The user id is stored as its decimal string, with '-' for negatives, and the message is unchanged. |
| RequestParser.NewPrivateMessageInjective | src/utils/parser/request_parser.rs:23-30 | Different user ids give different records. |
| RequestParser.NewGroupMessage | src/utils/parser/request_parser.rs:32-39 | The group id string and the message are stored unchanged. |
| MessageParser.New | src/utils/parser/message_parser.rs:9-14 | Gives an empty segment sequence. |
| MessageParser.WithText | src/utils/parser/message_parser.rs:16-20 | Appends exactly one Text segment carrying the text. Earlier segments are unchanged. |
| MessageParser.WithAt | src/utils/parser/message_parser.rs:23-26 | Appends exactly one At segment carrying qq. Earlier segments are unchanged. |
| MessageParser.WithImage | src/utils/parser/message_parser.rs:29-33 | Appends exactly one Image segment carrying the file. Earlier segments are unchanged. |
| MessageParser.WithFace | src/utils/parser/message_parser.rs:36-39 | Appends exactly one Face segment carrying the id. Earlier segments are unchanged. |
| MessageParser.WithReply | src/utils/parser/message_parser.rs:42-45 | Appends exactly one Reply segment whose id is the message id. Earlier segments are unchanged. |
| MessageParser.WithRecord | src/utils/parser/message_parser.rs:48-52 | Appends exactly one Record segment carrying the file. Earlier segments are unchanged. |
| MessageParser.WithVideo | src/utils/parser/message_parser.rs:55-59 | Appends exactly one Video segment carrying the file. Earlier segments are unchanged. |
| MessageParser.WithDice | src/utils/parser/message_parser.rs:62-65 | Appends exactly one data-less Dice segment. |
| MessageParser.WithRps | src/utils/parser/message_parser.rs:68-71 | Appends exactly one data-less Rps segment. |
| MessageParser.WithFile | src/utils/parser/message_parser.rs:74-78 | Appends exactly one File segment carrying the path. Earlier segments are unchanged. |
| MessageParser.EncodeSegment | src/utils/parser/message_parser.rs:81-83 | A segment is an object with exactly "type" and "data", and "type" is the renamed tag. |
| MessageParser.DecodeSegment | src/utils/parser/message_parser.rs:81-119 | A decoded segment's variant is the one its "type" names. |
| MessageParser.EncodeMessage | src/utils/parser/message_parser.rs:3-7 | A message is a bare array with one element per segment. |
| MessageParser.MusicRoundTrip | src/utils/parser/message_parser.rs:121-137 | Untagged music data decodes back to itself. A custom card is not mistaken for a built-in track. |
| MessageParser.SegmentRoundTrip | src/utils/parser/message_parser.rs:81-119 | Every segment decodes back to itself. |
| MessageParser.MessageRoundTrip | src/utils/parser/message_parser.rs:3-7 | Encoding then decoding a message gives the same segment sequence. |
| MessageParser.EncodeAppended | src/utils/parser/message_parser.rs:16-78 | A builder call adds exactly its segment's encoding at the end of the array. |
| PluginType.New | src/types/plugin_type.rs:25-36 | Sets name "None", description "None", version "0.0.0" and author "None", around the given plugin. |
| PluginType.WithName | src/types/plugin_type.rs:47-50 | Only the name changes. |
| PluginType.WithDescription | src/types/plugin_type.rs:52-55 | Only the description changes. |
| PluginType.WithVersion | src/types/plugin_type.rs:57-60 | Only the version changes. |
| PluginType.WithAuthor | src/types/plugin_type.rs:62-65 | Only the author changes. |
| PluginType.GetInfoStr | src/types/plugin_type.rs:38-40 | The string is "->[", the name, "]\n-->" and the description, each at its own position. |
| PluginType.InfoIgnoresVersionAndAuthor | src/types/plugin_type.rs:38-40 | Version and author never show in the info string. |
| PluginType.GetInfoStrDetermines | src/types/plugin_type.rs:38-40 | The info string and the name's length determine the name and the description. |
| PluginType.Run | src/types/plugin_type.rs:67-76 | `on_load` runs once, then only `on_update` follows, and `on_unload` is never reached. |
| Plugin.PluginList.constructor | src/core/plugin.rs:18-24 | A new manager's list is empty. |
| Plugin.HelpWrapper | src/core/plugin.rs:45-47 | The help plugin is named "GetHelpList" with description "/help". Version and author keep their defaults. |
| Plugin.AiChatWrapper | src/core/plugin.rs:48-51 | The chat plugin is named "Ai Chat In QQ" with description "Any Triggle", around the configured token. |
| Plugin.PluginManager.constructor | src/core/plugin.rs:18-24 | Starts with an empty plugin list. |
| Plugin.PluginManager.AddPlugin | src/core/plugin.rs:39-42 | Appends at the end. Existing entries and their order are unchanged. |
| Plugin.PluginManager.HandlePlugin | src/core/plugin.rs:26-37 | Walks the list snapshot in registration order. Every plugin is loaded and then spawned, and nothing is skipped or reordered. |
| Plugin.PluginManager.Run | src/core/plugin.rs:44-55 | Registers the help plugin and then the chat plugin, after any earlier entries, and starts every registered plugin in that order. |
| LegacyPlugin.Run | src/plugin.rs:43-49 | The older manager registers only the help plugin before start-up, and starts every registered plugin in order. |
| GetHelp.ListingPrefix | src/plugins/get_help.rs:21-23 | The listing of a prefix of the plugin list is a prefix of the listing: later registrations only add text at the end. |
| GetHelp.HelpTextEmpty | src/plugins/get_help.rs:20-24 | With no plugins registered, the reply is exactly "[PluginList]". |
| GetHelp.HelpTextExact | src/plugins/get_help.rs:20-24 | When the last description does not end in whitespace, the reply is the heading plus every entry in list order. Only the final blank line is removed. |
| GetHelp.CollectHelp | src/plugins/get_help.rs:20-24 | The `push_str` loop followed by `trim` gives exactly the folded help text. |
| GetHelp.HelpReply | src/plugins/get_help.rs:25-27 | The reply is a private message to the sender. Its message decodes to one text segment holding the help text. |
| GetHelp.HelpPlugin.constructor | src/plugins/get_help.rs:14-16 | The plugin shares the manager's own list. |
| GetHelp.HelpPlugin.OnPrivateMessage | src/plugins/get_help.rs:18-29 | A reply is made exactly when the raw text starts with "/help". It lists the plugins registered at that moment, and the list is only read. |
| GetHelp.HelpPlugin.OnUpdate | src/plugins/get_help.rs:35-42 | Handles at most one message per call. A receive error returns without a reply. |
| AiChat.SelectPatch | src/plugins/ai_chat.rs:382-414 | Each of the eight patches is chosen exactly under its condition, with anger checked first. Pleasure > 40 gives shy, excited or happy. Pleasure < -30 (not angry) gives depressed or arrogant. Otherwise the result is bored or neutral. |
| AiChat.InitialMood | src/plugins/ai_chat.rs:93-97 | The starting state (0, 0, 0) selects the neutral patch. |
| AiChat.GetPrompt | src/plugins/ai_chat.rs:358-366 | The prompt is the core text, the scenario, the format rules and the patch that the mood selects, in that order, with a line break after each of the first three. |
| AiChat.PromptDependsOnlyOnMood | src/plugins/ai_chat.rs:358-366 | States that select the same patch give the same prompt. |
| AiChat.WrappingAdd | src/plugins/ai_chat.rs:210-212 | `i8 +=` in a release build: the sum modulo 256, and the exact sum when it fits. |
| AiChat.ShiftMoodAsWritten | src/plugins/ai_chat.rs:210-212 | Each component becomes its sum with the delta, wrapped modulo 256. |
| AiChat.WrappingFlipsMood | src/plugins/ai_chat.rs:210-212 | Pleasure 120 plus 15 wraps to -121, turning Happy into Arrogant. |
| AiChat.SaturatingAdd | src/plugins/ai_chat.rs:210-212 | Gives the exact sum when it fits, and otherwise the nearest end of the `i8` range. It never moves against the delta's sign. |
| AiChat.ShiftMood | src/plugins/ai_chat.rs:210-212 | No component moves against the sign of its delta. |
| AiChat.ShiftMoodAgreesInRange | src/plugins/ai_chat.rs:210-212 | Where no sum overflows, the corrected shift equals the one as written. |
| AiChat.MoodTextInjective | src/plugins/ai_chat.rs:314-324 | The "/mood" report determines the mood state it was made from. |
| AiChat.TextReply | src/plugins/ai_chat.rs:285-290 | Each reply is a private message to the sender whose message decodes to one text segment. |
| AiChat.MoodCommandNeverChats | src/plugins/ai_chat.rs:302-314 | "/mood" is a command, so it never reaches the chat path. |
| AiChat.Remember | src/plugins/ai_chat.rs:250-259 | After a successful exchange the history ends with the user message and then the reply. It is the appended history minus its two oldest entries when that exceeds 30. A bound of 30 is preserved. |
| AiChat.NewSession | src/plugins/ai_chat.rs:340-346 | A new session has the user's id and an empty history. |
| AiChat.SendPieces | src/plugins/ai_chat.rs:284-291 | One text message per ';'-separated piece of the response, empty pieces included, in order. |
| AiChat.AiChatPlugin.constructor | src/plugins/ai_chat.rs:93-106 | Without saved history: no sessions, the neutral starting mood, and a reply count of 0. |
| AiChat.AiChatPlugin.GetUserStateById | src/plugins/ai_chat.rs:153-160 | Returns the existing session unchanged, or inserts an empty one for that id and changes nothing else. Repeated calls return the same session. |
| AiChat.AiChatPlugin.Chat | src/plugins/ai_chat.rs:216-261 | On a reply, the exchange is remembered and the reply returned. On an error, the history is unchanged and the error text returned. Other users' sessions are untouched. |
| AiChat.AiChatPlugin.ChangeMood | src/plugins/ai_chat.rs:162-214 | The user's session exists afterwards. With a suggestion the mood moves by it; otherwise the mood is unchanged and the call fails. |
| AiChat.AiChatPlugin.OnPrivateMessage | src/plugins/ai_chat.rs:265-292 | The reply count alternates 0, 1, 0, and the mood changes only on every second reply, by the corrected saturating shift rather than the wrapping `+=` (see Findings). The sender's history is updated as `Remember` says. Only the sender's session can be added, and other users' sessions are untouched. The requests are exactly one text per ';'-piece of the response. |
| AiChat.AiChatPlugin.OnUpdate | src/plugins/ai_chat.rs:297-330 | The chat path runs exactly for text not starting with "/" and with a token. "/mood" gets exactly one report of the current mood. Nothing else is sent. |
| Ints.WrapU64 | src/core/action.rs:28-30 | `fetch_add` keeps the counter modulo 2^64 and is the identity below 2^64. |
| Ints.NatToStringRoundTrip | src/core/action.rs:31 | `to_string` of an unsigned key is a non-empty digit string that parses back to the key. |
| Ints.NatToStringDistinct | src/core/action.rs:28-31 | Different keys give different echo strings. |
| Ints.IntToStringInjective | src/plugins/ai_chat.rs:271 | Different user ids give different session keys. |
| RustStr.Trim | src/plugins/get_help.rs:24 | The result neither starts nor ends with Unicode whitespace. |
| RustStr.TrimIsSlice | src/plugins/get_help.rs:24 | `trim` gives a slice of its input with only whitespace before and after it. |
| RustStr.Split | src/plugins/ai_chat.rs:284 | Gives at least one piece, and no piece contains ';'. |
| RustStr.JoinSplit | src/plugins/ai_chat.rs:284 | Splitting loses nothing: rejoining the pieces with ';' gives the reply back. |
| RustStr.SplitJoin | src/plugins/ai_chat.rs:284 | Pieces without ';' are exactly what splitting their join gives. |

## Left out

- Network and socket I/O are not modelled: the axum router, the listener, and `ws.recv`/`ws.send`. Frames arrive as already-parsed JSON or as "malformed"; JSON text is never parsed.
- `NapcatAdapter::run` and `connect` only start the server, so they are left out.
- Concurrency is not modelled: `tokio::select!` fairness, `spawn` and locks. Each loop iteration is one sequential step, and the interleaving is an input (the arms of `HandleSocket`, or steps between `Issue` and `Await`).
- The window between a request's send and its table insert is not modelled. In the source, a response arriving in that window is lost and the caller times out.
- The real 10-second timer is not modelled: a time-out is `Await` called before a response arrived.
- Action.ActionManager.Issue: freshness of the echo key is proved only for the first 2^64 requests. After the counter wraps, a key can displace an older entry, and the model says so without ruling it out.
- The `Err("Serde Error")` branch of `request` is not modelled. Serialising two strings and a JSON value cannot fail, so the branch is unreachable.
- Floating-point JSON numbers are not modelled: numbers are integers.
- Serde's alternative input forms are not modelled: numeric variant indices and the sequence form of structs.
- Dropping ports is not modelled: a hub's receiver count only grows.
- `SignalHub::recv` returning `None` when every sender is gone is not modelled. An empty queue is not ready.
- Event.EventManager.HandleEvent: a lag is reported as `Panicked`. The panic unwinding itself, and the spawned task ending, are not modelled beyond `Run` stopping.
- `Default` for `EventHubs` and `EventNexus` is not modelled. Each calls `new` or builds fresh hubs, which the constructors already describe.
- `types/message_type.rs`, imported by the event types and the action manager, is not part of this model. The segment type of `utils/parser/message_parser.rs` stands in for it.
- The older event types in `event_parser.rs` are the newer ones without `Notice`. The model reuses the newer message and meta structures for them.
- Where the source and its design description disagree, the code is followed. An unknown nested "message_type" or "meta_event_type" fails to decode rather than giving Other.
- Logging (`tracing`) is not modelled. `on_plugin_load` is modelled only as the plugin's `on_load`.
- Plugin.PluginManager.HandlePlugin: the `on_load` inside each spawned `run` is `PluginType.Run`'s first hook. So every plugin is loaded twice, and the model records both calls separately.
- Plugin.PluginManager.Run: `handle_plugin` is spawned in the source. Plugins added between that spawn and its snapshot are not modelled.
- The help plugin's and the chat plugin's `on_update` subscribe fresh ports on every call (src/plugins/ai_chat.rs:298-299 for the chat plugin), so messages arriving between two calls are never seen. Their receive result is an input here (`AiChat.Wakeup` for the chat plugin).
- The chat plugin's language-model calls (`chat`, `extract_with_chat_history`) are not modelled. Replies, errors and mood suggestions are inputs.
- The prompts given to the language model are not modelled, apart from `get_prompt`'s structure: the nickname prompt, the mood-sync prompt and the ten-entry history window.
- The clock formatting in `on_private_message` is not modelled. The time stamp is a parameter.
- History persistence is not modelled: `save_history`, `read_history` and the heartbeat-triggered save. The constructor starts with no saved sessions.
- The `try_read().unwrap()` panics in `change_mood` and `save_history` are not modelled.
- Shared session handles (`Arc<RwLock<ChatSession>>`) are not modelled. A user's session is that user's map entry, so an update through a handle is an update of the entry.
- Debug-build overflow panics are not modelled: the mood arithmetic is treated as a release build (see Findings).
- AiChat.AiChatPlugin.ChangeMood: uses the corrected saturating shift, not the wrapping `+=` as written (see Findings).
- AiChat.AiChatPlugin.OnPrivateMessage: its mood update is `ChangeMood`'s corrected saturating shift, so it does not reproduce the wrap-around of src/plugins/ai_chat.rs:210-212 (see Findings); where no sum overflows the two agree (`AiChat.ShiftMoodAgreesInRange`).
- The personality's prompt texts are not modelled: they are free parameters of `Personality`.
- The old channel and bootstrap layer (client, bot, api, channels), configuration, `main`, `lib` and `prelude` are outside this model.

## Findings

| source | as written | input that shows it | evidently intended | confidence | as-written member | corrected member |
|---|---|---|---|---|---|---|
| src/plugins/ai_chat.rs:210-212 | each mood component is an `i8` and is updated by `+=`. In a release build a sum outside -128..127 wraps around. | pleasure 120 plus a suggested +15 wraps to -121, and the selected patch goes from Happy to Arrogant. | the component should stop at the end of its `i8` range, -128..127. The mood-sync prompt documents -100..100, but nothing in the code enforces that range, so the model takes the type's ends. A positive change should never lower the mood. | high, by proof; not executed | AiChat.WrappingFlipsMood | AiChat.ShiftMood |
