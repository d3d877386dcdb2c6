# Chat-seeding bot: admission, delivery and text

A Dafny model of the bot that seeds chat rooms of live matches, and proofs of what its stateful protocols guarantee
over whole runs. Match events pass a dedup check, counters and a bot-ratio check against an expiring store, become a
message of a persona, pass a quality filter and reach the room and its WebSocket clients.

Check everything with `dafny verify dfyconfig.toml --resource-limit 2000000`.

## How it is modelled

- **Store.** `ExpiringStore` gives every Redis command as a function on a store with an explicit clock in
  milliseconds; `Redis.RedisClient` has one method per command, proved against it. A key is dead from the instant of
  its expiry on. Keys are values with components; `Keys.TextInjective` proves that two of them never share a text, so
  indexing the store by components loses nothing. md5 and the text of an hour are injective, colon-free functions.
- **Sequential code** (`RateLimits`, `ContextStore`, `Personas`, `Quality`, `Prematch`, `PolicyChecker`,
  `EventHandler`) is classes on
  one such client, whose methods follow the code command by command. Each is tied to a function on the store, and the
  claims are lemmas about every finite list of operations on it, time passing in between included.
- **Interleavings** are state machines with one step per store command, lock section or channel operation: `Pipeline`
  for the workers, `Hub` for the WebSocket clients, and `PrematchRaces` for handlers that overlap polls. A list of
  labels is one schedule; the claims hold for every list. The claims about workers are in `CheckBounds`, `MatchLimits`,
  `Replay` and `ChatWindow`, and the runs that reach their bounds in `Overshoot`, `BoundsReached` and `RatioCap`.
  `Verdicts` proves that the sequential `CheckPolicy`, `Delivery` and `EventHandler` that `handleEvent`, `HubServer` that
  the methods of the hub, and `PrematchRaces` that a poll with its handler are the schedules in which nobody else runs.
- **Failures.** A command may fail before or after it ran. Where the code stops, a worker gives up (`GiveUp`); where it
  goes on, so does the worker (`Falter`): after a failed EXPIRE, with an unread chat past the ratio check, and behind
  the publication. The sequential classes take the outcome of every command as a parameter. No result assumes that
  commands succeed unless its statement says so.
- **Rooms.** A match identifier is taken to be trimmed. Messages are pushed to `room-` and the identifier, and the
  policy reads the same room unless the identifier starts with `room-` itself (`PolicyChecker.SameRoomExactly`); the
  results that tie pushes to that check leave such identifiers out.
- **Text** (`Renderer`, `LlmJson`, `Generator`, the normaliser of `Quality`) works on sequences of characters with the
  string functions of `Strings`.
- **Inputs.** Random numbers, rolls, outcomes of commands and of publishing, the legacy list of the interleaved
  pipeline, the kill switch and the time commands take are parameters, so the claims hold for all of them.

## Results that differ from what one would expect

- *Hourly limit.* `EXPIRE` takes whole seconds, so the client drops the milliseconds of the duration in
  `ratelimit.go:63-68`. A counter whose first pass is neither on a whole second nor in the last second of the hour
  lapses inside its hour. `RateLimits.ReachesExactly` says when; `HourBound` proves the limit when the first pass
  reaches the end of the hour, and twice the limit always; `HourOvershoot` gives, for every other first pass, a run that
  passes twice as often as configured. With an exact client (`Milliseconds`) the limit always holds.
- *Bot ratio.* LPUSH and LTRIM are separate commands, so a check may read more than the 50 messages that are kept. The
  cap is `max(4, floor((n + 1) * ratio))` for the `n` messages that the check read (`ChatWindow.WindowBound`), which is
  the cap of 50 when no more were read (`ChatWindow.FiftyReadWindow`). `RatioCap.CapIsLiftedExactly` says for which `n`
  some run of a single worker exceeds the cap of 50: exactly those of 51 to 200 with a higher cap, as long as the cap of
  50 is below 50. A message that passes because the chat could not be read counts with the ungated ones.
- *Object recovery.* An object in a code fence that is never closed is lost exactly when a further fence stands
  before or inside it (`LlmJson.ObjectRecovery`); `LlmJson.FencedTextIsLost` is such an object.
- *Templates.* Closing braces in names do no harm, nor do opening braces in the name that is replaced last. The name of
  the player, in a template of its placeholder alone, is expanded again exactly when it contains a placeholder that is
  replaced later (`Renderer.PlayerNameSurvives`), as for a player called `{{minute}}`
  (`Renderer.BracedNameIsExpandedAgain`).
- *Rejected events.* The dedup mark and the type counter are written before the later checks, so an event they reject
  is spent all the same: it is not considered again for a day, and the type counter has counted it
  (`Verdicts.RejectionIsNotFree`).
- *Unnamed leagues.* An event of an unknown league passes the static checks, but not once it is enriched from a daily
  record that names no competition either (`Policy.IncidentIsSeeded`).
- *Lost counts.* The code ignores a failed INCR behind a publication, so the bound per lifetime of the match counter
  grows by the counts lost in that lifetime (`MatchLimits.MatchOvershoot`), and by nothing else
  (`MatchLimits.LostExactly`). `BoundsReached.MatchBoundIsReached` gives, for every number of workers and of lost counts,
  a run that sends that many messages.
- *Unread chat, unknown repeats.* A chat that cannot be read lets the message pass without a ratio check
  (`Verdicts.AdmittedExactly`), and a repeat passes when it cannot be looked up or the first message could not be saved
  (`Quality.RepeatPassesExactly`).
- *Overlapping bursts.* The poller does not wait for a handler. Every poll before the first marker may start a burst of
  five (`PrematchRaces.OverlapsLand`); none begins after it (`PrematchRaces.NoBurstAfterFirst`).
- *Overshoot.* The bound of `CheckBounds.TypeOvershoot` is reached for every number of workers
  (`Overshoot.OvershootIsReached`), that of the hour for a limit of one (`BoundsReached.HourlyBoundIsReached`).

## Model

| member | source | states |
|---|---|---|
| Renderer.Render | internal/usecase/template/renderer.go:19-65 | For every template of text without opening braces and placeholders, and every match whose rendered names but the last have none, the chain of replacements ends in the simultaneous substitution |
| Renderer.ChainIsSimultaneous | internal/usecase/template/renderer.go:37-63 | Replacing one placeholder after the other equals looking every placeholder of the original template up once, for any table whose values but the last have no opening braces |
| Renderer.FillOne | internal/usecase/template/renderer.go:38-63 | One `ReplaceAll` changes exactly the placeholders of that name, and leaves a well-formed template when the value has no opening brace |
| Renderer.WithEvent | internal/usecase/template/renderer.go:36-63 | With an event each of the thirteen placeholders gets exactly its value and every other one survives |
| Renderer.WithoutEvents | internal/usecase/template/renderer.go:30-34 | Without events only the two team names are replaced |
| Renderer.NamesDecide | internal/usecase/template/renderer.go:22-63 | The values of a match are such a table exactly when the names that are rendered, except the last one replaced, have no opening braces |
| Renderer.ChainKeepsExactly | internal/usecase/template/renderer.go:38-63 | A text stays as it is under the rest of the chain exactly when none of the placeholders still to come occurs in it |
| Renderer.PlayerNameSurvives | internal/usecase/template/renderer.go:37-63 | In a template of that placeholder alone, a player's name with any braces is rendered as the simultaneous substitution does exactly when it contains none of the placeholders replaced after it |
| Renderer.BracedNameIsExpandedAgain | internal/usecase/template/renderer.go:37-63 | For every match with a player called `{{minute}}` the name is rendered as the minute |
| LlmJson.NormalizeLLMJSON | internal/adapter/vllm/gateway.go:453-473 | Computes the normal form the recovery theorems are about |
| LlmJson.StripFence | internal/adapter/vllm/gateway.go:455-466 | The fence branch: opening fence, tag and everything from the last fence on are removed |
| LlmJson.BracedExactly | internal/adapter/vllm/gateway.go:467-471 | A text in which a closing brace follows an opening one is cut from its first opening to its last closing brace, any other is kept |
| LlmJson.TaggedExactly | internal/adapter/vllm/gateway.go:458-460 | The tag of a fence is recognised in any case |
| LlmJson.PlainReply | internal/adapter/vllm/gateway.go:453-473 | A reply in plain text, with neither a fence at its start nor an opening brace, is only trimmed |
| LlmJson.FencedReply | internal/adapter/vllm/gateway.go:455-466 | A plain reply in a closed fence without a tag comes back as it is |
| LlmJson.ObjectRecovery | internal/adapter/vllm/gateway.go:453-473 | An object wrapped in brace-free text comes back exactly, if and only if no unclosed opening fence is followed by another fence before or inside the object |
| LlmJson.FenceInsideIsLost | internal/adapter/vllm/gateway.go:455-466 | Every object with a fence in its text is lost in a json fence that is never closed |
| LlmJson.TryRepairLLMJSON | internal/adapter/vllm/gateway.go:134-149 | Computes the repaired text and reports exactly whether it changed anything |
| LlmJson.RepairIsStable | internal/adapter/vllm/gateway.go:134-149 | Repairing twice is repairing once; the trimmed text stays a prefix and only closing braces are added |
| LlmJson.TruncatedObjectIsRepaired | internal/adapter/vllm/gateway.go:108-111 | A reply cut anywhere inside a nested object is normalised to a prefix of it and repaired to a word with balanced braces |
| Keys.TextInjective | internal/adapter/redis/dedup.go:24 | Two keys of any families have the same text only if they are the same key, even when identifiers contain colons |
| Keys.MinuteInjective | internal/usecase/seeding/policy_checker.go:84 | The text `minute+addTime` determines both numbers |
| Redis.RedisClient.Incr | internal/adapter/redis/client.go:54-56 | INCR starts a dead counter at one without expiry, keeps the expiry of a live one and refuses text |
| Redis.RedisClient.Expire | internal/adapter/redis/client.go:57-59 | EXPIRE moves the expiry of a live key by the duration the client keeps, and removes the key for a non-positive one |
| Redis.RedisClient.SetNX | internal/adapter/redis/client.go:63-65 | SETNX sets only a dead key and tells whether it did |
| Redis.RedisClient.Get | internal/adapter/redis/client.go:35-37 | GET gives the value of a live key and nothing for a dead one |
| Redis.RedisClient.SetWithTTL | internal/adapter/redis/client.go:45-47 | SET replaces value and expiry; without a positive duration the key stays |
| Redis.RedisClient.LPush | internal/adapter/redis/context_store.go:262-267 | LPUSH puts an element in front, keeps the expiry of a live list, starts one without expiry, and is refused on other values |
| Redis.RedisClient.LRange | internal/adapter/redis/context_store.go:207-216 | LRANGE gives the first elements of a live list, nothing for a dead key, and an error on other values |
| ExpiringStore.ExpireExactly | internal/adapter/redis/client.go:57-59 | A live key lives on for exactly a positive time and is removed otherwise; a dead one stays dead |
| ExpiringStore.TakeLease | internal/adapter/redis/dedup.go:23-30 | Setting a key only when it is dead keeps all such settings apart by their durations |
| RateLimits.TypeLimit | internal/adapter/redis/ratelimit.go:113-131 | Every event type has a limit between one and three |
| RateLimits.RateLimit.GetCounter | internal/adapter/redis/ratelimit.go:133-147 | A missing counter is zero; a failed read or a value that is not a number is an error |
| RateLimits.RateLimit.IncrementCounter | internal/adapter/redis/ratelimit.go:148-160 | Only the increment that creates a counter sets its expiry; a failed EXPIRE is not an error, a failed INCR is |
| RateLimits.RateLimit.CheckEventTypeLimit | internal/adapter/redis/ratelimit.go:23-42 | Reads, blocks at the limit, otherwise increments, for every outcome of the three commands |
| RateLimits.RateLimit.CheckHourlyEventLimit | internal/adapter/redis/ratelimit.go:44-74 | The same on the counter of the current hour, which is set to expire at the end of that hour |
| RateLimits.RateLimit.CheckMatchLimit | internal/adapter/redis/ratelimit.go:92-111 | Passes below the limit (100 when not positive) and changes nothing |
| RateLimits.RateLimit.IncrTotalMessages | internal/adapter/redis/ratelimit.go:162-165 | Counts a message with a day's expiry on the first one |
| RateLimits.GateExactly | internal/adapter/redis/ratelimit.go:23-42 | A counting check passes exactly when its commands succeed below the limit, blocks exactly at the limit, counts one, keeps a live expiry, and leaves every other key alone |
| RateLimits.TypeLifetimeBound | internal/adapter/redis/ratelimit.go:23-42 | In every sequential run one lifetime of an event-type counter admits at most its limit, whatever commands fail |
| RateLimits.TypeWindowBound | internal/adapter/redis/ratelimit.go:23-42 | Any interval of 24 hours, ends included, admits at most twice the limit, also when EXPIRE fails |
| RateLimits.TypeBoundsReached | internal/adapter/redis/ratelimit.go:23-42 | For every event type some run reaches both bounds: a full lifetime at once and the next one a day later |
| RateLimits.TypeRun | internal/adapter/redis/ratelimit.go:148-160 | The invariant behind both: lifetimes hold at most the limit and start at least a day apart |
| RateLimits.HourBound | internal/adapter/redis/ratelimit.go:44-74 | Passes per match and hour stay within the configured maximum when the expiry set by the first pass reaches the end of the hour, and within twice of it always |
| RateLimits.ReachesExactly | internal/adapter/redis/ratelimit.go:63-68 | The expiry reaches the end of the hour exactly for an exact client, on a whole second, or in the last second |
| RateLimits.HourOvershoot | internal/adapter/redis/ratelimit.go:44-74 | For every first pass whose expiry falls short some run passes twice as often as configured in that hour |
| Events.MapSingleMatch | internal/adapter/kafka/mapper.go:121-157 | An ended match gives no events, any other one event per incident in order |
| Events.MapMultipleMatches | internal/adapter/kafka/mapper.go:101-119 | A batch gives the events of its running matches in order |
| Events.IsEndedMatch | internal/adapter/kafka/mapper.go:159-193 | A match has ended exactly when its status is 8 or it has an incident of type 12 |
| Events.MappedExactly | internal/adapter/kafka/mapper.go:121-157 | Every event of a running match carries the fields of the incident in its place, scores default to zero, and no team is set |
| Events.LeagueExactly | internal/adapter/kafka/mapper.go:195-205 | The league is what stands before the first underscore of the trimmed identifier, in capitals, and unknown when that is empty |
| Events.EnrichedTeams | internal/usecase/seeding/event_handler.go:161-186 | Enrichment keeps a team and a known league; otherwise the short name goes before the name, and the competition's name before its identifier |
| Events.SignatureDetermines | internal/usecase/seeding/policy_checker.go:227-246 | For names without a bar the joined signature determines every field it is made of, names up to case and white space around them |
| Events.SameKeyExactly | internal/usecase/seeding/policy_checker.go:227-246 | For names without a bar two events have the same dedup key if and only if they are the same incident up to case and white space around the names |
| Events.SameIncidentSameKey | internal/usecase/seeding/policy_checker.go:227-246 | The same incident has the same dedup key whatever its names contain |
| Events.RespelledPlayer | internal/usecase/seeding/policy_checker.go:229-241 | An incident that spells its player in another case, or with blanks, tabs or line breaks around the name, has the same dedup key |
| Events.KeyIsStable | internal/usecase/seeding/event_handler.go:161-186 | Neither the time of mapping nor the enrichment from the daily store enters the dedup key |
| Events.Redelivery | internal/adapter/kafka/mapper.go:121-157 | A batch mapped again at another time and enriched differently gives the same dedup keys position by position |
| Policy.IncidentIsSeeded | internal/usecase/seeding/policy_checker.go:147-225 | A mapped and enriched incident passes the static checks exactly when it is not of the four noisy types, names the players its type needs, and its league is known or named by the daily record |
| Policy.AdmissibleExactly | internal/usecase/seeding/policy_checker.go:50-82 | What an event needs to reach the store commands: no kill switch, a league, a seedable type, its players and a roll under its weight |
| Policy.WeightingExactly | internal/usecase/seeding/policy_checker.go:249-286 | The share of rolls with which each seedable type passes |
| Policy.BlocksExactly | internal/usecase/seeding/policy_checker.go:288-321 | Blocks always for a ratio that is not positive, without users from three bots on, never below five messages with a user, and otherwise exactly when `bots + 1 > ratio * (messages + 1)` |
| Policy.ExceedsProjectedBotRatio | internal/usecase/seeding/policy_checker.go:288-321 | Blocks exactly by the counts of bots and users: non-positive ratio, more than three bots without users, or the projected ratio in a window of five or more |
| Policy.PassedIsCapped | internal/usecase/seeding/policy_checker.go:303-320 | A message that passes leaves at most `max(4, floor((n + 1) * ratio))` bots among the n messages checked and itself |
| Policy.PushedWindow | internal/adapter/redis/context_store.go:262-274 | A pushed message raises the bots of the trimmed window by at most itself |
| CheckBounds.TypeOvershoot | internal/adapter/redis/ratelimit.go:23-42 | In every interleaving of n workers, whatever commands fail, the event-type counter and the increments pending on it stay within limit + n - 1 |
| CheckBounds.HourlyOvershoot | internal/adapter/redis/ratelimit.go:44-74 | The same for the counter of every hour |
| CheckBounds.CountersAreNumbers | internal/adapter/redis/ratelimit.go:133-160 | In every interleaving every counter in the store is a positive number |
| Overshoot.OvershootIsReached | internal/adapter/redis/ratelimit.go:23-42 | For every N some interleaving brings the red-card counter to limit + N - 1 |
| MatchLimits.MatchOvershoot | internal/usecase/seeding/event_handler.go:207-369 | In every interleaving of n workers the messages for a match, sent or shadowed, that fall in one lifetime of its counter are at most limit + n - 1, plus the counts lost in that lifetime |
| MatchLimits.MatchLimitWithoutLosses | internal/usecase/seeding/event_handler.go:207-369 | When no count is lost in a lifetime, whatever else fails, its messages are at most limit + n - 1, and for a single worker at most the limit |
| MatchLimits.LostExactly | internal/adapter/redis/ratelimit.go:148-165 | In every interleaving a count is lost exactly when INCR of the match counter fails behind a message, and in the lifetime it falls in |
| BoundsReached.MatchBoundIsReached | internal/usecase/seeding/event_handler.go:207-369 | For all n and k some interleaving of n workers loses k counts in one lifetime and sends limit + n - 1 + k messages in it; a single worker sends limit + k |
| BoundsReached.HourlyBoundIsReached | internal/adapter/redis/ratelimit.go:44-74 | With one event per hour, for every n some interleaving brings the counter of an hour to limit + n - 1 |
| Replay.TicketsRun | internal/usecase/seeding/policy_checker.go:84-93 | Every dedup acceptance is acted on by at most one worker and leads to at most one publication |
| Replay.ReplaySafety | internal/usecase/seeding/policy_checker.go:84-93 | In every interleaving two messages with the same dedup key, sent or shadowed, come from acceptances of their own events at least 24 hours apart |
| Replay.SameIncidentApart | internal/usecase/seeding/policy_checker.go:84-93 | The same for two messages about the same incident, whose names may differ in case and in the white space around them |
| Replay.RedeliveredBatch | internal/usecase/seeding/event_handler.go:81-109 | The same for one incident of a batch that is delivered twice, mapped at any time and enriched in any way |
| ChatWindow.WindowBound | internal/usecase/seeding/policy_checker.go:128-143 | In every interleaving, right after a gated push and ever after, the window of 50 holds at most the cap of the messages its check read plus the other bot messages pushed since |
| ChatWindow.SingleWorkerWindow | internal/usecase/seeding/policy_checker.go:128-143 | With one worker only ungated bot messages since its last ratio check exceed the cap |
| ChatWindow.FiftyReadWindow | internal/adapter/redis/context_store.go:269-274 | When that check read at most the 50 messages that are kept, the cap is the one of 50 |
| ChatWindow.LookIsCapped | internal/adapter/redis/context_store.go:202-226 | Whether the primary or the legacy list is read, a message that passes fits under the cap of the number of messages read |
| RatioCap.CapIsLiftedExactly | internal/usecase/seeding/policy_checker.go:128-143 | For every n and ratio some single-worker run, whose last check read n messages, exceeds the cap of 50 by its own messages exactly when n is 51 to 200, the cap of n is higher, and the cap of 50 is below 50 |
| RatioCap.SixteenthBot | internal/usecase/seeding/policy_checker.go:318-320 | At a ratio of 0.3 the cap of 50 is fifteen, and some run with 53 messages read leaves a sixteenth bot |
| PolicyChecker.PolicyChecker.CheckPolicy | internal/usecase/seeding/policy_checker.go:46-146 | Whatever commands fail, the calls in order leave the store and give the verdict of a pipeline worker that runs alone and reads the same chat |
| PolicyChecker.PolicyChecker.IsDuplicateEvent | internal/adapter/redis/dedup.go:23-30 | An event is a duplicate exactly when its key is alive, and is remembered for a day otherwise |
| PolicyChecker.TypeAlone | internal/usecase/seeding/policy_checker.go:96-143 | The store commands of the three checks, run without interruption and failing in any way, are the checks |
| PolicyChecker.WindowSeen | internal/usecase/seeding/policy_checker.go:128-134 | The window that `GetRecentChatWindow` gives for a match is the one a pipeline worker reads |
| PolicyChecker.PushAlone | internal/adapter/redis/context_store.go:262-274 | The push to the room of a match is, in the room the check reads, the LPUSH and LTRIM of the pipeline with nothing in between |
| PolicyChecker.SameRoomExactly | internal/usecase/seeding/policy_checker.go:129-132 | The room the check reads is the one messages are pushed to exactly when the identifier does not start with `room-` |
| Verdicts.RulingIsAnInterleaving | internal/usecase/seeding/event_handler.go:192-218 | The verdict of a worker alone, under any failures, is one interleaving of the pipeline |
| Verdicts.AdmittedExactly | internal/usecase/seeding/policy_checker.go:46-146 | An event is admitted exactly when it is admissible and new, no deciding command fails, its three counters are below their limits and the ratio is kept or could not be read, all in the store as it stood before |
| Verdicts.AdmittedInRuns | internal/usecase/seeding/policy_checker.go:46-146 | The same after every interleaving, without assuming anything about the counters |
| Verdicts.VerdictOnStore | internal/usecase/seeding/policy_checker.go:46-146 | The verdict of `CheckPolicy` as an equivalence on the store it finds, with the window that the context store reads and no ratio check when it reads none |
| Verdicts.RejectionIsNotFree | internal/usecase/seeding/policy_checker.go:84-126 | A new admissible event is remembered for a day and uses up a place of its type even when a later check rejects it |
| Delivery.DeliveredExactly | internal/usecase/seeding/event_handler.go:334-372 | Behind the checks a message is abandoned without a trace, or leaves one publication, shadowed or not, its chat newest first and at most 50 long, and a count with a day's expiry, each up to the command that fails |
| Delivery.CountedForADay | internal/adapter/redis/ratelimit.go:148-165 | A count adds one to a live match counter and its expiry stays; a new counter stands at one for 24 hours |
| Delivery.HandledInRuns | internal/usecase/seeding/event_handler.go:207-372 | After every interleaving, an event handled without interruption is heard exactly when it is admitted and not abandoned, with one publication, its chat and one count; otherwise chats, publications and match counter stay |
| Delivery.HandlingIsAnInterleaving | internal/usecase/seeding/event_handler.go:207-372 | Handling an event from its arrival to its end, under any failures, is one interleaving of the pipeline |
| EventHandler.EventHandler.HandleEvent | internal/usecase/seeding/event_handler.go:199-372 | The calls in order leave the store of the verdict on the enriched event, and behind it the push and the count exactly when it passed, or announces a match and skips the checks, and was not abandoned |
| EventHandler.HandlerAgrees | internal/usecase/seeding/event_handler.go:207-372 | The code and an uninterrupted worker agree on whether the event is heard, on the chat and on the match counter, wherever the push or the count fails |
| ContextStore.ContextStore.PushChatMessage | internal/adapter/redis/context_store.go:252-285 | LPUSH, LTRIM and EXPIRE on both lists, in their order, up to the first command that fails |
| ContextStore.PushedRoom | internal/adapter/redis/context_store.go:252-285 | A push puts the message in front of both lists, keeps the newest 50, and keeps them for six hours from now |
| ContextStore.PartlyPushed | internal/adapter/redis/context_store.go:252-285 | However far a push gets, both keys hold lists that are not empty, and the primary one lasts as long as before, or six hours once its EXPIRE has run |
| ContextStore.ContextStore.GetRecentChatWindow | internal/adapter/redis/context_store.go:202-226 | Reads the newest messages of the primary list, or of the legacy list when that gives none; nothing when a read fails |
| ContextStore.WindowIsRecent | internal/adapter/redis/context_store.go:202-285 | In every run of complete pushes a window is the newest messages, 50 at most, pushed to the room since it was last silent for six hours |
| Hub.BufferIsRecent | internal/transport/http/handler/websocket.go:201-207 | In every interleaving the buffer is the last min(500, n) messages appended |
| Hub.NoGap | internal/transport/http/handler/websocket.go:96-116 | From 500 before a client's snapshot on, every message of a room it asked for was replayed, is about to be, was broadcast to it, is under way or was dropped |
| Hub.AtMostTwice | internal/transport/http/handler/websocket.go:96-116 | No message reaches a client more than once by replay and once by broadcast, and none it is not subscribed to |
| Hub.QuietMeansReceived | internal/transport/http/handler/websocket.go:201-234 | When all messages are delivered and the replay is done, a client has every such message once or twice |
| Hub.DroppedOnFullChannel | internal/transport/http/handler/websocket.go:209-213 | Only a send on a full channel drops a message |
| Hub.InvRun | internal/transport/http/handler/websocket.go:201-247 | The invariant of all interleavings: each message is in one place, and the copies of each client follow from its registration and snapshot |
| HubServer.Server.QueueBroadcast | internal/transport/http/handler/websocket.go:201-214 | Keeps the newest 500 messages and sends unless the channel is full; peers are untouched |
| HubServer.Server.HandleBroadcast | internal/transport/http/handler/websocket.go:217-247 | One copy to every subscribed client whose write succeeds; those whose write fails are removed, all others stay |
| HubServer.Server.Connect | internal/transport/http/handler/websocket.go:80-116 | A new client is sent exactly the buffered messages of its rooms, in order |
| HubServer.ConnectedIsSent | internal/transport/http/handler/websocket.go:80-116 | A client that asked for no room is sent the whole buffer, any other what its one room is sent |
| HubServer.SubscribedOne | internal/transport/http/handler/websocket.go:249-261 | A client of some rooms is sent a message exactly when its room is among them |
| HubServer.SubscribedAppend | internal/transport/http/handler/websocket.go:103-109 | What a client is sent of two lists is what it is sent of each, in order |
| HubServer.BroadcastReaches | internal/transport/http/handler/websocket.go:217-247 | A broadcast adds one frame for each client of all rooms or of the message's room, removes those it fails on, and leaves every other client alone |
| HubServer.ReplayedInFull | internal/transport/http/handler/websocket.go:103-116 | In every interleaving the replayed frames are those of `Connect` for the same buffer |
| HubServer.QueueAlone | internal/transport/http/handler/websocket.go:201-214 | Append and send of the interleaved hub with nothing in between are `queueBroadcast` |
| HubServer.BroadcastAlone | internal/transport/http/handler/websocket.go:217-247 | Receive, deliver and the removal of dead clients with nothing in between are one turn of `handleBroadcast` |
| HubServer.ConnectAlone | internal/transport/http/handler/websocket.go:80-116 | Registration, snapshot and replay with nothing in between are `Connect` |
| HubServer.ServerIsAnInterleaving | internal/transport/http/handler/websocket.go:80-247 | Every run of undisturbed calls of the server is one interleaving of the hub |
| Weights.PickWeightedRandom | internal/usecase/seeding/persona_selector.go:124-148 | Picks the index whose cumulative weight the random number falls under; the fall-through is dead |
| Weights.PickByPriority | internal/usecase/template/loader.go:172-195 | The same on priorities, uniform for a zero total, a panic for a negative one |
| Weights.ExactWeighting | internal/usecase/seeding/persona_selector.go:135-146 | The number of random values that select an index equals its weight |
| Weights.ZeroNeverChosen | internal/usecase/template/loader.go:185-192 | An index of weight zero is never chosen |
| Personas.PersonaSelector.SelectPersona | internal/usecase/seeding/persona_selector.go:34-108 | Chooses by weight among the personas that are eligible, off cooldown, not the last one and of positive score, and remembers the choice as far as the writes succeed; fails when a needed read fails; otherwise falls back without a trace |
| Personas.SelectsExactly | internal/usecase/seeding/persona_selector.go:34-108 | When a selection has no type, when it fails, when it chooses a candidate, and that it leaves no trace otherwise |
| Personas.CandidateExactly | internal/usecase/seeding/persona_selector.go:61-84 | A candidate is meant for the event, off cooldown, not the last persona and of positive score |
| Personas.ScoreExactly | internal/usecase/seeding/persona_selector.go:150-188 | What each tone is worth for each type and sentiment, and a late goal for every tone, compared with a plain persona |
| Personas.RememberedExactly | internal/usecase/seeding/persona_selector.go:97-105 | A selection rests its persona for exactly its cooldown, 30 seconds by default, and is the last of its match for exactly a day, each unless its write fails |
| Personas.SelectPersonaAllowReuse | internal/usecase/seeding/persona_selector.go:203-228 | Chooses by raised score among the eligible personas, and none only when there is none |
| Personas.ReusableExactly | internal/usecase/seeding/persona_selector.go:203-228 | With reuse every persona meant for the event takes part, with its score or with one if that is less |
| Personas.FallbackOf | internal/usecase/seeding/persona_selector.go:190-200 | A fallback persona is known to be off cooldown, and there is none only when every other cooldown runs or cannot be read |
| Personas.CandidatesArePositive | internal/usecase/seeding/persona_selector.go:75-80 | The candidates handed to the picker pass every filter and have a positive total |
| Personas.ShareOfCandidate | internal/usecase/seeding/persona_selector.go:97-107 | Every candidate is selected and remembered by exactly as many rolls as its score |
| Personas.CooldownIsKept | internal/adapter/redis/persona_state.go:22-40 | In every sequential run two main-path selections of a persona, in any matches, are at least its cooldown apart, if the cooldown of the first was saved |
| Personas.NeverTwiceInARow | internal/adapter/redis/persona_state.go:62-81 | Consecutive main-path selections for a match within a day differ, whatever fallbacks and replies come between, if the first was noted |
| Templates.CheckConditions | internal/usecase/template/loader.go:101-125 | The minute first, the score only when the minute holds, a panic on two values that are not numbers |
| Templates.ConditionsHoldExactly | internal/usecase/template/loader.go:101-125 | Conditions hold exactly when neither panics and both numbers lie within the truncated bounds that are given |
| Templates.FilteredExactly | internal/usecase/template/loader.go:57-77 | One mismatch filters a template out, and an empty field matches everything |
| Templates.CandidatesExactly | internal/usecase/template/loader.go:57-85 | The candidates are those not filtered out whose conditions hold, and the choice panics exactly when some template that gets that far panics |
| Templates.NormalizedTypeExactly | internal/usecase/template/loader.go:142-150 | Event types are compared in capitals, with underscores for hyphens and blanks, and all upcoming ones are equal |
| Templates.TruncateExactly | internal/usecase/template/loader.go:107-119 | Bounds lose their fraction towards zero |
| Templates.PickBest | internal/usecase/template/loader.go:152-170 | For every random choice a candidate of the highest priority |
| Templates.TemplateLoader.GetMatchingTemplates | internal/usecase/template/loader.go:44-99 | Unless a condition panics: nothing exactly when no cached template passes all filters, otherwise one that passes, of the highest priority outside prematch, and in prematch by weight, by chance for a total of zero, a panic for a negative one |
| Quality.NormalizeMessageForHash | internal/usecase/seeding/quality_filter.go:103-121 | Computes the normal form |
| Quality.NormalizerIsIdempotent | internal/usecase/seeding/quality_filter.go:103-121 | Normalising twice is normalising once |
| Quality.InsertedCharacter | internal/usecase/seeding/quality_filter.go:103-121 | A digit or an emoji inserted anywhere does not change the normal form |
| Quality.NormalFormKeepsEssence | internal/usecase/seeding/quality_filter.go:103-121 | The normal form loses nothing but digits, emoji and white space, so texts that differ in anything else keep different normal forms |
| Quality.GapsAreEqual | internal/usecase/seeding/quality_filter.go:117-119 | Texts that differ only in how much white space stands between two parts have the same normal form |
| Quality.OnlyGapsCollapse | internal/usecase/seeding/quality_filter.go:119 | Any other character stays, and keeps the gaps on its two sides apart |
| Quality.ConsistentExactly | internal/usecase/seeding/quality_filter.go:69-93 | Goals, red cards and penalties need one of their keywords, and no other event does |
| Quality.QualityFilter.Check | internal/usecase/seeding/quality_filter.go:28-67 | The verdicts in their order, and the hash remembered exactly for accepted messages of running matches, whatever of the two commands fails |
| Quality.PassesExactly | internal/usecase/seeding/quality_filter.go:28-67 | A message passes exactly when its length lies within the bounds, no banned word occurs, it fits its event, and before a match or unless its normal form is remembered |
| Quality.CheckLeaves | internal/usecase/seeding/quality_filter.go:48-64 | Only a message that passes in a running match is remembered, for the dedup time |
| Quality.NoEarlyRepeat | internal/usecase/seeding/quality_filter.go:50-64 | In every sequential run an accepted message that was saved and a later accepted repeat that was looked up are at least the dedup time apart, and there are no such two without a positive one |
| Quality.RepeatPassesExactly | internal/usecase/seeding/quality_filter.go:50-64 | After an accepted message that was looked up, its repeat passes exactly when it cannot be looked up, the first was not saved, or a positive dedup time is over |
| Generator.FallbackNames | internal/usecase/seeding/message_generator.go:200-232 | Fallback texts of goals and cards hold the player and the minute, those of substitutions the two players in their order |
| Generator.TeamsNamed | internal/usecase/seeding/message_generator.go:234-248 | The text is put behind the teams that have a short name, the home team first, and stays as it is when none has |
| Generator.FallbackIsConsistent | internal/usecase/seeding/message_generator.go:200-248 | For every player, minute and teams the fallback text of a goal, red card or penalty passes the consistency check |
| Prematch.PrematchPoller.Handle | internal/usecase/seeding/prematch_handler.go:96-202 | The burst loop runs its rounds until five are done or the kick-off has passed |
| Prematch.PrematchPoller.PollMatch | internal/worker/prematch_poller.go:98-142 | Starts a burst only in the prematch phase, for a marked match only when its chat window is empty, never when one of the two cannot be read, and marks a handled burst |
| Prematch.PollStartsExactly | internal/worker/prematch_poller.go:98-142 | A poll starts a burst exactly within 30 minutes before the kick-off, for a match that is found, and for a marked one when its chat can be read and is empty |
| Prematch.PhaseExactly | internal/worker/prematch_poller.go:158-174 | The phases on the clock: 30 minutes up to the kick-off, 110 minutes behind it |
| Prematch.PollMarksExactly | internal/worker/prematch_poller.go:127-142 | Behind a burst the match is marked for two hours, and the marker is as it was when that write fails |
| Prematch.NoBurstAfterDone | internal/worker/prematch_poller.go:98-142 | Over all polls that wait for their handler, whatever commands fail, each burst publishes at most five, and none follows one that kept a message in the chat and was marked |
| Prematch.AtMostOneBurst | internal/worker/prematch_poller.go:98-142 | When no write fails, at most one burst lands a message, at most five are published, and a burst is retried only after one that landed none |
| Prematch.FiveLand | internal/worker/prematch_poller.go:98-142 | That bound is reached by one poll within half an hour before the kick-off |
| PrematchRaces.NoBurstAfterFirst | internal/worker/prematch_poller.go:127-142 | In every interleaving of polls and handlers no burst begins after the first marker behind a burst that kept a message, and at most five messages are published for each begun before |
| PrematchRaces.PollIsAnInterleaving | internal/worker/prematch_poller.go:127-142 | A poll that waits for its handler is the interleaving in which nothing else happens |
| PrematchRaces.OverlapsLand | internal/worker/prematch_poller.go:127-142 | For every n some interleaving begins n bursts before that marker and publishes five messages in each |
| Prematch.RoundsEffect | internal/usecase/seeding/prematch_handler.go:96-202 | A burst that has kept a message leaves a chat that lasts six hours from its start |
| Prematch.BurstLands | internal/usecase/seeding/prematch_handler.go:96-202 | A burst that the kick-off does not stop publishes every message whose publication succeeds, and no burst any other |
| Prematch.StoppedIsLate | internal/usecase/seeding/prematch_handler.go:97-102 | A burst stops early only a whole minute after the kick-off, since the remaining minutes are truncated |
| Prematch.StopsExactly | internal/usecase/seeding/prematch_handler.go:97-102 | Each round stops the burst exactly from a minute past the kick-off on |
| Prematch.BurstPauses | internal/usecase/seeding/prematch_handler.go:104-196 | A burst takes the work of its messages and ten seconds behind each but the last |
| Prematch.EmptyBurstIsRetried | internal/worker/prematch_poller.go:107-119 | After a burst that published nothing, a poll that can read marker and chat starts again exactly while the prematch phase lasts |

## Left out

- HTTP routes, WebSocket framing and deadlines, MQTT, Kafka sessions, SQL and the calls to the language model: input and output only.
- JSON decoding of batches, messages, templates and personas: the model starts from the decoded values.
- The Redis and Go client libraries are not part of this model; what is used of them is that a key lives until its expiry and that EXPIRE takes whole seconds.
- The expiry of chat lists in `Pipeline`: a list may vanish at any time instead (`RoomLapse`), and the legacy list is any list; the six hours are in `ContextStore`.
- Prematch.PrematchPoller.PollMatch: one match at a time, with the handler run to its end before the next poll; `PrematchRaces` lets them overlap, and the loop over all matches is left out.
- PrematchRaces.NoBurstAfterFirst: a poll reads marker and chat at one instant.
- BoundsReached.HourlyBoundIsReached: for one event per hour; no run is given for higher limits, where the limits per event type come first.
- EventHandler.HandlerAgrees: for identifiers that do not start with `room-`, as the checks read another room for those, and for events that are checked; no incident is mapped to one that announces a match.
- Hub.NoGap: for a client whose writes succeed and for the rooms of its registration; a room added later may miss messages.
- Simultaneous writes of replay and broadcaster on one connection, which the socket library does not allow.
- Lower and upper case are those of ASCII; the Unicode symbol tables are a parameter of the normaliser.
- Bot ratios are exact reals and weights hundredths instead of floats.
- The rest of `handleEvent`: match state, events list, autoscaler, shadow-ban lookup and database only matter as the outcome of delivery.
- `sanitizeLLMText`, `diversifyPrematchText`, prompts, sentiment and intent tables, the kill-switch store and the stubs would only add easy members.
