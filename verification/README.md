# django-websocket-gateway: a verified model

This project models the gateway broker (`gateway/hub.go`, `gateway/redis.go`, `gateway/client.go`),
the reconnecting browser client (`client.js`) and the lazily built Redis client (`publish.py`), and
proves properties of all their runs. `dafny verify dfyconfig.toml` checks everything.

## How the model is laid out

- `ChannelNames`, `Publisher`: channel names as the gateway makes and checks them, and the names that
  `revocation.py` publishes on.
- `RedisModel`, `HubModel`: refcounts and the hub's handlers as functions on values. The identity of a connection is a type parameter, so the same functions specify the classes.
- `HubInvariant`, `HubRelation`, `ServingOrder`: what every handler keeps, the plain relation the hub
  refines, and independence from the iteration order of Go maps.
- `GatewaySystem`, `SystemInvariant`: the step relation that interleaves hub, read loop, write pumps and
  posted unregister requests, and the invariant of its runs.
- `Effects`, `Pumps`: references independent of the handlers: what every action does to one connection,
  and what a pump has come to, read off the run. Over runs they give every signal and every frame.
- `Guarantees`, `Wire`, `Revocation`, `Erasure`: what the runs guarantee: to a connection, about the
  channels subscribed at Redis, about revokes, and about one connection's influence on the others.
- `Connections`, `Subscriber`, `Broker`: the classes `Client`, `RedisSubscriber` and `Hub`, whose
  methods are proved equal to those functions. Their loops take members in arbitrary order.
- `Progress`, `GatewayProgress`: the shared mutex and the bounded queues, for deadlock freedom, and the
  proof that every action of the gateway is a run of that system.
- `ReconnectModel`, `BrowserHistory`, `Reconnect`: `WSClient` as a state machine, what it has come to read
  off its events, and the class.
- `EndToEnd`: gateway and browser client together, and a message on its whole way.
- `LazyClient`: `_get_client` under any interleaving of any number of threads, as a state machine and as
  a method that runs against other threads.

Redis commands succeed or fail as the parameter `fail` says (the channels whose command fails during
a handler; a handler issues at most one per channel). A failed command leaves the wire as it was. A
message carries the outcome of parsing it as a control message, and a number (`seqNo`) in the order
Redis delivered it. The fields of `History`, the sequences `arrived`, `processed` and `audience`, the
per-channel command `log`, and `waits`, `unauthorized` and `thrown` of the browser client are history:
no modelled branch reads them. A connection is posted to `register` once, when it is created; its
other requests can be served in any order relative to each other. A send buffer holds 64 frames,
`incoming` 256 messages, `register` and `unregister` 8 requests, `subscribe` and `unsubscribe` 32.

Messages arrive on any channel at any time (`Arrive`), whether or not the gateway is subscribed to it:
a message may still be under way after an UNSUBSCRIBE. What holds of all arrivals holds of those Redis
makes. Where being subscribed matters, `Revocation.Publish` lets a message arrive only if the channel is
on the wire. A script passed to a method (`turns`, `requests`, `others`) says how the other goroutines or
threads interleave with it, and is arbitrary.

## Where the code departs from its documentation

The model follows the code.

- `docs/docs/logout.md` says a revoke reaches every connection the user has open and closes it with
  4401. From the moment the hub takes it, that holds exactly under the conditions of
  `Revocation.RevokeReachesAllExactlyWhen`. It misses a connection that unsubscribed from its control
  channel (`Revocation.RevokeCanMiss`: `handleClientUnsubscribe` accepts any name), and one whose
  registration is still queued (`Revocation.RevokeMissesWaiting`); one that was told another code before
  is closed with that code. From its publication on, it is also lost while the control channel is off the
  wire, after a failed SUBSCRIBE: `Revocation.PublishedRevoke`, `Revocation.RevokeMissesDeaf`.
- `ReadPump` posts an unregister request when it ends, for the hub to clean up (`client.go:70`). `Run`
  selects among its queues in any order, so the request may be served before the registration; it is
  then used up, and the connection stays registered afterwards:
  `Guarantees.UnregisterRemovesExactlyWhen`, `Guarantees.UnregisterOvertakes`.
- `docs/docs/javascript-client.md` says `close()` disables reconnecting. A reconnect timer that is
  already pending still opens one socket: `ReconnectModel.CloseIsFinalExactlyWhen`,
  `ReconnectModel.CloseMissesTimer`.
- The same page and the header of `client.js` cap the delay at 30 s. The backoff is capped, and a random
  part of up to a second comes on top, so the delay exceeds 30 s exactly from the sixth failure in a row
  on unless the random part is 0: `ReconnectModel.DelayExceedsCapExactlyWhen`,
  `ReconnectModel.DelayExceedsCap`.
- `docs/docs/channels.md` says the clients on a channel share one Redis SUBSCRIBE. When that one fails it
  is not repeated while anybody stays on the channel. While no UNSUBSCRIBE failed, a channel in use is on
  the wire exactly if its count is 1: `Wire.WireExactlyWhen`, `Wire.NoRetryWhileInUse`,
  `Wire.FailedSubscribeIsDeaf`.

## Model

| member | source | states |
|---|---|---|
| ChannelNames.ParseFormat | gateway/hub.go:348-350 | reading a formatted number back gives the number |
| ChannelNames.FormatUserIDInjective | gateway/hub.go:348-350 | different user ids, negative ones included, print differently |
| ChannelNames.ControlNames | gateway/hub.go:175-176 | the two control names are reserved, address one session or one user each, and never coincide |
| ChannelNames.NamesAccepted | gateway/hub.go:31 | well-formed names are exactly 1 to 128 letters, digits, colons, hyphens and underscores, told by their ASCII codes |
| ChannelNames.UserIDIsDecimal | gateway/hub.go:348-350 | a string is the printed id exactly if it is the id in decimal notation without leading zeros |
| Publisher.PublisherAddressesTarget | websocket_gateway/revocation.py:46-71 | the names the publisher builds are the control channels of that session and that user, and a request without a session key publishes nothing |
| RedisModel.CountIsBalance | gateway/redis.go:96-136 | with all commands succeeding the stored count is the floored balance of calls and the wire alternates SUBSCRIBE, UNSUBSCRIBE, starting with SUBSCRIBE |
| RedisModel.CountsUnderFailure | gateway/redis.go:96-136 | under any failures counts are never negative, a counted channel is on the wire, and while no UNSUBSCRIBE fails nothing else is |
| RedisModel.FailedUnsubscribeLeavesWire | gateway/redis.go:129-134 | a failed UNSUBSCRIBE leaves an uncounted channel on the wire |
| RedisModel.ErrorsExactlyWhen | gateway/redis.go:99-134 | Subscribe fails exactly after Close or when the command it issues fails, Unsubscribe exactly when its command fails |
| RedisModel.ClosedForGood | gateway/redis.go:99-121 | after Close no sequence of calls changes a count or issues a command |
| HubInvariant.StepIndexed | gateway/hub.go:155-279 | every request keeps `channels`, `subscribed`, `clients` and `userClients` in agreement, with no empty bucket |
| HubInvariant.AddSubscriptionIndexed | gateway/hub.go:236-253 | joining a channel keeps the four indexes in agreement |
| HubInvariant.UnregisterIndexed | gateway/hub.go:179-200 | removing a client keeps the four indexes in agreement |
| HubInvariant.StepCounts | gateway/hub.go:236-269 | every request keeps the refcounts in step with the channel index and the commands for each channel alternating, whatever commands fail |
| HubInvariant.StepCapped | gateway/hub.go:156-165 | every request keeps the total and the per-user cap |
| HubRelation.IndexesFromRelation | gateway/hub.go:99-101 | both indexes are determined by who is registered and who is on what |
| HubRelation.StepRefines | gateway/hub.go:155-279 | each handler is one set operation on the relation of clients and channels |
| HubRelation.RegisterRefines | gateway/hub.go:155-177 | registration adds the client and its two control channels, or nothing if a cap refuses it |
| HubRelation.UnregisterRefines | gateway/hub.go:179-200 | unregistering removes the client and all its pairs, and nothing else |
| HubRelation.ByChannel | gateway/hub.go:99-100 | the buckets of `channels` together have as many members as the relation has pairs |
| HubRelation.ByUser | gateway/hub.go:101 | the users' buckets together hold every client once |
| HubRelation.DoubleCounting | gateway/hub.go:99-101 | memberships summed by channel equal memberships summed by client, and user buckets hold every client once |
| ServingOrder.DeliveryOrderIrrelevant | gateway/hub.go:276-278 | every order of the delivery loop ends in the same state, the pointwise one |
| ServingOrder.SignalOrderIrrelevant | gateway/hub.go:300-303 | every order of the revocation loop ends in the same state |
| ServingOrder.RemovalOrderIrrelevant | gateway/hub.go:190-192 | every order of leaving channels ends in the same indexes, counts and commands |
| GatewaySystem.WakeOk | gateway/client.go:122-157 | a turn of the write pump keeps the connection's invariant and moves frames without losing any |
| SystemInvariant.ActSound | gateway/hub.go:136-153 | every action of the gateway keeps the whole invariant |
| SystemInvariant.EveryRunSound | gateway/hub.go:136-153 | the invariant holds after every run from the start |
| SystemInvariant.OthersUntouched | gateway/hub.go:155-226 | a request changes no connection but the one it names |
| Effects.StepEffect | gateway/hub.go:155-341 | what any request does to any connection: the frame it is offered, queued if fewer than 64 wait; else 4408 and one unregister post; the reason it is ended with; whether its queue is closed; and nothing else |
| Effects.EverythingPostedAndQueued | gateway/hub.go:136-153 | over a run, a connection's signals and frames, error answers included, are exactly what the served requests meant for it, in order |
| Effects.SignalsOfAConnection | gateway/hub.go:155-200 | all signals of a connection: none while waiting; one 4429 if refused; else 4401 once per revoke taken as a member, 4408s, and the plain stop last, exactly if removed |
| Effects.ControlMessage | gateway/hub.go:291-303 | a message on a control channel queues no frame; it signals exactly the members, exactly if it is a revoke; any other, or one that does not parse, leaves the hub as it is |
| Effects.RemovalTellsToStop | gateway/hub.go:193-197 | removing a registered client posts the stop without a code, unless an earlier reason waits |
| Pumps.PumpFollowsWakes | gateway/client.go:122-157 | a pump runs exactly if all its wake-ups were frames it could write, acted exactly if a signal woke it, then on the first reason, and took one frame per frame wake-up |
| Pumps.SignalIsActedOn | gateway/client.go:130-135 | taking the signal acts on the first reason the hub posted and ends the pump |
| Pumps.ClosedMeansDrained | gateway/client.go:137-140 | the pump finds its queue closed only after the removal and with everything queued taken |
| Pumps.PumpWakesExactlyWhen | gateway/client.go:122-146 | which cases of the select are ready, in every run |
| Guarantees.OrderAndLoss | gateway/hub.go:271-317 | what a connection receives is an ordered, duplicate-free, unaltered part of what Redis delivered; the rest of what was routed to it is lost, and loss means removal is posted or done |
| Guarantees.KeptIsOrdered | gateway/redis.go:162-171 | the messages kept for a connection are exactly the routed ones not lost, in order |
| Guarantees.LossExactlyWhenFull | gateway/hub.go:306-317 | a message is lost exactly when the send queue is full, and then exactly one signal, 4408, and one unregister request are posted |
| Guarantees.QueueProtocol | gateway/hub.go:343-346 | in any run no send on a closed queue; a live connection's queue is open, a removed one's was closed exactly once, a refused one's never |
| Guarantees.FirstSignalWins | gateway/hub.go:333-341 | the pump acts only on the first reason ever posted, once |
| Guarantees.SignalsGrow | gateway/hub.go:333-341 | in any continuation the signals posted to a connection so far stay the first ones |
| Guarantees.FirstReasonDecides | gateway/client.go:130-135 | once a reason was posted, in any future the pump can act on it while it runs, and acts on no other |
| Guarantees.RemovedPumpCanStop | gateway/hub.go:193-198 | the pump of a removed or refused connection, while it runs, has a signal to stop on |
| Guarantees.StoppedForGood | gateway/client.go:130-135 | a stopped pump writes nothing and acts on nothing in any continuation |
| Guarantees.GoneForGood | gateway/hub.go:179-200 | a removed or refused connection gets no further signal or frame in any continuation |
| Guarantees.UnregisterRemovesExactlyWhen | gateway/client.go:68-72 | serving an unregister request removes the connection, for good, exactly when its registration was served before; else it has no effect |
| Guarantees.UnregisterOvertakes | gateway/hub.go:136-153 | requests after which a connection whose read pump ended is registered with nothing under way to remove it |
| Guarantees.RefusedOnlyGets4429 | gateway/hub.go:156-165 | a connection refused by a cap only ever gets 4429 and never a frame |
| Guarantees.IdentityFixed | gateway/main.go:113-117 | user, session and allow-list never change |
| Guarantees.AllowListSafety | gateway/hub.go:202-215 | every frame is an error or a message on a well-formed, unreserved channel of the allow-list given at acceptance |
| Revocation.OnReserved | gateway/hub.go:174-176 | a client is on a reserved channel exactly if it is its own and no unsubscribe named it |
| Revocation.UserMembers | gateway/hub.go:176 | the members of a user's control channel are exactly that user's clients that did not leave it |
| Revocation.SessionMembers | gateway/hub.go:175 | the members of a session's control channel are exactly that session's clients that did not leave it |
| Revocation.RevokeUser | websocket_gateway/revocation.py:71 | a user revoke leaves a signal for exactly the members, first one wins, and changes nothing else |
| Revocation.RevokeSession | websocket_gateway/revocation.py:51 | a session revoke leaves a signal for exactly the members and changes nothing else |
| Revocation.RevokeReachesAllExactlyWhen | docs/docs/logout.md:41-59 | when the hub takes a revoke, it leaves all open connections of the user or session told to stop, or told 4401, exactly when each of them had been told that before or, told nothing, is registered and did not unsubscribe |
| Revocation.RevokedConnectionCloses4401 | docs/docs/logout.md:56-59 | an open connection that was told nothing and is listening can take the signal while its pump runs, has acted exactly if it took it, and then on 4401, in any future of the revoke |
| Revocation.RevokeCanMiss | gateway/hub.go:217-226 | a registered client that unsubscribed from its control channel is not signalled |
| Revocation.RevokeMissesWaiting | gateway/main.go:105-117 | an accepted connection whose registration is queued is not signalled and ends up registered |
| Revocation.PublishedRevoke | websocket_gateway/revocation.py:71 | a published revoke is lost if the control channel is off the wire; otherwise it is the message with the number it got and, when taken, reaches all exactly under the condition above |
| Revocation.RevokeMissesDeaf | gateway/hub.go:248-252 | a run after which publishing a revoke changes nothing though the user's client is registered and never unsubscribed |
| Guarantees.HubIsRelation | gateway/hub.go:155-279 | after every run all four indexes are those of the relation that folding the served requests defines |
| Wire.CountsAgree | gateway/redis.go:96-136 | in every run a channel is counted iff the hub has it, with 1 and on the wire, or 0 if its last SUBSCRIBE failed |
| Wire.CommandsFollowUse | docs/docs/channels.md:101-103 | in every run an action issues a command for a channel exactly when it gets its first user or loses its last, and none after Close; a failed SUBSCRIBE leaves the count at 0 |
| Wire.WireExactlyWhen | docs/docs/channels.md:101-103 | while no UNSUBSCRIBE for it failed, a channel is on the wire exactly if it is counted, that is if somebody uses it and its last SUBSCRIBE succeeded |
| Wire.WireIsChannels | gateway/hub.go:228-269 | with no failing command the wire carries exactly the hub's channels |
| Wire.NoRetryWhileInUse | gateway/hub.go:248-252 | over any run in which somebody stays on a channel, no command is issued for it and its count does not change |
| Wire.DeafWhileInUse | gateway/hub.go:248-252 | a channel off the wire stays off it as long as anybody is on the channel, and one on it stays on |
| Wire.FailedSubscribeIsDeaf | gateway/redis.go:106-109 | a run after which a channel is in use, counted 0 and off the wire |
| Guarantees.CapsAndTotals | gateway/hub.go:155-200 | in every run the caps hold and the totals agree |
| Erasure.NonInterference | gateway/hub.go:155-279 | with caps off, deleting all one connection did from a run leaves a run, in the same state for everybody else |
| Erasure.DepartedLeavesNoTrace | gateway/hub.go:179-200 | once that connection left, clients, channels and users are the very same |
| Erasure.DepartedLeavesNoCount | gateway/redis.go:96-136 | and so are the refcounts if no command fails |
| Connections.Client.SignalDisconnect | gateway/hub.go:336-341 | a one-slot mailbox in which the first reason stays |
| Connections.Client.TrySend | gateway/hub.go:307-309 | appends exactly if fewer than 64 frames wait |
| Connections.Client.Push | gateway/hub.go:306-312 | queues the frame, or records the loss and signals 4408 when 64 frames wait |
| Connections.Client.Wake | gateway/client.go:122-157 | one turn of the select is the modelled wake-up |
| Connections.Client.WritePump | gateway/client.go:113-158 | under any interleaving with the hub the loop runs its wake-ups until one ends it, and taken plus queued frames are those before plus those pushed while there was room, in order |
| Connections.TurnsConserve | gateway/client.go:136-146 | in any interleaving of the pump with the hub no frame is lost, doubled or reordered between queue and socket |
| Connections.TurnTells | gateway/hub.go:193-197 | what each turn tells the connection, with its code, and that only the removal closes the queue |
| Subscriber.RedisSubscriber.Subscribe | gateway/redis.go:96-112 | new counts, command issued and error, in every branch |
| Subscriber.RedisSubscriber.Unsubscribe | gateway/redis.go:116-136 | new counts, command issued and error, in every branch |
| Subscriber.RedisSubscriber.Close | gateway/redis.go:145-155 | the first call closes the subscription and the client and returns the client's error; later calls do and return nothing |
| Subscriber.RedisSubscriber.ReadLoop | gateway/redis.go:162-171 | every message goes, in order, to the callback attached when it arrives, and is dropped if there is none |
| Subscriber.NothingDropped | gateway/main.go:36-37 | with a callback attached before the loop starts and never detached, every message is forwarded once, in order |
| Subscriber.GoesToTheLastAttached | gateway/redis.go:165-168 | a message goes to the callback attached last before it arrived, behind what was forwarded before, and is dropped exactly if that was nil |
| Subscriber.RedisSubscriber.Start | gateway/redis.go:83-92 | spawns the read loop once, however often it is called |
| Broker.StepReady | gateway/hub.go:136-153 | every request keeps the indexes in agreement and the queues in use open |
| Broker.Hub.AddSubscription | gateway/hub.go:236-253 | is the modelled join, with a SUBSCRIBE only for the first member |
| Broker.Hub.RemoveFromChannel | gateway/hub.go:255-269 | is the modelled leave, with an UNSUBSCRIBE only for the last member |
| Broker.Hub.HandleRegister | gateway/hub.go:155-177 | is the modelled registration, both caps included |
| Broker.Hub.HandleUnregister | gateway/hub.go:179-200 | whatever the iteration order, is the pointwise removal |
| Broker.Hub.LeaveChannels | gateway/hub.go:190-192 | the loop over `subscribed` in any order is the simultaneous removal |
| Broker.Hub.HandleClientSubscribe | gateway/hub.go:202-215 | is the modelled subscribe with its two error frames |
| Broker.Hub.HandleClientUnsubscribe | gateway/hub.go:217-226 | is the modelled unsubscribe |
| Broker.Hub.DeliverFrame | gateway/hub.go:306-317 | queues, or signals 4408 and posts an unregister |
| Broker.Hub.DeliverAll | gateway/hub.go:276-278 | the loop in any order is the pointwise delivery, each queue open when used |
| Broker.Hub.DisconnectAll | gateway/hub.go:300-303 | the loop in any order is the pointwise signal |
| Broker.Hub.HandleIncoming | gateway/hub.go:271-304 | forwards on ordinary channels, signals on a control channel only for a revoke |
| Broker.Hub.Serve | gateway/hub.go:136-153 | each case of the select is the modelled step |
| Broker.Hub.Run | gateway/hub.go:136-153 | serves any requests one after another, with any posts of new connections and unregister requests in between, and keeps the invariant |
| Progress.HolderNeverWaits | gateway/redis.go:164-170 | in every reachable state the holder of the mutex can release it at once |
| Progress.SendBlocksExactlyWhenFull | gateway/hub.go:116-120 | in every reachable state a send blocks exactly at 8, 32 or 256 waiting items |
| Progress.WorkShrinks | gateway/redis.go:162-171 | every step that is not an arrival leaves less to do in a well-founded order |
| Progress.StuckOnlyWhenDrained | gateway/hub.go:306-317 | a state without a possible step of the gateway itself is exactly the drained one |
| Progress.EveryScheduleDrains | gateway/hub.go:116-120 | without new arrivals every schedule ends with all five queues empty, nobody blocked on them, the mutex free and the hub in select |
| GatewayProgress.ActionMatches | gateway/hub.go:155-317 | each action of the gateway is a run there, with one entry into the subscriber per call and one unregister request per evicted client; a message makes no call, a registration at most two |
| GatewayProgress.LeaveCalls | gateway/hub.go:190-192 | leaving channels is one Unsubscribe call for each channel left empty |
| GatewayProgress.EveryGatewayDrains | gateway/hub.go:136-153 | whatever run the gateway has behind it, every schedule then works off all that was posted and queued |
| ReconnectModel.StepInv | websocket_gateway/static/websocket_gateway/client.js:43-113 | every event keeps the client's invariant |
| ReconnectModel.OneToken | websocket_gateway/static/websocket_gateway/client.js:71-113 | live sockets plus pending timers are at most one, and one until close() or 4401 |
| ReconnectModel.UnauthorizedIsFinal | websocket_gateway/static/websocket_gateway/client.js:99-104 | after a 4401 close no socket is ever created |
| BrowserHistory.UnauthorizedCloseIsFinal | websocket_gateway/static/websocket_gateway/client.js:100-104 | after a close with code 4401 no socket is created, in any future |
| BrowserHistory.ComesBackExactlyWhen | websocket_gateway/static/websocket_gateway/client.js:98-108 | after a close some future has a new socket exactly if close() was not called and the code is not 4401 |
| BrowserHistory.OneTokenUntilStopped | websocket_gateway/static/websocket_gateway/client.js:98-108 | while the events hold neither close() nor a 4401, exactly one socket is live or one timer pending |
| BrowserHistory.WhatCanHappen | websocket_gateway/static/websocket_gateway/client.js:71-112 | in every run only the last socket can open, err or close, and which of these it can |
| BrowserHistory.ErrorShuts | websocket_gateway/static/websocket_gateway/client.js:110-112 | an error on a socket leaves none connecting or open |
| ReconnectModel.AfterClose | websocket_gateway/static/websocket_gateway/client.js:64-69 | after close() no timer is scheduled, so at most the pending one creates a socket |
| ReconnectModel.CloseIsFinalExactlyWhen | websocket_gateway/static/websocket_gateway/client.js:64-69 | after close() no socket is ever connecting or open again exactly when no timer was pending |
| ReconnectModel.CloseMissesTimer | websocket_gateway/static/websocket_gateway/client.js:98-108 | a run in which a socket is created after close() |
| ReconnectModel.AskedReplay | websocket_gateway/static/websocket_gateway/client.js:74-79 | replaying the set on a fresh socket asks for that set, in its order |
| ReconnectModel.ReplayIsFaithful | websocket_gateway/static/websocket_gateway/client.js:43-79 | on an open socket the frames sent ask for exactly the client's channels, in every run, and no send throws |
| BrowserHistory.ChannelsFollowEdits | websocket_gateway/static/websocket_gateway/client.js:43-59 | in every run a channel is in the set exactly if the last call naming it was subscribe(), or none did and it was given at construction |
| BrowserHistory.OpeningReplays | websocket_gateway/static/websocket_gateway/client.js:74-79 | on opening, one subscribe frame per channel of the set is sent, in order |
| BrowserHistory.OpenSocketFrames | websocket_gateway/static/websocket_gateway/client.js:43-59 | while a socket stays open it is sent one frame per call of subscribe() and unsubscribe(), in order, and nothing else |
| ReconnectModel.TotalWait | websocket_gateway/static/websocket_gateway/client.js:105-107 | bounds on the total of any number of consecutive delays |
| ReconnectModel.BackoffClosedForm | websocket_gateway/static/websocket_gateway/client.js:98-107 | the backoff is min(1000 * 2^n, 30000), each delay lies within a second above it, and the total is bounded |
| BrowserHistory.DelaysFollowEvents | websocket_gateway/static/websocket_gateway/client.js:75-107 | with n reconnecting closes since the last open, counted in the events, the backoff is min(1000 * 2^n, 30000), so 1000 after an open, and each delay its backoff plus the random part drawn |
| ReconnectModel.DelayExceedsCapExactlyWhen | docs/docs/javascript-client.md:71 | a scheduled delay exceeds 30 s exactly when five were scheduled before it since the last open and the random part is positive |
| ReconnectModel.DelayExceedsCap | websocket_gateway/static/websocket_gateway/client.js:105-107 | a run of five failures after which the sixth delay is 30.5 s |
| Reconnect.WSClient.constructor | websocket_gateway/static/websocket_gateway/client.js:19-27 | starts with the set of the given channels and one connecting socket |
| Reconnect.WSClient.Subscribe | websocket_gateway/static/websocket_gateway/client.js:43-48 | is the modelled subscribe |
| Reconnect.WSClient.Unsubscribe | websocket_gateway/static/websocket_gateway/client.js:54-59 | is the modelled unsubscribe |
| Reconnect.WSClient.Close | websocket_gateway/static/websocket_gateway/client.js:64-69 | is the modelled close |
| Reconnect.WSClient.Connect | websocket_gateway/static/websocket_gateway/client.js:71-72 | a fresh socket becomes the current one |
| Reconnect.WSClient.OnOpen | websocket_gateway/static/websocket_gateway/client.js:74-79 | resets the backoff and replays the channels on the current socket |
| Reconnect.WSClient.OnClose | websocket_gateway/static/websocket_gateway/client.js:98-108 | schedules a reconnect or stops, in every branch |
| Reconnect.WSClient.OnError | websocket_gateway/static/websocket_gateway/client.js:110-112 | closes the current socket |
| EndToEnd.CloseCodeDecides | docs/docs/javascript-client.md:68-71 | a pump acts on one of five reasons, and 4401 is the only one on which a browser client that was not closed stays away |
| EndToEnd.RevokedBrowserStaysAway | docs/docs/logout.md:56-59 | from the revoke at the hub, through the pump taking the signal, to a browser client closed with the code acted on, which creates no socket any more |
| EndToEnd.MessageArrives | docs/docs/channels.md:84-103 | a client that connects and subscribes to any allowed, well-formed, unreserved channel is sent what is then published there |
| LazyClient.RunInv | websocket_gateway/publish.py:36-48 | the global never changes once set |
| LazyClient.SingleConstruction | websocket_gateway/publish.py:36-48 | at most one client is built and every thread that returns gets it |
| LazyClient.CachedNeedsNoLock | websocket_gateway/publish.py:43-44 | once a client is cached, a call gets it in three steps, whoever holds the lock |
| LazyClient.PublishModule.GetClient | websocket_gateway/publish.py:36-48 | with any turns of other threads between any two accesses: returns the one client built, raises with the lock released, or waits for a lock another thread holds |

## Left out

- Broker.Hub.Run: serves the requests it is given and stops; cancellation of the context is not modelled.
- Subscriber.RedisSubscriber.ReadLoop: the callback never blocks here; waiting on a full `incoming` is modelled in `GatewaySystem` and `Progress`.
- Revocation.PublishedRevoke: whether Redis passes the message on is decided when it is published, by the commands issued until then; a command that takes effect later than it returns is not modelled.
- Close and the shutdown drain: the subscriber can be closed at any time, but the order of the shutdown steps in `main` is not modelled.
- A hub without a channel manager (`manager == nil`), which only unit tests use.
- ReadPump, the HTTP upgrade, cookies, origins and the auth call: any client may send any request at any time, and a new connection arrives with any user, session and allow-list.
- go-redis and its own buffering and resubscription, the WebSocket library, JSON encoding: commands and writes succeed or fail, and each message carries the outcome of parsing it.
- Time: pings, pong timeouts, the lifetime limit and write timeouts are pump exits that may happen at any moment.
- Integer width: user ids are unbounded integers, of which Go's int64 is a part.
- Message handlers of the browser client (`on`, `onmessage`): a lookup by channel name.
- Logging, connection ids, `/healthz`, configuration, the binary downloader, Django views and signals.
