# Chat server: the hub, its clients' pumps, the persister and the in-memory bus

A chat server runs one goroutine that owns all rooms (the hub), two goroutines per
connection (a read pump and a write pump) joined to the hub by one bounded channel, and one
goroutine that saves accepted messages (the persister). This project models them in two
layers and proves what the design promises of them.

**The machine** (`Machine`). The whole server as one transition system. A step is one atomic
operation of one goroutine: one send, one receive, one change of a map the hub owns, one
save, one read or one close. The hub's handling of an event is many steps, so pumps and the
persister run in the middle of `broadcast`, `disconnect` and `broadcastPresence`, and the
order in which a `range` over a map yields its elements is part of the step. A send on a
closed channel or a second close by the hub's goroutine ends the process: the failure state
`panicked`. A send on a closed channel by a read pump ends that pump only, because the HTTP
server recovers the panics of its handlers; its deferred `Unregister` still runs. The theorems
below are about every run (`Runs`, `Exec`) of this machine from its start, or from every safe
state.

**The objects** (`HubActor`, `Clients`, `Rooms`, `Persister`, `Stores`, `Pumps`, `LocalBus`).
The program's own form: objects whose maps, sets and queues are updated in place, loops that
range over a map while deleting from it. Each hub, persister, pump and bus method is proved to
take a sequence of machine steps and to leave the objects equal to the machine's state after
them; whatever is proved of all runs holds of the objects. The hub and the bus record the
steps in a ghost field `trace`, the persister and the pumps return them. The hub's, the
persister's and the pumps' loops run with everybody else taking arbitrary steps in between
(`Bystanders`); what a hub method does when nobody else moves is stated besides, under `alone`.

The server starts over whatever its table holds (`Config.found`, `Found`): the saves of earlier
runs are rows like any others, and come before every message of the run.

## Main results

- `Safety.OpenChannels`: no send and no close by the hub ever meets a closed channel, every
  room member is connected with an open channel, and no empty room outlives an event, provided
  that the hub takes no join from a client it has dropped.
- `Crash.SafeExactlyWhenPolite`: that proviso is exact. A run keeps the server safe if and
  only if it holds; otherwise the process has panicked or the hub is bound to panic before it
  has told the remaining members of the room (`Crash.DoomedPanics`).
- `Crash.CanPanic`: the proviso does not hold by itself. From every safe state of a running
  server, whatever the depths of the channels, two newcomers can bring the process down.
- `Crash.CanUnwind`, `Crash.UnwindsOnlyWithHistory`: a read pump can come to send on its closed
  channel, if and only if there is a store and a positive limit; that ends one connection only.
- `Delivery.DeliverAllOrDrop`, `Ordering.TotalOrder`, `Backlog.HistoryBeforeLive`,
  `Backlog.NeverTwice`, `JoinReply.HistoryReaches`, `PresencePanel.PresenceAgrees`: what a
  client receives.
- `Provenance.AcceptedAsRead`, `Handshake.OffersAreTaken`: what becomes of what it sends.
- `EventEffect.BroadcastEffect` and `HubActor.Hub.Broadcast`: the exact effect of a message,
  whatever the order of the loops and whatever the others do meanwhile, on the machine and on
  the objects.
- `ColdPath.Conservation`, `ColdPath.DrainedExactly`, `ColdPath.LossReachable`,
  `RecentHistory.HistoryIsLiveTail`: where every accepted message ends up.
- `Progress.EventEnds`, `Teardown.TeardownTerminates`, `Teardown.TakeDown`,
  `ColdPath.DrainTerminates`: every event, connection and shutdown comes to an end.
- `Pumps.ReadPump`, `Pumps.WritePump`, `Persister.Worker.Run`: the loops, under interference.
- `BusMachine.CloseSafety`, `BusMachine.NonInterference`: the bus.

## Where the code and its documentation disagree

The model follows the code.

- `internal/hub/client.go:45-46` calls the hub the sole sender on a client's channel. The
  read pump sends on it too (`internal/hub/client.go:126-128`), and can find it closed
  (`Crash.CanUnwind`). It runs inside the HTTP handler (`internal/web/server.go:136`), so that
  panic is recovered and costs the client its join and its connection; `Crash.UnwindsAlone`
  shows that it costs nobody else anything.
- `chat-architecture.md:151` promises that a panic on one connection does not crash the
  server. `join` does not look at the client set (`internal/hub/hub.go:216-224`), so a client
  that was dropped while its join was on the way makes the hub announce to a closed channel.
  That happens on the hub's own goroutine, where nobody recovers. `Crash` gives the exact
  condition and a run that meets it.
- `chat-architecture.md:145` and `internal/bus/bus.go:2-3` say that the hub broadcasts
  through a `MessageBus`. It delivers directly (`internal/hub/hub.go:258-259`).
- `internal/persist/persist.go:49-51` promises that no accepted message is lost on shutdown.
  `ColdPath.ShutdownDrain` proves it of the messages handed off, if the hub has stopped by
  then; `ColdPath.DrainedExactly` says when it holds, and `ColdPath.LossReachable` that it can
  fail from every state of a running server.
- `MaxRooms` (`internal/config/config.go:40-41`) is never consulted by `join`; no cap on
  rooms is modelled.

## Modules

| module | content |
|---|---|
| `Protocol`, `Storage`, `Queries` | frames, commands, messages; the message table and its query; what the query shows |
| `Machine` | states, steps, runs |
| `Safety`, `Crash`, `Progress` | open channels; when they fail; every event ends |
| `Scenarios`, `Bystanders` | runs built step by step; everybody but one goroutine |
| `Ordering`, `Delivery`, `Backlog`, `JoinReply`, `PresencePanel` | what a client receives |
| `Provenance`, `Handshake` | from the frames read to the messages accepted; the channels into the hub |
| `ColdPath`, `RecentHistory`, `Metrics` | hand-off, persister, history; counters and snapshot |
| `Teardown`, `EventEffect` | the end of a connection; the effect of a whole event |
| `Clients`, `Rooms`, `Persistence`, `HubActor` | the hub and its objects |
| `Stores`, `Persister`, `Pumps` | the stores, the worker, the pump loops |
| `BusMachine`, `LocalBus` | the bus as a machine and as an object |

## Model

| member | source | states |
|---|---|---|
| Safety.OpenChannels | internal/hub/hub.go:114-136 | On every run, from any safe state, in which the hub takes no join from a client it has dropped: no panic of the hub, every room member connected, every channel the hub may still send to or close open, no room empty outside its own deletion |
| Safety.StepSafe | internal/hub/hub.go:270-326 | Each single step of each goroutine keeps that, in the middle of nested disconnects and announcements as well as between events |
| Safety.InitSafe | internal/hub/hub.go:91-108 | The server starts safe |
| Crash.SafeExactlyWhenPolite | internal/hub/hub.go:216-224 | A run ends in a safe state if and only if the hub took no join from a client it had dropped; if it took one, the process has panicked or the hub is doomed to |
| Crash.DroppedJoinDooms | internal/hub/hub.go:216-224 | Taking a join of a dropped client leaves the hub about to announce to that client's closed channel |
| Crash.DoomedStep | internal/hub/hub.go:300-302 | No step of any goroutine rescues a doomed hub; each step of the hub itself panics or uses up one member still to be told |
| Crash.DoomedPanics | internal/hub/hub.go:300-302 | A doomed hub panics before it has taken as many steps as there were members to tell, and until then the panic can be its next step |
| Crash.CanPanic | internal/hub/hub.go:216-224 | From every safe state of a running server, whatever else goes on and whatever the channels' depths, a run in which two newcomers connect, join and talk ends in a panic |
| Crash.PanicFromStart | internal/hub/hub.go:310-326 | In particular such a run exists from the start, under every configuration |
| Crash.CanUnwind | internal/hub/client.go:123-130 | From every safe state of a running server with a store and a positive limit, a run with two newcomers leads a read pump to send on its closed channel; the server stays safe |
| Crash.UnwindsOnlyWithHistory | internal/hub/hub.go:188-191 | Without a store or a positive limit no read pump ever does, on any run |
| Crash.UnwindsAlone | internal/hub/client.go:119-131 | A read pump unwinds when and only when it answers a join of a dropped client with a frame; then the frame and the join are lost, and the hub, the persister and every other connection are as before |
| Crash.UnwoundIsOver | internal/hub/client.go:90-96 | On every continuation nothing comes of such a pump but its `Unregister`: it reads, answers and submits nothing |
| Progress.NeverBlocked | internal/hub/hub.go:274-326 | In the middle of an event the hub always has an enabled step, and the hand-off is dropped only when the queue is full |
| Progress.WorkLowers | internal/hub/hub.go:274-326 | Each step of the nested loops lowers a lexicographic measure |
| Progress.Finish | internal/hub/hub.go:310-326 | From every safe state the hub alone can bring its event to an end, safely, with the message in hand queued if there is room |
| Progress.EventEnds | internal/hub/hub.go:274-326 | However the goroutines interleave, the hub takes at most as many steps in an event as can be read off the state, and is between events once it has taken them all |
| Progress.WorkCosts | internal/hub/hub.go:284-324 | Each step of the nested loops uses up some of that number, and makes no room larger |
| Ordering.TotalOrder | internal/hub/hub.go:245-259 | Two messages that reached two connections reached both in the same order, and messages of one connection reach every receiver in the order its read pump read them |
| Ordering.StepOrdered | internal/hub/client.go:90-107 | Every step keeps each connection's stream in acceptance order and each sender's messages in the order they were read |
| Ordering.RunOrdered | internal/hub/hub.go:127-128 | So does every run, panicking ones included |
| Delivery.DeliverAllOrDrop | internal/hub/hub.go:274-288 | What a client's writer took and its channel holds is exactly the messages due to it; a client that overflowed lacks exactly the last one and is out of the client set between events |
| Delivery.StepDelivered | internal/hub/client.go:68-75 | Every safe step keeps that account, including the half-delivered states in the middle of a broadcast |
| Delivery.OverflowMeansFull | internal/hub/hub.go:276-283 | A client overflows only when a message due to it finds its channel full |
| Backlog.HistoryBeforeLive | internal/hub/client.go:119-131 | Over whatever table the server starts, a history frame precedes, in the client's stream, every message accepted after its join was handled, and holds only older messages |
| Backlog.NeverTwice | internal/hub/hub.go:188-197 | Over whatever table the server starts, no live message behind a history frame is one the history repeated, even for a client that was already in the room |
| Backlog.StepReplayed | internal/hub/client.go:114-118 | Every step keeps both |
| JoinReply.HistoryReaches | internal/hub/client.go:119-131 | If the query of a join finds rows, and the reply meets an open channel with a free slot, then on every continuation the client's stream holds a history frame of that room with the newest rows the table had of it |
| JoinReply.AnswerSends | internal/hub/client.go:123-129 | The reply adds exactly one frame to the stream, the history or an error, or none |
| JoinReply.OutcomeShows | internal/hub/hub.go:188-197 | What a query may find, by places in the table |
| Provenance.AcceptedAsRead | internal/hub/client.go:104-107 | Every accepted message has the room and the text of one message frame of its sender, later messages those of later frames, and its sender's identity and name |
| Handshake.OffersAreTaken | internal/hub/hub.go:156-163 | While the hub runs, what a read pump has offered has been taken by the hub, but for what is still on offer |
| Handshake.GoneMeansOut | internal/hub/hub.go:147-154 | A connection whose read pump has finished is out of the client set, unless the hub has stopped |
| Handshake.OnlyAfterCancel | internal/hub/hub.go:121-122 | The hub stops, and the persister drains and returns, only after the cancellation |
| Handshake.DropMeansFull | internal/hub/hub.go:262-267 | A message is dropped at the hand-off only when the queue is full or the context cancelled |
| PresencePanel.PresenceAgrees | internal/hub/hub.go:294-303 | Between events the latest presence frame of each live room carries, at each place, the display name of one current member, each member once; and each member whose channel had room when it was told holds it as its last presence frame of that room |
| PresencePanel.AnnouncesTheMove | internal/hub/hub.go:216-238 | A new announcement in a room names the client that has just joined it, left it or been disconnected, and says which |
| PresencePanel.StepPanels | internal/hub/hub.go:315-324 | Every step keeps the half-told version of this |
| PresencePanel.MissedMeansFull | internal/hub/hub.go:290-303 | A member misses an announcement only when its channel is full as the hub tells it |
| EventEffect.BroadcastEffect | internal/hub/hub.go:245-288 | However the ranges over members, slow clients and rooms fall, and whatever pumps, persister and newcomers do in between, a message drops exactly the other members whose channel was full at their own turn, reaches exactly the rest, and every room loses exactly the dropped ones and survives iff somebody is left |
| EventEffect.BroadcastAlone | internal/hub/hub.go:274-288 | When nobody interrupts, those are the members whose channel was full beforehand, and the channels hold what they held and the message |
| EventEffect.OverflowingAreDue | internal/hub/hub.go:276-283 | Nobody is dropped for a message it was not to be sent |
| EventEffect.DisconnectEffect | internal/hub/hub.go:310-326 | Whatever everybody else does in between, a disconnect takes exactly one client out of the client set and out of every room, deletes exactly the rooms it had to itself, closes its channel only, and loses or adds no message of anybody |
| EventEffect.WorkThrough | internal/hub/hub.go:284-287 | The invariant that carries both through every interleaving of the loops with the other goroutines |
| ColdPath.Conservation | internal/hub/hub.go:261-267 | Every accepted message is in exactly one of dropped, queued, being saved, attempted or in the hub's hand; the counts add up to the message counter; everything is in acceptance order; the table begins with the very rows it held at the start, and goes on with the successful saves in order |
| ColdPath.StepConserved | internal/persist/persist.go:52-82 | Every step keeps that |
| ColdPath.LeftBehind | internal/persist/persist.go:64-74 | What is never attempted once the persister has returned is exactly what was handed off after that, and what is still in the hub's hand |
| ColdPath.ShutdownDrain | internal/persist/persist.go:49-62 | If the hub had stopped when the drain found the queue empty, every accepted message was dropped at the hand-off or given to `SaveMessage` exactly once, and the queue is empty |
| ColdPath.DrainedExactly | internal/persist/persist.go:49-51 | Once both have returned, every accepted message was dropped at the hand-off or given to `SaveMessage` if and only if nothing was handed off after the persister had returned |
| ColdPath.LateHandOff | internal/hub/hub.go:261-267 | That ordering is needed: a hub still in an event when the persister has returned finishes it, hands its message to a queue nobody reads, and stops, by steps of its own |
| ColdPath.LossReachable | cmd/chat/main.go:89-90 | From every safe state of a running server a message is lost to the shutdown on some run although the queue has room, in which only the persister and the hub move after the cancellation, and no continuation saves it |
| ColdPath.DrainOut | internal/persist/persist.go:65-74 | The persister alone can empty the queue and return |
| ColdPath.LostForGood | internal/persist/persist.go:64-74 | Once both have stopped, no continuation of the run takes anything from that queue |
| ColdPath.DrainTerminates | internal/persist/persist.go:64-74 | Once the hub has stopped, the persister takes at most a fixed number of further steps, in every interleaving |
| ColdPath.DrainNeverStuck | internal/persist/persist.go:52-62 | And until it has returned it has a step to take |
| RecentHistory.HistoryIsLiveTail | internal/store/sqlite.go:112-139 | If the clock never goes back, on every run, with either store and over whatever table the server starts, the history of a room is, by places in the table and in table order, its last `limit` rows, or all if there are fewer, and no row of the room after the first of them is missing; those of the run come in the order of live delivery |
| RecentHistory.RowsChronological | internal/store/sqlite.go:18-26 | The rows of earlier runs and then those of this one have growing ids and times that never go back |
| RecentHistory.NewestAreLast | internal/store/sqlite.go:117 | On rows with growing ids and times that never go back, the newest rows of a room are its last ones |
| RecentHistory.RecentIsTail | internal/store/postgres.go:112-137 | On rows with growing ids and times that never go back, newest first, cut off and reversed is the tail |
| Queries.RecentShows | internal/store/sqlite.go:113-118 | On every table: the query shows rows of the room only, none twice, `limit` of them or all if there are fewer, oldest first, and leaves out none that is newer than one it shows, by time and then id |
| RecentHistory.NewestIsReverse | internal/store/sqlite.go:117 | On such rows the query's order is the reverse of the insertion order |
| Storage.NewestFirstSorts | internal/store/sqlite.go:117 | The query's order puts no row before a newer one and loses and repeats none, on every table |
| Metrics.RatesTelescope | internal/hub/hub.go:131-133 | Wherever the ticks fall, the sampled rates add up to the total at the last tick, and the rest of the counter is the number of messages accepted since, never negative |
| Metrics.StepSampled | internal/hub/hub.go:250 | Every step keeps the counters equal to what the log of accepted messages says |
| Metrics.RoomsReclaimed | internal/hub/hub.go:228-238 | Between events of a run that meets the proviso no room is empty, and none is larger than the client set |
| Metrics.SizesCountPairs | internal/hub/hub.go:330-334 | The room sizes add up to the number of (client, room) pairs |
| HubActor.HeadcountIsPairs | internal/hub/hub.go:330-340 | The same of the member counts that a snapshot lists |
| Teardown.TeardownTerminates | internal/hub/client.go:137-159 | Once the hub has closed a connection's channel, the steps of its write pump and the close, and those of its read pump once the connection is closed, are at most a fixed number, in every interleaving |
| Teardown.StepTakesDown | internal/hub/client.go:82-112 | No step of any goroutine adds to what is left of a closed connection, and each of those steps lowers it |
| Teardown.TeardownNeverStuck | internal/hub/client.go:137-159 | Until writer, connection and reader are all gone, one of their steps is enabled and safe, or the hub is busy with an event that Progress shows to end; the one exception is a join waiting for a running hub |
| Teardown.PendingJoinDooms | internal/hub/client.go:119-131 | The exception is exact: the only step that takes such a connection down dooms the hub |
| Teardown.TakeDown | internal/hub/client.go:77-85 | Every closed connection that has no join under way to a running hub is brought all the way down, safely, by a run of its own pumps and the hub |
| Teardown.ShutDown | internal/hub/hub.go:110-122 | And every closed connection without exception is, by shutting the server down |
| Teardown.LastUnregisterIsNoOp | internal/hub/hub.go:310-313 | The read pump's closing unregister of a dropped client changes nothing in the hub |
| Clients.Client.Enqueue | internal/hub/client.go:68-75 | A send appends, finds the channel full, or panics on a closed channel, `default` or not |
| Clients.Client.Close | internal/hub/hub.go:325 | Closing succeeds once |
| Clients.Client.Receive | internal/hub/client.go:146-149 | A closed channel still yields what it holds, in order |
| Rooms.Room.Add | internal/hub/room.go:19-21 | The member set gains one client, if it was not there |
| Rooms.Room.Remove | internal/hub/room.go:24-26 | The member set loses one client, if it was there |
| Rooms.Room.NameList | internal/hub/room.go:34-40 | As many names as members: at each place the display name of one member, each member once, in some order |
| Persistence.Inbox.constructor | internal/persist/persist.go:28-40 | A depth that is not positive becomes 1 |
| HubActor.Hub.constructor | internal/hub/hub.go:91-108 | A new hub is in step with the machine's start |
| HubActor.Hub.RegisterClient | internal/hub/hub.go:123-124 | Adds the client and stays in step |
| HubActor.Hub.UnregisterClient | internal/hub/hub.go:125-126 | Whatever the others do in between, exactly the effect of DisconnectEffect for a connected client; nothing for any other |
| HubActor.Hub.JoinRoom | internal/hub/hub.go:216-224 | Whatever the others do, panics if and only if the client has been dropped; otherwise adds it to the room, creating it on the first join, and leaves every other room alone; if nobody else moves, one presence frame with the name of each member once is in the channel of every member that had a free slot, and in no other |
| HubActor.Hub.LeaveRoom | internal/hub/hub.go:228-238 | Whatever the others do, takes the client out of one room, which survives iff somebody is left, and no other room changes; if nobody else moves, every remaining member with a free slot, and nobody else, gets the presence frame; a room that does not exist is ignored |
| HubActor.Hub.Broadcast | internal/hub/hub.go:245-268 | Whatever the others do in between, on the objects: the stamped message, who it is due to, that exactly the members whose channel was full at their own turn are dropped, which rooms survive with whom, which channels are closed, what everybody has received, one count more; if nobody else moves, who had a full channel beforehand, what every channel holds, and when the hand-off may drop the message |
| HubActor.Hub.DeliverMessage | internal/hub/hub.go:274-288 | Whatever the others do between its steps, the two loops take machine steps only, and end with every recipient dealt with and every slow client dropped |
| HubActor.Hub.Disconnect | internal/hub/hub.go:310-326 | Whatever the others do between its steps, the loop that deletes from the map it ranges over takes machine steps only, removes the client, and is idempotent |
| HubActor.Hub.BroadcastPresence | internal/hub/hub.go:294-303 | Whatever the others do between its sends, panics if and only if some member's channel is closed, and otherwise has told every member; if nobody else moves, every member that had a free slot has the frame and no other channel has changed |
| HubActor.Hub.Hand | internal/hub/hub.go:261-267 | Never blocks; keeps the message out of the queue only when it is full or the context is cancelled |
| HubActor.Hub.HandleCommand | internal/hub/hub.go:200-211 | Every command takes steps of one machine event; the only panic is a dropped client's join |
| HubActor.Hub.SampleRate | internal/hub/hub.go:131-133 | The rate is the count since the last tick |
| HubActor.Hub.Snapshot | internal/hub/hub.go:330-341 | Each live room once, with its true size, between 1 and the number of connections, and the sizes adding up to the (client, room) pairs |
| Stores.ReverseInPlace | internal/store/sqlite.go:137 | The array ends as the reverse of what it was |
| Stores.CollectOldestFirst | internal/store/sqlite.go:124-138 | All rows oldest first, or a failure as soon as a row cannot be read or the iteration fails, also after the last row |
| Stores.SQLite.SaveMessage | internal/store/sqlite.go:94-108 | On success one row more, under an id above all others, stamped if it had no time; on failure the table is untouched |
| Stores.SQLite.RecentByRoom | internal/store/sqlite.go:112-139 | A failure, or, by their places in the table, the newest rows of the room up to the limit, none left out that is newer, oldest first; a negative limit is no limit |
| Stores.Postgres.SaveMessage | internal/store/postgres.go:96-107 | The same, but the id always comes back with the message, and the row keeps whole microseconds of the time returned |
| Stores.Postgres.RecentByRoom | internal/store/postgres.go:112-137 | The same for every limit that is not negative |
| Persister.Worker.SaveNext | internal/persist/persist.go:78-82 | Takes the head of the queue and gives it to the store, for any queued message: the store gains exactly its row, or nothing if it fails |
| Persister.Worker.Drain | internal/persist/persist.go:65-74 | With everybody else running: gives everything queued at first to the store, in order, and what still arrives, saving all but what the store fails, and ends only when it finds the queue empty |
| Persister.Worker.TakeTurn | internal/persist/persist.go:53-61 | One turn gives exactly the head of the queue to the store, or notices the cancellation and drains |
| Persister.Worker.Run | internal/persist/persist.go:52-62 | With everybody else running: what was queued at first is given to the store in order, one message a turn at least, and saved except where the store fails; it ends only after the cancellation, through the drain, with the queue empty; a turn that notices the cancellation does end it |
| Bystanders.TakenIsAnything | cmd/chat/main.go:87-91 | No behaviour of the other goroutines is left out of the loops' proofs |
| Bystanders.OthersKeepHub | internal/hub/hub.go:66-69 | Whatever the others do leaves the hub's own state alone, closes no channel and keeps the server safe; this is all that the hub's loops know of them |
| Bystanders.OthersKeepSaver | internal/persist/persist.go:42-47 | On every run without its own steps, the persister's queue only grows and nothing else of its state changes |
| Bystanders.OthersKeepWriter | internal/hub/client.go:36-47 | The same for a write pump and its channel, which stays as it is once closed |
| Bystanders.OthersKeepReader | internal/hub/hub.go:156-163 | Nobody moves a read pump but the hub, by taking what it offers |
| Pumps.HandleJoin | internal/hub/client.go:119-131 | With everybody else running: the query finds the newest rows of that room up to the configured limit, or fails, or finds nothing without a store or a positive limit; what is sent is exactly one history frame of that room with those rows, or an error, if the channel has a slot by then, and nothing for an empty history; then the join; the pump panics iff a reply is due and the channel is closed by then, and offers no join in that case |
| Pumps.CommandsStand | internal/hub/client.go:97-110 | A command for each frame that names a room, and, if it is a message, carries text, in order, with the room and the text of the frame; none for any other |
| Pumps.ReadPump | internal/hub/client.go:90-112 | With everybody else running: the commands the machine sees offered have, one for one and in order, the kind, room and text of the frames read that ask for something, up to the first read that fails; unless the hub stops, each is taken by the hub before the next is offered; on its way out, also by a panic, the pump unregisters and is out of the client set |
| Pumps.NumberedInOrder | internal/hub/client.go:97-110 | The messages leave the read pump in the order they were read, as many as message frames, numbered without a gap |
| Pumps.Submit | internal/hub/hub.go:156-163 | A command is taken, given up because the hub has stopped, or still on offer |
| Ordering.PumpGot | internal/hub/client.go:126-128 | No step of either pump, a reply on the client's own channel included, changes the messages of the stream |
| Pumps.WritePump | internal/hub/client.go:137-159 | With everybody else running: what is written is what was received, in order, a frame each time the channel yields one, losing at most the frame whose write failed; it ends on a cancellation, a failed ping, a failed write, or a channel closed and drained, and on nothing else, and never with the connection open |
| BusMachine.CloseSafety | internal/bus/bus.go:55-90 | On every interleaving no send meets a closed channel, no channel is closed twice, no queue outgrows its depth, and every stream is the publishes since the subscription in order, less exactly those offered while the channel was full |
| BusMachine.StepSafe | internal/bus/bus.go:79-87 | Every step keeps that, between the deregistration and the close as well as in the middle of a publish |
| BusMachine.NonInterference | internal/bus/bus.go:55-67 | Two runs that agree on the publishes and one subscriber's own steps give it the same stream, whatever the others do |
| BusMachine.OthersDoNotConcern | internal/bus/bus.go:72-90 | A step of another subscriber changes nothing a subscriber can see |
| LocalBus.MessageBus.constructor | internal/bus/bus.go:42-50 | A depth that is not positive becomes 1 |
| LocalBus.MessageBus.Join | internal/bus/bus.go:72-77 | A new open, empty channel of the bus's depth in the set |
| LocalBus.MessageBus.Fan | internal/bus/bus.go:55-67 | Every subscriber with room has the message behind what it had, every other is unchanged, and nobody leaves the set |
| LocalBus.MessageBus.Remove | internal/bus/bus.go:83-85 | The channel leaves the set, no other does |
| LocalBus.MessageBus.Finish | internal/bus/bus.go:86 | The close meets an open channel |

## Left out

- `Hub.Run`'s `select` loop: the machine's choice of the next event stands for it, and each event is a method of its own; `Snapshot`'s request and reply channels (internal/hub/hub.go:168-183) are not modelled.
- HubActor.Hub.JoinRoom: when others move meanwhile, what each channel holds afterwards is left to PresencePanel.PresenceAgrees; the same holds for LeaveRoom.
- HubActor.Hub.Broadcast: newcomers connect between the hub's events, not within one; EventEffect.BroadcastEffect lets them connect at any time.
- Persister.Worker.Run: the worker is shown with the SQLite store; the Postgres store is proved by itself.
- RecentHistory.HistoryIsLiveTail: assumes a clock that never goes back, since rows are sorted by time first.
- Stores.Postgres.RecentByRoom: that the engine refuses a negative limit, and cuts times off to microseconds, is taken as given.
- Reads after the context is cancelled: the machine lets a read pump read on, as it may when frames have already arrived; no theorem relies on it.
- The width of the 64-bit counters, and times as anything but integers.
- Pings, write deadlines and failing writes, except as a write pump that may exit at any time.
- A client channel of depth 0 is always full; the configuration refuses such a depth.
- SQL engines, connection pools and migrations: a table is a sequence of rows with growing ids.
- Frames the read pump ignores take no step of the machine.
- Composition of the bus with the hub, which does not use it; the context passed to `Publish`.
- WebSocket, HTTP, JSON, authentication, configuration, logging, profiling and the browser client: library calls, single-branch checks and user interface.
