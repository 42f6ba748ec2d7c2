# A Dafny model of the gopgrt realtime hub

gopgrt bridges PostgreSQL `NOTIFY` change events to websocket clients. This
project models its hub (`pkg/core.go`), the records it works on
(`pkg/models.go`), the package-level hub and keepalive constants
(`pkg/websocket.go`), and the pure decisions of the trigger side
(`pkg/triggers.go`).

The model is functional:

- A channel is a sequence of the events sent into it plus a closed flag (`Models.Queue`).
- The registry `Clients map[*SocketClient]bool` is each client's `entry`. `None` means the key is absent.
- The actor loop `Run` is a fold over a list of Create/Destroy requests (`Hub.Run`).
- The reader and writer goroutines are loops over a finite run of reads or wake-ups (`Pumps`).
- Handlers return `Result`s where the Go code returns `error`.
- A Go panic (a send on a closed channel, closing a closed channel, dereferencing the nil package variable) becomes a precondition. `Hub.Run` proves these preconditions hold at every step for the request lists `RegisterConnection` can produce: each Create names a new, unregistered client with an open queue, and no client is created twice. A client's Destroy may come before its Create (see Findings).

## Behaviour of the code worth knowing

- The relay forwards every trigger event with no table filtering.
- `unsubscribe` is refused as an invalid payload.
- The column list of a subscription is never consulted.
- The origin check compares the request URL string, not an `Origin` header. A non-nil but empty allow-list rejects every request.
- Errors from the reader's dispatch are thrown away. The check at `pkg/core.go:229` tests the read error from line 215, which is nil at that point.
- A frame that fails to decode is still dispatched, as whatever the decoder left in the local envelope. A frame that is not JSON, or from which no field decoded, leaves the empty envelope, which is refused as an invalid payload. A frame with a mistyped field keeps the fields that did decode, so one with a string `payload_type` of `connect` and a decoded payload is broadcast.
- The connect and disconnect events the hub builds itself on Create and Destroy carry the empty user id, because nothing ever sets `UserID` (`Websocket.ConnectThenCreate`). A connect or disconnect envelope sent by a client is broadcast with the client's own payload.
- Each successful subscribe starts one more listener and relay for that client (`Client.relays`). So a client that subscribes twice gets each change twice.

## Model

| member | source | states |
|---|---|---|
| `Models.KindOf` | pkg/models.go:9-17 | a wire string names a kind exactly when it is one of the five tags, and then it names that kind |
| `Models.TagsDistinct` | pkg/models.go:11-17 | the five tags are pairwise distinct, and decoding a kind's tag gives back that kind |
| `Hub.BroadcastAll` | pkg/core.go:22-34 | a nil payload is refused with "payload cannot be nil" and nothing is produced; otherwise the event is appended to the queue of every active client and of no other client, and nothing else changes |
| `Hub.EmitToClient` | pkg/core.go:36-44 | a nil payload is refused; otherwise exactly the target's queue grows by the event, registered or not, and the registry and other queues are unchanged |
| `Hub.DestroyClient` | pkg/core.go:46-58 | the queue is closed and keeps its contents; the entry is removed when closing the connection succeeds; a failed close is reported and leaves the entry, flag included, as it was; other clients are untouched |
| `Hub.HandleCreateUser` | pkg/core.go:60-73 | the client is registered active first, then its connect event reaches every client active after registration, including itself |
| `Hub.HandleDestroyUser` | pkg/core.go:75-94 | for an unregistered client nothing happens; otherwise the disconnect event reaches every client active before removal, including the leaving one, then its queue is closed and its entry is gone, whatever the connection did |
| `Hub.Teardown` | pkg/core.go:88-92 | closing the leaving client and then deleting its entry always ends with the queue closed, the entry gone and everything else unchanged, whether or not closing the connection failed |
| `Hub.DestroyIdempotent` | pkg/core.go:75-94 | a second Destroy of the same client changes nothing |
| `Hub.DestroyIgnoresCloseFailure` | pkg/core.go:84-92 | the hub state after Destroy is the same whether or not closing the connection failed |
| `Hub.AsSubscription` | pkg/core.go:107-110 | only a mismatched payload fails to decode; a subscription payload decodes to itself; a table name can only come from a `table_name` field |
| `Hub.HandleEvent` | pkg/core.go:96-152 | connect and disconnect are broadcast to the active set, or refused when the payload is nil; subscribe succeeds exactly when a table is named, adds one relay and confirms to the sender only; any other tag is refused as invalid; a refused event changes nothing |
| `Hub.ApplyEvent` | pkg/core.go:224-231 | a caller that drops the handler's error keeps the registry and every queue's open or closed state |
| `Hub.Step` | pkg/core.go:11-19 | one loop iteration keeps every registered queue open, registers the client exactly for a Create, closes the queue of a registered client it destroys, leaves the hub as it was for a Destroy of an unregistered client, and touches no other registry entry |
| `Hub.Run` | pkg/core.go:11-19 | processing requests in order, where each Create names a new unregistered client with an open queue and no client is created twice, in any order relative to its Destroy, never closes a registered client's queue, so no step panics |
| `Hub.RunRegistry` | pkg/core.go:11-19 | after the loop, a client is registered exactly when the last request naming it was a Create, or, with none, when it was registered before |
| `Hub.StaleRegistration` | pkg/core.go:75-76 | a Destroy that arrives before its client's Create is admitted and dropped, and after the two requests the client is registered and active; no later request removes it, since its reader has exited and `Hub.RunRegistry` ties the registry to the last request naming it |
| `Hub.StepGuarded` | pkg/core.go:11-19 | corrected iteration: a Destroy always leaves its client's queue closed, a Create registers its client exactly when the client's queue is open, and no other client's entry or queue state changes |
| `Hub.RunGuarded` | pkg/core.go:11-19 | corrected loop: for any order of requests over allocated clients, every registered client's queue stays open, so no step panics |
| `Hub.NoStaleRegistration` | pkg/core.go:11-19 | with the corrected loop and any order of requests, a client ends registered exactly when no Destroy names it and it was registered before or a Create named it while its queue was open |
| `Hub.RelayAsWritten` | pkg/core.go:121-135 | the relay panics exactly when the client's queue is closed; otherwise the client's queue gains the event wrapped as `subscription:response` |
| `Hub.RelayOutlivesSession` | pkg/core.go:116-135 | a client that subscribed and then disconnected still has a relay, and the next trigger event hits its closed queue |
| `Hub.Relay` | pkg/core.go:121-135 | corrected relay: after teardown the event is dropped; before it, exactly the subscriber's queue gains the wrapped event |
| `Hub.RelayIgnoresTable` | pkg/core.go:124-128 | events with equal payloads are relayed identically, whatever table they name |
| `Hub.RelayAll` | pkg/core.go:121-135 | relaying a run of events appends their wrappings to an open queue in order and leaves a closed one's client untouched; no other client, and nothing of the subscriber but its queue contents, changes |
| `Websocket.KeepaliveMargin` | pkg/websocket.go:15-20 | the ping period is 27 s, 3 s before the 30 s ack deadline, and writes time out after 10 s |
| `Websocket.InitCore` | pkg/websocket.go:45-54 | the new hub is initialized with an empty registry |
| `Websocket.InitThenGet` | pkg/websocket.go:45-62 | after initialisation, looking the hub up returns that same hub, the loop invariant holds on it, a connection is accepted, and after its Create it is the only active client |
| `Websocket.RegisterConnection` | pkg/websocket.go:22-43 | an uninitialized hub is an error and nothing is created; otherwise the new client has the token, an empty user id, an empty open queue and no relay, it is not yet registered, and a Create request for it is returned |
| `Websocket.ConnectThenCreate` | pkg/websocket.go:27-40 | after registration and its Create request, the client is active and its queue holds only its own connect event, with the empty user id |
| `Pumps.ReadPump` | pkg/core.go:201-233 | the reader requests teardown exactly when a read fails or a frame exceeds 1024 bytes; it dispatches every frame before that; it never changes the registry |
| `Pumps.ZeroEventRefused` | pkg/core.go:224-231 | the empty envelope, left when nothing in a frame decoded, is refused as an invalid payload |
| `Pumps.MalformedFrameSkipped` | pkg/core.go:224-231 | a frame within the size limit from which nothing decoded leaves the session as if it had not arrived |
| `Pumps.WritePump` | pkg/core.go:154-199 | the writer writes every dequeued event in order until a failed write, a closed queue or a failed ping; it sends a close frame exactly on a closed queue, and that frame comes last |
| `Pumps.WrittenInQueueOrder` | pkg/core.go:162-191 | when events are dequeued in send order, the events written are a prefix of the events sent |
| `Triggers.InstalledFunctionFeedsListener` | pkg/triggers.go:33-101 | installing the function and attaching a table accept the same triggers; the row trigger runs the function that was installed, which publishes on the trigger's channel; with no existing trigger the lookup is followed by the row trigger; the listener names each event after that function, not after the table |
| `Triggers.CheckOrigin` | pkg/triggers.go:115-127 | a nil allow-list admits everything; a non-nil one admits exactly the URLs it lists, so an empty one admits nothing |
| `Triggers.Decode` | pkg/triggers.go:155-173 | each decodable notification becomes an event tagged with the trigger's name, in order, up to the first undecodable one, which yields one error and stops the loop |
| `Triggers.Listen` | pkg/triggers.go:142-173 | a failed channel subscription yields one error and no events; otherwise events carry the trigger's name as table name and the notification's payload |
| `Triggers.ChangeReachesSubscriber` | pkg/triggers.go:46-58 | a published row change, listened and relayed, lands in a subscriber's queue as one `subscription:response` with the table, the operation and the chosen row, and no other client changes |

## Findings

| source | as written | input that shows it | evidently intended | confidence | as-written member | corrected member |
|---|---|---|---|---|---|---|
| pkg/core.go:121-135 | the relay goroutine loops forever and sends each trigger event to its client without regard to the session | a client subscribes to `users` and then disconnects, which closes its channel at pkg/core.go:48; then any watched row changes, and the relay sends on the closed channel, which panics in Go | the relay ends with the session, so events for a torn-down session are dropped | high, not executed | `Hub.RelayAsWritten` (trace in `Hub.RelayOutlivesSession`) | `Hub.Relay` (used by `Hub.RelayAll` and `Triggers.ChangeReachesSubscriber`) |
| pkg/websocket.go:37-40 | the reader goroutine starts before the connection's Create is sent, and a Destroy for a client not in the map is ignored (pkg/core.go:76) | a connection whose first read fails: its reader sends Destroy (pkg/core.go:203), which the loop takes first and drops; then the Create registers the client, whose reader has exited and will never send another Destroy. Later broadcasts keep sending to it, and once its writer has also exited they block on its unbuffered channel | a Destroy ends the session whether or not the Create has been processed, and a Create for an ended session is dropped | high, not executed | `Hub.Run` (trace in `Hub.StaleRegistration`) | `Hub.RunGuarded` (property in `Hub.NoStaleRegistration`) |

## Left out

- Goroutines, blocking channel operations and `select` are not modelled. `Data` is unbuffered, so `len(client.Data)` is always 0 and the writer's inner drain loop (pkg/core.go:180-187) never runs. The reader's dispatches race with the actor loop in the source; the model applies them in some order.
- Blocking is not modelled, so the hub stalling on a send to a client whose writer has exited, the consequence named in the second finding, is argued from the source rather than proved.
- The nil `*SocketEvent` test in `BroadcastAll`/`EmitToClient` is left out, because every caller passes the address of a local. Only the nil payload is modelled.
- The `client.Data != nil` test in `DestroyClient` is left out, because `RegisterConnection` always makes the channel.
- Websocket I/O is not modelled: deadlines, the pong handler, ping timing, frame encoding. Each read, write and ping outcome is an input to `Pumps`, and closing the connection is the `closeFails` input.
- JSON is not modelled. Payloads are an abstract datatype, and JSON marshal failures in the writer are not represented. `pkg/utils.go` enters only through `Hub.AsSubscription`'s result.
- SQL execution through gorm is not modelled. The statements are values, and the lookup's answer is an input. Database errors, which the source returns unchanged, are not modelled.
- The pq listener is not modelled: its reconnection, the nil notification it sends after reconnecting, and the 60 s ping. The gin server in `Serve` is not modelled. These are I/O over libraries not shown.
- The client fields `Trigger` and `Core` are not modelled as fields. `Trigger` is read at pkg/core.go:119 to start the listener; the model passes the trigger to `Triggers.Listen` directly. `Core` is read at pkg/core.go:203 to send the reader's Destroy; the model returns that request as `Pumps.ReaderExit.destroyRequested`. The fields `Unsubscribe` and `TableSubscription` are never read by the core and are left out. The relay count `Client.relays` stands for the listeners and relays that subscriptions start.
- Logging with `fmt.Println` is not modelled.
- `test.go` is a demo program and is not part of this model.
- Before `InitCore` the package variable is nil, so `GetCore` and `RegisterConnection` dereference nil and panic. Their "not initialized" branches are reachable only for a hub whose flag is false. The model keeps those branches and makes the non-nil variable a precondition.
- Pumps.ReadPump: states when the loop ends, how many frames it dispatches and that the registry and open queues are untouched, not the queue contents its dispatches produce. Those contents are `Hub.HandleEvent`'s contract.
- Pumps.WritePump: a write that fails at `NextWriter` and one that fails at flush are both modelled as writing nothing.
