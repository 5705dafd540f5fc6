# Doppler firehose group and websocket server, modelled in Dafny

This project models two pieces of the loggregator doppler.

**The firehose group** (`firehose_group.dfy`, module `FirehoseGroup`) is a mutable collection of sink wrappers. Each wrapper holds a sink and the channel that feeds it. The group supports:
- adding a sink, refused when a member already has the sink's identifier;
- removing a sink, which closes its channel and cuts it out of the slice with Go's in-place `copy`;
- removing every sink;
- broadcasting a message, which reaches exactly one member picked by a round-robin cursor.

The model is a class `Group` with the real backing array of the Go slice, its length, and the cursor `lastUsedSinkIndex`. Channels are objects `Channel` that record what was sent into them and whether they are closed. Sending on or closing a closed channel panics in Go, so those operations require an open channel. The group invariant `Valid()` says:
- no two members share an identifier;
- no two members share a channel;
- every member's channel is open.

Every public method of `Group` keeps `Valid()`; the internal steps `Append` and `CopyDownAt` run in between, while a removed member's channel is already closed. Each method's new state is stated against functions on the slice: `FindSink`, `RemoveAt`, `CopyDown`, `RemoveFromSlice`, `DrainPrefix` and `Target`. Lemmas about these functions prove:
- round-robin delivery: n broadcasts to n members reach each member once, in slice order from the cursor's target;
- what `RemoveAllSinks` really does to small groups.

Client methods replay these scenarios on real objects:
- a, b, c receive m1..m4 as a:m1, b:m2, c:m3, a:m4;
- removing a from a, b sends both later broadcasts to b;
- `RemoveAllSinks` on a, b, c closes a and c and leaves b.

**The websocket server** (`websocket_server.dfy`, module `WebsocketServer`) turns a request path into a route decision. That decision is a pure function, `Route`. It mirrors the anchored pattern `^/apps/(.*)/(recentlogs|stream)$`, the 404 and 400 branches and the `switch` on the endpoint word.

After the decision comes the session. It covers the upgrade, the handler, `streamWebsocket`'s register and deferred unregister, the replay loop `sendMessagesToWebsocket`, and the deferred close frame and close. The collaborators are the WebSocket library, the sink manager, the keep-alive loop and the protobuf encoder. They are not modelled. Their answers are the inputs in `World`, and every method returns the ordered list of calls it makes on them (`Effect`s). `ServeHTTP` is proved for every `World`:
- a rejected request only gets its response;
- every sink that is registered is unregistered exactly once, after the registration and before the close frame;
- only a handler that streams registers anything.

Where the code does something a reader might not expect, the model follows the code:
- Removal matches the sink by `==`, not by identifier.
- `/firehose` gets 404 from this server, because the pattern rejects it. The `FIREHOSE_PATH` case of the `switch` and its "invalid path" default are unreachable (`RouteOutcomes`).
- `RemoveAllSinks` does not empty groups of three or more members (see Findings).
- Broadcasting on an empty group indexes an empty slice. The model requires a non-empty group.
- The identifier check in `AddSink` is the whole check. The race the unlocked scan allows is not modelled.

## Model

| member | source | states |
|---|---|---|
| `FirehoseGroup.Channel.Send` | src/doppler/groupedsinks/firehose_group/firehose_group.go:82 | a send appends the envelope to what the channel has received and needs an open channel |
| `FirehoseGroup.Channel.Close` | src/doppler/groupedsinks/firehose_group/firehose_group.go:51 | closing needs an open channel and leaves what was sent untouched |
| `FirehoseGroup.Group.constructor` | src/doppler/groupedsinks/firehose_group/firehose_group.go:24-28 | a new group has no member, cursor 0, and satisfies the group invariant |
| `FirehoseGroup.Group.AddSink` | src/doppler/groupedsinks/firehose_group/firehose_group.go:30-43 | returns false and changes nothing exactly when a member has the same identifier; otherwise appends `{input, sink}` at the end, adds its channel, keeps earlier members, their order and the cursor, and keeps the invariant |
| `FirehoseGroup.Group.Append` | src/doppler/groupedsinks/firehose_group/firehose_group.go:41 | Go's append: the members become the old members plus the new one, in place or in a fresh larger array |
| `FirehoseGroup.Group.RemoveSink` | src/doppler/groupedsinks/firehose_group/firehose_group.go:45-60 | true exactly when the sink is a member. It closes only that member's channel, deletes only the first matching position, keeps the others in order and the cursor unchanged. The backing array becomes the copy-shifted one. An absent sink closes and changes nothing, so no channel is closed twice and every member's channel stays open |
| `FirehoseGroup.Group.CloseAndCut` | src/doppler/groupedsinks/firehose_group/firehose_group.go:50-55 | closing member i's channel and cutting it out: the invariant holds, the others keep their order, exactly that channel leaves and is closed, and nothing is sent |
| `FirehoseGroup.Group.CopyDownAt` | src/doppler/groupedsinks/firehose_group/firehose_group.go:52-53 | `s[:i+copy(s[i:], s[i+1:])]` shifts the later members down in the same array and shortens the slice by one |
| `FirehoseGroup.Group.MemberRemoved` | src/doppler/groupedsinks/firehose_group/firehose_group.go:51-53 | after a member is cut out and its channel closed, the invariant holds and exactly its channel has left the group |
| `FirehoseGroup.Group.RemoveAllSinks` | src/doppler/groupedsinks/firehose_group/firehose_group.go:62-66 | as written: the slice ends as `DrainPrefix` of the old slice over the old length. A channel of a former member is closed exactly when that member left, and no channel is closed twice |
| `FirehoseGroup.Group.DrainLoop` | src/doppler/groupedsinks/firehose_group/firehose_group.go:62-66 | the `range` loop over the backing array for the length fixed at its start: the slice ends as `DrainPrefix` of the starting slice, nothing is sent, and exactly the channels that left are closed |
| `FirehoseGroup.Group.DrainStep` | src/doppler/groupedsinks/firehose_group/firehose_group.go:63-65 | one iteration of RemoveAllSinks takes the slice one step along `DrainPrefix`, keeps the invariant, and closes exactly the channels that leave |
| `FirehoseGroup.Group.RemoveTracked` | src/doppler/groupedsinks/firehose_group/firehose_group.go:45-60 | RemoveSink, seen from an earlier membership: exactly those of its channels that have left the group are closed afterwards |
| `FirehoseGroup.Group.DrainAll` | src/doppler/groupedsinks/firehose_group/firehose_group.go:62-66 | the corrected drain: the group ends empty, every former member's channel is closed, and nothing was sent |
| `FirehoseGroup.Group.RemoveFront` | src/doppler/groupedsinks/firehose_group/firehose_group.go:45-60 | one step of the corrected drain: the next snapshot member is at the front, and removing it leaves the rest of the snapshot, closing exactly its channel |
| `FirehoseGroup.Group.IsEmpty` | src/doppler/groupedsinks/firehose_group/firehose_group.go:68-70 | true exactly when the group has no member |
| `FirehoseGroup.Group.Length` | src/doppler/groupedsinks/firehose_group/firehose_group.go:86-91 | the number of members |
| `FirehoseGroup.Group.BroadcastMessage` | src/doppler/groupedsinks/firehose_group/firehose_group.go:72-84 | on a non-empty group: the message goes to the member at the cursor, reset to 0 when past the end, and to no other channel. The cursor becomes that position plus one, so 1 <= cursor <= len. Membership is unchanged |
| `FirehoseGroup.FindSink` | src/doppler/groupedsinks/firehose_group/firehose_group.go:46-47 | the first position whose sink equals the one sought, or none exactly when no member holds it |
| `FirehoseGroup.RemoveAt` | src/doppler/groupedsinks/firehose_group/firehose_group.go:53 | one member fewer, the rest in their relative order |
| `FirehoseGroup.CopyDown` | src/doppler/groupedsinks/firehose_group/firehose_group.go:53 | the backing array after the copy: the slice part loses position i, and position len-1 onward keep their old (stale) values |
| `FirehoseGroup.RemoveFromSlice` | src/doppler/groupedsinks/firehose_group/firehose_group.go:45-60 | RemoveSink on a slice value: the same backing length; unchanged for an absent sink, the first match cut out otherwise |
| `FirehoseGroup.DrainPrefix` | src/doppler/groupedsinks/firehose_group/firehose_group.go:62-66 | the slice after k iterations of RemoveAllSinks. Each iteration reads the shifted backing array at its own index, and the array is never reallocated |
| `FirehoseGroup.RemoveFromSliceMembers` | src/doppler/groupedsinks/firehose_group/firehose_group.go:45-60 | on a slice value, RemoveSink leaves a slice without the sink unchanged and otherwise shows the members with the first holder cut out |
| `FirehoseGroup.Target` | src/doppler/groupedsinks/firehose_group/firehose_group.go:76-82 | the position a broadcast reaches always lies inside the group |
| `FirehoseGroup.Schedule` | src/doppler/groupedsinks/firehose_group/firehose_group.go:76-83 | k consecutive broadcasts reach k positions |
| `FirehoseGroup.ScheduleIsRoundRobin` | src/doppler/groupedsinks/firehose_group/firehose_group.go:76-83 | the j-th of consecutive broadcasts reaches (t + j) mod n, where t is the first position reached |
| `FirehoseGroup.WrapIsMod` | src/doppler/groupedsinks/firehose_group/firehose_group.go:76-83 | the wrapped position used by the round-robin lemmas is the remainder (x mod n) |
| `FirehoseGroup.NextTargetWraps` | src/doppler/groupedsinks/firehose_group/firehose_group.go:78-83 | incrementing the cursor and resetting it past the end is a step of one modulo n |
| `FirehoseGroup.RoundRobinVisitsEachOnce` | src/doppler/groupedsinks/firehose_group/firehose_group.go:76-83 | n broadcasts to n members reach every member exactly once: from the target to the end, then from the start |
| `FirehoseGroup.RoundRobinFromStart` | src/doppler/groupedsinks/firehose_group/firehose_group.go:76-83 | from cursor 0, or a cursor past the end, n broadcasts reach the n members in insertion order |
| `FirehoseGroup.DrainEmptiesOne` | src/doppler/groupedsinks/firehose_group/firehose_group.go:62-66 | RemoveAllSinks empties a group of one |
| `FirehoseGroup.DrainEmptiesTwo` | src/doppler/groupedsinks/firehose_group/firehose_group.go:62-66 | RemoveAllSinks empties a group of two |
| `FirehoseGroup.DrainOfThreeKeepsSecond` | src/doppler/groupedsinks/firehose_group/firehose_group.go:62-66 | RemoveAllSinks on a, b, c leaves exactly b in the group |
| `FirehoseGroup.RemoveAtKeepsInvariant` | src/doppler/groupedsinks/firehose_group/firehose_group.go:45-55 | removing a member keeps identifiers unique and channels distinct, and its channel belongs to no remaining member |
| `FirehoseGroup.RemovedChannels` | src/doppler/groupedsinks/firehose_group/firehose_group.go:51-53 | with distinct channels, removing a member removes exactly its channel |
| `FirehoseGroup.ChansOfAppend` | src/doppler/groupedsinks/firehose_group/firehose_group.go:40-41 | appending a wrapper adds exactly its channel |
| `WebsocketServer.FindStringSubmatch` | src/doppler/sinkserver/websocketserver/websocket_server.go:79-80 | any captures it returns spell the whole path back as "/apps/" + id + "/" + word, with word recentlogs or stream and no newline in id |
| `WebsocketServer.SelectHandler` | src/doppler/sinkserver/websocketserver/websocket_server.go:100-111 | the switch selects a handler exactly for "stream", "recentlogs" and FIREHOSE_PATH; any other word falls to the default |
| `WebsocketServer.Route` | src/doppler/sinkserver/websocketserver/websocket_server.go:79-111 | every rejection is a 404 or a 400; a dispatch carries the captured app id, which is non-empty, and the handler the switch selects for the captured endpoint word |
| `WebsocketServer.MatchEndpoint` | src/doppler/sinkserver/websocketserver/websocket_server.go:79-80 | a match spells the path back as "/apps/" + id + "/" + word, with no newline in id |
| `WebsocketServer.MatchEndpointFinds` | src/doppler/sinkserver/websocketserver/websocket_server.go:79-80 | a path built from a newline-free id and a word is matched with exactly that id |
| `WebsocketServer.StreamIsNotRecentLogs` | src/doppler/sinkserver/websocketserver/websocket_server.go:79-80 | a stream path never reads as a recentlogs path, so the alternation's order does not matter |
| `WebsocketServer.FindStringSubmatchIsExact` | src/doppler/sinkserver/websocketserver/websocket_server.go:79-80 | the pattern returns the captures (id, word) exactly when the whole path is "/apps/" + id + "/" + word, word is recentlogs or stream, and id has no newline; the greedy capture is the unique one |
| `WebsocketServer.RouteStreamsLogs` | src/doppler/sinkserver/websocketserver/websocket_server.go:79-111 | streamLogs with app id `id` exactly for the path "/apps/" + id + "/stream", with id non-empty and newline-free |
| `WebsocketServer.RouteRecentLogs` | src/doppler/sinkserver/websocketserver/websocket_server.go:79-111 | recentLogs with app id `id` exactly for the path "/apps/" + id + "/recentlogs", with id non-empty and newline-free |
| `WebsocketServer.RouteOfSubmatch` | src/doppler/sinkserver/websocketserver/websocket_server.go:79-111 | the decision in terms of the captures: no match is 404; an empty id is the 400 hint naming the endpoint; otherwise "stream" selects streamLogs and "recentlogs" selects recentLogs |
| `WebsocketServer.DispatchIsMatch` | src/doppler/sinkserver/websocketserver/websocket_server.go:79-111 | a dispatched path spells out its non-empty app id and its handler's endpoint word, and the handler is never streamFirehose |
| `WebsocketServer.MatchIsDispatch` | src/doppler/sinkserver/websocketserver/websocket_server.go:79-111 | a path that spells a non-empty app id and an endpoint word is dispatched to that endpoint's handler with that id |
| `WebsocketServer.RouteNotFound` | src/doppler/sinkserver/websocketserver/websocket_server.go:79-86 | 404 with the `WWW-Authenticate: Basic` header and body "Resource Not Found. " + path exactly when no decomposition of the path matches |
| `WebsocketServer.RouteMissingAppId` | src/doppler/sinkserver/websocketserver/websocket_server.go:87-97 | a 400 response comes exactly for "/apps//stream" and "/apps//recentlogs". Its body is "App ID missing. Make request to /apps/APP_ID/" + the endpoint word |
| `WebsocketServer.RouteOutcomes` | src/doppler/sinkserver/websocketserver/websocket_server.go:98-111 | the only outcomes are 404, the missing-id 400, or streamLogs/recentLogs with a non-empty id. The FIREHOSE_PATH case and the default are dead |
| `WebsocketServer.AppIdKeepsSlashes` | src/doppler/sinkserver/websocketserver/websocket_server.go:79-87 | "/apps/a/b/stream" streams app "a/b" |
| `WebsocketServer.FirehosePathNotFound` | src/doppler/sinkserver/websocketserver/websocket_server.go:79-86 | "/firehose" gets 404 |
| `WebsocketServer.RecentLogsPathRoutes` | src/doppler/sinkserver/websocketserver/websocket_server.go:79-111 | "/apps/abc123/recentlogs" (the path the traffic controller builds) goes to recentLogs for "abc123" |
| `WebsocketServer.SendMessagesToWebsocket` | src/doppler/sinkserver/websocketserver/websocket_server.go:174-189 | exactly one write per envelope, in slice order, of the bytes Marshal returned. A marshal error does not skip the write and a failed write does not stop the loop |
| `WebsocketServer.StreamWebsocket` | src/doppler/sinkserver/websocketserver/websocket_server.go:148-162 | registers the sink first, then waits for the keep-alive loop to end, and only then, last, unregisters the same sink with the same registrar; exactly one registration and one unregistration. This holds whatever the register call answered and whatever ended the keep-alive |
| `WebsocketServer.StreamLogsHandler` | src/doppler/sinkserver/websocketserver/websocket_server.go:138-141 | one app sink for the given app id with the app pair: registered, the keep-alive end, then unregistered |
| `WebsocketServer.StreamFirehoseHandler` | src/doppler/sinkserver/websocketserver/websocket_server.go:143-146 | one sink for FIREHOSE_APP_ID, whatever app id it was given, with the firehose pair: registered, the keep-alive end, then unregistered |
| `WebsocketServer.RecentLogsHandler` | src/doppler/sinkserver/websocketserver/websocket_server.go:164-167 | asks for the app's recent envelopes and writes each of them, in order, registering nothing |
| `WebsocketServer.ServeHTTP` | src/doppler/sinkserver/websocketserver/websocket_server.go:75-136 | for every answer of the collaborators: a rejected route gets only its response, before any upgrade; a failed upgrade gets 400 with the error text; otherwise the upgrade comes first, then exactly the calls of the handler the route selected, run with the captured app id on the upgraded connection (for recentLogs: the request for that app's envelopes and one write per envelope, in order; for streamLogs: register, keep-alive end, unregister), and the close frame and close come last; every registration is later unregistered, as often as it was registered; the registrations are exactly the dispatched handler's, and none when routing or the upgrade fails |
| `WebsocketServer.Serve` | src/doppler/sinkserver/websocketserver/websocket_server.go:81-135 | the same guarantees for any route decision, including the unreachable streamFirehose dispatch, whose middle calls are the firehose sink's register, keep-alive end and unregister |
| `WebsocketServer.UpgradedSession` | src/doppler/sinkserver/websocketserver/websocket_server.go:124-135 | the upgrade before a handler and the deferred close frame and close after it register and unregister nothing |

## Left out

- Locking: every `sync.RWMutex` operation in both files. Operations run one at a time, so the race the unlocked scans in `AddSink` and `RemoveSink` allow (firehose_group.go:31, 46) is not modelled.
- FirehoseGroup.Group.AddSink: requires that the channel it is handed is open and is no member's channel. Go does not check this. Without it, a later broadcast or removal would panic on a closed channel.
- FirehoseGroup.Group.BroadcastMessage: requires a non-empty group. On an empty group the source indexes an empty slice and panics; that panic is not modelled.
- Blocking sends: a `Channel` records every envelope sent into it. Its buffer size, the blocking of a full channel (the group's backpressure) and the receiving side are not modelled.
- FirehoseGroup.Group.Append: models Go's growth rule only as "one element, then double". Positions past the length hold a placeholder instead of nil. Neither is ever read below the length the group had.
- `Start` and `Stop` (websocket_server.go:51-73): the TCP listener and the HTTP server are network I/O.
- The `WebsocketServer` constructor `New` and its configuration fields (endpoint, keep-alive interval, buffer size, logger, dropsonde origin). A sink is identified only by its app id and connection.
- `gorilla.Upgrade`, the close frame and `ws.Close` (websocket_server.go:124-133). These are the WebSocket library's handshake and normal-closure frame (section 7.4.1 of RFC 6455). They appear only as the effects `Upgrade`, `CloseFrame` and `CloseConn`. The upgrade's answer is an input.
- `go ws.ReadMessage()` and the keep-alive loop (websocket_server.go:160-161). The goroutine and the heartbeat timing are replaced by a single input: the cause that ended the session.
- `proto.Marshal`, gosteno logging, `println` and `logInvalidApp`: the encoder's result and the write results are inputs, and log lines are not modelled.
- Lines 113-122 of websocket_server.go redeclare `appId` in the same scope and call `w.validate`, which the file does not define. This block is left unresolved, and the handler receives `matches[1]`.
- The sink manager (registry, firehose registration, recent-log buffer) is not part of this model. Its register answers and recent logs are inputs. The value of `websocket.FIREHOSE_APP_ID` comes from doppler/sinks/websocket, which is not part of this model either. It is taken as "firehose", and nothing proved depends on it.
- src/trafficcontroller/doppler_endpoint/doppler_endpoint_test.go checks handler types of code that is not part of this model. Only its recent-logs path is used, as an example for `Route`.
- Strings are sequences of characters; Go's regular expressions work on UTF-8 text. The pattern's `.` is modelled as "any character but a newline".

## Findings

| source | as written | input that shows it | evidently intended | confidence | as-written member | corrected member |
|---|---|---|---|---|---|---|
| src/doppler/groupedsinks/firehose_group/firehose_group.go:62-66 | `RemoveAllSinks` ranges over the slice while each `RemoveSink` shifts its backing array down (line 53). The next iteration therefore skips the member moved into the current position and later reads stale copies | members a, b, c: a is removed, then c, then the stale copy of c is not found; b stays in the group with its channel open | every member removed and its channel closed | high, not executed | `FirehoseGroup.DrainOfThreeKeepsSecond` (with `FirehoseGroup.Group.RemoveAllSinks`) | `FirehoseGroup.Group.DrainAll` |
