# Coresplitter, modelled and proved

Coresplitter shares one MeshCore companion radio between any number of clients. The radio handles one command at
a time; the multiplexer queues what clients send, routes each reply to its originator, answers what it can from a
cache, echoes sends to the other clients, keeps a log of messages so that a client gets what it missed, and
reconnects when the radio goes away. This project states what all that promises and proves it over whole runs.

## How the model is built

| file | what it holds |
|---|---|
| `Bytes`, `Protocol` | frames, little-endian numbers, reply shapes, message layouts |
| `Firmware` | what the firmware replies to each command, and which commands change its own data, apart from the tables the multiplexer uses |
| `Readings`, `Wires` | what a received message says, in either layout; everything a client is handed says what the multiplexer holds |
| `FrameParser` | the streaming frame parser: the class with its loop, and the automaton it refines |
| `Store`, `Node` | the database tables as values, and `NodeState`, the object that owns them |
| `CoreState` | every handler as a function on one state value, `Step`, `Run` and `Start` |
| `Mux` | the multiplexer as the object it is in the source: fields, loops, one method per handler, each proved equal to its function in `CoreState`; `Serve` is the select loop |
| `RadioPath`, `Requests` | conservation of requests, FIFO order, what clients are told |
| `Links`, `Order` | what a new link begins with; the order in which requests end, and the one kind of step that breaks it |
| `Liveness` | internal traffic dies out; when a silent radio drains |
| `Frames`, `Outcomes` | what each handler leaves alone, and which steps answer a request |
| `Replay`, `NoLoss` | no message is lost to an identity |
| `Late`, `LateRuns`, `LateReply` | exactly when a message that comes in unasked, or too late, is lost, at once and over whatever follows |
| `Pending`, `Notices` | what a session still has to be served, and when it is told so |
| `ReplayOnce`, `Overlap`, `Repeats` | replay is at most once and in order, exactly when connections of one identity do not overlap; cursors only move forward |
| `LiveReplay` | what is replayed is what was sent live |
| `Names`, `Origins` | who a client is, and under which identity a request was sent |
| `Reports`, `Setters` | what the multiplexer knows of its radio is what the radio last said; once a setter has gone out it knows nothing |
| `Sends` | a client's text, byte by byte, from the radio's reply to what the others read |
| `Layouts` | frames built up from their fields, periods in numbers, rows in order |
| `Echo`, `Acks`, `Retention`, `CachedReplies` | echoes, delivery ACKs, contact retention, replies from the cache |
| `Flow`, `Environment` | the multiplexer in front of a radio that answers in order: the reply is the radio's |
| `InOrder` | no message is lost, end to end, with such a radio |
| `Coherence` | the caches agree with the radio, or the news is on its way, or will not come |
| `Freshness` | exactly when a cached item is stale |
| `Witnesses`, `Lasting`, `Unnoticed` | runs in which a cached answer is wrong, and how long it stays so |

Each handler runs to completion inside one select loop, so a run is a sequence of steps: a client connects,
disconnects or sends a command; a frame comes from the radio; a timeout or maintenance tick; the link closes; a
reconnection. `Core` carries, beside the source's fields, a history: every request put on the radio path
(`arrived`), how each ended (`settled`), what went over the current link (`sent`, `routed`), and everything put on
client channels (`out`). Theorems about runs hold for every list of steps from a startup on any database.
Onlookers that only watch a run (who has seen which message, which ACK codes were announced, what the radio
reported) are functions of the run, kept in the files that need them.

`Environment` adds the radio: it answers commands in order, each with what the firmware replies to it, truthful
about what it holds; pushes may come anywhere between. The radio may answer any
command with ERROR, and any command it accepts may change anything it holds. Requests do not time out there, and no stray
self-telemetry push comes while a self-telemetry request waits.

## What is proved of the code, and what is false of it

- A message frame nobody hears is lost. `cache_response` stores every message frame and moves the cursors of
  caught-up clients (src/core.rs:1384, 1125-1144), but it is handed out only as the reply to a request in flight
  and fanned out only for a GET_MSG (src/core.rs:1462). `LateRuns.LostExactlyWhenUnheard` gives the exact
  condition over everything that may follow: nothing is lost in any continuation in which later messages are heard
  if and only if every identity with a live connection has one that would hear this one. An identity that still waits for
  older messages loses it later, when it has caught up; `Late.LostAtOnce` is the condition for the next state
  alone, and `LateRuns.UnheardFromStart` reaches the loss from every startup whose link closed at once.
  `InOrder.NoMessageIsLostInOrder` shows that with an in-order radio and no timeouts the condition always holds.
- The ordinary way to such a loss is a reply that comes too late: from every startup over an open link a run leads to
  a GET_MSG that times out, and the message the radio then sends is lost (`LateReply.LateReplyFromStart`).
- Two connections of one identity at the same time may both be replayed the same message
  (`Overlap.OverlapFromStart`). Exactly: a step is harmless to at-most-once replay, whatever follows, if and only
  if it is not an APP_START of an identity while another connection of it has a stored message above the cursor
  pending; and to the order of replays, if and only if it is not one to which something is owed while another
  connection has any stored message pending (`Repeats.HarmlessExactly`, `Repeats.OverlapIs`).
- A cached item is stale on a link if and only if it was cached otherwise than the radio held it when the link
  began, or when the radio last gave an answer that changed it, told it or refused to tell it, and no frame about it
  has been read since (`Freshness.StaleExactly`; of contacts, which the radio also changes by itself, while no news
  of them is under way and the link is open). A command of which the cache takes notice by dropping the item never
  leads there (`Freshness.WithdrawnIsNotWrong`). All of it happens:
  - Commands that change SELF_INFO or DEVICE_INFO and are missing from the list at src/core.rs:890.
    IMPORT_PRIVATE_KEY (0x18) replaces the key in SELF_INFO, SET_PATH_HASH_MODE (0x3D) a byte of DEVICE_INFO; a client
    that asks afterwards is handed the old one (`Unnoticed.OldServedFromStart`).
  - Channels and DEVICE_INFO of an earlier session, served after a startup (`Witnesses.StaleChannelServed`,
    `Witnesses.StaleDeviceInfoServed`, `Freshness.DeviceInfoWrongExactly`). A channel index beyond the number of
    channels is never asked for. SELF_INFO is always right when a link begins (`Freshness.SelfInfoStaleExactly`).
  - A re-read that the radio refuses. An ERROR ends any request (src/core.rs:104-119, where GET_CONTACTS is said to
    be refused while an iteration runs), and no refusal is followed up (`Witnesses.RefusedWhenIdle`,
    `Witnesses.RefusedFromStart`). An idle multiplexer left alone shows the stale contact for as long as it is left
    alone if contacts are kept for ever; if they are purged by age, the next maintenance tick asks for all of them
    again (`Lasting.AskedAgainExactly`).
  - A change announced after the sender of the link has closed: the refresh fails and is forgotten
    (`Lasting.StaleOnClosedLink`).
- On a link whose sender is closed, a new request fails at once while older synchronisation entries stay queued
  (src/core.rs:727-733, 854-860). Over every run, requests end in the order they arrived if and only if no step
  does this (`Order.RequestsKeepTheirOrder`), and some run from every startup on such a link does
  (`Order.ClosedLinkOvertakes`).
- Those entries wait behind a free slot, where no timeout tick reaches them: with a silent radio the path drains if
  and only if it is not in that state (`Liveness.DrainsExactly`). A maintenance tick clears them if and only
  if it queues a full synchronisation (`Liveness.MaintenanceClearsExactly`); so does a reconnection.
- A new client's backlog by age has a gap if and only if, by the clock at the time, something in the log arrived
  before the window after something that arrived within it (`Store.BacklogIsATail`).
- A send is echoed only if the radio's key is known when it is accepted (`Echo.EchoNeedsTheKey`), which a
  SELF_INFO shorter than 36 bytes does not tell.
- `encode` truncates the length to 16 bits: a payload survives the wire if and only if it is at most 65535 bytes
  long (`FrameParser.RoundTripIffLengthFits`).
- GET_CONTACTS without `since` and with `since` 0 differ on contacts whose modification time is 0
  (`CachedReplies.NoSinceIsNotZero`).

## Model

| member | source | states |
|---|---|---|
| FrameParser.Parser.Feed | src/protocol/frame.rs:36-75 | feeding a chunk returns the frames the byte automaton emits on it and leaves the parser in the automaton's state, whatever was kept from earlier chunks |
| FrameParser.ChunkInvariance | src/protocol/frame.rs:36-75 | any cutting of a byte stream into chunks yields the same frames and the same final state |
| FrameParser.FramesSurviveTheWire | src/protocol/frame.rs:7-75 | payloads of at most 65535 bytes, encoded with either header, with noise free of header bytes between them and cut anywhere, come back exactly |
| FrameParser.RoundTripIffLengthFits | src/protocol/frame.rs:7-14 | encoding then parsing gives the payload back if and only if its length fits in 16 bits |
| Layouts.LowByteFirst | src/protocol/frame.rs:7-14 | numbers on the wire have their low byte first |
| Layouts.SerialFrame | src/protocol/frame.rs:3-14 | a frame is < or >, the length in two bytes with the low one first, and the payload |
| Protocol.OnlySelfTelemetryAbsorbsAPush | src/core.rs:104-207 | the only push a request may take is 0x8B, for self-telemetry; a delivery ACK passes every request by |
| Layouts.PushIsHighBit | src/core.rs:46-48 | pushes are the codes with the high bit |
| Firmware.TakenExactly | src/core.rs:104-207 | a request takes a frame exactly if the firmware replies with that code to its command, and ends exactly if that code ends the reply: SENT for a direct text, OK for a channel text, and so on through all listed commands; ERROR ends any; an unlisted command takes one frame that is no push |
| Firmware.ReplyIsWhole | src/core.rs:104-207 | what the firmware may reply to a command, by reply code, is exactly what the request waits for, frame by frame |
| Protocol.RepliesArePrefixFree | src/core.rs:80-119 | no whole reply is a proper prefix of another, so frames alone tell where a reply ends |
| Protocol.LayoutFollowsVersion | src/core.rs:67-76 | only messages are rewritten; version 3 clients never see the old codes, older ones the new ones only in frames too short to convert |
| Readings.ConversionKeepsReading | src/core.rs:67-76 | whatever the version, the frame handed over reads as the frame held: direct or channel, sender or channel index, path, type, clock and text; and it is in the layout of the version |
| Readings.MessageCodesAreRead | src/core.rs:1462-1464 | the codes that are fanned out are those of the frames that can be read as messages |
| Readings.StoredIfRead | src/core.rs:1542-1663 | a frame is stored exactly if it can be read as a message, an old-layout channel message with a text, and with the clock it reads |
| Wires.EveryFrameReadsTheSame | src/core.rs:1260-1281 | over every run, everything a client was handed, as reply, fan-out, echo, replay or from the cache, reads as the frame the multiplexer held |
| Protocol.ConversionIsIdempotent | src/core.rs:67-76 | converting twice for one version is converting once |
| Protocol.OldLayoutRoundTrip | src/core.rs:67-76 | an old-layout message survives the trip through the version 3 layout unchanged |
| Protocol.NewLayoutRoundTrip | src/core.rs:67-76 | the trip of a version 3 message through the old layout clears the SNR and reserved bytes and keeps the rest |
| Protocol.NewLayoutRoundTripExact | src/core.rs:67-76 | hence it comes back identical exactly when those three bytes were zero |
| Store.MessageIdsAfterExact | src/node/state.rs:298-312 | what a returning client is owed is exactly the retained messages above its cursor that it did not send, oldest first |
| Store.FrameOfExact | src/node/state.rs:354-361 | the frame looked up under an id is that message's frame, and there is one whenever the message is retained with its frame |
| Store.BacklogIsATail | src/node/state.rs:316-349 | what a new client gets is a gapless tail of what it may be replayed: always with a backlog by count or none, and with one by age if and only if nothing replayable arrived before the window after something that arrived within it |
| Store.BacklogByCount | src/node/state.rs:316-349 | a backlog by count is as long as asked for, or all there is |
| Store.BacklogByAge | src/node/state.rs:316-349 | a backlog by age is exactly what arrived within it |
| Store.MaintainKeepsMessages | src/node/state.rs:439-470 | purging keeps id order and the id counter and removes exactly the messages older than the retention |
| Store.MaintainContactsExact | src/node/state.rs:439-508 | a contact leaves the cache exactly when it was last seen before both the last full sync and the retention period |
| Layouts.HeadIsHighest | src/node/state.rs:288-296 | the head of the log is the highest id in it, 0 when it is empty |
| Layouts.PurgedByAge | src/node/state.rs:439-493 | a message goes exactly when it arrived longer ago than so many days of 24 hours, a client exactly when it last connected longer ago |
| Layouts.ContactsPurgedByAge | src/node/state.rs:461-481 | a contact goes exactly when a sync is on record and it was last seen before both that sync and so many days of 24 hours |
| Store.FindUpserted | src/node/state.rs:200-217 | an upsert is visible under its own key and nowhere else |
| Node.NodeState.InsertMessage | src/node/state.rs:266-285 | the new message has an id above every id ever given, is found under it with its frame and is the head of the log; every other id finds what it found before, and the ids stay increasing |
| Node.NodeState.AdvanceClientCursor | src/node/state.rs:380-400 | the identity's cursor ends at or beyond the given one, and no cursor moves back |
| Node.NodeState.UpsertContact | src/node/state.rs:200-217 | looking up any key afterwards finds the new contact under its key and what was found before under every other; it is the last row, and keys that were unique stay so |
| Node.NodeState.DeleteContact | src/node/state.rs:241-247 | looking up any key afterwards finds nothing under the deleted key and what was found before under every other; keys that were unique stay so |
| Node.NodeState.Maintain | src/node/state.rs:439-493 | purges messages, contacts and clients as the specification says and counts exactly what went |
| Mux.Multiplexer.constructor | src/core.rs:282-313 | a multiplexer that has never had a radio, on the given tables |
| Mux.Multiplexer.Startup | src/core.rs:315-350 | the first connection, handshake and synchronisation, then the blobs of the last session where the radio said nothing |
| Mux.Multiplexer.Serve | src/core.rs:384-413 | the select loop takes the multiplexer through exactly the run its events describe |
| Mux.Multiplexer.Turn | src/core.rs:384-413 | one event of the loop is one step of the state machine |
| Mux.Multiplexer.SendToClient | src/core.rs:1260-1269 | a live client gets the frame in its own layout, a gone one nothing |
| Mux.Multiplexer.Convert | src/core.rs:1271-1281 | the loop over the clients builds, for every recipient but the excluded one and nobody else, the frame in that client's layout |
| Mux.Multiplexer.BroadcastToOthers | src/core.rs:1271-1281 | every live client but one gets the frame, each in its own layout |
| Mux.Multiplexer.DispatchToRadio | src/core.rs:866-906 | a send that fails is answered with ERROR and leaves slot and cache; one that goes out drops what it invalidates and takes the slot |
| Mux.Multiplexer.EnqueueOrDispatch | src/core.rs:854-860 | dispatched at once if the slot is free, queued at the back otherwise |
| Mux.Multiplexer.AdvanceQueue | src/core.rs:985-999 | the loop dispatches the first waiting request whose client is there and whose send works, dropping or failing those before it |
| Mux.Multiplexer.AdvanceQueueSync | src/core.rs:720-745 | the early-exit variant: a failed send ends it and leaves the rest queued |
| Mux.Multiplexer.SyncFromRadio | src/core.rs:696-716 | queues the full sync and one question per channel, and starts the first if the slot is free |
| Mux.Multiplexer.RegisterSession | src/core.rs:1004-1064 | loads what the identity missed and puts its cursor just below the first of it, or at the head |
| Mux.Multiplexer.ServeMissed | src/core.rs:1080-1105 | the loop pops ids until one still has its message, serves that one and moves the cursor to it |
| Mux.Multiplexer.ReplayNextMissed | src/core.rs:1080-1113 | serves the next missed message, and once nothing is pending moves the cursor to the head |
| Mux.Multiplexer.FollowHead | src/core.rs:1125-1144 | forgets disconnected sessions and moves the cursor of every caught-up identity, each once |
| Mux.Multiplexer.StoreMessage | src/core.rs:1119-1123 | stores the message and lets the caught-up cursors follow |
| Mux.Multiplexer.SynthesizeEcho | src/core.rs:1152-1226 | with the radio's key known, shows a client's well-formed send to the others and stores it; otherwise nothing |
| Mux.Multiplexer.OnCommandAccepted | src/core.rs:916-966 | notice, sync mark, contact refresh, name and echo of an accepted command |
| Mux.Multiplexer.CacheResponse | src/core.rs:1492-1684 | contacts, blobs, channels and messages are kept, anything else is ignored |
| Mux.Multiplexer.TryRouteToInFlight | src/core.rs:1424-1476 | takes a frame exactly if it belongs to the request in flight, hands it over, and at the end of the reply frees the slot, acts and advances |
| Mux.Multiplexer.TryRouteAck | src/core.rs:1478-1490 | takes exactly an ACK somebody waits for, consumes the entry and hands it over |
| Mux.Multiplexer.HandlePush | src/core.rs:1397-1413 | advert and path pushes queue a refresh; every push is broadcast |
| Mux.Multiplexer.HandleRadioRx | src/core.rs:1376-1420 | cache, then request in flight, then ACK, then push, else dropped |
| Mux.Multiplexer.RespondContacts | src/core.rs:1318-1357 | the loop sends the total count, the selected frames in row order and the newest modification among them |
| Mux.Multiplexer.TryServeFromCache | src/core.rs:800-850 | serves exactly what the cache can answer and says whether it did |
| Mux.Multiplexer.HandleClientCommand | src/core.rs:753-796 | bookkeeping, missed messages first, cache second, radio last |
| Layouts.ForwardedVerbatim | src/core.rs:786-796 | a command reaches the radio path as it came, a DEVICE_QUERY with version 3 |
| Layouts.VersionIsTold | src/core.rs:768-772 | a DEVICE_QUERY sets the version its client is served in, and nobody else's |
| Mux.Multiplexer.CheckInFlightTimeout | src/core.rs:1231-1254 | a request silent for the timeout is failed and the queue advanced; otherwise nothing |
| Layouts.MaintenanceAsksOnce | src/core.rs:421-436 | maintenance asks for all contacts if and only if they are purged by age and no full GET_CONTACTS is in flight or queued, whoever asked |
| Layouts.Periods | src/core.rs:1231-1254 | a request times out five seconds after the last frame it got, and an ACK is waited for five minutes |
| Mux.Multiplexer.RunMaintenance | src/core.rs:421-447 | queues a full sync unless one is pending or contacts are kept forever, then purges |
| Mux.Multiplexer.ReconnectRadio | src/core.rs:530-596 | fails the slot and the whole queue, keeps trying, then starts over on a new link |
| Names.ClientIsPortAndName | src/core.rs:1004-1064 | a connected client that sends APP_START with a name on a port is that port and name, whatever the version, the reserved bytes and the NULs behind the name, and has pending what that identity missed |
| Names.ShortStartIsNameless | src/core.rs:1006-1016 | an APP_START shorter than eight bytes announces the empty name |
| Names.OthersAnnounceThemselves | src/core.rs:1017-1064 | an APP_START of another name, or on another port, leaves the row of an identity and all it is owed as they were |
| Names.AbsentKeepTheirRows | src/core.rs:1004-1144 | in every step, an identity that nobody is connected as keeps its row, until it is purged |
| Reports.KeyIsTheRadios | src/core.rs:1283-1310 | over every run, the key is the 32 bytes behind the four-byte head of the last SELF_INFO read with at least 36 bytes, and the number of channels that of the last DEVICE_INFO that gives one, 40 before |
| Reports.AnswersAreTheLastRead | src/core.rs:1525-1541 | over every run, a SELF_INFO, DEVICE_INFO or BATTERY that is known is the last one read, or was left from the last session |
| Reports.KnownAtStart | src/core.rs:332-360 | at startup SELF_INFO is known from the handshake, DEVICE_INFO from the handshake or else the last session, BATTERY from the last session |
| Reports.ServedTheLastRead | src/core.rs:800-819 | in every state of every run, a client that asks for one of the three is handed the last one read if it is known, and its question goes to the radio otherwise |
| Setters.SettersAreNotOutrun | src/core.rs:889-896 | over every run, once a command has gone out that sets name, radio parameters, power, place, tuning, PIN or other parameters, or resets the radio, no client is served a SELF_INFO, DEVICE_INFO or BATTERY from the cache before the radio has sent a new one |
| Requests.StepKeeps | src/core.rs:384-413 | every step keeps conservation, order, reply shapes, what clients were told, and: a free slot means an empty queue or a closed link |
| Requests.RequestsAreConserved | src/core.rs:854-999 | over every run each request on the radio path is settled, in flight or queued, counted once; settled means one whole reply, one ERROR, or a client gone, never dropped without a word |
| Order.OrderKeptExactly | src/core.rs:854-999 | the requests ended, in flight and waiting are the requests in arrival order after a step if and only if they were before it and the step does not forward a client's request past entries waiting behind a free slot |
| Order.RequestsKeepTheirOrder | src/core.rs:854-999 | over every run, what has ended, is in flight and waits is, in this order and client by client, exactly what arrived, if and only if no step overtook |
| Order.NextGoesOut | src/core.rs:985-999 | with the slot free and the link open, the requests at the head whose clients have left are dropped without a word, and the one behind them goes out |
| Order.ClosedLinkOvertakes | src/core.rs:720-745 | from every startup whose link closed at once, a client that connects and asks for the time ends ahead of the channel questions that arrived before it |
| Requests.ClientsAreToldExactly | src/core.rs:1424-1476 | what a connected client received as answers is, frame by frame and in order, what its settled requests came to and the running one so far |
| Requests.SentInArrivalOrder | src/core.rs:696-745 | requests sent on a link, each with its client, are a subsequence of arrival order, none that waits was overtaken by one sent, the one in flight is the last sent, and the queue waits only behind it or on a closed link |
| Liveness.CompletionLowersPotential | src/core.rs:916-999 | every completed request lowers twice the client requests plus the internal ones outstanding |
| Liveness.TimeoutLowersPotential | src/core.rs:1231-1254 | every expired request lowers it too |
| Liveness.InternalTrafficDiesOut | src/core.rs:916-999 | without new commands, adverts or maintenance the number of requests that can still finish is bounded by that potential: refreshes cannot sustain themselves |
| Liveness.SilentRadioDrains | src/core.rs:985-999 | over every silent run, with early ticks, disconnections and the link closing: a path that is not stuck loses a request with every expiry, a stuck one stays as it is, and every client still there has had one ERROR, in order, for each of its requests that is gone |
| Liveness.DrainsExactly | src/core.rs:985-999 | some silent run empties slot and queue if and only if nothing waits behind a free slot |
| Liveness.MaintenanceClearsExactly | src/core.rs:421-436 | over a closed link a maintenance tick clears what waits behind a free slot if and only if contacts are purged by age and no full synchronisation is queued; a timeout tick never does |
| NoLoss.StepKeepsReplay | src/core.rs:1004-1144 | every step in which messages are heard keeps: nothing at or below a cursor is lost, and whatever a session has not pending, above where it identified itself, its identity has been shown |
| Pending.PendingIsTheRest | src/core.rs:1004-1105 | over every run, what a session has pending is a tail of the list of everything its identity had missed when it identified itself |
| Pending.MissedExactly | src/node/state.rs:298-312 | that list is, in increasing order, the ids of exactly the retained messages above the cursor that the identity did not send |
| NoLoss.NoMessageIsLost | src/core.rs:1004-1144 | over every such run, a retained message an identity may be replayed, above its starting point and at or below its cursor, was shown to it live, replayed to it, or sent by it, overlapping sessions included |
| InOrder.NoMessageIsLostInOrder | src/core.rs:1004-1144 | the same for every run in front of a radio that answers in order, without timeouts, whatever clients do and wherever pushes come |
| InOrder.MessageIsHeard | src/core.rs:1462-1464 | with such a radio a message frame is delivered only while everybody hears it |
| Late.LostAtOnce | src/core.rs:1384-1464 | right after a message has come in nothing is lost if and only if every caught-up identity has a connection that would hear it |
| LateRuns.LostExactlyWhenUnheard | src/core.rs:1080-1144 | nothing is lost after it in any continuation whose messages are heard if and only if every identity with a live connection, caught up or not, has one that would hear it |
| LateRuns.UnheardFromStart | src/core.rs:1080-1144 | from every startup whose link closed at once, after one client has identified itself, any message that comes in is lost in some continuation |
| LateReply.LateReplyIsLost | src/core.rs:1231-1254 | over an open link, a GET_MSG that times out is answered with ERROR, and the message the radio sends in reply after that is lost in some continuation in which everything else is heard |
| LateReply.LateReplyFromStart | src/core.rs:1231-1254 | such a GET_MSG is within reach of every startup over an open link, for every client to which nothing is owed, by a run in which no message goes unheard |
| ReplayOnce.ReplaysAreOnce | src/core.rs:1004-1113 | unless an APP_START overlaps, and without a purge of the identity, no message is replayed to an identity twice, none above its cursor, none of its own, however many of its connections are live |
| ReplayOnce.ReplaysIncrease | src/core.rs:1004-1113 | unless an APP_START to which something is owed meets another connection with anything stored pending, the ids replayed to an identity strictly increase |
| Repeats.HarmlessExactly | src/core.rs:1004-1113 | after any run without overlaps or a purge of the identity, nothing is replayed twice (or out of order) by a step and whatever follows it without overlaps if and only if the step is no overlap: after one, some GET_MSGs break the law |
| Repeats.OverlapIs | src/core.rs:1004-1064 | an APP_START overlaps exactly when another live connection of its identity has a stored message above the cursor pending (for the order: any stored message, while something is owed) |
| Overlap.OverlapFromStart | src/core.rs:1080-1113 | from every startup on a database that holds a message for an identity, two clients that identify themselves as it and ask once each are both replayed the same message |
| Overlap.OverlapRepeats | src/core.rs:1080-1113 | in any state, two connections of one identity that wait for the same message are both replayed it |
| ReplayOnce.CursorsMoveForward | src/node/state.rs:380-400 | no step moves a cursor back; its row goes only in maintenance and only past the retention period |
| LiveReplay.LiveEqualsReplayed | src/core.rs:1095-1281 | a message replayed in any later state is byte for byte what a client of the same version was sent, as reply or fan-out, in the step that stored it |
| Notices.MissedMailIsAnnounced | src/core.rs:1068-1076 | an APP_START answered from the cache is followed by MESSAGES_WAITING, to that client alone, if and only if the log holds a message for its identity: above its cursor, or for a newcomer within the backlog |
| Notices.IntroducedIsTold | src/core.rs:916-925 | an APP_START the radio answers is, if and only if the client is still there and has something pending; an ERROR is followed by no notice |
| Echo.EchoExactlyWhenAccepted | src/core.rs:916-966 | over every run, echoes are one for one and in order the clients' well-formed sends the radio accepted while its key was known, and so are the rows stored other than off the air, each with the echoed frame and under the identity its client had when the send went out |
| Origins.RunNames | src/core.rs:899-906 | over every run the request in flight is on record under the identity its client had in the step that sent it |
| Echo.KeyKnownEchoesAll | src/core.rs:1152-1226 | with the key known from startup, those are all the accepted sends |
| Echo.AcceptedSendIsEchoed | src/core.rs:1152-1226 | the accepting reply shows the send once to every other live client, never to the sender, and stores it once under the identity it had at dispatch |
| Echo.EchoNeedsTheKey | src/core.rs:1158-1161 | an accepted send is echoed if and only if the radio's key is known |
| Echo.KeyStaysKnown | src/core.rs:1283-1297 | once known the key stays known |
| Echo.OffTheAirIsNobodys | src/core.rs:1542-1663 | a message off the air is stored as it came, with no origin, and is never an echo |
| Echo.EchoReadsAsReceived | src/core.rs:1163-1209 | decoded like a received message, an echo carries the node's key prefix, the channel, clock and text of the send |
| Sends.DirectTextIsSent | src/core.rs:1152-1191 | in every state of every run: SENT to a client's direct text is handed to it and ends the request, its ACK code is waited for, and every other client and the log get a message from the first six bytes of the key last reported, with the type, clock and text that were sent |
| Sends.ChannelTextIsSent | src/core.rs:1193-1226 | OK to a channel text likewise, on the channel it was sent to, with the text as it goes on the air |
| Sends.TextOnAir | src/core.rs:49-62 | on the air the node's name, a colon and a blank precede the text, which is cut so that the whole has at most 160 bytes |
| Layouts.NameIsReported | src/core.rs:1283-1297 | the name is what follows the first 58 bytes of SELF_INFO, without the NULs behind it |
| Layouts.NameIsSet | src/core.rs:943-949 | a SET_ADVERT_NAME that the radio accepts is the name from then on |
| Acks.AcksFindTheirSender | src/core.rs:1478-1490 | after any run an ACK goes to the client its code was last announced to, unless consumed or evicted; any other is broadcast; nothing else changes |
| Acks.AnnouncementEvicts | src/core.rs:1438-1453 | after each announcement every remaining entry is younger than the time to live |
| Acks.PushesAreDelivered | src/core.rs:1376-1413 | a push is handed as it came to the client of the self-telemetry request waiting for it, and to nobody else; or to the client whose send it confirms; or to everybody |
| Acks.LateRepliesReachNobody | src/core.rs:1414-1420 | a reply nobody waits for is cached at most: no client sees it and no request ends by it |
| Retention.RetentionIsSafe | src/node/state.rs:439-508 | with a clock that does not go back, maintenance deletes no contact reported during the last completed full sync or since its dispatch, and nothing at all without a recorded sync |
| Retention.MaintenanceExactly | src/core.rs:421-447 | a whole maintenance step removes a contact if and only if it has expired |
| CachedReplies.CachedContactsLikeTheRadio | src/core.rs:820-832 | when the rows are the radio's frames, the cached reply for every since is one the radio would give: total count, a permutation of the newer frames, newest modification among them |
| CachedReplies.ListingIs | src/core.rs:1318-1357 | the listing sends the selected entries in row order and ends with their newest modification |
| Layouts.ListedByName | src/node/state.rs:219-227 | contacts are listed in the byte order of their names, every row once |
| Layouts.ContactIsCached | src/core.rs:1492-1524 | a CONTACT frame made of key, type, name, times and place is cached under its key with those, and served as it came |
| Layouts.LegacyRowIsServed | src/core.rs:1318-1357 | a row without a raw frame is served as the frame made of what the row knows, with modification time 0 |
| Layouts.ChannelIsCached | src/core.rs:1665-1681 | a CHANNEL_INFO made of index, name and secret is cached under its index with those, and served as it came |
| Layouts.SinceIsCarried | src/core.rs:820-832 | GET_CONTACTS carries its since in the four bytes after the code |
| CachedReplies.NoSinceIsNotZero | src/core.rs:820-832 | without since and with since 0 the listings differ exactly when an entry has modification time 0 |
| CachedReplies.ChannelServedVerbatim | src/core.rs:1359-1374 | a channel is served byte for byte exactly when its frame had no tail and a zero-padded name |
| Environment.ReplyIsTheRadios | src/core.rs:1424-1476 | with an in-order radio and no timeouts, the requests answered on a link are the commands sent, in order, each with the radio's whole reply; at most one is outstanding |
| Environment.NextReplyFrame | src/core.rs:104-119 | the next frame of a reply always belongs to the command in flight and ends it exactly when it is the last |
| Coherence.ContactsAreCoherent | src/core.rs:927-979 | a cached contact the radio holds equals the radio's, or news or a refresh covering it is on the wire, queued, in flight, or just accepted, or the link is closed, or the radio has refused to tell it or changed it by a command without a follow-up |
| Witnesses.RefusedWhenIdle | src/core.rs:108-116 | from every idle state with a contact cached, a change announced and its refresh refused leave the multiplexer idle again with the old contact, which the radio holds otherwise |
| Witnesses.RefusedFromStart | src/core.rs:696-745 | from every startup on an open link, a refused full synchronisation leaves a contact of the old database cached as it was, with nothing under way that could correct it |
| Lasting.AskedAgainExactly | src/core.rs:421-447 | an idle multiplexer left alone shows what it showed for as long as it is left alone, unless contacts are purged by age: then, and only then, the first maintenance tick asks for all of them again |
| Lasting.StaleOnClosedLink | src/core.rs:866-876 | once the sender of the link has closed, a contact whose change the radio announces stays cached as it was, with nothing under way |
| Coherence.RemovedStaysRemoved | src/core.rs:877-884 | a contact whose removal was accepted is neither cached nor on the wire until the radio holds it again |
| Coherence.ChannelsAreCoherent | src/core.rs:885-888 | a cached channel equals the radio's, or its frame is on the wire, or the question for it is queued or unanswered, or the link is closed, or it was never asked for, or the radio has refused to tell it or changed it by another command |
| Coherence.WithdrawnIsNotServed | src/core.rs:877-896 | while a removing or setting command is in flight, what it touches is not served |
| Witnesses.StaleChannelServed | src/core.rs:833-848 | a client that asks right after a startup is handed the database's channel, which differs from what the radio holds |
| Witnesses.StaleDeviceInfoServed | src/core.rs:339-345 | after a handshake without DEVICE_INFO a client is handed the last session's, which differs from what the radio holds |
| Freshness.StaleExactly | src/core.rs:866-979 | on a link, a cached item is not what the radio holds if and only if it was cached otherwise when the link began, or when the radio last gave an answer that changed it, told it or refused to tell it, and no frame about it has been read since; of contacts, while no news is under way over an open link |
| Freshness.WithdrawnIsNotWrong | src/core.rs:877-896 | a command that drops an item from the cache never leaves it stale, whatever the radio makes of it |
| Unnoticed.OldServedFromStart | src/core.rs:889-896 | from every startup over an open link some run ends with a client handed a SELF_INFO, or DEVICE_INFO, that IMPORT_PRIVATE_KEY or SET_PATH_HASH_MODE has made the radio give up |
| Freshness.DeviceInfoWrongExactly | src/core.rs:597-640 | a reconnection begins with a wrong DEVICE_INFO if and only if the handshake brought none and the one kept differs |
| Freshness.SelfInfoStaleExactly | src/core.rs:889-896 | a cached SELF_INFO is not what the radio holds if and only if an answer on this link changed it while it was cached and no SELF_INFO has been read since |
| Freshness.SelfInfoServedExactly | src/core.rs:800-810 | a client served SELF_INFO from the cache is handed what the radio holds now if and only if no such answer was given |
| Freshness.ViewIsServed | src/core.rs:800-850 | the view the coherence claims speak of is what a client asking for the item is handed |

## Left out

- NoMessageIsLost: the promise counts from the cursor an identity has when the run begins, or when its purged row is created anew; what came before is not accounted for. With a new-client backlog by age it takes a clock that has not run backwards within the log, because otherwise `Store.BacklogIsATail` finds a gap.
- NoMessageIsLostInOrder: a command the reply table does not know is taken not to be answered with a message; for one that is, `LateRuns.LostExactlyWhenUnheard` says what is lost.
- ReplyIsTheRadios: stated without timeouts and without stray self-telemetry pushes; a late reply after a timeout may be taken for the reply to the next command of the same shape.
- ContactsAreCoherent: contacts the radio drops or changes without announcing it (0x80, 0x81) are outside the claim, and so are items it does not hold.
- StaleExactly: BATTERY is left out, because its value changes by itself; channels, SELF_INFO and DEVICE_INFO are taken to change by commands and between links only, not by themselves.
- Text is bytes: lossy UTF-8 conversion of names and texts is not modelled.
- Coordinates are one opaque field of legacy contact rows; floating point does not occur.
- The decoded columns of stored messages (type, sender key, channel, text) are not kept; replay uses the frame alone.
- The recording of raw radio frames, log events and JSON events is left out.
- SQLite is modelled as tables with a primary key and an id counter; database errors, migrations and vacuum are left out.
- Sockets, serial ports, BLE and the asynchronous runtime are left out; what remains is fresh client ids, connect and disconnect, and a link that may close.
- The relative order of direct sends and broadcast pushes on one client's socket, and broadcast lag, are not modelled.
- A handler reads one clock value, and the set of connected clients changes between handlers or while a reconnection waits, not within a handler.
- Backoff delays, waiting times of the handshake and the shutdown sequence are left out; the outcome of every attempt is a parameter of the reconnection, and handshake commands are not counted as requests.
- Parsing of the new-client backlog setting, command-line options and the display tables of the decoder are left out; only the length guards that decide whether a frame is stored are kept.
- The order of contacts with equal names is modelled but nothing is claimed of it.
- ConversionKeepsReading: the signature of a signed text counts as part of its text.
