/** The multiplexer's handlers as functions on one state value. Each handler runs to completion inside the
    select loop, so a step of the system is one call of `Step`. */
module CoreState {
  import opened Bytes
  import opened Protocol
  import opened Store

  const IN_FLIGHT_TIMEOUT_MS := 5_000
  const PENDING_ACK_TTL_MS := 300_000

  type ClientId = nat

  /** The two clocks a handler reads: monotonic milliseconds and unix seconds. */
  datatype Clock = Clock(mono: int, unix: int)

  type Key = k: Frame | |k| == 32 witness seq(32, _ => 0)

  /** A command on its way to the radio; `None` marks the multiplexer's own. */
  datatype Request = Request(client: Option<ClientId>, payload: Command)

  datatype InFlight = InFlight(client: Option<ClientId>, payload: Command, lastActivity: int, sentUnix: int,
                               awaiting: Awaiting, origin: Option<Identity>)
  {
    function Req(): Request {
      Request(client, payload)
    }
  }

  datatype Session = Session(who: Identity, pending: seq<int>)

  /** The sender half of the radio link. Once closed it never opens again; a reconnection brings a new one.
      `sent` and `routed` are history: the requests handed over through the slot, and the frames routed to each. */
  datatype Link = Link(attached: bool, open: bool, sent: seq<Request>, routed: seq<seq<Command>>)

  const NO_LINK := Link(false, false, [], [])

  /** Why a frame went to one client. */
  datatype Kind = Reply | Failure | Cached | Missed(id: int) | Notice | Ack

  /** Why a frame went to every client but one. */
  datatype Spread = Heard | Echoed(request: Request)

  /** What clients are handed. `frame` is the frame as the multiplexer holds it, `wire` the bytes put on a
      client's channel. */
  datatype Event =
    | ToClient(client: ClientId, frame: Frame, wire: Frame, kind: Kind)
    | ToOthers(frame: Frame, wires: map<ClientId, Frame>, why: Spread)
    | ToAll(frame: Frame)

  /** How a request on the radio path ended. `frames` is what the radio had answered. */
  datatype Outcome =
    | Answered(frames: seq<Command>)
    | Failed(frames: seq<Command>)      // ERROR from the multiplexer
    | Gone                              // dropped: the client had left
    | Lost                              // dropped without a word

  datatype Settled = Settled(request: Request, outcome: Outcome)

  datatype Config = Config(retention: Retention, backlog: Backlog)

  /** What the multiplexer knows about its radio. */
  datatype Memory = Memory(selfInfo: Option<Frame>, deviceInfo: Option<Frame>, batteryInfo: Option<Frame>,
                           pubkey: Option<Key>, name: Option<Frame>, maxChannels: byte)

  /** The radio path. `arrived` and `settled` are history: every request put on the path, and how each that
      left it ended. */
  datatype Path = Path(link: Link, inFlight: Option<InFlight>, queue: seq<Request>,
                       arrived: seq<Request>, settled: seq<Settled>)

  datatype Core = Core(
    conf: Config, mem: Memory, path: Path,
    live: set<ClientId>, nextClient: nat,
    acks: map<Frame, (ClientId, int)>,
    sessions: map<ClientId, Session>, versions: map<ClientId, byte>,
    db: Tables, out: seq<Event>)

  // ---------------------------------------------------------------------
  // Talking to clients
  // ---------------------------------------------------------------------

  function Version(c: Core, client: ClientId): byte {
    if client in c.versions then c.versions[client] else 0
  }

  function Wire(c: Core, client: ClientId, frame: Frame): Frame {
    MessageFrameFor(Version(c, client), frame)
  }

  function SendToClient(c: Core, client: ClientId, frame: Frame, kind: Kind): Core {
    if client in c.live then c.(out := c.out + [ToClient(client, frame, Wire(c, client, frame), kind)]) else c
  }

  function Recipients(c: Core, exclude: Option<ClientId>): set<ClientId> {
    set id | id in c.live && exclude != Some(id)
  }

  function BroadcastToOthers(c: Core, exclude: Option<ClientId>, frame: Frame, why: Spread): Core {
    c.(out := c.out + [ToOthers(frame, map id | id in Recipients(c, exclude) :: Wire(c, id, frame), why)])
  }

  // ---------------------------------------------------------------------
  // The radio path: slot, queue, link
  // ---------------------------------------------------------------------

  function WithSlot(c: Core, slot: Option<InFlight>): Core {
    c.(path := c.path.(inFlight := slot))
  }

  function WithQueue(c: Core, queue: seq<Request>): Core {
    c.(path := c.path.(queue := queue))
  }

  function WithLink(c: Core, link: Link): Core {
    c.(path := c.path.(link := link))
  }

  function Arrive(c: Core, requests: seq<Request>): Core {
    c.(path := c.path.(arrived := c.path.arrived + requests))
  }

  predicate CanSend(c: Core) {
    c.path.link.attached && c.path.link.open
  }

  function Settle(c: Core, q: Request, outcome: Outcome): Core {
    c.(path := c.path.(settled := c.path.settled + [Settled(q, outcome)]))
  }

  function SendError(c: Core, client: Option<ClientId>): Core {
    if client.Some? then SendToClient(c, client.value, ERROR_FRAME, Failure) else c
  }

  /** ERROR to the originating client, if any; the request is over. */
  function Fail(c: Core, q: Request, frames: seq<Command>): Core {
    Settle(SendError(c, q.client), q, Failed(frames))
  }

  /** The frames routed so far to the command sent last. */
  function CurrentFrames(c: Core): seq<Command> {
    if c.path.link.routed == [] then [] else c.path.link.routed[|c.path.link.routed| - 1]
  }

  function HandOver(c: Core, q: Request): Core {
    WithLink(c, c.path.link.(sent := c.path.link.sent + [q], routed := c.path.link.routed + [[]]))
  }

  function IdentityOf(c: Core, client: Option<ClientId>): Option<Identity> {
    if client.Some? && client.value in c.sessions then Some(c.sessions[client.value].who) else None
  }

  function Occupy(c: Core, q: Request, now: Clock): Core {
    WithSlot(c, Some(InFlight(q.client, q.payload, now.mono, now.unix, AwaitingFor(q.payload),
                              IdentityOf(c, q.client))))
  }

  /** Cached answers a command makes obsolete, dropped as soon as it is handed over. */
  function Invalidate(c: Core, payload: Command): Core {
    if payload[0] == 0x0F then
      if |payload| >= 33 then c.(db := DeleteContact(c.db, payload[1..33])) else c
    else if payload[0] == 0x20 then
      if |payload| > 1 then c.(db := DeleteChannel(c.db, payload[1])) else c
    else if InvalidatesIdentity(payload)
        then c.(mem := c.mem.(selfInfo := None, deviceInfo := None, batteryInfo := None))
    else c
  }

  function DispatchToRadio(c: Core, q: Request, now: Clock): Core {
    if CanSend(c) then Occupy(Invalidate(HandOver(c, q), q.payload), q, now)
    else Fail(c, q, [])
  }

  function Enqueue(c: Core, q: Request): Core {
    WithQueue(Arrive(c, [q]), c.path.queue + [q])
  }

  function EnqueueOrDispatch(c: Core, q: Request, now: Clock): Core {
    if c.path.inFlight.None? then DispatchToRadio(Arrive(c, [q]), q, now) else Enqueue(c, q)
  }

  predicate ClientLeft(c: Core, q: Request) {
    q.client.Some? && q.client.value !in c.live
  }

  /** Dispatch the next queued request whose client is still there; stop at the first that goes out. */
  function AdvanceQueue(c: Core, now: Clock): Core
    decreases |c.path.queue|
  {
    if c.path.queue == [] then c
    else
      var q, c1 := c.path.queue[0], WithQueue(c, c.path.queue[1..]);
      if ClientLeft(c1, q) then AdvanceQueue(Settle(c1, q, Gone), now)
      else
        var c2 := DispatchToRadio(c1, q, now);
        if c2.path.inFlight.Some? then c2 else AdvanceQueue(c2, now)
  }

  /** One direct send into the free slot. Without a link the request is lost without a word. */
  function SendOrGiveUp(c: Core, q: Request, now: Clock): Core {
    if !c.path.link.attached then Settle(c, q, Lost)
    else if !c.path.link.open then Fail(c, q, [])
    else Occupy(HandOver(c, q), q, now)
  }

  /** The variant `sync_from_radio` uses: no cache invalidation, and a failed send ends it at once. */
  function AdvanceQueueSync(c: Core, now: Clock): Core
    decreases |c.path.queue|
  {
    if c.path.queue == [] then c
    else
      var q, c1 := c.path.queue[0], WithQueue(c, c.path.queue[1..]);
      if ClientLeft(c1, q) then AdvanceQueueSync(Settle(c1, q, Gone), now)
      else SendOrGiveUp(c1, q, now)
  }

  // ---------------------------------------------------------------------
  // Sessions and missed messages
  // ---------------------------------------------------------------------

  datatype ClientCommand = ClientCommand(client: ClientId, port: nat, payload: Frame)

  /** APP_START: `[0x01, app_ver, reserved(6), app_name...]`. */
  function AppName(payload: Frame): Frame {
    if |payload| >= 8 then TrimNuls(payload[8..]) else []
  }

  /** The stored messages a client identifying itself now has not seen. */
  function MissedBy(c: Core, who: Identity, now: Clock): seq<int> {
    if who in c.db.clients then MessageIdsAfter(c.db, c.db.clients[who].lastSeen, who)
    else BacklogMessageIds(c.db, c.conf.backlog, who, now.unix)
  }

  function RegisterSession(c: Core, cmd: ClientCommand, now: Clock): Core {
    var who := Identity(cmd.port, AppName(cmd.payload));
    var pending := MissedBy(c, who, now);
    var cursor := if pending == [] then MessageHead(c.db) else pending[0] - 1;
    c.(db := AdvanceClientCursor(c.db, who, cursor, now.unix),
       sessions := c.sessions[cmd.client := Session(who, pending)])
  }

  function NotifyMissed(c: Core, client: ClientId): Core {
    if client in c.sessions && c.sessions[client].pending != [] then SendToClient(c, client, [0x83], Notice) else c
  }

  function AdvanceCursor(c: Core, who: Identity, seen: int, now: Clock): Core {
    c.(db := AdvanceClientCursor(c.db, who, seen, now.unix))
  }

  /** Pop pending ids until one is still stored, and serve that one. */
  function ServeMissed(c: Core, client: ClientId, now: Clock): (Core, bool)
    requires client in c.sessions
    decreases |c.sessions[client].pending|
  {
    var s := c.sessions[client];
    if s.pending == [] then (c, false)
    else
      var id, c1 := s.pending[0], c.(sessions := c.sessions[client := s.(pending := s.pending[1..])]);
      var frame := MessageFrame(c1.db, id);
      if frame.None? then ServeMissed(c1, client, now)
      else (AdvanceCursor(SendToClient(c1, client, frame.value, Missed(id)), s.who, id, now), true)
  }

  /** Once nothing is pending the cursor follows live traffic. */
  function CatchUp(c: Core, client: ClientId, who: Identity, now: Clock): Core {
    if client in c.sessions && c.sessions[client].pending == [] then
      AdvanceCursor(c, who, MessageHead(c.db), now)
    else c
  }

  function ReplayNextMissed(c: Core, client: ClientId, now: Clock): (Core, bool) {
    if client !in c.sessions then (c, false)
    else
      var (c1, served) := ServeMissed(c, client, now);
      (CatchUp(c1, client, c.sessions[client].who, now), served)
  }

  /** The identities whose cursor follows live traffic. */
  function CaughtUp(sessions: map<ClientId, Session>): set<Identity> {
    set id | id in sessions && sessions[id].pending == [] :: sessions[id].who
  }

  function AdvanceAll(clients: map<Identity, Client>, whos: set<Identity>, seen: int, now: int): map<Identity, Client> {
    map who | who in clients.Keys + whos ::
      if who in whos then AdvancedRow(clients, who, seen, now) else clients[who]
  }

  /** Forget disconnected clients and move every caught-up identity's cursor to `id`. */
  function FollowHead(c: Core, id: int, now: Clock): Core {
    var sessions := map k | k in c.sessions && k in c.live :: c.sessions[k];
    var versions := map k | k in c.versions && k in c.live :: c.versions[k];
    c.(sessions := sessions, versions := versions,
       db := c.db.(clients := AdvanceAll(c.db.clients, CaughtUp(sessions), id, now.unix)))
  }

  function StoreMessage(c: Core, timestamp: int, frame: Frame, origin: Option<Identity>, now: Clock): Core {
    var c1 := c.(db := InsertMessage(c.db, timestamp, frame, origin, now.unix));
    FollowHead(c1, c1.db.lastId, now)
  }

  // ---------------------------------------------------------------------
  // Side effects of an accepted command
  // ---------------------------------------------------------------------

  /** CONTACT_MSG_RECV as if the text had come over the air from this node. */
  function ContactEcho(pubkey: Key, payload: Command): Frame
    requires |payload| >= 14
  {
    [0x07] + pubkey[..6] + [0, payload[1]] + payload[3..7] + payload[13..]
  }

  /** CHANNEL_MSG_RECV as if the text had come over the air from this node. */
  function ChannelEcho(name: Option<Frame>, payload: Command): Frame
    requires |payload| >= 8
  {
    [0x08, payload[2], 0, 0] + payload[3..7] + ChannelTextOnAir(name, payload[7..])
  }

  function EchoFrame(c: Core, payload: Command): Frame
    requires IsWellFormedSend(payload) && c.mem.pubkey.Some?
  {
    if payload[0] == 0x02 then ContactEcho(c.mem.pubkey.value, payload) else ChannelEcho(c.mem.name, payload)
  }

  /** Show an accepted send to the other clients and store it. Without the radio's key nothing happens. */
  function SynthesizeEcho(c: Core, done: InFlight, now: Clock): Core {
    if done.client.Some? && IsWellFormedSend(done.payload) && c.mem.pubkey.Some? then
      var echo := EchoFrame(c, done.payload);
      StoreMessage(BroadcastToOthers(c, done.client, echo, Echoed(done.Req())),
                   U32(done.payload, 3), echo, done.origin, now)
    else c
  }

  function RefreshContact(c: Core, key: Frame): Core {
    Enqueue(c, Request(None, RefreshCommand(key)))
  }

  /** What an accepted command changes besides its reply. */
  function ApplyAccepted(c: Core, done: InFlight): Core {
    var p := done.payload;
    if p[0] == 0x04 then
      if |p| == 1 then c.(db := c.db.(contactsSyncedAt := Some(done.sentUnix))) else c
    else if p[0] in {0x09, 0x0D} then
      if |p| >= 33 then RefreshContact(c, p[1..33]) else c
    else if p[0] == 0x12 then Enqueue(c, Request(None, FULL_SYNC))
    else if p[0] == 0x08 then c.(mem := c.mem.(name := Some(TrimNuls(p[1..Min(|p|, 32)]))))
    else c
  }

  function OnCommandAccepted(c: Core, done: InFlight, now: Clock): Core {
    var c1 := if done.payload[0] == 0x01 && done.client.Some? then NotifyMissed(c, done.client.value) else c;
    SynthesizeEcho(ApplyAccepted(c1, done), done, now)
  }

  // ---------------------------------------------------------------------
  // Frames from the radio
  // ---------------------------------------------------------------------

  function ExtractRadioIdentity(c: Core, blob: Frame): Core {
    var c1 := if |blob| >= 36 then c.(mem := c.mem.(pubkey := Some(blob[4..36]))) else c;
    if |blob| >= 52 then
      var offset := if |blob| > 57 then 58 else 56;
      c1.(mem := c1.mem.(name := Some(TrimNuls(if |blob| > offset then blob[offset..] else []))))
    else c1
  }

  function ExtractMaxChannels(c: Core, blob: Frame): Core {
    if |blob| > 3 && blob[3] > 0 then c.(mem := c.mem.(maxChannels := blob[3])) else c
  }

  function ContactFromFrame(p: Command, now: Clock): Contact
    requires IsContactFrame(p)
  {
    var nameField := p[100..132];
    Contact(p[1..33], nameField[..FirstNul(nameField)], p[33], Some(U32(p, 132)), p[136..144],
            Some(p[..CONTACT_FRAME_LEN]), Some(now.unix))
  }

  function ChannelFromFrame(p: Command): Channel
    requires IsChannelFrame(p)
  {
    var nameField := p[2..34];
    Channel(p[1], nameField[..FirstNul(nameField)], Some(p[34..50]))
  }

  function KeepSelfInfo(c: Core, blob: Frame): Core {
    var c1 := ExtractRadioIdentity(c, blob);
    c1.(mem := c1.mem.(selfInfo := Some(blob)))
  }

  function KeepDeviceInfo(c: Core, blob: Frame): Core {
    var c1 := ExtractMaxChannels(c, blob);
    c1.(mem := c1.mem.(deviceInfo := Some(blob)))
  }

  function CacheSelfInfo(c: Core, p: Frame): Core {
    KeepSelfInfo(c.(db := c.db.(blobs := c.db.blobs[SelfInfo := p])), p)
  }

  function CacheDeviceInfo(c: Core, p: Frame): Core {
    KeepDeviceInfo(c.(db := c.db.(blobs := c.db.blobs[DeviceInfo := p])), p)
  }

  function CacheResponse(c: Core, p: Command, now: Clock): Core {
    if IsContactFrame(p) then c.(db := UpsertContact(c.db, ContactFromFrame(p, now)))
    else if p[0] == 0x05 then
      CacheSelfInfo(c, p)
    else if p[0] == 0x0C then c.(db := c.db.(blobs := c.db.blobs[Battery := p]), mem := c.mem.(batteryInfo := Some(p)))
    else if p[0] == 0x0D then
      CacheDeviceInfo(c, p)
    else if Storable(p) then StoreMessage(c, MessageTimestamp(p), p, None, now)
    else if IsChannelFrame(p) then c.(db := UpsertChannel(c.db, ChannelFromFrame(p)))
    else c
  }

  /** Remember who waits for a delivery ACK, evicting entries past their time. */
  function StashAck(c: Core, client: ClientId, p: Command, now: Clock): Core {
    if p[0] == 0x06 && |p| >= 6 then
      var young := map a | a in c.acks && now.mono - c.acks[a].1 < PENDING_ACK_TTL_MS :: c.acks[a];
      c.(acks := young[p[2..6] := (client, now.mono)])
    else c
  }

  function AppendRouted(c: Core, p: Command): Core {
    if c.path.link.routed == [] then c
    else
      var n := |c.path.link.routed| - 1;
      WithLink(c, c.path.link.(routed := c.path.link.routed[n := c.path.link.routed[n] + [p]]))
  }

  predicate BelongsToInFlight(c: Core, p: Command) {
    c.path.inFlight.Some? && c.path.inFlight.value.awaiting.Belongs(p[0])
  }

  function PassOn(c: Core, f: InFlight, p: Command, now: Clock): Core {
    if f.client.Some? then SendToClient(StashAck(c, f.client.value, p, now), f.client.value, p, Reply) else c
  }

  /** Hand a frame of the reply over: to the originator, and a received message to everybody else too. */
  function Forward(c: Core, f: InFlight, p: Command, now: Clock): Core {
    var c1 := PassOn(AppendRouted(c, p), f, p, now);
    if f.payload[0] == 0x0A && IsMessageCode(p[0]) then BroadcastToOthers(c1, f.client, p, Heard) else c1
  }

  /** Free the slot, act on an accepted command, and let the next request go. */
  function Complete(c: Core, f: InFlight, p: Command, now: Clock): Core {
    var c1 := Settle(WithSlot(c, None), f.Req(), Answered(CurrentFrames(c)));
    AdvanceQueue(if IsError(p) then c1 else OnCommandAccepted(c1, f, now), now)
  }

  function RouteToInFlight(c: Core, p: Command, now: Clock): Core
    requires BelongsToInFlight(c, p)
  {
    var f := c.path.inFlight.value;
    var c1 := Forward(c, f, p, now);
    if f.awaiting.Completes(p[0]) then Complete(c1, f, p, now)
    else WithSlot(c1, Some(f.(lastActivity := now.mono)))
  }

  predicate MatchesAck(c: Core, p: Command) {
    p[0] == 0x82 && |p| >= 5 && p[1..5] in c.acks
  }

  function RouteAck(c: Core, p: Command): Core
    requires MatchesAck(c, p)
  {
    SendToClient(c.(acks := c.acks - {p[1..5]}), c.acks[p[1..5]].0, p, Ack)
  }

  function HandlePush(c: Core, p: Command, now: Clock): Core {
    var c1 :=
      if p[0] in {0x80, 0x81} && |p| >= 33 then
        var r := RefreshContact(c, p[1..33]);
        if r.path.inFlight.None? then AdvanceQueue(r, now) else r
      else c;
    c1.(out := c1.out + [ToAll(p)])
  }

  function HandleRadioRx(c: Core, p: Frame, now: Clock): Core {
    if p == [] then c
    else
      var c1 := CacheResponse(c, p, now);
      if BelongsToInFlight(c1, p) then RouteToInFlight(c1, p, now)
      else if MatchesAck(c1, p) then RouteAck(c1, p)
      else if IsPush(p[0]) then HandlePush(c1, p, now)
      else c1
  }

  // ---------------------------------------------------------------------
  // Commands from clients
  // ---------------------------------------------------------------------

  /** Rebuild a CONTACT frame for a row cached before raw frames were kept. */
  function SynthesizeContactFrame(row: Contact): (f: Frame)
    ensures |f| == CONTACT_FRAME_LEN
  {
    var lastAdvert := if row.lastAdvert.Some? then row.lastAdvert.value else 0;
    [0x03] + PadTo(row.key, 32) + [row.kind, 0, 0] + seq(64, _ => 0) + PadTo(row.name, 32)
    + LE32(lastAdvert % 0x1_0000_0000) + PadTo(row.place, 8) + [0, 0, 0, 0]
  }

  function ContactFrame(row: Contact): (f: Frame)
    ensures |f| == CONTACT_FRAME_LEN
  {
    if row.raw.Some? && |row.raw.value| >= CONTACT_FRAME_LEN then [0x03] + row.raw.value[1..CONTACT_FRAME_LEN]
    else SynthesizeContactFrame(row)
  }

  function LastMod(row: Contact): nat {
    U32(ContactFrame(row), 144)
  }

  /** `since` of a GET_CONTACTS, when it carries one. */
  function Since(payload: Frame): Option<nat> {
    if |payload| >= 5 then Some(U32(payload, 1)) else None
  }

  predicate Wanted(row: Contact, since: Option<nat>) {
    since.None? || LastMod(row) > since.value
  }

  /** The CONTACT frames of a cached listing, and the newest lastmod among them. */
  function ListContacts(c: Core, client: ClientId, rows: seq<Contact>, since: Option<nat>): (Core, nat) {
    if rows == [] then (c, 0)
    else
      var (c1, newest) := ListContacts(c, client, rows[..|rows| - 1], since);
      var row := rows[|rows| - 1];
      if Wanted(row, since) then (SendToClient(c1, client, ContactFrame(row), Cached), Max(newest, LastMod(row)))
      else (c1, newest)
  }

  function RespondContacts(c: Core, client: ClientId, rows: seq<Contact>, since: Option<nat>): Core {
    var c1 := SendToClient(c, client, [0x02] + LE32(|rows|), Cached);
    var (c2, newest) := ListContacts(c1, client, rows, since);
    SendToClient(c2, client, [0x04] + LE32(newest), Cached)
  }

  function ChannelFrame(ch: Channel): Frame {
    [0x12, ch.idx % 256] + PadTo(ch.name, 32) + PadTo(if ch.config.Some? then ch.config.value else [], 16)
  }

  function CachedBlob(c: Core, code: byte): Option<Frame> {
    if code == 0x01 then c.mem.selfInfo
    else if code == 0x16 then c.mem.deviceInfo
    else if code == 0x14 then c.mem.batteryInfo
    else None
  }

  function RequestedChannel(payload: Frame): int {
    if |payload| > 1 then payload[1] as int else -1
  }

  /** The command answered from RAM or the database, if it can be. */
  function TryServeFromCache(c: Core, cmd: ClientCommand): Option<Core>
    requires cmd.payload != []
  {
    var code := cmd.payload[0];
    if CachedBlob(c, code).Some? then Some(SendToClient(c, cmd.client, CachedBlob(c, code).value, Cached))
    else if code == 0x04 && c.db.contacts != [] then
      Some(RespondContacts(c, cmd.client, GetContacts(c.db), Since(cmd.payload)))
    else if code == 0x1F && RequestedChannel(cmd.payload) in c.db.channels then
      Some(SendToClient(c, cmd.client, ChannelFrame(c.db.channels[RequestedChannel(cmd.payload)]), Cached))
    else None
  }

  /** A DEVICE_QUERY that reaches the radio keeps the multiplexer's own version. */
  function ForRadio(payload: Command): Command {
    if payload[0] == 0x16 then [0x16, RADIO_PROTOCOL_VERSION] else payload
  }

  /** Bookkeeping a command causes before it is served. */
  function NoteCommand(c: Core, cmd: ClientCommand, now: Clock): Core
    requires cmd.payload != []
  {
    if cmd.payload[0] == 0x01 then RegisterSession(c, cmd, now)
    else if cmd.payload[0] == 0x16 && |cmd.payload| > 1 then
      c.(versions := c.versions[cmd.client := cmd.payload[1]])
    else c
  }

  /** Cache first, radio otherwise. */
  function ServeOrForward(c: Core, cmd: ClientCommand, now: Clock): Core
    requires cmd.payload != []
  {
    var served := TryServeFromCache(c, cmd);
    if served.Some? then
      if cmd.payload[0] == 0x01 then NotifyMissed(served.value, cmd.client) else served.value
    else EnqueueOrDispatch(c, Request(Some(cmd.client), ForRadio(cmd.payload)), now)
  }

  function HandleClientCommand(c: Core, cmd: ClientCommand, now: Clock): Core {
    if cmd.payload == [] || cmd.client !in c.live then c
    else
      var c1 := NoteCommand(c, cmd, now);
      var (c2, replayed) := if cmd.payload[0] == 0x0A then ReplayNextMissed(c1, cmd.client, now) else (c1, false);
      if replayed then c2 else ServeOrForward(c2, cmd, now)
  }

  // ---------------------------------------------------------------------
  // Ticks and the link
  // ---------------------------------------------------------------------

  predicate TimedOut(c: Core, now: Clock) {
    c.path.inFlight.Some? && now.mono - c.path.inFlight.value.lastActivity >= IN_FLIGHT_TIMEOUT_MS
  }

  /** Give the slot's request up. */
  function FailInFlight(c: Core): Core {
    if c.path.inFlight.None? then c
    else Fail(WithSlot(c, None), c.path.inFlight.value.Req(), CurrentFrames(c))
  }

  function CheckInFlightTimeout(c: Core, now: Clock): Core {
    if TimedOut(c, now) then AdvanceQueue(FailInFlight(c), now) else c
  }

  predicate FullSyncPending(c: Core) {
    (c.path.inFlight.Some? && c.path.inFlight.value.payload == FULL_SYNC)
    || exists i :: 0 <= i < |c.path.queue| && c.path.queue[i].payload == FULL_SYNC
  }

  function RequestFullSync(c: Core, now: Clock): Core {
    if c.conf.retention.contactsDays > 0 && !FullSyncPending(c) then
      var c1 := Enqueue(c, Request(None, FULL_SYNC));
      if c1.path.inFlight.None? then AdvanceQueue(c1, now) else c1
    else c
  }

  function RunMaintenance(c: Core, now: Clock): Core {
    var c1 := RequestFullSync(c, now);
    c1.(db := Maintain(c1.db, c1.conf.retention, now.unix))
  }

  type SelfInfoFrame = p: Command | p[0] == 0x05 witness [0x05]
  type DeviceInfoFrame = p: Command | p[0] == 0x0D witness [0x0D]

  /** How a reconnection went: the clients that left meanwhile, the attempts that failed (with the SELF_INFO
      each got, if any), and the handshake of the one that succeeded; `open` tells whether the new link was
      still up when the sync was queued. */
  datatype Reconnection = Reconnection(left: set<ClientId>, attempts: seq<Option<SelfInfoFrame>>,
                                       selfInfo: SelfInfoFrame, deviceInfo: Option<DeviceInfoFrame>, open: bool)

  /** Fail every queued client request, discard internal ones. */
  function FailQueue(c: Core): Core
    decreases |c.path.queue|
  {
    if c.path.queue == [] then c
    else FailQueue(Fail(WithQueue(c, c.path.queue[1..]), c.path.queue[0], []))
  }

  function LoseRadio(c: Core): Core {
    FailQueue(WithLink(FailInFlight(c), NO_LINK))
  }

  function FailedAttempts(c: Core, attempts: seq<Option<SelfInfoFrame>>, now: Clock): Core {
    if attempts == [] then c
    else
      var c1 := FailedAttempts(c, attempts[..|attempts| - 1], now);
      var last := attempts[|attempts| - 1];
      if last.Some? then CacheResponse(c1, last.value, now) else c1
  }

  function SyncCommands(channels: nat): seq<Request>
    requires channels <= 256
  {
    if channels == 0 then [Request(None, FULL_SYNC)]
    else SyncCommands(channels - 1) + [Request(None, [0x1F, channels - 1])]
  }

  function SyncFromRadio(c: Core, now: Clock): Core {
    var sync := SyncCommands(c.mem.maxChannels);
    var c1 := WithQueue(Arrive(c, sync), c.path.queue + sync);
    if c1.path.inFlight.None? then AdvanceQueueSync(c1, now) else c1
  }

  function InitializeRadio(c: Core, r: Reconnection, now: Clock): Core {
    var c1 := CacheResponse(c, r.selfInfo, now);
    if r.deviceInfo.Some? then CacheResponse(c1, r.deviceInfo.value, now) else c1
  }

  function ReconnectRadio(c: Core, r: Reconnection, now: Clock): Core {
    var c1 := LoseRadio(c);
    var c2 := FailedAttempts(c1.(live := c1.live - r.left), r.attempts, now);
    var c3 := InitializeRadio(WithLink(c2, Link(true, r.open, [], [])), r, now);
    SyncFromRadio(c3, now)
  }

  // ---------------------------------------------------------------------
  // The whole machine
  // ---------------------------------------------------------------------

  datatype Input =
    | Connect
    | Disconnect(client: ClientId)
    | Command(cmd: ClientCommand)
    | Radio(frame: Frame)
    | TimeoutTick
    | MaintenanceTick
    | LinkCloses
    | Reconnect(how: Reconnection)

  function Step(c: Core, i: Input, now: Clock): Core {
    match i
    case Connect => c.(live := c.live + {c.nextClient}, nextClient := c.nextClient + 1)
    case Disconnect(client) => c.(live := c.live - {client})
    case Command(cmd) => HandleClientCommand(c, cmd, now)
    case Radio(frame) => HandleRadioRx(c, frame, now)
    case TimeoutTick => CheckInFlightTimeout(c, now)
    case MaintenanceTick => RunMaintenance(c, now)
    case LinkCloses => WithLink(c, c.path.link.(open := false))
    case Reconnect(how) => ReconnectRadio(c, how, now)
  }

  datatype Timed = Timed(input: Input, now: Clock)

  function Run(c: Core, steps: seq<Timed>): Core {
    if steps == [] then c
    else Step(Run(c, steps[..|steps| - 1]), steps[|steps| - 1].input, steps[|steps| - 1].now)
  }

  /** The multiplexer before it has ever had a radio. */
  function Fresh(retention: Retention, backlog: Backlog, db: Tables): Core {
    Core(Config(retention, backlog), Memory(None, None, None, None, None, 40), Path(NO_LINK, None, [], [], []),
         {}, 1, map[], map[], map[], db, [])
  }

  /** Blobs of the last session, for what the radio did not say. */
  function RestoreBlobs(c: Core): Core {
    var c1 := if c.mem.selfInfo.None? && SelfInfo in c.db.blobs then KeepSelfInfo(c, c.db.blobs[SelfInfo]) else c;
    var c2 := if c1.mem.deviceInfo.None? && DeviceInfo in c1.db.blobs then KeepDeviceInfo(c1, c1.db.blobs[DeviceInfo])
        else c1;
    if c2.mem.batteryInfo.None? && Battery in c2.db.blobs then
      c2.(mem := c2.mem.(batteryInfo := Some(c2.db.blobs[Battery])))
    else c2
  }

  /** Startup on an existing database. */
  function Start(retention: Retention, backlog: Backlog, db: Tables, r: Reconnection, now: Clock): Core {
    RestoreBlobs(ReconnectRadio(Fresh(retention, backlog, db), r, now))
  }
}
