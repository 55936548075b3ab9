/** The multiplexer as the object it is: fields updated handler by handler, each handler doing exactly what its
    function in CoreState says. */
module Mux {
  import opened Bytes
  import opened Protocol
  import opened Store
  import opened Node
  import opened CoreState

  class Multiplexer {
    const retention: Retention
    const newClientBacklog: Backlog
    const state: NodeState

    var selfInfoRaw: Option<Frame>
    var deviceInfoRaw: Option<Frame>
    var batteryInfoRaw: Option<Frame>
    var radioPubkey: Option<Key>
    var radioName: Option<Frame>
    var maxChannels: byte

    /** The sender half of the link: whether there is one, and whether its far end still listens. */
    var attached: bool
    var open: bool

    var inFlight: Option<InFlight>
    var pendingQueue: seq<Request>
    var pendingAcks: map<Frame, (ClientId, int)>
    var sessions: map<ClientId, Session>
    var protocolVersions: map<ClientId, byte>

    /** Connected clients, the id the next one gets, and everything put on their channels. */
    var channels: set<ClientId>
    var nextClient: nat
    var out: seq<Event>

    /** What went over this link: the requests, and the frames routed to each. */
    ghost var traffic: (seq<Request>, seq<seq<Command>>)
    ghost var arrived: seq<Request>
    ghost var settled: seq<Settled>

    ghost function Memo(): Memory
      reads this`selfInfoRaw, this`deviceInfoRaw, this`batteryInfoRaw, this`radioPubkey, this`radioName,
          this`maxChannels
    {
      Memory(selfInfoRaw, deviceInfoRaw, batteryInfoRaw, radioPubkey, radioName, maxChannels)
    }

    ghost function Way(): Path
      reads this`attached, this`open, this`traffic, this`inFlight, this`pendingQueue, this`arrived, this`settled
    {
      Path(Link(attached, open, traffic.0, traffic.1), inFlight, pendingQueue, arrived, settled)
    }

    ghost function Model(): Core
      reads this, state
    {
      Core(Config(retention, newClientBacklog), Memo(), Way(), channels, nextClient, pendingAcks, sessions,
           protocolVersions, state.Model(), out)
    }

    constructor (retention: Retention, backlog: Backlog, state: NodeState)
      ensures Model() == CoreState.Fresh(retention, backlog, state.Model()) && this.state == state
    {
      this.retention, newClientBacklog, this.state := retention, backlog, state;
      selfInfoRaw, deviceInfoRaw, batteryInfoRaw := None, None, None;
      radioPubkey, radioName, maxChannels := None, None, 40;
      attached, open, inFlight, pendingQueue := false, false, None, [];
      pendingAcks, sessions, protocolVersions := map[], map[], map[];
      channels, nextClient, out := {}, 1, [];
      traffic, arrived, settled := ([], []), [], [];
    }

    // -------------------------------------------------------------------
    // Talking to clients
    // -------------------------------------------------------------------

    function ProtocolVersion(client: ClientId): byte
      reads this
    {
      if client in protocolVersions then protocolVersions[client] else 0
    }

    method SendToClient(client: ClientId, frame: Frame, kind: Kind)
      modifies this
      ensures Model() == CoreState.SendToClient(old(Model()), client, frame, kind)
    {
      if client in channels {
        out := out + [ToClient(client, frame, MessageFrameFor(ProtocolVersion(client), frame), kind)];
      }
    }

    /** The frame in each recipient's own layout. */
    method Convert(exclude: Option<ClientId>, frame: Frame) returns (wires: map<ClientId, Frame>)
      ensures wires == map id | id in Recipients(Model(), exclude) :: Wire(Model(), id, frame)
    {
      hide MessageFrameFor;
      var todo := channels;
      wires := map[];
      while todo != {}
        invariant todo <= channels
        invariant forall id :: id in wires <==> id in channels - todo && exclude != Some(id)
        invariant forall id :: id in wires ==> wires[id] == MessageFrameFor(ProtocolVersion(id), frame)
        decreases todo
      {
        var id :| id in todo;
        if exclude != Some(id) {
          wires := wires[id := MessageFrameFor(ProtocolVersion(id), frame)];
        }
        todo := todo - {id};
      }
    }

    method BroadcastToOthers(exclude: Option<ClientId>, frame: Frame, why: Spread)
      modifies this
      ensures Model() == CoreState.BroadcastToOthers(old(Model()), exclude, frame, why)
    {
      hide Wire, Recipients;
      var wires := Convert(exclude, frame);
      out := out + [ToOthers(frame, wires, why)];
    }

    // -------------------------------------------------------------------
    // The radio path
    // -------------------------------------------------------------------

    /** ERROR to the originator, if there is one. */
    method Fail(q: Request, ghost frames: seq<Command>)
      modifies this
      ensures Model() == CoreState.Fail(old(Model()), q, frames)
    {
      if q.client.Some? {
        SendToClient(q.client.value, ERROR_FRAME, Failure);
      }
      settled := settled + [Settled(q, Failed(frames))];
    }

    method Invalidate(payload: Command)
      modifies this, state
      ensures Model() == CoreState.Invalidate(old(Model()), payload)
    {
      if payload[0] == 0x0F {
        if |payload| >= 33 {
          state.DeleteContact(payload[1..33]);
        }
      } else if payload[0] == 0x20 {
        if |payload| > 1 {
          state.DeleteChannel(payload[1]);
        }
      } else if InvalidatesIdentity(payload) {
        selfInfoRaw, deviceInfoRaw, batteryInfoRaw := None, None, None;
      }
    }

    method Occupy(q: Request, now: Clock)
      modifies this
      ensures Model() == CoreState.Occupy(old(Model()), q, now)
    {
      var origin := if q.client.Some? && q.client.value in sessions then Some(sessions[q.client.value].who) else None;
      inFlight := Some(InFlight(q.client, q.payload, now.mono, now.unix, AwaitingFor(q.payload), origin));
    }

    method DispatchToRadio(q: Request, now: Clock)
      modifies this, state
      ensures Model() == CoreState.DispatchToRadio(old(Model()), q, now)
    {
      if !(attached && open) {
        Fail(q, []);
        return;
      }
      traffic := (traffic.0 + [q], traffic.1 + [[]]);
      ghost var handed := Model();
      Invalidate(q.payload);
      hide CoreState.Invalidate, AwaitingFor, IdentityOf;
      assert Model() == CoreState.Invalidate(handed, q.payload);
      Occupy(q, now);
    }

    method EnqueueOrDispatch(q: Request, now: Clock)
      modifies this, state
      ensures Model() == CoreState.EnqueueOrDispatch(old(Model()), q, now)
    {
      hide CoreState.DispatchToRadio;
      arrived := arrived + [q];
      if inFlight.None? {
        DispatchToRadio(q, now);
      } else {
        pendingQueue := pendingQueue + [q];
      }
    }

    method AdvanceQueue(now: Clock)
      modifies this, state
      ensures Model() == CoreState.AdvanceQueue(old(Model()), now)
    {
      ghost var goal := CoreState.AdvanceQueue(Model(), now);
      while pendingQueue != []
        invariant CoreState.AdvanceQueue(Model(), now) == goal
        decreases |pendingQueue|
      {
        hide CoreState.DispatchToRadio;
        var next := pendingQueue[0];
        pendingQueue := pendingQueue[1..];
        if next.client.Some? && next.client.value !in channels {
          settled := settled + [Settled(next, Gone)];
        } else {
          ghost var popped := Model();
          DispatchKeepsQueue(popped, next, now);
          DispatchToRadio(next, now);
          if inFlight.Some? {
            return;
          }
        }
      }
    }

    /** The variant for the first synchronisation: no cache is invalidated, and a failed send ends it at once. */
    method AdvanceQueueSync(now: Clock)
      modifies this
      ensures Model() == CoreState.AdvanceQueueSync(old(Model()), now)
    {
      ghost var goal := CoreState.AdvanceQueueSync(Model(), now);
      hide CoreState.AdvanceQueueSync, CoreState.SendOrGiveUp;
      while pendingQueue != []
        invariant CoreState.AdvanceQueueSync(Model(), now) == goal
        decreases |pendingQueue|
      {
        SyncStep(Model(), now);
        var next := pendingQueue[0];
        pendingQueue := pendingQueue[1..];
        if next.client.Some? && next.client.value !in channels {
          settled := settled + [Settled(next, Gone)];
          continue;
        }
        SendOrGiveUp(next, now);
        return;
      }
      SyncDone(Model(), now);
    }

    method SendOrGiveUp(q: Request, now: Clock)
      modifies this
      ensures Model() == CoreState.SendOrGiveUp(old(Model()), q, now)
    {
      hide CoreState.Fail, CoreState.Occupy;
      if !attached {
        settled := settled + [Settled(q, Lost)];
      } else if !open {
        Fail(q, []);
      } else {
        traffic := (traffic.0 + [q], traffic.1 + [[]]);
        Occupy(q, now);
      }
    }

    lemma SyncDone(c: Core, now: Clock)
      requires c.path.queue == []
      ensures CoreState.AdvanceQueueSync(c, now) == c
    {
    }

    lemma SyncStep(c: Core, now: Clock)
      requires c.path.queue != []
      ensures var q, c1 := c.path.queue[0], WithQueue(c, c.path.queue[1..]);
              CoreState.AdvanceQueueSync(c, now)
              == if ClientLeft(c1, q) then CoreState.AdvanceQueueSync(Settle(c1, q, Gone), now)
                 else CoreState.SendOrGiveUp(c1, q, now)
    {
      hide CoreState.SendOrGiveUp;
    }

    lemma DispatchKeepsQueue(c: Core, q: Request, now: Clock)
      ensures CoreState.DispatchToRadio(c, q, now).path.queue == c.path.queue
    {
      hide AwaitingFor;
    }

    // -------------------------------------------------------------------
    // Sessions and missed messages
    // -------------------------------------------------------------------

    method RegisterSession(cmd: ClientCommand, now: Clock)
      modifies this, state
      ensures Model() == CoreState.RegisterSession(old(Model()), cmd, now)
    {
      hide AppName, MessageIdsAfter, BacklogMessageIds, MessageHead;
      var who := Identity(cmd.port, AppName(cmd.payload));
      var known := ClientCursor(state.Model(), who);
      var pending := if known.Some? then MessageIdsAfter(state.Model(), known.value, who)
                     else BacklogMessageIds(state.Model(), newClientBacklog, who, now.unix);
      var cursor := if pending == [] then MessageHead(state.Model()) else pending[0] - 1;
      state.AdvanceClientCursor(who, cursor, now.unix);
      sessions := sessions[cmd.client := Session(who, pending)];
    }

    method NotifyMissed(client: ClientId)
      modifies this
      ensures Model() == CoreState.NotifyMissed(old(Model()), client)
    {
      if client in sessions && sessions[client].pending != [] {
        SendToClient(client, [0x83], Notice);
      }
    }

    /** Pop until an id still has its message, and serve that one. */
    method ServeMissed(client: ClientId, now: Clock) returns (served: bool)
      requires client in sessions
      modifies this, state
      ensures (Model(), served) == CoreState.ServeMissed(old(Model()), client, now)
    {
      ghost var goal := CoreState.ServeMissed(Model(), client, now);
      hide MessageFrame;
      while sessions[client].pending != []
        invariant client in sessions && CoreState.ServeMissed(Model(), client, now) == goal
        decreases |sessions[client].pending|
      {
        var s := sessions[client];
        var id := s.pending[0];
        sessions := sessions[client := s.(pending := s.pending[1..])];
        var frame := MessageFrame(state.Model(), id);
        if frame.Some? {
          SendToClient(client, frame.value, Missed(id));
          state.AdvanceClientCursor(s.who, id, now.unix);
          return true;
        }
      }
      return false;
    }

    method ReplayNextMissed(client: ClientId, now: Clock) returns (served: bool)
      modifies this, state
      ensures (Model(), served) == CoreState.ReplayNextMissed(old(Model()), client, now)
    {
      if client !in sessions {
        return false;
      }
      hide CoreState.ServeMissed, MessageHead;
      var who := sessions[client].who;
      served := ServeMissed(client, now);
      if client in sessions && sessions[client].pending == [] {
        state.AdvanceClientCursor(who, MessageHead(state.Model()), now.unix);
      }
    }

    /** Every caught-up identity once, in whatever order. */
    method AdvanceCursors(whos: set<Identity>, id: int, now: Clock)
      modifies state
      ensures state.Model() == old(state.Model()).(clients := AdvanceAll(old(state.clients), whos, id, now.unix))
    {
      var identities := whos;
      ghost var t := state.Model();
      NobodyAdvanced(t.clients, id, now.unix);
      hide AdvanceAll, AdvancedRow;
      assert whos - identities == {};
      while identities != {}
        invariant identities <= whos
        invariant state.Model() == t.(clients := AdvanceAll(t.clients, whos - identities, id, now.unix))
        decreases identities
      {
        var who :| who in identities;
        AdvanceOne(t.clients, whos - identities, who, id, now.unix);
        assert whos - (identities - {who}) == whos - identities + {who};
        state.AdvanceClientCursor(who, id, now.unix);
        identities := identities - {who};
      }
      assert whos - identities == whos;
    }

    lemma NobodyAdvanced(clients: map<Identity, Client>, seen: int, now: int)
      ensures AdvanceAll(clients, {}, seen, now) == clients
    {
    }

    /** Forget the disconnected, and let the cursors of the caught-up follow. */
    method FollowHead(id: int, now: Clock)
      modifies this, state
      ensures Model() == CoreState.FollowHead(old(Model()), id, now)
    {
      hide AdvanceAll, CaughtUp;
      sessions := map k | k in sessions && k in channels :: sessions[k];
      protocolVersions := map k | k in protocolVersions && k in channels :: protocolVersions[k];
      AdvanceCursors(CaughtUp(sessions), id, now);
    }

    lemma AdvanceOne(clients: map<Identity, Client>, done: set<Identity>, who: Identity, seen: int, now: int)
      requires who !in done
      ensures AdvanceAll(clients, done, seen, now)
                [who := AdvancedRow(AdvanceAll(clients, done, seen, now), who, seen, now)]
              == AdvanceAll(clients, done + {who}, seen, now)
    {
    }

    method StoreMessage(timestamp: int, frame: Frame, origin: Option<Identity>, now: Clock)
      modifies this, state
      ensures Model() == CoreState.StoreMessage(old(Model()), timestamp, frame, origin, now)
    {
      hide CoreState.FollowHead;
      var id := state.InsertMessage(timestamp, frame, origin, now.unix);
      FollowHead(id, now);
    }

    // -------------------------------------------------------------------
    // Side effects of an accepted command
    // -------------------------------------------------------------------

    /** The echo of a send, shown to the others and stored. */
    method SynthesizeEcho(done: InFlight, now: Clock)
      modifies this, state
      ensures Model() == CoreState.SynthesizeEcho(old(Model()), done, now)
    {
      if done.client.Some? && IsWellFormedSend(done.payload) && radioPubkey.Some? {
        hide CoreState.StoreMessage, CoreState.BroadcastToOthers, ContactEcho, ChannelEcho;
        var p := done.payload;
        var echo := if p[0] == 0x02 then ContactEcho(radioPubkey.value, p) else ChannelEcho(radioName, p);
        assert echo == EchoFrame(Model(), p);
        BroadcastToOthers(done.client, echo, Echoed(done.Req()));
        StoreMessage(U32(p, 3), echo, done.origin, now);
      }
    }

    method QueueOwn(payload: Command)
      modifies this
      ensures Model() == CoreState.Enqueue(old(Model()), Request(None, payload))
    {
      arrived := arrived + [Request(None, payload)];
      pendingQueue := pendingQueue + [Request(None, payload)];
    }

    method ApplyAccepted(done: InFlight)
      modifies this, state
      ensures Model() == CoreState.ApplyAccepted(old(Model()), done)
    {
      hide TrimNuls, CoreState.Enqueue;
      var p := done.payload;
      if p[0] == 0x04 {
        if |p| == 1 {
          state.SetContactsSyncedAt(done.sentUnix);
        }
      } else if p[0] in {0x09, 0x0D} {
        if |p| >= 33 {
          QueueOwn(RefreshCommand(p[1..33]));
        }
      } else if p[0] == 0x12 {
        QueueOwn(FULL_SYNC);
      } else if p[0] == 0x08 {
        radioName := Some(TrimNuls(p[1..Min(|p|, 32)]));
      }
    }

    method OnCommandAccepted(done: InFlight, now: Clock)
      modifies this, state
      ensures Model() == CoreState.OnCommandAccepted(old(Model()), done, now)
    {
      hide CoreState.NotifyMissed, CoreState.ApplyAccepted, CoreState.SynthesizeEcho;
      if done.payload[0] == 0x01 && done.client.Some? {
        NotifyMissed(done.client.value);
      }
      ApplyAccepted(done);
      SynthesizeEcho(done, now);
    }

    // -------------------------------------------------------------------
    // Frames from the radio
    // -------------------------------------------------------------------

    method KeepSelfInfo(blob: Frame)
      modifies this
      ensures Model() == CoreState.KeepSelfInfo(old(Model()), blob)
    {
      hide CoreState.ExtractRadioIdentity;
      ExtractRadioIdentity(blob);
      selfInfoRaw := Some(blob);
    }

    method ExtractRadioIdentity(blob: Frame)
      modifies this`radioPubkey, this`radioName
      ensures Model() == CoreState.ExtractRadioIdentity(old(Model()), blob)
    {
      hide TrimNuls;
      if |blob| >= 36 {
        radioPubkey := Some(blob[4..36]);
      }
      if |blob| >= 52 {
        var offset := if |blob| > 57 then 58 else 56;
        radioName := Some(TrimNuls(if |blob| > offset then blob[offset..] else []));
      }
    }

    method KeepDeviceInfo(blob: Frame)
      modifies this
      ensures Model() == CoreState.KeepDeviceInfo(old(Model()), blob)
    {
      if |blob| > 3 && blob[3] > 0 {
        maxChannels := blob[3];
      }
      deviceInfoRaw := Some(blob);
    }

    method CacheBlob(p: Command)
      requires p[0] in {0x05, 0x0C, 0x0D}
      modifies this, state
      ensures Model() == if p[0] == 0x05 then CoreState.CacheSelfInfo(old(Model()), p)
                         else if p[0] == 0x0D then CoreState.CacheDeviceInfo(old(Model()), p)
                         else old(Model()).(db := old(state.Model()).(blobs := old(state.blobs)[Battery := p]),
                                            mem := old(Memo()).(batteryInfo := Some(p)))
    {
      hide CoreState.KeepSelfInfo, CoreState.KeepDeviceInfo;
      if p[0] == 0x05 {
        state.SetBlob(SelfInfo, p);
        KeepSelfInfo(p);
      } else if p[0] == 0x0D {
        state.SetBlob(DeviceInfo, p);
        KeepDeviceInfo(p);
      } else {
        state.SetBlob(Battery, p);
        batteryInfoRaw := Some(p);
      }
    }

    method CacheResponse(p: Command, now: Clock)
      modifies this, state
      ensures Model() == CoreState.CacheResponse(old(Model()), p, now)
    {
      hide CoreState.CacheSelfInfo, CoreState.CacheDeviceInfo, CoreState.StoreMessage, ContactFromFrame,
        ChannelFromFrame, Store.UpsertContact, MessageTimestamp;
      if IsContactFrame(p) {
        state.UpsertContact(ContactFromFrame(p, now));
      } else if p[0] in {0x05, 0x0C, 0x0D} {
        CacheBlob(p);
      } else if Storable(p) {
        StoreMessage(MessageTimestamp(p), p, None, now);
      } else if IsChannelFrame(p) {
        state.UpsertChannel(ChannelFromFrame(p));
      }
    }

    method StashAck(client: ClientId, p: Command, now: Clock)
      modifies this
      ensures Model() == CoreState.StashAck(old(Model()), client, p, now)
    {
      if p[0] == 0x06 && |p| >= 6 {
        pendingAcks := map a | a in pendingAcks && now.mono - pendingAcks[a].1 < PENDING_ACK_TTL_MS :: pendingAcks[a];
        pendingAcks := pendingAcks[p[2..6] := (client, now.mono)];
      }
    }

    method PassOn(f: InFlight, p: Command, now: Clock)
      modifies this
      ensures Model() == CoreState.PassOn(old(Model()), f, p, now)
    {
      hide CoreState.StashAck, CoreState.SendToClient;
      if f.client.Some? {
        StashAck(f.client.value, p, now);
        SendToClient(f.client.value, p, Reply);
      }
    }

    ghost method AppendRouted(p: Command)
      modifies this`traffic
      ensures Model() == CoreState.AppendRouted(old(Model()), p)
    {
      var n := |traffic.1| - 1;
      if n >= 0 {
        traffic := (traffic.0, traffic.1[n := traffic.1[n] + [p]]);
      }
    }

    method Forward(f: InFlight, p: Command, now: Clock)
      modifies this
      ensures Model() == CoreState.Forward(old(Model()), f, p, now)
    {
      hide CoreState.PassOn, CoreState.BroadcastToOthers;
      AppendRouted(p);
      PassOn(f, p, now);
      if f.payload[0] == 0x0A && IsMessageCode(p[0]) {
        BroadcastToOthers(f.client, p, Heard);
      }
    }

    method Complete(f: InFlight, p: Command, now: Clock)
      modifies this, state
      ensures Model() == CoreState.Complete(old(Model()), f, p, now)
    {
      hide CoreState.OnCommandAccepted, CoreState.AdvanceQueue;
      inFlight, settled := None, settled + [Settled(f.Req(), Answered(CurrentFrames(Model())))];
      if !IsError(p) {
        OnCommandAccepted(f, now);
      }
      AdvanceQueue(now);
    }

    /** The request in flight, if the frame is part of its reply, gets it; at the end the slot is freed. */
    method TryRouteToInFlight(p: Command, now: Clock) returns (taken: bool)
      modifies this, state
      ensures taken <==> BelongsToInFlight(old(Model()), p)
      ensures Model() == if taken then RouteToInFlight(old(Model()), p, now) else old(Model())
    {
      if inFlight.None? || !inFlight.value.awaiting.Belongs(p[0]) {
        return false;
      }
      hide CoreState.Forward, CoreState.Complete;
      var f := inFlight.value;
      Forward(f, p, now);
      if f.awaiting.Completes(p[0]) {
        Complete(f, p, now);
      } else {
        inFlight := Some(f.(lastActivity := now.mono));
      }
      return true;
    }

    method TryRouteAck(p: Command) returns (taken: bool)
      modifies this
      ensures taken <==> MatchesAck(old(Model()), p)
      ensures Model() == if taken then RouteAck(old(Model()), p) else old(Model())
    {
      hide CoreState.SendToClient;
      if p[0] != 0x82 || |p| < 5 || p[1..5] !in pendingAcks {
        return false;
      }
      var client := pendingAcks[p[1..5]].0;
      pendingAcks := pendingAcks - {p[1..5]};
      SendToClient(client, p, Ack);
      return true;
    }

    method HandlePush(p: Command, now: Clock)
      modifies this, state
      ensures Model() == CoreState.HandlePush(old(Model()), p, now)
    {
      hide CoreState.AdvanceQueue, CoreState.Enqueue;
      if p[0] in {0x80, 0x81} && |p| >= 33 {
        QueueOwn(RefreshCommand(p[1..33]));
        if inFlight.None? {
          AdvanceQueue(now);
        }
      }
      out := out + [ToAll(p)];
    }

    method HandleRadioRx(p: Frame, now: Clock)
      modifies this, state
      ensures Model() == CoreState.HandleRadioRx(old(Model()), p, now)
    {
      if p == [] {
        return;
      }
      hide CoreState.CacheResponse, RouteToInFlight, RouteAck, CoreState.HandlePush;
      CacheResponse(p, now);
      var taken := TryRouteToInFlight(p, now);
      if !taken {
        taken := TryRouteAck(p);
      }
      if !taken && IsPush(p[0]) {
        HandlePush(p, now);
      }
    }

    // -------------------------------------------------------------------
    // Commands from clients
    // -------------------------------------------------------------------

    /** GET_CONTACTS from the cache: one frame a row, keeping track of the newest modification. */
    method RespondContacts(client: ClientId, rows: seq<Contact>, since: Option<nat>)
      modifies this
      ensures Model() == CoreState.RespondContacts(old(Model()), client, rows, since)
    {
      hide CoreState.SendToClient, LE32, CoreState.ContactFrame, U32;
      SendToClient(client, [0x02] + LE32(|rows|), Cached);
      ghost var c := Model();
      var i, newest := 0, 0;
      assert rows[..0] == [];
      while i < |rows|
        invariant i <= |rows| && (Model(), newest) == ListContacts(c, client, rows[..i], since)
      {
        assert rows[..i + 1][..i] == rows[..i];
        var frame := ContactFrame(rows[i]);
        var lastmod := U32(frame, 144);
        if since.None? || lastmod > since.value {
          newest := Max(newest, lastmod);
          SendToClient(client, frame, Cached);
        }
        i := i + 1;
      }
      assert rows[..|rows|] == rows;
      SendToClient(client, [0x04] + LE32(newest), Cached);
    }

    method TryServeFromCache(cmd: ClientCommand) returns (served: bool)
      requires cmd.payload != []
      modifies this
      ensures served <==> CoreState.TryServeFromCache(old(Model()), cmd).Some?
      ensures Model() == if served then CoreState.TryServeFromCache(old(Model()), cmd).value else old(Model())
    {
      hide CoreState.SendToClient, CoreState.RespondContacts, CoreState.ChannelFrame, GetContacts, LE32, U32;
      var code := cmd.payload[0];
      if code == 0x01 && selfInfoRaw.Some? {
        SendToClient(cmd.client, selfInfoRaw.value, Cached);
        return true;
      } else if code == 0x16 && deviceInfoRaw.Some? {
        SendToClient(cmd.client, deviceInfoRaw.value, Cached);
        return true;
      } else if code == 0x14 && batteryInfoRaw.Some? {
        SendToClient(cmd.client, batteryInfoRaw.value, Cached);
        return true;
      } else if code == 0x04 && state.contacts != [] {
        RespondContacts(cmd.client, GetContacts(state.Model()), Since(cmd.payload));
        return true;
      } else if code == 0x1F && RequestedChannel(cmd.payload) in state.channels {
        SendToClient(cmd.client, ChannelFrame(state.channels[RequestedChannel(cmd.payload)]), Cached);
        return true;
      }
      return false;
    }

    method HandleClientCommand(cmd: ClientCommand, now: Clock)
      modifies this, state
      ensures Model() == CoreState.HandleClientCommand(old(Model()), cmd, now)
    {
      if cmd.payload == [] || cmd.client !in channels {
        return;
      }
      hide CoreState.RegisterSession, CoreState.ReplayNextMissed, CoreState.TryServeFromCache, CoreState.NotifyMissed,
        CoreState.EnqueueOrDispatch;
      var code := cmd.payload[0];
      if code == 0x01 {
        RegisterSession(cmd, now);
      }
      if code == 0x16 && |cmd.payload| > 1 {
        protocolVersions := protocolVersions[cmd.client := cmd.payload[1]];
      }
      if code == 0x0A {
        var replayed := ReplayNextMissed(cmd.client, now);
        if replayed {
          return;
        }
      }
      var served := TryServeFromCache(cmd);
      if served {
        if code == 0x01 {
          NotifyMissed(cmd.client);
        }
        return;
      }
      EnqueueOrDispatch(Request(Some(cmd.client), ForRadio(cmd.payload)), now);
    }

    // -------------------------------------------------------------------
    // Ticks
    // -------------------------------------------------------------------

    method FailInFlight()
      modifies this
      ensures Model() == CoreState.FailInFlight(old(Model()))
    {
      hide CoreState.Fail;
      if inFlight.Some? {
        var f := inFlight.value;
        inFlight := None;
        Fail(f.Req(), CurrentFrames(Model()));
      }
    }

    method CheckInFlightTimeout(now: Clock)
      modifies this, state
      ensures Model() == CoreState.CheckInFlightTimeout(old(Model()), now)
    {
      hide CoreState.FailInFlight, CoreState.AdvanceQueue;
      if inFlight.Some? && now.mono - inFlight.value.lastActivity >= IN_FLIGHT_TIMEOUT_MS {
        FailInFlight();
        AdvanceQueue(now);
      }
    }

    method RunMaintenance(now: Clock)
      modifies this, state
      ensures Model() == CoreState.RunMaintenance(old(Model()), now)
    {
      hide CoreState.AdvanceQueue, CoreState.Enqueue, Store.Maintain;
      var pending := inFlight.Some? && inFlight.value.payload == FULL_SYNC;
      var i := 0;
      while i < |pendingQueue| && !pending
        invariant i <= |pendingQueue|
        invariant pending <==> (inFlight.Some? && inFlight.value.payload == FULL_SYNC)
                               || exists j :: 0 <= j < i && pendingQueue[j].payload == FULL_SYNC
        decreases |pendingQueue| - i
      {
        pending := pendingQueue[i].payload == FULL_SYNC;
        i := i + 1;
      }
      assert pending == FullSyncPending(Model());
      if retention.contactsDays > 0 && !pending {
        QueueOwn(FULL_SYNC);
        if inFlight.None? {
          AdvanceQueue(now);
        }
      }
      var _ := state.Maintain(retention, now.unix);
    }

    // -------------------------------------------------------------------
    // The link
    // -------------------------------------------------------------------

    method FailQueue()
      modifies this
      ensures Model() == CoreState.FailQueue(old(Model()))
    {
      ghost var goal := CoreState.FailQueue(Model());
      while pendingQueue != []
        invariant CoreState.FailQueue(Model()) == goal
        decreases |pendingQueue|
      {
        var q := pendingQueue[0];
        pendingQueue := pendingQueue[1..];
        Fail(q, []);
      }
    }

    method SyncFromRadio(now: Clock)
      modifies this
      ensures Model() == CoreState.SyncFromRadio(old(Model()), now)
    {
      hide CoreState.AdvanceQueueSync, SyncCommands;
      QueueSync();
      if inFlight.None? {
        AdvanceQueueSync(now);
      }
    }

    /** The full sync, then one GET_CHANNEL for every channel there may be. */
    method QueueSync()
      modifies this
      ensures Model() == (var sync := SyncCommands(old(maxChannels));
                          WithQueue(Arrive(old(Model()), sync), old(pendingQueue) + sync))
    {
      ghost var c := Model();
      var idx := 0;
      QueueOwn(FULL_SYNC);
      while idx < maxChannels
        invariant 0 <= idx <= maxChannels == c.mem.maxChannels
        invariant Model() == WithQueue(Arrive(c, SyncCommands(idx)), c.path.queue + SyncCommands(idx))
      {
        QueueOwn([0x1F, idx]);
        idx := idx + 1;
      }
    }

    /** One handshake: SELF_INFO, and DEVICE_INFO unless the radio refuses or stays silent. */
    method InitializeRadio(r: Reconnection, now: Clock)
      modifies this, state
      ensures Model() == CoreState.InitializeRadio(old(Model()), r, now)
    {
      hide CoreState.CacheResponse;
      CacheResponse(r.selfInfo, now);
      if r.deviceInfo.Some? {
        CacheResponse(r.deviceInfo.value, now);
      }
    }

    /** Attempts that got no further than SELF_INFO, or not even there. */
    method FailedAttempts(attempts: seq<Option<SelfInfoFrame>>, now: Clock)
      modifies this, state
      ensures Model() == CoreState.FailedAttempts(old(Model()), attempts, now)
    {
      hide CoreState.CacheResponse;
      ghost var c := Model();
      var i := 0;
      assert attempts[..0] == [];
      while i < |attempts|
        invariant i <= |attempts| && Model() == CoreState.FailedAttempts(c, attempts[..i], now)
      {
        assert attempts[..i + 1][..i] == attempts[..i];
        if attempts[i].Some? {
          CacheResponse(attempts[i].value, now);
        }
        i := i + 1;
      }
      assert attempts[..|attempts|] == attempts;
    }

    method ReconnectRadio(r: Reconnection, now: Clock)
      modifies this, state
      ensures Model() == CoreState.ReconnectRadio(old(Model()), r, now)
    {
      hide CoreState.LoseRadio, CoreState.FailedAttempts, CoreState.InitializeRadio, CoreState.SyncFromRadio, WithLink;
      LoseRadio();
      channels := channels - r.left;
      FailedAttempts(r.attempts, now);
      Attach(Link(true, r.open, [], []));
      InitializeRadio(r, now);
      SyncFromRadio(now);
    }

    method Attach(link: Link)
      modifies this
      ensures Model() == WithLink(old(Model()), link)
    {
      attached, open, traffic := link.attached, link.open, (link.sent, link.routed);
    }

    method LoseRadio()
      modifies this
      ensures Model() == CoreState.LoseRadio(old(Model()))
    {
      hide CoreState.FailInFlight, CoreState.FailQueue, WithLink;
      FailInFlight();
      Attach(NO_LINK);
      FailQueue();
    }

    method RestoreBlobs()
      modifies this
      ensures Model() == CoreState.RestoreBlobs(old(Model()))
    {
      hide CoreState.KeepSelfInfo, CoreState.KeepDeviceInfo;
      if selfInfoRaw.None? && SelfInfo in state.blobs {
        KeepSelfInfo(state.blobs[SelfInfo]);
      }
      if deviceInfoRaw.None? && DeviceInfo in state.blobs {
        KeepDeviceInfo(state.blobs[DeviceInfo]);
      }
      if batteryInfoRaw.None? && Battery in state.blobs {
        batteryInfoRaw := Some(state.blobs[Battery]);
      }
    }

    // -------------------------------------------------------------------
    // The loop
    // -------------------------------------------------------------------

    /** One turn of the select loop, or of the listener that keeps the set of clients. */
    method Turn(i: Input, now: Clock)
      modifies this, state
      ensures Model() == Step(old(Model()), i, now)
    {
      hide CoreState.HandleClientCommand, CoreState.HandleRadioRx, CoreState.CheckInFlightTimeout,
        CoreState.RunMaintenance, CoreState.ReconnectRadio;
      match i {
        case Connect => channels, nextClient := channels + {nextClient}, nextClient + 1;
        case Disconnect(client) => channels := channels - {client};
        case Command(cmd) => HandleClientCommand(cmd, now);
        case Radio(frame) => HandleRadioRx(frame, now);
        case TimeoutTick => CheckInFlightTimeout(now);
        case MaintenanceTick => RunMaintenance(now);
        case LinkCloses => open := false;
        case Reconnect(how) => ReconnectRadio(how, now);
      }
    }

    /** Startup: connect, shake hands, queue the synchronisation, then fill in from the last session. */
    method Startup(r: Reconnection, now: Clock)
      modifies this, state
      ensures Model() == CoreState.RestoreBlobs(CoreState.ReconnectRadio(old(Model()), r, now))
    {
      hide CoreState.RestoreBlobs, CoreState.ReconnectRadio;
      ReconnectRadio(r, now);
      RestoreBlobs();
    }

    /** The select loop, for as long as events come in. */
    method Serve(events: seq<Timed>)
      modifies this, state
      ensures Model() == Run(old(Model()), events)
    {
      hide Step;
      ghost var c := Model();
      var n := 0;
      assert events[..0] == [];
      while n < |events|
        invariant n <= |events| && Model() == Run(c, events[..n])
      {
        assert events[..n + 1][..n] == events[..n];
        Turn(events[n].input, events[n].now);
        n := n + 1;
      }
      assert events[..|events|] == events;
    }
  }
}
