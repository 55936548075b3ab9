/** Everything put on a client's channel reads as the frame the multiplexer holds. */
module Wires {
  import opened Bytes
  import opened Protocol
  import opened Readings
  import opened Store
  import opened CoreState
  import opened RadioPath
  import opened Requests
  import opened Frames
  import opened Outcomes

  predicate Legible(e: Event) {
    match e
    case ToClient(_, frame, wire, _) => Read(wire) == Read(frame)
    case ToOthers(frame, wires, _) => forall k :: k in wires ==> Read(wires[k]) == Read(frame)
    case ToAll(_) => true
  }

  predicate AllLegible(out: seq<Event>) {
    forall e :: e in out ==> Legible(e)
  }

  // ---------------------------------------------------------------------
  // Handlers
  // ---------------------------------------------------------------------

  lemma SendLegible(c: Core, k: ClientId, frame: Frame, kind: Kind)
    requires AllLegible(c.out)
    ensures AllLegible(SendToClient(c, k, frame, kind).out)
  {
    ConversionKeepsReading(Version(c, k), frame);
    hide MessageFrameFor, Read;
  }

  lemma BroadcastLegible(c: Core, exclude: Option<ClientId>, frame: Frame, why: Spread)
    requires AllLegible(c.out)
    ensures AllLegible(BroadcastToOthers(c, exclude, frame, why).out)
  {
    hide MessageFrameFor, Read;
    forall k | k in c.live
      ensures Read(Wire(c, k, frame)) == Read(frame)
    {
      ConversionKeepsReading(Version(c, k), frame);
    }
  }

  lemma FailLegible(c: Core, q: Request, frames: seq<Command>)
    requires AllLegible(c.out)
    ensures AllLegible(Fail(c, q, frames).out)
  {
    if q.client.Some? {
      SendLegible(c, q.client.value, ERROR_FRAME, Failure);
    }
    hide SendToClient;
  }

  lemma DispatchLegible(c: Core, q: Request, now: Clock)
    requires AllLegible(c.out)
    ensures AllLegible(DispatchToRadio(c, q, now).out)
  {
    FailLegible(c, q, []);
    InvalidateOut(HandOver(c, q), q.payload);
    hide Fail, Invalidate, Legible;
  }

  lemma {:induction false} AdvanceLegible(c: Core, now: Clock)
    requires AllLegible(c.out)
    ensures AllLegible(AdvanceQueue(c, now).out)
    decreases |c.path.queue|
  {
    hide Legible, AllLegible;
    if c.path.queue != [] {
      var q, c1 := c.path.queue[0], WithQueue(c, c.path.queue[1..]);
      if ClientLeft(c1, q) {
        AdvanceLegible(Settle(c1, q, Gone), now);
      } else {
        DispatchLegible(c1, q, now);
        DispatchShrinks(c1, q, now);
        hide DispatchToRadio;
        if DispatchToRadio(c1, q, now).path.inFlight.None? {
          AdvanceLegible(DispatchToRadio(c1, q, now), now);
        }
      }
    }
  }

  lemma {:induction false} AdvanceSyncLegible(c: Core, now: Clock)
    requires AllLegible(c.out)
    ensures AllLegible(AdvanceQueueSync(c, now).out)
    decreases |c.path.queue|
  {
    hide Legible, AllLegible;
    if c.path.queue != [] {
      var q, c1 := c.path.queue[0], WithQueue(c, c.path.queue[1..]);
      if ClientLeft(c1, q) {
        AdvanceSyncLegible(Settle(c1, q, Gone), now);
      } else {
        FailLegible(c1, q, []);
        hide Fail, AwaitingFor, IdentityOf;
      }
    }
  }

  lemma NotifyLegible(c: Core, k: ClientId)
    requires AllLegible(c.out)
    ensures AllLegible(NotifyMissed(c, k).out)
  {
    SendLegible(c, k, [0x83], Notice);
    hide SendToClient, Legible;
  }

  lemma StoreOut(c: Core, timestamp: int, frame: Frame, origin: Option<Identity>, now: Clock)
    ensures StoreMessage(c, timestamp, frame, origin, now).out == c.out
  {
    hide AdvanceAll, CaughtUp;
  }

  lemma AcceptedLegible(c: Core, done: InFlight, now: Clock)
    requires AllLegible(c.out)
    ensures AllLegible(OnCommandAccepted(c, done, now).out)
  {
    hide Legible, EchoFrame, StoreMessage, NotifyMissed, BroadcastToOthers, ApplyAccepted, AllLegible;
    if done.client.Some? {
      NotifyLegible(c, done.client.value);
    }
    var c1 := if done.payload[0] == 0x01 && done.client.Some? then NotifyMissed(c, done.client.value) else c;
    AppliedOut(c1, done);
    var c2 := ApplyAccepted(c1, done);
    if done.client.Some? && IsWellFormedSend(done.payload) && c2.mem.pubkey.Some? {
      var echo := EchoFrame(c2, done.payload);
      BroadcastLegible(c2, done.client, echo, Echoed(done.Req()));
      StoreOut(BroadcastToOthers(c2, done.client, echo, Echoed(done.Req())), U32(done.payload, 3), echo, done.origin,
               now);
    }
  }

  lemma AppliedOut(c: Core, done: InFlight)
    ensures ApplyAccepted(c, done).out == c.out
  {
    hide TrimNuls;
  }

  lemma CachedOut(c: Core, p: Command, now: Clock)
    ensures CacheResponse(c, p, now).out == c.out
  {
    if Storable(p) {
      StoreOut(c, MessageTimestamp(p), p, None, now);
    }
    hide StoreMessage, MessageTimestamp, TrimNuls, ContactFromFrame, ChannelFromFrame;
  }

  lemma ForwardLegible(c: Core, f: InFlight, p: Command, now: Clock)
    requires AllLegible(c.out)
    ensures AllLegible(Forward(c, f, p, now).out)
  {
    var c0 := AppendRouted(c, p);
    assert c0.out == c.out;
    hide AppendRouted, Legible;
    if f.client.Some? {
      var c1 := StashAck(c0, f.client.value, p, now);
      assert c1.out == c0.out;
      hide StashAck, AllLegible, SendToClient;
      SendLegible(c1, f.client.value, p, Reply);
    }
    hide PassOn, AllLegible, BroadcastToOthers;
    PassedOut(c0, f, p, now);
    BroadcastLegible(PassOn(c0, f, p, now), f.client, p, Heard);
  }

  lemma PassedOut(c: Core, f: InFlight, p: Command, now: Clock)
    requires AllLegible(c.out)
    ensures AllLegible(PassOn(c, f, p, now).out)
  {
    hide Legible, AllLegible, SendToClient;
    if f.client.Some? {
      StashAckOnly(c, p, now);
      assert StashAck(c, f.client.value, p, now).out == c.out;
      hide StashAck;
      SendLegible(StashAck(c, f.client.value, p, now), f.client.value, p, Reply);
    }
  }

  lemma CompleteLegible(c: Core, f: InFlight, p: Command, now: Clock)
    requires AllLegible(c.out)
    ensures AllLegible(Complete(c, f, p, now).out)
  {
    hide Legible, AllLegible, OnCommandAccepted, AdvanceQueue, CurrentFrames;
    var c1 := Settle(WithSlot(c, None), f.Req(), Answered(CurrentFrames(c)));
    AcceptedLegible(c1, f, now);
    AdvanceLegible(if IsError(p) then c1 else OnCommandAccepted(c1, f, now), now);
  }

  lemma PushLegible(c: Core, p: Command, now: Clock)
    requires AllLegible(c.out)
    ensures AllLegible(HandlePush(c, p, now).out)
  {
    hide AdvanceQueue, Read;
    if p[0] in {0x80, 0x81} && |p| >= 33 {
      AdvanceLegible(RefreshContact(c, p[1..33]), now);
    }
  }

  lemma RadioLegible(c: Core, p: Frame, now: Clock)
    requires AllLegible(c.out)
    ensures AllLegible(HandleRadioRx(c, p, now).out)
  {
    if p != [] {
      CachedOut(c, p, now);
      var c1 := CacheResponse(c, p, now);
      hide CacheResponse, Legible, AllLegible, Forward, Complete, HandlePush, SendToClient, Read;
      if BelongsToInFlight(c1, p) {
        var f := c1.path.inFlight.value;
        ForwardLegible(c1, f, p, now);
        CompleteLegible(Forward(c1, f, p, now), f, p, now);
      } else if MatchesAck(c1, p) {
        SendLegible(c1.(acks := c1.acks - {p[1..5]}), c1.acks[p[1..5]].0, p, Ack);
      } else if IsPush(p[0]) {
        PushLegible(c1, p, now);
      }
    }
  }

  lemma {:induction false} ListLegible(c: Core, k: ClientId, rows: seq<Contact>, since: Option<nat>)
    requires AllLegible(c.out)
    ensures AllLegible(ListContacts(c, k, rows, since).0.out)
  {
    hide Legible, AllLegible, SendToClient, ContactFrame, LastMod;
    if rows != [] {
      ListLegible(c, k, rows[..|rows| - 1], since);
      SendLegible(ListContacts(c, k, rows[..|rows| - 1], since).0, k, ContactFrame(rows[|rows| - 1]), Cached);
    }
  }

  lemma RespondLegible(c: Core, k: ClientId, rows: seq<Contact>, since: Option<nat>)
    requires AllLegible(c.out)
    ensures AllLegible(RespondContacts(c, k, rows, since).out)
  {
    hide Legible, AllLegible, SendToClient, ListContacts;
    var c1 := SendToClient(c, k, [0x02] + LE32(|rows|), Cached);
    SendLegible(c, k, [0x02] + LE32(|rows|), Cached);
    ListLegible(c1, k, rows, since);
    var (c2, newest) := ListContacts(c1, k, rows, since);
    SendLegible(c2, k, [0x04] + LE32(newest), Cached);
  }

  lemma ServeLegible(c: Core, cmd: ClientCommand, now: Clock)
    requires AllLegible(c.out) && cmd.payload != []
    ensures AllLegible(ServeOrForward(c, cmd, now).out)
  {
    hide Legible, AllLegible, SendToClient, RespondContacts, ChannelFrame, GetContacts, NotifyMissed, EnqueueOrDispatch;
    if CachedBlob(c, cmd.payload[0]).Some? {
      SendLegible(c, cmd.client, CachedBlob(c, cmd.payload[0]).value, Cached);
    } else {
      RespondLegible(c, cmd.client, GetContacts(c.db), Since(cmd.payload));
      if RequestedChannel(cmd.payload) in c.db.channels {
        SendLegible(c, cmd.client, ChannelFrame(c.db.channels[RequestedChannel(cmd.payload)]), Cached);
      }
    }
    hide CachedBlob, Since, RequestedChannel;
    if TryServeFromCache(c, cmd).Some? {
      NotifyLegible(TryServeFromCache(c, cmd).value, cmd.client);
    } else {
      EnqueueLegible(c, Request(Some(cmd.client), ForRadio(cmd.payload)), now);
    }
  }

  lemma EnqueueLegible(c: Core, q: Request, now: Clock)
    requires AllLegible(c.out)
    ensures AllLegible(EnqueueOrDispatch(c, q, now).out)
  {
    hide Legible, DispatchToRadio;
    DispatchLegible(Arrive(c, [q]), q, now);
  }

  lemma {:induction false} ServeMissedLegible(c: Core, k: ClientId, now: Clock)
    requires k in c.sessions && AllLegible(c.out)
    ensures AllLegible(ServeMissed(c, k, now).0.out)
    decreases |c.sessions[k].pending|
  {
    hide Legible, AllLegible, SendToClient;
    var s := c.sessions[k];
    if s.pending != [] {
      var c1 := c.(sessions := c.sessions[k := s.(pending := s.pending[1..])]);
      var frame := MessageFrame(c1.db, s.pending[0]);
      hide MessageFrame;
      if frame.None? {
        ServeMissedLegible(c1, k, now);
      } else {
        SendLegible(c1, k, frame.value, Missed(s.pending[0]));
      }
    }
  }

  lemma CommandLegible(c: Core, cmd: ClientCommand, now: Clock)
    requires AllLegible(c.out)
    ensures AllLegible(HandleClientCommand(c, cmd, now).out)
  {
    if cmd.payload != [] && cmd.client in c.live {
      hide Legible, AllLegible, MissedBy, AppName, MessageHead, ServeMissed, ServeOrForward;
      var c1 := NoteCommand(c, cmd, now);
      assert c1.out == c.out;
      if cmd.client in c1.sessions {
        ServeMissedLegible(c1, cmd.client, now);
      }
      var c2 := if cmd.payload[0] == 0x0A then ReplayNextMissed(c1, cmd.client, now).0 else c1;
      ServeLegible(c2, cmd, now);
    }
  }

  lemma TimeoutLegible(c: Core, now: Clock)
    requires AllLegible(c.out)
    ensures AllLegible(CheckInFlightTimeout(c, now).out)
  {
    hide Legible, AllLegible, Fail, AdvanceQueue, CurrentFrames;
    if c.path.inFlight.Some? {
      FailLegible(WithSlot(c, None), c.path.inFlight.value.Req(), CurrentFrames(c));
    }
    AdvanceLegible(FailInFlight(c), now);
  }

  lemma {:induction false} FailQueueLegible(c: Core)
    requires AllLegible(c.out)
    ensures AllLegible(FailQueue(c).out)
    decreases |c.path.queue|
  {
    hide Legible, AllLegible;
    if c.path.queue != [] {
      FailLegible(WithQueue(c, c.path.queue[1..]), c.path.queue[0], []);
      FailQueueLegible(Fail(WithQueue(c, c.path.queue[1..]), c.path.queue[0], []));
    }
  }

  lemma {:induction false} AttemptsOut(c: Core, attempts: seq<Option<SelfInfoFrame>>, now: Clock)
    ensures FailedAttempts(c, attempts, now).out == c.out
  {
    if attempts != [] {
      hide CacheResponse;
      AttemptsOut(c, attempts[..|attempts| - 1], now);
      if attempts[|attempts| - 1].Some? {
        CachedOut(FailedAttempts(c, attempts[..|attempts| - 1], now), attempts[|attempts| - 1].value, now);
      }
    }
  }

  lemma LoseLegible(c: Core)
    requires AllLegible(c.out)
    ensures AllLegible(LoseRadio(c).out)
  {
    hide Legible, AllLegible, Fail, FailQueue, CurrentFrames;
    if c.path.inFlight.Some? {
      FailLegible(WithSlot(c, None), c.path.inFlight.value.Req(), CurrentFrames(c));
    }
    FailQueueLegible(WithLink(FailInFlight(c), NO_LINK));
  }

  lemma ReconnectLegible(c: Core, r: Reconnection, now: Clock)
    requires AllLegible(c.out)
    ensures AllLegible(ReconnectRadio(c, r, now).out)
  {
    hide Legible, AllLegible, LoseRadio, FailedAttempts, CacheResponse, AdvanceQueueSync, SyncCommands;
    LoseLegible(c);
    var c1 := LoseRadio(c);
    AttemptsOut(c1.(live := c1.live - r.left), r.attempts, now);
    var c2 := WithLink(FailedAttempts(c1.(live := c1.live - r.left), r.attempts, now), Link(true, r.open, [], []));
    CachedOut(c2, r.selfInfo, now);
    if r.deviceInfo.Some? {
      CachedOut(CacheResponse(c2, r.selfInfo, now), r.deviceInfo.value, now);
    }
    var c3 := InitializeRadio(c2, r, now);
    hide InitializeRadio;
    var sync := SyncCommands(c3.mem.maxChannels);
    AdvanceSyncLegible(WithQueue(Arrive(c3, sync), c3.path.queue + sync), now);
  }

  lemma MaintenanceLegible(c: Core, now: Clock)
    requires AllLegible(c.out)
    ensures AllLegible(RunMaintenance(c, now).out)
  {
    hide Legible, AllLegible, AdvanceQueue, Maintain, FullSyncPending;
    AdvanceLegible(Enqueue(c, Request(None, FULL_SYNC)), now);
  }

  lemma StepLegible(c: Core, i: Input, now: Clock)
    requires AllLegible(c.out)
    ensures AllLegible(Step(c, i, now).out)
  {
    hide Legible, HandleClientCommand, HandleRadioRx, CheckInFlightTimeout, RunMaintenance, ReconnectRadio;
    match i {
      case Connect =>
      case Disconnect(_) =>
      case Command(cmd) => CommandLegible(c, cmd, now);
      case Radio(p) => RadioLegible(c, p, now);
      case TimeoutTick => TimeoutLegible(c, now);
      case MaintenanceTick => MaintenanceLegible(c, now);
      case LinkCloses =>
      case Reconnect(how) => ReconnectLegible(c, how, now);
    }
  }

  lemma {:induction false} RunLegible(c: Core, steps: seq<Timed>)
    requires AllLegible(c.out)
    ensures AllLegible(Run(c, steps).out)
  {
    hide AllLegible, Step;
    if steps != [] {
      var n := |steps| - 1;
      RunLegible(c, steps[..n]);
      StepLegible(Run(c, steps[..n]), steps[n].input, steps[n].now);
    }
  }

  /** Over every run: whatever a client was ever handed, as a reply, fanned out, echoed, replayed or served, says what
      the frame says that the multiplexer held: a direct message stays one and keeps its sender, a channel message its
      channel, and path, type, clock and text are the same. */
  lemma EveryFrameReadsTheSame(c: Core, e: Event)
    requires Reachable(c) && e in c.out
    ensures e.ToClient? ==> Read(e.wire) == Read(e.frame)
    ensures e.ToOthers? ==> forall k :: k in e.wires ==> Read(e.wires[k]) == Read(e.frame)
  {
    hide Start, Run, Read;
    var retention, backlog, db, r, now, steps :| c == Run(Start(retention, backlog, db, r, now), steps);
    StartLegible(retention, backlog, db, r, now);
    RunLegible(Start(retention, backlog, db, r, now), steps);
    assert Legible(e);
  }

  lemma StartLegible(retention: Retention, backlog: Backlog, db: Tables, r: Reconnection, now: Clock)
    ensures AllLegible(Start(retention, backlog, db, r, now).out)
  {
    var f := Fresh(retention, backlog, db);
    assert AllLegible(f.out);
    hide AllLegible, ReconnectRadio, RestoreBlobs;
    ReconnectLegible(f, r, now);
    RestoreOnlyMemory(ReconnectRadio(f, r, now));
  }
}
