/** A message is replayed as it was shown. */
module LiveReplay {
  import opened Bytes
  import opened Protocol
  import opened Store
  import opened CoreState
  import opened RadioPath
  import opened Requests
  import opened Frames
  import opened Outcomes
  import opened Replay
  import opened NoLoss
  import opened Late
  import opened ReplayOnce
  import opened Echo

  // ---------------------------------------------------------------------
  // What a connection was shown
  // ---------------------------------------------------------------------

  /** The event puts `frame` on the channel of connection `j`: as the reply it asked for, or fanned out to it. */
  predicate Delivers(e: Event, j: ClientId, frame: Frame) {
    || (e.ToClient? && e.client == j && e.kind == Reply && e.frame == frame)
    || (e.ToOthers? && e.frame == frame && j in e.wires)
  }

  function WireTo(e: Event, j: ClientId): Frame
    requires e.ToClient? || (e.ToOthers? && j in e.wires)
  {
    if e.ToClient? then e.wire else e.wires[j]
  }

  /** Events that put every frame in the layout of the version the client has in `c`. */
  ghost predicate Fits(c: Core, e: Event) {
    && (e.ToClient? ==> e.client in c.live && e.wire == MessageFrameFor(Version(c, e.client), e.frame))
    && (e.ToOthers? ==> forall j :: j in e.wires ==>
        j in c.live && e.wires[j] == MessageFrameFor(Version(c, j), e.frame))
  }

  ghost predicate SameVersions(c: Core, d: Core) {
    d.live == c.live && forall j :: j in c.live ==> Version(d, j) == Version(c, j)
  }

  lemma FitsAlike(c: Core, d: Core, e: Event)
    requires SameVersions(c, d) && Fits(c, e)
    ensures Fits(d, e)
  {
    hide MessageFrameFor, Version;
  }

  // ---------------------------------------------------------------------
  // Versions
  // ---------------------------------------------------------------------

  lemma DispatchVersions(c: Core, q: Request, now: Clock)
    ensures DispatchToRadio(c, q, now).versions == c.versions && DispatchToRadio(c, q, now).live == c.live
  {
    hide AwaitingFor, Wire, IdentityOf, WithoutContact;
  }

  lemma {:induction false} AdvanceVersions(c: Core, now: Clock)
    ensures AdvanceQueue(c, now).versions == c.versions && AdvanceQueue(c, now).live == c.live
    decreases |c.path.queue|
  {
    if c.path.queue != [] {
      hide DispatchToRadio;
      var q, c1 := c.path.queue[0], WithQueue(c, c.path.queue[1..]);
      if ClientLeft(c1, q) {
        AdvanceVersions(Settle(c1, q, Gone), now);
      } else {
        DispatchVersions(c1, q, now);
        DispatchShrinks(c1, q, now);
        if DispatchToRadio(c1, q, now).path.inFlight.None? {
          AdvanceVersions(DispatchToRadio(c1, q, now), now);
        }
      }
    }
  }

  lemma StoreVersions(c: Core, timestamp: int, frame: Frame, origin: Option<Identity>, now: Clock)
    ensures SameVersions(c, StoreMessage(c, timestamp, frame, origin, now))
  {
    hide AdvanceAll, CaughtUp;
  }

  lemma AcceptedVersions(c: Core, done: InFlight, now: Clock)
    ensures SameVersions(c, OnCommandAccepted(c, done, now))
  {
    hide Wire, TrimNuls, EchoFrame, StoreMessage;
    var c1 := if done.payload[0] == 0x01 && done.client.Some? then NotifyMissed(c, done.client.value) else c;
    AppliedVersions(c1, done);
    var c2 := ApplyAccepted(c1, done);
    hide ApplyAccepted;
    if done.client.Some? && IsWellFormedSend(done.payload) && c2.mem.pubkey.Some? {
      var echo := EchoFrame(c2, done.payload);
      StoreVersions(BroadcastToOthers(c2, done.client, echo, Echoed(done.Req())), U32(done.payload, 3), echo,
                    done.origin, now);
    }
  }

  lemma AppliedVersions(c: Core, done: InFlight)
    ensures ApplyAccepted(c, done).versions == c.versions && ApplyAccepted(c, done).live == c.live
  {
    hide TrimNuls;
  }

  lemma CompleteVersions(c: Core, f: InFlight, p: Command, now: Clock)
    ensures SameVersions(c, Complete(c, f, p, now))
  {
    hide AdvanceQueue, OnCommandAccepted;
    var c1 := Settle(WithSlot(c, None), f.Req(), Answered(CurrentFrames(c)));
    AcceptedVersions(c1, f, now);
    AdvanceVersions(if IsError(p) then c1 else OnCommandAccepted(c1, f, now), now);
  }

  lemma ForwardVersions(c: Core, f: InFlight, p: Command, now: Clock)
    ensures Forward(c, f, p, now).versions == c.versions && Forward(c, f, p, now).live == c.live
  {
    PassOnOnly(AppendRouted(c, p), f, p, now);
    hide PassOn, Wire;
  }

  // ---------------------------------------------------------------------
  // Events
  // ---------------------------------------------------------------------

  lemma PassOnFits(c: Core, f: InFlight, p: Command, now: Clock)
    ensures var d := PassOn(c, f, p, now);
            c.out <= d.out && forall j :: |c.out| <= j < |d.out| ==>
                  Fits(c, d.out[j]) && d.out[j].ToClient? && d.out[j].frame == p
  {
    StashAckOnly(c, p, now);
    hide StashAck, MessageFrameFor;
  }

  lemma SpreadFits(c: Core, exclude: Option<ClientId>, frame: Frame, why: Spread)
    ensures var d := BroadcastToOthers(c, exclude, frame, why);
            d.out == c.out + [d.out[|c.out|]] && Fits(c, d.out[|c.out|]) && d.out[|c.out|].ToOthers?
  {
    hide MessageFrameFor;
  }

  /** Handing a frame over puts it in each client's layout; only the reply to a GET_MSG is spread. */
  lemma ForwardFits(c: Core, f: InFlight, p: Command, now: Clock)
    ensures var d := Forward(c, f, p, now);
            c.out <= d.out && forall j :: |c.out| <= j < |d.out| ==>
              Fits(c, d.out[j]) && (d.out[j].ToClient? || f.payload[0] == 0x0A)
              && (d.out[j].ToClient? ==> d.out[j].frame == p)
  {
    var c0 := AppendRouted(c, p);
    var c1 := PassOn(c0, f, p, now);
    PassOnFits(c0, f, p, now);
    PassOnOnly(c0, f, p, now);
    SpreadFits(c1, f.client, p, Heard);
    assert SameVersions(c, c0) && SameVersions(c0, c1);
    hide PassOn, BroadcastToOthers, Fits;
    forall j | |c.out| <= j < |Forward(c, f, p, now).out|
      ensures Fits(c, Forward(c, f, p, now).out[j])
    {
      if j < |c1.out| {
        FitsAlike(c0, c, c1.out[j]);
      } else {
        FitsAlike(c1, c, Forward(c, f, p, now).out[j]);
      }
    }
  }

  /** Completing the request a message answers shows nothing more, and changes no layout. */
  lemma RouteFits(c: Core, p: Command, now: Clock, n: nat)
    requires BelongsToInFlight(c, p) && IsMessageCode(p[0])
    requires c.path.inFlight.value.awaiting == AwaitingFor(c.path.inFlight.value.payload)
    ensures var d := RouteToInFlight(c, p, now);
            c.out <= d.out
            && (|c.out| <= n < |d.out| ==> Fits(d, d.out[n]) || (d.out[n].ToClient? && d.out[n].kind != Reply))
  {
    hide Complete, Forward, AwaitingFor, Fits;
    var f := c.path.inFlight.value;
    var c2, d := Forward(c, f, p, now), RouteToInFlight(c, p, now);
    TakenBy(f, p);
    ForwardFits(c, f, p, now);
    ForwardVersions(c, f, p, now);
    CompleteVersions(c2, f, p, now);
    CompleteMute(c2, f, p, now);
    if |c.out| <= n < |c2.out| {
      assert d.out[n] == c2.out[n];
      FitsAlike(c, d, d.out[n]);
    }
  }

  /** Every event of a stored frame's own step that delivers it does so in the layouts of the moment. */
  lemma StorableFits(c: Core, p: Command, now: Clock, e: Event, j: ClientId)
    requires Storable(p) && SlotIsLastSent(c)
    requires e in News(c, HandleRadioRx(c, p, now)) && Delivers(e, j, p)
    ensures Fits(HandleRadioRx(c, p, now), e)
  {
    hide StoreMessage, MessageTimestamp, RouteToInFlight, AwaitingFor, Fits;
    var c1, d := CacheResponse(c, p, now), HandleRadioRx(c, p, now);
    assert c1 == StoreMessage(c, MessageTimestamp(p), p, None, now);
    StoreResult(c, MessageTimestamp(p), p, None, now);
    CodeOf(p);
    hide CacheResponse, Storable;
    var n :| 0 <= n < |News(c, d)| && News(c, d)[n] == e;
    if BelongsToInFlight(c1, p) {
      AwaitedIs(c);
      RouteFits(c1, p, now, |c.out| + n);
    }
  }

  lemma AwaitedIs(c: Core)
    requires SlotIsLastSent(c) && c.path.inFlight.Some?
    ensures c.path.inFlight.value.awaiting == AwaitingFor(c.path.inFlight.value.payload)
  {
  }

  lemma CodeOf(p: Command)
    requires Storable(p)
    ensures IsMessageCode(p[0])
  {
  }

  /** The events of an accepted send: its reply, its echo, and what fails or is announced after. */
  lemma EchoEvents(c: Core, p: Command, now: Clock)
    requires SlotIsLastSent(c) && TakesSend(c, p) && c.mem.pubkey.Some?
    ensures var d, f := HandleRadioRx(c, p, now), c.path.inFlight.value;
            var c1 := Forward(c, f, p, now);
            c.out <= c1.out && Mute(c1.out + [EchoEvent(c, f, EchoFrame(c, f.payload))], d.out)
            && forall j :: |c.out| <= j < |c1.out| ==> c1.out[j].ToClient? && c1.out[j].frame == p
  {
    var f := c.path.inFlight.value;
    var c1 := Forward(c, f, p, now);
    SendRouted(c, p, now);
    LastRouted(c, p, now);
    ForwardFits(c, f, p, now);
    SameEcho(c, c1, f);
    SendIsNoGet(f.payload);
    hide HandleRadioRx, Forward, Fits, EchoFrame, EchoEvent, SlotIsLastSent, BelongsToInFlight, IsWellFormedSend,
      Complete;
    CompleteEchoMute(c1, f, p, now);
  }

  lemma SendIsNoGet(payload: Command)
    requires IsWellFormedSend(payload)
    ensures payload[0] != 0x0A && payload[0] in {0x02, 0x03}
  {
  }

  lemma CompleteEchoMute(c: Core, f: InFlight, p: Command, now: Clock)
    requires f.client.Some? && IsWellFormedSend(f.payload) && c.mem.pubkey.Some? && !IsError(p)
    ensures Mute(c.out + [EchoEvent(c, f, EchoFrame(c, f.payload))], Complete(c, f, p, now).out)
  {
    hide AdvanceQueue, OnCommandAccepted, IsWellFormedSend;
    var c1 := Settle(WithSlot(c, None), f.Req(), Answered(CurrentFrames(c)));
    AcceptedEchoes(c1, f, now);
    assert EchoFrame(c1, f.payload) == EchoFrame(c, f.payload);
    assert EchoEvent(c1, f, EchoFrame(c, f.payload)) == EchoEvent(c, f, EchoFrame(c, f.payload));
    hide EchoFrame, EchoEvent;
    AdvanceMute(OnCommandAccepted(c1, f, now), now);
  }

  /** The reply to a send is no message, its echo is. */
  lemma ReplyIsNoEcho(c: Core, p: Command)
    requires SlotIsLastSent(c) && TakesSend(c, p) && c.mem.pubkey.Some?
    ensures EchoFrame(c, c.path.inFlight.value.payload) != p
  {
    hide ChannelTextOnAir;
  }

  lemma SendVersions(c: Core, p: Command, now: Clock)
    requires SlotIsLastSent(c) && TakesSend(c, p)
    ensures SameVersions(c, HandleRadioRx(c, p, now))
  {
    var f := c.path.inFlight.value;
    SendRouted(c, p, now);
    ForwardVersions(c, f, p, now);
    hide HandleRadioRx, Forward, Complete;
    CompleteVersions(Forward(c, f, p, now), f, p, now);
  }

  lemma EchoFits(c: Core, p: Command, now: Clock, e: Event, j: ClientId)
    requires SlotIsLastSent(c) && TakesSend(c, p) && c.mem.pubkey.Some?
    requires e in News(c, HandleRadioRx(c, p, now)) && Delivers(e, j, EchoFrame(c, c.path.inFlight.value.payload))
    ensures Fits(HandleRadioRx(c, p, now), e)
  {
    var d, f := HandleRadioRx(c, p, now), c.path.inFlight.value;
    var echo, c1 := EchoFrame(c, f.payload), Forward(c, f, p, now);
    EchoEvents(c, p, now);
    ReplyIsNoEcho(c, p);
    SendVersions(c, p, now);
    EchoEventFits(c, f, echo);
    hide HandleRadioRx, Forward, EchoFrame, EchoEvent, SlotIsLastSent, TakesSend, Fits, Mute;
    var n :| 0 <= n < |News(c, d)| && News(c, d)[n] == e;
    EventAt(c.out, c1.out, EchoEvent(c, f, echo), d.out, |c.out| + n, p);
    if |c.out| + n == |c1.out| {
      FitsAlike(c, d, e);
    }
  }

  /** One marked event among frames handed on before and mute ones after. */
  lemma EventAt(a: seq<Event>, b: seq<Event>, marked: Event, d: seq<Event>, n: nat, p: Frame)
    requires a <= b && Mute(b + [marked], d) && |a| <= n < |d|
    requires forall j :: |a| <= j < |b| ==> b[j].ToClient? && b[j].frame == p
    ensures n < |b| ==> d[n].ToClient? && d[n].frame == p
    ensures n == |b| ==> d[n] == marked
    ensures n > |b| ==> d[n].ToClient? && (d[n].kind == Failure || d[n].kind == Notice)
  {
    var all := b + [marked];
    if n < |b| {
      assert all[n] == b[n];
    } else if n == |b| {
      assert all[n] == marked;
    }
  }

  lemma EchoEventFits(c: Core, f: InFlight, echo: Frame)
    requires f.client.Some?
    ensures Fits(c, EchoEvent(c, f, echo))
  {
    hide MessageFrameFor;
  }

  /** However a message came to be stored, every connection it was delivered to in that step got it in the layout
      of its version. */
  lemma DeliveredFits(c: Core, i: Input, now: Clock, m: Message, e: Event, j: ClientId)
    requires PathInv(c) && StoredNow(c, Step(c, i, now)) == Some(m) && m.frame.Some?
    requires e in News(c, Step(c, i, now)) && Delivers(e, j, m.frame.value)
    ensures Fits(Step(c, i, now), e)
  {
    SlotOf(c);
    hide PathInv, SlotIsLastSent, Delivers, Fits;
    if !i.Radio? {
      OtherStepsAcceptNothing(c, i, now);
      hide Step;
      assert false;
    } else {
      RadioStep(c, i.frame, now);
      hide Step;
      var p := i.frame;
      if p == [] {
        NothingArrives(c, now);
        assert false;
      } else if Storable(p) {
        StoredFrame(c, p, now);
        StorableFits(c, p, now, e, j);
      } else if TakesSend(c, p) && c.mem.pubkey.Some? {
        EchoStoredFrame(c, p, now);
        EchoFits(c, p, now, e, j);
      } else {
        OtherFrameEchoesNothing(c, p, now);
        assert false;
      }
    }
  }

  lemma SlotOf(c: Core)
    requires PathInv(c)
    ensures SlotIsLastSent(c)
  {
  }

  lemma StoredFrame(c: Core, p: Command, now: Clock)
    requires Storable(p) && SlotIsLastSent(c)
    ensures StoredNow(c, HandleRadioRx(c, p, now)).Some?
            && StoredNow(c, HandleRadioRx(c, p, now)).value.frame == Some(p)
  {
    MessageStored(c, p, now);
    StoreResult(c, MessageTimestamp(p), p, None, now);
    hide HandleRadioRx, StoreMessage, SlotIsLastSent, MessageTimestamp;
  }

  lemma EchoStoredFrame(c: Core, p: Command, now: Clock)
    requires SlotIsLastSent(c) && TakesSend(c, p) && c.mem.pubkey.Some?
    ensures var d := HandleRadioRx(c, p, now);
            StoredNow(c, d).Some? && StoredNow(c, d).value.frame == Some(EchoFrame(c, c.path.inFlight.value.payload))
  {
    AcceptedSendIsEchoed(c, p, now);
    hide HandleRadioRx, EchoFrame, EchoEvent, Echoes, SlotIsLastSent;
  }

  // ---------------------------------------------------------------------
  // Rows do not change
  // ---------------------------------------------------------------------

  /** Messages are purged, or new ones come with higher ids; none changes. */
  ghost predicate RowsStand(c: Core, d: Core) {
    c.db.lastId <= d.db.lastId && forall x :: x in d.db.messages ==> x in c.db.messages || x.id > c.db.lastId
  }

  lemma RadioRows(c: Core, p: Frame, now: Clock)
    requires SlotIsLastSent(c)
    ensures RowsStand(c, HandleRadioRx(c, p, now))
  {
    hide SlotIsLastSent, HandleRadioRx, StoreMessage, CaughtUpLive;
    var d := HandleRadioRx(c, p, now);
    if p == [] {
      NothingArrives(c, now);
    } else if Storable(p) {
      MessageStored(c, p, now);
      StoreResult(c, MessageTimestamp(p), p, None, now);
    } else {
      OtherFrameStores(c, p, now);
      if !SameMail(c, d) {
        var e, timestamp, frame, origin :| StoresOnce(c, e, timestamp, frame, origin, now, d);
        hide Reached;
        StoreResult(e, timestamp, frame, origin, now);
      }
    }
  }

  lemma MaintenanceRows(c: Core, now: Clock)
    ensures RowsStand(c, RunMaintenance(c, now))
  {
    RequestFullSyncQuiet(c, now);
    hide RequestFullSync, KeptContacts, KeptClients;
    var keep := (m: Message) => ArrivedAt(m) >= Cutoff(now.unix, c.conf.retention.messagesDays);
    forall x | x in RunMaintenance(c, now).db.messages
      ensures x in c.db.messages
    {
      FilterMember(c.db.messages, keep, x);
    }
  }

  lemma StepRows(c: Core, i: Input, now: Clock)
    requires PathInv(c)
    ensures RowsStand(c, Step(c, i, now))
  {
    SlotOf(c);
    hide HandleClientCommand, HandleRadioRx, CheckInFlightTimeout, RunMaintenance, ReconnectRadio, PathInv,
      SlotIsLastSent;
    match i {
      case Connect =>
      case Disconnect(_) =>
      case Command(cmd) => CommandKeepsMessages(c, cmd, now);
      case Radio(p) => RadioRows(c, p, now);
      case TimeoutTick => TimeoutQuiet(c, now);
      case MaintenanceTick => MaintenanceRows(c, now);
      case LinkCloses =>
      case Reconnect(how) => ReconnectQuiet(c, how, now);
    }
  }

  lemma {:induction false} RunRows(c: Core, steps: seq<Timed>)
    requires PathInv(c)
    ensures RowsStand(c, Run(c, steps)) && PathInv(Run(c, steps))
  {
    hide PathInv, Step;
    if steps != [] {
      var n := |steps| - 1;
      RunRows(c, steps[..n]);
      StepRows(Run(c, steps[..n]), steps[n].input, steps[n].now);
      StepKeeps(Run(c, steps[..n]), steps[n].input, steps[n].now);
    }
  }

  // ---------------------------------------------------------------------
  // Live equals replayed
  // ---------------------------------------------------------------------

  lemma RowFrame(c: Core, later: Core, m: Message)
    requires ValidMessages(c.db) && m in c.db.messages && m.frame.Some? && RowsStand(c, later)
    requires MessageFrame(later.db, m.id).Some? && Increasing(Ids(later.db.messages))
    ensures MessageFrame(later.db, m.id) == m.frame
  {
    FrameOfExact(later.db.messages, m.id);
    IdsUnique(c.db);
    var x :| x in later.db.messages && x.id == m.id && x.frame == MessageFrame(later.db, m.id);
    hide Increasing, MessageFrame;
    assert x in c.db.messages;
  }

  lemma {:induction false} ServedHasFrame(c: Core, k: ClientId)
    requires k in c.sessions && ServedId(c, k) != []
    ensures MessageFrame(c.db, ServedId(c, k)[0]).Some?
    decreases |c.sessions[k].pending|
  {
    var s := c.sessions[k];
    if MessageFrame(c.db, s.pending[0]).None? {
      hide MessageFrame;
      ServedHasFrame(c.(sessions := c.sessions[k := s.(pending := s.pending[1..])]), k);
    }
  }

  /** Live equals replayed. Take any message, in the step in which it was stored, and any connection it was handed
      to in that step, as the reply it had asked for or fanned out to it. However long after, and whatever has
      happened in between, a client of the same protocol version that the message is replayed to gets the very
      same bytes. */
  lemma LiveEqualsReplayed(c: Core, i: Input, now: Clock, m: Message, e: Event, j: ClientId,
                           steps: seq<Timed>, k: ClientId, port: nat, clock: Clock)
    requires Reachable(c) && ValidMessages(Step(c, i, now).db) && StoredNow(c, Step(c, i, now)) == Some(m)
             && m.frame.Some?
    requires e in News(c, Step(c, i, now)) && Delivers(e, j, m.frame.value)
    requires var later := Run(Step(c, i, now), steps);
             ValidMessages(later.db) && LiveSession(later, k) && ServedId(later, k) == [m.id]
             && Version(later, k) == Version(Step(c, i, now), j)
    ensures var later := Run(Step(c, i, now), steps);
            var replayed := HandleClientCommand(later, ClientCommand(k, port, [0x0A]), clock).out;
            |replayed| == |later.out| + 1 && replayed[|later.out|].ToClient? && replayed[|later.out|].client == k
            && replayed[|later.out|].wire == WireTo(e, j)
  {
    hide PathInv, Reachable, Step, HandleClientCommand, News, StoredNow, Run, RowsStand, MessageFrameFor, ServeMissed,
      ServedId, ValidMessages, Increasing, MessageHead, Version, ReplayNextMissed, MessageFrame;
    ReachablePath(c);
    var post := Step(c, i, now);
    var later, cmd := Run(post, steps), ClientCommand(k, port, [0x0A]);
    DeliveredFits(c, i, now, m, e, j);
    StepKeeps(c, i, now);
    StoredLast(c, post, m);
    RunRows(post, steps);
    ServedHasFrame(later, k);
    IncreasingIds(later.db);
    RowFrame(post, later, m);
    ServedWire(later, k, clock);
    ServeEvent(later, k, clock);
    ReplayOnly(later, cmd, clock);
  }

  lemma IncreasingIds(t: Tables)
    requires ValidMessages(t)
    ensures Increasing(Ids(t.messages))
  {
  }

  lemma StoredLast(c: Core, post: Core, m: Message)
    requires StoredNow(c, post) == Some(m)
    ensures m in post.db.messages
  {
  }

  /** A GET_MSG served from the log does nothing else. */
  lemma ReplayOnly(c: Core, cmd: ClientCommand, now: Clock)
    requires LiveSession(c, cmd.client) && cmd.payload != [] && cmd.payload[0] == 0x0A && ServedId(c, cmd.client) != []
    ensures HandleClientCommand(c, cmd, now).out == ServeMissed(c, cmd.client, now).0.out
  {
    ReplayEvent(c, cmd.client, now);
    hide ServeMissed, ServeOrForward, ServedId, MessageHead;
  }
}
