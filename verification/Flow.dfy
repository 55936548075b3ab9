/** How handlers move the radio path and the caches: at most one command goes out, it takes its cached answers
    with it, and the multiplexer's own requests stay queued until they do. */
module Flow {
  import opened Bytes
  import opened Protocol
  import opened Store
  import opened CoreState
  import opened RadioPath
  import opened Outcomes
  import opened Frames

  /** Everything that is known of the radio and served from the cache on its behalf, its name apart. */
  ghost predicate SameCache(c: Core, d: Core) {
    && d.db.contacts == c.db.contacts && d.db.channels == c.db.channels
    && d.mem == c.mem.(name := d.mem.name)
  }

  ghost predicate SameSlot(c: Core, d: Core) {
    d.path.link == c.path.link && d.path.inFlight == c.path.inFlight
  }

  /** One command went out into the free slot. */
  ghost predicate NewSlot(c: Core, d: Core) {
    && c.path.inFlight.None? && d.path.inFlight.Some?
    && var p := d.path.inFlight.value.payload;
       d.path.link
           == c.path.link.(sent := c.path.link.sent + [d.path.inFlight.value.Req()],
                           routed := c.path.link.routed + [[]])
       && d.path.inFlight.value.awaiting == AwaitingFor(p)
       && d.path.inFlight.value.origin == IdentityOf(d, d.path.inFlight.value.client)
  }

  /** Nothing went out and the cache is as it was, or one command did and the cache lost what it invalidates. */
  ghost predicate Moves(c: Core, d: Core) {
    (SameSlot(c, d) && SameCache(c, d))
    || (NewSlot(c, d) && SameCache(Invalidate(c, d.path.inFlight.value.payload), d))
  }

  /** A request of the multiplexer's own is queued, or it is the one that went out, or the link is closed. */
  ghost predicate StillDue(c: Core, d: Core, q: Request) {
    q in d.path.queue || (NewSlot(c, d) && d.path.inFlight.value.payload == q.payload) || !CanSend(d)
  }

  ghost predicate QueueFlows(c: Core, d: Core) {
    forall q :: q in c.path.queue && q.client.None? ==> StillDue(c, d, q)
  }

  ghost predicate Flows(c: Core, d: Core) {
    Moves(c, d) && QueueFlows(c, d)
  }

  /** Path and cache untouched. */
  ghost predicate Still(c: Core, d: Core) {
    d.path == c.path && SameCache(c, d)
  }

  lemma StillFlows(c: Core, d: Core)
    requires Still(c, d)
    ensures Flows(c, d)
  {
  }

  lemma FlowsAfterStill(c: Core, d: Core, e: Core)
    requires Still(c, d) && Flows(d, e)
    ensures Flows(c, e)
  {
    SameInvalidate(c, d, if e.path.inFlight.Some? then e.path.inFlight.value.payload else [0]);
    hide Invalidate;
  }

  lemma StillAfterFlows(c: Core, d: Core, e: Core)
    requires Flows(c, d) && Still(d, e) && e.sessions == d.sessions
    ensures Flows(c, e)
  {
    hide Invalidate;
  }

  lemma SameInvalidate(c: Core, d: Core, p: Command)
    requires SameCache(c, d)
    ensures SameCache(Invalidate(c, p), Invalidate(d, p))
  {
    InvalidateIs(c, p);
    InvalidateIs(d, p);
    hide Invalidate, WithoutContact, InvalidatesIdentity;
  }

  /** What a command takes out of the cache, table by table. */
  lemma InvalidateIs(c: Core, p: Command)
    ensures var d := Invalidate(c, p);
            d.db.contacts
                == (if p[0] == 0x0F && |p| >= 33 then WithoutContact(c.db.contacts, p[1..33]) else c.db.contacts)
            && d.db.channels == (if p[0] == 0x20 && |p| > 1 then c.db.channels - {p[1] as int} else c.db.channels)
            && d.mem == (if InvalidatesIdentity(p) then
                           c.mem.(selfInfo := None, deviceInfo := None, batteryInfo := None)
                         else c.mem)
  {
    hide WithoutContact;
  }

  lemma InvalidatePath(c: Core, p: Command)
    ensures Invalidate(c, p).path == c.path && Invalidate(c, p).live == c.live
  {
    hide WithoutContact;
  }

  lemma DispatchMoves(c: Core, q: Request, now: Clock)
    requires c.path.inFlight.None?
    ensures var d := DispatchToRadio(c, q, now);
            Moves(c, d) && (NewSlot(c, d) <==> CanSend(c))
                && (NewSlot(c, d) ==> d.path.inFlight.value.payload == q.payload)
            && d.path.queue == c.path.queue && CanSend(d) == CanSend(c)
  {
    SameInvalidate(c, HandOver(c, q), q.payload);
    InvalidatePath(HandOver(c, q), q.payload);
    InvalidateSessions(HandOver(c, q), q.payload);
    hide AwaitingFor, Invalidate, Wire;
  }

  lemma InvalidateSessions(c: Core, p: Command)
    ensures Invalidate(c, p).sessions == c.sessions && Invalidate(c, p).live == c.live
  {
    hide InvalidatesIdentity;
  }

  lemma {:induction false} AdvanceFlows(c: Core, now: Clock)
    requires c.path.inFlight.None?
    ensures Flows(c, AdvanceQueue(c, now)) && CanSend(AdvanceQueue(c, now)) == CanSend(c)
    decreases |c.path.queue|
  {
    if c.path.queue == [] {
      StillFlows(c, c);
    } else {
      var q, c1 := c.path.queue[0], WithQueue(c, c.path.queue[1..]);
      var d := AdvanceQueue(c, now);
      assert c.path.queue == [q] + c1.path.queue;
      if ClientLeft(c1, q) {
        var c2 := Settle(c1, q, Gone);
        AdvanceFlows(c2, now);
        PoppedFlows(c, c2, q, d);
      } else {
        DispatchMoves(c1, q, now);
        var c2 := DispatchToRadio(c1, q, now);
        if c2.path.inFlight.Some? {
          hide DispatchToRadio;
          SentFlows(c, c1, q, c2);
        } else {
          DispatchShrinks(c1, q, now);
          AdvanceFlows(c2, now);
          hide DispatchToRadio;
          PoppedFlows(c, c2, q, d);
        }
      }
    }
  }

  /** A head that was dropped or failed was a client's, or the link is closed. */
  lemma PoppedFlows(c: Core, c2: Core, q: Request, d: Core)
    requires c.path.inFlight.None? && c.path.queue == [q] + c2.path.queue && SameSlot(c, c2) && SameCache(c, c2)
    requires q.client.Some? || !CanSend(c)
    requires Flows(c2, d) && CanSend(d) == CanSend(c2)
    ensures Flows(c, d)
  {
    SameInvalidate(c, c2, if d.path.inFlight.Some? then d.path.inFlight.value.payload else [0]);
    hide Invalidate, SameCache;
    assert NewSlot(c, d) == NewSlot(c2, d);
    forall x | x in c.path.queue && x.client.None?
      ensures StillDue(c, d, x)
    {
      assert x == q || x in c2.path.queue;
    }
    MovesFrom(c, c2, d);
  }

  lemma MovesFrom(c: Core, c2: Core, d: Core)
    requires SameSlot(c, c2) && SameCache(c, c2) && Moves(c2, d)
    ensures Moves(c, d)
  {
    SameInvalidate(c, c2, if d.path.inFlight.Some? then d.path.inFlight.value.payload else [0]);
    hide Invalidate;
  }

  lemma SentFlows(c: Core, c1: Core, q: Request, d: Core)
    requires c.path.queue == [q] + c1.path.queue && SameSlot(c, c1) && SameCache(c, c1)
    requires Moves(c1, d) && NewSlot(c1, d) && d.path.inFlight.value.payload == q.payload
             && d.path.queue == c1.path.queue
    ensures Flows(c, d)
  {
    MovesFrom(c, c1, d);
    hide Invalidate, SameCache, Moves;
    assert NewSlot(c, d);
  }

  /** Enqueuing, and dispatching at once when the slot is free. */
  lemma EnqueueFlows(c: Core, q: Request, now: Clock)
    ensures Flows(c, EnqueueOrDispatch(c, q, now))
  {
    var c1 := Arrive(c, [q]);
    if c.path.inFlight.None? {
      DispatchMoves(c1, q, now);
      hide DispatchToRadio;
      MovesFrom(c, c1, DispatchToRadio(c1, q, now));
      hide Moves;
    }
  }

  /** An own request put on the queue, which is then advanced if the slot is free. */
  lemma OwnRequestFlows(c: Core, q: Request, now: Clock)
    requires q.client.None?
    ensures var c1 := Enqueue(c, q);
            var d := if c1.path.inFlight.None? then AdvanceQueue(c1, now) else c1;
            Flows(c, d) && StillDue(c, d, q)
  {
    var c1 := Enqueue(c, q);
    if c.path.inFlight.None? {
      AdvanceFlows(c1, now);
      hide AdvanceQueue;
      var d := AdvanceQueue(c1, now);
      assert q in c1.path.queue && StillDue(c1, d, q);
      MovesFrom(c, c1, d);
      hide Moves;
      assert NewSlot(c, d) == NewSlot(c1, d);
      forall x | x in c.path.queue && x.client.None?
        ensures StillDue(c, d, x)
      {
        assert x in c1.path.queue && StillDue(c1, d, x);
      }
    }
  }

  // ---------------------------------------------------------------------
  // Handlers
  // ---------------------------------------------------------------------

  lemma ServeOrForwardFlows(c: Core, cmd: ClientCommand, now: Clock)
    requires cmd.payload != []
    ensures Flows(c, ServeOrForward(c, cmd, now))
  {
    ServeSameMemory(c, cmd);
    EnqueueFlows(c, Request(Some(cmd.client), ForRadio(cmd.payload)), now);
    hide TryServeFromCache, EnqueueOrDispatch, Wire;
    if TryServeFromCache(c, cmd).Some? {
      StillFlows(c, ServeOrForward(c, cmd, now));
    }
  }

  lemma {:induction false} ServeMissedStill(c: Core, k: ClientId, now: Clock)
    requires k in c.sessions
    ensures Still(c, ServeMissed(c, k, now).0)
    decreases |c.sessions[k].pending|
  {
    var s := c.sessions[k];
    if s.pending != [] && MessageFrame(c.db, s.pending[0]).None? {
      hide MessageFrame;
      ServeMissedStill(c.(sessions := c.sessions[k := s.(pending := s.pending[1..])]), k, now);
    }
  }

  lemma CommandFlows(c: Core, cmd: ClientCommand, now: Clock)
    ensures Flows(c, HandleClientCommand(c, cmd, now))
  {
    if cmd.payload == [] || cmd.client !in c.live {
      StillFlows(c, c);
    } else {
      hide ServeOrForward, MissedBy, AppName, ServeMissed, MessageHead;
      var c1 := NoteCommand(c, cmd, now);
      if cmd.client in c1.sessions {
        ServeMissedStill(c1, cmd.client, now);
      }
      var c2 := if cmd.payload[0] == 0x0A then ReplayNextMissed(c1, cmd.client, now).0 else c1;
      assert Still(c, c2);
      StillFlows(c, c2);
      ServeOrForwardFlows(c2, cmd, now);
      hide Still, Flows;
      FlowsAfterStill(c, c2, ServeOrForward(c2, cmd, now));
    }
  }

  lemma PushFlows(c: Core, p: Command, now: Clock)
    ensures Flows(c, HandlePush(c, p, now))
    ensures p[0] in {0x80, 0x81} && |p| >= 33 ==>
              StillDue(c, HandlePush(c, p, now), Request(None, RefreshCommand(p[1..33])))
  {
    if p[0] in {0x80, 0x81} && |p| >= 33 {
      OwnRequestFlows(c, Request(None, RefreshCommand(p[1..33])), now);
      hide AdvanceQueue;
      var r := RefreshContact(c, p[1..33]);
      var c1 := if r.path.inFlight.None? then AdvanceQueue(r, now) else r;
      StillAfterFlows(c, c1, HandlePush(c, p, now));
      hide Flows;
    } else {
      StillFlows(c, HandlePush(c, p, now));
    }
  }

  lemma RequestFullSyncFlows(c: Core, now: Clock)
    ensures Flows(c, RequestFullSync(c, now))
  {
    OwnRequestFlows(c, Request(None, FULL_SYNC), now);
    StillFlows(c, c);
    hide AdvanceQueue, FullSyncPending, Flows;
  }

  lemma StoreStill(c: Core, timestamp: int, frame: Frame, origin: Option<Identity>, now: Clock)
    ensures Still(c, StoreMessage(c, timestamp, frame, origin, now))
  {
    hide AdvanceAll, CaughtUp;
  }

  // ---------------------------------------------------------------------
  // Frames of a reply
  // ---------------------------------------------------------------------

  /** The own request an accepted command leads to. */
  function FollowUp(p: Command): Option<Request> {
    if p[0] in {0x09, 0x0D} && |p| >= 33 then Some(Request(None, RefreshCommand(p[1..33])))
    else if p[0] == 0x12 then Some(Request(None, FULL_SYNC))
    else None
  }

  /** Accepting a command adds its follow-up to the queue and leaves slot and cache alone. */
  lemma AcceptedFlow(c: Core, done: InFlight, now: Clock)
    ensures var d := OnCommandAccepted(c, done, now);
            SameSlot(c, d) && SameCache(c, d) && CanSend(d) == CanSend(c)
            && d.path.queue
               == c.path.queue + if FollowUp(done.payload).Some? then [FollowUp(done.payload).value] else []
  {
    hide Wire, TrimNuls, EchoFrame, StoreMessage;
    var c1 := if done.payload[0] == 0x01 && done.client.Some? then NotifyMissed(c, done.client.value) else c;
    var c2 := ApplyAccepted(c1, done);
    assert c1.path == c.path;
    if done.client.Some? && IsWellFormedSend(done.payload) && c2.mem.pubkey.Some? {
      var echo := EchoFrame(c2, done.payload);
      StoreStill(BroadcastToOthers(c2, done.client, echo, Echoed(done.Req())), U32(done.payload, 3), echo, done.origin,
                 now);
    }
  }

  /** The slot is freed, the follow-up queued, and the next request goes. */
  lemma CompleteFlows(c: Core, f: InFlight, p: Command, now: Clock)
    ensures var d := Complete(c, f, p, now);
            var freed := WithSlot(c, None);
            Flows(freed, d) && CanSend(d) == CanSend(c)
            && (!IsError(p) && FollowUp(f.payload).Some? ==> StillDue(freed, d, FollowUp(f.payload).value))
  {
    var c1 := Settle(WithSlot(c, None), f.Req(), Answered(CurrentFrames(c)));
    var freed := WithSlot(c, None);
    AcceptedFlow(c1, f, now);
    var c2 := if IsError(p) then c1 else OnCommandAccepted(c1, f, now);
    hide AdvanceQueue, OnCommandAccepted, FollowUp;
    AdvanceFlows(c2, now);
    var d := AdvanceQueue(c2, now);
    MovesFrom(freed, c2, d);
    hide Moves, SameCache;
    assert NewSlot(freed, d) == NewSlot(c2, d);
    forall q | q in freed.path.queue && q.client.None?
      ensures StillDue(freed, d, q)
    {
      assert q in c2.path.queue && StillDue(c2, d, q);
    }
    if !IsError(p) && FollowUp(f.payload).Some? {
      var q := FollowUp(f.payload).value;
      assert q in c2.path.queue && q.client.None? by { FollowUpOwn(f.payload); }
      assert StillDue(c2, d, q);
    }
  }

  lemma FollowUpOwn(p: Command)
    ensures FollowUp(p).Some? ==> FollowUp(p).value.client.None?
  {
  }

  /** Handing a frame on adds it to what was routed, and touches neither slot nor cache. */
  lemma ForwardFlow(c: Core, p: Command, now: Clock)
    requires SlotIsLastSent(c) && c.path.inFlight.Some?
    ensures var d := Forward(c, c.path.inFlight.value, p, now);
            d.path.inFlight == c.path.inFlight && SameCache(c, d) && d.path.queue == c.path.queue
            && d.path.link
            == c.path.link.(routed := c.path.link.routed[|c.path.link.routed| - 1 := CurrentFrames(c) + [p]])
  {
    var c0 := AppendRouted(c, p);
    AppendedLink(c, p);
    PassOnOnly(c0, c.path.inFlight.value, p, now);
    hide PassOn, AppendRouted, SlotIsLastSent, CurrentFrames, Wire;
  }

  lemma AppendedLink(c: Core, p: Command)
    requires SlotIsLastSent(c) && c.path.inFlight.Some?
    ensures var n := |c.path.link.routed| - 1;
            n >= 0 && AppendRouted(c, p) == c.(path := c.path.(link :=
              c.path.link.(routed := c.path.link.routed[n := CurrentFrames(c) + [p]])))
  {
    hide AwaitingFor, OpenReply;
  }
}
