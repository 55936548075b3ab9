/** The order of requests: they end in the order they arrived, and the one kind of step that breaks it. */
module Order {
  import opened Bytes
  import opened Protocol
  import opened Store
  import opened CoreState
  import opened RadioPath
  import opened Requests
  import opened Frames
  import opened Outcomes
  import opened Links

  // ---------------------------------------------------------------------
  // The line
  // ---------------------------------------------------------------------

  /** Requests in the order they ended, then the one in flight, then those waiting. */
  function Line(c: Core): seq<Request> {
    Ended(c.path.settled) + Outstanding(c)
  }

  /** Every request is where its arrival puts it. */
  ghost predicate Ordered(c: Core) {
    c.path.arrived == Line(c)
  }

  /** With the slot free only the multiplexer's own requests wait. */
  ghost predicate OnlyOwnWait(c: Core) {
    c.path.inFlight.None? ==> forall q :: q in c.path.queue ==> q.client.None?
  }

  ghost predicate LineInv(c: Core) {
    PathInv(c) && OnlyOwnWait(c)
  }

  /** `added` joins the end of the line, and nothing else happens to it. */
  ghost predicate Lengthens(c: Core, d: Core, added: seq<Request>) {
    d.path.arrived == c.path.arrived + added && Line(d) == Line(c) + added
  }

  ghost predicate KeepsLine(c: Core, d: Core) {
    exists added :: Lengthens(c, d, added)
  }

  lemma KeepsLineTrans(c: Core, d: Core, e: Core)
    requires KeepsLine(c, d) && KeepsLine(d, e)
    ensures KeepsLine(c, e)
  {
    hide Line;
    var x :| Lengthens(c, d, x);
    var y :| Lengthens(d, e, y);
    assert Lengthens(c, e, x + y);
  }

  lemma SamePathLine(c: Core, d: Core)
    requires d.path == c.path
    ensures KeepsLine(c, d)
  {
    assert Lengthens(c, d, []);
  }

  /** Nothing arrives, and the line stands. */
  ghost predicate SameLine(c: Core, d: Core) {
    d.path.arrived == c.path.arrived && Line(d) == Line(c)
  }

  lemma SameLineKeeps(c: Core, d: Core)
    requires SameLine(c, d)
    ensures KeepsLine(c, d)
  {
    hide Line;
    assert Lengthens(c, d, []);
  }

  /** Ending the request at the head of the queue leaves it where it was in line. */
  lemma HeadEnds(c: Core, d: Core, outcome: Outcome)
    requires c.path.inFlight.None? && c.path.queue != [] && d.path.inFlight.None?
    requires d.path.arrived == c.path.arrived && d.path.queue == c.path.queue[1..]
    requires d.path.settled == c.path.settled + [Settled(c.path.queue[0], outcome)]
    ensures SameLine(c, d)
  {
    EndedAfter(c.path.settled, Settled(c.path.queue[0], outcome));
    hide Ended;
    assert Slot(c) == [] && Slot(d) == [];
    assert [c.path.queue[0]] + d.path.queue == c.path.queue;
  }

  /** So does putting it in flight. */
  lemma HeadLeaves(c: Core, d: Core)
    requires c.path.inFlight.None? && c.path.queue != [] && d.path.inFlight.Some?
    requires d.path.inFlight.value.Req() == c.path.queue[0]
    requires d.path.arrived == c.path.arrived && d.path.queue == c.path.queue[1..] && d.path.settled == c.path.settled
    ensures SameLine(c, d)
  {
    hide Ended;
    assert [c.path.queue[0]] + d.path.queue == c.path.queue;
  }

  /** What dispatching does to the path. */
  lemma DispatchEnds(c: Core, q: Request, now: Clock)
    requires c.path.inFlight.None?
    ensures var d := DispatchToRadio(c, q, now);
            d.path.arrived == c.path.arrived && d.path.queue == c.path.queue && d.live == c.live
            && if CanSend(c) then d.path.inFlight.Some? && d.path.inFlight.value.Req() == q
            && d.path.settled == c.path.settled
               else d.path.inFlight.None? && d.path.settled == c.path.settled + [Settled(q, Failed([]))]
  {
    hide AwaitingFor, IdentityOf, Wire, WithoutContact;
  }

  lemma SameLineTrans(c: Core, d: Core, e: Core)
    requires SameLine(c, d) && SameLine(d, e)
    ensures SameLine(c, e)
  {
    hide Line;
  }

  lemma {:induction false} AdvanceLine(c: Core, now: Clock)
    requires c.path.inFlight.None?
    ensures SameLine(c, AdvanceQueue(c, now))
    ensures AdvanceQueue(c, now).path.inFlight.None? ==> AdvanceQueue(c, now).path.queue == []
    decreases |c.path.queue|
  {
    if c.path.queue != [] {
      var q, c1 := c.path.queue[0], WithQueue(c, c.path.queue[1..]);
      hide DispatchToRadio, SameLine;
      if ClientLeft(c1, q) {
        var c2 := Settle(c1, q, Gone);
        HeadEnds(c, c2, Gone);
        AdvanceLine(c2, now);
        SameLineTrans(c, c2, AdvanceQueue(c2, now));
      } else {
        var c2 := DispatchToRadio(c1, q, now);
        DispatchEnds(c1, q, now);
        if c2.path.inFlight.Some? {
          HeadLeaves(c, c2);
        } else {
          HeadEnds(c, c2, Failed([]));
          AdvanceLine(c2, now);
          SameLineTrans(c, c2, AdvanceQueue(c2, now));
        }
      }
    }
  }

  lemma {:induction false} AdvanceSyncLine(c: Core, now: Clock)
    requires c.path.inFlight.None?
    ensures SameLine(c, AdvanceQueueSync(c, now))
    ensures forall q :: q in AdvanceQueueSync(c, now).path.queue ==> q in c.path.queue
    decreases |c.path.queue|
  {
    if c.path.queue != [] {
      var q, c1 := c.path.queue[0], WithQueue(c, c.path.queue[1..]);
      hide SameLine, AwaitingFor, IdentityOf, Wire;
      if ClientLeft(c1, q) {
        var c2 := Settle(c1, q, Gone);
        HeadEnds(c, c2, Gone);
        AdvanceSyncLine(c2, now);
        SameLineTrans(c, c2, AdvanceQueueSync(c2, now));
      } else if !c1.path.link.attached {
        HeadEnds(c, SendOrGiveUp(c1, q, now), Lost);
      } else if !c1.path.link.open {
        HeadEnds(c, SendOrGiveUp(c1, q, now), Failed([]));
      } else {
        HeadLeaves(c, SendOrGiveUp(c1, q, now));
      }
    } else {
      assert AdvanceQueueSync(c, now) == c;
    }
  }

  lemma {:induction false} FailQueueLine(c: Core)
    requires c.path.inFlight.None?
    ensures SameLine(c, FailQueue(c))
    decreases |c.path.queue|
  {
    if c.path.queue != [] {
      var c2 := Fail(WithQueue(c, c.path.queue[1..]), c.path.queue[0], []);
      hide SameLine;
      HeadEnds(c, c2, Failed([]));
      FailQueueLine(c2);
      SameLineTrans(c, c2, FailQueue(c2));
    }
  }

  /** The request in flight ends: it was first in line. */
  lemma SlotEnds(c: Core, d: Core, outcome: Outcome)
    requires c.path.inFlight.Some? && d.path.inFlight.None?
    requires d.path.arrived == c.path.arrived && d.path.queue == c.path.queue
    requires d.path.settled == c.path.settled + [Settled(c.path.inFlight.value.Req(), outcome)]
    ensures SameLine(c, d)
  {
    EndedAfter(c.path.settled, Settled(c.path.inFlight.value.Req(), outcome));
    hide Ended;
  }

  lemma FailInFlightLine(c: Core)
    ensures SameLine(c, FailInFlight(c)) && FailInFlight(c).path.inFlight.None?
  {
    if c.path.inFlight.Some? {
      SlotEnds(c, FailInFlight(c), Failed(CurrentFrames(WithSlot(c, None))));
    }
  }

  lemma EnqueueLine(c: Core, more: seq<Request>)
    ensures Lengthens(c, WithQueue(Arrive(c, more), c.path.queue + more), more)
  {
    hide Ended;
  }

  /** An own request, sent on at once when the slot is free. */
  lemma OwnRequestLine(c: Core, q: Request, now: Clock)
    requires q.client.None? && OnlyOwnWait(c)
    ensures var c1 := Enqueue(c, q);
            var d := if c1.path.inFlight.None? then AdvanceQueue(c1, now) else c1;
            KeepsLine(c, d) && OnlyOwnWait(d)
  {
    var c1 := Enqueue(c, q);
    EnqueueLine(c, [q]);
    assert KeepsLine(c, c1);
    if c1.path.inFlight.None? {
      AdvanceLine(c1, now);
      hide AdvanceQueue, Lengthens, SameLine;
      SameLineKeeps(c1, AdvanceQueue(c1, now));
      KeepsLineTrans(c, c1, AdvanceQueue(c1, now));
    }
  }

  // ---------------------------------------------------------------------
  // Commands
  // ---------------------------------------------------------------------

  /** The command is not answered from the log or the cache: it goes to the radio path. */
  predicate Forwarded(c: Core, cmd: ClientCommand, now: Clock) {
    && cmd.payload != [] && cmd.client in c.live
    && (cmd.payload[0] == 0x0A ==> !ReplayNextMissed(c, cmd.client, now).1)
    && TryServeFromCache(c, cmd).None?
  }

  /** A client's request reaches a free slot although others wait: it is dealt with ahead of them. */
  predicate Overtakes(c: Core, i: Input, now: Clock) {
    i.Command? && c.path.inFlight.None? && c.path.queue != [] && Forwarded(c, i.cmd, now)
  }

  lemma ForwardLine(c: Core, q: Request, now: Clock)
    requires OnlyOwnWait(c) && (c.path.inFlight.Some? || c.path.queue == [])
    ensures KeepsLine(c, EnqueueOrDispatch(c, q, now)) && OnlyOwnWait(EnqueueOrDispatch(c, q, now))
  {
    if c.path.inFlight.Some? {
      EnqueueLine(c, [q]);
      assert KeepsLine(c, Enqueue(c, q));
    } else {
      var c1, d := Arrive(c, [q]), EnqueueOrDispatch(c, q, now);
      DispatchEnds(c1, q, now);
      hide DispatchToRadio;
      if !CanSend(c) {
        EndedAfter(c.path.settled, Settled(q, Failed([])));
      }
      hide Ended;
      assert Lengthens(c, d, [q]);
    }
  }

  /** Overtaking: the request has arrived last and ended before those that wait. */
  lemma OvertakingBreaks(c: Core, q: Request, now: Clock)
    requires NoIdleWait(c) && OnlyOwnWait(c) && c.path.inFlight.None? && c.path.queue != [] && q.client.Some?
    ensures !Ordered(EnqueueOrDispatch(c, q, now)) && OnlyOwnWait(EnqueueOrDispatch(c, q, now))
  {
    var c1, d := Arrive(c, [q]), EnqueueOrDispatch(c, q, now);
    assert !CanSend(c1);
    DispatchEnds(c1, q, now);
    EndedAfter(c.path.settled, Settled(q, Failed([])));
    hide DispatchToRadio, Ended;
    var last := c.path.queue[|c.path.queue| - 1];
    assert Line(d)[|Line(d)| - 1] == last;
    assert last in c.path.queue && last.client.None?;
    assert d.path.arrived[|d.path.arrived| - 1] == q;
  }

  lemma {:induction false} ServeMissedKeeps(c: Core, k: ClientId, now: Clock)
    requires k in c.sessions
    ensures var d := ServeMissed(c, k, now).0;
            d.path == c.path && d.mem == c.mem && d.db.contacts == c.db.contacts && d.db.channels == c.db.channels
    decreases |c.sessions[k].pending|
  {
    var s := c.sessions[k];
    if s.pending != [] && MessageFrame(c.db, s.pending[0]).None? {
      hide MessageFrame;
      ServeMissedKeeps(c.(sessions := c.sessions[k := s.(pending := s.pending[1..])]), k, now);
    }
  }

  /** Before a command is served or forwarded nothing on the path has moved, nor anything it could be served. */
  ghost predicate Ready(c: Core, d: Core) {
    d.path == c.path && d.mem == c.mem && d.db.contacts == c.db.contacts && d.db.channels == c.db.channels
        && d.live == c.live
  }

  lemma NotedReady(c: Core, cmd: ClientCommand, now: Clock)
    requires cmd.payload != []
    ensures Ready(c, NoteCommand(c, cmd, now))
            && (cmd.payload[0] != 0x01 ==> NoteCommand(c, cmd, now).sessions == c.sessions)
  {
    hide MissedBy, AppName, MessageHead;
  }

  lemma ReplayedReady(c: Core, k: ClientId, now: Clock)
    ensures Ready(c, ReplayNextMissed(c, k, now).0)
  {
    if k in c.sessions {
      ServeMissedKeeps(c, k, now);
      ServeMissedLive(c, k, now);
      hide ServeMissed, MessageHead;
    }
  }

  lemma {:induction false} ServeMissedLive(c: Core, k: ClientId, now: Clock)
    requires k in c.sessions
    ensures ServeMissed(c, k, now).0.live == c.live
    decreases |c.sessions[k].pending|
  {
    var s := c.sessions[k];
    if s.pending != [] && MessageFrame(c.db, s.pending[0]).None? {
      hide MessageFrame;
      ServeMissedLive(c.(sessions := c.sessions[k := s.(pending := s.pending[1..])]), k, now);
    }
  }

  lemma ReadyServes(c: Core, d: Core, cmd: ClientCommand)
    requires Ready(c, d) && cmd.payload != []
    ensures TryServeFromCache(c, cmd).None? <==> TryServeFromCache(d, cmd).None?
  {
    hide RespondContacts, ChannelFrame, SendToClient, GetContacts;
  }

  lemma ServedLine(c: Core, cmd: ClientCommand)
    requires cmd.payload != [] && TryServeFromCache(c, cmd).Some?
    ensures TryServeFromCache(c, cmd).value.path == c.path
            && NotifyMissed(TryServeFromCache(c, cmd).value, cmd.client).path == c.path
  {
    ServeSameMemory(c, cmd);
    hide TryServeFromCache;
  }

  /** A command on its way: answered before the path is touched, or forwarded. */
  lemma CommandEnds(c: Core, cmd: ClientCommand, now: Clock)
    requires cmd.payload != [] && cmd.client in c.live
    ensures var d := HandleClientCommand(c, cmd, now);
            if Forwarded(c, cmd, now) then
              exists c2 :: Ready(c, c2)
                  && d == EnqueueOrDispatch(c2, Request(Some(cmd.client), ForRadio(cmd.payload)), now)
            else d.path == c.path
  {
    hide ReplayNextMissed, TryServeFromCache, EnqueueOrDispatch, RegisterSession, NotifyMissed;
    var c1 := NoteCommand(c, cmd, now);
    NotedReady(c, cmd, now);
    if cmd.payload[0] == 0x0A {
      assert c1 == c;
      ReplayedReady(c, cmd.client, now);
    }
    var (c2, replayed) := if cmd.payload[0] == 0x0A then ReplayNextMissed(c1, cmd.client, now) else (c1, false);
    assert Ready(c, c2);
    ReadyServes(c, c2, cmd);
    if TryServeFromCache(c2, cmd).Some? {
      ServedLine(c2, cmd);
    }
  }

  lemma ReadyLine(c: Core, d: Core)
    requires Ready(c, d)
    ensures Line(d) == Line(c) && (OnlyOwnWait(c) ==> OnlyOwnWait(d)) && (NoIdleWait(c) ==> NoIdleWait(d))
    ensures Ordered(c) ==> Ordered(d)
  {
    hide Ended;
  }

  /** Every command that does not overtake keeps the line. */
  lemma CommandLine(c: Core, cmd: ClientCommand, now: Clock)
    requires LineInv(c) && !Overtakes(c, Command(cmd), now)
    ensures KeepsLine(c, HandleClientCommand(c, cmd, now)) && OnlyOwnWait(HandleClientCommand(c, cmd, now))
  {
    var d := HandleClientCommand(c, cmd, now);
    hide PathInv, HandleClientCommand, EnqueueOrDispatch, Ready;
    if cmd.payload == [] || cmd.client !in c.live {
      NothingDone(c, cmd, now);
      SamePathLine(c, c);
    } else {
      CommandEnds(c, cmd, now);
      if Forwarded(c, cmd, now) {
        hide Forwarded;
        var q := Request(Some(cmd.client), ForRadio(cmd.payload));
        var c2 :| Ready(c, c2) && d == EnqueueOrDispatch(c2, q, now);
        ReadyPath(c, c2);
        SamePathLine(c, c2);
        ReadyLine(c, c2);
        ForwardLine(c2, q, now);
        hide KeepsLine;
        KeepsLineTrans(c, c2, d);
      } else {
        hide Forwarded;
        SamePathLine(c, d);
      }
    }
  }

  lemma NothingDone(c: Core, cmd: ClientCommand, now: Clock)
    requires cmd.payload == [] || cmd.client !in c.live
    ensures HandleClientCommand(c, cmd, now) == c
  {
  }

  lemma ReadyPath(c: Core, d: Core)
    requires Ready(c, d)
    ensures d.path == c.path
  {
  }

  lemma OvertakingCommand(c: Core, cmd: ClientCommand, now: Clock)
    requires LineInv(c) && Overtakes(c, Command(cmd), now)
    ensures !Ordered(HandleClientCommand(c, cmd, now)) && OnlyOwnWait(HandleClientCommand(c, cmd, now))
  {
    hide PathInv', HandleClientCommand, EnqueueOrDispatch, Ready, Ordered, OnlyOwnWait;
    CommandEnds(c, cmd, now);
    var q := Request(Some(cmd.client), ForRadio(cmd.payload));
    hide Forwarded;
    var c2 :| Ready(c, c2) && HandleClientCommand(c, cmd, now) == EnqueueOrDispatch(c2, q, now);
    ReadyLine(c, c2);
    ReadyPath(c, c2);
    OvertakingBreaks(c2, q, now);
  }

  // ---------------------------------------------------------------------
  // Frames from the radio
  // ---------------------------------------------------------------------

  /** An accepted command may add to the line. */
  lemma AcceptedLine(c: Core, done: InFlight, now: Clock)
    requires c.path.inFlight.None?
    ensures KeepsLine(c, OnCommandAccepted(c, done, now)) && OnCommandAccepted(c, done, now).path.inFlight.None?
  {
    hide Wire, TrimNuls, EchoFrame, StoreMessage;
    var c1 := if done.payload[0] == 0x01 && done.client.Some? then NotifyMissed(c, done.client.value) else c;
    AppliedLine(c1, done);
    var c2 := ApplyAccepted(c1, done);
    hide ApplyAccepted;
    if done.client.Some? && IsWellFormedSend(done.payload) && c2.mem.pubkey.Some? {
      var echo := EchoFrame(c2, done.payload);
      StoreMessageOnly(BroadcastToOthers(c2, done.client, echo, Echoed(done.Req())), U32(done.payload, 3), echo,
                       done.origin, now);
    }
    SamePathLine(c, c1);
    SamePathLine(c2, OnCommandAccepted(c, done, now));
    hide KeepsLine;
    KeepsLineTrans(c, c1, c2);
    KeepsLineTrans(c, c2, OnCommandAccepted(c, done, now));
  }

  lemma AppliedLine(c: Core, done: InFlight)
    ensures KeepsLine(c, ApplyAccepted(c, done)) && ApplyAccepted(c, done).path.inFlight == c.path.inFlight
  {
    hide TrimNuls;
    var p := done.payload;
    if p[0] in {0x09, 0x0D} && |p| >= 33 {
      EnqueueLine(c, [Request(None, RefreshCommand(p[1..33]))]);
      assert Lengthens(c, ApplyAccepted(c, done), [Request(None, RefreshCommand(p[1..33]))]);
    } else if p[0] == 0x12 {
      EnqueueLine(c, [Request(None, FULL_SYNC)]);
      assert Lengthens(c, ApplyAccepted(c, done), [Request(None, FULL_SYNC)]);
    } else {
      SamePathLine(c, ApplyAccepted(c, done));
    }
  }

  lemma CompleteLine(c: Core, f: InFlight, p: Command, now: Clock)
    requires c.path.inFlight == Some(f)
    ensures KeepsLine(c, Complete(c, f, p, now)) && OnlyOwnWait(Complete(c, f, p, now))
  {
    var c1 := Settle(WithSlot(c, None), f.Req(), Answered(CurrentFrames(c)));
    var c2 := if IsError(p) then c1 else OnCommandAccepted(c1, f, now);
    SlotEnds(c, c1, Answered(CurrentFrames(c)));
    SameLineKeeps(c, c1);
    AcceptedLine(c1, f, now);
    SamePathLine(c1, c1);
    hide AdvanceQueue, OnCommandAccepted, KeepsLine, SameLine;
    AdvanceLine(c2, now);
    SameLineKeeps(c2, AdvanceQueue(c2, now));
    KeepsLineTrans(c, c1, c2);
    KeepsLineTrans(c, c2, AdvanceQueue(c2, now));
  }

  /** Only the history of the link changes when a frame is handed over. */
  lemma ForwardedPath(c: Core, f: InFlight, p: Command, now: Clock)
    ensures var d := Forward(c, f, p, now);
            d.path == c.path.(link := d.path.link)
  {
    PassOnOnly(AppendRouted(c, p), f, p, now);
    hide PassOn, Wire;
  }

  lemma LinkOnlyLine(c: Core, d: Core)
    requires d.path == c.path.(link := d.path.link)
    ensures SameLine(c, d) && (OnlyOwnWait(c) ==> OnlyOwnWait(d))
  {
    hide Ended;
  }

  lemma RouteLine(c: Core, p: Command, now: Clock)
    requires BelongsToInFlight(c, p)
    ensures KeepsLine(c, RouteToInFlight(c, p, now)) && OnlyOwnWait(RouteToInFlight(c, p, now))
  {
    var f := c.path.inFlight.value;
    var c1 := Forward(c, f, p, now);
    ForwardedPath(c, f, p, now);
    LinkOnlyLine(c, c1);
    SameLineKeeps(c, c1);
    hide Forward, SameLine, KeepsLine;
    if f.awaiting.Completes(p[0]) {
      CompleteLine(c1, f, p, now);
      hide Complete;
      KeepsLineTrans(c, c1, RouteToInFlight(c, p, now));
    } else {
      TouchLine(c1, f, now);
      KeepsLineTrans(c, c1, RouteToInFlight(c, p, now));
    }
  }

  lemma TouchLine(c: Core, f: InFlight, now: Clock)
    requires c.path.inFlight == Some(f)
    ensures KeepsLine(c, WithSlot(c, Some(f.(lastActivity := now.mono))))
  {
    var d := WithSlot(c, Some(f.(lastActivity := now.mono)));
    assert Slot(d) == Slot(c);
    hide Ended;
    assert Lengthens(c, d, []);
  }

  lemma PushLine(c: Core, p: Command, now: Clock)
    requires OnlyOwnWait(c)
    ensures KeepsLine(c, HandlePush(c, p, now)) && OnlyOwnWait(HandlePush(c, p, now))
  {
    if p[0] in {0x80, 0x81} && |p| >= 33 {
      OwnRequestLine(c, Request(None, RefreshCommand(p[1..33])), now);
      hide AdvanceQueue;
      var r := RefreshContact(c, p[1..33]);
      var c1 := if r.path.inFlight.None? then AdvanceQueue(r, now) else r;
      SamePathLine(c1, HandlePush(c, p, now));
      hide KeepsLine;
      KeepsLineTrans(c, c1, HandlePush(c, p, now));
    } else {
      SamePathLine(c, HandlePush(c, p, now));
    }
  }

  lemma RadioLine(c: Core, p: Frame, now: Clock)
    requires OnlyOwnWait(c)
    ensures KeepsLine(c, HandleRadioRx(c, p, now)) && OnlyOwnWait(HandleRadioRx(c, p, now))
  {
    var d := HandleRadioRx(c, p, now);
    if p == [] {
      SamePathLine(c, d);
    } else {
      var c1 := CacheResponse(c, p, now);
      CacheUnanswered(c, p, now);
      SamePathLine(c, c1);
      hide CacheResponse, RouteToInFlight, HandlePush, KeepsLine;
      if BelongsToInFlight(c1, p) {
        RouteLine(c1, p, now);
      } else if MatchesAck(c1, p) {
        AckUnanswered(c1, p);
        SamePathLine(c1, d);
      } else if IsPush(p[0]) {
        PushLine(c1, p, now);
      } else {
        SamePathLine(c1, d);
      }
      KeepsLineTrans(c, c1, d);
    }
  }

  // ---------------------------------------------------------------------
  // Ticks and the link
  // ---------------------------------------------------------------------

  lemma TimeoutLine(c: Core, now: Clock)
    requires OnlyOwnWait(c)
    ensures KeepsLine(c, CheckInFlightTimeout(c, now)) && OnlyOwnWait(CheckInFlightTimeout(c, now))
  {
    if TimedOut(c, now) {
      FailInFlightLine(c);
      hide FailInFlight, AdvanceQueue;
      var c1 := FailInFlight(c);
      AdvanceLine(c1, now);
      hide SameLine;
      SameLineTrans(c, c1, AdvanceQueue(c1, now));
      SameLineKeeps(c, AdvanceQueue(c1, now));
    } else {
      SamePathLine(c, c);
    }
  }

  lemma MaintenanceLine(c: Core, now: Clock)
    requires OnlyOwnWait(c)
    ensures KeepsLine(c, RunMaintenance(c, now)) && OnlyOwnWait(RunMaintenance(c, now))
  {
    OwnRequestLine(c, Request(None, FULL_SYNC), now);
    SamePathLine(c, c);
    hide AdvanceQueue, FullSyncPending, KeepsLine, Maintain;
    var c1 := RequestFullSync(c, now);
    SamePathLine(c1, RunMaintenance(c, now));
    KeepsLineTrans(c, c1, RunMaintenance(c, now));
  }

  lemma {:induction false} SyncIsOwn(channels: nat)
    requires channels <= 256
    ensures forall q :: q in SyncCommands(channels) ==> q.client.None?
  {
    if channels > 0 {
      SyncIsOwn(channels - 1);
    }
  }

  lemma SyncLine(c: Core, now: Clock)
    requires c.path.inFlight.None? && c.path.queue == []
    ensures KeepsLine(c, SyncFromRadio(c, now)) && OnlyOwnWait(SyncFromRadio(c, now))
  {
    var sync := SyncCommands(c.mem.maxChannels);
    var c1 := WithQueue(Arrive(c, sync), c.path.queue + sync);
    SyncIsOwn(c.mem.maxChannels);
    EnqueueLine(c, sync);
    assert KeepsLine(c, c1);
    AdvanceSyncLine(c1, now);
    hide AdvanceQueueSync, SyncCommands, KeepsLine, SameLine;
    SameLineKeeps(c1, AdvanceQueueSync(c1, now));
    KeepsLineTrans(c, c1, AdvanceQueueSync(c1, now));
  }

  lemma LoseRadioLine(c: Core)
    ensures SameLine(c, LoseRadio(c))
  {
    var c1 := FailInFlight(c);
    var c2 := WithLink(c1, NO_LINK);
    FailInFlightLine(c);
    LinkOnlyLine(c1, c2);
    FailQueueLine(c2);
    hide FailInFlight, FailQueue, SameLine;
    SameLineTrans(c, c1, c2);
    SameLineTrans(c, c2, FailQueue(c2));
  }

  /** Up to the synchronisation a reconnection only ends requests. */
  lemma HandshakeLine(c: Core, r: Reconnection, now: Clock)
    ensures var c2 := FailedAttempts(LoseRadio(c).(live := c.live - r.left), r.attempts, now);
            var c3 := InitializeRadio(WithLink(c2, Link(true, r.open, [], [])), r, now);
            SameLine(c, c3)
  {
    LoseRadioLine(c);
    hide LoseRadio, FailedAttempts, CacheResponse;
    var c1 := LoseRadio(c).(live := c.live - r.left);
    AttemptsKeepLink(c1, r.attempts, now);
    var c2 := FailedAttempts(c1, r.attempts, now);
    var c2' := WithLink(c2, Link(true, r.open, [], []));
    CacheUnanswered(c2', r.selfInfo, now);
    if r.deviceInfo.Some? {
      CacheUnanswered(CacheResponse(c2', r.selfInfo, now), r.deviceInfo.value, now);
    }
    var c3 := InitializeRadio(c2', r, now);
    assert c3.path == LoseRadio(c).path.(link := c3.path.link);
    LinkOnlyLine(LoseRadio(c), c3);
    hide SameLine;
    SameLineTrans(c, LoseRadio(c), c3);
  }

  lemma ReconnectLine(c: Core, r: Reconnection, now: Clock)
    ensures KeepsLine(c, ReconnectRadio(c, r, now)) && OnlyOwnWait(ReconnectRadio(c, r, now))
  {
    ReconnectStarts(c, r, now);
    HandshakeLine(c, r, now);
    hide ReconnectRadio, LoseRadio, FailedAttempts, InitializeRadio, SyncFromRadio, SameLine, KeepsLine;
    var c2 := FailedAttempts(LoseRadio(c).(live := c.live - r.left), r.attempts, now);
    var c3 := InitializeRadio(WithLink(c2, Link(true, r.open, [], [])), r, now);
    SameLineKeeps(c, c3);
    SyncLine(c3, now);
    KeepsLineTrans(c, c3, SyncFromRadio(c3, now));
  }

  // ---------------------------------------------------------------------
  // All steps, all runs
  // ---------------------------------------------------------------------

  lemma StepLine(c: Core, i: Input, now: Clock)
    requires LineInv(c) && !Overtakes(c, i, now)
    ensures KeepsLine(c, Step(c, i, now)) && OnlyOwnWait(Step(c, i, now))
  {
    hide HandleClientCommand, HandleRadioRx, CheckInFlightTimeout, RunMaintenance, ReconnectRadio, PathInv, KeepsLine,
      Overtakes;
    match i {
      case Connect => SamePathLine(c, Step(c, i, now));
      case Disconnect(_) => SamePathLine(c, Step(c, i, now));
      case Command(cmd) => CommandLine(c, cmd, now);
      case Radio(p) => RadioLine(c, p, now);
      case TimeoutTick => TimeoutLine(c, now);
      case MaintenanceTick => MaintenanceLine(c, now);
      case LinkCloses =>
        LinkOnlyLine(c, Step(c, i, now));
        SameLineKeeps(c, Step(c, i, now));
      case Reconnect(how) => ReconnectLine(c, how, now);
    }
  }

  lemma StepOwnWait(c: Core, i: Input, now: Clock)
    requires LineInv(c)
    ensures OnlyOwnWait(Step(c, i, now))
  {
    hide PathInv', OnlyOwnWait, Step, HandleClientCommand, Forwarded;
    if Overtakes(c, i, now) {
      CommandStep(c, i.cmd, now);
      OvertakerWaits(c, i.cmd, now);
    } else {
      StepLine(c, i, now);
    }
  }

  lemma OvertakerWaits(c: Core, cmd: ClientCommand, now: Clock)
    requires LineInv(c) && Overtakes(c, Command(cmd), now)
    ensures OnlyOwnWait(HandleClientCommand(c, cmd, now))
  {
    hide PathInv', HandleClientCommand, Ready;
    CommandEnds(c, cmd, now);
    var q := Request(Some(cmd.client), ForRadio(cmd.payload));
    hide Forwarded;
    var c2 :| Ready(c, c2) && HandleClientCommand(c, cmd, now) == EnqueueOrDispatch(c2, q, now);
    ReadyPath(c, c2);
    DispatchEnds(Arrive(c2, [q]), q, now);
    hide DispatchToRadio;
  }

  lemma KeptOrder(c: Core, d: Core)
    requires KeepsLine(c, d)
    ensures Ordered(d) <==> Ordered(c)
  {
    hide Line;
    var added :| Lengthens(c, d, added);
    if Ordered(d) {
      assert c.path.arrived == d.path.arrived[..|d.path.arrived| - |added|];
      assert Line(c) == Line(d)[..|Line(d)| - |added|];
    }
  }

  /** Requests end in the order they arrived, each one, client and command, after every step but one kind: the
      order holds after a step if and only if it held before and the step does not forward a client's request
      past entries that wait behind a free slot, which takes a link whose sender has closed. */
  lemma OrderKeptExactly(c: Core, i: Input, now: Clock)
    requires LineInv(c)
    ensures Ordered(Step(c, i, now)) <==> Ordered(c) && !Overtakes(c, i, now)
    ensures Overtakes(c, i, now) ==> !CanSend(c)
  {
    hide PathInv', Ordered, OnlyOwnWait, Step, HandleClientCommand, Forwarded, KeepsLine;
    if Overtakes(c, i, now) {
      CommandStep(c, i.cmd, now);
      OvertakingCommand(c, i.cmd, now);
    } else {
      StepLine(c, i, now);
      KeptOrder(c, Step(c, i, now));
    }
  }

  /** No step of the run overtakes. */
  ghost predicate NobodyOvertakes(c: Core, steps: seq<Timed>) {
    forall n :: 0 <= n < |steps| ==> !Overtakes(Run(c, steps[..n]), steps[n].input, steps[n].now)
  }

  lemma NobodyPrefix(c: Core, steps: seq<Timed>)
    requires steps != []
    ensures var n := |steps| - 1;
            NobodyOvertakes(c, steps)
            <==> NobodyOvertakes(c, steps[..n]) && !Overtakes(Run(c, steps[..n]), steps[n].input, steps[n].now)
  {
    hide Run, Overtakes;
    var before := steps[..|steps| - 1];
    assert forall n :: 0 <= n < |before| ==> before[..n] == steps[..n];
  }

  lemma {:induction false} RunLine(c: Core, steps: seq<Timed>)
    requires LineInv(c)
    ensures LineInv(Run(c, steps))
    ensures Ordered(Run(c, steps)) <==> Ordered(c) && NobodyOvertakes(c, steps)
  {
    hide LineInv, Ordered, Step, Overtakes;
    if steps != [] {
      var n := |steps| - 1;
      RunLine(c, steps[..n]);
      StepLineInv(Run(c, steps[..n]), steps[n].input, steps[n].now);
      NobodyPrefix(c, steps);
      OrderKeptExactly(Run(c, steps[..n]), steps[n].input, steps[n].now);
      hide NobodyOvertakes;
    }
  }

  lemma StepLineInv(c: Core, i: Input, now: Clock)
    requires LineInv(c)
    ensures LineInv(Step(c, i, now))
  {
    hide PathInv, OnlyOwnWait, Step;
    StepKeeps(c, i, now);
    StepOwnWait(c, i, now);
  }

  lemma StartLine(retention: Retention, backlog: Backlog, db: Tables, r: Reconnection, now: Clock)
    ensures LineInv(Start(retention, backlog, db, r, now)) && Ordered(Start(retention, backlog, db, r, now))
  {
    var f := Fresh(retention, backlog, db);
    assert Ordered(f);
    ReconnectLine(f, r, now);
    hide ReconnectRadio, RestoreBlobs, KeepsLine, PathInv', AnswersTo, NoIdleWait;
    StartPath(retention, backlog, db, r, now);
    KeptOrder(f, ReconnectRadio(f, r, now));
    RestoreOnlyMemory(ReconnectRadio(f, r, now));
    hide Ended;
  }

  /** Over every run, whatever is lost, timed out, dropped or reconnected: the requests that have ended, the one
      in flight and those waiting are, in this order, exactly the requests in the order they arrived, each with
      its client, if and only if no step of the run has overtaken. */
  lemma RequestsKeepTheirOrder(retention: Retention, backlog: Backlog, db: Tables, r: Reconnection, now: Clock,
                               steps: seq<Timed>)
    ensures var c0 := Start(retention, backlog, db, r, now);
            var c := Run(c0, steps);
            c.path.arrived == Ended(c.path.settled) + Outstanding(c) <==> NobodyOvertakes(c0, steps)
  {
    StartLine(retention, backlog, db, r, now);
    hide Start, LineInv, NobodyOvertakes, Run;
    RunLine(Start(retention, backlog, db, r, now), steps);
  }

  // ---------------------------------------------------------------------
  // Whose turn it is
  // ---------------------------------------------------------------------

  /** How many requests at the head of the queue are of clients that have left. */
  function LeftBehind(queue: seq<Request>, live: set<ClientId>): (n: nat)
    ensures n <= |queue|
  {
    if queue == [] || queue[0].client.None? || queue[0].client.value in live then 0
    else 1 + LeftBehind(queue[1..], live)
  }

  function AllGone(requests: seq<Request>): seq<Settled> {
    if requests == [] then [] else [Settled(requests[0], Gone)] + AllGone(requests[1..])
  }

  /** When the slot is free and the link open, the requests at the head whose clients have left are dropped, nobody is
      told, and the one behind them, whose client is there or which is the multiplexer's own, goes out. */
  lemma {:induction false} NextGoesOut(c: Core, now: Clock)
    requires c.path.inFlight.None? && CanSend(c)
    ensures var d, n := AdvanceQueue(c, now), LeftBehind(c.path.queue, c.live);
            d.path.settled == c.path.settled + AllGone(c.path.queue[..n]) && d.out == c.out
            && (if n == |c.path.queue| then d.path.inFlight.None? && d.path.queue == []
                else d.path.inFlight.Some? && d.path.inFlight.value.Req() == c.path.queue[n]
                     && d.path.queue == c.path.queue[n + 1..])
    decreases |c.path.queue|
  {
    if c.path.queue != [] {
      var q, c1 := c.path.queue[0], WithQueue(c, c.path.queue[1..]);
      hide DispatchToRadio;
      var n := LeftBehind(c.path.queue, c.live);
      if ClientLeft(c1, q) {
        NextGoesOut(Settle(c1, q, Gone), now);
        assert c.path.queue[..n][0] == q && c.path.queue[..n][1..] == c.path.queue[1..][..n - 1];
      } else {
        GoesOut(c1, q, now);
        assert c.path.queue[..0] == [];
      }
    }
  }

  lemma GoesOut(c: Core, q: Request, now: Clock)
    requires CanSend(c)
    ensures var d := DispatchToRadio(c, q, now);
            d.path.inFlight.Some? && d.path.inFlight.value.Req() == q && d.path.queue == c.path.queue
            && d.path.settled == c.path.settled && d.out == c.out
  {
    hide AwaitingFor, IdentityOf, InvalidatesIdentity, WithoutContact;
  }

  // ---------------------------------------------------------------------
  // A request that overtakes
  // ---------------------------------------------------------------------

  lemma {:induction false} FailQueueMemory(c: Core)
    ensures FailQueue(c).mem == c.mem
    decreases |c.path.queue|
  {
    if c.path.queue != [] {
      FailQueueMemory(Fail(WithQueue(c, c.path.queue[1..]), c.path.queue[0], []));
    }
  }

  lemma LoseRadioMemory(c: Core)
    ensures LoseRadio(c).mem == c.mem
  {
    FailQueueMemory(WithLink(FailInFlight(c), NO_LINK));
    hide FailQueue;
  }

  /** There is always at least one channel to ask for. */
  lemma CacheChannels(c: Core, p: Command, now: Clock)
    requires c.mem.maxChannels > 0
    ensures CacheResponse(c, p, now).mem.maxChannels > 0
  {
    if Storable(p) {
      StoreMessageOnly(c, MessageTimestamp(p), p, None, now);
    }
    hide StoreMessage, MessageTimestamp, TrimNuls, ContactFromFrame, ChannelFromFrame;
  }

  lemma {:induction false} AttemptsChannels(c: Core, attempts: seq<Option<SelfInfoFrame>>, now: Clock)
    requires c.mem.maxChannels > 0
    ensures FailedAttempts(c, attempts, now).mem.maxChannels > 0
  {
    if attempts != [] {
      hide CacheResponse;
      AttemptsChannels(c, attempts[..|attempts| - 1], now);
      if attempts[|attempts| - 1].Some? {
        CacheChannels(FailedAttempts(c, attempts[..|attempts| - 1], now), attempts[|attempts| - 1].value, now);
      }
    }
  }

  /** When the sender of a new link is closed already, the channel questions are left waiting behind a free slot. */
  lemma ClosedStart(retention: Retention, backlog: Backlog, db: Tables, r: Reconnection, now: Clock)
    requires !r.open
    ensures var c := Start(retention, backlog, db, r, now);
            c.path.inFlight.None? && c.path.queue != [] && c.live == {} && c.nextClient == 1
  {
    var f := Fresh(retention, backlog, db);
    ReconnectStarts(f, r, now);
    LoseRadioMemory(f);
    hide ReconnectRadio, LoseRadio, FailedAttempts, SyncFromRadio, CacheResponse, RestoreBlobs;
    var c1 := LoseRadio(f).(live := f.live - r.left);
    AttemptsChannels(c1, r.attempts, now);
    var c2 := WithLink(FailedAttempts(c1, r.attempts, now), Link(true, r.open, [], []));
    CacheChannels(c2, r.selfInfo, now);
    if r.deviceInfo.Some? {
      CacheChannels(CacheResponse(c2, r.selfInfo, now), r.deviceInfo.value, now);
    }
    var c3 := InitializeRadio(c2, r, now);
    SyncStarts(c3, now);
    SyncHead(c3.mem.maxChannels);
    assert Request(None, [0x1F, 0]) in SyncCommands(c3.mem.maxChannels)[1..];
    ReconnectQuiet(f, r, now);
    RestoreOnlyMemory(ReconnectRadio(f, r, now));
  }

  /** The step that breaks the order is within reach of every startup whose link closes at once: a client
      connects, asks for the time, and its request ends ahead of the channel questions that arrived before. */
  lemma ClosedLinkOvertakes(retention: Retention, backlog: Backlog, db: Tables, r: Reconnection, now: Clock)
    requires !r.open
    ensures var c := Run(Start(retention, backlog, db, r, now),
                         [Timed(Connect, now), Timed(Command(ClientCommand(1, 0, [0x05])), now)]);
            c.path.arrived != Ended(c.path.settled) + Outstanding(c)
  {
    var c0 := Start(retention, backlog, db, r, now);
    var s1, s2 := Timed(Connect, now), Timed(Command(ClientCommand(1, 0, [0x05])), now);
    hide Start, LineInv, Ordered, Overtakes, Line, Step, CanSend;
    ClosedStart(retention, backlog, db, r, now);
    StartLine(retention, backlog, db, r, now);
    var c1 := Step(c0, Connect, now);
    StepLineInv(c0, Connect, now);
    FirstJoins(c0, now);
    AskingOvertakes(c1, 1, now);
    OrderKeptExactly(c1, s2.input, now);
    TwoSteps(c0, s1, s2);
    hide Run, Outstanding, Ended;
    NotOrdered(Run(c0, [s1, s2]));
  }

  lemma TwoSteps(c: Core, s: Timed, t: Timed)
    ensures Run(c, [s, t]) == Step(Step(c, s.input, s.now), t.input, t.now)
  {
    hide Step;
    assert [s, t][..1] == [s] && [s][..0] == [];
    assert Run(c, [s]) == Step(c, s.input, s.now);
  }

  lemma FirstJoins(c: Core, now: Clock)
    requires c.nextClient == 1
    ensures var d := Step(c, Connect, now); d.path == c.path && 1 in d.live
  {
  }

  lemma AskingOvertakes(c: Core, client: ClientId, now: Clock)
    requires c.path.inFlight.None? && c.path.queue != [] && client in c.live
    ensures Overtakes(c, Command(ClientCommand(client, 0, [0x05])), now)
  {
    hide ReplayNextMissed, RespondContacts, ChannelFrame;
  }

  lemma NotOrdered(c: Core)
    requires !Ordered(c)
    ensures c.path.arrived != Ended(c.path.settled) + Outstanding(c)
  {
  }
}
