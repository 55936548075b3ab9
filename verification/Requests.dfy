/** Every step of the multiplexer keeps the radio path's invariant; what that means over whole runs. */
module Requests {
  import opened Bytes
  import opened Protocol
  import opened Store
  import opened CoreState
  import opened RadioPath

  // ---------------------------------------------------------------------
  // Steps
  // ---------------------------------------------------------------------

  lemma PushKeeps(c: Core, p: Command, now: Clock)
    requires PathInv(c)
    ensures PathInv(HandlePush(c, p, now))
  {
    hide PathInv', SamePath, NoIdleWait;
    if p[0] in {0x80, 0x81} && |p| >= 33 {
      var q := Request(None, RefreshCommand(p[1..33]));
      EnqueueAndAdvanceKeeps(c, q, now);
      var r := Enqueue(c, q);
      var c1 := if r.path.inFlight.None? then AdvanceQueue(r, now) else r;
      EmitKeepsPath(c1, ToAll(p));
      SamePathKeeps(c1, HandlePush(c, p, now));
    } else {
      EmitKeepsPath(c, ToAll(p));
      SamePathKeeps(c, HandlePush(c, p, now));
    }
  }

  lemma RadioKeeps(c: Core, p: Frame, now: Clock)
    requires PathInv(c)
    ensures PathInv(HandleRadioRx(c, p, now))
  {
    hide PathInv', SamePath, NoIdleWait, CacheResponse;
    if p != [] {
      var c1 := CacheResponse(c, p, now);
      CacheResponseKeepsPath(c, p, now);
      SamePathKeeps(c, c1);
      if BelongsToInFlight(c1, p) {
        RouteKeeps(c1, p, now);
      } else if MatchesAck(c1, p) {
        AckKeeps(c1, p);
      } else if IsPush(p[0]) {
        PushKeeps(c1, p, now);
      }
    }
  }

  lemma AckKeeps(c: Core, p: Command)
    requires PathInv(c) && MatchesAck(c, p)
    ensures PathInv(RouteAck(c, p))
  {
    var c1 := c.(acks := c.acks - {p[1..5]});
    SendKeepsPath(c1, c.acks[p[1..5]].0, p, Ack);
    hide PathInv', NoIdleWait, AnswersTo;
    SamePathKeeps(c, RouteAck(c, p));
  }

  lemma ServeOrForwardKeeps(c: Core, cmd: ClientCommand, now: Clock)
    requires PathInv(c) && cmd.payload != [] && cmd.client < c.nextClient
    ensures PathInv(ServeOrForward(c, cmd, now))
  {
    hide PathInv', SamePath, NoIdleWait, TryServeFromCache, NotifyMissed;
    var served := TryServeFromCache(c, cmd);
    if served.Some? {
      ServeFromCacheKeepsPath(c, cmd);
      SamePathKeeps(c, served.value);
      NotifyKeepsPath(served.value, cmd.client);
      SamePathKeeps(served.value, NotifyMissed(served.value, cmd.client));
    } else {
      EnqueueOrDispatchKeeps(c, Request(Some(cmd.client), ForRadio(cmd.payload)), now);
    }
  }

  lemma NoteKeepsPath(c: Core, cmd: ClientCommand, now: Clock)
    requires cmd.payload != []
    ensures SamePath(c, NoteCommand(c, cmd, now))
  {
    hide AnswersTo, MissedBy, AppName;
  }

  lemma CommandKeeps(c: Core, cmd: ClientCommand, now: Clock)
    requires PathInv(c)
    ensures PathInv(HandleClientCommand(c, cmd, now))
  {
    if cmd.payload != [] && cmd.client in c.live {
      assert cmd.client < c.nextClient;
      hide PathInv', NoIdleWait, NoteCommand, ReplayNextMissed, ServeOrForward, AnswersTo;
      var c1 := NoteCommand(c, cmd, now);
      NoteKeepsPath(c, cmd, now);
      SamePathKeeps(c, c1);
      var c2 := ReplayNextMissed(c1, cmd.client, now).0;
      ReplayKeepsPath(c1, cmd.client, now);
      SamePathKeeps(c1, c2);
      ServeOrForwardKeeps(c1, cmd, now);
      ServeOrForwardKeeps(c2, cmd, now);
    }
  }

  lemma TimeoutKeeps(c: Core, now: Clock)
    requires PathInv(c)
    ensures PathInv(CheckInFlightTimeout(c, now))
  {
    hide PathInv';
    if TimedOut(c, now) {
      FailInFlightKeeps(c);
      AdvanceKeeps(FailInFlight(c), now);
    }
  }

  lemma MaintenanceKeeps(c: Core, now: Clock)
    requires PathInv(c)
    ensures PathInv(RunMaintenance(c, now))
  {
    hide PathInv', NoIdleWait, Maintain, AnswersTo;
    EnqueueAndAdvanceKeeps(c, Request(None, FULL_SYNC), now);
    var c1 := RequestFullSync(c, now);
    SamePathKeeps(c1, RunMaintenance(c, now));
  }

  // ---------------------------------------------------------------------
  // Losing the radio and getting it back
  // ---------------------------------------------------------------------

  lemma {:induction false} FailQueueKeeps(c: Core)
    requires PathInv'(c) && c.path.inFlight.None?
    ensures PathInv'(FailQueue(c))
    ensures FailQueue(c).path.inFlight.None? && FailQueue(c).path.queue == []
    decreases |c.path.queue|
  {
    if c.path.queue != [] {
      Pop(c);
      hide PathInv', Popped, NextInLine;
      var c1 := WithQueue(c, c.path.queue[1..]);
      FailPopped(c1, c.path.queue[0]);
      FailQueueKeeps(Fail(c1, c.path.queue[0], []));
    }
  }

  /** With the slot free, the link's history may be forgotten along with the link. */
  lemma NewLinkKeeps(c: Core, link: Link)
    requires PathInv'(c) && c.path.inFlight.None? && link.sent == [] && link.routed == []
    ensures PathInv'(WithLink(c, link))
  {
    var d := WithLink(c, link);
    SubsequenceSuffix(c.path.link.sent, c.path.queue, c.path.arrived);
    assert d.path.link.sent + d.path.queue == c.path.queue;
    hide AnswersTo, Owed, IsSubsequence, WellFormed, Conserved;
    assert Outstanding(d) == Outstanding(c);
    SameWellFormed(c, d);
    SameConserved(c, d);
    forall k: ClientId | k in d.live || k >= d.nextClient
      ensures ToldTo(d, k)
    {
      assert Running(d, k) == Running(c, k);
    }
  }

  lemma LoseRadioKeeps(c: Core)
    requires PathInv'(c)
    ensures PathInv'(LoseRadio(c)) && LoseRadio(c).path.inFlight.None? && LoseRadio(c).path.queue == []
  {
    hide PathInv', FailInFlight, FailQueue;
    FailInFlightKeeps(c);
    NewLinkKeeps(FailInFlight(c), NO_LINK);
    FailQueueKeeps(WithLink(FailInFlight(c), NO_LINK));
  }

  /** Clients may leave at any time, and new ones get ids never used before. */
  lemma LiveChangeKeeps(c: Core, d: Core)
    requires PathInv'(c) && d == c.(live := d.live, nextClient := d.nextClient)
    requires || (d.live <= c.live && d.nextClient == c.nextClient)
             || (d.live == c.live + {c.nextClient} && d.nextClient == c.nextClient + 1)
    ensures PathInv'(d)
  {
    hide AnswersTo, Owed, IsSubsequence, AwaitingFor, OpenReply, WellFormedOutcome, Conserved, Fifo;
    assert Outstanding(d) == Outstanding(c);
    SameConserved(c, d);
    assert Fifo(c) && Fifo(d) by { SameFifo(c, d); }
    assert CurrentFrames(d) == CurrentFrames(c);
    forall x | x in Outstanding(d)
      ensures WellFormedRequest(d, x)
    {
      assert WellFormedRequest(c, x);
    }
    forall k: ClientId | k in d.live || k >= d.nextClient
      ensures ToldTo(d, k)
    {
      assert k in c.live || k >= c.nextClient;
      assert Running(d, k) == Running(c, k);
    }
  }

  lemma {:induction false} AttemptsKeepPath(c: Core, attempts: seq<Option<SelfInfoFrame>>, now: Clock)
    ensures SamePath(c, FailedAttempts(c, attempts, now))
  {
    if attempts != [] {
      hide CacheResponse;
      AttemptsKeepPath(c, attempts[..|attempts| - 1], now);
      var c1 := FailedAttempts(c, attempts[..|attempts| - 1], now);
      if attempts[|attempts| - 1].Some? {
        CacheResponseKeepsPath(c1, attempts[|attempts| - 1].value, now);
      }
    }
  }

  lemma InitializeKeepsPath(c: Core, r: Reconnection, now: Clock)
    ensures SamePath(c, InitializeRadio(c, r, now))
  {
    hide CacheResponse;
    CacheResponseKeepsPath(c, r.selfInfo, now);
    if r.deviceInfo.Some? {
      CacheResponseKeepsPath(CacheResponse(c, r.selfInfo, now), r.deviceInfo.value, now);
    }
  }

  lemma {:induction false} SyncQueuedKeeps(c: Core, channels: nat)
    requires PathInv'(c) && channels <= 256
    ensures PathInv'(WithQueue(Arrive(c, SyncCommands(channels)), c.path.queue + SyncCommands(channels)))
  {
    hide PathInv';
    var q := if channels == 0 then Request(None, FULL_SYNC) else Request(None, [0x1F, channels - 1]);
    var prev := if channels == 0 then [] else SyncCommands(channels - 1);
    assert SyncCommands(channels) == prev + [q];
    var c1 := WithQueue(Arrive(c, prev), c.path.queue + prev);
    if channels == 0 {
      assert c.path.queue + [] == c.path.queue && c.path.arrived + [] == c.path.arrived;
    } else {
      SyncQueuedKeeps(c, channels - 1);
    }
    EnqueueKeeps(c1, q);
    assert c1.path.arrived + [q] == c.path.arrived + SyncCommands(channels);
    assert c1.path.queue + [q] == c.path.queue + SyncCommands(channels);
  }

  lemma SyncKeeps(c: Core, now: Clock)
    requires PathInv'(c) && c.path.inFlight.None? && c.path.link.attached
    ensures PathInv(SyncFromRadio(c, now))
  {
    hide PathInv';
    var sync := SyncCommands(c.mem.maxChannels);
    SyncQueuedKeeps(c, c.mem.maxChannels);
    AdvanceSyncKeeps(WithQueue(Arrive(c, sync), c.path.queue + sync), now);
  }

  lemma ReconnectKeeps(c: Core, r: Reconnection, now: Clock)
    requires PathInv'(c)
    ensures PathInv(ReconnectRadio(c, r, now))
  {
    hide PathInv', LoseRadio, FailedAttempts, InitializeRadio, SyncFromRadio, NoIdleWait, AnswersTo;
    LoseRadioKeeps(c);
    var c1 := LoseRadio(c);
    var left := c1.(live := c1.live - r.left);
    LiveChangeKeeps(c1, left);
    AttemptsKeepPath(left, r.attempts, now);
    var c2 := FailedAttempts(left, r.attempts, now);
    SamePathKeeps(left, c2);
    var c3 := WithLink(c2, Link(true, r.open, [], []));
    NewLinkKeeps(c2, Link(true, r.open, [], []));
    InitializeKeepsPath(c3, r, now);
    SamePathKeeps(c3, InitializeRadio(c3, r, now));
    SyncKeeps(InitializeRadio(c3, r, now), now);
  }

  // ---------------------------------------------------------------------
  // Runs
  // ---------------------------------------------------------------------

  lemma LinkClosesKeeps(c: Core)
    requires PathInv(c)
    ensures PathInv(WithLink(c, c.path.link.(open := false)))
  {
    hide AnswersTo, Owed, IsSubsequence, AwaitingFor, OpenReply, WellFormed, Conserved;
    var d := WithLink(c, c.path.link.(open := false));
    assert Outstanding(d) == Outstanding(c) && CurrentFrames(d) == CurrentFrames(c);
    SameWellFormed(c, d);
    SameConserved(c, d);
    forall k: ClientId | k in d.live || k >= d.nextClient
      ensures ToldTo(d, k)
    {
      assert Running(d, k) == Running(c, k);
    }
  }

  lemma StepKeeps(c: Core, i: Input, now: Clock)
    requires PathInv(c)
    ensures PathInv(Step(c, i, now))
  {
    hide PathInv', HandleClientCommand, HandleRadioRx, CheckInFlightTimeout, RunMaintenance, ReconnectRadio;
    match i {
      case Connect => LiveChangeKeeps(c, Step(c, i, now));
      case Disconnect(_) => LiveChangeKeeps(c, Step(c, i, now));
      case Command(cmd) => CommandKeeps(c, cmd, now);
      case Radio(frame) => RadioKeeps(c, frame, now);
      case TimeoutTick => TimeoutKeeps(c, now);
      case MaintenanceTick => MaintenanceKeeps(c, now);
      case LinkCloses => LinkClosesKeeps(c);
      case Reconnect(how) => ReconnectKeeps(c, how, now);
    }
  }

  lemma FreshPath(retention: Retention, backlog: Backlog, db: Tables)
    ensures PathInv'(Fresh(retention, backlog, db))
  {
    var c := Fresh(retention, backlog, db);
    assert Outstanding(c) == [] && c.path.link.sent + c.path.queue == [];
    forall k: ClientId
      ensures ToldTo(c, k)
    {
      assert Running(c, k) == [];
    }
  }

  /** Startup blobs only fill in what the multiplexer remembers of its radio. */
  lemma RestoreOnlyMemory(c: Core)
    ensures RestoreBlobs(c) == c.(mem := RestoreBlobs(c).mem)
  {
    hide KeepSelfInfo, KeepDeviceInfo;
    var c1 := if c.mem.selfInfo.None? && SelfInfo in c.db.blobs then KeepSelfInfo(c, c.db.blobs[SelfInfo]) else c;
    if c.mem.selfInfo.None? && SelfInfo in c.db.blobs {
      KeepOnlyMemory(c, c.db.blobs[SelfInfo]);
    }
    if c1.mem.deviceInfo.None? && DeviceInfo in c1.db.blobs {
      KeepOnlyMemory(c1, c1.db.blobs[DeviceInfo]);
    }
  }

  lemma StartPath(retention: Retention, backlog: Backlog, db: Tables, r: Reconnection, now: Clock)
    ensures PathInv(Start(retention, backlog, db, r, now))
  {
    hide PathInv', ReconnectRadio, NoIdleWait, AnswersTo, RestoreBlobs;
    FreshPath(retention, backlog, db);
    var c := ReconnectRadio(Fresh(retention, backlog, db), r, now);
    ReconnectKeeps(Fresh(retention, backlog, db), r, now);
    RestoreOnlyMemory(c);
    SamePathKeeps(c, RestoreBlobs(c));
  }

  /** A state the multiplexer can be in: any run of any steps after a startup on any database. */
  ghost predicate Reachable(c: Core) {
    exists retention, backlog, db, r, now, steps :: c == Run(Start(retention, backlog, db, r, now), steps)
  }

  /** A step put before a run. */
  lemma {:induction false} RunAfter(c: Core, t: Timed, steps: seq<Timed>)
    ensures Run(c, [t] + steps) == Run(Step(c, t.input, t.now), steps)
  {
    hide Step;
    var all := [t] + steps;
    if steps == [] {
      assert all == [t] && [t][..0] == [];
    } else {
      assert all[..|all| - 1] == [t] + steps[..|steps| - 1] && all[|all| - 1] == steps[|steps| - 1];
      RunAfter(c, t, steps[..|steps| - 1]);
    }
  }

  lemma {:induction false} RunKeeps(c: Core, steps: seq<Timed>)
    requires PathInv(c)
    ensures PathInv(Run(c, steps))
  {
    hide PathInv, Step;
    if steps != [] {
      RunKeeps(c, steps[..|steps| - 1]);
      var last := steps[|steps| - 1];
      StepKeeps(Run(c, steps[..|steps| - 1]), last.input, last.now);
    }
  }

  lemma ReachablePath(c: Core)
    requires Reachable(c)
    ensures PathInv(c)
  {
    hide PathInv, Start, Run;
    var retention, backlog, db, r, now, steps :| c == Run(Start(retention, backlog, db, r, now), steps);
    StartPath(retention, backlog, db, r, now);
    RunKeeps(Start(retention, backlog, db, r, now), steps);
  }

  /** Across timeouts, send failures, disconnections and reconnections, every request put on the radio path
      is settled, in flight or queued, and nothing else is; none is ever dropped without a word. Settled
      means one whole reply of the expected shape, or an ERROR after an unfinished one, or a client gone. */
  lemma RequestsAreConserved(c: Core)
    requires Reachable(c)
    ensures multiset(c.path.arrived) == multiset(Ended(c.path.settled)) + multiset(Outstanding(c))
    ensures forall s :: s in c.path.settled ==>
              match s.outcome
              case Answered(frames) => WholeReply(AwaitingFor(s.request.payload), frames)
              case Failed(frames) => OpenReply(AwaitingFor(s.request.payload), frames)
              case Gone => s.request.client.Some?
              case Lost => false
  {
    ReachablePath(c);
  }

  /** What a connected client has received as answers is, frame by frame and in order, what its settled
      requests came to: each reply whole and once, each failure one ERROR, then the running request so far. */
  lemma ClientsAreToldExactly(c: Core, client: ClientId)
    requires Reachable(c) && client in c.live
    ensures AnswersTo(c.out, client) == Owed(c.path.settled, client) + Running(c, client)
  {
    ReachablePath(c);
  }

  /** Requests go out on a link in arrival order, and none that waits has been overtaken. The one in flight
      is the last one sent, and the queue waits only behind it or on a link whose sender is closed. */
  lemma SentInArrivalOrder(c: Core)
    requires Reachable(c)
    ensures IsSubsequence(c.path.link.sent + c.path.queue, c.path.arrived)
    ensures c.path.inFlight.Some? ==>
              c.path.link.sent != [] && c.path.link.sent[|c.path.link.sent| - 1] == c.path.inFlight.value.Req()
    ensures c.path.inFlight.None? && c.path.queue != [] ==> !CanSend(c)
  {
    ReachablePath(c);
  }
}
