/** How requests end: which steps answer one, and what they leave alone. */
module Outcomes {
  import opened Bytes
  import opened Protocol
  import opened Store
  import opened CoreState
  import opened RadioPath
  import opened Frames

  /** Nothing is answered, the radio's key is not forgotten, and who waits for which ACK stays. */
  ghost predicate Unanswered(c: Core, d: Core) {
    && c.path.settled <= d.path.settled
    && (forall j :: |c.path.settled| <= j < |d.path.settled| ==> !d.path.settled[j].outcome.Answered?)
    && (c.mem.pubkey.Some? ==> d.mem.pubkey.Some?)
    && d.acks == c.acks
  }

  lemma DispatchUnanswered(c: Core, q: Request, now: Clock)
    ensures Unanswered(c, DispatchToRadio(c, q, now))
  {
    hide AwaitingFor, Wire;
  }

  lemma {:induction false} AdvanceUnanswered(c: Core, now: Clock)
    ensures Unanswered(c, AdvanceQueue(c, now))
    decreases |c.path.queue|
  {
    if c.path.queue != [] {
      hide DispatchToRadio;
      var q, c1 := c.path.queue[0], WithQueue(c, c.path.queue[1..]);
      if ClientLeft(c1, q) {
        AdvanceUnanswered(Settle(c1, q, Gone), now);
      } else {
        DispatchUnanswered(c1, q, now);
        var c2 := DispatchToRadio(c1, q, now);
        if c2.path.inFlight.None? {
          DispatchShrinks(c1, q, now);
          AdvanceUnanswered(c2, now);
        }
      }
    }
  }

  lemma {:induction false} AdvanceSyncUnanswered(c: Core, now: Clock)
    ensures Unanswered(c, AdvanceQueueSync(c, now))
    decreases |c.path.queue|
  {
    if c.path.queue != [] {
      hide AwaitingFor, Wire;
      var q, c1 := c.path.queue[0], WithQueue(c, c.path.queue[1..]);
      if ClientLeft(c1, q) {
        AdvanceSyncUnanswered(Settle(c1, q, Gone), now);
      }
    }
  }

  lemma {:induction false} FailQueueUnanswered(c: Core)
    ensures Unanswered(c, FailQueue(c))
    decreases |c.path.queue|
  {
    if c.path.queue != [] {
      FailQueueUnanswered(Fail(WithQueue(c, c.path.queue[1..]), c.path.queue[0], []));
    }
  }

  /** Serving a client from the cache leaves what is remembered alone. */
  lemma ServeSameMemory(c: Core, cmd: ClientCommand)
    requires cmd.payload != []
    ensures TryServeFromCache(c, cmd).Some? ==>
              TryServeFromCache(c, cmd).value == c.(out := TryServeFromCache(c, cmd).value.out)
  {
    hide ListContacts, ChannelFrame, GetContacts, LE32, Wire;
    var rows, since := GetContacts(c.db), Since(cmd.payload);
    ListOnly(SendToClient(c, cmd.client, [0x02] + LE32(|rows|), Cached), cmd.client, rows, since);
  }

  lemma {:induction false} ListOnly(c: Core, client: ClientId, rows: seq<Contact>, since: Option<nat>)
    ensures ListContacts(c, client, rows, since).0 == c.(out := ListContacts(c, client, rows, since).0.out)
  {
    if rows != [] {
      hide ContactFrame, Wanted, LastMod, Wire;
      ListOnly(c, client, rows[..|rows| - 1], since);
    }
  }

  lemma ServeOrForwardUnanswered(c: Core, cmd: ClientCommand, now: Clock)
    requires cmd.payload != []
    ensures Unanswered(c, ServeOrForward(c, cmd, now))
  {
    ServeSameMemory(c, cmd);
    hide TryServeFromCache, DispatchToRadio, Wire;
    var q := Request(Some(cmd.client), ForRadio(cmd.payload));
    DispatchUnanswered(Arrive(c, [q]), q, now);
  }

  lemma {:induction false} ServeMissedOnly(c: Core, k: ClientId, now: Clock)
    requires k in c.sessions
    ensures var d := ServeMissed(c, k, now).0; d.path == c.path && d.mem == c.mem && d.acks == c.acks
    decreases |c.sessions[k].pending|
  {
    var s := c.sessions[k];
    if s.pending != [] && MessageFrame(c.db, s.pending[0]).None? {
      hide MessageFrame;
      ServeMissedOnly(c.(sessions := c.sessions[k := s.(pending := s.pending[1..])]), k, now);
    }
  }

  lemma CommandUnanswered(c: Core, cmd: ClientCommand, now: Clock)
    ensures Unanswered(c, HandleClientCommand(c, cmd, now))
  {
    if cmd.payload != [] && cmd.client in c.live {
      hide ServeOrForward, MissedBy, AppName, ServeMissed, MessageHead;
      var c1 := NoteCommand(c, cmd, now);
      if cmd.client in c1.sessions {
        ServeMissedOnly(c1, cmd.client, now);
      }
      var c2 := if cmd.payload[0] == 0x0A then ReplayNextMissed(c1, cmd.client, now).0 else c1;
      ServeOrForwardUnanswered(c2, cmd, now);
    }
  }

  lemma CacheUnanswered(c: Core, p: Command, now: Clock)
    ensures CacheResponse(c, p, now).path == c.path && CacheResponse(c, p, now).acks == c.acks
    ensures p[0] != 0x05 ==> CacheResponse(c, p, now).mem.pubkey == c.mem.pubkey
    ensures c.mem.pubkey.Some? ==> CacheResponse(c, p, now).mem.pubkey.Some?
  {
    CacheResponseOnly(c, p, now);
    if Storable(p) {
      StoreMessageOnly(c, MessageTimestamp(p), p, None, now);
    }
    hide StoreMessage, MessageTimestamp, TrimNuls, ContactFromFrame, ChannelFromFrame;
  }

  lemma AppliedMemory(c: Core, done: InFlight)
    ensures var d := ApplyAccepted(c, done);
            d.mem.pubkey == c.mem.pubkey && d.path.settled == c.path.settled && d.acks == c.acks
  {
    hide TrimNuls;
  }

  lemma AcceptedUnanswered(c: Core, done: InFlight, now: Clock)
    ensures Unanswered(c, OnCommandAccepted(c, done, now))
  {
    hide ApplyAccepted, Wire, EchoFrame;
    var c1 := if done.payload[0] == 0x01 && done.client.Some? then NotifyMissed(c, done.client.value) else c;
    AppliedMemory(c1, done);
    var c2 := ApplyAccepted(c1, done);
    if done.client.Some? && IsWellFormedSend(done.payload) && c2.mem.pubkey.Some? {
      var echo := EchoFrame(c2, done.payload);
      StoreMessageOnly(BroadcastToOthers(c2, done.client, echo, Echoed(done.Req())),
                       U32(done.payload, 3), echo, done.origin, now);
    }
    hide StoreMessage;
  }

  lemma ForwardMemory(c: Core, f: InFlight, p: Command, now: Clock)
    ensures Forward(c, f, p, now).mem == c.mem
  {
    PassOnOnly(AppendRouted(c, p), f, p, now);
    StashAckOnly(AppendRouted(c, p), p, now);
    hide StashAck, Wire;
  }

  lemma AckUnanswered(c: Core, p: Command)
    requires MatchesAck(c, p)
    ensures RouteAck(c, p).path == c.path && RouteAck(c, p).mem == c.mem
  {
  }

  lemma PushUnanswered(c: Core, p: Command, now: Clock)
    ensures Unanswered(c, HandlePush(c, p, now))
  {
    hide AdvanceQueue;
    if p[0] in {0x80, 0x81} && |p| >= 33 {
      AdvanceUnanswered(RefreshContact(c, p[1..33]), now);
    }
  }

  lemma FailInFlightUnanswered(c: Core)
    ensures Unanswered(c, FailInFlight(c))
  {
  }

  lemma TimeoutUnanswered(c: Core, now: Clock)
    ensures Unanswered(c, CheckInFlightTimeout(c, now))
  {
    FailInFlightUnanswered(c);
    AdvanceUnanswered(FailInFlight(c), now);
    hide FailInFlight, AdvanceQueue;
  }

  lemma MaintenanceUnanswered(c: Core, now: Clock)
    ensures Unanswered(c, RunMaintenance(c, now))
  {
    AdvanceUnanswered(Enqueue(c, Request(None, FULL_SYNC)), now);
    hide AdvanceQueue, FullSyncPending, Maintain;
  }

  lemma {:induction false} AttemptsUnanswered(c: Core, attempts: seq<Option<SelfInfoFrame>>, now: Clock)
    ensures Unanswered(c, FailedAttempts(c, attempts, now))
  {
    if attempts != [] {
      hide CacheResponse;
      AttemptsUnanswered(c, attempts[..|attempts| - 1], now);
      if attempts[|attempts| - 1].Some? {
        CacheUnanswered(FailedAttempts(c, attempts[..|attempts| - 1], now), attempts[|attempts| - 1].value, now);
      }
    }
  }

  lemma SyncUnanswered(c: Core, r: Reconnection, now: Clock)
    ensures Unanswered(c, SyncFromRadio(InitializeRadio(c, r, now), now))
  {
    CacheUnanswered(c, r.selfInfo, now);
    hide CacheResponse, SyncCommands, AdvanceQueueSync;
    var c1 := CacheResponse(c, r.selfInfo, now);
    if r.deviceInfo.Some? {
      CacheUnanswered(c1, r.deviceInfo.value, now);
    }
    var c2 := InitializeRadio(c, r, now);
    var sync := SyncCommands(c2.mem.maxChannels);
    AdvanceSyncUnanswered(WithQueue(Arrive(c2, sync), c2.path.queue + sync), now);
  }

  lemma ReconnectUnanswered(c: Core, r: Reconnection, now: Clock)
    ensures Unanswered(c, ReconnectRadio(c, r, now))
  {
    FailInFlightUnanswered(c);
    FailQueueUnanswered(WithLink(FailInFlight(c), NO_LINK));
    hide FailInFlight, FailQueue, FailedAttempts, InitializeRadio, SyncFromRadio;
    var c1 := LoseRadio(c);
    AttemptsUnanswered(c1.(live := c1.live - r.left), r.attempts, now);
    var c2 := FailedAttempts(c1.(live := c1.live - r.left), r.attempts, now);
    SyncUnanswered(WithLink(c2, Link(true, r.open, [], [])), r, now);
  }

  /** Completing a request answers it, and nothing after that is answered. */
  lemma CompleteAnswersOnce(c: Core, f: InFlight, p: Command, now: Clock)
    ensures var d, s := Complete(c, f, p, now), Settled(f.Req(), Answered(CurrentFrames(c)));
            c.path.settled + [s] <= d.path.settled
            && (forall j :: |c.path.settled| < j < |d.path.settled| ==> !d.path.settled[j].outcome.Answered?)
            && (c.mem.pubkey.Some? ==> d.mem.pubkey.Some?) && d.acks == c.acks
  {
    hide AdvanceQueue, OnCommandAccepted;
    var c1 := Settle(WithSlot(c, None), f.Req(), Answered(CurrentFrames(c)));
    AcceptedUnanswered(c1, f, now);
    AdvanceUnanswered(if IsError(p) then c1 else OnCommandAccepted(c1, f, now), now);
  }

  /** Only frames from the radio answer requests. */
  lemma OtherStepsAnswerNothing(c: Core, i: Input, now: Clock)
    requires !i.Radio?
    ensures Unanswered(c, Step(c, i, now))
  {
    hide HandleClientCommand, CheckInFlightTimeout, RunMaintenance, ReconnectRadio;
    match i {
      case Connect =>
      case Disconnect(_) =>
      case Command(cmd) => CommandUnanswered(c, cmd, now);
      case TimeoutTick => TimeoutUnanswered(c, now);
      case MaintenanceTick => MaintenanceUnanswered(c, now);
      case LinkCloses =>
      case Reconnect(how) => ReconnectUnanswered(c, how, now);
    }
  }

  lemma RouteIs(c: Core, p: Command, now: Clock)
    requires BelongsToInFlight(c, p)
    ensures var c1 := CacheResponse(c, p, now);
            c1.path == c.path && HandleRadioRx(c, p, now) == RouteToInFlight(c1, p, now)
  {
    CacheUnanswered(c, p, now);
    hide CacheResponse, RouteToInFlight;
  }

  // ---------------------------------------------------------------------
  // What is told when the queue is advanced
  // ---------------------------------------------------------------------

  /** Nothing but failures is told. */
  predicate OnlyFailures(out: seq<Event>, later: seq<Event>) {
    out <= later && forall j :: |out| <= j < |later| ==> later[j].ToClient? && later[j].kind == Failure
  }

  lemma DispatchFails(c: Core, q: Request, now: Clock)
    ensures OnlyFailures(c.out, DispatchToRadio(c, q, now).out)
  {
    hide AwaitingFor, IdentityOf, Wire;
    InvalidateOut(HandOver(c, q), q.payload);
    hide Invalidate;
  }

  lemma InvalidateOut(c: Core, p: Command)
    ensures Invalidate(c, p).out == c.out
  {
    hide InvalidatesIdentity;
  }

  lemma {:induction false} AdvanceFails(c: Core, now: Clock)
    ensures OnlyFailures(c.out, AdvanceQueue(c, now).out)
    decreases |c.path.queue|
  {
    if c.path.queue != [] {
      var q, c1 := c.path.queue[0], WithQueue(c, c.path.queue[1..]);
      if ClientLeft(c1, q) {
        AdvanceFails(Settle(c1, q, Gone), now);
      } else {
        DispatchFails(c1, q, now);
        DispatchShrinks(c1, q, now);
        hide DispatchToRadio;
        var c2 := DispatchToRadio(c1, q, now);
        if c2.path.inFlight.None? {
          AdvanceFails(c2, now);
        }
      }
    }
  }
}
