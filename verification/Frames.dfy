/** What each handler leaves alone: the event log only grows, and messages, cursors and sessions change only
    where messages are stored or replayed. */
module Frames {
  import opened Bytes
  import opened Protocol
  import opened Store
  import opened CoreState
  import opened RadioPath

  /** Everything the missed-message protocol works on. */
  ghost predicate SameMail(c: Core, d: Core) {
    && d.sessions == c.sessions && d.live == c.live && d.nextClient == c.nextClient
    && d.db.messages == c.db.messages && d.db.lastId == c.db.lastId && d.db.clients == c.db.clients
    && d.conf == c.conf
  }

  /** Neither a stored message replayed nor an echo of a send. */
  predicate Plain(e: Event) {
    !(e.ToClient? && e.kind.Missed?) && !(e.ToOthers? && e.why.Echoed?)
  }

  /** Nothing said so far is taken back, and what is added is neither a replay nor an echo. */
  predicate Plainly(a: seq<Event>, b: seq<Event>) {
    a <= b && forall j :: |a| <= j < |b| ==> Plain(b[j])
  }

  /** Nothing added is a replay; it may be an echo. */
  predicate Unreplayed(a: seq<Event>, b: seq<Event>) {
    a <= b && forall j :: |a| <= j < |b| ==> !(b[j].ToClient? && b[j].kind.Missed?)
  }

  ghost predicate QuietMail(c: Core, d: Core) {
    SameMail(c, d) && Plainly(c.out, d.out)
  }

  lemma DispatchQuiet(c: Core, q: Request, now: Clock)
    ensures QuietMail(c, DispatchToRadio(c, q, now))
  {
    hide AwaitingFor;
  }

  lemma {:induction false} AdvanceQuiet(c: Core, now: Clock)
    ensures QuietMail(c, AdvanceQueue(c, now))
    decreases |c.path.queue|
  {
    if c.path.queue != [] {
      hide DispatchToRadio;
      var q, c1 := c.path.queue[0], WithQueue(c, c.path.queue[1..]);
      if ClientLeft(c1, q) {
        AdvanceQuiet(Settle(c1, q, Gone), now);
      } else {
        DispatchQuiet(c1, q, now);
        var c2 := DispatchToRadio(c1, q, now);
        if c2.path.inFlight.None? {
          DispatchShrinks(c1, q, now);
          AdvanceQuiet(c2, now);
        }
      }
    }
  }

  lemma DispatchShrinks(c: Core, q: Request, now: Clock)
    ensures DispatchToRadio(c, q, now).path.queue == c.path.queue
  {
    hide AwaitingFor;
  }

  lemma {:induction false} AdvanceSyncQuiet(c: Core, now: Clock)
    ensures QuietMail(c, AdvanceQueueSync(c, now))
    decreases |c.path.queue|
  {
    if c.path.queue != [] {
      hide AwaitingFor;
      var q, c1 := c.path.queue[0], WithQueue(c, c.path.queue[1..]);
      if ClientLeft(c1, q) {
        AdvanceSyncQuiet(Settle(c1, q, Gone), now);
      }
    }
  }

  lemma EnqueueOrDispatchQuiet(c: Core, q: Request, now: Clock)
    ensures QuietMail(c, EnqueueOrDispatch(c, q, now))
  {
    DispatchQuiet(Arrive(c, [q]), q, now);
    hide DispatchToRadio;
  }

  lemma NotifyQuiet(c: Core, client: ClientId)
    ensures QuietMail(c, NotifyMissed(c, client))
  {
  }

  lemma {:induction false} ListContactsQuiet(c: Core, client: ClientId, rows: seq<Contact>, since: Option<nat>)
    ensures QuietMail(c, ListContacts(c, client, rows, since).0)
  {
    if rows != [] {
      hide ContactFrame, Wanted, LastMod;
      ListContactsQuiet(c, client, rows[..|rows| - 1], since);
    }
  }

  lemma ServeFromCacheQuiet(c: Core, cmd: ClientCommand)
    requires cmd.payload != []
    ensures TryServeFromCache(c, cmd).Some? ==> QuietMail(c, TryServeFromCache(c, cmd).value)
  {
    hide ListContacts, ChannelFrame, GetContacts, LE32;
    var rows, since := GetContacts(c.db), Since(cmd.payload);
    ListContactsQuiet(SendToClient(c, cmd.client, [0x02] + LE32(|rows|), Cached), cmd.client, rows, since);
  }

  lemma ServeOrForwardQuiet(c: Core, cmd: ClientCommand, now: Clock)
    requires cmd.payload != []
    ensures QuietMail(c, ServeOrForward(c, cmd, now))
  {
    ServeFromCacheQuiet(c, cmd);
    hide TryServeFromCache, EnqueueOrDispatch;
    EnqueueOrDispatchQuiet(c, Request(Some(cmd.client), ForRadio(cmd.payload)), now);
  }

  lemma ApplyAcceptedQuiet(c: Core, done: InFlight)
    ensures QuietMail(c, ApplyAccepted(c, done))
  {
    hide TrimNuls;
  }

  lemma ForwardQuiet(c: Core, f: InFlight, p: Command, now: Clock)
    ensures QuietMail(c, Forward(c, f, p, now))
  {
    PassOnOnly(AppendRouted(c, p), f, p, now);
    PassOnGrows(AppendRouted(c, p), f, p, now);
    hide PassOn;
  }

  lemma PassOnGrows(c: Core, f: InFlight, p: Command, now: Clock)
    ensures Plainly(c.out, PassOn(c, f, p, now).out)
  {
    StashAckOnly(c, p, now);
    hide StashAck;
  }

  lemma PushQuiet(c: Core, p: Command, now: Clock)
    ensures QuietMail(c, HandlePush(c, p, now))
  {
    hide AdvanceQueue;
    if p[0] in {0x80, 0x81} && |p| >= 33 {
      AdvanceQuiet(RefreshContact(c, p[1..33]), now);
    }
  }

  lemma FailInFlightQuiet(c: Core)
    ensures QuietMail(c, FailInFlight(c))
  {
  }

  lemma TimeoutQuiet(c: Core, now: Clock)
    ensures QuietMail(c, CheckInFlightTimeout(c, now))
  {
    FailInFlightQuiet(c);
    AdvanceQuiet(FailInFlight(c), now);
    hide FailInFlight, AdvanceQueue;
  }

  lemma RequestFullSyncQuiet(c: Core, now: Clock)
    ensures QuietMail(c, RequestFullSync(c, now))
  {
    AdvanceQuiet(Enqueue(c, Request(None, FULL_SYNC)), now);
    hide AdvanceQueue, FullSyncPending;
  }

  lemma {:induction false} FailQueueQuiet(c: Core)
    ensures QuietMail(c, FailQueue(c))
    decreases |c.path.queue|
  {
    if c.path.queue != [] {
      FailQueueQuiet(Fail(WithQueue(c, c.path.queue[1..]), c.path.queue[0], []));
    }
  }

  lemma LoseRadioQuiet(c: Core)
    ensures QuietMail(c, LoseRadio(c))
  {
    FailInFlightQuiet(c);
    FailQueueQuiet(WithLink(FailInFlight(c), NO_LINK));
    hide FailInFlight, FailQueue;
  }

  /** A frame that is not stored as a message leaves the mail alone. */
  lemma CacheResponseQuiet(c: Core, p: Command, now: Clock)
    requires !Storable(p)
    ensures QuietMail(c, CacheResponse(c, p, now))
  {
    hide KeepSelfInfo, KeepDeviceInfo, ContactFromFrame, ChannelFromFrame, Plain;
    KeepOnlyMemory(c.(db := c.db.(blobs := c.db.blobs[SelfInfo := p])), p);
    KeepOnlyMemory(c.(db := c.db.(blobs := c.db.blobs[DeviceInfo := p])), p);
  }

  lemma {:induction false} AttemptsQuiet(c: Core, attempts: seq<Option<SelfInfoFrame>>, now: Clock)
    ensures QuietMail(c, FailedAttempts(c, attempts, now))
  {
    if attempts != [] {
      hide CacheResponse;
      AttemptsQuiet(c, attempts[..|attempts| - 1], now);
      if attempts[|attempts| - 1].Some? {
        CacheResponseQuiet(FailedAttempts(c, attempts[..|attempts| - 1], now), attempts[|attempts| - 1].value, now);
      }
    }
  }

  lemma SyncQuiet(c: Core, r: Reconnection, now: Clock)
    ensures QuietMail(c, SyncFromRadio(InitializeRadio(c, r, now), now))
  {
    CacheResponseQuiet(c, r.selfInfo, now);
    hide CacheResponse, SyncCommands, AdvanceQueueSync;
    var c1 := CacheResponse(c, r.selfInfo, now);
    if r.deviceInfo.Some? {
      CacheResponseQuiet(c1, r.deviceInfo.value, now);
    }
    var c2 := InitializeRadio(c, r, now);
    var sync := SyncCommands(c2.mem.maxChannels);
    AdvanceSyncQuiet(WithQueue(Arrive(c2, sync), c2.path.queue + sync), now);
  }

  /** Reconnecting changes the mail only in that some clients have left. */
  lemma ReconnectQuiet(c: Core, r: Reconnection, now: Clock)
    ensures QuietMail(c.(live := c.live - r.left), ReconnectRadio(c, r, now))
  {
    LoseRadioQuiet(c);
    hide LoseRadio, FailedAttempts, InitializeRadio, SyncFromRadio;
    var c1 := LoseRadio(c);
    AttemptsQuiet(c1.(live := c1.live - r.left), r.attempts, now);
    var c2 := FailedAttempts(c1.(live := c1.live - r.left), r.attempts, now);
    SyncQuiet(WithLink(c2, Link(true, r.open, [], [])), r, now);
  }

  lemma CommandStep(c: Core, cmd: ClientCommand, now: Clock)
    ensures Step(c, Command(cmd), now) == HandleClientCommand(c, cmd, now)
  {
    hide HandleClientCommand;
  }

  lemma RadioStep(c: Core, p: Frame, now: Clock)
    ensures Step(c, Radio(p), now) == HandleRadioRx(c, p, now)
  {
    hide HandleRadioRx;
  }

  lemma NothingArrives(c: Core, now: Clock)
    ensures HandleRadioRx(c, [], now) == c
  {
  }
}
