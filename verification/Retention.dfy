/** Retention: maintenance never deletes a contact the last full sync has seen. */
module Retention {
  import opened Bytes
  import opened Protocol
  import opened Store
  import opened CoreState
  import opened RadioPath
  import opened Outcomes
  import opened Requests
  import opened Frames

  // ---------------------------------------------------------------------
  // What the radio reported
  // ---------------------------------------------------------------------

  /** A CONTACT frame that came in: for which key, when, and during a full sync dispatched when. */
  datatype Report = Report(key: Frame, at: int, during: Option<int>)

  predicate FullSyncInFlight(c: Core) {
    c.path.inFlight.Some? && c.path.inFlight.value.payload == FULL_SYNC
  }

  function Reported(c: Core, i: Input, now: Clock): seq<Report> {
    if i.Radio? && i.frame != [] && IsContactFrame(i.frame) then
      [Report(ContactKey(i.frame), now.unix,
              if FullSyncInFlight(c) then Some(c.path.inFlight.value.sentUnix) else None)]
    else []
  }

  function Reports(c: Core, steps: seq<Timed>): seq<Report> {
    if steps == [] then []
    else
      var n := |steps| - 1;
      Reports(c, steps[..n]) + Reported(Run(c, steps[..n]), steps[n].input, steps[n].now)
  }

  /** The frame ends a full sync, and not with an ERROR. */
  predicate EndsFullSync(c: Core, p: Command) {
    FullSyncInFlight(c) && BelongsToInFlight(c, p) && c.path.inFlight.value.awaiting.Completes(p[0]) && !IsError(p)
  }

  /** When the last full sync that was completed had been dispatched. */
  function LastSync(c: Core, steps: seq<Timed>): Option<int> {
    if steps == [] then c.db.contactsSyncedAt
    else
      var n := |steps| - 1;
      var d, i := Run(c, steps[..n]), steps[n].input;
      if i.Radio? && i.frame != [] && EndsFullSync(d, i.frame) then Some(d.path.inFlight.value.sentUnix)
      else LastSync(c, steps[..n])
  }

  ghost predicate Forwards(from: int, steps: seq<Timed>) {
    && (forall n :: 0 <= n < |steps| ==> from <= steps[n].now.unix)
    && (forall m, n :: 0 <= m < n < |steps| ==> steps[m].now.unix <= steps[n].now.unix)
  }

  function LastClock(from: int, steps: seq<Timed>): int {
    if steps == [] then from else steps[|steps| - 1].now.unix
  }

  // ---------------------------------------------------------------------
  // Handlers only drop contacts
  // ---------------------------------------------------------------------

  /** No contact is new or changed, the sync mark stands, and the slot is as it was, empty, or filled now. */
  ghost predicate Drops(c: Core, d: Core, now: Clock) {
    && (forall x :: x in d.db.contacts ==> x in c.db.contacts)
    && d.db.contactsSyncedAt == c.db.contactsSyncedAt
    && (d.path.inFlight.Some? ==>
          d.path.inFlight.value.sentUnix == now.unix
          || (c.path.inFlight.Some? && d.path.inFlight.value.sentUnix == c.path.inFlight.value.sentUnix))
  }

  lemma WithoutDrops(rows: seq<Contact>, key: Frame)
    ensures forall x :: x in WithoutContact(rows, key) ==> x in rows && x.key != key
  {
    forall x | x in WithoutContact(rows, key)
      ensures x in rows && x.key != key
    {
      FilterMember(rows, (r: Contact) => r.key != key, x);
    }
  }

  lemma InvalidateDrops(c: Core, payload: Command, now: Clock)
    ensures Drops(c, Invalidate(c, payload), now)
  {
    hide WithoutContact;
    if |payload| >= 33 {
      WithoutDrops(c.db.contacts, payload[1..33]);
    }
  }

  lemma DispatchDrops(c: Core, q: Request, now: Clock)
    ensures Drops(c, DispatchToRadio(c, q, now), now)
  {
    InvalidateDrops(HandOver(c, q), q.payload, now);
    hide AwaitingFor, Invalidate, IdentityOf, Wire;
  }

  lemma {:induction false} AdvanceDrops(c: Core, now: Clock)
    requires c.path.inFlight.None?
    ensures Drops(c, AdvanceQueue(c, now), now)
    decreases |c.path.queue|
  {
    if c.path.queue != [] {
      hide DispatchToRadio;
      var q, c1 := c.path.queue[0], WithQueue(c, c.path.queue[1..]);
      if ClientLeft(c1, q) {
        AdvanceDrops(Settle(c1, q, Gone), now);
      } else {
        DispatchDrops(c1, q, now);
        var c2 := DispatchToRadio(c1, q, now);
        if c2.path.inFlight.None? {
          DispatchShrinks(c1, q, now);
          AdvanceDrops(c2, now);
        }
      }
    }
  }

  lemma {:induction false} AdvanceSyncDrops(c: Core, now: Clock)
    requires c.path.inFlight.None?
    ensures Drops(c, AdvanceQueueSync(c, now), now)
    decreases |c.path.queue|
  {
    if c.path.queue != [] {
      hide AwaitingFor, IdentityOf, Wire;
      var q, c1 := c.path.queue[0], WithQueue(c, c.path.queue[1..]);
      if ClientLeft(c1, q) {
        AdvanceSyncDrops(Settle(c1, q, Gone), now);
      }
    }
  }

  lemma {:induction false} FailQueueDrops(c: Core, now: Clock)
    ensures Drops(c, FailQueue(c), now) && FailQueue(c).path.inFlight == c.path.inFlight
    decreases |c.path.queue|
  {
    if c.path.queue != [] {
      FailQueueDrops(Fail(WithQueue(c, c.path.queue[1..]), c.path.queue[0], []), now);
    }
  }

  lemma FailInFlightDrops(c: Core, now: Clock)
    ensures Drops(c, FailInFlight(c), now) && FailInFlight(c).path.inFlight.None?
  {
  }

  lemma ServeOrForwardDrops(c: Core, cmd: ClientCommand, now: Clock)
    requires cmd.payload != []
    ensures Drops(c, ServeOrForward(c, cmd, now), now)
  {
    ServeSameMemory(c, cmd);
    hide TryServeFromCache, DispatchToRadio, Wire;
    var q := Request(Some(cmd.client), ForRadio(cmd.payload));
    DispatchDrops(Arrive(c, [q]), q, now);
  }

  lemma {:induction false} ServeMissedDrops(c: Core, k: ClientId, now: Clock)
    requires k in c.sessions
    ensures var d := ServeMissed(c, k, now).0;
            d.path == c.path && d.db.contacts == c.db.contacts && d.db.contactsSyncedAt == c.db.contactsSyncedAt
    decreases |c.sessions[k].pending|
  {
    var s := c.sessions[k];
    if s.pending != [] && MessageFrame(c.db, s.pending[0]).None? {
      hide MessageFrame;
      ServeMissedDrops(c.(sessions := c.sessions[k := s.(pending := s.pending[1..])]), k, now);
    }
  }

  lemma CommandDrops(c: Core, cmd: ClientCommand, now: Clock)
    ensures Drops(c, HandleClientCommand(c, cmd, now), now)
  {
    if cmd.payload != [] && cmd.client in c.live {
      hide ServeOrForward, MissedBy, AppName, ServeMissed, MessageHead;
      var c1 := NoteCommand(c, cmd, now);
      if cmd.client in c1.sessions {
        ServeMissedDrops(c1, cmd.client, now);
      }
      var c2 := if cmd.payload[0] == 0x0A then ReplayNextMissed(c1, cmd.client, now).0 else c1;
      ServeOrForwardDrops(c2, cmd, now);
    }
  }

  lemma TimeoutDrops(c: Core, now: Clock)
    ensures Drops(c, CheckInFlightTimeout(c, now), now)
  {
    FailInFlightDrops(c, now);
    AdvanceDrops(FailInFlight(c), now);
    hide FailInFlight, AdvanceQueue;
  }

  lemma PushDrops(c: Core, p: Command, now: Clock)
    ensures Drops(c, HandlePush(c, p, now), now)
  {
    hide AdvanceQueue;
    if p[0] in {0x80, 0x81} && |p| >= 33 && c.path.inFlight.None? {
      AdvanceDrops(RefreshContact(c, p[1..33]), now);
    }
  }

  lemma RequestFullSyncDrops(c: Core, now: Clock)
    ensures Drops(c, RequestFullSync(c, now), now)
  {
    hide AdvanceQueue, FullSyncPending;
    if c.path.inFlight.None? {
      AdvanceDrops(Enqueue(c, Request(None, FULL_SYNC)), now);
    }
  }

  lemma MaintenanceDrops(c: Core, now: Clock)
    ensures Drops(c, RunMaintenance(c, now), now)
  {
    RequestFullSyncDrops(c, now);
    hide RequestFullSync, ContactExpired, KeptMessages, KeptClients;
    var c1 := RequestFullSync(c, now);
    forall x | x in RunMaintenance(c, now).db.contacts
      ensures x in c1.db.contacts
    {
      MaintainContactsExact(c1.db, c1.conf.retention, now.unix, x);
    }
  }

  /** Storing a message touches no contact. */
  lemma StoreDrops(c: Core, timestamp: int, frame: Frame, origin: Option<Identity>, now: Clock)
    ensures var d := StoreMessage(c, timestamp, frame, origin, now);
            d.db.contacts == c.db.contacts && d.db.contactsSyncedAt == c.db.contactsSyncedAt && d.path == c.path
  {
    hide AdvanceAll, CaughtUp;
  }

  /** A frame that is not a contact. */
  lemma CacheDrops(c: Core, p: Command, now: Clock)
    requires !IsContactFrame(p)
    ensures var d := CacheResponse(c, p, now);
            d.db.contacts == c.db.contacts && d.db.contactsSyncedAt == c.db.contactsSyncedAt && d.path == c.path
  {
    hide StoreMessage, KeepSelfInfo, KeepDeviceInfo, ContactFromFrame, ChannelFromFrame, MessageTimestamp;
    if p[0] == 0x05 {
      KeepOnlyMemory(c.(db := c.db.(blobs := c.db.blobs[SelfInfo := p])), p);
    } else if p[0] == 0x0D {
      KeepOnlyMemory(c.(db := c.db.(blobs := c.db.blobs[DeviceInfo := p])), p);
    } else if Storable(p) {
      StoreDrops(c, MessageTimestamp(p), p, None, now);
    }
  }

  lemma {:induction false} AttemptsDrop(c: Core, attempts: seq<Option<SelfInfoFrame>>, now: Clock)
    ensures var d := FailedAttempts(c, attempts, now);
            d.db.contacts == c.db.contacts && d.db.contactsSyncedAt == c.db.contactsSyncedAt && d.path == c.path
  {
    if attempts != [] {
      hide CacheResponse;
      AttemptsDrop(c, attempts[..|attempts| - 1], now);
      if attempts[|attempts| - 1].Some? {
        CacheDrops(FailedAttempts(c, attempts[..|attempts| - 1], now), attempts[|attempts| - 1].value, now);
      }
    }
  }

  lemma SyncDrops(c: Core, r: Reconnection, now: Clock)
    ensures Drops(c, SyncFromRadio(InitializeRadio(c, r, now), now), now)
  {
    CacheDrops(c, r.selfInfo, now);
    hide CacheResponse, SyncCommands, AdvanceQueueSync;
    var c1 := CacheResponse(c, r.selfInfo, now);
    if r.deviceInfo.Some? {
      CacheDrops(c1, r.deviceInfo.value, now);
    }
    var c2 := InitializeRadio(c, r, now);
    var sync := SyncCommands(c2.mem.maxChannels);
    if c2.path.inFlight.None? {
      AdvanceSyncDrops(WithQueue(Arrive(c2, sync), c2.path.queue + sync), now);
    }
  }

  lemma ReconnectDrops(c: Core, r: Reconnection, now: Clock)
    ensures Drops(c, ReconnectRadio(c, r, now), now)
  {
    FailInFlightDrops(c, now);
    FailQueueDrops(WithLink(FailInFlight(c), NO_LINK), now);
    hide FailInFlight, FailQueue, FailedAttempts, InitializeRadio, SyncFromRadio;
    var c1 := LoseRadio(c);
    AttemptsDrop(c1.(live := c1.live - r.left), r.attempts, now);
    var c2 := FailedAttempts(c1.(live := c1.live - r.left), r.attempts, now);
    SyncDrops(WithLink(c2, Link(true, r.open, [], [])), r, now);
  }

  lemma OtherStepsDrop(c: Core, i: Input, now: Clock)
    requires !i.Radio?
    ensures Drops(c, Step(c, i, now), now)
  {
    hide HandleClientCommand, CheckInFlightTimeout, RunMaintenance, ReconnectRadio;
    match i {
      case Connect =>
      case Disconnect(_) =>
      case Command(cmd) => CommandDrops(c, cmd, now);
      case TimeoutTick => TimeoutDrops(c, now);
      case MaintenanceTick => MaintenanceDrops(c, now);
      case LinkCloses =>
      case Reconnect(how) => ReconnectDrops(c, how, now);
    }
  }

  // ---------------------------------------------------------------------
  // Frames from the radio
  // ---------------------------------------------------------------------

  /** As `Drops`, but a completed full sync leaves its mark. */
  ghost predicate DropsOrSyncs(c: Core, d: Core, p: Command, now: Clock) {
    && (forall x :: x in d.db.contacts ==> x in c.db.contacts)
    && d.db.contactsSyncedAt
       == (if EndsFullSync(c, p) then Some(c.path.inFlight.value.sentUnix) else c.db.contactsSyncedAt)
    && (d.path.inFlight.Some? ==>
          d.path.inFlight.value.sentUnix == now.unix
          || (c.path.inFlight.Some? && d.path.inFlight.value.sentUnix == c.path.inFlight.value.sentUnix))
  }

  lemma AppliedSync(c: Core, done: InFlight, now: Clock)
    ensures var d := OnCommandAccepted(c, done, now);
            d.db.contacts == c.db.contacts && d.path.inFlight == c.path.inFlight
            && d.db.contactsSyncedAt
               == if done.payload == FULL_SYNC then Some(done.sentUnix) else c.db.contactsSyncedAt
  {
    hide Wire, TrimNuls, EchoFrame, StoreMessage;
    var c1 := if done.payload[0] == 0x01 && done.client.Some? then NotifyMissed(c, done.client.value) else c;
    var c2 := ApplyAccepted(c1, done);
    assert done.payload == FULL_SYNC <==> done.payload[0] == 0x04 && |done.payload| == 1;
    if done.client.Some? && IsWellFormedSend(done.payload) && c2.mem.pubkey.Some? {
      var echo := EchoFrame(c2, done.payload);
      StoreDrops(BroadcastToOthers(c2, done.client, echo, Echoed(done.Req())), U32(done.payload, 3), echo, done.origin,
                 now);
    }
  }

  lemma CompleteDrops(c: Core, f: InFlight, p: Command, now: Clock)
    ensures var d := Complete(c, f, p, now);
            (forall x :: x in d.db.contacts ==> x in c.db.contacts)
            && d.db.contactsSyncedAt
               == (if f.payload == FULL_SYNC && !IsError(p) then Some(f.sentUnix) else c.db.contactsSyncedAt)
            && (d.path.inFlight.Some? ==> d.path.inFlight.value.sentUnix == now.unix)
  {
    hide AdvanceQueue, OnCommandAccepted;
    var c1 := Settle(WithSlot(c, None), f.Req(), Answered(CurrentFrames(c)));
    AppliedSync(c1, f, now);
    AdvanceDrops(if IsError(p) then c1 else OnCommandAccepted(c1, f, now), now);
  }

  lemma ForwardDrops(c: Core, f: InFlight, p: Command, now: Clock)
    ensures var d := Forward(c, f, p, now); d.db == c.db && d.path.inFlight == c.path.inFlight
  {
    PassOnOnly(AppendRouted(c, p), f, p, now);
    StashAckOnly(AppendRouted(c, p), p, now);
    hide StashAck, Wire;
  }

  lemma RouteDrops(c: Core, p: Command, now: Clock)
    requires BelongsToInFlight(c, p)
    ensures DropsOrSyncs(c, RouteToInFlight(c, p, now), p, now)
  {
    hide Complete, Forward;
    var f := c.path.inFlight.value;
    ForwardDrops(c, f, p, now);
    if f.awaiting.Completes(p[0]) {
      CompleteDrops(Forward(c, f, p, now), f, p, now);
    }
  }

  /** After caching, a frame can only drop contacts. */
  lemma FrameDrops(c: Core, p: Command, now: Clock)
    ensures var c1 := CacheResponse(c, p, now);
            c1.path == c.path && c1.db.contactsSyncedAt == c.db.contactsSyncedAt
            && DropsOrSyncs(c1, HandleRadioRx(c, p, now), p, now)
  {
    CacheUnanswered(c, p, now);
    if !IsContactFrame(p) {
      CacheDrops(c, p, now);
    }
    var c1 := CacheResponse(c, p, now);
    assert c1.db.contactsSyncedAt == c.db.contactsSyncedAt;
    hide CacheResponse, RouteToInFlight, HandlePush;
    if BelongsToInFlight(c1, p) {
      RouteDrops(c1, p, now);
    } else if !MatchesAck(c1, p) && IsPush(p[0]) {
      PushDrops(c1, p, now);
    }
  }

  // ---------------------------------------------------------------------
  // The invariant
  // ---------------------------------------------------------------------

  ghost predicate SeenSince(rows: seq<Contact>, r: Report) {
    forall x :: x in rows && x.key == r.key ==> x.seenAt.Some? && r.at <= x.seenAt.value
  }

  /** What is cached under a reported key has been seen no earlier than any report. `t` is the latest clock. */
  ghost predicate RetentionInv(c: Core, log: seq<Report>, t: int) {
    && (c.path.inFlight.Some? ==> c.path.inFlight.value.sentUnix <= t)
    && (forall r :: r in log ==>
        r.at <= t && (r.during.Some? ==> r.during.value <= r.at) && SeenSince(c.db.contacts, r))
  }

  lemma DropsKeep(c: Core, d: Core, log: seq<Report>, t: int, now: Clock)
    requires RetentionInv(c, log, t) && t <= now.unix
    requires forall x :: x in d.db.contacts ==> x in c.db.contacts
    requires d.path.inFlight.Some? ==>
               d.path.inFlight.value.sentUnix == now.unix
               || (c.path.inFlight.Some? && d.path.inFlight.value.sentUnix == c.path.inFlight.value.sentUnix)
    ensures RetentionInv(d, log, now.unix)
  {
  }

  lemma ContactCached(c: Core, p: Command, now: Clock, log: seq<Report>, t: int)
    requires RetentionInv(c, log, t) && t <= now.unix && IsContactFrame(p)
    ensures RetentionInv(CacheResponse(c, p, now), log + Reported(c, Radio(p), now), now.unix)
  {
    var row := ContactFromFrame(p, now);
    var d, key := CacheResponse(c, p, now), row.key;
    WithoutDrops(c.db.contacts, key);
    hide WithoutContact;
    assert d.db.contacts == WithoutContact(c.db.contacts, key) + [row];
    var all := log + Reported(c, Radio(p), now);
    forall r | r in all
      ensures r.at <= now.unix && (r.during.Some? ==> r.during.value <= r.at) && SeenSince(d.db.contacts, r)
    {
      if r in log {
        assert SeenSince(c.db.contacts, r);
      } else {
        assert r == Reported(c, Radio(p), now)[0];
      }
    }
  }

  lemma FrameKeepsRetention(c: Core, p: Frame, now: Clock, log: seq<Report>, t: int)
    requires RetentionInv(c, log, t) && t <= now.unix
    ensures RetentionInv(HandleRadioRx(c, p, now), log + Reported(c, Radio(p), now), now.unix)
  {
    if p == [] {
      NothingArrives(c, now);
      assert log + [] == log;
    } else {
      FrameDrops(c, p, now);
      var c1 := CacheResponse(c, p, now);
      if IsContactFrame(p) {
        ContactCached(c, p, now, log, t);
      } else {
        CacheDrops(c, p, now);
        assert log + Reported(c, Radio(p), now) == log;
      }
      hide CacheResponse, HandleRadioRx, Reported, SeenSince;
      DropsKeep(c1, HandleRadioRx(c, p, now), log + Reported(c, Radio(p), now), now.unix, now);
    }
  }

  lemma StepKeepsRetention(c: Core, i: Input, now: Clock, log: seq<Report>, t: int)
    requires RetentionInv(c, log, t) && t <= now.unix
    ensures RetentionInv(Step(c, i, now), log + Reported(c, i, now), now.unix)
  {
    hide RetentionInv;
    if i.Radio? {
      RadioStep(c, i.frame, now);
      FrameKeepsRetention(c, i.frame, now, log, t);
    } else {
      OtherStepsDrop(c, i, now);
      hide Step;
      DropsKeep(c, Step(c, i, now), log, t, now);
      assert log + Reported(c, i, now) == log;
    }
  }

  lemma SyncMark(c: Core, i: Input, now: Clock)
    ensures Step(c, i, now).db.contactsSyncedAt
            == if i.Radio? && i.frame != [] && EndsFullSync(c, i.frame) then Some(c.path.inFlight.value.sentUnix)
               else c.db.contactsSyncedAt
  {
    if i.Radio? {
      RadioStep(c, i.frame, now);
      if i.frame == [] {
        NothingArrives(c, now);
      } else {
        FrameDrops(c, i.frame, now);
        hide CacheResponse, HandleRadioRx;
      }
    } else {
      OtherStepsDrop(c, i, now);
      hide Step;
    }
  }

  // ---------------------------------------------------------------------
  // Runs
  // ---------------------------------------------------------------------

  lemma {:induction false} RunKeepsRetention(c: Core, steps: seq<Timed>, from: int)
    requires RetentionInv(c, [], from) && Forwards(from, steps)
    ensures RetentionInv(Run(c, steps), Reports(c, steps), LastClock(from, steps))
    ensures Run(c, steps).db.contactsSyncedAt == LastSync(c, steps)
  {
    hide RetentionInv, Step, Reported, EndsFullSync;
    if steps != [] {
      var n := |steps| - 1;
      RunKeepsRetention(c, steps[..n], from);
      StepKeepsRetention(Run(c, steps[..n]), steps[n].input, steps[n].now, Reports(c, steps[..n]),
                         LastClock(from, steps[..n]));
      SyncMark(Run(c, steps[..n]), steps[n].input, steps[n].now);
    }
  }

  /** On a closed link nothing goes out, so nothing is invalidated. */
  lemma {:induction false} AdvanceClosed(c: Core, now: Clock)
    requires !CanSend(c)
    ensures AdvanceQueue(c, now).db == c.db
    decreases |c.path.queue|
  {
    if c.path.queue != [] {
      var q, c1 := c.path.queue[0], WithQueue(c, c.path.queue[1..]);
      AdvanceClosed(if ClientLeft(c1, q) then Settle(c1, q, Gone) else DispatchToRadio(c1, q, now), now);
    }
  }

  lemma RequestFullSyncKeepsContacts(c: Core, now: Clock)
    requires PathInv(c)
    ensures RequestFullSync(c, now).db == c.db
  {
    hide PathInv', FullSyncPending;
    var c1 := Enqueue(c, Request(None, FULL_SYNC));
    if c.path.inFlight.None? {
      if CanSend(c) {
        assert c1.path.queue == [Request(None, FULL_SYNC)];
        assert !ClientLeft(WithQueue(c1, []), Request(None, FULL_SYNC));
        hide AwaitingFor;
        assert c1.path.queue[1..] == [];
        assert AdvanceQueue(c1, now) == DispatchToRadio(WithQueue(c1, []), Request(None, FULL_SYNC), now);
      } else {
        hide AdvanceQueue;
        AdvanceClosed(c1, now);
      }
    }
  }

  lemma StartRetention(retention: Retention, backlog: Backlog, db: Tables, r: Reconnection, now: Clock)
    ensures RetentionInv(Start(retention, backlog, db, r, now), [], now.unix)
  {
    var f := Fresh(retention, backlog, db);
    ReconnectDrops(f, r, now);
    hide ReconnectRadio, RestoreBlobs;
    RestoreOnlyMemory(ReconnectRadio(f, r, now));
  }

  /** What maintenance does to a contact, exactly. */
  lemma MaintenanceExactly(c: Core, now: Clock, x: Contact)
    requires PathInv(c) && x in c.db.contacts
    ensures x in Step(c, MaintenanceTick, now).db.contacts <==> !ContactExpired(c.db, c.conf.retention, now.unix, x)
  {
    RequestFullSyncKeepsContacts(c, now);
    RequestFullSyncQuiet(c, now);
    hide RequestFullSync, PathInv, ContactExpired, Maintain;
    MaintainContactsExact(c.db, c.conf.retention, now.unix, x);
  }

  /** Over every run whose clock does not go backwards, and whenever maintenance comes: a
      cached contact survives it if the radio reported it during the last completed full sync, or at any time
      since that sync was dispatched; and with no completed sync on record nothing is deleted at all. What is
      deleted had been seen neither since then nor within the retention period. */
  lemma RetentionIsSafe(retention: Retention, backlog: Backlog, db: Tables, r: Reconnection, now: Clock,
                        steps: seq<Timed>, later: Clock, x: Contact)
    requires Forwards(now.unix, steps)
    requires x in Run(Start(retention, backlog, db, r, now), steps).db.contacts
    ensures var c0 := Start(retention, backlog, db, r, now);
            var sync := LastSync(c0, steps);
            && (sync.None? ==> x in Step(Run(c0, steps), MaintenanceTick, later).db.contacts)
            && (sync.Some?
                && (exists s :: s in Reports(c0, steps) && s.key == x.key && (s.at >= sync.value || s.during == sync))
                ==> x in Step(Run(c0, steps), MaintenanceTick, later).db.contacts)
            && (x !in Step(Run(c0, steps), MaintenanceTick, later).db.contacts ==>
                  sync.Some? && Run(c0, steps).conf.retention.contactsDays > 0
                  && SeenAt(x) < sync.value
                  && SeenAt(x) < Cutoff(later.unix, Run(c0, steps).conf.retention.contactsDays))
  {
    var c0 := Start(retention, backlog, db, r, now);
    var c := Run(c0, steps);
    StartRetention(retention, backlog, db, r, now);
    StartPath(retention, backlog, db, r, now);
    hide Start, Run, Step, PathInv, LastSync, Reports;
    RunKeepsRetention(c0, steps, now.unix);
    RunKeeps(c0, steps);
    MaintenanceExactly(c, later, x);
    hide RetentionInv;
    forall s | s in Reports(c0, steps) && s.key == x.key && LastSync(c0, steps).Some?
               && (s.at >= LastSync(c0, steps).value || s.during == LastSync(c0, steps))
      ensures SeenAt(x) >= LastSync(c0, steps).value
    {
      ReportedSince(c, Reports(c0, steps), LastClock(now.unix, steps), s, x);
    }
  }

  lemma ReportedSince(c: Core, log: seq<Report>, t: int, s: Report, x: Contact)
    requires RetentionInv(c, log, t) && s in log && x in c.db.contacts && x.key == s.key
    ensures SeenAt(x) >= s.at && (s.during.Some? ==> SeenAt(x) >= s.during.value)
  {
    assert SeenSince(c.db.contacts, s);
  }
}
