/** Runs in which a cached answer is wrong: the inputs at which the coherence of the caches ends. */
module Witnesses {
  import opened Bytes
  import opened Protocol
  import opened Store
  import opened CoreState
  import opened RadioPath
  import opened Outcomes
  import opened Links
  import opened Requests
  import opened Frames
  import opened Flow
  import opened Firmware
  import opened Environment
  import opened Coherence
  import opened Freshness

  // ---------------------------------------------------------------------
  // Runs, one action at a time
  // ---------------------------------------------------------------------

  lemma OpeningPossible(w: World)
    requires Opening(w)
    ensures Possible(w)
  {
    hide Opening, Act, Allowed;
    assert Unfolds([w], []);
    assert LeadsTo([w], [], w);
  }

  lemma UnfoldsMore(worlds: seq<World>, actions: seq<Action>, a: Action, v: World)
    requires Unfolds(worlds, actions) && Allowed(worlds[|actions|], a) && v == Act(worlds[|actions|], a)
    ensures Unfolds(worlds + [v], actions + [a])
  {
    hide Act, Allowed;
  }

  lemma PossibleNext(w: World, a: Action)
    requires Possible(w) && Allowed(w, a)
    ensures Possible(Act(w, a))
  {
    var v := Act(w, a);
    hide Opening, Unfolds, Act, Allowed;
    var worlds: seq<World>, actions: seq<Action> :| LeadsTo(worlds, actions, w);
    LengthOf(worlds, actions);
    hide Possible;
    LeadsOn(worlds, actions, w, a, v);
  }

  lemma LeadsOn(worlds: seq<World>, actions: seq<Action>, w: World, a: Action, v: World)
    requires LeadsTo(worlds, actions, w) && |worlds| == |actions| + 1 && Allowed(w, a) && v == Act(w, a)
    ensures Possible(v)
  {
    UnfoldsMore(worlds, actions, a, v);
    hide Opening, Act, Allowed, Unfolds;
    assert LeadsTo(worlds + [v], actions + [a], v);
  }

  lemma LengthOf(worlds: seq<World>, actions: seq<Action>)
    requires Unfolds(worlds, actions)
    ensures |worlds| == |actions| + 1
  {
    hide Act, Allowed;
  }

  lemma StartClients(retention: Retention, backlog: Backlog, db: Tables, r: Reconnection, now: Clock)
    ensures Start(retention, backlog, db, r, now).nextClient == 1
  {
    var f := Fresh(retention, backlog, db);
    ReconnectQuiet(f, r, now);
    hide ReconnectRadio, RestoreBlobs;
    RestoreOnlyMemory(ReconnectRadio(f, r, now));
  }

  /** A first client has connected. */
  function Joined(retention: Retention, backlog: Backlog, db: Tables, r: Reconnection, tables: map<Item, Frame>,
                  now: Clock): World {
    Act(Begin(retention, backlog, db, r, tables, now), Own(Connect, now))
  }

  lemma JoinedPossible(retention: Retention, backlog: Backlog, db: Tables, r: Reconnection, tables: map<Item, Frame>,
                       now: Clock)
    requires Truthful(r, tables) && UniqueKeys(db.contacts)
    ensures var w := Joined(retention, backlog, db, r, tables, now);
            Possible(w) && 1 in w.core.live && w.tables == tables
            && forall x :: View(w.core, x) == View(Start(retention, backlog, db, r, now), x)
  {
    hide Start, Opening, Possible, ReconnectRadio, CachedOtherwise, NotAskedFor, UniqueKeys, Truthful, View;
    var b := Begin(retention, backlog, db, r, tables, now);
    BeginOpens(retention, backlog, db, r, tables, now);
    StartClients(retention, backlog, db, r, now);
    OpeningPossible(b);
    PossibleNext(b, Own(Connect, now));
    forall x: Item
      ensures View(Step(b.core, Connect, now), x) == View(b.core, x)
    {
      SameViews(b.core, Step(b.core, Connect, now), x);
    }
  }

  // ---------------------------------------------------------------------
  // Served from before the link
  // ---------------------------------------------------------------------

  lemma StartChannels(retention: Retention, backlog: Backlog, db: Tables, r: Reconnection, now: Clock)
    ensures var c := Start(retention, backlog, db, r, now);
            c.db.channels == db.channels
            && (r.deviceInfo.None? && DeviceInfo in db.blobs ==> c.mem.deviceInfo == Some(db.blobs[DeviceInfo]))
  {
    var f := Fresh(retention, backlog, db);
    var c := ReconnectRadio(f, r, now);
    DeviceInfoKept(f, r, now);
    HandshakeRemembers(f, r, now);
    hide ReconnectRadio, ExtractMaxChannels;
    RestoreOnlyMemory(c);
  }

  /** A client that asks for a channel right after a startup is handed the one in the database, whatever the radio
      holds by now. */
  lemma StaleChannelServed(retention: Retention, backlog: Backlog, db: Tables, r: Reconnection,
                           tables: map<Item, Frame>,
                           now: Clock, idx: byte, port: nat)
    requires Truthful(r, tables) && UniqueKeys(db.contacts)
    requires idx as int in db.channels && OfChannel(idx) in tables
             && tables[OfChannel(idx)] != ChannelFrame(db.channels[idx as int])
    ensures var w, was := Joined(retention, backlog, db, r, tables, now), ChannelFrame(db.channels[idx as int]);
            var served := TryServeFromCache(w.core, ClientCommand(1, port, [0x1F, idx]));
            Possible(w) && served.Some?
            && served.value.out == w.core.out + [ToClient(1, was, Wire(w.core, 1, was), Cached)]
            && was != w.tables[OfChannel(idx)]
  {
    var w := Joined(retention, backlog, db, r, tables, now);
    JoinedPossible(retention, backlog, db, r, tables, now);
    StartChannels(retention, backlog, db, r, now);
    hide Start, Possible, ReconnectRadio, Joined, TryServeFromCache, Wire, ChannelFrame, Truthful, UniqueKeys,
      ContactFrame, FindContact;
    assert View(w.core, OfChannel(idx)) == Some(ChannelFrame(db.channels[idx as int]));
    ViewIsServed(w.core, ClientCommand(1, port, [0x1F, idx]), OfChannel(idx));
  }

  /** A client that asks for DEVICE_INFO after a handshake that brought none is handed the one of the last session,
      whatever the radio is now. */
  lemma StaleDeviceInfoServed(retention: Retention, backlog: Backlog, db: Tables, r: Reconnection,
                              tables: map<Item, Frame>,
                              now: Clock, port: nat)
    requires Truthful(r, tables) && UniqueKeys(db.contacts) && r.deviceInfo.None?
    requires DeviceInfo in db.blobs && OfDevice in tables && tables[OfDevice] != db.blobs[DeviceInfo]
    ensures var w, was := Joined(retention, backlog, db, r, tables, now), db.blobs[DeviceInfo];
            var served := TryServeFromCache(w.core, ClientCommand(1, port, [0x16]));
            Possible(w) && served.Some?
            && served.value.out == w.core.out + [ToClient(1, was, Wire(w.core, 1, was), Cached)]
            && was != w.tables[OfDevice]
  {
    var w := Joined(retention, backlog, db, r, tables, now);
    JoinedPossible(retention, backlog, db, r, tables, now);
    StartChannels(retention, backlog, db, r, now);
    hide Start, Possible, ReconnectRadio, Joined, TryServeFromCache, Wire;
    assert View(w.core, OfDevice) == Some(db.blobs[DeviceInfo]);
    ViewIsServed(w.core, ClientCommand(1, port, [0x16]), OfDevice);
  }

  // ---------------------------------------------------------------------
  // A refused re-reading
  // ---------------------------------------------------------------------

  /** Nothing that could still correct the contact is on the wire, queued, in flight or expected. */
  ghost predicate NothingPending(w: World, key: Frame) {
    var x := OfContact(key);
    LastAbout(w.wire, x).None? && !Announced(w, x) && !Queued(w.core, x) && !Asked(w, x) && !Changed(w, x)
        && CanSend(w.core)
  }

  /** A refusal the radio may give to any command it is asked. */
  lemma RefusalAllowed(w: World)
    requires w.handled < |w.core.path.link.sent|
    ensures Allowed(w, Handle([ERROR_FRAME], w.tables))
  {
    hide Listed, Ends;
  }

  /** What a refusal does: the slot is freed and the next own request goes out; nothing cached changes but what
      that request withdraws. */
  lemma RefusalRead(c: Core, now: Clock)
    requires SlotIsLastSent(c) && c.path.inFlight.Some? && CanSend(c)
    requires c.path.queue != [] ==> c.path.queue[0].client.None? && c.path.queue[0].payload[0] == 0x1F
    ensures var d := HandleRadioRx(c, ERROR_FRAME, now);
            d.db == c.db && CanSend(d)
            && (if c.path.queue == [] then
                  d.path.inFlight.None? && d.path.queue == [] && d.path.link.sent == c.path.link.sent
                else
                  d.path.inFlight.Some? && d.path.inFlight.value.Req() == c.path.queue[0]
                      && d.path.queue == c.path.queue[1..]
                  && d.path.link.sent == c.path.link.sent + [c.path.queue[0]])
  {
    var f := c.path.inFlight.value;
    RefusalCompletes(f);
    RouteIs(c, ERROR_FRAME, now);
    RefusalPlain(c, now);
    ForwardFlow(c, ERROR_FRAME, now);
    ForwardOnly(c, ERROR_FRAME, now);
    ForwardDb(c, f, now);
    var c1 := Forward(c, f, ERROR_FRAME, now);
    hide HandleRadioRx, CacheResponse, Forward, AwaitingFor, SlotIsLastSent, CurrentFrames;
    assert HandleRadioRx(c, ERROR_FRAME, now) == Complete(c1, f, ERROR_FRAME, now);
    CompleteRefused(c1, f, now);
  }

  lemma RefusalCompletes(f: InFlight)
    requires f.awaiting == AwaitingFor(f.payload)
    ensures f.awaiting.Belongs(0x01) && f.awaiting.Completes(0x01)
  {
  }

  lemma RefusalPlain(c: Core, now: Clock)
    ensures CacheResponse(c, ERROR_FRAME, now) == c
  {
    hide StoreMessage;
  }

  lemma ForwardDb(c: Core, f: InFlight, now: Clock)
    ensures Forward(c, f, ERROR_FRAME, now).db == c.db && Forward(c, f, ERROR_FRAME, now).live == c.live
  {
    PassOnOnly(AppendRouted(c, ERROR_FRAME), f, ERROR_FRAME, now);
    hide PassOn, Wire;
  }

  lemma CompleteRefused(c: Core, f: InFlight, now: Clock)
    requires CanSend(c) && (c.path.queue != [] ==> c.path.queue[0].client.None? && c.path.queue[0].payload[0] == 0x1F)
    ensures var d := Complete(c, f, ERROR_FRAME, now);
            d.db == c.db && CanSend(d)
            && (if c.path.queue == [] then
                  d.path.inFlight.None? && d.path.queue == [] && d.path.link.sent == c.path.link.sent
                else
                  d.path.inFlight.Some? && d.path.inFlight.value.Req() == c.path.queue[0]
                      && d.path.queue == c.path.queue[1..]
                  && d.path.link.sent == c.path.link.sent + [c.path.queue[0]])
  {
    hide AwaitingFor, IdentityOf, CurrentFrames, OnCommandAccepted;
    var c1 := Settle(WithSlot(c, None), f.Req(), Answered(CurrentFrames(c)));
    if c.path.queue != [] {
      FirstGoes(c1, now);
    }
  }

  /** A request of the multiplexer's own at the head of the queue goes out at once over an open link. */
  lemma FirstGoes(c: Core, now: Clock)
    requires c.path.inFlight.None? && CanSend(c) && c.path.queue != []
    requires c.path.queue[0].client.None? && c.path.queue[0].payload[0] in {0x1E, 0x1F}
    ensures var d := AdvanceQueue(c, now);
            d.db == c.db && d.mem == c.mem && CanSend(d) && d.path.inFlight.Some?
                && d.path.inFlight.value.Req() == c.path.queue[0]
            && d.path.queue == c.path.queue[1..] && d.path.link.sent == c.path.link.sent + [c.path.queue[0]]
            && d.path.inFlight.value.awaiting == AwaitingFor(c.path.queue[0].payload)
  {
    hide AwaitingFor, IdentityOf;
    var q, c1 := c.path.queue[0], WithQueue(c, c.path.queue[1..]);
    assert !ClientLeft(c1, q);
    assert Invalidate(HandOver(c1, q), q.payload) == HandOver(c1, q);
    assert AdvanceQueue(c, now) == DispatchToRadio(c1, q, now);
  }

  lemma SecondIsChannel(channels: nat)
    requires 0 < channels <= 256
    ensures |SyncCommands(channels)| >= 2 && SyncCommands(channels)[1] == Request(None, [0x1F, 0])
  {
    if channels > 1 {
      SecondIsChannel(channels - 1);
    } else {
      assert SyncCommands(0) == [Request(None, FULL_SYNC)];
    }
  }

  /** The world after a refusal has been given and read. */
  function Rebuffed(w: World, now: Clock): World
    requires w.handled < |w.core.path.link.sent|
  {
    var v := Act(w, Handle([ERROR_FRAME], w.tables));
    assert |v.wire| == |w.wire| + 1;
    Act(v, Deliver(now))
  }

  lemma RebuffedIs(w: World, now: Clock)
    requires w.handled < |w.core.path.link.sent| && w.wire == [] && WorldInv(w)
    ensures var v := Rebuffed(w, now);
            v.core == HandleRadioRx(w.core, ERROR_FRAME, now) && v.wire == [] && v.handled == w.handled + 1
            && v.tables == w.tables
  {
    RadioStep(w.core, ERROR_FRAME, now);
    hide HandleRadioRx, Step, Touched, Neglected, CachedOtherwise, Removed;
    assert Mentioned([ERROR_FRAME]) == {} by { NothingMentioned(); }
    assert AsReply([ERROR_FRAME]) == [InTransit(ERROR_FRAME, true)];
    assert [] + [InTransit(ERROR_FRAME, true)] == [InTransit(ERROR_FRAME, true)];
    hide Mentioned, WorldInv;
  }

  lemma NothingMentioned()
    ensures Mentioned([ERROR_FRAME]) == {}
  {
  }

  /** The radio has refused; the refusal is on the wire. */
  lemma RefusalGiven(w: World)
    requires Possible(w) && w.handled < |w.core.path.link.sent| && w.wire == []
    ensures var v := Act(w, Handle([ERROR_FRAME], w.tables));
            Possible(v) && v.core == w.core && v.wire == [InTransit(ERROR_FRAME, true)]
  {
    hide Possible, Answers, Touched, Neglected, Removed, CachedOtherwise, Mentioned;
    RefusalAllowed(w);
    PossibleNext(w, Handle([ERROR_FRAME], w.tables));
    assert AsReply([ERROR_FRAME]) == [InTransit(ERROR_FRAME, true)];
    assert [] + [InTransit(ERROR_FRAME, true)] == [InTransit(ERROR_FRAME, true)];
  }

  lemma RebuffedPossible(w: World, now: Clock)
    requires Possible(w) && w.handled < |w.core.path.link.sent| && w.wire == []
    ensures Possible(Rebuffed(w, now))
  {
    hide Possible, Act, BelongsToInFlight, Answers;
    RefusalGiven(w);
    PossibleNext(Act(w, Handle([ERROR_FRAME], w.tables)), Deliver(now));
  }

  /** A synchronisation that the radio refuses: from any startup over an open link, two steps on, a contact of the old
      database that the radio holds otherwise is as it was, with nothing under way that could correct it. */
  lemma RefusedFromStart(retention: Retention, backlog: Backlog, db: Tables, r: Reconnection, tables: map<Item, Frame>,
                         now: Clock, row: Contact)
    requires Truthful(r, tables) && UniqueKeys(db.contacts) && r.open && row in db.contacts
    requires OfContact(row.key) in tables && tables[OfContact(row.key)] != ContactFrame(row)
    ensures var w := Begin(retention, backlog, db, r, tables, now);
            w.handled < |w.core.path.link.sent|
            && var v := Rebuffed(w, now);
               Possible(v) && View(v.core, OfContact(row.key)) == Some(ContactFrame(row))
               && ContactFrame(row) != v.tables[OfContact(row.key)]
               && NothingPending(v, row.key)
  {
    hide Begin, Opening, Possible, Rebuffed, Truthful, HandleRadioRx, SlotIsLastSent, PathInv, Shaped, InStep, Faithful,
      ContactFrame, FindContact, NothingPending;
    var w := Begin(retention, backlog, db, r, tables, now);
    BeginSyncs(retention, backlog, db, r, tables, now);
    BeginOpens(retention, backlog, db, r, tables, now);
    OpeningPossible(w);
    OpeningInv(w);
    SlotInv(w.core);
    RebuffedPossible(w, now);
    RebuffedIs(w, now);
    RefusalRead(w.core, now);
    FindContactExact(db.contacts, row.key);
    OnlyChannelsLeft(w, Rebuffed(w, now), row.key);
  }

  lemma BeginOpens(retention: Retention, backlog: Backlog, db: Tables, r: Reconnection, tables: map<Item, Frame>,
                   now: Clock)
    requires Truthful(r, tables) && UniqueKeys(db.contacts)
    ensures Opening(Begin(retention, backlog, db, r, tables, now))
  {
    hide Begin, Truthful, UniqueKeys;
  }

  /** What a startup over an open link begins with. */
  lemma BeginSyncs(retention: Retention, backlog: Backlog, db: Tables, r: Reconnection, tables: map<Item, Frame>,
                   now: Clock)
    requires r.open
    ensures var w := Begin(retention, backlog, db, r, tables, now);
            w.wire == [] && w.handled == 0 && w.tables == tables && w.core.db.contacts == db.contacts && CanSend(w.core)
            && w.core.path.inFlight.Some? && w.core.path.inFlight.value.payload == FULL_SYNC
            && w.core.path.link.sent == [w.core.path.inFlight.value.Req()]
            && (forall q :: q in w.core.path.queue ==> q.client.None? && q.payload[0] == 0x1F)
  {
    var f := Fresh(retention, backlog, db);
    var c := ReconnectRadio(f, r, now);
    ReconnectStarts(f, r, now);
    ReconnectCached(f, r, now);
    ReconnectKeeps(f, r, now) by { FreshPath(retention, backlog, db); }
    SlotInv(c);
    hide LoseRadio, FailedAttempts, InitializeRadio, SyncFromRadio, RestoreBlobs, NotAskedFor, CachedOtherwise,
      SyncCommands, PathInv, SlotIsLastSent, AwaitingFor;
    var c2 := FailedAttempts(LoseRadio(f).(live := f.live - r.left), r.attempts, now);
    var c3 := InitializeRadio(WithLink(c2, Link(true, r.open, [], [])), r, now);
    SyncStarts(c3, now);
    ChannelsOnly(c3.mem.maxChannels);
    RestoreOnlyMemory(c);
    LastOnly(c);
  }

  lemma LastOnly(c: Core)
    requires NewLink(c) && SlotIsLastSent(c) && c.path.inFlight.Some?
    ensures c.path.link.sent == [c.path.inFlight.value.Req()]
  {
  }

  lemma {:induction false} ChannelsOnly(channels: nat)
    requires channels <= 256
    ensures SyncCommands(channels) != []
            && forall q :: q in SyncCommands(channels)[1..] ==> q.client.None? && q.payload[0] == 0x1F
  {
    if channels > 0 {
      ChannelsOnly(channels - 1);
      var before := SyncCommands(channels - 1);
      assert SyncCommands(channels)[1..] == before[1..] + [Request(None, [0x1F, channels - 1])];
    }
  }

  /** With only channels left to ask for, nothing is under way for a contact. */
  lemma OnlyChannelsLeft(w: World, v: World, key: Frame)
    requires w.core.path.inFlight.Some? && w.core.path.inFlight.value.payload == FULL_SYNC && w.wire == []
             && w.handled == 0
    requires w.core.path.link.sent == [w.core.path.inFlight.value.Req()]
    requires forall q :: q in w.core.path.queue ==> q.client.None? && q.payload[0] == 0x1F
    requires v.wire == [] && v.handled == 1 && CanSend(v.core)
    requires if w.core.path.queue == [] then v.core.path.inFlight.None? && v.core.path.queue == []
             else v.core.path.inFlight.Some? && v.core.path.inFlight.value.Req() == w.core.path.queue[0]
                  && v.core.path.queue == w.core.path.queue[1..]
    ensures NothingPending(v, key)
  {
    assert forall q :: q in v.core.path.queue ==> q in w.core.path.queue;
    if v.core.path.inFlight.Some? {
      assert w.core.path.queue[0] in w.core.path.queue;
    }
    assert FollowUp([0x1F]).None?;
  }

  // ---------------------------------------------------------------------
  // A refused refresh
  // ---------------------------------------------------------------------

  /** Nothing is under way and the link is up. */
  ghost predicate Idle(w: World) {
    w.core.path.inFlight.None? && w.core.path.queue == [] && w.wire == [] && CanSend(w.core)
  }

  function AdvertOf(key: Frame): (p: Command)
    ensures |p| == |key| + 1
  {
    [0x80] + key
  }

  /** The announcement of a change, taken in by an idle multiplexer, sends the refresh out. */
  lemma AdvertTaken(c: Core, key: Frame, now: Clock)
    requires c.path.inFlight.None? && c.path.queue == [] && CanSend(c) && |key| == 32
    ensures var d := HandleRadioRx(c, AdvertOf(key), now);
            d.db == c.db && CanSend(d) && d.path.inFlight.Some?
                && d.path.inFlight.value.Req() == Request(None, RefreshCommand(key))
            && d.path.queue == [] && d.path.link.sent == c.path.link.sent + [Request(None, RefreshCommand(key))]
  {
    var p := AdvertOf(key);
    assert p[1..33] == key;
    PushPlain(c, p, now);
    hide CacheResponse, AdvanceQueue;
    FirstGoes(RefreshContact(c, key), now);
  }

  /** Announced, asked for, refused, idle and stale: however an idle multiplexer in front of its radio came to hold
      a contact, a change that the radio announces and then refuses to tell leaves it as it was, with nothing under
      way that could correct it. */
  lemma RefusedWhenIdle(w: World, key: Frame, was: Frame, value: Frame, now: Clock)
    requires Possible(w) && Idle(w) && |key| == 32 && View(w.core, OfContact(key)) == Some(was) && was != value
    ensures var w1 := Informed(w, key, value, now);
            w1.handled < |w1.core.path.link.sent|
            && var w2 := Rebuffed(w1, now);
               Possible(w2) && Idle(w2) && View(w2.core, OfContact(key)) == Some(was)
               && OfContact(key) in w2.tables && w2.tables[OfContact(key)] == value
               && NothingPending(w2, key)
  {
    PossibleInv(w);
    InformedPossible(w, key, value, now);
    InformedIs(w, key, value, now);
    hide Possible, Rebuffed, View, Informed, HandleRadioRx, SlotIsLastSent, PathInv, Shaped, InStep, Faithful;
    var w1 := Informed(w, key, value, now);
    PossibleInv(w1);
    SlotInv(w1.core);
    RebuffedPossible(w1, now);
    RebuffedIs(w1, now);
    RefusalRead(w1.core, now);
    SameContacts(w.core, Rebuffed(w1, now).core, key);
    NothingLeft(Rebuffed(w1, now), key);
  }

  /** The world after a change was announced and the announcement read. */
  function Informed(w: World, key: Frame, value: Frame, now: Clock): World
    requires w.wire == [] && |key| == 32
  {
    var v := Act(w, Announce(AdvertOf(key), value));
    assert |v.wire| == 1;
    Act(v, Deliver(now))
  }

  lemma InformedPossible(w: World, key: Frame, value: Frame, now: Clock)
    requires Possible(w) && Idle(w) && |key| == 32
    ensures Possible(Informed(w, key, value, now))
  {
    AnnounceIs(w, key, value);
    hide Possible, Step, Mentioned, AdvertOf, CanSend;
    var v := Act(w, Announce(AdvertOf(key), value));
    PossibleNext(w, Announce(AdvertOf(key), value));
    DeliverAllowed(v, now);
    PossibleNext(v, Deliver(now));
  }

  lemma InformedIs(w: World, key: Frame, value: Frame, now: Clock)
    requires WorldInv(w) && Idle(w) && |key| == 32
    ensures var v := Informed(w, key, value, now);
            v.wire == [] && v.core.db == w.core.db && CanSend(v.core) && v.core.path.queue == []
            && v.core.path.inFlight.Some? && v.core.path.inFlight.value.Req() == Request(None, RefreshCommand(key))
            && v.handled + 1 == |v.core.path.link.sent|
            && v.core.path.link.sent[v.handled].payload == RefreshCommand(key)
            && OfContact(key) in v.tables && v.tables[OfContact(key)] == value
  {
    IdleHandled(w);
    AnnounceIs(w, key, value);
    hide Step, WorldInv, HandleRadioRx, Mentioned;
    RadioStep(w.core, AdvertOf(key), now);
    AdvertTaken(w.core, key, now);
    hide AdvertOf;
  }

  lemma AnnounceIs(w: World, key: Frame, value: Frame)
    requires w.wire == [] && |key| == 32
    ensures var p := AdvertOf(key);
            Allowed(w, Announce(p, value))
            && Act(w, Announce(p, value))
            == w.(tables := w.tables[OfContact(key) := value], wire := [InTransit(p, false)],
                                                gone := w.gone - {OfContact(key)})
  {
    var p := AdvertOf(key);
    assert p[1..33] == key;
    assert w.wire + [InTransit(p, false)] == [InTransit(p, false)];
  }

  lemma DeliverAllowed(w: World, now: Clock)
    requires w.wire != [] && w.core.path.inFlight.None?
    ensures Allowed(w, Deliver(now))
  {
  }

  lemma IdleHandled(w: World)
    requires WorldInv(w) && Idle(w)
    ensures w.handled == |w.core.path.link.sent|
  {
    hide PathInv, Shaped, Faithful, ReplyPart;
  }

  lemma SameContacts(c: Core, d: Core, key: Frame)
    requires d.db == c.db
    ensures View(d, OfContact(key)) == View(c, OfContact(key))
  {
  }

  lemma NothingLeft(w: World, key: Frame)
    requires Idle(w)
    ensures NothingPending(w, key)
  {
  }
}
