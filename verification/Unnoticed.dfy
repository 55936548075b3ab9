/** Commands that change what the radio holds and leave the cache alone: what they do to a client that asks. */
module Unnoticed {
  import opened Bytes
  import opened Protocol
  import opened Store
  import opened CoreState
  import opened RadioPath
  import opened Outcomes
  import opened Links
  import opened Requests
  import opened Frames
  import opened Flow
  import opened Firmware
  import opened Environment
  import opened Coherence
  import opened Freshness
  import opened Witnesses

  // ---------------------------------------------------------------------
  // Idle from a startup
  // ---------------------------------------------------------------------

  /** A question of the multiplexer's own in flight, nothing answered, and only channel questions behind it. */
  ghost predicate Draining(w: World) {
    && w.core.path.inFlight.Some? && w.wire == [] && w.handled + 1 == |w.core.path.link.sent| && CanSend(w.core)
    && forall q :: q in w.core.path.queue ==> q.client.None? && q.payload[0] == 0x1F
  }

  /** As far as a client can tell nothing has changed, on either side. */
  ghost predicate SameSight(w: World, v: World) {
    v.tables == w.tables && v.core.live == w.core.live && forall x: Item :: View(v.core, x) == View(w.core, x)
  }

  /** What a refusal leaves alone. */
  lemma RefusalKeeps(c: Core, now: Clock)
    requires SlotIsLastSent(c) && c.path.inFlight.Some? && CanSend(c)
    requires c.path.queue != [] ==> c.path.queue[0].client.None? && c.path.queue[0].payload[0] == 0x1F
    ensures HandleRadioRx(c, ERROR_FRAME, now).mem == c.mem && HandleRadioRx(c, ERROR_FRAME, now).live == c.live
  {
    var f := c.path.inFlight.value;
    RefusalCompletes(f);
    RouteIs(c, ERROR_FRAME, now);
    RefusalPlain(c, now);
    ForwardFlow(c, ERROR_FRAME, now);
    ForwardMemory(c, f, ERROR_FRAME, now);
    ForwardDb(c, f, now);
    var c1 := Forward(c, f, ERROR_FRAME, now);
    hide HandleRadioRx, CacheResponse, Forward, AwaitingFor, SlotIsLastSent, CurrentFrames;
    assert HandleRadioRx(c, ERROR_FRAME, now) == Complete(c1, f, ERROR_FRAME, now);
    CompleteRefusedKeeps(c1, f, now);
  }

  lemma CompleteRefusedKeeps(c: Core, f: InFlight, now: Clock)
    requires CanSend(c) && (c.path.queue != [] ==> c.path.queue[0].client.None? && c.path.queue[0].payload[0] == 0x1F)
    ensures var d := Complete(c, f, ERROR_FRAME, now); d.mem == c.mem && d.live == c.live
  {
    hide AwaitingFor, IdentityOf, CurrentFrames, OnCommandAccepted;
    var c1 := Settle(WithSlot(c, None), f.Req(), Answered(CurrentFrames(c)));
    AdvanceQuiet(c1, now);
    if c.path.queue != [] {
      hide AdvanceQueue;
      FirstGoes(c1, now);
    }
  }

  lemma SameData(c: Core, d: Core, x: Item)
    requires d.db == c.db && d.mem == c.mem
    ensures View(d, x) == View(c, x)
  {
  }

  /** One refusal further. */
  lemma RefusedOnce(w: World, now: Clock)
    requires Possible(w) && Draining(w)
    ensures var v := Rebuffed(w, now);
            Possible(v) && SameSight(w, v)
            && (if w.core.path.queue == [] then Idle(v) else Draining(v) && v.core.path.queue == w.core.path.queue[1..])
  {
    PossibleInv(w);
    hide Possible, Rebuffed, View, HandleRadioRx, SlotIsLastSent, PathInv, Shaped, InStep, Faithful;
    SlotInv(w.core);
    RebuffedPossible(w, now);
    RebuffedIs(w, now);
    if w.core.path.queue != [] {
      assert w.core.path.queue[0] in w.core.path.queue;
    }
    RefusalRead(w.core, now);
    RefusalKeeps(w.core, now);
    var d := HandleRadioRx(w.core, ERROR_FRAME, now);
    forall x: Item
      ensures View(d, x) == View(w.core, x)
    {
      SameData(w.core, d, x);
    }
  }

  /** A radio that refuses whatever it is asked leaves the multiplexer idle in the end. */
  lemma {:induction false} RefusedToIdle(w: World, now: Clock) returns (v: World)
    requires Possible(w) && Draining(w)
    ensures Possible(v) && Idle(v) && SameSight(w, v)
    decreases |w.core.path.queue|
  {
    hide Possible, Idle, Draining, View;
    RefusedOnce(w, now);
    DrainingAsks(w);
    v := Rebuffed(w, now);
    hide Rebuffed;
    if w.core.path.queue != [] {
      v := RefusedToIdle(v, now);
    }
  }

  lemma DrainingAsks(w: World)
    requires Draining(w)
    ensures w.handled < |w.core.path.link.sent|
  {
  }

  lemma JoinedDrains(retention: Retention, backlog: Backlog, db: Tables, r: Reconnection, tables: map<Item, Frame>,
                     now: Clock)
    requires r.open && Truthful(r, tables) && UniqueKeys(db.contacts)
    ensures Draining(Joined(retention, backlog, db, r, tables, now))
  {
    BeginSyncs(retention, backlog, db, r, tables, now);
    hide Begin, Truthful, UniqueKeys;
  }

  // ---------------------------------------------------------------------
  // A command the cache takes no notice of
  // ---------------------------------------------------------------------

  /** IMPORT_PRIVATE_KEY and SET_PATH_HASH_MODE. */
  predicate Unnoticeable(p: Command) {
    p[0] in {0x18, 0x3D}
  }

  const OK_FRAME: Command := [0x00]

  lemma CommandGoes(c: Core, k: ClientId, port: nat, p: Command, now: Clock)
    requires c.path.inFlight.None? && c.path.queue == [] && CanSend(c) && k in c.live && Unnoticeable(p)
    ensures var d := Step(c, Command(ClientCommand(k, port, p)), now);
            d.db == c.db && d.mem == c.mem && d.live == c.live && CanSend(d) && d.path.queue == []
            && d.path.inFlight.Some? && d.path.inFlight.value.Req() == Request(Some(k), p)
            && d.path.link.sent == c.path.link.sent + [Request(Some(k), p)]
  {
    hide AwaitingFor, IdentityOf, RespondContacts, ChannelFrame, ReplayNextMissed;
    var cmd := ClientCommand(k, port, p);
    CommandStep(c, cmd, now);
    assert NoteCommand(c, cmd, now) == c;
    assert TryServeFromCache(c, cmd).None?;
    assert HandleClientCommand(c, cmd, now)
           == DispatchToRadio(Arrive(c, [Request(Some(k), p)]), Request(Some(k), p), now);
  }

  lemma AcceptedPlain(c: Core, f: InFlight, now: Clock)
    requires Unnoticeable(f.payload)
    ensures OnCommandAccepted(c, f, now) == c
  {
    hide EchoFrame, StoreMessage;
  }

  lemma CompleteAccepted(c: Core, f: InFlight, now: Clock)
    requires Unnoticeable(f.payload) && c.path.queue == []
    ensures var d := Complete(c, f, OK_FRAME, now);
            d.db == c.db && d.mem == c.mem && d.live == c.live && d.path.inFlight.None? && d.path.queue == []
            && d.path.link == c.path.link
  {
    hide CurrentFrames, OnCommandAccepted;
    AcceptedPlain(Settle(WithSlot(c, None), f.Req(), Answered(CurrentFrames(c))), f, now);
  }

  lemma ForwardSame(c: Core, f: InFlight, now: Clock)
    requires Unnoticeable(f.payload)
    ensures var d := Forward(c, f, OK_FRAME, now); d.db == c.db && d.live == c.live
  {
    PassOnOnly(AppendRouted(c, OK_FRAME), f, OK_FRAME, now);
    hide PassOn, Wire;
  }

  lemma OkPlain(c: Core, now: Clock)
    ensures CacheResponse(c, OK_FRAME, now) == c
  {
    hide StoreMessage;
  }

  /** Its acceptance changes nothing that is cached. */
  lemma OkRead(c: Core, now: Clock)
    requires SlotIsLastSent(c) && c.path.inFlight.Some? && Unnoticeable(c.path.inFlight.value.payload)
    requires c.path.queue == [] && CanSend(c)
    ensures var d := HandleRadioRx(c, OK_FRAME, now);
            d.db == c.db && d.mem == c.mem && d.live == c.live && d.path.inFlight.None? && d.path.queue == []
                && CanSend(d)
  {
    var f := c.path.inFlight.value;
    assert f.awaiting.Belongs(0x00) && f.awaiting.Completes(0x00);
    RouteIs(c, OK_FRAME, now);
    OkPlain(c, now);
    ForwardFlow(c, OK_FRAME, now);
    ForwardMemory(c, f, OK_FRAME, now);
    ForwardSame(c, f, now);
    var c1 := Forward(c, f, OK_FRAME, now);
    hide HandleRadioRx, CacheResponse, Forward, AwaitingFor, SlotIsLastSent, CurrentFrames, Complete;
    assert HandleRadioRx(c, OK_FRAME, now) == Complete(c1, f, OK_FRAME, now);
    CompleteAccepted(c1, f, now);
  }

  lemma OkAnswers(p: Command, before: map<Item, Frame>, after: map<Item, Frame>)
    requires Unnoticeable(p)
    ensures Answers(p, before, [OK_FRAME], after)
  {
    assert Ends(p, 0x00);
  }

  /** A client's command has gone out; the radio has yet to answer. */
  lemma SentIs(w: World, k: ClientId, port: nat, p: Command, now: Clock)
    requires Possible(w) && Idle(w) && k in w.core.live && Unnoticeable(p)
    ensures var v := Act(w, Own(Command(ClientCommand(k, port, p)), now));
            Possible(v) && v.core == Step(w.core, Command(ClientCommand(k, port, p)), now) && v.tables == w.tables
            && v.wire == [] && v.handled + 1 == |v.core.path.link.sent| && v.core.path.link.sent[v.handled].payload == p
  {
    hide Possible, WorldInv, Step, Unnoticeable;
    PossibleInv(w);
    IdleHandled(w);
    CommandGoes(w.core, k, port, p, now);
    hide CanSend;
    PossibleNext(w, Own(Command(ClientCommand(k, port, p)), now));
  }

  /** The radio has accepted it, and whatever it holds otherwise now, says no more than OK. */
  lemma AcceptedIs(w: World, after: map<Item, Frame>)
    requires Possible(w) && w.wire == [] && w.handled < |w.core.path.link.sent|
    requires Unnoticeable(w.core.path.link.sent[w.handled].payload)
    ensures var v := Act(w, Handle([OK_FRAME], after));
            Possible(v) && v.core == w.core && v.tables == after && v.wire == [InTransit(OK_FRAME, true)]
  {
    hide Possible, Answers, Mentioned, Touched, Neglected, Removed, CachedOtherwise;
    OkAnswers(w.core.path.link.sent[w.handled].payload, w.tables, after);
    PossibleNext(w, Handle([OK_FRAME], after));
    assert AsReply([OK_FRAME]) == [InTransit(OK_FRAME, true)];
    assert [] + [InTransit(OK_FRAME, true)] == [InTransit(OK_FRAME, true)];
  }

  lemma OkDelivered(w: World, now: Clock)
    requires Possible(w) && w.wire == [InTransit(OK_FRAME, true)] && w.core.path.inFlight.Some?
    requires Unnoticeable(w.core.path.inFlight.value.payload) && w.core.path.queue == [] && CanSend(w.core)
    ensures var v := Act(w, Deliver(now));
            Possible(v) && Idle(v) && v.tables == w.tables && v.core.db == w.core.db && v.core.mem == w.core.mem
            && v.core.live == w.core.live
  {
    PossibleInv(w);
    SlotInOrder(w);
    hide Possible, WorldInv, Step, HandleRadioRx, Mentioned, SlotIsLastSent, Unnoticeable, BelongsToInFlight, CanSend;
    PossibleNext(w, Deliver(now));
    RadioStep(w.core, OK_FRAME, now);
    OkRead(w.core, now);
  }

  /** The world after a client's command was sent, accepted by the radio, and its OK read. */
  lemma ObeyedIs(w: World, k: ClientId, port: nat, p: Command, after: map<Item, Frame>, now: Clock) returns (v: World)
    requires Possible(w) && Idle(w) && k in w.core.live && Unnoticeable(p)
    ensures Possible(v) && Idle(v) && v.tables == after && v.core.live == w.core.live
            && v.core.db == w.core.db && v.core.mem == w.core.mem
  {
    CommandGoes(w.core, k, port, p, now);
    SentIs(w, k, port, p, now);
    hide Possible, Idle, Step, Act, Unnoticeable, CanSend;
    var w1 := Act(w, Own(Command(ClientCommand(k, port, p)), now));
    AcceptedIs(w1, after);
    var w2 := Act(w1, Handle([OK_FRAME], after));
    OkDelivered(w2, now);
    v := Act(w2, Deliver(now));
  }

  lemma SlotInOrder(w: World)
    requires WorldInv(w)
    ensures SlotIsLastSent(w.core)
  {
    SlotInv(w.core);
    hide PathInv, SlotIsLastSent;
  }

  function Question(x: Item): Command
    requires x in {OfSelf, OfDevice}
  {
    if x == OfSelf then [0x01] else [0x16]
  }

  /** A client that asks for the item is handed `was`, and the radio holds `value`. */
  ghost predicate ServesOld(w: World, k: ClientId, port: nat, x: Item, was: Frame, value: Frame)
    requires x in {OfSelf, OfDevice}
  {
    var served := TryServeFromCache(w.core, ClientCommand(k, port, Question(x)));
    && Possible(w) && Idle(w) && x in w.tables && w.tables[x] == value
    && served.Some? && served.value.out == w.core.out + [ToClient(k, was, Wire(w.core, k, was), Cached)]
  }

  /** However the multiplexer came to be idle and to hold the radio's own SELF_INFO or DEVICE_INFO: once a client's
      IMPORT_PRIVATE_KEY or SET_PATH_HASH_MODE has changed it, a client that asks is handed the old one. */
  lemma OldIsServed(w: World, k: ClientId, port: nat, p: Command, x: Item, value: Frame, now: Clock) returns (v: World)
    requires Possible(w) && Idle(w) && k in w.core.live && Unnoticeable(p) && x in {OfSelf, OfDevice}
    requires x in w.tables && View(w.core, x) == Some(w.tables[x])
    ensures ServesOld(v, k, port, x, w.tables[x], value)
  {
    v := ObeyedIs(w, k, port, p, w.tables[x := value], now);
    hide Possible, Idle, TryServeFromCache, Wire, Unnoticeable;
    SameData(w.core, v.core, x);
    hide View;
    ViewIsServed(v.core, ClientCommand(k, port, Question(x)), x);
  }

  /** And such a state is within reach of every startup over an open link, with a client connected. */
  lemma IdleFromStart(retention: Retention, backlog: Backlog, db: Tables, r: Reconnection, tables: map<Item, Frame>,
                      now: Clock) returns (w: World)
    requires r.open && Truthful(r, tables) && UniqueKeys(db.contacts)
    ensures Possible(w) && Idle(w) && 1 in w.core.live && w.tables == tables
            && View(w.core, OfSelf) == Some(tables[OfSelf])
    ensures r.deviceInfo.Some? ==> View(w.core, OfDevice) == Some(tables[OfDevice])
    ensures forall row :: row in db.contacts ==> View(w.core, OfContact(row.key)) == Some(ContactFrame(row))
  {
    JoinedPossible(retention, backlog, db, r, tables, now);
    JoinedDrains(retention, backlog, db, r, tables, now);
    StartViews(retention, backlog, db, r, now);
    hide Possible, Idle, Draining, View, Joined, Start, UniqueKeys, ContactFrame;
    w := RefusedToIdle(Joined(retention, backlog, db, r, tables, now), now);
  }

  /** So from every startup over an open link there is a run after which a client is handed a SELF_INFO, or a
      DEVICE_INFO that the handshake brought, which the radio has given up for another by order of a client. */
  lemma OldServedFromStart(retention: Retention, backlog: Backlog, db: Tables, r: Reconnection,
                           tables: map<Item, Frame>,
                           now: Clock, port: nat, p: Command, x: Item, value: Frame)
    requires r.open && Truthful(r, tables) && UniqueKeys(db.contacts) && Unnoticeable(p)
    requires x == OfSelf || (x == OfDevice && r.deviceInfo.Some?)
    ensures exists v :: ServesOld(v, 1, port, x, tables[x], value)
  {
    hide Possible, Idle, View, Unnoticeable, UniqueKeys, ServesOld;
    var w := IdleFromStart(retention, backlog, db, r, tables, now);
    var v := OldIsServed(w, 1, port, p, x, value, now);
  }

  lemma StartViews(retention: Retention, backlog: Backlog, db: Tables, r: Reconnection, now: Clock)
    requires UniqueKeys(db.contacts)
    ensures var c := Start(retention, backlog, db, r, now);
            View(c, OfSelf) == Some(r.selfInfo) && (r.deviceInfo.Some? ==> View(c, OfDevice) == r.deviceInfo)
            && forall row :: row in db.contacts ==> View(c, OfContact(row.key)) == Some(ContactFrame(row))
  {
    var f := Fresh(retention, backlog, db);
    ReconnectCached(f, r, now);
    Restored(ReconnectRadio(f, r, now));
    hide ReconnectRadio, RestoreBlobs, NewLink, ContactFrame, FindContact, UniqueKeys;
    forall row | row in db.contacts
      ensures FindContact(db.contacts, row.key) == Some(row)
    {
      FindContactExact(db.contacts, row.key);
    }
  }
}
