/** The caches and the radio: what is served is what the radio holds, or the news is on its way. */
module Coherence {
  import opened Bytes
  import opened Protocol
  import opened Store
  import opened CoreState
  import opened RadioPath
  import opened Outcomes
  import opened Links
  import opened Requests
  import opened Frames
  import opened Flow
  import opened Firmware
  import opened Environment
  import opened CachedReplies

  // ---------------------------------------------------------------------
  // What will be served
  // ---------------------------------------------------------------------

  /** What the last frame about the item, still on the wire, says. */
  function LastAbout(wire: seq<InTransit>, x: Item): Option<Frame> {
    if wire == [] then None
    else
      var last := wire[|wire| - 1].frame;
      if IsAbout(last, x) then Some(Carries(last).value.1) else LastAbout(wire[..|wire| - 1], x)
  }

  /** What will be served once the wire is empty. */
  function Latest(wire: seq<InTransit>, c: Core, x: Item): Option<Frame> {
    if LastAbout(wire, x).Some? then LastAbout(wire, x) else View(c, x)
  }

  // ---------------------------------------------------------------------
  // Why it may be out of date
  // ---------------------------------------------------------------------

  ghost predicate Announced(w: World, x: Item) {
    exists t :: t in w.wire && !t.reply && TellsOfContact(t.frame) && x == OfContact(t.frame[1..33])
  }

  ghost predicate Queued(c: Core, x: Item) {
    exists q :: q in c.path.queue && q.client.None? && Rereads(q.payload, x)
  }

  /** The radio has yet to answer a command that asks for the item. */
  predicate Asked(w: World, x: Item) {
    w.core.path.inFlight.Some? && w.handled + 1 == |w.core.path.link.sent|
        && Rereads(w.core.path.inFlight.value.payload, x)
  }

  /** The radio has accepted a command that changes the item, and a refresh will follow its reply. */
  predicate Changed(w: World, x: Item) {
    && w.core.path.inFlight.Some? && w.handled == |w.core.path.link.sent|
    && FollowUp(w.core.path.inFlight.value.payload).Some?
    && Rereads(FollowUp(w.core.path.inFlight.value.payload).value.payload, x)
    && ReplyPart(w.wire) != [] && !IsError(ReplyPart(w.wire)[|ReplyPart(w.wire)| - 1])
  }

  /** Nothing can be asked before the next reconnection. */
  predicate CutOff(c: Core, x: Item) {
    !CanSend(c) && (x.OfContact? || x.OfChannel?)
  }

  /** News of the item is under way, or can no longer be asked for. */
  ghost predicate Due(w: World, x: Item) {
    Announced(w, x) || Queued(w.core, x) || Asked(w, x) || Changed(w, x) || CutOff(w.core, x)
  }

  ghost predicate Pending(w: World, x: Item) {
    Due(w, x) || x in w.unsynced || x in w.unread
  }

  predicate Agrees(w: World, x: Item)
    requires x in w.tables
  {
    Latest(w.wire, w.core, x).Some? ==> Latest(w.wire, w.core, x) == Some(w.tables[x])
  }

  /** The command takes the item out of the cache when it goes out. */
  predicate Withdraws(cmd: Command, x: Item) {
    match x
    case OfContact(key) => cmd[0] == 0x0F && |cmd| >= 33 && cmd[1..33] == key
    case OfChannel(idx) => cmd[0] == 0x20 && |cmd| > 1 && cmd[1] == idx
    case _ => IsSetter(cmd)
  }

  /** While such a command is in flight nothing is cached for the item, nor about to be. */
  ghost predicate Withheld(w: World) {
    forall x :: w.core.path.inFlight.Some? && Withdraws(w.core.path.inFlight.value.payload, x) ==>
      Latest(w.wire, w.core, x) == None
  }

  ghost predicate UpToDate(w: World) {
    forall x :: x in w.tables ==> Agrees(w, x) || Pending(w, x)
  }

  ghost predicate StaysGone(w: World) {
    forall x :: x in w.gone ==> x !in w.tables && Latest(w.wire, w.core, x) == None && x.OfContact?
  }

  ghost predicate CoherenceInv(w: World) {
    UpToDate(w) && Withheld(w) && StaysGone(w) && UniqueKeys(w.core.db.contacts)
  }

  // ---------------------------------------------------------------------
  // Views
  // ---------------------------------------------------------------------

  lemma SameViews(c: Core, d: Core, x: Item)
    requires SameCache(c, d)
    ensures View(d, x) == View(c, x)
  {
    hide ContactFrame, ChannelFrame, FindContact;
  }

  /** Caching a frame changes the view of the item it is about, to what it carries. */
  lemma CachedView(c: Core, p: Command, now: Clock, x: Item)
    ensures View(CacheResponse(c, p, now), x) == if IsAbout(p, x) then Some(Carries(p).value.1) else View(c, x)
  {
    if IsContactFrame(p) {
      ContactView(c, p, now, x);
    } else {
      CachedOther(c, p, now);
      hide CacheResponse, FindContact, ContactFrame, ChannelFrame, ChannelFromFrame;
    }
  }

  lemma ContactView(c: Core, p: Command, now: Clock, x: Item)
    requires IsContactFrame(p)
    ensures View(CacheResponse(c, p, now), x) == if IsAbout(p, x) then Some(Carries(p).value.1) else View(c, x)
  {
    ContactServedVerbatim(p, now);
    if x.OfContact? {
      FindUpserted(c.db, ContactFromFrame(p, now), x.key);
    }
    hide FindContact, ContactFrame, ChannelFrame;
  }

  /** The tables after a frame that is no contact. */
  lemma CachedOther(c: Core, p: Command, now: Clock)
    requires !IsContactFrame(p)
    ensures var d := CacheResponse(c, p, now);
            d.db.contacts == c.db.contacts
            && d.db.channels
            == (if IsChannelFrame(p) then c.db.channels[p[1] as int := ChannelFromFrame(p)] else c.db.channels)
            && d.mem.selfInfo == (if p[0] == 0x05 then Some(p) else c.mem.selfInfo)
            && d.mem.deviceInfo == (if p[0] == 0x0D then Some(p) else c.mem.deviceInfo)
  {
    hide StoreMessage, MessageTimestamp, TrimNuls, FirstNul;
    if Storable(p) {
      StoreStill(c, MessageTimestamp(p), p, None, now);
    }
  }

  lemma WithdrawnView(c: Core, cmd: Command, x: Item)
    ensures View(Invalidate(c, cmd), x) == if Withdraws(cmd, x) then None else View(c, x)
  {
    InvalidateIs(c, cmd);
    if x.OfContact? && cmd[0] == 0x0F && |cmd| >= 33 {
      FindWithout(c.db.contacts, cmd[1..33], x.key);
    }
    hide Invalidate, WithoutContact, ContactFrame, ChannelFrame, FindContact;
  }

  // ---------------------------------------------------------------------
  // The wire
  // ---------------------------------------------------------------------

  lemma {:induction false} LastAboutAppend(a: seq<InTransit>, b: seq<InTransit>, x: Item)
    ensures LastAbout(a + b, x) == if LastAbout(b, x).Some? then LastAbout(b, x) else LastAbout(a, x)
  {
    hide IsAbout, Carries;
    if b == [] {
      assert a + b == a;
    } else {
      assert (a + b)[..|a + b| - 1] == a + b[..|b| - 1];
      LastAboutAppend(a, b[..|b| - 1], x);
    }
  }

  /** A push is about no item. */
  lemma PushAboutNothing(p: Command, x: Item)
    requires IsPush(p[0])
    ensures !IsAbout(p, x) && LastAbout([InTransit(p, false)], x) == None
  {
    assert [InTransit(p, false)][..0] == [];
  }

  lemma {:induction false} NoReplyNoNews(wire: seq<InTransit>, x: Item)
    requires ReplyPart(wire) == [] && forall t :: t in wire && !t.reply ==> IsPush(t.frame[0])
    ensures LastAbout(wire, x) == None
  {
    if wire != [] {
      var front, last := wire[..|wire| - 1], wire[|wire| - 1];
      assert wire == front + [last] && last in wire;
      ReplyPartAppend(front, [last]);
      assert [last][1..] == [];
      assert !last.reply && IsPush(last.frame[0]);
      PushAboutNothing(last.frame, x);
      hide IsAbout, IsPush;
      NoReplyNoNews(front, x);
    }
  }

  /** Truthful frames: the last one about an item says what the table says. */
  lemma {:induction false} TruthfulNews(frames: seq<Command>, tables: map<Item, Frame>, x: Item)
    requires forall f :: f in frames && Carries(f).Some? ==>
               Carries(f).value.0 in tables && tables[Carries(f).value.0] == Carries(f).value.1
    ensures LastAbout(AsReply(frames), x).Some? ==> x in tables && LastAbout(AsReply(frames), x) == Some(tables[x])
    ensures (exists f :: f in frames && IsAbout(f, x)) ==> LastAbout(AsReply(frames), x).Some?
  {
    hide Carries;
    if frames != [] {
      var front, last := frames[..|frames| - 1], frames[|frames| - 1];
      assert AsReply(frames)[..|frames| - 1] == AsReply(front);
      assert frames == front + [last] && last in frames;
      TruthfulNews(front, tables, x);
    }
  }

  // ---------------------------------------------------------------------
  // Steps that send
  // ---------------------------------------------------------------------

  /** An own request that is still due keeps what it asks for pending. */
  lemma DueRequest(w: World, d: Core, q: Request, x: Item)
    requires StillDue(w.core, d, q) && q.client.None? && Rereads(q.payload, x)
    requires w.handled == |w.core.path.link.sent| || w.core.path.inFlight.Some?
    ensures Due(w.(core := d), x)
  {
    var v := w.(core := d);
    if q in d.path.queue {
      assert Queued(d, x);
    } else if NewSlot(w.core, d) && d.path.inFlight.value.payload == q.payload {
      assert Asked(v, x);
    }
  }

  /** The slot is as it was, and so is the cache. */
  lemma SameSlotDue(w: World, d: Core, x: Item)
    requires SameSlot(w.core, d) && QueueFlows(w.core, d) && Due(w, x)
    requires w.handled == |w.core.path.link.sent| || w.core.path.inFlight.Some?
    ensures Due(w.(core := d), x)
  {
    hide Rereads, FollowUp, ReplyPart;
    if Announced(w, x) {
      assert Announced(w.(core := d), x);
    } else if Queued(w.core, x) {
      var q :| q in w.core.path.queue && q.client.None? && Rereads(q.payload, x);
      DueRequest(w, d, q, x);
    }
  }

  lemma NewSlotDue(w: World, d: Core, x: Item)
    requires NewSlot(w.core, d) && QueueFlows(w.core, d) && Due(w, x)
    requires w.handled == |w.core.path.link.sent|
    ensures Due(w.(core := d), x)
  {
    hide Rereads, FollowUp, ReplyPart;
    if Announced(w, x) {
      assert Announced(w.(core := d), x);
    } else if Queued(w.core, x) {
      var q :| q in w.core.path.queue && q.client.None? && Rereads(q.payload, x);
      DueRequest(w, d, q, x);
    }
  }

  lemma UniqueStays(c: Core, cmd: Command)
    requires UniqueKeys(c.db.contacts)
    ensures UniqueKeys(Invalidate(c, cmd).db.contacts)
  {
    InvalidateIs(c, cmd);
    if cmd[0] == 0x0F && |cmd| >= 33 {
      FilterUniqueKeys(c.db.contacts, (r: Contact) => r.key != cmd[1..33]);
    }
    hide Invalidate;
  }

  /** A step that sends nothing new keeps everything. */
  lemma SameSlotCoherent(w: World, d: Core)
    requires CoherenceInv(w) && SameSlot(w.core, d) && SameCache(w.core, d) && QueueFlows(w.core, d)
    requires w.handled == |w.core.path.link.sent| || w.core.path.inFlight.Some?
    ensures CoherenceInv(w.(core := d))
  {
    var v := w.(core := d);
    forall x: Item
      ensures View(d, x) == View(w.core, x)
    {
      SameViews(w.core, d, x);
    }
    hide View, LastAbout, Withdraws, Due, SameSlot, QueueFlows;
    forall x | x in v.tables
      ensures Agrees(v, x) || Pending(v, x)
    {
      assert Agrees(w, x) || Pending(w, x);
      if Due(w, x) {
        SameSlotDue(w, d, x);
      }
    }
    assert Withheld(v) by { SameWithheld(w, d); }
  }

  lemma SameWithheld(w: World, d: Core)
    requires Withheld(w) && d.path.inFlight == w.core.path.inFlight
    requires forall x: Item :: View(d, x) == View(w.core, x)
    ensures Withheld(w.(core := d))
  {
    hide View, LastAbout, Withdraws;
  }

  /** One command goes out: what it withdraws is gone, the rest is as it was. */
  lemma NewSlotCoherent(w: World, d: Core)
    requires CoherenceInv(w) && NewSlot(w.core, d) && QueueFlows(w.core, d)
    requires SameCache(Invalidate(w.core, d.path.inFlight.value.payload), d)
    requires w.handled == |w.core.path.link.sent| && ReplyPart(w.wire) == [] && PushesMarked(w)
    ensures CoherenceInv(w.(core := d))
  {
    var v, cmd := w.(core := d), d.path.inFlight.value.payload;
    UniqueStays(w.core, cmd);
    hide UniqueKeys, PushesMarked;
    forall x: Item
      ensures View(d, x) == if Withdraws(cmd, x) then None else View(w.core, x)
      ensures LastAbout(w.wire, x) == None
    {
      WithdrawnView(w.core, cmd, x);
      SameViews(Invalidate(w.core, cmd), d, x);
      NoReplyNoNews(w.wire, x) by { assert PushesMarked(w); MarkedPushes(w); }
    }
    hide View, LastAbout, Withdraws, Due, NewSlot, QueueFlows, Invalidate, ReplyPart;
    forall x | x in v.tables
      ensures Agrees(v, x) || Pending(v, x)
    {
      assert Agrees(w, x) || Pending(w, x);
      if Due(w, x) {
        NewSlotDue(w, d, x);
      }
    }
  }

  lemma MarkedPushes(w: World)
    requires PushesMarked(w)
    ensures forall t :: t in w.wire && !t.reply ==> IsPush(t.frame[0])
  {
  }

  lemma FlowsCoherent(w: World, d: Core)
    requires CoherenceInv(w) && InStep(w) && PushesMarked(w) && Flows(w.core, d)
    ensures CoherenceInv(w.(core := d))
  {
    hide CoherenceInv, QueueFlows, SameCache, ReplyPart, CurrentFrames, PushesMarked, Invalidate;
    if SameSlot(w.core, d) && SameCache(w.core, d) {
      SameSlotCoherent(w, d);
    } else {
      NewSlotCoherent(w, d);
    }
  }

  // ---------------------------------------------------------------------
  // The multiplexer's own steps
  // ---------------------------------------------------------------------

  lemma TrimmedContact(rows: seq<Contact>, kept: seq<Contact>, key: Frame)
    requires UniqueKeys(rows) && UniqueKeys(kept) && forall x :: x in kept ==> x in rows
    ensures FindContact(kept, key).Some? ==> FindContact(kept, key) == FindContact(rows, key)
  {
    FindContactExact(kept, key);
    FindContactExact(rows, key);
  }

  /** Maintenance takes contacts out of the cache, nothing else. */
  lemma PurgeCoherent(w: World, d: Core)
    requires CoherenceInv(w) && d.path == w.core.path
    requires d.db.channels == w.core.db.channels && d.mem == w.core.mem
    requires UniqueKeys(d.db.contacts) && forall x :: x in d.db.contacts ==> x in w.core.db.contacts
    ensures CoherenceInv(w.(core := d))
  {
    var v := w.(core := d);
    forall x: Item
      ensures View(d, x) == None || View(d, x) == View(w.core, x)
    {
      if x.OfContact? {
        TrimmedContact(w.core.db.contacts, d.db.contacts, x.key);
      }
      hide FindContact, ContactFrame, ChannelFrame;
    }
    hide View, LastAbout, Withdraws, UniqueKeys, Due;
    forall x | x in v.tables
      ensures Agrees(v, x) || Pending(v, x)
    {
      assert Agrees(w, x) || Pending(w, x);
      if Due(w, x) {
        PathDue(w, v, x);
      }
    }
  }

  /** What is pending depends on path and wire only. */
  lemma PathDue(w: World, v: World, x: Item)
    requires Due(w, x) && v.core.path == w.core.path && v.wire == w.wire && v.handled == w.handled
    ensures Due(v, x)
  {
    hide Rereads, FollowUp, ReplyPart;
    if Announced(w, x) {
      assert Announced(v, x);
    } else if Queued(w.core, x) {
      assert Queued(v.core, x);
    }
  }

  lemma MaintainedTables(t: Tables, r: Retention, now: int)
    requires UniqueKeys(t.contacts)
    ensures var u := Maintain(t, r, now);
            UniqueKeys(u.contacts) && u.channels == t.channels && forall x :: x in u.contacts ==> x in t.contacts
  {
    forall x | x in Maintain(t, r, now).contacts
      ensures x in t.contacts
    {
      MaintainContactsExact(t, r, now, x);
    }
    FilterUniqueKeys(t.contacts, (c: Contact) => !ContactExpired(t, r, now, c));
    hide KeptMessages, KeptClients;
  }

  lemma MaintenanceCoherent(w: World, now: Clock)
    requires CoherenceInv(w) && InStep(w) && PushesMarked(w)
    ensures CoherenceInv(w.(core := RunMaintenance(w.core, now)))
  {
    var c1 := RequestFullSync(w.core, now);
    RequestFullSyncFlows(w.core, now);
    hide RequestFullSync, Flows, InStep, PushesMarked, UpToDate, Withheld, StaysGone;
    FlowsCoherent(w, c1);
    MaintainedTables(c1.db, c1.conf.retention, now.unix);
    hide Maintain, UniqueKeys;
    PurgeCoherent(w.(core := c1), RunMaintenance(w.core, now));
  }

  /** Once the link is closed, what could be asked for over it is cut off. */
  lemma CloseCoherent(w: World)
    requires CoherenceInv(w)
    ensures CoherenceInv(w.(core := WithLink(w.core, w.core.path.link.(open := false))))
  {
    var d := WithLink(w.core, w.core.path.link.(open := false));
    var v := w.(core := d);
    forall x: Item
      ensures View(d, x) == View(w.core, x)
    {
      SameViews(w.core, d, x);
    }
    hide View, LastAbout, Withdraws, UniqueKeys, ReplyPart, Rereads;
    forall x | x in v.tables
      ensures Agrees(v, x) || Pending(v, x)
    {
      if x.OfContact? || x.OfChannel? {
        assert CutOff(d, x);
      } else {
        assert Agrees(w, x) || Pending(w, x);
        OnlyUnsynced(w, x);
      }
    }
    assert Withheld(v) by { SameWithheld(w, d); }
  }

  /** The radio's own data is never re-read by the multiplexer. */
  lemma OnlyUnsynced(w: World, x: Item)
    requires x.OfSelf? || x.OfDevice?
    ensures Pending(w, x) <==> x in w.unsynced || x in w.unread
  {
  }

  lemma OwnCoherent(w: World, i: Input, now: Clock)
    requires CoherenceInv(w) && InStep(w) && PushesMarked(w) && Allowed(w, Own(i, now))
    ensures CoherenceInv(w.(core := Step(w.core, i, now)))
  {
    hide HandleClientCommand, RunMaintenance, CoherenceInv, Flows, InStep, PushesMarked;
    match i {
      case Connect =>
        StillFlows(w.core, Step(w.core, i, now));
        FlowsCoherent(w, Step(w.core, i, now));
      case Disconnect(_) =>
        StillFlows(w.core, Step(w.core, i, now));
        FlowsCoherent(w, Step(w.core, i, now));
      case Command(cmd) =>
        CommandFlows(w.core, cmd, now);
        FlowsCoherent(w, Step(w.core, i, now));
      case TimeoutTick =>
        assert Step(w.core, i, now) == w.core;
        assert w.(core := w.core) == w;
      case MaintenanceTick => MaintenanceCoherent(w, now);
      case LinkCloses => CloseCoherent(w);
    }
  }

  // ---------------------------------------------------------------------
  // Frames from the radio
  // ---------------------------------------------------------------------

  /** A push leaves the wire; the news it brings is asked for. */
  lemma PushTaken(w: World, d: Core)
    requires CoherenceInv(w) && InStep(w) && PushesMarked(w) && w.wire != [] && !w.wire[0].reply
    requires Flows(w.core, d)
    requires TellsOfContact(w.wire[0].frame) ==>
               StillDue(w.core, d, Request(None, RefreshCommand(w.wire[0].frame[1..33])))
    ensures CoherenceInv(w.(core := d, wire := w.wire[1..]))
  {
    var p, v, u := w.wire[0].frame, w.(core := d, wire := w.wire[1..]), w.(core := d);
    FlowsCoherent(w, d);
    assert w.wire[0] in w.wire;
    forall x: Item
      ensures LastAbout(v.wire, x) == LastAbout(w.wire, x)
    {
      PushAboutNothing(p, x);
      LastAboutAppend([w.wire[0]], w.wire[1..], x);
      assert [w.wire[0]] + w.wire[1..] == w.wire && w.wire[0] == InTransit(p, false);
    }
    assert ReplyPart(v.wire) == ReplyPart(w.wire);
    hide View, LastAbout, Withdraws, UniqueKeys, ReplyPart, Flows, PushesMarked, Due;
    forall x | x in v.tables
      ensures Agrees(v, x) || Pending(v, x)
    {
      assert Agrees(u, x) || Pending(u, x);
      if Due(u, x) {
        PushTakenDue(w, d, x);
      }
    }
    SameLatest(u, v);
  }

  lemma SameLatest(u: World, v: World)
    requires Withheld(u) && StaysGone(u) && v == u.(wire := v.wire)
    requires forall x: Item :: LastAbout(v.wire, x) == LastAbout(u.wire, x)
    ensures Withheld(v) && StaysGone(v)
  {
    hide View, LastAbout, Withdraws;
  }

  lemma PushTakenDue(w: World, d: Core, x: Item)
    requires InStep(w) && w.wire != [] && !w.wire[0].reply && Due(w.(core := d), x)
    requires TellsOfContact(w.wire[0].frame) ==>
               StillDue(w.core, d, Request(None, RefreshCommand(w.wire[0].frame[1..33])))
    requires ReplyPart(w.wire[1..]) == ReplyPart(w.wire)
    ensures Due(w.(core := d, wire := w.wire[1..]), x)
  {
    var u, v := w.(core := d), w.(core := d, wire := w.wire[1..]);
    hide ReplyPart, CurrentFrames, FollowUp;
    if Announced(u, x) {
      var t :| t in w.wire && !t.reply && TellsOfContact(t.frame) && x == OfContact(t.frame[1..33]);
      assert w.wire == [w.wire[0]] + w.wire[1..];
      if t in w.wire[1..] {
        assert Announced(v, x);
      } else {
        assert t == w.wire[0];
        DueRequest(w.(wire := w.wire[1..]), d, Request(None, RefreshCommand(t.frame[1..33])), x);
      }
    } else if Queued(d, x) {
      assert Queued(v.core, x);
    }
  }

  lemma DeliverPushCoherent(w: World, now: Clock)
    requires CoherenceInv(w) && InStep(w) && PushesMarked(w) && Allowed(w, Deliver(now)) && !w.wire[0].reply
    ensures CoherenceInv(w.(core := HandleRadioRx(w.core, w.wire[0].frame, now), wire := w.wire[1..]))
  {
    var p, c := w.wire[0].frame, w.core;
    assert w.wire[0] in w.wire;
    PushPlain(c, p, now);
    hide CoherenceInv, InStep, PushesMarked, HandlePush, Flows, CacheResponse;
    if MatchesAck(c, p) {
      StillFlows(c, RouteAck(c, p));
      PushTaken(w, RouteAck(c, p));
    } else {
      PushFlows(c, p, now);
      PushTaken(w, HandlePush(c, p, now));
    }
  }

  /** Caching the head of the wire changes nothing of what the wire and the cache say together. */
  lemma CachedLatest(w: World, now: Clock, x: Item)
    requires w.wire != []
    ensures Latest(w.wire[1..], CacheResponse(w.core, w.wire[0].frame, now), x) == Latest(w.wire, w.core, x)
  {
    var t := w.wire[0];
    CachedView(w.core, t.frame, now, x);
    LastAboutAppend([t], w.wire[1..], x);
    assert [t] + w.wire[1..] == w.wire && [t][..0] == [] && [t][|[t]| - 1] == t;
    hide CacheResponse, View, IsAbout, Carries;
  }

  lemma UniqueCached(c: Core, p: Command, now: Clock)
    requires UniqueKeys(c.db.contacts)
    ensures UniqueKeys(CacheResponse(c, p, now).db.contacts)
  {
    if IsContactFrame(p) {
      UpsertKeepsKeysUnique(c.db, ContactFromFrame(p, now));
    } else {
      CachedOther(c, p, now);
    }
  }

  /** After the head of the wire, a frame of a reply, has been cached and handed over. */
  lemma ReadCoherent(w: World, d: Core, now: Clock)
    requires CoherenceInv(w) && w.wire != [] && w.wire[0].reply && w.core.path.inFlight.Some?
    requires w.handled == |w.core.path.link.sent|
    requires SameCache(CacheResponse(w.core, w.wire[0].frame, now), d)
    requires d.path.queue == w.core.path.queue && d.path.link.sent == w.core.path.link.sent
             && CanSend(d) == CanSend(w.core)
    requires if ReplyPart(w.wire[1..]) == [] then d.path.inFlight.None?
             else d.path.inFlight.Some? && d.path.inFlight.value.payload == w.core.path.inFlight.value.payload
    ensures var v := w.(core := d, wire := w.wire[1..]);
            Withheld(v) && StaysGone(v) && UniqueKeys(d.db.contacts)
            && forall x :: x in v.tables ==>
                 Agrees(v, x) || Pending(v, x) || (ReplyPart(v.wire) == [] && Changed(w, x))
  {
    var v := w.(core := d, wire := w.wire[1..]);
    UniqueCached(w.core, w.wire[0].frame, now);
    forall x: Item
      ensures Latest(v.wire, d, x) == Latest(w.wire, w.core, x)
    {
      CachedLatest(w, now, x);
      SameViews(CacheResponse(w.core, w.wire[0].frame, now), d, x);
      hide CacheResponse, View, LastAbout;
    }
    hide Latest, Withdraws, UniqueKeys, CacheResponse, Due, Changed;
    forall x | x in v.tables
      ensures Agrees(v, x) || Pending(v, x) || (ReplyPart(v.wire) == [] && Changed(w, x))
    {
      assert Agrees(w, x) || Pending(w, x);
      if Due(w, x) {
        ReadDue(w, d, x);
      }
    }
  }

  lemma ReadDue(w: World, d: Core, x: Item)
    requires w.wire != [] && w.wire[0].reply && w.core.path.inFlight.Some? && Due(w, x)
    requires w.handled == |w.core.path.link.sent|
    requires d.path.queue == w.core.path.queue && d.path.link.sent == w.core.path.link.sent
             && CanSend(d) == CanSend(w.core)
    requires if ReplyPart(w.wire[1..]) == [] then d.path.inFlight.None?
             else d.path.inFlight.Some? && d.path.inFlight.value.payload == w.core.path.inFlight.value.payload
    ensures Due(w.(core := d, wire := w.wire[1..]), x) || (ReplyPart(w.wire[1..]) == [] && Changed(w, x))
  {
    var v := w.(core := d, wire := w.wire[1..]);
    assert ReplyPart(w.wire) == [w.wire[0].frame] + ReplyPart(v.wire);
    hide ReplyPart, FollowUp, Rereads;
    if Announced(w, x) {
      var t :| t in w.wire && !t.reply && TellsOfContact(t.frame) && x == OfContact(t.frame[1..33]);
      assert w.wire == [w.wire[0]] + w.wire[1..];
      assert Announced(v, x);
    } else if Queued(w.core, x) {
      assert Queued(v.core, x);
    }
  }

  /** In the middle of a reply. */
  lemma ContinueCoherent(w: World, now: Clock)
    requires CoherenceInv(w) && WorldInv(w) && w.wire != [] && w.wire[0].reply && ReplyPart(w.wire[1..]) != []
    ensures CoherenceInv(w.(core := HandleRadioRx(w.core, w.wire[0].frame, now), wire := w.wire[1..]))
  {
    var p, c := w.wire[0].frame, w.core;
    NextReplyFrame(w);
    SlotInv(c);
    RouteIs(c, p, now);
    var c1, f := CacheResponse(c, p, now), c.path.inFlight.value;
    ForwardFlow(c1, p, now);
    ForwardOnly(c1, p, now);
    ReplyContinues(c, p, now);
    hide CacheResponse, HandleRadioRx, Forward, WorldInv, AwaitingFor, UpToDate, Withheld, StaysGone, UniqueKeys,
      ReplyPart, CurrentFrames;
    var d := HandleRadioRx(c, p, now);
    assert SameCache(c1, d);
    ReadCoherent(w, d, now);
    assert UpToDate(w.(core := d, wire := w.wire[1..])) by { AllUpToDate(w.(core := d, wire := w.wire[1..])); }
  }

  lemma AllUpToDate(v: World)
    requires forall x :: x in v.tables ==> Agrees(v, x) || Pending(v, x)
    ensures UpToDate(v)
  {
  }

  /** The state in which the slot has just been freed. */
  lemma FreedWorld(w: World, now: Clock)
    requires CoherenceInv(w) && WorldInv(w) && w.wire != [] && w.wire[0].reply && ReplyPart(w.wire[1..]) == []
    ensures var p, c := w.wire[0].frame, w.core;
            BelongsToInFlight(c, p) && c.path.inFlight.value.awaiting.Completes(p[0])
            && var f, c1 := c.path.inFlight.value, CacheResponse(c, p, now);
               var freed := WithSlot(Forward(c1, f, p, now), None);
               var v := w.(core := freed, wire := w.wire[1..]);
               && freed.path.inFlight.None? && InStep(v)
               && HandleRadioRx(c, p, now) == Complete(Forward(c1, f, p, now), f, p, now)
               && Withheld(v) && StaysGone(v) && UniqueKeys(freed.db.contacts)
               && forall x :: x in v.tables ==> Agrees(v, x) || Pending(v, x) || Changed(w, x)
  {
    hide CacheResponse, HandleRadioRx, Forward, Complete, PathInv, AwaitingFor, UpToDate, Withheld, StaysGone,
      UniqueKeys, ReplyPart, CurrentFrames, Faithful, Shaped, Pending, Agrees, Changed, SlotIsLastSent;
    var p, c := w.wire[0].frame, w.core;
    NextReplyFrame(w);
    SlotInv(c);
    RouteIs(c, p, now);
    var c1, f := CacheResponse(c, p, now), c.path.inFlight.value;
    assert SlotIsLastSent(c1) by { SamePathSlots(c, c1); }
    ForwardFlow(c1, p, now);
    ForwardOnly(c1, p, now);
    var freed := WithSlot(Forward(c1, f, p, now), None);
    assert SameCache(c1, freed);
    hide SameCache;
    ReadCoherent(w, freed, now);
  }

  lemma SamePathSlots(c: Core, d: Core)
    requires SlotIsLastSent(c) && d.path == c.path
    ensures SlotIsLastSent(d)
  {
  }

  /** The request a change leads to is due, so the change is pending still. */
  lemma ChangedDue(w: World, v: World, d: Core, x: Item)
    requires Changed(w, x) && v.core.path.inFlight.None? && v.handled == |v.core.path.link.sent|
    requires StillDue(v.core, d, FollowUp(w.core.path.inFlight.value.payload).value)
    ensures Due(v.(core := d), x)
  {
    FollowUpOwn(w.core.path.inFlight.value.payload);
    DueRequest(v, d, FollowUp(w.core.path.inFlight.value.payload).value, x);
  }

  /** At the end of a reply. */
  lemma EndCoherent(w: World, now: Clock)
    requires CoherenceInv(w) && WorldInv(w) && PushesMarked(w) && w.wire != [] && w.wire[0].reply
             && ReplyPart(w.wire[1..]) == []
    ensures CoherenceInv(w.(core := HandleRadioRx(w.core, w.wire[0].frame, now), wire := w.wire[1..]))
  {
    var p, c := w.wire[0].frame, w.core;
    FreedWorld(w, now);
    var f := c.path.inFlight.value;
    var c2 := Forward(CacheResponse(c, p, now), f, p, now);
    var freed := WithSlot(c2, None);
    var v, d := w.(core := freed, wire := w.wire[1..]), HandleRadioRx(c, p, now);
    CompleteFlows(c2, f, p, now);
    LastOfReply(w);
    hide CacheResponse, HandleRadioRx, Forward, Complete, WorldInv, CoherenceInv, InStep, Withheld, StaysGone,
      UniqueKeys, ReplyPart, Flows, Agrees, Pending, StillDue, FollowUp, BelongsToInFlight, Rereads;
    TailMarked(w);
    var calm := v.(tables := map x | x in v.tables && (Agrees(v, x) || Pending(v, x)) :: v.tables[x]);
    CalmCoherent(v, calm);
    FlowsCoherent(calm, d);
    forall x | x in w.tables
      ensures Agrees(v.(core := d), x) || Pending(v.(core := d), x)
    {
      if x in calm.tables {
        CalmAgrees(calm.(core := d), v.(core := d), x);
      } else {
        assert Changed(w, x);
        InStepHandled(v);
        ChangedDue(w, v, d, x);
      }
    }
    EndTogether(v.(core := d), calm.(core := d));
  }

  lemma InStepHandled(v: World)
    requires InStep(v) && v.core.path.inFlight.None?
    ensures v.handled == |v.core.path.link.sent|
  {
  }

  lemma LastOfReply(w: World)
    requires w.wire != [] && w.wire[0].reply && ReplyPart(w.wire[1..]) == []
    ensures forall x :: Changed(w, x) ==> !IsError(w.wire[0].frame)
  {
    assert ReplyPart(w.wire) == [w.wire[0].frame];
  }

  lemma TailMarked(w: World)
    requires PushesMarked(w) && w.wire != []
    ensures PushesMarked(w.(wire := w.wire[1..]))
  {
  }

  /** Looking away from the items a just accepted command has changed, all is coherent. */
  lemma CalmCoherent(v: World, calm: World)
    requires Withheld(v) && StaysGone(v) && UniqueKeys(v.core.db.contacts)
    requires calm == v.(tables := map x | x in v.tables && (Agrees(v, x) || Pending(v, x)) :: v.tables[x])
    ensures CoherenceInv(calm)
  {
    hide Latest, Withdraws, UniqueKeys;
    forall x | x in calm.tables
      ensures Agrees(calm, x) || Pending(calm, x)
    {
      CalmAgrees(v, calm, x);
    }
  }

  lemma CalmAgrees(v: World, calm: World, x: Item)
    requires calm == v.(tables := calm.tables) && x in v.tables && x in calm.tables && v.tables[x] == calm.tables[x]
    ensures Agrees(v, x) == Agrees(calm, x) && Pending(v, x) == Pending(calm, x)
  {
    hide Latest, ReplyPart, Rereads, FollowUp;
    assert Announced(v, x) == Announced(calm, x);
  }

  lemma EndTogether(v: World, calm: World)
    requires CoherenceInv(calm) && calm == v.(tables := calm.tables) && calm.tables.Keys <= v.tables.Keys
    requires forall x :: x in v.tables ==> Agrees(v, x) || Pending(v, x)
    requires forall x :: x in v.gone ==> x !in v.tables
    ensures CoherenceInv(v)
  {
    hide Latest, Withdraws, UniqueKeys, Agrees, Pending;
  }

  lemma DeliverCoherent(w: World, now: Clock)
    requires CoherenceInv(w) && WorldInv(w) && PushesMarked(w) && Allowed(w, Deliver(now))
    ensures CoherenceInv(Act(w, Deliver(now)))
  {
    RadioStep(w.core, w.wire[0].frame, now);
    assert InStep(w);
    hide CoherenceInv, WorldInv, PushesMarked, HandleRadioRx, ReplyPart, BelongsToInFlight, InStep;
    if !w.wire[0].reply {
      DeliverPushCoherent(w, now);
    } else if ReplyPart(w.wire[1..]) == [] {
      EndCoherent(w, now);
    } else {
      ContinueCoherent(w, now);
    }
    hide Mentioned;
    OnlookersCoherent(w.(core := HandleRadioRx(w.core, w.wire[0].frame, now), wire := w.wire[1..]),
                      Act(w, Deliver(now)));
  }

  lemma OnlookersCoherent(w: World, v: World)
    requires CoherenceInv(w) && v == w.(outdated := v.outdated)
    ensures CoherenceInv(v)
  {
    hide View, LastAbout, Withdraws, UniqueKeys, ReplyPart, Rereads, FollowUp;
    forall x | x in v.tables
      ensures Agrees(v, x) || Pending(v, x)
    {
      assert Agrees(w, x) || Pending(w, x);
      if Due(w, x) {
        PathDue(w, v, x);
      }
    }
  }

  // ---------------------------------------------------------------------
  // The radio answers
  // ---------------------------------------------------------------------

  lemma FrameBelongs(a: Awaiting, reply: seq<Command>, f: Command)
    requires WholeReply(a, reply) && f in reply
    ensures a.Belongs(f[0])
  {
    var i :| 0 <= i < |reply| && reply[i] == f;
    if i < |reply| - 1 {
      assert reply[..|reply| - 1][i] == f;
    }
  }

  /** A command that withdraws an item is answered by a bare OK or ERROR. */
  lemma WithdrawalIsBare(cmd: Command, reply: seq<Command>, x: Item, f: Command)
    requires WholeReply(AwaitingFor(cmd), reply) && Withdraws(cmd, x) && f in reply
    ensures Carries(f).None?
  {
    FrameBelongs(AwaitingFor(cmd), reply, f);
    hide WholeReply;
  }

  lemma {:induction false} BareNoNews(frames: seq<Command>, x: Item)
    requires forall f :: f in frames ==> !IsAbout(f, x)
    ensures LastAbout(AsReply(frames), x) == None
  {
    hide IsAbout;
    if frames != [] {
      var front := frames[..|frames| - 1];
      assert AsReply(frames)[..|frames| - 1] == AsReply(front);
      BareNoNews(front, x);
    }
  }

  lemma HandledLatest(w: World, reply: seq<Command>, after: map<Item, Frame>, x: Item)
    requires w.handled < |w.core.path.link.sent|
    ensures var v := Act(w, Handle(reply, after));
            Latest(v.wire, v.core, x)
            == if LastAbout(AsReply(reply), x).Some? then LastAbout(AsReply(reply), x) else Latest(w.wire, w.core, x)
  {
    LastAboutAppend(w.wire, AsReply(reply), x);
    hide LastAbout, View, Removed;
  }

  lemma ChangedNow(w: World, reply: seq<Command>, after: map<Item, Frame>, x: Item)
    requires InStep(w) && w.handled < |w.core.path.link.sent| && w.core.path.inFlight.Some? && ReplyPart(w.wire) == []
    requires w.handled + 1 == |w.core.path.link.sent| && reply != [] && !IsError(reply[|reply| - 1])
    requires FollowUp(w.core.path.inFlight.value.payload).Some?
    requires Rereads(FollowUp(w.core.path.inFlight.value.payload).value.payload, x)
    ensures Changed(Act(w, Handle(reply, after)), x)
  {
    hide InStep, ReplyPart, Rereads, FollowUp, Removed;
    ReplyPartAppend(w.wire, AsReply(reply));
    ReplyPartOfReply(reply);
    assert [] + reply == reply;
  }

  /** The state of an item the answer is not about. */
  lemma UnansweredItem(w: World, reply: seq<Command>, after: map<Item, Frame>, x: Item)
    requires WorldInv(w) && CoherenceInv(w) && Allowed(w, Handle(reply, after))
    requires x in after && LastAbout(AsReply(reply), x).None?
    ensures var v := Act(w, Handle(reply, after));
            Agrees(v, x) || Pending(v, x)
  {
    var v, cmd := Act(w, Handle(reply, after)), w.core.path.link.sent[w.handled].payload;
    assert InStep(w);
    InFlightIsNext(w);
    HandledLatest(w, reply, after, x);
    TruthfulNews(reply, after, x);
    AnswersWhole(cmd, w.tables, reply, after);
    NotMentioned(reply, after, x);
    assert Rereads(cmd, x) ==> IsError(reply[|reply| - 1]);
    hide WorldInv, InStep, WholeReply, FirmwareReply, Latest, LastAbout, Rereads, FollowUp, Withdraws, Removed, Carries,
      IsAbout, Mentioned, Due, CachedOtherwise;
    if Rereads(cmd, x) {
      assert x in v.unread;
    } else if KeepsItem(w.tables, after, x) {
      assert Agrees(w, x) || Pending(w, x);
      if Due(w, x) {
        HandledDue(w, reply, after, x);
      }
    } else if FollowedUp(cmd, x) {
      ChangedNow(w, reply, after, x);
      assert Due(v, x) by { IsDue(v, x); }
    } else {
      assert x in v.unread;
    }
  }

  lemma IsDue(w: World, x: Item)
    requires Changed(w, x)
    ensures Due(w, x)
  {
    hide Changed;
  }

  /** Frames that bring no news of an item are not about it. */
  lemma NotMentioned(reply: seq<Command>, after: map<Item, Frame>, x: Item)
    requires forall f :: f in reply && Carries(f).Some? ==>
               Carries(f).value.0 in after && after[Carries(f).value.0] == Carries(f).value.1
    requires LastAbout(AsReply(reply), x).None?
    ensures x !in Mentioned(reply) && forall f :: f in reply ==> !IsAbout(f, x)
  {
    TruthfulNews(reply, after, x);
    hide Carries, LastAbout;
  }

  lemma InFlightIsNext(w: World)
    requires WorldInv(w) && w.handled < |w.core.path.link.sent|
    ensures w.core.path.inFlight.Some? && w.handled + 1 == |w.core.path.link.sent| && ReplyPart(w.wire) == []
    ensures w.core.path.link.sent[w.handled] == w.core.path.inFlight.value.Req()
  {
    SlotInv(w.core);
    hide PathInv, ReplyPart, CurrentFrames, Shaped, Faithful;
  }

  lemma HandledDue(w: World, reply: seq<Command>, after: map<Item, Frame>, x: Item)
    requires w.handled < |w.core.path.link.sent| && Due(w, x) && w.handled + 1 == |w.core.path.link.sent|
    requires w.core.path.inFlight.Some? && !Rereads(w.core.path.inFlight.value.payload, x)
    ensures Due(Act(w, Handle(reply, after)), x)
  {
    var v := Act(w, Handle(reply, after));
    hide Rereads, ReplyPart, FollowUp, Mentioned, Removed;
    if Announced(w, x) {
      var t :| t in w.wire && !t.reply && TellsOfContact(t.frame) && x == OfContact(t.frame[1..33]);
      assert t in v.wire;
      assert Announced(v, x);
    } else if Queued(w.core, x) {
      assert Queued(v.core, x);
    }
  }

  lemma HandleUpToDate(w: World, reply: seq<Command>, after: map<Item, Frame>)
    requires WorldInv(w) && CoherenceInv(w) && PushesMarked(w) && Allowed(w, Handle(reply, after))
    ensures UpToDate(Act(w, Handle(reply, after)))
  {
    var v := Act(w, Handle(reply, after));
    hide WorldInv, CoherenceInv, PushesMarked, FirmwareReply, LastAbout, View, Pending, Rereads, Carries, KeepsItem;
    forall x | x in v.tables
      ensures Agrees(v, x) || Pending(v, x)
    {
      if LastAbout(AsReply(reply), x).Some? {
        TruthfulNews(reply, after, x);
        LastAboutAppend(w.wire, AsReply(reply), x);
      } else {
        UnansweredItem(w, reply, after, x);
      }
    }
  }

  lemma HandleWithheld(w: World, reply: seq<Command>, after: map<Item, Frame>)
    requires WorldInv(w) && Withheld(w) && Allowed(w, Handle(reply, after))
    ensures Withheld(Act(w, Handle(reply, after)))
  {
    var v, cmd := Act(w, Handle(reply, after)), w.core.path.link.sent[w.handled].payload;
    InFlightIsNext(w);
    AnswersWhole(cmd, w.tables, reply, after);
    hide WorldInv, WholeReply, FirmwareReply, LastAbout, View, Rereads, Carries, KeepsItem, Withdraws;
    forall x | Withdraws(cmd, x)
      ensures Latest(v.wire, v.core, x) == None
    {
      forall f | f in reply
        ensures !IsAbout(f, x)
      {
        WithdrawalIsBare(cmd, reply, x, f);
      }
      BareNoNews(reply, x);
      LastAboutAppend(w.wire, AsReply(reply), x);
      assert Latest(w.wire, w.core, x) == None;
    }
  }

  lemma HandleGone(w: World, reply: seq<Command>, after: map<Item, Frame>)
    requires WorldInv(w) && Withheld(w) && StaysGone(w) && Allowed(w, Handle(reply, after))
    ensures StaysGone(Act(w, Handle(reply, after)))
  {
    var v, cmd := Act(w, Handle(reply, after)), w.core.path.link.sent[w.handled].payload;
    InFlightIsNext(w);
    hide WorldInv, FirmwareReply, Latest, LastAbout, Rereads, Carries, KeepsItem, AwaitingFor;
    forall x | x in v.gone
      ensures x !in v.tables && Latest(v.wire, v.core, x) == None && x.OfContact?
    {
      GoneStill(w, reply, after, x);
      TruthfulNews(reply, after, x);
      HandledLatest(w, reply, after, x);
    }
  }

  lemma GoneStill(w: World, reply: seq<Command>, after: map<Item, Frame>, x: Item)
    requires w.handled < |w.core.path.link.sent| && Withheld(w) && StaysGone(w)
    requires w.core.path.inFlight.Some? && w.core.path.link.sent[w.handled] == w.core.path.inFlight.value.Req()
    requires x in Act(w, Handle(reply, after)).gone
    ensures x !in after && x.OfContact? && Latest(w.wire, w.core, x) == None
  {
    hide Latest;
    if x !in w.gone {
      assert Withdraws(w.core.path.link.sent[w.handled].payload, x);
    }
  }

  // ---------------------------------------------------------------------
  // The other actions
  // ---------------------------------------------------------------------

  lemma InsertedAbout(wire: seq<InTransit>, at: nat, frame: Command, x: Item)
    requires at <= |wire| && IsPush(frame[0])
    ensures LastAbout(wire[..at] + [InTransit(frame, false)] + wire[at..], x) == LastAbout(wire, x)
  {
    var t := [InTransit(frame, false)];
    PushAboutNothing(frame, x);
    hide LastAbout, IsAbout;
    LastAboutAppend(wire[..at] + t, wire[at..], x);
    LastAboutAppend(wire[..at], t, x);
    LastAboutAppend(wire[..at], wire[at..], x);
    assert wire[..at] + wire[at..] == wire;
  }

  lemma PushCoherent(w: World, at: nat, frame: Command)
    requires CoherenceInv(w) && Allowed(w, Push(at, frame))
    ensures CoherenceInv(Act(w, Push(at, frame)))
  {
    var v := Act(w, Push(at, frame));
    ReplyPartInsert(w.wire, at, frame);
    hide LastAbout, View, ReplyPart, Withdraws, UniqueKeys, Pending, IsPush;
    forall x: Item
      ensures LastAbout(v.wire, x) == LastAbout(w.wire, x)
    {
      InsertedAbout(w.wire, at, frame, x);
    }
    assert forall t :: t in w.wire ==> t in v.wire by { InsertedKeeps(w.wire, at, InTransit(frame, false)); }
    forall x | x in v.tables
      ensures Agrees(v, x) || Pending(v, x)
    {
      assert Agrees(w, x) || Pending(w, x);
      if Due(w, x) {
        MoreOnWire(w, v, x);
      }
    }
    SameLatest(w, v);
  }

  lemma InsertedKeeps(wire: seq<InTransit>, at: nat, t: InTransit)
    requires at <= |wire|
    ensures forall s :: s in wire ==> s in wire[..at] + [t] + wire[at..]
  {
    assert wire == wire[..at] + wire[at..];
  }

  /** More pushes on the wire leave pending what was. */
  lemma MoreOnWire(w: World, v: World, x: Item)
    requires Due(w, x) && v == w.(wire := v.wire, tables := v.tables, gone := v.gone)
    requires ReplyPart(v.wire) == ReplyPart(w.wire) && forall t :: t in w.wire ==> t in v.wire
    ensures Due(v, x)
  {
    hide ReplyPart, Rereads, FollowUp;
    if Announced(w, x) {
      var t :| t in w.wire && !t.reply && TellsOfContact(t.frame) && x == OfContact(t.frame[1..33]);
      assert t in v.wire;
    }
  }

  lemma AnnounceCoherent(w: World, frame: Command, value: Frame)
    requires CoherenceInv(w) && Allowed(w, Announce(frame, value))
    ensures CoherenceInv(Act(w, Announce(frame, value)))
  {
    var v, t := Act(w, Announce(frame, value)), InTransit(frame, false);
    ReplyPartAppend(w.wire, [t]);
    PushIsNoReply(frame);
    forall x: Item
      ensures LastAbout(v.wire, x) == LastAbout(w.wire, x)
    {
      PushAboutNothing(frame, x);
      LastAboutAppend(w.wire, [t], x);
      hide LastAbout;
    }
    hide LastAbout, View, ReplyPart, Withdraws, UniqueKeys, Rereads, FollowUp;
    forall x | x in v.tables
      ensures Agrees(v, x) || Pending(v, x)
    {
      if x == OfContact(frame[1..33]) {
        assert t in v.wire;
        assert Announced(v, x);
      } else {
        assert Agrees(w, x) || Pending(w, x);
        if Due(w, x) {
          MoreOnWire(w, v, x);
        }
      }
    }
    SameLatest(w.(tables := v.tables, gone := v.gone), v);
  }

  lemma ForgetCoherent(w: World, x: Item)
    requires CoherenceInv(w)
    ensures CoherenceInv(Act(w, Forget(x)))
  {
    var v := Act(w, Forget(x));
    hide LastAbout, View, ReplyPart, Withdraws, UniqueKeys, Rereads, FollowUp;
    forall y | y in v.tables
      ensures Agrees(v, y) || Pending(v, y)
    {
      assert Agrees(w, y) || Pending(w, y);
      if Due(w, y) {
        MoreOnWire(w, v, y);
      }
    }
  }

  // ---------------------------------------------------------------------
  // A new link
  // ---------------------------------------------------------------------

  lemma {:induction false} AttemptsKeepContacts(c: Core, attempts: seq<Option<SelfInfoFrame>>, now: Clock)
    ensures FailedAttempts(c, attempts, now).db.contacts == c.db.contacts
  {
    if attempts != [] {
      hide CacheResponse;
      AttemptsKeepContacts(c, attempts[..|attempts| - 1], now);
      if attempts[|attempts| - 1].Some? {
        CachedOther(FailedAttempts(c, attempts[..|attempts| - 1], now), attempts[|attempts| - 1].value, now);
      }
    }
  }

  lemma {:induction false} FailQueueKeepsContacts(c: Core)
    ensures FailQueue(c).db == c.db
    decreases |c.path.queue|
  {
    if c.path.queue != [] {
      FailQueueKeepsContacts(Fail(WithQueue(c, c.path.queue[1..]), c.path.queue[0], []));
    }
  }

  lemma LoseRadioKeepsContacts(c: Core)
    ensures LoseRadio(c).db == c.db
  {
    FailQueueKeepsContacts(WithLink(FailInFlight(c), NO_LINK));
    hide FailQueue;
  }

  lemma HandshakeCached(c: Core, r: Reconnection, now: Clock)
    ensures var d := InitializeRadio(c, r, now);
            d.db.contacts == c.db.contacts && d.mem.selfInfo == Some(r.selfInfo)
            && (r.deviceInfo.Some? ==> d.mem.deviceInfo == r.deviceInfo)
  {
    CachedOther(c, r.selfInfo, now);
    hide CacheResponse;
    if r.deviceInfo.Some? {
      CachedOther(CacheResponse(c, r.selfInfo, now), r.deviceInfo.value, now);
    }
  }

  /** What is cached and asked for right after a reconnection. */
  lemma ReconnectCached(c: Core, r: Reconnection, now: Clock)
    ensures var d := ReconnectRadio(c, r, now);
            d.db.contacts == c.db.contacts && d.mem.selfInfo == Some(r.selfInfo)
            && (r.deviceInfo.Some? ==> d.mem.deviceInfo == r.deviceInfo)
            && NewLink(d) && (d.path.inFlight.Some? <==> CanSend(d))
            && (d.path.inFlight.Some? ==> d.path.inFlight.value.payload == FULL_SYNC)
            && forall i: byte :: (i as int) < d.mem.maxChannels ==> Request(None, [0x1F, i]) in d.path.queue
  {
    ReconnectStarts(c, r, now);
    LoseRadioKeepsContacts(c);
    hide ReconnectRadio, LoseRadio, FailedAttempts, InitializeRadio, SyncFromRadio, NewLink, SyncCommands;
    var c1 := LoseRadio(c);
    AttemptsKeepContacts(c1.(live := c.live - r.left), r.attempts, now);
    var c2 := FailedAttempts(c1.(live := c.live - r.left), r.attempts, now);
    var c3 := InitializeRadio(WithLink(c2, Link(true, r.open, [], [])), r, now);
    HandshakeCached(WithLink(c2, Link(true, r.open, [], [])), r, now);
    SyncStarts(c3, now);
    SyncHead(c3.mem.maxChannels);
    LiveOnlyLost(c, r);
  }

  lemma LiveOnlyLost(c: Core, r: Reconnection)
    ensures LoseRadio(c).(live := c.live - r.left) == LoseRadio(c).(live := LoseRadio(c).live - r.left)
  {
    LoseRadioQuiet(c);
    hide LoseRadio;
  }

  /** A link as it is after a handshake: everything is current, asked for, or known not to be asked for. */
  lemma NewLinkUpToDate(w: World, r: Reconnection)
    requires w.handled == 0 && w.wire == [] && NewLink(w.core) && w.unsynced == NotAskedFor(w.core, r)
    requires OfSelf in w.tables && w.tables[OfSelf] == r.selfInfo && w.core.mem.selfInfo == Some(r.selfInfo)
    requires r.deviceInfo.Some? ==>
               OfDevice in w.tables && w.tables[OfDevice] == r.deviceInfo.value && w.core.mem.deviceInfo == r.deviceInfo
    requires w.core.path.inFlight.Some? <==> CanSend(w.core)
    requires w.core.path.inFlight.Some? ==> w.core.path.inFlight.value.payload == FULL_SYNC
    requires forall i: byte :: (i as int) < w.core.mem.maxChannels ==> Request(None, [0x1F, i]) in w.core.path.queue
    ensures UpToDate(w) && Withheld(w)
  {
    hide FindContact, ContactFrame, ChannelFrame;
    forall x | x in w.tables
      ensures Agrees(w, x) || Pending(w, x)
    {
      match x {
        case OfContact(key) =>
          if CanSend(w.core) {
            assert Asked(w, x);
          } else {
            assert CutOff(w.core, x);
          }
        case OfChannel(idx) =>
          if (idx as int) < w.core.mem.maxChannels {
            assert Request(None, [0x1F, idx]) in w.core.path.queue;
            assert Queued(w.core, x);
          } else if idx as int in w.core.db.channels {
            assert x in w.unsynced;
          }
        case OfSelf =>
        case OfDevice =>
      }
    }
  }

  lemma RenewCoherent(w: World, r: Reconnection, after: map<Item, Frame>, now: Clock)
    requires CoherenceInv(w) && Allowed(w, Renew(r, after, now))
    ensures CoherenceInv(Act(w, Renew(r, after, now)))
  {
    hide ReconnectRadio, NewLink, UniqueKeys, UpToDate, Withheld, NotAskedFor, CachedOtherwise;
    var v := Act(w, Renew(r, after, now));
    ReconnectCached(w.core, r, now);
    NewLinkUpToDate(v, r);
    forall x | x in v.gone
      ensures x !in v.tables && Latest(v.wire, v.core, x) == None && x.OfContact?
    {
      assert Latest(w.wire, w.core, x) == None;
      assert View(v.core, x) == View(w.core, x);
    }
  }

  lemma ActCoherent(w: World, a: Action)
    requires CoherenceInv(w) && WorldInv(w) && PushesMarked(w) && Allowed(w, a)
    ensures CoherenceInv(Act(w, a))
  {
    assert InStep(w) && UpToDate(w) && Withheld(w) && StaysGone(w);
    hide WorldInv, PushesMarked, InStep, Step, Answers, UniqueKeys, UpToDate, Withheld, StaysGone, BelongsToInFlight;
    match a {
      case Own(i, now) => OwnCoherent(w, i, now);
      case Deliver(now) => DeliverCoherent(w, now);
      case Handle(reply, after) =>
        HandleUpToDate(w, reply, after);
        HandleWithheld(w, reply, after);
        HandleGone(w, reply, after);
      case Push(at, frame) => PushCoherent(w, at, frame);
      case Announce(frame, value) => AnnounceCoherent(w, frame, value);
      case Forget(x) => ForgetCoherent(w, x);
      case Renew(r, after, now) => RenewCoherent(w, r, after, now);
    }
  }

  // ---------------------------------------------------------------------
  // Runs
  // ---------------------------------------------------------------------

  /** Restoring old blobs fills in DEVICE_INFO where the handshake brought none, and nothing else that is shown. */
  lemma Restored(c: Core)
    requires c.mem.selfInfo.Some?
    ensures var d := RestoreBlobs(c);
            d == c.(mem := d.mem) && d.mem.selfInfo == c.mem.selfInfo
            && (c.mem.deviceInfo.Some? ==> d.mem.deviceInfo == c.mem.deviceInfo)
  {
    RestoreOnlyMemory(c);
    hide ExtractMaxChannels;
    if c.mem.deviceInfo.None? && DeviceInfo in c.db.blobs {
      ExtractOnly(c, c.db.blobs[DeviceInfo]);
    }
  }

  lemma ExtractOnly(c: Core, blob: Frame)
    ensures ExtractMaxChannels(c, blob).mem.selfInfo == c.mem.selfInfo
  {
  }

  lemma BeginCoherent(retention: Retention, backlog: Backlog, db: Tables, r: Reconnection, tables: map<Item, Frame>,
                      now: Clock)
    requires Truthful(r, tables) && UniqueKeys(db.contacts)
    ensures CoherenceInv(Begin(retention, backlog, db, r, tables, now))
  {
    var f, w := Fresh(retention, backlog, db), Begin(retention, backlog, db, r, tables, now);
    var c := ReconnectRadio(f, r, now);
    ReconnectCached(f, r, now);
    Restored(c);
    hide ReconnectRadio, RestoreBlobs, NewLink, UniqueKeys, CachedOtherwise, NotAskedFor;
    assert w.core == c.(mem := w.core.mem);
    NewLinkUpToDate(w.(core := c), r);
    NotAskedDevice(c, r);
    RestoredUpToDate(w, c, r);
  }

  lemma NotAskedDevice(c: Core, r: Reconnection)
    ensures r.deviceInfo.None? ==> OfDevice in NotAskedFor(c, r)
  {
  }

  lemma RestoredUpToDate(w: World, c: Core, r: Reconnection)
    requires UpToDate(w.(core := c)) && Withheld(w.(core := c)) && w.gone == {} && UniqueKeys(c.db.contacts)
    requires w.core == c.(mem := w.core.mem) && w.core.mem.selfInfo == c.mem.selfInfo
    requires r.deviceInfo.Some? ==> w.core.mem.deviceInfo == c.mem.deviceInfo
    requires r.deviceInfo.None? ==> OfDevice in w.unsynced
    requires w.core.path.inFlight.Some? ==> w.core.path.inFlight.value.payload == FULL_SYNC
    ensures CoherenceInv(w)
  {
    var u := w.(core := c);
    hide FindContact, ContactFrame, ChannelFrame, LastAbout, UniqueKeys, ReplyPart;
    forall x | x in w.tables
      ensures Agrees(w, x) || Pending(w, x)
    {
      assert Agrees(u, x) || Pending(u, x);
      if Due(u, x) {
        PathDue(u, w, x);
      }
    }
  }

  lemma {:induction false} UnfoldCoherent(worlds: seq<World>, actions: seq<Action>)
    requires Unfolds(worlds, actions) && WorldInv(worlds[0]) && PushesMarked(worlds[0]) && CoherenceInv(worlds[0])
    ensures CoherenceInv(worlds[|worlds| - 1])
  {
    hide WorldInv, PushesMarked, Act, Allowed, CoherenceInv;
    if actions != [] {
      var n := |actions| - 1;
      UnfoldPrefix(worlds, actions);
      hide Unfolds;
      UnfoldCoherent(worlds[..n + 1], actions[..n]);
      UnfoldKeeps(worlds[..n + 1], actions[..n]);
      ActCoherent(worlds[n], actions[n]);
    }
  }

  lemma OpeningCoherent(w: World)
    requires Opening(w)
    ensures CoherenceInv(w)
  {
    hide CoherenceInv, Begin, UniqueKeys, Truthful;
    var retention, backlog, db: Tables, r: Reconnection, tables: map<Item, Frame>, now :|
      Truthful(r, tables) && UniqueKeys(db.contacts) && w == Begin(retention, backlog, db, r, tables, now);
    BeginCoherent(retention, backlog, db, r, tables, now);
  }

  lemma PossibleCoherent(w: World)
    requires Possible(w)
    ensures CoherenceInv(w)
  {
    hide WorldInv, PushesMarked, Unfolds, Opening, CoherenceInv;
    var worlds: seq<World>, actions: seq<Action> :| LeadsTo(worlds, actions, w);
    OpeningInv(worlds[0]);
    OpeningCoherent(worlds[0]);
    UnfoldCoherent(worlds, actions);
  }

  /** In front of a radio that answers in order and announces its own changes, a cached contact the radio holds is
      served as the radio holds it; or a frame about it, or the announcement of a change, is on the wire; or a
      command that re-reads it is queued or in flight; or a command that changes it and is followed up has just been
      accepted; or the link is closed; or the radio has refused to tell it, or changed it by a command that is not
      followed up, and has said nothing of it since. The row served is the only one under its key. */
  lemma ContactsAreCoherent(w: World, key: Frame, row: Contact)
    requires Possible(w) && row in w.core.db.contacts && row.key == key && OfContact(key) in w.tables
    ensures ContactFrame(row) == w.tables[OfContact(key)]
            || LastAbout(w.wire, OfContact(key)).Some? || Announced(w, OfContact(key))
            || Queued(w.core, OfContact(key)) || Asked(w, OfContact(key)) || Changed(w, OfContact(key))
            || !CanSend(w.core)
            || OfContact(key) in w.unread
  {
    PossibleCoherent(w);
    FindContactExact(w.core.db.contacts, key);
    PossibleUnsynced(w, OfContact(key));
    hide Possible, LastAbout, FindContact, ContactFrame, Withheld, StaysGone, UniqueKeys, Rereads;
    assert View(w.core, OfContact(key)) == Some(ContactFrame(row));
    assert Agrees(w, OfContact(key)) || Pending(w, OfContact(key));
  }

  /** Contacts are always asked for. */
  lemma PossibleUnsynced(w: World, x: Item)
    requires Possible(w) && (x.OfContact? || x.OfSelf?)
    ensures x !in w.unsynced
  {
    hide Unfolds, Opening;
    var worlds: seq<World>, actions: seq<Action> :| LeadsTo(worlds, actions, w);
    OpeningAsked(worlds[0], x);
    UnfoldAsked(worlds, actions, x);
  }

  lemma OpeningAsked(w: World, x: Item)
    requires Opening(w) && (x.OfContact? || x.OfSelf?)
    ensures x !in w.unsynced
  {
    hide ReconnectRadio, Start, UniqueKeys, Truthful, CachedOtherwise;
  }

  lemma {:induction false} UnfoldAsked(worlds: seq<World>, actions: seq<Action>, x: Item)
    requires Unfolds(worlds, actions) && x !in worlds[0].unsynced && (x.OfContact? || x.OfSelf?)
    ensures x !in worlds[|worlds| - 1].unsynced
  {
    if actions != [] {
      UnfoldPrefix(worlds, actions);
      hide Unfolds;
      UnfoldAsked(worlds[..|actions|], actions[..|actions| - 1], x);
      hide Step, Allowed, CachedOtherwise, Mentioned, Neglected, Touched, Removed;
    }
  }

  /** A contact whose removal the radio has accepted is neither cached nor on the
      wire, until the radio holds it again. */
  lemma RemovedStaysRemoved(w: World, x: Item)
    requires Possible(w) && x in w.gone
    ensures x.OfContact? && View(w.core, x) == None && LastAbout(w.wire, x) == None && x !in w.tables
  {
    PossibleCoherent(w);
    hide Possible, View, LastAbout, UpToDate, Withheld, UniqueKeys;
    assert Latest(w.wire, w.core, x) == None;
  }

  /** A cached channel the radio holds is served as the radio holds it; or its frame is on the wire, or the question
      for it is queued or unanswered; or the radio has refused to tell it, or a command has changed it that is not
      SET_CHANNEL for it, and has said nothing of it since; or the link is closed; or the synchronisation after the
      handshake left it out, its index being beyond the number of channels. */
  lemma ChannelsAreCoherent(w: World, idx: byte)
    requires Possible(w) && idx as int in w.core.db.channels && OfChannel(idx) in w.tables
    ensures ChannelFrame(w.core.db.channels[idx as int]) == w.tables[OfChannel(idx)]
            || LastAbout(w.wire, OfChannel(idx)).Some?
            || (exists q :: q in w.core.path.queue && q.client.None? && q.payload == [0x1F, idx])
            || (w.core.path.inFlight.Some? && w.core.path.inFlight.value.payload == [0x1F, idx]
                && w.handled + 1 == |w.core.path.link.sent|)
            || !CanSend(w.core) || OfChannel(idx) in w.unsynced || OfChannel(idx) in w.unread
  {
    PossibleCoherent(w);
    hide Possible, LastAbout, ChannelFrame, Withheld, StaysGone, UniqueKeys, ReplyPart;
    assert Agrees(w, OfChannel(idx)) || Pending(w, OfChannel(idx));
    NeverChanged(w, idx);
  }

  /** No follow-up re-reads a channel, and no push announces one. */
  lemma NeverChanged(w: World, idx: byte)
    ensures !Changed(w, OfChannel(idx)) && !Announced(w, OfChannel(idx))
  {
    hide ReplyPart;
  }

  /** While a command that withdraws a channel, contact or the radio's own data is in flight, none is served. */
  lemma WithdrawnIsNotServed(w: World, x: Item)
    requires Possible(w) && w.core.path.inFlight.Some? && Withdraws(w.core.path.inFlight.value.payload, x)
    ensures View(w.core, x) == None && LastAbout(w.wire, x) == None
  {
    PossibleCoherent(w);
    hide Possible, View, LastAbout, UpToDate, StaysGone, UniqueKeys;
    assert Latest(w.wire, w.core, x) == None;
  }
}
