/** Exactly when a cached item is stale: it was cached otherwise than the radio held it when the link began, or when
    the radio last changed it, told it or refused to tell it, and no frame about it has been read since. Of contacts,
    which the radio changes by itself, this holds while no news of them is under way. */
module Freshness {
  import opened Bytes
  import opened Protocol
  import opened Store
  import opened CoreState
  import opened RadioPath
  import opened Outcomes
  import opened Links
  import opened Requests
  import opened Frames
  import opened Flow
  import opened Firmware
  import opened Environment
  import opened Coherence

  /** Every frame about the item on the wire says the same. */
  ghost predicate AllSay(wire: seq<InTransit>, x: Item, v: Frame) {
    forall t :: t in wire && IsAbout(t.frame, x) ==> Carries(t.frame).value.1 == v
  }

  /** Whatever is on its way about the item is what the radio holds now, and so is what is cached unless it is
      noted as outdated. */
  ghost predicate Current(w: World, x: Item) {
    x in w.tables ==>
      (View(w.core, x).Some? ==> (View(w.core, x) == Some(w.tables[x]) <==> x !in w.outdated))
      && AllSay(w.wire, x, w.tables[x])
  }

  // ---------------------------------------------------------------------
  // Steps only drop what is cached, or cache what comes in
  // ---------------------------------------------------------------------

  lemma FlowsView(c: Core, d: Core, x: Item)
    requires Flows(c, d)
    ensures View(d, x) == None || View(d, x) == View(c, x)
  {
    if SameSlot(c, d) && SameCache(c, d) {
      SameViews(c, d, x);
    } else {
      WithdrawnView(c, d.path.inFlight.value.payload, x);
      SameViews(Invalidate(c, d.path.inFlight.value.payload), d, x);
    }
    hide View, Invalidate, QueueFlows;
  }

  lemma MaintenanceView(c: Core, now: Clock, x: Item)
    requires UniqueKeys(c.db.contacts)
    ensures View(RunMaintenance(c, now), x) == None || View(RunMaintenance(c, now), x) == View(c, x)
  {
    var c1 := RequestFullSync(c, now);
    RequestFullSyncFlows(c, now);
    FlowsView(c, c1, x);
    FlowsUnique(c, c1);
    MaintainedTables(c1.db, c1.conf.retention, now.unix);
    if x.OfContact? {
      TrimmedContact(c1.db.contacts, RunMaintenance(c, now).db.contacts, x.key);
    }
    hide RequestFullSync, Flows, Maintain, UniqueKeys, FindContact, ContactFrame, ChannelFrame;
  }

  lemma FlowsUnique(c: Core, d: Core)
    requires Flows(c, d) && UniqueKeys(c.db.contacts)
    ensures UniqueKeys(d.db.contacts)
  {
    hide UniqueKeys, Invalidate, QueueFlows;
    if !SameCache(c, d) {
      UniqueStays(c, d.path.inFlight.value.payload);
    }
  }

  lemma OwnView(c: Core, i: Input, now: Clock, x: Item)
    requires UniqueKeys(c.db.contacts) && !i.Radio? && !i.Reconnect? && (i.TimeoutTick? ==> !TimedOut(c, now))
    ensures View(Step(c, i, now), x) == None || View(Step(c, i, now), x) == View(c, x)
  {
    hide HandleClientCommand, RunMaintenance, Flows, UniqueKeys;
    match i {
      case Connect =>
      case Disconnect(_) =>
      case Command(cmd) =>
        CommandFlows(c, cmd, now);
        FlowsView(c, HandleClientCommand(c, cmd, now), x);
      case TimeoutTick =>
      case MaintenanceTick =>
        MaintenanceView(c, now, x);
      case LinkCloses =>
    }
  }

  lemma RouteView(c: Core, p: Command, now: Clock, x: Item)
    requires SlotIsLastSent(c) && BelongsToInFlight(c, p)
    ensures View(RouteToInFlight(c, p, now), x) == None || View(RouteToInFlight(c, p, now), x) == View(c, x)
  {
    var f := c.path.inFlight.value;
    var c1 := Forward(c, f, p, now);
    ForwardFlow(c, p, now);
    SameViews(c, c1, x);
    hide Forward, Complete, AwaitingFor, SlotIsLastSent, FollowUp;
    if f.awaiting.Completes(p[0]) {
      CompleteFlows(c1, f, p, now);
      SameViews(c1, WithSlot(c1, None), x);
      hide View;
      FlowsView(WithSlot(c1, None), Complete(c1, f, p, now), x);
    } else {
      SameViews(c1, WithSlot(c1, Some(f.(lastActivity := now.mono))), x);
    }
  }

  lemma RadioView(c: Core, p: Command, now: Clock, x: Item)
    requires SlotIsLastSent(c)
    ensures var after := View(HandleRadioRx(c, p, now), x);
            after == None || after == if IsAbout(p, x) then Some(Carries(p).value.1) else View(c, x)
  {
    CachedView(c, p, now, x);
    CacheUnanswered(c, p, now);
    var c1 := CacheResponse(c, p, now);
    assert SlotIsLastSent(c1);
    hide CacheResponse, View, RouteToInFlight, HandlePush, Flows, IsAbout, Carries, SlotIsLastSent;
    if BelongsToInFlight(c1, p) {
      RouteView(c1, p, now, x);
    } else if MatchesAck(c1, p) {
      SameViews(c1, RouteAck(c1, p), x);
    } else if IsPush(p[0]) {
      PushFlows(c1, p, now);
      FlowsView(c1, HandlePush(c1, p, now), x);
    }
  }

  // ---------------------------------------------------------------------
  // The invariant
  // ---------------------------------------------------------------------

  lemma DeliverCurrent(w: World, now: Clock, x: Item)
    requires Current(w, x) && WorldInv(w) && w.wire != []
    ensures Current(Act(w, Deliver(now)), x)
  {
    hide View, HandleRadioRx, Step, IsAbout, Carries, Shaped, InStep, Faithful;
    SlotInv(w.core);
    hide PathInv, SlotIsLastSent;
    var t := w.wire[0];
    assert t in w.wire && forall s :: s in w.wire[1..] ==> s in w.wire;
    RadioView(w.core, t.frame, now, x);
    RadioStep(w.core, t.frame, now);
    MentionedOne(t.frame, x);
    hide Mentioned;
  }

  lemma MentionedOne(p: Command, x: Item)
    ensures x in Mentioned([p]) <==> IsAbout(p, x)
  {
    assert p in [p];
    hide Carries;
  }

  lemma {:induction false} NoneAbout(wire: seq<InTransit>, x: Item)
    requires LastAbout(wire, x) == None
    ensures forall t :: t in wire ==> !IsAbout(t.frame, x)
  {
    hide IsAbout;
    if wire != [] {
      var n := |wire| - 1;
      NoneAbout(wire[..n], x);
      assert wire == wire[..n] + [wire[n]];
    }
  }

  /** Before an answer nothing about any item is on the wire. */
  lemma QuietWire(w: World, x: Item)
    requires WorldInv(w) && PushesMarked(w) && w.handled < |w.core.path.link.sent|
    ensures forall t :: t in w.wire ==> !IsAbout(t.frame, x)
  {
    InFlightIsNext(w);
    NoReplyNoNews(w.wire, x);
    NoneAbout(w.wire, x);
    hide IsAbout, WorldInv, ReplyPart, LastAbout;
  }

  /** After an answer the frames on the wire are its own, and true. */
  lemma HandledSay(w: World, reply: seq<Command>, after: map<Item, Frame>, x: Item)
    requires WorldInv(w) && PushesMarked(w) && Allowed(w, Handle(reply, after)) && x in after
    ensures AllSay(Act(w, Handle(reply, after)).wire, x, after[x])
  {
    var v := Act(w, Handle(reply, after));
    QuietWire(w, x);
    hide WorldInv, PushesMarked, Carries, Rereads, FirmwareReply, Touched, Neglected, CachedOtherwise, Removed,
      Mentioned;
    forall t | t in v.wire && IsAbout(t.frame, x)
      ensures Carries(t.frame).value.1 == after[x]
    {
      assert t !in w.wire && t.frame in reply;
    }
  }

  /** What an answer bears on is noted as outdated exactly if it is; the rest is as it was. */
  lemma HandledNotes(w: World, reply: seq<Command>, after: map<Item, Frame>, x: Item)
    requires w.handled < |w.core.path.link.sent|
    ensures var v := Act(w, Handle(reply, after));
            var touched := Touched(w.core.path.link.sent[w.handled].payload, w.tables, reply, after);
            v.core == w.core && v.tables == after
            && (x in v.outdated <==> if x in touched then x in CachedOtherwise(w.core, after) else x in w.outdated)
  {
    hide Touched, Neglected, CachedOtherwise, Removed, Mentioned;
  }

  lemma TouchedIs(cmd: Command, before: map<Item, Frame>, reply: seq<Command>, after: map<Item, Frame>, x: Item)
    requires reply != []
    ensures x in Touched(cmd, before, reply, after)
            <==> (x in after && !KeepsItem(before, after, x))
                 || (IsError(reply[|reply| - 1]) && x in after && Rereads(cmd, x))
                 || exists f :: f in reply && IsAbout(f, x)
  {
    hide Rereads, Carries;
    assert x in Mentioned(reply) <==> exists f :: f in reply && IsAbout(f, x);
    hide Mentioned, IsAbout;
  }

  lemma CachedIs(c: Core, held: map<Item, Frame>, x: Item)
    ensures x in CachedOtherwise(c, held) <==> x in held && View(c, x).Some? && View(c, x) != Some(held[x])
  {
    hide View;
  }

  lemma HandleCurrent(w: World, reply: seq<Command>, after: map<Item, Frame>, x: Item)
    requires WorldInv(w) && PushesMarked(w) && Allowed(w, Handle(reply, after))
    requires Current(w, x) || x in Touched(w.core.path.link.sent[w.handled].payload, w.tables, reply, after)
    ensures Current(Act(w, Handle(reply, after)), x)
  {
    var cmd := w.core.path.link.sent[w.handled].payload;
    AnswersWhole(cmd, w.tables, reply, after);
    HandledNotes(w, reply, after, x);
    TouchedIs(cmd, w.tables, reply, after, x);
    CachedIs(w.core, after, x);
    if x in after {
      HandledSay(w, reply, after, x);
    }
    hide View, WorldInv, PushesMarked, Allowed, Act, Touched, CachedOtherwise, AllSay, Rereads, IsAbout;
  }

  lemma PushCurrent(w: World, at: nat, frame: Command, x: Item)
    requires Current(w, x) && Allowed(w, Push(at, frame))
    ensures Current(Act(w, Push(at, frame)), x)
  {
    PushAboutNothing(frame, x);
    hide View, LastAbout, IsAbout, Carries, IsPush;
    assert w.wire == w.wire[..at] + w.wire[at..];
  }

  lemma AnnounceCurrent(w: World, frame: Command, value: Frame, x: Item)
    requires Current(w, x) && Allowed(w, Announce(frame, value)) && x != OfContact(frame[1..33])
    ensures Current(Act(w, Announce(frame, value)), x)
  {
    PushAboutNothing(frame, x);
    hide View, LastAbout, IsAbout, Carries;
  }

  /** On a fresh link nothing is on the wire, and what is cached otherwise is noted. */
  lemma FreshCurrent(w: World, x: Item)
    requires w.wire == [] && w.outdated == CachedOtherwise(w.core, w.tables)
    ensures Current(w, x)
  {
    hide View;
  }

  lemma OwnCurrent(w: World, i: Input, now: Clock, x: Item)
    requires Current(w, x) && Allowed(w, Own(i, now)) && UniqueKeys(w.core.db.contacts)
    ensures Current(Act(w, Own(i, now)), x)
  {
    OwnView(w.core, i, now, x);
    hide View, Step, UniqueKeys;
  }

  lemma ForgetCurrent(w: World, y: Item, x: Item)
    requires Current(w, x)
    ensures Current(Act(w, Forget(y)), x)
  {
    hide View;
  }

  lemma ActCurrent(w: World, a: Action, x: Item)
    requires Current(w, x) && WorldInv(w) && PushesMarked(w) && UniqueKeys(w.core.db.contacts) && Allowed(w, a)
    requires a.Announce? ==> x != OfContact(a.frame[1..33])
    ensures Current(Act(w, a), x)
  {
    hide WorldInv, PushesMarked, Answers, Current, BelongsToInFlight, Step, CachedOtherwise, UniqueKeys;
    match a {
      case Own(i, now) => OwnCurrent(w, i, now, x);
      case Deliver(now) => DeliverCurrent(w, now, x);
      case Handle(reply, after) => HandleCurrent(w, reply, after, x);
      case Push(at, frame) => PushCurrent(w, at, frame, x);
      case Announce(frame, value) => AnnounceCurrent(w, frame, value, x);
      case Forget(y) => ForgetCurrent(w, y, x);
      case Renew(_, _, _) => FreshCurrent(Act(w, a), x);
    }
  }

  // ---------------------------------------------------------------------
  // News of a contact stays under way until it has been answered
  // ---------------------------------------------------------------------

  lemma FlowsDue(w: World, d: Core, x: Item)
    requires InStep(w) && Flows(w.core, d) && Due(w, x)
    ensures Due(w.(core := d), x)
  {
    hide Due, QueueFlows, SameCache, ReplyPart, CurrentFrames, Invalidate;
    if SameSlot(w.core, d) && SameCache(w.core, d) {
      SameSlotDue(w, d, x);
    } else {
      NewSlotDue(w, d, x);
    }
  }

  lemma MaintenanceDue(w: World, now: Clock, x: Item)
    requires InStep(w) && Due(w, x)
    ensures Due(w.(core := RunMaintenance(w.core, now)), x)
  {
    var c1 := RequestFullSync(w.core, now);
    RequestFullSyncFlows(w.core, now);
    hide RequestFullSync, Flows, InStep, Due, Maintain;
    FlowsDue(w, c1, x);
    PathDue(w.(core := c1), w.(core := RunMaintenance(w.core, now)), x);
  }

  lemma OwnDue(w: World, i: Input, now: Clock, x: Item)
    requires InStep(w) && Allowed(w, Own(i, now)) && Due(w, x) && x.OfContact?
    ensures Due(w.(core := Step(w.core, i, now)), x)
  {
    hide HandleClientCommand, RunMaintenance, Flows, InStep;
    match i {
      case Connect => PathDue(w, w.(core := Step(w.core, i, now)), x);
      case Disconnect(_) => PathDue(w, w.(core := Step(w.core, i, now)), x);
      case Command(cmd) =>
        hide Due;
        CommandFlows(w.core, cmd, now);
        FlowsDue(w, HandleClientCommand(w.core, cmd, now), x);
      case TimeoutTick =>
        assert w.(core := w.core) == w;
      case MaintenanceTick => MaintenanceDue(w, now, x);
      case LinkCloses =>
        assert CutOff(Step(w.core, i, now), x);
    }
  }

  lemma PushDue(w: World, now: Clock, x: Item)
    requires InStep(w) && PushesMarked(w) && Allowed(w, Deliver(now)) && !w.wire[0].reply && Due(w, x)
    ensures Due(w.(core := HandleRadioRx(w.core, w.wire[0].frame, now), wire := w.wire[1..]), x)
  {
    var p, c := w.wire[0].frame, w.core;
    assert w.wire[0] in w.wire;
    PushPlain(c, p, now);
    assert ReplyPart(w.wire[1..]) == ReplyPart(w.wire);
    hide Due, InStep, PushesMarked, HandlePush, Flows, CacheResponse, ReplyPart;
    var d := HandleRadioRx(c, p, now);
    if MatchesAck(c, p) {
      StillFlows(c, d);
    } else {
      PushFlows(c, p, now);
    }
    FlowsDue(w, d, x);
    PushTakenDue(w, d, x);
  }

  lemma MidReplyDue(w: World, now: Clock, x: Item)
    requires WorldInv(w) && w.wire != [] && w.wire[0].reply && ReplyPart(w.wire[1..]) != [] && Due(w, x)
    ensures Due(w.(core := HandleRadioRx(w.core, w.wire[0].frame, now), wire := w.wire[1..]), x)
  {
    hide CacheResponse, HandleRadioRx, AwaitingFor, ReplyPart, CurrentFrames, Due, Changed, WorldInv;
    MidReplyPath(w, now);
    ReadDue(w, HandleRadioRx(w.core, w.wire[0].frame, now), x);
  }

  lemma MidReplyPath(w: World, now: Clock)
    requires WorldInv(w) && w.wire != [] && w.wire[0].reply && ReplyPart(w.wire[1..]) != []
    ensures var d := HandleRadioRx(w.core, w.wire[0].frame, now);
            d.path.queue == w.core.path.queue && d.path.link.sent == w.core.path.link.sent
            && CanSend(d) == CanSend(w.core) && w.handled == |w.core.path.link.sent| && w.core.path.inFlight.Some?
            && d.path.inFlight.Some? && d.path.inFlight.value.payload == w.core.path.inFlight.value.payload
  {
    hide HandleRadioRx, PathInv, Shaped, Faithful, AwaitingFor, ReplyPart, CurrentFrames, SlotIsLastSent;
    NextReplyFrame(w);
    SlotInv(w.core);
    ReplyContinues(w.core, w.wire[0].frame, now);
  }

  lemma EndReplyDue(w: World, now: Clock, x: Item)
    requires WorldInv(w) && CoherenceInv(w) && w.wire != [] && w.wire[0].reply && ReplyPart(w.wire[1..]) == []
             && Due(w, x)
    ensures Due(w.(core := HandleRadioRx(w.core, w.wire[0].frame, now), wire := w.wire[1..]), x)
  {
    var p, c := w.wire[0].frame, w.core;
    FreedWorld(w, now);
    LastOfReply(w);
    var f, c1 := c.path.inFlight.value, CacheResponse(c, p, now);
    var c2 := Forward(c1, f, p, now);
    var freed := WithSlot(c2, None);
    FreedPath(w, now);
    var v, d := w.(core := freed, wire := w.wire[1..]), HandleRadioRx(c, p, now);
    CompleteFlows(c2, f, p, now);
    hide CacheResponse, HandleRadioRx, Forward, Complete, WorldInv, CoherenceInv, InStep, Withheld, StaysGone,
      UniqueKeys, ReplyPart, Flows, Agrees, Pending, StillDue, FollowUp, BelongsToInFlight, Rereads, Due, Changed;
    ReadDue(w, freed, x);
    if Due(v, x) {
      FlowsDue(v, d, x);
    } else {
      InStepHandled(v);
      ChangedFollows(w, x);
      ChangedDue(w, v, d, x);
    }
  }

  lemma ChangedFollows(w: World, x: Item)
    requires Changed(w, x)
    ensures w.core.path.inFlight.Some? && FollowUp(w.core.path.inFlight.value.payload).Some?
  {
    hide FollowUp, Rereads, ReplyPart;
  }

  lemma FreedPath(w: World, now: Clock)
    requires WorldInv(w) && w.wire != [] && w.wire[0].reply && w.core.path.inFlight.Some?
    ensures var p, c := w.wire[0].frame, w.core;
            var freed := WithSlot(Forward(CacheResponse(c, p, now), c.path.inFlight.value, p, now), None);
            freed.path.queue == c.path.queue && freed.path.link.sent == c.path.link.sent && CanSend(freed) == CanSend(c)
            && w.handled == |c.path.link.sent|
  {
    hide CacheResponse, HandleRadioRx, Forward, PathInv, Shaped, Faithful, AwaitingFor, ReplyPart, CurrentFrames,
      SlotIsLastSent;
    var p, c := w.wire[0].frame, w.core;
    NextReplyFrame(w);
    SlotInv(c);
    RouteIs(c, p, now);
    SamePathSlot(c, CacheResponse(c, p, now));
    ForwardFlow(CacheResponse(c, p, now), p, now);
    hide WorldInv, SameCache;
  }

  lemma SamePathSlot(c: Core, d: Core)
    requires SlotIsLastSent(c) && d.path == c.path
    ensures SlotIsLastSent(d)
  {
  }

  lemma DeliverDue(w: World, now: Clock, x: Item)
    requires WorldInv(w) && CoherenceInv(w) && PushesMarked(w) && Allowed(w, Deliver(now)) && Due(w, x)
    ensures Due(Act(w, Deliver(now)), x)
  {
    RadioStep(w.core, w.wire[0].frame, now);
    assert InStep(w);
    hide CoherenceInv, WorldInv, PushesMarked, HandleRadioRx, ReplyPart, BelongsToInFlight, InStep, Due, Mentioned;
    if !w.wire[0].reply {
      PushDue(w, now, x);
    } else if ReplyPart(w.wire[1..]) == [] {
      EndReplyDue(w, now, x);
    } else {
      MidReplyDue(w, now, x);
    }
    var u := w.(core := HandleRadioRx(w.core, w.wire[0].frame, now), wire := w.wire[1..]);
    PathDue(u, Act(w, Deliver(now)), x);
  }

  /** News that is under way stays so through every action but the answer to the question itself, or a new link. */
  lemma ActDue(w: World, a: Action, x: Item)
    requires WorldInv(w) && CoherenceInv(w) && PushesMarked(w) && Allowed(w, a) && Due(w, x) && x.OfContact?
             && !a.Renew?
    requires a.Handle? ==> !Rereads(w.core.path.link.sent[w.handled].payload, x)
    ensures Due(Act(w, a), x)
  {
    assert InStep(w);
    hide WorldInv, CoherenceInv, PushesMarked, InStep, Step, Answers, BelongsToInFlight, Due, Rereads, Touched,
      Neglected, CachedOtherwise, Removed, ReplyPart;
    match a {
      case Own(i, now) => OwnDue(w, i, now, x);
      case Deliver(now) => DeliverDue(w, now, x);
      case Handle(reply, after) =>
        InFlightIsNext(w);
        HandledDue(w, reply, after, x);
      case Push(at, frame) =>
        ReplyPartInsert(w.wire, at, frame);
        InsertedKeeps(w.wire, at, InTransit(frame, false));
        MoreOnWire(w, Act(w, a), x);
      case Announce(frame, _) =>
        ReplyPartAppend(w.wire, [InTransit(frame, false)]);
        PushIsNoReply(frame);
        MoreOnWire(w, Act(w, a), x);
      case Forget(_) => MoreOnWire(w, Act(w, a), x);
    }
  }

  // ---------------------------------------------------------------------
  // Runs
  // ---------------------------------------------------------------------

  ghost predicate Exact(w: World, x: Item) {
    Current(w, x) || (x.OfContact? && Due(w, x))
  }

  lemma NewsIsDue(w: World, frame: Command, value: Frame)
    requires Allowed(w, Announce(frame, value))
    ensures Due(Act(w, Announce(frame, value)), OfContact(frame[1..33]))
  {
    var v, t := Act(w, Announce(frame, value)), InTransit(frame, false);
    assert t in v.wire;
    assert Announced(v, OfContact(frame[1..33]));
    hide Changed, Asked, Queued;
  }

  /** An answer to the question for a contact bears on the contact, if the radio holds it. */
  lemma AnswerTouches(w: World, reply: seq<Command>, after: map<Item, Frame>, x: Item)
    requires Allowed(w, Handle(reply, after)) && x in after && Rereads(w.core.path.link.sent[w.handled].payload, x)
    ensures x in Touched(w.core.path.link.sent[w.handled].payload, w.tables, reply, after)
  {
    var cmd := w.core.path.link.sent[w.handled].payload;
    AnswersWhole(cmd, w.tables, reply, after);
    TouchedIs(cmd, w.tables, reply, after, x);
    hide Touched, FirmwareReply, Rereads, IsAbout, Carries;
  }

  lemma NotHeldCurrent(w: World, x: Item)
    requires x !in w.tables
    ensures Current(w, x)
  {
  }

  lemma ActExact(w: World, a: Action, x: Item)
    requires WorldInv(w) && CoherenceInv(w) && PushesMarked(w) && Allowed(w, a) && Exact(w, x)
    ensures Exact(Act(w, a), x)
  {
    assert UniqueKeys(w.core.db.contacts);
    hide WorldInv, CoherenceInv, PushesMarked, UniqueKeys, Current, Due, Step, Touched, Neglected, CachedOtherwise,
      Rereads;
    if a.Renew? {
      FreshCurrent(Act(w, a), x);
    } else if a.Announce? && x == OfContact(a.frame[1..33]) {
      NewsIsDue(w, a.frame, a.value);
    } else if Current(w, x) {
      hide Act, Allowed;
      ActCurrent(w, a, x);
    } else if a.Handle? && Rereads(w.core.path.link.sent[w.handled].payload, x) {
      if x in a.after {
        AnswerTouches(w, a.reply, a.after, x);
        HandleCurrent(w, a.reply, a.after, x);
      } else {
        NotHeldCurrent(Act(w, a), x);
      }
    } else {
      hide Act;
      ActDue(w, a, x);
    }
  }

  lemma {:induction false} UnfoldExact(worlds: seq<World>, actions: seq<Action>, x: Item)
    requires Unfolds(worlds, actions) && WorldInv(worlds[0]) && PushesMarked(worlds[0]) && CoherenceInv(worlds[0])
    requires Exact(worlds[0], x)
    ensures Exact(worlds[|worlds| - 1], x)
  {
    hide WorldInv, PushesMarked, Act, Allowed, CoherenceInv, Exact;
    if actions != [] {
      var n := |actions| - 1;
      UnfoldPrefix(worlds, actions);
      hide Unfolds;
      UnfoldExact(worlds[..n + 1], actions[..n], x);
      UnfoldKeeps(worlds[..n + 1], actions[..n]);
      UnfoldCoherent(worlds[..n + 1], actions[..n]);
      ActExact(worlds[n], actions[n], x);
    }
  }

  lemma OpeningCurrent(w: World, x: Item)
    requires Opening(w)
    ensures Current(w, x)
  {
    hide Start, ReconnectRadio, UniqueKeys, Truthful, Current, CachedOtherwise, NotAskedFor;
    FreshCurrent(w, x);
  }

  // ---------------------------------------------------------------------
  // Exactly when something stale is served
  // ---------------------------------------------------------------------

  /** A world as a link finds it: after a startup, or after a reconnection. */
  ghost predicate LinkBegins(w: World) {
    Opening(w) || exists before, r, after, now ::
      Possible(before) && Allowed(before, Renew(r, after, now)) && w == Act(before, Renew(r, after, now))
  }

  ghost predicate SameLink(actions: seq<Action>) {
    forall n :: 0 <= n < |actions| ==> !actions[n].Renew?
  }

  /** The cached item is not what the radio holds. */
  predicate Wrong(w: World, x: Item) {
    x in w.tables && View(w.core, x).Some? && View(w.core, x) != Some(w.tables[x])
  }

  /** The radio gives an answer that changes the item, tells it, or refuses to tell it. */
  predicate Bears(w: World, a: Action, x: Item) {
    a.Handle? && w.handled < |w.core.path.link.sent|
    && x in Touched(w.core.path.link.sent[w.handled].payload, w.tables, a.reply, a.after)
  }

  predicate Reads(w: World, a: Action, x: Item) {
    a.Deliver? && w.wire != [] && IsAbout(w.wire[0].frame, x)
  }

  predicate Undisturbed(w: World, a: Action, x: Item) {
    !Bears(w, a, x) && !Reads(w, a, x)
  }

  /** When the link began, or by the answer just given, the cached item was wrong; since then no answer has borne on
      it, and no frame about it has been read. */
  ghost predicate WentWrong(worlds: seq<World>, actions: seq<Action>, x: Item, n: nat)
    requires |worlds| == |actions| + 1
  {
    && n <= |actions| && (n > 0 ==> Bears(worlds[n - 1], actions[n - 1], x)) && Wrong(worlds[n], x)
    && forall i :: n <= i < |actions| ==> Undisturbed(worlds[i], actions[i], x)
  }

  lemma LinkBeginsInv(w: World, x: Item)
    requires LinkBegins(w)
    ensures WorldInv(w) && PushesMarked(w) && CoherenceInv(w) && Current(w, x)
    ensures w.outdated == CachedOtherwise(w.core, w.tables)
  {
    hide WorldInv, PushesMarked, Opening, CoherenceInv, Current, Possible, CachedOtherwise;
    if Opening(w) {
      OpeningInv(w);
      OpeningCoherent(w);
      OpeningCurrent(w, x);
      OpeningOutdated(w);
    } else {
      var before, r, after, now :| Possible(before) && Allowed(before, Renew(r, after, now))
          && w == Act(before, Renew(r, after, now));
      PossibleInv(before);
      PossibleCoherent(before);
      hide Allowed, Act;
      ActKeeps(before, Renew(r, after, now));
      ActCoherent(before, Renew(r, after, now));
      RenewOutdated(before, r, after, now);
      FreshCurrent(w, x);
    }
  }

  lemma OpeningOutdated(w: World)
    requires Opening(w)
    ensures w.outdated == CachedOtherwise(w.core, w.tables)
  {
    hide Start, ReconnectRadio, UniqueKeys, Truthful, CachedOtherwise, NotAskedFor;
  }

  lemma RenewOutdated(w: World, r: Reconnection, after: map<Item, Frame>, now: Clock)
    ensures var v := Act(w, Renew(r, after, now)); v.outdated == CachedOtherwise(v.core, v.tables) && v.wire == []
  {
    hide Step, CachedOtherwise, NotAskedFor;
  }

  ghost predicate WrongSince(worlds: seq<World>, actions: seq<Action>, x: Item)
    requires |worlds| == |actions| + 1
  {
    exists n :: WentWrong(worlds, actions, x, n)
  }

  lemma ActOutdated(w: World, a: Action, x: Item)
    requires Allowed(w, a) && !a.Renew?
    ensures x in Act(w, a).outdated
            <==> if Bears(w, a, x) then Wrong(Act(w, a), x) else x in w.outdated && !Reads(w, a, x)
  {
    if a.Deliver? {
      MentionedOne(w.wire[0].frame, x);
    } else if a.Handle? {
      HandledNotes(w, a.reply, a.after, x);
      CachedIs(w.core, a.after, x);
    }
    hide Step, Answers, Mentioned, Touched, Neglected, Removed, IsAbout, BelongsToInFlight, View, CachedOtherwise;
  }

  lemma {:induction false} UnfoldOutdated(worlds: seq<World>, actions: seq<Action>, x: Item)
    requires Unfolds(worlds, actions) && SameLink(actions)
             && worlds[0].outdated == CachedOtherwise(worlds[0].core, worlds[0].tables)
    ensures x in worlds[|actions|].outdated <==> WrongSince(worlds, actions, x)
  {
    hide Act, Allowed, Bears, Reads, CachedOtherwise, View;
    if actions != [] {
      var n := |actions| - 1;
      UnfoldPrefix(worlds, actions);
      UnfoldOutdated(worlds[..n + 1], actions[..n], x);
      ActOutdated(worlds[n], actions[n], x);
      WrongLonger(worlds, actions, x);
      hide WentWrong;
    } else {
      CachedIs(worlds[0].core, worlds[0].tables, x);
      if x in worlds[0].outdated {
        assert WentWrong(worlds, actions, x, 0);
      }
    }
  }

  lemma WrongLonger(worlds: seq<World>, actions: seq<Action>, x: Item)
    requires |worlds| == |actions| + 1 && actions != []
    ensures var n := |actions| - 1;
            WrongSince(worlds, actions, x)
            <==> (Bears(worlds[n], actions[n], x) && Wrong(worlds[n + 1], x))
                 || (Undisturbed(worlds[n], actions[n], x) && WrongSince(worlds[..n + 1], actions[..n], x))
  {
    hide Bears, Undisturbed, Wrong;
    var n := |actions| - 1;
    var early, acts := worlds[..n + 1], actions[..n];
    assert forall i :: 0 <= i < n ==> early[i] == worlds[i] && acts[i] == actions[i];
    if WrongSince(worlds, actions, x) {
      var m: nat :| WentWrong(worlds, actions, x, m);
      if m <= n {
        assert WentWrong(early, acts, x, m);
      }
    }
    if Bears(worlds[n], actions[n], x) && Wrong(worlds[n + 1], x) {
      assert WentWrong(worlds, actions, x, n + 1);
    }
    if Undisturbed(worlds[n], actions[n], x) {
      if WrongSince(early, acts, x) {
        var m: nat :| WentWrong(early, acts, x, m);
        assert WentWrong(worlds, actions, x, m);
      }
    }
  }

  /** A cached item is stale at some point of a link if and only if it was cached otherwise than the radio held it
      when the link began, or when the radio last gave an answer that changed it, told it or refused to tell it, and
      no frame about it has been read since. Channels, SELF_INFO and DEVICE_INFO: always. Contacts, which the radio
      also changes by itself: while nothing announces the contact, asks for it or is about to, on an open link. */
  lemma StaleExactly(worlds: seq<World>, actions: seq<Action>, x: Item)
    requires Unfolds(worlds, actions) && LinkBegins(worlds[0]) && SameLink(actions)
    requires x in worlds[|actions|].tables && View(worlds[|actions|].core, x).Some?
    requires x.OfContact? ==> !Due(worlds[|actions|], x)
    ensures View(worlds[|actions|].core, x) != Some(worlds[|actions|].tables[x])
            <==> exists n :: WentWrong(worlds, actions, x, n)
  {
    LinkBeginsInv(worlds[0], x);
    hide LinkBegins, View, WorldInv, PushesMarked, CoherenceInv, WentWrong, Due, CachedOtherwise;
    UnfoldExact(worlds, actions, x);
    UnfoldOutdated(worlds, actions, x);
  }

  /** A command that takes an item out of the cache leaves nothing that could be wrong: only commands missing from
      that list make a cached item stale. */
  lemma WithdrawnIsNotWrong(w: World, a: Action, x: Item)
    requires Possible(w) && Allowed(w, a) && a.Handle? && Withdraws(w.core.path.link.sent[w.handled].payload, x)
    ensures View(w.core, x).None? && !Wrong(Act(w, a), x)
  {
    PossibleInv(w);
    PossibleCoherent(w);
    InFlightIsNext(w);
    HandledNotes(w, a.reply, a.after, x);
    hide Possible, WorldInv, UpToDate, StaysGone, UniqueKeys, View, LastAbout, Allowed, Act, Withdraws, Touched,
      CachedOtherwise;
    assert Latest(w.wire, w.core, x) == None;
  }

  /** SELF_INFO is right when a link begins, so it is stale only from an answer on that changed it while it was
      cached. */
  lemma SelfInfoStaleExactly(worlds: seq<World>, actions: seq<Action>)
    requires Unfolds(worlds, actions) && LinkBegins(worlds[0]) && SameLink(actions)
    requires OfSelf in worlds[|actions|].tables && View(worlds[|actions|].core, OfSelf).Some?
    ensures View(worlds[|actions|].core, OfSelf) != Some(worlds[|actions|].tables[OfSelf])
            <==> exists n :: n > 0 && WentWrong(worlds, actions, OfSelf, n)
  {
    LinkBeginsInv(worlds[0], OfSelf);
    LinkBeginsSelf(worlds[0]);
    StaleExactly(worlds, actions, OfSelf);
    CachedIs(worlds[0].core, worlds[0].tables, OfSelf);
    hide LinkBegins, View, WorldInv, PushesMarked, CoherenceInv, CachedOtherwise, Bears, Undisturbed, Unfolds;
  }

  lemma LinkBeginsSelf(w: World)
    requires LinkBegins(w)
    ensures OfSelf !in w.outdated
  {
    hide Opening, Possible;
    if Opening(w) {
      OpeningSelf(w);
    } else {
      var before, r, after, now :| Possible(before) && Allowed(before, Renew(r, after, now))
          && w == Act(before, Renew(r, after, now));
      RenewSelf(before, r, after, now);
    }
  }

  lemma OpeningSelf(w: World)
    requires Opening(w)
    ensures OfSelf !in w.outdated
  {
    hide Begin, UniqueKeys;
    var retention, backlog, db: Tables, r: Reconnection, tables: map<Item, Frame>, now :|
      Truthful(r, tables) && UniqueKeys(db.contacts) && w == Begin(retention, backlog, db, r, tables, now);
    BeginSelf(retention, backlog, db, r, tables, now);
  }

  lemma BeginSelf(retention: Retention, backlog: Backlog, db: Tables, r: Reconnection, tables: map<Item, Frame>,
                  now: Clock)
    requires Truthful(r, tables)
    ensures OfSelf !in Begin(retention, backlog, db, r, tables, now).outdated
  {
    var f := Fresh(retention, backlog, db);
    ReconnectCached(f, r, now);
    Restored(ReconnectRadio(f, r, now));
    hide ReconnectRadio, RestoreBlobs, NewLink, NotAskedFor;
  }

  lemma RenewSelf(w: World, r: Reconnection, after: map<Item, Frame>, now: Clock)
    requires Allowed(w, Renew(r, after, now))
    ensures OfSelf !in Act(w, Renew(r, after, now)).outdated
  {
    ReconnectCached(w.core, r, now);
    RenewOutdated(w, r, after, now);
    CachedIs(Act(w, Renew(r, after, now)).core, after, OfSelf);
    hide ReconnectRadio, NewLink, NotAskedFor, CachedOtherwise, ContactFrame, ChannelFrame, FindContact;
  }

  /** A link begins with a wrong DEVICE_INFO exactly when the handshake brought none and one kept from before
      differs. */
  lemma DeviceInfoWrongExactly(w: World, r: Reconnection, after: map<Item, Frame>, now: Clock)
    requires Allowed(w, Renew(r, after, now)) && OfDevice in after
    ensures OfDevice in Act(w, Renew(r, after, now)).outdated
            <==> r.deviceInfo.None? && w.core.mem.deviceInfo.Some? && w.core.mem.deviceInfo != Some(after[OfDevice])
  {
    ReconnectCached(w.core, r, now);
    if r.deviceInfo.None? {
      DeviceInfoKept(w.core, r, now);
    }
    hide ReconnectRadio, NewLink, NotAskedFor;
  }

  lemma {:induction false} AttemptsKeepDevice(c: Core, attempts: seq<Option<SelfInfoFrame>>, now: Clock)
    ensures var d := FailedAttempts(c, attempts, now);
            d.mem.deviceInfo == c.mem.deviceInfo && (DeviceInfo in c.db.blobs <==> DeviceInfo in d.db.blobs)
            && (DeviceInfo in c.db.blobs ==> d.db.blobs[DeviceInfo] == c.db.blobs[DeviceInfo])
            && d.db.channels == c.db.channels
  {
    if attempts != [] {
      hide CacheResponse;
      AttemptsKeepDevice(c, attempts[..|attempts| - 1], now);
      if attempts[|attempts| - 1].Some? {
        SelfInfoKeepsDevice(FailedAttempts(c, attempts[..|attempts| - 1], now), attempts[|attempts| - 1].value, now);
      }
    }
  }

  lemma SelfInfoKeepsDevice(c: Core, p: SelfInfoFrame, now: Clock)
    ensures var d := CacheResponse(c, p, now);
            d.mem.deviceInfo == c.mem.deviceInfo && (DeviceInfo in c.db.blobs <==> DeviceInfo in d.db.blobs)
            && (DeviceInfo in c.db.blobs ==> d.db.blobs[DeviceInfo] == c.db.blobs[DeviceInfo])
            && d.db.channels == c.db.channels && d.path == c.path
  {
    hide TrimNuls, StoreMessage;
  }

  lemma {:induction false} FailQueueTables(c: Core)
    ensures FailQueue(c).mem == c.mem && FailQueue(c).db == c.db
    decreases |c.path.queue|
  {
    if c.path.queue != [] {
      FailQueueTables(Fail(WithQueue(c, c.path.queue[1..]), c.path.queue[0], []));
    }
  }

  /** Without a DEVICE_INFO in the handshake, the one kept from before stays, and so do the channels in any case. */
  lemma DeviceInfoKept(c: Core, r: Reconnection, now: Clock)
    ensures var d := ReconnectRadio(c, r, now);
            d.db.channels == c.db.channels
            && (r.deviceInfo.None? ==>
                  d.mem.deviceInfo == c.mem.deviceInfo && (DeviceInfo in c.db.blobs <==> DeviceInfo in d.db.blobs)
                  && (DeviceInfo in c.db.blobs ==> d.db.blobs[DeviceInfo] == c.db.blobs[DeviceInfo]))
  {
    ReconnectStarts(c, r, now);
    FailQueueTables(WithLink(FailInFlight(c), NO_LINK));
    hide ReconnectRadio, FailQueue, FailedAttempts, SyncFromRadio, CacheResponse;
    var c1 := LoseRadio(c).(live := c.live - r.left);
    AttemptsKeepDevice(c1, r.attempts, now);
    var c2 := WithLink(FailedAttempts(c1, r.attempts, now), Link(true, r.open, [], []));
    SelfInfoKeepsDevice(c2, r.selfInfo, now);
    if r.deviceInfo.Some? {
      CachedOther(CacheResponse(c2, r.selfInfo, now), r.deviceInfo.value, now);
    }
    SyncStarts(InitializeRadio(c2, r, now), now);
  }

  // ---------------------------------------------------------------------
  // What a client is handed
  // ---------------------------------------------------------------------

  /** The item a command asks for, when one reply carries all of it. */
  function AskedFor(payload: Frame): Option<Item> {
    if payload == [] then None
    else if payload[0] == 0x01 then Some(OfSelf)
    else if payload[0] == 0x16 then Some(OfDevice)
    else if payload[0] == 0x1F && |payload| > 1 then Some(OfChannel(payload[1]))
    else None
  }

  /** The view of an item is what a client asking for it is handed, and nothing else is. */
  lemma ViewIsServed(c: Core, cmd: ClientCommand, x: Item)
    requires cmd.payload != [] && AskedFor(cmd.payload) == Some(x) && cmd.client in c.live
    ensures TryServeFromCache(c, cmd)
            == if View(c, x).None? then None
               else Some(c.(out := c.out
                            + [ToClient(cmd.client, View(c, x).value, Wire(c, cmd.client, View(c, x).value), Cached)]))
  {
    hide RespondContacts, ChannelFrame, GetContacts, MessageFrameFor;
  }

  /** A client that asks for SELF_INFO is handed what the radio holds now, or its question goes to the radio, unless and
      only unless the radio has changed SELF_INFO by an answer on this link while it was cached. */
  lemma SelfInfoServedExactly(worlds: seq<World>, actions: seq<Action>, cmd: ClientCommand)
    requires Unfolds(worlds, actions) && LinkBegins(worlds[0]) && SameLink(actions)
    requires var w := worlds[|actions|];
             OfSelf in w.tables && cmd.payload != [] && cmd.payload[0] == 0x01 && cmd.client in w.core.live
    ensures var w := worlds[|actions|];
            var served := TryServeFromCache(w.core, cmd);
            served.Some? ==>
              (served.value.out
               == w.core.out
               + [ToClient(cmd.client, w.tables[OfSelf], Wire(w.core, cmd.client, w.tables[OfSelf]), Cached)]
               <==> !exists n :: n > 0 && WentWrong(worlds, actions, OfSelf, n))
  {
    var w := worlds[|actions|];
    ViewIsServed(w.core, cmd, OfSelf);
    hide TryServeFromCache, Wire, LinkBegins, Unfolds, WentWrong;
    if w.core.mem.selfInfo.Some? {
      SelfInfoStaleExactly(worlds, actions);
      var e := ToClient(cmd.client, w.core.mem.selfInfo.value, Wire(w.core, cmd.client, w.core.mem.selfInfo.value),
                        Cached);
      assert (w.core.out + [e])[|w.core.out|] == e;
    }
  }
}
