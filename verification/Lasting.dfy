/** How long a contact that the radio refused to tell stays stale, and what a closed link does to one. */
module Lasting {
  import opened Bytes
  import opened Protocol
  import opened Store
  import opened CoreState
  import opened RadioPath
  import opened Outcomes
  import opened Links
  import opened Requests
  import opened Frames
  import opened Flow
  import opened Environment
  import opened Coherence
  import opened Freshness
  import opened Witnesses

  // ---------------------------------------------------------------------
  // Left alone
  // ---------------------------------------------------------------------

  /** Clients come and go and the clocks tick, and nothing else happens. */
  predicate LeavesAlone(a: Action) {
    a.Own? && (a.input.Connect? || a.input.Disconnect? || a.input.TimeoutTick? || a.input.MaintenanceTick?)
  }

  /** The radio has yet to answer a full synchronisation. */
  predicate AsksAll(w: World) {
    && w.core.path.inFlight.Some? && w.core.path.inFlight.value.payload == FULL_SYNC
    && w.handled + 1 == |w.core.path.link.sent|
  }

  lemma AsksForEach(w: World)
    requires AsksAll(w)
    ensures forall key :: Asked(w, OfContact(key))
  {
  }

  lemma OwnTables(w: World, i: Input, now: Clock)
    ensures var v := Act(w, Own(i, now));
            v.core == Step(w.core, i, now) && v.tables == w.tables && v.handled == w.handled && v.wire == w.wire
  {
    hide Step;
  }

  lemma IdleAsks(w: World, now: Clock)
    requires WorldInv(w) && Idle(w) && w.core.conf.retention.contactsDays > 0
    ensures var v := Act(w, Own(MaintenanceTick, now)); v.core.conf == w.core.conf && AsksAll(v)
  {
    hide WorldInv, Maintain, RequestFullSync;
    IdleHandled(w);
    OwnTables(w, MaintenanceTick, now);
    SyncGoes(w.core, now);
    hide Act, CanSend;
  }

  lemma IdleKeeps(w: World, now: Clock)
    requires Idle(w) && w.core.conf.retention.contactsDays == 0
    ensures var v := Act(w, Own(MaintenanceTick, now));
            v.core.conf == w.core.conf && Idle(v) && forall x: Item :: View(v.core, x) == View(w.core, x)
  {
    OwnTables(w, MaintenanceTick, now);
    var c, d := w.core, RunMaintenance(w.core, now);
    hide KeptMessages, KeptClients, FullSyncPending;
    assert d.db.contacts == c.db.contacts && d.mem == c.mem && d.path == c.path && d.db.channels == c.db.channels;
    hide View, RunMaintenance, CanSend;
    forall x: Item
      ensures View(d, x) == View(c, x)
    {
      SameViews(c, d, x);
    }
  }

  lemma IdleMaintenance(w: World, now: Clock)
    requires WorldInv(w) && Idle(w)
    ensures var v := Act(w, Own(MaintenanceTick, now));
            v.core.conf == w.core.conf
            && (if w.core.conf.retention.contactsDays > 0 then AsksAll(v)
                else Idle(v) && forall x: Item :: View(v.core, x) == View(w.core, x))
  {
    hide WorldInv, Act, Idle, View, AsksAll;
    if w.core.conf.retention.contactsDays > 0 {
      IdleAsks(w, now);
    } else {
      IdleKeeps(w, now);
    }
  }

  /** With nothing waiting, a full synchronisation goes out at once. */
  lemma SyncGoes(c: Core, now: Clock)
    requires c.path.inFlight.None? && c.path.queue == [] && CanSend(c) && c.conf.retention.contactsDays > 0
    ensures var d := RequestFullSync(c, now);
            d.conf == c.conf && d.path.inFlight.Some? && d.path.inFlight.value.payload == FULL_SYNC
            && |d.path.link.sent| == |c.path.link.sent| + 1
  {
    hide AwaitingFor, IdentityOf, Wire;
    var c1 := Enqueue(c, Request(None, FULL_SYNC));
    assert c1.path.queue == [Request(None, FULL_SYNC)];
    var c2 := WithQueue(c1, c1.path.queue[1..]);
    assert AdvanceQueue(c1, now) == DispatchToRadio(c2, Request(None, FULL_SYNC), now);
  }

  lemma AskingMaintenance(w: World, now: Clock)
    requires AsksAll(w)
    ensures var v := Act(w, Own(MaintenanceTick, now)); AsksAll(v) && v.core.conf == w.core.conf
  {
    OwnTables(w, MaintenanceTick, now);
    hide Maintain;
  }

  lemma AskingStays(w: World, a: Action)
    requires AsksAll(w) && Allowed(w, a) && LeavesAlone(a)
    ensures AsksAll(Act(w, a)) && Act(w, a).core.conf == w.core.conf
  {
    if a.input.MaintenanceTick? {
      AskingMaintenance(w, a.now);
    }
    hide RunMaintenance;
  }

  lemma IdleStays(w: World, a: Action)
    requires WorldInv(w) && Idle(w) && LeavesAlone(a)
    ensures var v := Act(w, a);
            v.core.conf == w.core.conf && v.tables == w.tables
            && (if a.input.MaintenanceTick? && w.core.conf.retention.contactsDays > 0 then AsksAll(v)
                else Idle(v) && forall x: Item :: View(v.core, x) == View(w.core, x))
  {
    if a.input.MaintenanceTick? {
      IdleMaintenance(w, a.now);
      OwnTables(w, MaintenanceTick, a.now);
    } else {
      hide RunMaintenance, WorldInv, View;
      forall x: Item
        ensures View(Act(w, a).core, x) == View(w.core, x)
      {
        SameViews(w.core, Act(w, a).core, x);
      }
    }
  }

  ghost predicate Maintained(actions: seq<Action>) {
    exists n :: 0 <= n < |actions| && actions[n].Own? && actions[n].input.MaintenanceTick?
  }

  lemma MaintainedLonger(actions: seq<Action>)
    requires actions != []
    ensures var n := |actions| - 1;
            Maintained(actions) <==> Maintained(actions[..n]) || (actions[n].Own? && actions[n].input.MaintenanceTick?)
  {
    var before := actions[..|actions| - 1];
    assert forall n :: 0 <= n < |before| ==> before[n] == actions[n];
  }

  /** An idle multiplexer left alone shows what it showed, stale or not, for as long as it is left alone; unless
      contacts are purged by age, in which case the first maintenance asks the radio for all of them again. */
  lemma {:induction false} AskedAgainExactly(worlds: seq<World>, actions: seq<Action>)
    requires Unfolds(worlds, actions) && WorldInv(worlds[0]) && PushesMarked(worlds[0]) && Idle(worlds[0])
    requires forall a :: a in actions ==> LeavesAlone(a)
    ensures var w, v := worlds[0], worlds[|actions|];
            v.core.conf == w.core.conf
            && (if w.core.conf.retention.contactsDays > 0 && Maintained(actions) then
                  AsksAll(v) && forall key :: Asked(v, OfContact(key))
                else Idle(v) && v.tables == w.tables && forall x: Item :: View(v.core, x) == View(w.core, x))
  {
    hide WorldInv, PushesMarked, Act, Allowed, Idle, AsksAll, Asked, View;
    if actions != [] {
      var n := |actions| - 1;
      UnfoldPrefix(worlds, actions);
      UnfoldKeeps(worlds[..n + 1], actions[..n]);
      assert actions[n] in actions && forall a :: a in actions[..n] ==> a in actions;
      AskedAgainExactly(worlds[..n + 1], actions[..n]);
      MaintainedLonger(actions);
      hide Unfolds, Maintained;
      if worlds[0].core.conf.retention.contactsDays > 0 && Maintained(actions[..n]) {
        AskingStays(worlds[n], actions[n]);
        AsksForEach(worlds[n + 1]);
      } else {
        IdleStays(worlds[n], actions[n]);
        if worlds[0].core.conf.retention.contactsDays > 0 && Maintained(actions) {
          AsksForEach(worlds[n + 1]);
        }
      }
    }
  }

  // ---------------------------------------------------------------------
  // A closed link
  // ---------------------------------------------------------------------

  /** Over a closed link a refresh fails and is forgotten. */
  lemma AdvertLost(c: Core, key: Frame, now: Clock)
    requires c.path.inFlight.None? && c.path.queue == [] && !CanSend(c) && |key| == 32
    ensures var d := HandleRadioRx(c, AdvertOf(key), now);
            d.db == c.db && d.mem == c.mem && d.path.inFlight.None? && d.path.queue == [] && d.path.link == c.path.link
  {
    var p, q := AdvertOf(key), Request(None, RefreshCommand(key));
    assert p[1..33] == key;
    PushPlain(c, p, now);
    hide CacheResponse, AwaitingFor, IdentityOf;
    var c1 := RefreshContact(c, key);
    assert c1.path.queue == [q];
    var c2 := Fail(WithQueue(c1, []), q, []);
    assert DispatchToRadio(WithQueue(c1, c1.path.queue[1..]), q, now) == c2;
    assert AdvanceQueue(c1, now) == AdvanceQueue(c2, now) == c2;
  }

  function Closed(w: World, now: Clock): World {
    Act(w, Own(LinkCloses, now))
  }

  lemma ClosedIs(w: World, now: Clock)
    requires Possible(w) && Idle(w)
    ensures var v := Closed(w, now);
            Possible(v) && v.wire == [] && !CanSend(v.core) && v.core.path.inFlight.None? && v.core.path.queue == []
            && v.core.db == w.core.db
  {
    hide Possible;
    PossibleNext(w, Own(LinkCloses, now));
  }

  /** What reading the announcement over a closed link leaves. */
  lemma InformedInVain(w: World, key: Frame, value: Frame, now: Clock)
    requires Possible(w) && w.wire == [] && |key| == 32
    requires !CanSend(w.core) && w.core.path.inFlight.None? && w.core.path.queue == []
    ensures var v := Informed(w, key, value, now);
            Possible(v) && v.core.db == w.core.db && v.wire == [] && v.tables == w.tables[OfContact(key) := value]
            && v.core.path.inFlight.None? && v.core.path.queue == [] && !CanSend(v.core)
  {
    hide Possible, HandleRadioRx, AdvertOf, Mentioned, Step, Allowed;
    AnnounceIs(w, key, value);
    var v := Act(w, Announce(AdvertOf(key), value));
    PossibleNext(w, Announce(AdvertOf(key), value));
    DeliverAllowed(v, now);
    PossibleNext(v, Deliver(now));
    RadioStep(w.core, AdvertOf(key), now);
    AdvertLost(w.core, key, now);
  }

  /** However an idle multiplexer came to hold a contact: once the sender of the link has closed, a change that the
      radio announces leaves the contact as it was, and nothing is under way. */
  lemma StaleOnClosedLink(w: World, key: Frame, was: Frame, value: Frame, now: Clock)
    requires Possible(w) && Idle(w) && |key| == 32 && View(w.core, OfContact(key)) == Some(was) && was != value
    ensures var w0, x := Closed(w, now), OfContact(key);
            w0.wire == []
            && var v := Informed(w0, key, value, now);
               Possible(v) && View(v.core, x) == Some(was) && x in v.tables && v.tables[x] == value
               && v.wire == [] && !Announced(v, x) && !Queued(v.core, x) && !Asked(v, x) && !Changed(v, x)
               && !CanSend(v.core)
  {
    ClosedIs(w, now);
    var w0 := Closed(w, now);
    hide Possible, View, Closed, Informed, CanSend;
    InformedInVain(w0, key, value, now);
    SameContacts(w.core, Informed(w0, key, value, now).core, key);
  }
}
