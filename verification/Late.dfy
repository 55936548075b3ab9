/** What the guard of the no-loss promise is worth, one step ahead: a message frame that no connection of a
    caught-up identity hears is lost to it at once. */
module Late {
  import opened Bytes
  import opened Protocol
  import opened Store
  import opened CoreState
  import opened RadioPath
  import opened Requests
  import opened Frames
  import opened Replay
  import opened NoLoss

  /** Every caught-up identity has a connection that would hear a message now. */
  ghost predicate CaughtUpHear(c: Core) {
    forall who :: who in CaughtUpLive(c) ==> SomeHears(c, who)
  }

  ghost predicate StartBounded(c: Core, w: Watch) {
    forall who :: who in c.db.clients && who in w.start ==> w.start[who] <= c.db.lastId
  }

  // ---------------------------------------------------------------------
  // Who is shown a message
  // ---------------------------------------------------------------------

  /** Failures and notices: events that show no message. */
  predicate Mute(a: seq<Event>, b: seq<Event>) {
    a <= b && forall j :: |a| <= j < |b| ==> b[j].ToClient? && (b[j].kind == Failure || b[j].kind == Notice)
  }

  lemma DispatchMute(c: Core, q: Request, now: Clock)
    ensures Mute(c.out, DispatchToRadio(c, q, now).out)
  {
    hide AwaitingFor, Wire;
  }

  lemma {:induction false} AdvanceMute(c: Core, now: Clock)
    ensures Mute(c.out, AdvanceQueue(c, now).out)
    decreases |c.path.queue|
  {
    if c.path.queue != [] {
      hide DispatchToRadio;
      var q, c1 := c.path.queue[0], WithQueue(c, c.path.queue[1..]);
      if ClientLeft(c1, q) {
        AdvanceMute(Settle(c1, q, Gone), now);
      } else {
        DispatchMute(c1, q, now);
        var c2 := DispatchToRadio(c1, q, now);
        if c2.path.inFlight.None? {
          DispatchShrinks(c1, q, now);
          AdvanceMute(c2, now);
        }
      }
    }
  }

  lemma AcceptedMute(c: Core, done: InFlight, p: Command, now: Clock)
    requires done.awaiting == AwaitingFor(done.payload) && done.awaiting.Belongs(p[0]) && IsMessageCode(p[0])
    ensures Mute(c.out, OnCommandAccepted(c, done, now).out)
  {
    hide SynthesizeEcho, AwaitingFor, Wire, TrimNuls;
    var c1 := if done.payload[0] == 0x01 && done.client.Some? then NotifyMissed(c, done.client.value) else c;
    MessageReplyHasNoEcho(ApplyAccepted(c1, done), done, p, now);
  }

  lemma CompleteMute(c: Core, f: InFlight, p: Command, now: Clock)
    requires f.awaiting == AwaitingFor(f.payload) && f.awaiting.Belongs(p[0]) && IsMessageCode(p[0])
    ensures Mute(c.out, Complete(c, f, p, now).out)
  {
    hide AwaitingFor, AdvanceQueue, OnCommandAccepted;
    var c1 := Settle(WithSlot(c, None), f.Req(), Answered(CurrentFrames(c)));
    AcceptedMute(c1, f, p, now);
    AdvanceMute(OnCommandAccepted(c1, f, now), now);
  }

  lemma PassOnEvents(c: Core, f: InFlight, p: Command, now: Clock)
    ensures var d := PassOn(c, f, p, now);
            c.out <= d.out
            && forall j :: |c.out| <= j < |d.out| ==> d.out[j].ToClient? && f.client == Some(d.out[j].client)
  {
    StashAckOnly(c, p, now);
    hide StashAck, Wire;
  }

  /** Handing a message over, event by event. */
  lemma ForwardEvents(c: Core, f: InFlight, p: Command, now: Clock)
    ensures var d := Forward(c, f, p, now);
            c.out <= d.out
            && forall j :: |c.out| <= j < |d.out| ==>
                 (d.out[j].ToClient? && f.client == Some(d.out[j].client))
                 || (d.out[j].ToOthers? && d.out[j].why == Heard && f.payload[0] == 0x0A)
  {
    PassOnEvents(AppendRouted(c, p), f, p, now);
    hide PassOn, Wire;
  }

  /** Only a request in whose reply messages come takes one. */
  lemma TakenBy(f: InFlight, p: Command)
    requires f.awaiting == AwaitingFor(f.payload) && f.awaiting.Belongs(p[0]) && IsMessageCode(p[0])
    ensures f.payload[0] == 0x0A || f.awaiting.Any?
    ensures f.awaiting.Completes(p[0])
  {
  }

  lemma OnlyHearersShown(c: Core, p: Command, now: Clock, k: ClientId)
    requires Storable(p) && SlotIsLastSent(c)
    requires Shown(News(c, HandleRadioRx(c, p, now)), k, p)
    ensures WouldHear(c, k)
  {
    hide StoreMessage, MessageTimestamp;
    var c1, d := CacheResponse(c, p, now), HandleRadioRx(c, p, now);
    assert c1 == StoreMessage(c, MessageTimestamp(p), p, None, now);
    StoreResult(c, MessageTimestamp(p), p, None, now);
    hide CacheResponse, Complete, Forward, AwaitingFor;
    if BelongsToInFlight(c1, p) {
      var f := c1.path.inFlight.value;
      var c2 := Forward(c1, f, p, now);
      TakenBy(f, p);
      ForwardEvents(c1, f, p, now);
      CompleteMute(c2, f, p, now);
      ShownInForward(c.out, c2.out, d.out, k, p);
      var j :| |c.out| <= j < |c2.out| && Shows(c2.out[j], k, p);
    }
  }

  lemma ShownInForward(a: seq<Event>, b: seq<Event>, d: seq<Event>, k: ClientId, p: Frame)
    requires a <= b && Mute(b, d) && Shown(d[|a|..], k, p)
    ensures exists j :: |a| <= j < |b| && Shows(b[j], k, p)
  {
    var i :| 0 <= i < |d[|a|..]| && Shows(d[|a|..][i], k, p);
    assert d[|a|..][i] == d[|a| + i];
    if |a| + i < |b| {
      assert Shows(b[|a| + i], k, p);
    }
  }

  // ---------------------------------------------------------------------
  // The exact guard
  // ---------------------------------------------------------------------

  /** The state and the watch after a message frame, in one place. */
  ghost predicate Arrived(c: Core, w: Watch, p: Command, d: Core, w': Watch) {
    && d.db.lastId == c.db.lastId + 1
    && (exists row: Message :: row.id == c.db.lastId + 1 && row.origin == None && row.frame.Some?
                      && d.db.messages == c.db.messages + [row])
    && d.db.clients.Keys == c.db.clients.Keys + CaughtUpLive(c)
    && (forall who :: who in c.db.clients ==>
          who in d.db.clients && d.db.clients[who].lastSeen
          == if who in CaughtUpLive(c) then Max(c.db.clients[who].lastSeen, c.db.lastId + 1)
          else c.db.clients[who].lastSeen)
    && (forall who :: who in CaughtUpLive(c) && who !in c.db.clients ==>
          who in d.db.clients && d.db.clients[who].lastSeen == c.db.lastId + 1)
    && w.seen <= w'.seen && w'.base == w.base
    && (forall who :: who in c.db.clients ==> who in w.start && who in w'.start && w'.start[who] == w.start[who])
    && (forall who :: who in CaughtUpLive(c) && who !in c.db.clients ==>
          StartsAbove(c, w', who) && w'.start[who] <= c.db.lastId)
    && (forall who :: (who, c.db.lastId + 1) in w'.seen <==> SomeHears(c, who))
  }

  /** What a message frame leaves to be noted. */
  ghost predicate StoredAs(c: Core, p: Command, d: Core) {
    && d.db.lastId == c.db.lastId + 1 && StoredNow(c, d).Some?
    && StoredNow(c, d).value.id == c.db.lastId + 1 && StoredNow(c, d).value.frame == Some(p)
    && (forall k :: k in d.sessions <==> LiveSession(c, k))
    && forall k :: k in d.sessions ==> d.sessions[k] == c.sessions[k]
  }

  lemma MessageStoredAs(c: Core, p: Command, now: Clock)
    requires SlotIsLastSent(c) && Storable(p)
    ensures StoredAs(c, p, HandleRadioRx(c, p, now))
  {
    MessageStored(c, p, now);
    StoreResult(c, MessageTimestamp(p), p, None, now);
    StoreRows(c, MessageTimestamp(p), p, None, now);
    hide HandleRadioRx, StoreMessage, MessageTimestamp, SlotIsLastSent, CaughtUpLive;
  }

  /** Who is noted as having been shown the message just stored. */
  lemma NotedAs(c: Core, p: Command, d: Core, who: Identity)
    requires StoredAs(c, p, d)
    ensures (who, c.db.lastId + 1) in ShownNow(c, d)
            <==> exists k :: LiveSession(c, k) && c.sessions[k].who == who && Shown(News(c, d), k, p)
  {
    hide Shown, StoredNow, News;
    if k: ClientId :| LiveSession(c, k) && c.sessions[k].who == who && Shown(News(c, d), k, p) {
      assert k in d.sessions && d.sessions[k].who == who;
    }
  }

  lemma ShownExactly(c: Core, p: Command, now: Clock, who: Identity)
    requires SlotIsLastSent(c) && Storable(p)
    ensures (who, c.db.lastId + 1) in ShownNow(c, HandleRadioRx(c, p, now)) <==> SomeHears(c, who)
  {
    hide HandleRadioRx, StoreMessage, Shown, SlotIsLastSent, WouldHear, StoredNow, Storable, News, ShownNow, StoredAs,
      MessageTimestamp;
    var d := HandleRadioRx(c, p, now);
    MessageStoredAs(c, p, now);
    MessageStored(c, p, now);
    NotedAs(c, p, d, who);
    forall k | LiveSession(c, k) && Shown(News(c, d), k, p)
      ensures WouldHear(c, k)
    {
      OnlyHearersShown(c, p, now, k);
    }
  }

  lemma SeenExactly(c: Core, w: Watch, p: Command, now: Clock, who: Identity)
    requires ReplayInv(c, w) && SlotIsLastSent(c) && Storable(p)
    ensures (who, c.db.lastId + 1) in WatchStep(w, c, Radio(p), now).seen <==> SomeHears(c, who)
  {
    var d := HandleRadioRx(c, p, now);
    RadioStep(c, p, now);
    MessageStored(c, p, now);
    StoreResult(c, MessageTimestamp(p), p, None, now);
    SeenBounded(c, w);
    MessagesValid(c, w);
    ShownExactly(c, p, now, who);
    hide ReplayInv, HandleRadioRx, Step, StoreMessage, MessageTimestamp, SlotIsLastSent, StartAfter, ShownNow,
      SomeHears;
    NotReplayed(c, d);
  }

  lemma NotReplayed(c: Core, d: Core)
    requires Unreplayed(c.out, d.out)
    ensures ReplayedNow(c, d) == {}
  {
    forall e | e in News(c, d)
      ensures !(e.ToClient? && e.kind.Missed?)
    {
      var j :| 0 <= j < |News(c, d)| && News(c, d)[j] == e;
      assert d.out[|c.out| + j] == e;
    }
  }

  /** Storing moves the rows of the caught-up, and keeps the sessions that are live. */
  lemma StoreRows(c: Core, timestamp: int, frame: Frame, origin: Option<Identity>, now: Clock)
    ensures var d := StoreMessage(c, timestamp, frame, origin, now);
            (forall k :: k in d.sessions ==> LiveSession(c, k) && d.sessions[k] == c.sessions[k])
            && (forall who :: who in CaughtUpLive(c) && who !in c.db.clients ==>
                  who in d.db.clients && d.db.clients[who].lastSeen == c.db.lastId + 1)
            && forall who :: who in c.db.clients ==>
                 who in d.db.clients
                 && d.db.clients[who].lastSeen
                    == if who in CaughtUpLive(c) then Max(c.db.clients[who].lastSeen, c.db.lastId + 1)
                    else c.db.clients[who].lastSeen
  {
    var c1 := c.(db := InsertMessage(c.db, timestamp, frame, origin, now.unix));
    var w := Watch(map x | x in CaughtUpLive(c1) :: c1.db.lastId as int, map[], {});
    FollowMoves(c1, w, now);
    hide AdvanceAll, CaughtUp;
    assert CaughtUpLive(c1) == CaughtUpLive(c);
  }

  lemma ArrivedTables(c: Core, p: Command, now: Clock)
    requires SlotIsLastSent(c) && Storable(p)
    ensures var d, row := Step(c, Radio(p), now),
            Message(c.db.lastId + 1, MessageTimestamp(p), Some(now.unix), Some(p), None);
            d.db.lastId == c.db.lastId + 1 && d.db.messages == c.db.messages + [row] && SameSpeakers(c, d)
            && d.db.clients.Keys == c.db.clients.Keys + CaughtUpLive(c)
            && (forall who :: who in c.db.clients ==>
                  who in d.db.clients && d.db.clients[who].lastSeen
                  == if who in CaughtUpLive(c) then Max(c.db.clients[who].lastSeen, c.db.lastId + 1)
                  else c.db.clients[who].lastSeen)
            && (forall who :: who in CaughtUpLive(c) && who !in c.db.clients ==>
                  who in d.db.clients && d.db.clients[who].lastSeen == c.db.lastId + 1)
  {
    RadioStep(c, p, now);
    MessageStored(c, p, now);
    StoreResult(c, MessageTimestamp(p), p, None, now);
    StoreRows(c, MessageTimestamp(p), p, None, now);
    hide HandleRadioRx, Step, StoreMessage, MessageTimestamp, SlotIsLastSent, CaughtUpLive;
  }

  /** What the onlooker notes of a message frame. */
  ghost predicate NotedArrival(c: Core, w: Watch, w': Watch) {
    && w.seen <= w'.seen && w'.base == w.base
    && (forall who :: who in c.db.clients ==> who in w.start && who in w'.start && w'.start[who] == w.start[who])
    && (forall who :: who in CaughtUpLive(c) && who !in c.db.clients ==>
          StartsAbove(c, w', who) && w'.start[who] <= c.db.lastId)
    && (forall who :: (who, c.db.lastId + 1) in w'.seen <==> SomeHears(c, who))
  }

  lemma ArrivalNoted(c: Core, w: Watch, p: Command, now: Clock)
    requires ReplayInv(c, w) && SlotIsLastSent(c) && Storable(p)
    ensures NotedArrival(c, w, WatchStep(w, c, Radio(p), now))
  {
    hide ReplayInv, Step, SlotIsLastSent, WatchStep, CaughtUpLive, SomeHears, Storable, SameSpeakers;
    KnownRows(c, w);
    ArrivedTables(c, p, now);
    StoreLearnt(c, w, Radio(p), now, c);
    StartsKnown(c, w, p, now);
    forall who
      ensures (who, c.db.lastId + 1) in WatchStep(w, c, Radio(p), now).seen <==> SomeHears(c, who)
    {
      SeenExactly(c, w, p, now, who);
    }
  }

  lemma MessageArrived(c: Core, w: Watch, p: Command, now: Clock)
    requires ReplayInv(c, w) && SlotIsLastSent(c) && Storable(p)
    ensures Arrived(c, w, p, Step(c, Radio(p), now), WatchStep(w, c, Radio(p), now))
  {
    hide ReplayInv, Step, MessageTimestamp, SlotIsLastSent, WatchStep, CaughtUpLive, SomeHears, Storable, StartsAbove,
      SameSpeakers;
    ArrivalNoted(c, w, p, now);
    ArrivedTables(c, p, now);
    ArrivedTogether(c, w, p, Step(c, Radio(p), now), WatchStep(w, c, Radio(p), now),
                    Message(c.db.lastId + 1, MessageTimestamp(p), Some(now.unix), Some(p), None));
  }

  lemma ArrivedTogether(c: Core, w: Watch, p: Command, d: Core, w': Watch, row: Message)
    requires NotedArrival(c, w, w') && row.id == c.db.lastId + 1 && row.origin == None && row.frame.Some?
    requires d.db.lastId == c.db.lastId + 1 && d.db.messages == c.db.messages + [row]
    requires d.db.clients.Keys == c.db.clients.Keys + CaughtUpLive(c)
    requires forall who :: who in c.db.clients ==>
               who in d.db.clients && d.db.clients[who].lastSeen
               == if who in CaughtUpLive(c) then Max(c.db.clients[who].lastSeen, c.db.lastId + 1)
               else c.db.clients[who].lastSeen
    requires forall who :: who in CaughtUpLive(c) && who !in c.db.clients ==>
               who in d.db.clients && d.db.clients[who].lastSeen == c.db.lastId + 1
    ensures Arrived(c, w, p, d, w')
  {
    hide CaughtUpLive, SomeHears, StartsAbove;
  }

  /** A row put on record now starts no higher than the newest id before. */
  lemma StartsKnown(c: Core, w: Watch, p: Command, now: Clock)
    requires ReplayInv(c, w) && SameSpeakers(c, Step(c, Radio(p), now))
    ensures var w' := WatchStep(w, c, Radio(p), now);
            forall who :: who in w'.start && who !in c.db.clients ==> w'.start[who] <= c.db.lastId
  {
    var post, w' := Step(c, Radio(p), now), WatchStep(w, c, Radio(p), now);
    hide Step, ReplayedNow, ShownNow;
    forall who | who in w'.start && who !in c.db.clients
      ensures w'.start[who] <= c.db.lastId
    {
      SameBases(c, post, w.base, who);
      BasesBounded(c, w, who);
    }
  }

  lemma BasesBounded(c: Core, w: Watch, who: Identity)
    requires ReplayInv(c, w)
    ensures Highest(BasesOf(c, w.base, who)) <= c.db.lastId
  {
    forall x | x in BasesOf(c, w.base, who)
      ensures x <= c.db.lastId
    {
      var k :| k in c.sessions && k in c.live && c.sessions[k].who == who && k in w.base && w.base[k] == x;
      assert LiveSession(c, k) && SessionInv(c, w, k);
    }
  }

  lemma OldNotLost(c: Core, w: Watch, p: Command, d: Core, w': Watch, m: Message, who: Identity)
    requires ReplayInv(c, w) && Arrived(c, w, p, d, w') && m in c.db.messages && who in d.db.clients
    ensures NotLost(d, w', m, who)
  {
    IdBounded(c, w, m);
    hide ValidMessages, SomeHears;
    if who in c.db.clients {
      assert NotLost(c, w, m, who);
      if who in CaughtUpLive(c) && ReplayableTo(m, who) && w.start[who] < m.id {
        var k :| k in c.sessions && k in c.live && c.sessions[k].pending == [] && c.sessions[k].who == who;
        AdvanceNotLost(c, w, k, c.db.lastId, m);
      }
    } else if ReplayableTo(m, who) && w'.start[who] < m.id {
      var k :| k in c.sessions && k in c.live && c.sessions[k].pending == [] && c.sessions[k].who == who;
      assert LiveSession(c, k) && SessionInv(c, w, k) && Covered(w, c.sessions[k], w.base[k], m);
    }
  }

  lemma IdBounded(c: Core, w: Watch, m: Message)
    requires ReplayInv(c, w) && m in c.db.messages
    ensures m.id <= c.db.lastId
  {
  }

  lemma RowsBounded(c: Core, w: Watch)
    requires ReplayInv(c, w)
    ensures forall who :: who in c.db.clients ==> c.db.clients[who].lastSeen <= c.db.lastId
  {
  }

  /** One step ahead: storing a message that arrives now leaves nothing lost if and only if every caught-up
      identity has a connection that would hear it. */
  lemma LostAtOnce(c: Core, w: Watch, p: Command, now: Clock)
    requires ReplayInv(c, w) && StartBounded(c, w) && PathInv(c) && Storable(p)
    ensures NothingLost(Step(c, Radio(p), now), WatchStep(w, c, Radio(p), now)) <==> CaughtUpHear(c)
  {
    var d, w' := Step(c, Radio(p), now), WatchStep(w, c, Radio(p), now);
    MessageArrived(c, w, p, now);
    RowsBounded(c, w);
    KnownRows(c, w);
    hide Step, WatchStep, PathInv, CaughtUpLive, SomeHears, Conserved;
    var row: Message :| row.id == c.db.lastId + 1 && row.origin == None && row.frame.Some?
        && d.db.messages == c.db.messages + [row];
    forall m, who | m in c.db.messages && who in d.db.clients
      ensures NotLost(d, w', m, who)
    {
      OldNotLost(c, w, p, d, w', m, who);
    }
    hide ReplayInv;
    forall who | who in d.db.clients
      ensures NotLost(d, w', row, who) <==> (who in CaughtUpLive(c) ==> SomeHears(c, who))
    {
      NewNotLost(c, w, p, d, w', row, who);
    }
    EveryCaughtUpOnRecord(c, w, p, d, w');
    hide NotLost, Arrived;
    assert row in d.db.messages;
    assert forall m :: m in d.db.messages <==> m in c.db.messages || m == row;
  }

  lemma EveryCaughtUpOnRecord(c: Core, w: Watch, p: Command, d: Core, w': Watch)
    requires Arrived(c, w, p, d, w')
    ensures forall who :: who in CaughtUpLive(c) ==> who in d.db.clients
  {
    hide CaughtUpLive, SomeHears;
  }

  lemma NewNotLost(c: Core, w: Watch, p: Command, d: Core, w': Watch, row: Message, who: Identity)
    requires Arrived(c, w, p, d, w') && StartBounded(c, w) && c.db.clients.Keys <= w.start.Keys && who in d.db.clients
    requires forall x :: x in c.db.clients ==> c.db.clients[x].lastSeen <= c.db.lastId
    requires row.id == c.db.lastId + 1 && row.origin == None && row.frame.Some?
    ensures NotLost(d, w', row, who) <==> (who in CaughtUpLive(c) ==> SomeHears(c, who))
  {
    hide CaughtUpLive, SomeHears;
  }

  // ---------------------------------------------------------------------
  // Starting points
  // ---------------------------------------------------------------------

  lemma LastIdGrows(c: Core, i: Input, now: Clock)
    requires PathInv(c)
    ensures c.db.lastId <= Step(c, i, now).db.lastId
  {
    hide HandleClientCommand, HandleRadioRx, CheckInFlightTimeout, RequestFullSync, ReconnectRadio,
      Conserved, Fifo, Told, SlotIsLastSent, KeptContacts, KeptClients, KeptMessages;
    match i {
      case Connect =>
      case Disconnect(_) =>
      case Command(cmd) => CommandKeepsMessages(c, cmd, now);
      case Radio(p) => RadioIdGrows(c, p, now);
      case TimeoutTick => TimeoutQuiet(c, now);
      case MaintenanceTick => RequestFullSyncQuiet(c, now);
      case LinkCloses =>
      case Reconnect(how) => ReconnectQuiet(c, how, now);
    }
  }

  lemma RadioIdGrows(c: Core, p: Frame, now: Clock)
    requires SlotIsLastSent(c)
    ensures c.db.lastId <= HandleRadioRx(c, p, now).db.lastId
  {
    hide SlotIsLastSent, HandleRadioRx, StoreMessage, CaughtUpLive;
    var post := HandleRadioRx(c, p, now);
    if p == [] {
      NothingArrives(c, now);
    } else if Storable(p) {
      MessageStored(c, p, now);
      StoreResult(c, MessageTimestamp(p), p, None, now);
    } else {
      OtherFrameStores(c, p, now);
      if !SameMail(c, post) {
        var e, timestamp, frame, origin :| StoresOnce(c, e, timestamp, frame, origin, now, post);
        hide Reached;
        StoreResult(e, timestamp, frame, origin, now);
      }
    }
  }

  /** In every fair run the promise starts at or below the newest id, so the guard above applies. */
  lemma {:induction false} RunStartBounded(c: Core, w: Watch, steps: seq<Timed>)
    requires ReplayInv(c, w) && PathInv(c) && Orderly(c) && FairRun(c, steps) && StartBounded(c, w)
    ensures StartBounded(Run(c, steps), WatchRun(c, w, steps))
  {
    hide ReplayInv, PathInv, Orderly, Fair, Step, StartAfter, ReplayedNow, ShownNow;
    if steps != [] {
      var n := |steps| - 1;
      var before, last := steps[..n], steps[n];
      FairPrefix(c, steps);
      RunStartBounded(c, w, before);
      RunKeepsReplay(c, w, before);
      RunKeepsReplay(c, w, steps);
      var d, v := Run(c, before), WatchRun(c, w, before);
      LastIdGrows(d, last.input, last.now);
      StepStartBounded(d, v, last.input, last.now);
    }
  }

  lemma StepStartBounded(c: Core, w: Watch, i: Input, now: Clock)
    requires StartBounded(c, w) && c.db.lastId <= Step(c, i, now).db.lastId
    requires ReplayInv(Step(c, i, now), WatchStep(w, c, i, now))
    ensures StartBounded(Step(c, i, now), WatchStep(w, c, i, now))
  {
    var d, w' := Step(c, i, now), WatchStep(w, c, i, now);
    hide Step, ReplayInv, ReplayedNow, ShownNow;
    forall who | who in d.db.clients && who in w'.start
      ensures w'.start[who] <= d.db.lastId
    {
      BasesBounded(d, w', who);
    }
  }
}
