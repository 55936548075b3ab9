/** A message that an identity does not hear is lost to it sooner or later: the guard of the no-loss promise is
    exact over every continuation of a run. */
module LateRuns {
  import opened Bytes
  import opened Protocol
  import opened Store
  import opened CoreState
  import opened RadioPath
  import opened Requests
  import opened Frames
  import opened Replay
  import opened NoLoss
  import opened ReplayOnce
  import opened Late
  import opened Links
  import opened Order

  // ---------------------------------------------------------------------
  // A step put before a run
  // ---------------------------------------------------------------------

  lemma {:induction false} WatchAfter(c: Core, w: Watch, t: Timed, steps: seq<Timed>)
    ensures WatchRun(c, w, [t] + steps) == WatchRun(Step(c, t.input, t.now), WatchStep(w, c, t.input, t.now), steps)
  {
    hide Step, WatchStep;
    var all := [t] + steps;
    if steps == [] {
      assert all == [t] && [t][..0] == [] && Run(c, []) == c;
    } else {
      var n := |steps| - 1;
      assert all[..|all| - 1] == [t] + steps[..n] && all[|all| - 1] == steps[n];
      WatchAfter(c, w, t, steps[..n]);
      RunAfter(c, t, steps[..n]);
    }
  }

  lemma FairAfter(c: Core, t: Timed, steps: seq<Timed>)
    requires Fair(c, t.input, t.now) && FairRun(Step(c, t.input, t.now), steps)
    ensures FairRun(c, [t] + steps)
  {
    hide Fair, Step;
    var all := [t] + steps;
    forall n | 0 <= n < |all|
      ensures Fair(Run(c, all[..n]), all[n].input, all[n].now)
    {
      if n == 0 {
        assert all[..0] == [] && Run(c, []) == c;
      } else {
        assert all[..n] == [t] + steps[..n - 1] && all[n] == steps[n - 1];
        RunAfter(c, t, steps[..n - 1]);
        hide Run;
      }
    }
  }

  // ---------------------------------------------------------------------
  // A message on its way to be lost
  // ---------------------------------------------------------------------

  /** The newest message, which the identity of `k` may be replayed and has not been shown, is not among what `k`
      still waits for. */
  ghost predicate Doomed(c: Core, w: Watch, k: ClientId, row: Message) {
    && LiveSession(c, k) && row.id > 0
    && c.db.messages != [] && c.db.messages[|c.db.messages| - 1] == row
    && ReplayableTo(row, c.sessions[k].who) && (c.sessions[k].who, row.id as int) !in w.seen
    && Increasing(c.sessions[k].pending) && (forall id :: id in c.sessions[k].pending ==> id < row.id)
    && (c.sessions[k].who in c.db.clients ==> c.sessions[k].who in w.start && w.start[c.sessions[k].who] < row.id)
    && (forall x :: x in BasesOf(c, w.base, c.sessions[k].who) ==> x < row.id)
    && (c.sessions[k].pending == [] ==>
          c.sessions[k].who in c.db.clients && row.id <= c.db.clients[c.sessions[k].who].lastSeen)
  }

  lemma DoomedIsLost(c: Core, w: Watch, k: ClientId, row: Message)
    requires Doomed(c, w, k, row) && c.sessions[k].pending == []
    ensures !NothingLost(c, w)
  {
    hide BasesOf, ReplayableTo;
    assert !NotLost(c, w, row, c.sessions[k].who);
    assert row in c.db.messages;
  }

  lemma {:induction false} ServeShrinks(c: Core, k: ClientId, now: Clock)
    requires k in c.sessions && c.sessions[k].pending != []
    ensures k in ServeMissed(c, k, now).0.sessions
            && |ServeMissed(c, k, now).0.sessions[k].pending| < |c.sessions[k].pending|
    decreases |c.sessions[k].pending|
  {
    var s := c.sessions[k];
    if MessageFrame(c.db, s.pending[0]).None? {
      hide MessageFrame;
      var c1 := c.(sessions := c.sessions[k := s.(pending := s.pending[1..])]);
      if c1.sessions[k].pending != [] {
        ServeShrinks(c1, k, now);
      }
    }
  }

  /** What asking for the next message leaves behind. */
  lemma AskedNext(c: Core, k: ClientId, now: Clock)
    requires LiveSession(c, k) && Increasing(c.sessions[k].pending) && c.sessions[k].pending != []
    ensures var d, who, p := ReplayNextMissed(c, k, now).0, c.sessions[k].who, c.sessions[k].pending;
            LiveSession(d, k) && d.sessions[k].who == who && Increasing(d.sessions[k].pending)
            && |d.sessions[k].pending| < |p| && (forall id :: id in d.sessions[k].pending ==> id in p)
            && SameSpeakers(c, d) && d.db.messages == c.db.messages && d.db.lastId == c.db.lastId && d.conf == c.conf
            && d.db.clients.Keys <= c.db.clients.Keys + {who}
            && (d.sessions[k].pending == [] ==> who in d.db.clients && MessageHead(c.db) <= d.db.clients[who].lastSeen)
  {
    ServeResult(c, k, now);
    ServeOther(c, k, now);
    ServeShrinks(c, k, now);
    ServeSpeakers(c, k, now);
    ServeKeepsMessages(c, k, now);
    hide ServeMissed, ServedId, Increasing;
  }

  /** Nothing is noted as shown by a GET_MSG but what was pending. */
  lemma NotedNext(c: Core, cmd: ClientCommand, now: Clock, x: (Identity, int))
    requires LiveSession(c, cmd.client) && cmd.payload != [] && cmd.payload[0] == 0x0A
    requires var d := HandleClientCommand(c, cmd, now); x in ReplayedNow(c, d) + ShownNow(c, d)
    ensures x.1 in c.sessions[cmd.client].pending
  {
    var d := HandleClientCommand(c, cmd, now);
    ReplayEvent(c, cmd.client, now);
    ReplayThenForward(c, cmd, now);
    ServedPending(c, cmd.client);
    CommandKeepsMessages(c, cmd, now);
    hide HandleClientCommand, ReplayNextMissed, ServedId;
    if ServedId(c, cmd.client) == [] {
      NotReplayed(c, d);
    } else {
      ReplayedIsAll(c, cmd, now);
      var e := d.out[|c.out|];
      assert News(c, d) == [e];
    }
  }

  lemma ReplayedIsAll(c: Core, cmd: ClientCommand, now: Clock)
    requires LiveSession(c, cmd.client) && cmd.payload != [] && cmd.payload[0] == 0x0A && ServedId(c, cmd.client) != []
    ensures HandleClientCommand(c, cmd, now) == ReplayNextMissed(c, cmd.client, now).0
  {
    ReplayEvent(c, cmd.client, now);
    hide ReplayNextMissed, ServeOrForward, ServedId;
  }

  function Ask(k: ClientId): ClientCommand {
    ClientCommand(k, 0, [0x0A])
  }

  /** One GET_MSG on, the message is still doomed, and less is pending. */
  lemma DoomedStays(c: Core, w: Watch, k: ClientId, row: Message, now: Clock)
    requires Doomed(c, w, k, row) && c.sessions[k].pending != []
    ensures var d, w' := Step(c, Command(Ask(k)), now), WatchStep(w, c, Command(Ask(k)), now);
            Doomed(d, w', k, row) && |d.sessions[k].pending| < |c.sessions[k].pending|
            && d.db.messages == c.db.messages && d.conf == c.conf
  {
    var i, who := Command(Ask(k)), c.sessions[k].who;
    var c2, d, w' := ReplayNextMissed(c, k, now).0, Step(c, i, now), WatchStep(w, c, i, now);
    CommandStep(c, Ask(k), now);
    ReplayThenForward(c, Ask(k), now);
    AskedNext(c, k, now);
    hide ReplayNextMissed, HandleClientCommand, Step, ReplayableTo, Increasing, BasesOf, ReplayedNow, ShownNow;
    assert SameSpeakers(c, d);
    SameBases(c, d, w.base, who);
    DoomedUnseen(c, w, k, row, now);
    DoomedStart(c, w, k, row, now);
    hide SameSpeakers, StartAfter;
    assert MessageHead(c.db) == row.id;
  }

  /** The promise to the identity keeps starting below the message. */
  lemma DoomedStart(c: Core, w: Watch, k: ClientId, row: Message, now: Clock)
    requires Doomed(c, w, k, row) && SameSpeakers(c, Step(c, Command(Ask(k)), now))
    ensures var d, w', who := Step(c, Command(Ask(k)), now), WatchStep(w, c, Command(Ask(k)), now), c.sessions[k].who;
            w'.base == w.base && (who in d.db.clients ==> who in w'.start && w'.start[who] < row.id)
  {
    SameBases(c, Step(c, Command(Ask(k)), now), w.base, c.sessions[k].who);
    hide Step, ReplayableTo, Increasing, BasesOf, ReplayedNow, ShownNow;
  }

  lemma DoomedUnseen(c: Core, w: Watch, k: ClientId, row: Message, now: Clock)
    requires Doomed(c, w, k, row) && c.sessions[k].pending != []
    ensures (c.sessions[k].who, row.id as int) !in WatchStep(w, c, Command(Ask(k)), now).seen
  {
    var x := (c.sessions[k].who, row.id as int);
    var d := HandleClientCommand(c, Ask(k), now);
    CommandStep(c, Ask(k), now);
    hide HandleClientCommand, Step, StartAfter, ReplayableTo, BasesOf, Increasing;
    if x in ReplayedNow(c, d) + ShownNow(c, d) {
      NotedNext(c, Ask(k), now, x);
      assert false;
    }
  }

  /** Asking on and on, the client gets past the message without ever being shown it. */
  lemma {:induction false} DoomedComes(c: Core, w: Watch, k: ClientId, row: Message, now: Clock)
    requires Doomed(c, w, k, row) && ClockOk(c, now)
    ensures exists steps :: FairRun(c, steps) && !NothingLost(Run(c, steps), WatchRun(c, w, steps))
    decreases if LiveSession(c, k) then |c.sessions[k].pending| else 0
  {
    hide Doomed, NothingLost, WatchStep, Step, ClockOk;
    assert LiveSession(c, k) by { DoomedLives(c, w, k, row); }
    if c.sessions[k].pending == [] {
      DoomedIsLost(c, w, k, row);
      assert FairRun(c, []) && Run(c, []) == c && WatchRun(c, w, []) == w;
    } else {
      var t := Timed(Command(Ask(k)), now);
      var d, w' := Step(c, t.input, now), WatchStep(w, c, t.input, now);
      DoomedStays(c, w, k, row, now);
      SameClockOk(c, d, now);
      DoomedComes(d, w', k, row, now);
      hide Run, WatchRun, FairRun;
      var steps :| FairRun(d, steps) && !NothingLost(Run(d, steps), WatchRun(d, w', steps));
      FairAfter(c, t, steps);
      RunAfter(c, t, steps);
      WatchAfter(c, w, t, steps);
    }
  }

  lemma DoomedLives(c: Core, w: Watch, k: ClientId, row: Message)
    requires Doomed(c, w, k, row)
    ensures LiveSession(c, k)
  {
  }

  lemma SameClockOk(c: Core, d: Core, now: Clock)
    requires ClockOk(c, now) && d.db.messages == c.db.messages && d.conf == c.conf
    ensures ClockOk(d, now)
  {
  }

  // ---------------------------------------------------------------------
  // The exact guard
  // ---------------------------------------------------------------------

  /** From here on, whatever fair steps follow, nothing is lost. */
  ghost predicate NeverLost(c: Core, w: Watch) {
    forall steps :: FairRun(c, steps) ==> NothingLost(Run(c, steps), WatchRun(c, w, steps))
  }

  lemma UnheardIsDoomed(c: Core, w: Watch, p: Command, d: Core, w': Watch, k: ClientId, row: Message)
    requires Arrived(c, w, p, d, w') && StartBounded(c, w)
    requires LiveSession(c, k) && !SomeHears(c, c.sessions[k].who)
    requires d.db.messages == c.db.messages + [row] && row.id == c.db.lastId + 1 && row.origin == None
             && row.frame.Some?
    requires SameSpeakers(c, d) && k in d.sessions && d.sessions[k] == c.sessions[k]
    requires Increasing(c.sessions[k].pending) && forall id :: id in c.sessions[k].pending ==> id <= c.db.lastId
    requires forall x :: x in BasesOf(c, w.base, c.sessions[k].who) ==> x <= c.db.lastId
    ensures Doomed(d, w', k, row)
  {
    hide SomeHears, BasesOf, Increasing, CaughtUpLive;
    SameBases(c, d, w.base, c.sessions[k].who);
    CaughtUpIf(c, k);
    assert LiveSession(d, k);
    hide SameSpeakers;
  }

  lemma CaughtUpIf(c: Core, k: ClientId)
    requires LiveSession(c, k)
    ensures c.sessions[k].pending == [] ==> c.sessions[k].who in CaughtUpLive(c)
  {
  }

  lemma EveryBase(c: Core, w: Watch, who: Identity)
    requires ReplayInv(c, w)
    ensures forall x :: x in BasesOf(c, w.base, who) ==> x <= c.db.lastId
  {
    BasesBounded(c, w, who);
    hide ReplayInv, BasesOf;
  }

  lemma SessionKnown(c: Core, w: Watch, k: ClientId)
    requires ReplayInv(c, w) && LiveSession(c, k)
    ensures Increasing(c.sessions[k].pending) && forall id :: id in c.sessions[k].pending ==> id <= c.db.lastId
  {
    assert SessionInv(c, w, k);
  }

  lemma MessageSpeakers(c: Core, p: Command, now: Clock)
    requires SlotIsLastSent(c) && Storable(p)
    ensures var d := Step(c, Radio(p), now);
            SameSpeakers(c, d) && (forall k :: LiveSession(c, k) ==> k in d.sessions && d.sessions[k] == c.sessions[k])
            && d.conf == c.conf
            && d.db.messages
            == c.db.messages + [Message(c.db.lastId + 1, MessageTimestamp(p), Some(now.unix), Some(p), None)]
  {
    RadioStep(c, p, now);
    MessageStored(c, p, now);
    StoreResult(c, MessageTimestamp(p), p, None, now);
    hide HandleRadioRx, Step, StoreMessage, MessageTimestamp, SlotIsLastSent, CaughtUpLive;
  }

  lemma MessageClockOk(c: Core, p: Command, now: Clock)
    requires ClockOk(c, now) && SlotIsLastSent(c) && Storable(p)
    ensures ClockOk(Step(c, Radio(p), now), now)
  {
    MessageSpeakers(c, p, now);
    hide Step, MessageTimestamp, SlotIsLastSent;
  }

  lemma SlotKnown(c: Core)
    requires PathInv(c)
    ensures SlotIsLastSent(c)
  {
  }

  /** An identity that would not hear the message is bound to lose it. */
  lemma UnheardIsLost(c: Core, w: Watch, p: Command, now: Clock)
    requires ReplayInv(c, w) && StartBounded(c, w) && PathInv(c) && ClockOk(c, now) && Storable(p) && !AllWouldHear(c)
    ensures !NeverLost(Step(c, Radio(p), now), WatchStep(w, c, Radio(p), now))
  {
    hide ReplayInv, Step, WatchStep, Doomed, ClockOk, SomeHears, NothingLost, FairRun, Run, WatchRun, MessageTimestamp,
      Storable, PathInv', NoIdleWait, SlotIsLastSent, BasesOf, SameSpeakers, Increasing, StartBounded, Arrived;
    var d, w' := Step(c, Radio(p), now), WatchStep(w, c, Radio(p), now);
    SlotKnown(c);
    var k: ClientId :| k in c.sessions && k in c.live && !SomeHears(c, c.sessions[k].who);
    assert LiveSession(c, k);
    var row := Message(c.db.lastId + 1, MessageTimestamp(p), Some(now.unix), Some(p), None);
    MessageSpeakers(c, p, now);
    MessageClockOk(c, p, now);
    MessageArrived(c, w, p, now);
    SessionKnown(c, w, k);
    EveryBase(c, w, c.sessions[k].who);
    UnheardIsDoomed(c, w, p, d, w', k, row);
    DoomedComes(d, w', k, row, now);
  }

  lemma HeardIsSafe(c: Core, w: Watch, p: Command, now: Clock)
    requires ReplayInv(c, w) && PathInv(c) && Orderly(c) && ClockOk(c, now) && Storable(p) && AllWouldHear(c)
    ensures NeverLost(Step(c, Radio(p), now), WatchStep(w, c, Radio(p), now))
  {
    var d, w' := Step(c, Radio(p), now), WatchStep(w, c, Radio(p), now);
    hide ReplayInv, Step, WatchStep, ClockOk, AllWouldHear, Storable, Conserved, Fifo, Told, SlotIsLastSent;
    MessageKeeps(c, w, p, now);
    StepKeeps(c, Radio(p), now);
    StepOrderly(c, Radio(p), now);
    hide PathInv, Orderly, FairRun, Run, WatchRun, NothingLost;
    forall steps | FairRun(d, steps)
      ensures NothingLost(Run(d, steps), WatchRun(d, w', steps))
    {
      RunKeepsReplay(d, w', steps);
      InvNothingLost(Run(d, steps), WatchRun(d, w', steps));
    }
  }

  lemma InvNothingLost(c: Core, w: Watch)
    requires ReplayInv(c, w)
    ensures NothingLost(c, w)
  {
  }

  /** Lost exactly when unheard. At any point at which nothing is owed that is not pending, a message frame may
      come in without anything ever being lost, whatever fair steps follow, if and only if every identity with a
      live connection has one that would hear it: a GET_MSG in flight, or its own request of a kind that takes
      any reply. An identity that still waits for older messages loses the new one when it has caught up. */
  lemma LostExactlyWhenUnheard(c: Core, w: Watch, p: Command, now: Clock)
    requires ReplayInv(c, w) && StartBounded(c, w) && PathInv(c) && Orderly(c) && ClockOk(c, now) && Storable(p)
    ensures (forall steps :: FairRun(Step(c, Radio(p), now), steps) ==>
               NothingLost(Run(Step(c, Radio(p), now), steps),
                           WatchRun(Step(c, Radio(p), now), WatchStep(w, c, Radio(p), now), steps)))
            <==> AllWouldHear(c)
  {
    hide ReplayInv, Step, WatchStep, PathInv, Orderly, ClockOk, Storable, AllWouldHear, FairRun, Run, WatchRun,
      NothingLost;
    if AllWouldHear(c) {
      HeardIsSafe(c, w, p, now);
    } else {
      UnheardIsLost(c, w, p, now);
    }
  }

  // ---------------------------------------------------------------------
  // An unheard message, from startup
  // ---------------------------------------------------------------------

  lemma StartKnowsSelf(retention: Retention, backlog: Backlog, db: Tables, r: Reconnection, now: Clock)
    ensures Start(retention, backlog, db, r, now).mem.selfInfo == Some(r.selfInfo)
  {
    var c := ReconnectRadio(Fresh(retention, backlog, db), r, now);
    HandshakeRemembers(Fresh(retention, backlog, db), r, now);
    hide ReconnectRadio, KeepDeviceInfo;
    if c.mem.deviceInfo.None? && DeviceInfo in c.db.blobs {
      DeviceOnly(c, c.db.blobs[DeviceInfo]);
    }
  }

  lemma DeviceOnly(c: Core, blob: Frame)
    ensures KeepDeviceInfo(c, blob).mem.selfInfo == c.mem.selfInfo
  {
  }

  /** A fair step keeps everything the guard is stated for. */
  ghost predicate Sound(c: Core, w: Watch) {
    ReplayInv(c, w) && PathInv(c) && Orderly(c) && StartBounded(c, w)
  }

  lemma SoundStep(c: Core, w: Watch, i: Input, now: Clock)
    requires Sound(c, w) && Fair(c, i, now)
    ensures Sound(Step(c, i, now), WatchStep(w, c, i, now))
  {
    hide ReplayInv, Step, WatchStep, PathInv, Orderly, StartBounded, AllWouldHear, ClockOk;
    StepKeepsReplay(c, w, i, now);
    StepKeeps(c, i, now);
    ClockFair(c, i, now);
    StepOrderly(c, i, now);
    LastIdGrows(c, i, now);
    StepStartBounded(c, w, i, now);
  }

  lemma ClockFair(c: Core, i: Input, now: Clock)
    requires Fair(c, i, now)
    ensures ClockOk(c, now)
  {
  }

  lemma SoundStart(retention: Retention, backlog: Backlog, db: Tables, r: Reconnection, now: Clock)
    requires SoundTables(db) && (backlog.Seconds? ==> ArrivalOrder(db))
    ensures var c := Start(retention, backlog, db, r, now); Sound(c, WatchFrom(c))
  {
    StartReplay(retention, backlog, db, r, now);
    StartPath(retention, backlog, db, r, now);
    hide PathInv, Orderly, Start, NothingLost, SessionInv, ValidMessages;
  }

  /** An APP_START answered from the cache leaves an identified, live connection and a path as it was. */
  lemma Identified(c: Core, cmd: ClientCommand, now: Clock)
    requires cmd.payload != [] && cmd.payload[0] == 0x01 && cmd.client in c.live && c.mem.selfInfo.Some?
    ensures var d := Step(c, Command(cmd), now);
            LiveSession(d, cmd.client) && d.path == c.path && d.db.messages == c.db.messages && d.conf == c.conf
  {
    CommandStep(c, cmd, now);
    CommandEnds(c, cmd, now);
    RegisterMail(c, cmd, now);
    CommandKeepsMessages(c, cmd, now);
    hide HandleClientCommand, Step, MissedBy, AppName, MessageHead, RespondContacts, ChannelFrame, ReplayNextMissed,
      SameSpeakers;
    assert !Forwarded(c, cmd, now);
  }

  /** Such a state is within reach of every startup: a client identifies itself, a message comes in that nobody
      has asked for, and some fair steps later it is lost to the client's identity. */
  lemma UnheardFromStart(retention: Retention, backlog: Backlog, db: Tables, r: Reconnection, now: Clock,
                         cmd: ClientCommand, p: Command)
    requires SoundTables(db) && (backlog.Seconds? ==> ArrivalOrder(db)) && !r.open
    requires ClockOk(Fresh(retention, backlog, db), now)
    requires cmd.client == 1 && cmd.payload != [] && cmd.payload[0] == 0x01 && Storable(p)
    ensures var c0 := Start(retention, backlog, db, r, now);
            var c1, w1 := Step(c0, Connect, now), WatchStep(WatchFrom(c0), c0, Connect, now);
            var c2, w2 := Step(c1, Command(cmd), now), WatchStep(w1, c1, Command(cmd), now);
            var c3, w3 := Step(c2, Radio(p), now), WatchStep(w2, c2, Radio(p), now);
            LiveSession(c2, 1)
            && exists steps :: FairRun(c3, steps) && !NothingLost(Run(c3, steps), WatchRun(c3, w3, steps))
  {
    var c0 := Start(retention, backlog, db, r, now);
    ClosedStart(retention, backlog, db, r, now);
    StartKnowsSelf(retention, backlog, db, r, now);
    StartMail(retention, backlog, db, r, now);
    SoundStart(retention, backlog, db, r, now);
    hide Start, Storable, FairRun, Run, WatchRun, NothingLost, WatchFrom, WatchStep, ReplayInv, PathInv, Orderly,
      StartBounded;
    SameClockOk(Fresh(retention, backlog, db), c0.(conf := Config(retention, backlog)), now);
    ConfClockOk(c0.(conf := Config(retention, backlog)), c0, now);
    var c1, w1 := Step(c0, Connect, now), WatchStep(WatchFrom(c0), c0, Connect, now);
    SoundStep(c0, WatchFrom(c0), Connect, now);
    SameClockOk(c0, c1, now);
    Identified(c1, cmd, now);
    SoundStep(c1, w1, Command(cmd), now);
    var c2, w2 := Step(c1, Command(cmd), now), WatchStep(w1, c1, Command(cmd), now);
    SameClockOk(c1, c2, now);
    NobodyHears(c2, 1);
    hide Step, Sound;
    assert Sound(c2, w2);
    SoundParts(c2, w2);
    UnheardIsLost(c2, w2, p, now);
  }

  lemma SoundParts(c: Core, w: Watch)
    requires Sound(c, w)
    ensures ReplayInv(c, w) && PathInv(c) && Orderly(c) && StartBounded(c, w)
  {
  }

  lemma ConfClockOk(c: Core, d: Core, now: Clock)
    requires ClockOk(c, now) && d.db.messages == c.db.messages && d.conf.backlog == c.conf.backlog
    ensures ClockOk(d, now)
  {
  }

  lemma NobodyHears(c: Core, k: ClientId)
    requires LiveSession(c, k) && c.path.inFlight.None?
    ensures !AllWouldHear(c)
  {
    assert k in c.sessions && k in c.live && !SomeHears(c, c.sessions[k].who);
  }
}
