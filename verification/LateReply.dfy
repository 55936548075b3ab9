/** The ordinary way to lose a message: the radio's reply to a GET_MSG comes after the request has timed out. */
module LateReply {
  import opened Bytes
  import opened Protocol
  import opened Store
  import opened CoreState
  import opened RadioPath
  import opened Requests
  import opened Outcomes
  import opened Frames
  import opened Flow
  import opened Liveness
  import opened Replay
  import opened NoLoss
  import opened ReplayOnce
  import opened Late
  import opened LateRuns
  import opened Links

  // ---------------------------------------------------------------------
  // Reached without a message going unheard
  // ---------------------------------------------------------------------

  /** Some fair run leads from one state, with what an onlooker has noted, to the other. */
  ghost predicate FairlyReached(c0: Core, w0: Watch, c: Core, w: Watch) {
    exists steps :: FairRun(c0, steps) && c == Run(c0, steps) && w == WatchRun(c0, w0, steps)
  }

  lemma FairlyThere(c: Core, w: Watch)
    ensures FairlyReached(c, w, c, w)
  {
    hide Fair, WatchStep, Step;
    assert FairRun(c, []) && c == Run(c, []) && w == WatchRun(c, w, []);
  }

  lemma FairlyNext(c0: Core, w0: Watch, c: Core, w: Watch, i: Input, now: Clock)
    requires FairlyReached(c0, w0, c, w) && Fair(c, i, now)
    ensures FairlyReached(c0, w0, Step(c, i, now), WatchStep(w, c, i, now))
  {
    hide Fair, WatchStep, Step;
    var steps :| FairRun(c0, steps) && c == Run(c0, steps) && w == WatchRun(c0, w0, steps);
    var t := Timed(i, now);
    var more := steps + [t];
    assert more[..|more| - 1] == steps && more[|more| - 1] == t;
    FairLonger(c0, steps, t);
    assert FairRun(c0, more) && Run(c0, more) == Step(c, i, now) && WatchRun(c0, w0, more) == WatchStep(w, c, i, now);
  }

  lemma FairLonger(c: Core, steps: seq<Timed>, t: Timed)
    requires FairRun(c, steps) && Fair(Run(c, steps), t.input, t.now)
    ensures FairRun(c, steps + [t])
  {
    hide Fair, Run;
    var more := steps + [t];
    forall n | 0 <= n < |more|
      ensures Fair(Run(c, more[..n]), more[n].input, more[n].now)
    {
      assert more[..n] == if n < |steps| then steps[..n] else steps;
    }
  }

  // ---------------------------------------------------------------------
  // Waiting a silent radio out
  // ---------------------------------------------------------------------

  /** An expiry leaves mail, configuration and link alone. */
  lemma ExpiryKeeps(c: Core, now: Clock)
    ensures var d := Step(c, TimeoutTick, now); SameMail(c, d) && CanSend(d) == CanSend(c)
  {
    TimeoutQuiet(c, now);
    if TimedOut(c, now) {
      AdvanceFlows(FailInFlight(c), now);
    }
    hide AdvanceQueue, Wire;
  }

  lemma TickIsFair(c: Core, now: Clock)
    requires ClockOk(c, now)
    ensures Fair(c, TimeoutTick, now)
  {
  }

  lemma SameMailClockOk(c: Core, d: Core, now: Clock, unix: int)
    requires ClockOk(c, now) && SameMail(c, d) && unix == now.unix
    ensures forall mono :: ClockOk(d, Clock(mono, unix))
  {
  }

  /** Everything on the path is given up in the end, over a link that stays as it is. */
  lemma {:induction false} WaitsOut(c0: Core, w0: Watch, c: Core, w: Watch, now: Clock) returns (d: Core, v: Watch)
    requires FairlyReached(c0, w0, c, w) && Sound(c, w) && !Stuck(c) && ClockOk(c, now)
    ensures FairlyReached(c0, w0, d, v) && Sound(d, v) && SameMail(c, d) && CanSend(d) == CanSend(c)
            && Outstanding(d) == []
    decreases |Outstanding(c)|
  {
    d, v := c, w;
    if c.path.inFlight.None? {
      hide FairlyReached, Sound, ClockOk;
    } else {
      var later := Clock(c.path.inFlight.value.lastActivity + IN_FLIGHT_TIMEOUT_MS, now.unix);
      assert TimedOut(c, later);
      SameMailClockOk(c, c, now, now.unix);
      TickIsFair(c, later);
      SilentStep(c, TimeoutTick, later, {});
      ExpiryKeeps(c, later);
      hide FairlyReached, Sound, ClockOk, Step, WatchStep, Fair, FateOf, TimedOut, CanSend;
      FairlyNext(c0, w0, c, w, TimeoutTick, later);
      SoundStep(c, w, TimeoutTick, later);
      d, v := Step(c, TimeoutTick, later), WatchStep(w, c, TimeoutTick, later);
      SameMailClockOk(c, d, now, now.unix);
      d, v := WaitsOut(c0, w0, d, v, now);
    }
  }

  // ---------------------------------------------------------------------
  // The late reply
  // ---------------------------------------------------------------------

  /** Client `k` has been sent everything it missed, and its GET_MSG is in flight with nothing behind it. */
  ghost predicate AsksAlone(c: Core, k: ClientId) {
    LiveSession(c, k) && CanSend(c) && c.path.queue == []
    && c.path.inFlight.Some? && c.path.inFlight.value.client == Some(k) && c.path.inFlight.value.payload == [0x0A]
  }

  lemma ExpiresAlone(c: Core, k: ClientId, now: Clock)
    requires AsksAlone(c, k) && TimedOut(c, now)
    ensures var d := Step(c, TimeoutTick, now);
            d.path.inFlight.None? && LiveSession(d, k) && CanSend(d)
            && d.out == c.out + [ToClient(k, [0x01, 0x01], [0x01, 0x01], Failure)]
  {
    hide CurrentFrames;
  }

  /** A GET_MSG that is given up is answered with ERROR; the message that the radio sends in reply after that is
      stored, and in some continuation, whose messages are all heard, it is lost to the very identity that had
      asked for it. */
  lemma LateReplyIsLost(c: Core, w: Watch, k: ClientId, p: Command, now: Clock)
    requires Sound(c, w) && AsksAlone(c, k) && TimedOut(c, now) && ClockOk(c, now) && Storable(p)
    ensures var d, v := Step(c, TimeoutTick, now), WatchStep(w, c, TimeoutTick, now);
            CanSend(d) && d.out == c.out + [ToClient(k, [0x01, 0x01], [0x01, 0x01], Failure)]
            && exists steps ::
                 FairRun(Step(d, Radio(p), now), steps)
                 && !NothingLost(Run(Step(d, Radio(p), now), steps),
                                 WatchRun(Step(d, Radio(p), now), WatchStep(v, d, Radio(p), now), steps))
  {
    var d, v := Step(c, TimeoutTick, now), WatchStep(w, c, TimeoutTick, now);
    ExpiresAlone(c, k, now);
    TickIsFair(c, now);
    SoundStep(c, w, TimeoutTick, now);
    ExpiryKeeps(c, now);
    SameMailClockOk(c, d, now, now.unix);
    assert now == Clock(now.mono, now.unix);
    NobodyHears(d, k);
    hide Step, WatchStep, Sound, ClockOk, Storable, FairRun, Run, WatchRun, NothingLost, AsksAlone, AllWouldHear,
      CanSend, Wire;
    assert Sound(d, v);
    SoundParts(d, v);
    UnheardIsLost(d, v, p, now);
  }

  // ---------------------------------------------------------------------
  // From a startup
  // ---------------------------------------------------------------------

  /** Identifying itself, a client to which nothing is owed has nothing pending. */
  lemma NothingOwed(c: Core, cmd: ClientCommand, now: Clock)
    requires Registers(c, Command(cmd)) && c.mem.selfInfo.Some? && MissedBy(c, WhoIs(cmd), now) == []
    ensures var d := Step(c, Command(cmd), now);
            LiveSession(d, cmd.client) && d.sessions[cmd.client].pending == [] && d.path == c.path && d.conf == c.conf
            && d.db.messages == c.db.messages && d.live == c.live
  {
    Identified(c, cmd, now);
    RegisterMail(c, cmd, now);
    RowAfterRegister(c, cmd, now, WhoIs(cmd));
    hide Step, RegisterSession, MissedBy, AppName;
  }

  /** With nothing pending and nothing on the path, a GET_MSG goes to the radio. */
  lemma GetMessageGoes(c: Core, k: ClientId, now: Clock)
    requires LiveSession(c, k) && c.sessions[k].pending == [] && Outstanding(c) == [] && CanSend(c)
    ensures var d := Step(c, Command(ClientCommand(k, 0, [0x0A])), now);
            AsksAlone(d, k) && d.path.inFlight.value.lastActivity == now.mono
            && d.db.messages == c.db.messages && d.conf == c.conf
  {
    var cmd := ClientCommand(k, 0, [0x0A]);
    CommandStep(c, cmd, now);
    hide AwaitingFor, IdentityOf, MessageHead, Wire, Step;
    assert c.path.inFlight.None? && c.path.queue == [];
    var c1 := CatchUp(c, k, c.sessions[k].who, now);
    assert ReplayNextMissed(c, k, now) == (c1, false);
    assert TryServeFromCache(c1, cmd).None?;
    assert HandleClientCommand(c, cmd, now)
           == DispatchToRadio(Arrive(c1, [Request(Some(k), [0x0A])]), Request(Some(k), [0x0A]), now);
  }

  lemma CommandIsFair(c: Core, cmd: ClientCommand, now: Clock)
    requires ClockOk(c, now)
    ensures Fair(c, Command(cmd), now) && Fair(c, Connect, now)
  {
  }

  lemma OpenStart(retention: Retention, backlog: Backlog, db: Tables, r: Reconnection, now: Clock)
    requires r.open
    ensures var c := Start(retention, backlog, db, r, now); CanSend(c) && c.path.inFlight.Some?
  {
    var f := Fresh(retention, backlog, db);
    ReconnectStarts(f, r, now);
    hide ReconnectRadio, LoseRadio, FailedAttempts, InitializeRadio, SyncFromRadio, RestoreBlobs, NewLink;
    var c2 := FailedAttempts(LoseRadio(f).(live := f.live - r.left), r.attempts, now);
    SyncStarts(InitializeRadio(WithLink(c2, Link(true, r.open, [], [])), r, now), now);
    RestoreOnlyMemory(ReconnectRadio(f, r, now));
  }

  lemma SameMissedBy(c: Core, d: Core, who: Identity, now: Clock)
    requires d.db.messages == c.db.messages && d.db.clients == c.db.clients && d.conf.backlog == c.conf.backlog
    ensures MissedBy(d, who, now) == MissedBy(c, who, now)
  {
    assert Filter(d.db.messages, (m: Message) => ReplayableTo(m, who))
           == Filter(c.db.messages, (m: Message) => ReplayableTo(m, who));
  }

  /** A client to which nothing is owed has connected and identified itself. */
  lemma Arrives(retention: Retention, backlog: Backlog, db: Tables, r: Reconnection, now: Clock, cmd: ClientCommand)
      returns (c: Core, w: Watch)
    requires SoundTables(db) && (backlog.Seconds? ==> ArrivalOrder(db)) && r.open
    requires ClockOk(Fresh(retention, backlog, db), now)
             && MissedBy(Fresh(retention, backlog, db), WhoIs(cmd), now) == []
    requires cmd.client == 1 && cmd.payload != [] && cmd.payload[0] == 0x01
    ensures var c0 := Start(retention, backlog, db, r, now); FairlyReached(c0, WatchFrom(c0), c, w)
    ensures Sound(c, w) && ClockOk(c, now) && LiveSession(c, 1) && c.sessions[1].pending == [] && CanSend(c)
            && !Stuck(c)
  {
    var c0 := Start(retention, backlog, db, r, now);
    var w0, f := WatchFrom(c0), Fresh(retention, backlog, db);
    OpenStart(retention, backlog, db, r, now);
    StartKnowsSelf(retention, backlog, db, r, now);
    StartMail(retention, backlog, db, r, now);
    SoundStart(retention, backlog, db, r, now);
    SameMissedBy(f, c0, WhoIs(cmd), now);
    SameClockOk(f, c0.(conf := Config(retention, backlog)), now);
    ConfClockOk(c0.(conf := Config(retention, backlog)), c0, now);
    hide Start, Fresh, WatchFrom, Sound, ClockOk, MissedBy, WhoIs, WatchStep, Fair, FairlyReached, SoundTables;
    FairlyThere(c0, w0);
    CommandIsFair(c0, cmd, now);
    FairlyNext(c0, w0, c0, w0, Connect, now);
    SoundStep(c0, w0, Connect, now);
    var c1, w1 := Step(c0, Connect, now), WatchStep(w0, c0, Connect, now);
    SameClockOk(c0, c1, now);
    SameMissedBy(c0, c1, WhoIs(cmd), now);
    CommandIsFair(c1, cmd, now);
    FairlyNext(c0, w0, c1, w1, Command(cmd), now);
    SoundStep(c1, w1, Command(cmd), now);
    NothingOwed(c1, cmd, now);
    hide Step;
    c, w := Step(c1, Command(cmd), now), WatchStep(w1, c1, Command(cmd), now);
    SameClockOk(c1, c, now);
  }

  /** From every startup over a link that stays open a fair run leads there: the startup questions are given up, a
      client to which nothing is owed identifies itself and sends GET_MSG to the radio, and its time runs out. */
  lemma LateReplyFromStart(retention: Retention, backlog: Backlog, db: Tables, r: Reconnection, now: Clock,
                           cmd: ClientCommand, p: Command)
    requires SoundTables(db) && (backlog.Seconds? ==> ArrivalOrder(db)) && r.open
    requires ClockOk(Fresh(retention, backlog, db), now)
             && MissedBy(Fresh(retention, backlog, db), WhoIs(cmd), now) == []
    requires cmd.client == 1 && cmd.payload != [] && cmd.payload[0] == 0x01 && Storable(p)
    ensures var c0 := Start(retention, backlog, db, r, now);
            exists c, w, later ::
              FairlyReached(c0, WatchFrom(c0), c, w) && AsksAlone(c, 1) && TimedOut(c, later)
                  && LostWhenLate(c, w, p, later)
  {
    var c0 := Start(retention, backlog, db, r, now);
    hide Start, Fresh, WatchFrom, Sound, ClockOk, MissedBy, WhoIs, WatchStep, Fair, FairlyReached, SoundTables, Step,
      Stuck, CanSend, AsksAlone, Storable, Outstanding, LostWhenLate;
    var c1, w1 := Arrives(retention, backlog, db, r, now, cmd);
    var c2, w2 := WaitsOut(c0, WatchFrom(c0), c1, w1, now);
    SameMailClockOk(c1, c2, now, now.unix);
    assert now == Clock(now.mono, now.unix);
    var get := ClientCommand(1, 0, [0x0A]);
    CommandIsFair(c2, get, now);
    FairlyNext(c0, WatchFrom(c0), c2, w2, Command(get), now);
    SoundStep(c2, w2, Command(get), now);
    GetMessageGoes(c2, 1, now);
    var c, w := Step(c2, Command(get), now), WatchStep(w2, c2, Command(get), now);
    SameClockOk(c2, c, now);
    var later := Clock(now.mono + IN_FLIGHT_TIMEOUT_MS, now.unix);
    LaterClockOk(c, now, later);
    SlotHeld(c);
    LateLost(c, w, p, later);
  }

  lemma SlotHeld(c: Core)
    requires AsksAlone(c, 1)
    ensures c.path.inFlight.Some?
  {
  }

  lemma LaterClockOk(c: Core, now: Clock, later: Clock)
    requires ClockOk(c, now) && later.unix == now.unix
    ensures ClockOk(c, later)
  {
  }

  /** After the expiry and the late reply, some continuation whose messages are all heard has lost one. */
  ghost predicate LostWhenLate(c: Core, w: Watch, p: Command, now: Clock) {
    var d, v := Step(c, TimeoutTick, now), WatchStep(w, c, TimeoutTick, now);
    exists steps ::
      FairRun(Step(d, Radio(p), now), steps)
      && !NothingLost(Run(Step(d, Radio(p), now), steps),
                      WatchRun(Step(d, Radio(p), now), WatchStep(v, d, Radio(p), now), steps))
  }

  lemma LateLost(c: Core, w: Watch, p: Command, now: Clock)
    requires Sound(c, w) && AsksAlone(c, 1) && TimedOut(c, now) && ClockOk(c, now) && Storable(p)
    ensures LostWhenLate(c, w, p, now)
  {
    LateReplyIsLost(c, w, 1, p, now);
    hide Step, WatchStep, Sound, AsksAlone, ClockOk, Storable, FairRun, Run, WatchRun, NothingLost;
  }
}
