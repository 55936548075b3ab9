/** The other half of at-most-once and of the order of replays: once connections of an identity have overlapped, there
    is a continuation in which a message is replayed twice, or out of order. */
module Repeats {
  import opened Bytes
  import opened Protocol
  import opened Store
  import opened CoreState
  import opened RadioPath
  import opened Requests
  import opened Frames
  import opened Replay
  import opened NoLoss
  import opened ReplayOnce
  import opened Overlap

  // ---------------------------------------------------------------------
  // Runs one after the other
  // ---------------------------------------------------------------------

  lemma {:induction false} RunConcat(c: Core, a: seq<Timed>, b: seq<Timed>)
    ensures Run(c, a + b) == Run(Run(c, a), b)
    ensures ReplayLog(c, a + b) == ReplayLog(c, a) + ReplayLog(Run(c, a), b)
  {
    hide Step, Replays;
    if b == [] {
      assert a + b == a;
    } else {
      var n := |b| - 1;
      RunConcat(c, a, b[..n]);
      assert (a + b)[..|a + b| - 1] == a + b[..n] && (a + b)[|a + b| - 1] == b[n];
    }
  }

  lemma {:induction false} IdsForConcat(a: seq<Replayed>, b: seq<Replayed>, who: Identity)
    ensures IdsFor(a + b, who) == IdsFor(a, who) + IdsFor(b, who)
  {
    if b == [] {
      assert a + b == a;
    } else {
      var n := |b| - 1;
      IdsForConcat(a, b[..n], who);
      assert (a + b)[..|a + b| - 1] == a + b[..n] && (a + b)[|a + b| - 1] == b[n];
    }
  }

  lemma OneStepRun(c: Core, t: Timed)
    ensures Run(c, [t]) == Step(c, t.input, t.now)
    ensures ReplayLog(c, [t]) == Replays(c, Step(c, t.input, t.now))
  {
    hide Step, Replays;
    assert [t][..0] == [];
    assert Run(c, []) == c && ReplayLog(c, []) == [];
  }

  // ---------------------------------------------------------------------
  // Asking for messages
  // ---------------------------------------------------------------------

  /** A GET_MSG of client `k`. */
  function GetMessage(k: ClientId, now: Clock): Timed {
    Timed(Command(ClientCommand(k, 0, [0x0A])), now)
  }

  /** Messages and live clients as before, and of the sessions only that of `k` has moved. */
  ghost predicate OnlyServed(c: Core, d: Core, k: ClientId) {
    && LiveSession(c, k)
    && d.db.messages == c.db.messages && d.db.lastId == c.db.lastId && d.live == c.live && d.nextClient == c.nextClient
    && LiveSession(d, k) && d.sessions[k].who == c.sessions[k].who
    && forall j :: j != k && LiveSession(c, j) ==> LiveSession(d, j) && d.sessions[j] == c.sessions[j]
  }

  /** A message that is pending is served, or pending still. */
  lemma {:induction false} ServedOrLeft(c: Core, k: ClientId, id: int, now: Clock)
    requires k in c.sessions && id in c.sessions[k].pending && Servable(c, id)
    ensures var d := ServeMissed(c, k, now).0;
            k in d.sessions && ServedId(c, k) != [] && |d.sessions[k].pending| < |c.sessions[k].pending|
            && (ServedId(c, k) == [id] || id in d.sessions[k].pending)
    decreases |c.sessions[k].pending|
  {
    var s := c.sessions[k];
    assert id == s.pending[0] || id in s.pending[1..];
    if MessageFrame(c.db, s.pending[0]).None? {
      hide MessageFrame;
      var c1 := c.(sessions := c.sessions[k := s.(pending := s.pending[1..])]);
      SameServable(c, c1, id);
      ServedOrLeft(c1, k, id, now);
    }
  }

  lemma AskServes(c: Core, k: ClientId, now: Clock)
    requires LiveSession(c, k)
    ensures var d := Step(c, GetMessage(k, now).input, now);
            OnlyServed(c, d, k) && d.sessions[k] == ServeMissed(c, k, now).0.sessions[k]
            && ReplayLog(c, [GetMessage(k, now)]) == ReplayOf(c, k) && Run(c, [GetMessage(k, now)]) == d
  {
    var cmd := ClientCommand(k, 0, [0x0A]);
    OneStepRun(c, GetMessage(k, now));
    CommandStep(c, cmd, now);
    ServeOther(c, k, now);
    ReplayNoted(c, cmd, now);
    ReplayThenForward(c, cmd, now);
    hide HandleClientCommand, ServeMissed, Step, Replays, MessageHead, ReplayLog, Run;
  }

  lemma OnlyServedOn(c: Core, d: Core, e: Core, k: ClientId)
    requires OnlyServed(c, d, k) && OnlyServed(d, e, k)
    ensures OnlyServed(c, e, k)
  {
  }

  lemma AskedIds(c: Core, k: ClientId, now: Clock)
    requires LiveSession(c, k)
    ensures IdsFor(ReplayLog(c, [GetMessage(k, now)]), c.sessions[k].who) == ServedId(c, k)
  {
    AskServes(c, k, now);
    ServedIds(c, k, [], c.sessions[k].who);
    hide ServedId, Step, ReplayLog, Run;
    assert [] + ReplayOf(c, k) == ReplayOf(c, k);
    assert IdsFor([], c.sessions[k].who) == [];
  }

  /** A connection that goes on asking is served whatever it still has pending. */
  lemma {:induction false} ServedInTheEnd(c: Core, k: ClientId, id: int, now: Clock) returns (steps: seq<Timed>)
    requires LiveSession(c, k) && id in c.sessions[k].pending && Servable(c, id)
    ensures id in IdsFor(ReplayLog(c, steps), c.sessions[k].who) && OnlyServed(c, Run(c, steps), k) && OnlyAsks(steps)
    decreases |c.sessions[k].pending|
  {
    hide Step, Run, ReplayLog, Servable, ServeMissed, ServedId, IdsFor, ReplayOf;
    var first, d, who := [GetMessage(k, now)], Step(c, GetMessage(k, now).input, now), c.sessions[k].who;
    AskServes(c, k, now);
    AskedIds(c, k, now);
    ServedOrLeft(c, k, id, now);
    SameServable(c, d, id);
    if ServedId(c, k) == [id] {
      steps := first;
    } else {
      var rest := ServedInTheEnd(d, k, id, now);
      steps := first + rest;
      RunConcat(c, first, rest);
      IdsForConcat(ReplayLog(c, first), ReplayLog(d, rest), who);
      OnlyServedOn(c, d, Run(d, rest), k);
    }
  }

  // ---------------------------------------------------------------------
  // Twice
  // ---------------------------------------------------------------------

  lemma TwiceRepeats(a: seq<int>, b: seq<int>, id: int)
    requires id in a && id in b
    ensures !NoRepeats(a + b)
  {
    var i :| 0 <= i < |a| && a[i] == id;
    var j :| 0 <= j < |b| && b[j] == id;
    assert (a + b)[i] == (a + b)[|a| + j];
  }

  /** Two connections of an identity that have the same stored message pending. */
  lemma BothServed(c: Core, j: ClientId, k: ClientId, id: int, now: Clock) returns (steps: seq<Timed>)
    requires j != k && LiveSession(c, j) && LiveSession(c, k) && c.sessions[j].who == c.sessions[k].who
    requires id in c.sessions[j].pending && id in c.sessions[k].pending && Servable(c, id)
    ensures !NoRepeats(IdsFor(ReplayLog(c, steps), c.sessions[j].who)) && OnlyAsks(steps)
  {
    hide Servable, Run, ReplayLog, NoRepeats, IdsFor;
    var a := ServedInTheEnd(c, j, id, now);
    var d := Run(c, a);
    SameServable(c, d, id);
    var b := ServedInTheEnd(d, k, id, now);
    steps := a + b;
    RunConcat(c, a, b);
    IdsForConcat(ReplayLog(c, a), ReplayLog(d, b), c.sessions[j].who);
    TwiceRepeats(IdsFor(ReplayLog(c, a), c.sessions[j].who), IdsFor(ReplayLog(d, b), c.sessions[j].who), id);
  }

  // ---------------------------------------------------------------------
  // Out of order
  // ---------------------------------------------------------------------

  lemma {:induction false} SameServed(c: Core, d: Core, k: ClientId)
    requires k in c.sessions && k in d.sessions && d.sessions[k] == c.sessions[k] && d.db.messages == c.db.messages
    ensures ServedId(d, k) == ServedId(c, k)
    decreases |c.sessions[k].pending|
  {
    var s := c.sessions[k];
    if s.pending != [] {
      SameFrame(c.db, d.db, s.pending[0]);
      if MessageFrame(c.db, s.pending[0]).None? {
        hide MessageFrame;
        var t := s.(pending := s.pending[1..]);
        SameServed(c.(sessions := c.sessions[k := t]), d.(sessions := d.sessions[k := t]), k);
      }
    }
  }

  /** The next of one connection, then the next of another. */
  lemma OneEach(c: Core, j: ClientId, k: ClientId, now: Clock)
    requires j != k && LiveSession(c, j) && LiveSession(c, k) && c.sessions[j].who == c.sessions[k].who
    ensures IdsFor(ReplayLog(c, [GetMessage(j, now), GetMessage(k, now)]), c.sessions[j].who)
            == ServedId(c, j) + ServedId(c, k)
  {
    var d := Step(c, GetMessage(j, now).input, now);
    AskServes(c, j, now);
    AskedIds(c, j, now);
    AskedIds(d, k, now);
    SameServed(c, d, k);
    hide Step, Run, ReplayLog, ServedId, IdsFor, GetMessage, ServeMissed;
    RunConcat(c, [GetMessage(j, now)], [GetMessage(k, now)]);
    assert [GetMessage(j, now)] + [GetMessage(k, now)] == [GetMessage(j, now), GetMessage(k, now)];
    IdsForConcat(ReplayLog(c, [GetMessage(j, now)]), ReplayLog(d, [GetMessage(k, now)]), c.sessions[j].who);
  }

  /** Two connections of an identity that both have something stored pending, served the later one first. */
  lemma ServedBackwards(c: Core, j: ClientId, k: ClientId, x: int, y: int, now: Clock) returns (steps: seq<Timed>)
    requires j != k && LiveSession(c, j) && LiveSession(c, k) && c.sessions[j].who == c.sessions[k].who
    requires x in c.sessions[j].pending && Servable(c, x) && y in c.sessions[k].pending && Servable(c, y)
    ensures !Increasing(IdsFor(ReplayLog(c, steps), c.sessions[j].who)) && OnlyAsks(steps)
  {
    hide ServedId, IdsFor, ReplayLog, ServeMissed, Servable, ReplayOf;
    ServedOrLeft(c, j, x, now);
    ServedOrLeft(c, k, y, now);
    ServedOne(c, j);
    ServedOne(c, k);
    OneEach(c, j, k, now);
    OneEach(c, k, j, now);
    var p, q := ServedId(c, j)[0], ServedId(c, k)[0];
    steps := if q <= p then [GetMessage(j, now), GetMessage(k, now)] else [GetMessage(k, now), GetMessage(j, now)];
    var ids := IdsFor(ReplayLog(c, steps), c.sessions[j].who);
    assert |ids| == 2 && ids[0] >= ids[1];
  }

  // ---------------------------------------------------------------------
  // Exactly when
  // ---------------------------------------------------------------------

  predicate OnlyAsks(steps: seq<Timed>) {
    forall t :: t in steps ==> t.input.Command? && t.input.cmd.payload == [0x0A]
  }

  /** Asking for messages purges nobody and identifies nobody. */
  lemma AsksAreQuiet(c: Core, steps: seq<Timed>, who: Identity, law: Law)
    requires OnlyAsks(steps)
    ensures StaysOnRecord(c, steps, who) && NobodyOverlaps(c, steps, who, law)
  {
    hide Run, Apart, MissedBy, WhoIs, NotBehind, Step;
    forall n | 0 <= n < |steps|
      ensures OnRecordStill(Run(c, steps[..n]), steps[n], who)
      ensures !Overlaps(Run(c, steps[..n]), steps[n].input, steps[n].now, who, law)
    {
      assert steps[n] in steps;
      AskKeepsRow(Run(c, steps[..n]), steps[n], who);
    }
  }

  lemma AskKeepsRow(c: Core, t: Timed, who: Identity)
    requires t.input.Command? && t.input.cmd.payload == [0x0A]
    ensures OnRecordStill(c, t, who)
  {
    CommandStep(c, t.input.cmd, t.now);
    CommandForward(c, t.input.cmd, t.now, who);
    hide HandleClientCommand, Step;
  }

  /** What the law forbids two connections to have pending is served against it. */
  lemma UnlawfullyServed(c: Core, j: ClientId, k: ClientId, law: Law, now: Clock) returns (steps: seq<Timed>)
    requires j != k && LiveSession(c, j) && LiveSession(c, k) && c.sessions[j].who == c.sessions[k].who
    requires !Apart(c, c.sessions[j].pending, c.sessions[k].pending, law)
    ensures !Lawful(IdsFor(ReplayLog(c, steps), c.sessions[j].who), law) && OnlyAsks(steps)
  {
    hide Servable, ReplayLog, NoRepeats, Increasing, IdsFor;
    var x, y :| x in c.sessions[j].pending && y in c.sessions[k].pending && Servable(c, x) && Servable(c, y)
                && !(law.Unruled? || (law.Once? && x != y));
    if law.Once? {
      steps := BothServed(c, j, k, x, now);
    } else {
      steps := ServedBackwards(c, j, k, x, y, now);
    }
  }

  lemma LawfulTail(a: seq<int>, b: seq<int>, law: Law)
    requires Lawful(a + b, law)
    ensures Lawful(b, law)
  {
    forall i, j | 0 <= i < j < |b|
      ensures law.Once? ==> b[i] != b[j]
      ensures law.InOrder? ==> b[i] < b[j]
    {
      assert (a + b)[|a| + i] == b[i] && (a + b)[|a| + j] == b[j];
    }
  }

  /** After a step that overlaps, some continuation of GET_MSGs breaks the law. */
  lemma OverlapBreaksLaw(c: Core, cmd: ClientCommand, now: Clock, log: seq<Replayed>, who: Identity,
                         law: Law) returns (more: seq<Timed>)
    requires Overlaps(c, Command(cmd), now, who, law)
    ensures var d := Step(c, Command(cmd), now);
            OnlyAsks(more) && !Lawful(IdsFor(log + Replays(c, d) + ReplayLog(d, more), who), law)
  {
    var d, p := Step(c, Command(cmd), now), MissedBy(c, who, now);
    Identifies(c, cmd, now);
    hide Step, AppName, MissedBy, IdsFor, ReplayLog, RegisterSession, Replays, Lawful;
    var j :| SessionOf(c, who, j) && j != cmd.client && !Apart(c, c.sessions[j].pending, p, law);
    if Apart(d, c.sessions[j].pending, p, law) {
      FewerApart(d, c, c.sessions[j].pending, p, c.sessions[j].pending, p, law);
    }
    hide Apart;
    more := UnlawfullyServed(d, j, cmd.client, law, now);
    IdsForConcat(log + Replays(c, d), ReplayLog(d, more), who);
    if Lawful(IdsFor(log + Replays(c, d) + ReplayLog(d, more), who), law) {
      LawfulTail(IdsFor(log + Replays(c, d), who), IdsFor(ReplayLog(d, more), who), law);
    }
  }

  /** No continuation without overlaps, in which the identity is not purged, replays anything against the law. */
  ghost predicate LawfulForGood(d: Core, log: seq<Replayed>, who: Identity, law: Law) {
    forall more :: StaysOnRecord(d, more, who) && NobodyOverlaps(d, more, who, law) ==>
      Lawful(IdsFor(log + ReplayLog(d, more), who), law)
  }

  /** Exactly. After any run without overlaps, a step is harmless, that is: nothing is replayed to the identity twice
      (or, for the other law, out of order) by that step and whatever follows it without overlaps, if and only if the
      step does not overlap itself. */
  lemma HarmlessExactly(retention: Retention, backlog: Backlog, db: Tables, r: Reconnection, start: Clock,
                        steps: seq<Timed>, t: Timed, who: Identity, law: Law)
    requires ValidMessages(db)
    requires var c0 := Start(retention, backlog, db, r, start);
             StaysOnRecord(c0, steps, who) && NobodyOverlaps(c0, steps, who, law)
    requires OnRecordStill(Run(Start(retention, backlog, db, r, start), steps), t, who)
    ensures var c0 := Start(retention, backlog, db, r, start);
            var c := Run(c0, steps);
            var d := Step(c, t.input, t.now);
            LawfulForGood(d, ReplayLog(c0, steps) + Replays(c, d), who, law) <==> !Overlaps(c, t.input, t.now, who, law)
  {
    var c0 := Start(retention, backlog, db, r, start);
    StartOnce(retention, backlog, db, r, start, steps, who, law);
    StartPath(retention, backlog, db, r, start);
    RunKeeps(c0, steps);
    hide Start, Run, PathInv, StaysOnRecord, NobodyOverlaps, OnceInv, ReplayLog;
    StepHarmless(Run(c0, steps), ReplayLog(c0, steps), t, who, law);
  }

  lemma StepHarmless(c: Core, log: seq<Replayed>, t: Timed, who: Identity, law: Law)
    requires OnceInv(c, log, who, law) && PathInv(c) && OnRecordStill(c, t, who)
    ensures var d := Step(c, t.input, t.now);
            LawfulForGood(d, log + Replays(c, d), who, law) <==> !Overlaps(c, t.input, t.now, who, law)
  {
    var d := Step(c, t.input, t.now);
    hide PathInv, Overlaps, StaysOnRecord, NobodyOverlaps, OnceInv, Lawful, Step, Replays, ReplayLog, IdsFor, Run;
    if Overlaps(c, t.input, t.now, who, law) {
      assert t.input.Command? by { OnlyCommandsOverlap(c, t, who, law); }
      var more := OverlapBreaksLaw(c, t.input.cmd, t.now, log, who, law);
      AsksAreQuiet(d, more, who, law);
    } else {
      StepOnce(c, t.input, t.now, log, who, law);
      StepKeeps(c, t.input, t.now);
      forall more | StaysOnRecord(d, more, who) && NobodyOverlaps(d, more, who, law)
        ensures Lawful(IdsFor(log + Replays(c, d) + ReplayLog(d, more), who), law)
      {
        RunOnce(d, more, log + Replays(c, d), who, law);
        InvIsLawful(Run(d, more), log + Replays(c, d) + ReplayLog(d, more), who, law);
      }
    }
  }

  lemma OnlyCommandsOverlap(c: Core, t: Timed, who: Identity, law: Law)
    requires Overlaps(c, t.input, t.now, who, law)
    ensures t.input.Command?
  {
    hide Apart, MissedBy, WhoIs;
  }

  lemma InvIsLawful(c: Core, log: seq<Replayed>, who: Identity, law: Law)
    requires OnceInv(c, log, who, law)
    ensures Lawful(IdsFor(log, who), law)
  {
    hide IdsFor, NoRepeats, Increasing, Owing, Behind, Apart;
  }

  // ---------------------------------------------------------------------
  // What an overlap is
  // ---------------------------------------------------------------------

  /** A stored message above the cursor that one connection has pending is owed to the next one too. */
  lemma OwedToo(c: Core, who: Identity, pending: seq<int>, id: int, now: Clock)
    requires ValidMessages(c.db) && Owing(c, who, pending) && id in pending && Servable(c, id)
    ensures id in MissedBy(c, who, now) <==> id > c.db.clients[who].lastSeen
  {
    FrameOfExact(c.db.messages, id);
    MessageIdsAfterExact(c.db, c.db.clients[who].lastSeen, who);
    var m :| m in c.db.messages && m.id == id && m.frame == FrameOf(c.db.messages, id);
    assert ReplayableTo(m, who);
    hide MessageIdsAfter, BacklogMessageIds, Increasing, FrameOf;
  }

  /** Whatever is owed is stored. */
  lemma OwedServable(c: Core, who: Identity, now: Clock, id: int)
    requires ValidMessages(c.db) && id in MissedBy(c, who, now)
    ensures Servable(c, id)
  {
    MissedReplayable(c, who, now, id);
    FrameOnRecord(c.db, id, who);
    hide MissedBy, MessageFrame;
  }

  /** In plain terms: an APP_START overlaps if another connection of its identity has a stored message pending that is
      above the cursor; or, for the order, any stored message, while something above the cursor is owed. */
  lemma OverlapIs(c: Core, cmd: ClientCommand, now: Clock, who: Identity, log: seq<Replayed>, law: Law)
    requires OnceInv(c, log, who, Unruled) && Registers(c, Command(cmd)) && WhoIs(cmd) == who && !law.Unruled?
    ensures Overlaps(c, Command(cmd), now, who, law)
            <==> exists j, id ::
                   SessionOf(c, who, j) && j != cmd.client && id in c.sessions[j].pending && Servable(c, id)
                   && (if law.Once? then id > c.db.clients[who].lastSeen else MissedBy(c, who, now) != [])
  {
    hide MissedBy, WhoIs, LogBelow, Behind, Servable;
    var p := MissedBy(c, who, now);
    forall j | SessionOf(c, who, j) && j != cmd.client
      ensures !Apart(c, c.sessions[j].pending, p, law)
              <==> exists id :: id in c.sessions[j].pending && Servable(c, id)
                     && (if law.Once? then id > c.db.clients[who].lastSeen else p != [])
    {
      assert Owing(c, who, c.sessions[j].pending);
      ApartIs(c, who, c.sessions[j].pending, now, law);
    }
  }

  lemma ApartIs(c: Core, who: Identity, pending: seq<int>, now: Clock, law: Law)
    requires ValidMessages(c.db) && Owing(c, who, pending) && !law.Unruled?
    ensures var p := MissedBy(c, who, now);
            !Apart(c, pending, p, law)
            <==> exists id :: id in pending && Servable(c, id)
                   && (if law.Once? then id > c.db.clients[who].lastSeen else p != [])
  {
    var p := MissedBy(c, who, now);
    hide MissedBy, Increasing, Servable, ReplayableTo, ValidMessages;
    forall id | id in p
      ensures Servable(c, id)
    {
      OwedServable(c, who, now, id);
    }
    forall id | id in pending && Servable(c, id)
      ensures id in p <==> id > c.db.clients[who].lastSeen
    {
      OwedToo(c, who, pending, id, now);
    }
    hide Owing;
    if !Apart(c, pending, p, law) {
      var x, y :| x in pending && y in p && Servable(c, x) && Servable(c, y)
          && !(law.Unruled? || (law.Once? && x != y));
      assert x in pending && Servable(c, x) && p != [];
    }
    if id :| id in pending && Servable(c, id) && (if law.Once? then id > c.db.clients[who].lastSeen else p != []) {
      var y := if law.Once? then id else p[0];
      assert y in p && Servable(c, y);
    }
  }
}
