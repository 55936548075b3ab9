/** What a session still has pending is the rest of what its identity had missed when it identified itself. */
module Pending {
  import opened Bytes
  import opened Protocol
  import opened Store
  import opened CoreState
  import opened RadioPath
  import opened Requests
  import opened Frames
  import opened Replay
  import opened NoLoss
  import opened ReplayOnce

  predicate IsSuffix(a: seq<int>, b: seq<int>) {
    |a| <= |b| && a == b[|b| - |a|..]
  }

  lemma SuffixTrans(a: seq<int>, b: seq<int>, d: seq<int>)
    requires IsSuffix(a, b) && IsSuffix(b, d)
    ensures IsSuffix(a, d)
  {
  }

  /** Who a connection is and what that identity had missed, as of the last time the connection identified itself. */
  function MissedAt(c: Core, steps: seq<Timed>): map<ClientId, Session> {
    if steps == [] then map[]
    else
      var n := |steps| - 1;
      var before, d, i := MissedAt(c, steps[..n]), Run(c, steps[..n]), steps[n].input;
      if Registers(d, i) then
        before[i.cmd.client := Session(WhoIs(i.cmd), MissedBy(d, WhoIs(i.cmd), steps[n].now))]
      else before
  }

  ghost predicate RestOf(c: Core, missed: map<ClientId, Session>) {
    forall k :: k in c.sessions ==>
      k in missed && missed[k].who == c.sessions[k].who && IsSuffix(c.sessions[k].pending, missed[k].pending)
  }

  /** Sessions end, or lose ids from the front. */
  ghost predicate Shrinks(c: Core, d: Core) {
    forall k :: k in d.sessions ==>
      k in c.sessions && d.sessions[k].who == c.sessions[k].who
          && IsSuffix(d.sessions[k].pending, c.sessions[k].pending)
  }

  lemma ShrinksRest(c: Core, d: Core, missed: map<ClientId, Session>)
    requires RestOf(c, missed) && Shrinks(c, d)
    ensures RestOf(d, missed)
  {
    hide IsSuffix;
    forall k | k in d.sessions
      ensures IsSuffix(d.sessions[k].pending, missed[k].pending)
    {
      SuffixTrans(d.sessions[k].pending, c.sessions[k].pending, missed[k].pending);
    }
  }

  lemma SameShrinks(c: Core, d: Core)
    requires d.sessions == c.sessions
    ensures Shrinks(c, d)
  {
  }

  lemma ShrinksTrans(c: Core, d: Core, e: Core)
    requires Shrinks(c, d) && Shrinks(d, e)
    ensures Shrinks(c, e)
  {
    hide IsSuffix;
    forall k | k in e.sessions
      ensures IsSuffix(e.sessions[k].pending, c.sessions[k].pending)
    {
      SuffixTrans(e.sessions[k].pending, d.sessions[k].pending, c.sessions[k].pending);
    }
  }

  // ---------------------------------------------------------------------
  // Steps
  // ---------------------------------------------------------------------

  lemma {:induction false} ServePops(c: Core, k: ClientId, now: Clock)
    requires k in c.sessions
    ensures Shrinks(c, ServeMissed(c, k, now).0)
    decreases |c.sessions[k].pending|
  {
    var s := c.sessions[k];
    if s.pending != [] {
      hide MessageFrame;
      var c1 := c.(sessions := c.sessions[k := s.(pending := s.pending[1..])]);
      assert Shrinks(c, c1);
      if MessageFrame(c.db, s.pending[0]).None? {
        ServePops(c1, k, now);
        ShrinksTrans(c, c1, ServeMissed(c1, k, now).0);
      }
    }
  }

  lemma ReplayPops(c: Core, k: ClientId, now: Clock)
    ensures Shrinks(c, ReplayNextMissed(c, k, now).0)
  {
    if k in c.sessions {
      ServePops(c, k, now);
      hide ServeMissed, MessageHead;
    }
  }

  lemma StoreShrinks(c: Core, timestamp: int, frame: Frame, origin: Option<Identity>, now: Clock)
    ensures Shrinks(c, StoreMessage(c, timestamp, frame, origin, now))
  {
    hide AdvanceAll, CaughtUp;
  }

  lemma RadioShrinks(c: Core, p: Frame, now: Clock)
    requires SlotIsLastSent(c)
    ensures Shrinks(c, HandleRadioRx(c, p, now))
  {
    hide SlotIsLastSent, HandleRadioRx, StoreMessage, Shrinks;
    var d := HandleRadioRx(c, p, now);
    if p == [] {
      NothingArrives(c, now);
      SameShrinks(c, d);
    } else if Storable(p) {
      MessageStored(c, p, now);
      StoreShrinks(c, MessageTimestamp(p), p, None, now);
      hide MessageTimestamp;
      SameShrinks(StoreMessage(c, MessageTimestamp(p), p, None, now), d);
      ShrinksTrans(c, StoreMessage(c, MessageTimestamp(p), p, None, now), d);
    } else {
      OtherFrameStores(c, p, now);
      if SameMail(c, d) {
        SameShrinks(c, d);
      } else {
        var e, timestamp, frame, origin :| StoresOnce(c, e, timestamp, frame, origin, now, d);
        hide Reached;
        SameShrinks(c, e);
        StoreShrinks(e, timestamp, frame, origin, now);
        SameShrinks(StoreMessage(e, timestamp, frame, origin, now), d);
        ShrinksTrans(c, e, StoreMessage(e, timestamp, frame, origin, now));
        ShrinksTrans(c, StoreMessage(e, timestamp, frame, origin, now), d);
      }
    }
  }

  lemma CommandShrinks(c: Core, cmd: ClientCommand, now: Clock)
    requires !Registers(c, Command(cmd))
    ensures Shrinks(c, HandleClientCommand(c, cmd, now))
  {
    var d := HandleClientCommand(c, cmd, now);
    if cmd.payload != [] && cmd.payload[0] == 0x0A && LiveSession(c, cmd.client) {
      ReplayThenForward(c, cmd, now);
      ReplayPops(c, cmd.client, now);
      hide HandleClientCommand, ReplayNextMissed, Shrinks;
      SameShrinks(ReplayNextMissed(c, cmd.client, now).0, d);
      ShrinksTrans(c, ReplayNextMissed(c, cmd.client, now).0, d);
    } else {
      OtherCommandQuiet(c, cmd, now);
      hide HandleClientCommand;
      SameShrinks(c, d);
    }
  }

  lemma StepShrinks(c: Core, i: Input, now: Clock)
    requires PathInv(c) && !Registers(c, i)
    ensures Shrinks(c, Step(c, i, now))
  {
    hide HandleClientCommand, HandleRadioRx, CheckInFlightTimeout, RequestFullSync, ReconnectRadio, Conserved, Fifo,
      Told, SlotIsLastSent, KeptMessages, KeptContacts, KeptClients, Registers;
    match i {
      case Connect => SameShrinks(c, Step(c, i, now));
      case Disconnect(_) => SameShrinks(c, Step(c, i, now));
      case Command(cmd) => CommandShrinks(c, cmd, now);
      case Radio(p) => RadioShrinks(c, p, now);
      case TimeoutTick =>
        TimeoutQuiet(c, now);
        SameShrinks(c, Step(c, i, now));
      case MaintenanceTick =>
        RequestFullSyncQuiet(c, now);
        SameShrinks(c, Step(c, i, now));
      case LinkCloses => SameShrinks(c, Step(c, i, now));
      case Reconnect(how) =>
        ReconnectQuiet(c, how, now);
        SameShrinks(c, Step(c, i, now));
    }
  }

  /** Identifying itself, a connection gets as pending all its identity has missed. */
  lemma RegisterRest(c: Core, cmd: ClientCommand, now: Clock, missed: map<ClientId, Session>)
    requires RestOf(c, missed) && Registers(c, Command(cmd))
    ensures RestOf(Step(c, Command(cmd), now),
                   missed[cmd.client := Session(WhoIs(cmd), MissedBy(c, WhoIs(cmd), now))])
  {
    RegisterMail(c, cmd, now);
    RowAfterRegister(c, cmd, now, WhoIs(cmd));
    hide Step, RegisterSession, MissedBy, SameSpeakers;
    assert forall s: seq<int> :: IsSuffix(s, s);
  }

  // ---------------------------------------------------------------------
  // Runs
  // ---------------------------------------------------------------------

  lemma {:induction false} RunRest(c: Core, steps: seq<Timed>)
    requires c.sessions == map[] && PathInv(c)
    ensures RestOf(Run(c, steps), MissedAt(c, steps)) && PathInv(Run(c, steps))
  {
    hide PathInv, Step, MissedBy;
    if steps != [] {
      var n := |steps| - 1;
      var d, t := Run(c, steps[..n]), steps[n];
      RunRest(c, steps[..n]);
      StepKeeps(d, t.input, t.now);
      hide RestOf;
      if Registers(d, t.input) {
        RegisterRest(d, t.input.cmd, t.now, MissedAt(c, steps[..n]));
      } else {
        StepShrinks(d, t.input, t.now);
        ShrinksRest(d, Step(d, t.input, t.now), MissedAt(c, steps[..n]));
      }
    }
  }

  /** Over every run: what a session has pending is a tail of the list of everything its identity had missed when
      the session identified itself. Ids leave it only from the front, by being served or because their message
      has been purged, and none ever joins it. */
  lemma PendingIsTheRest(retention: Retention, backlog: Backlog, db: Tables, r: Reconnection, now: Clock,
                         steps: seq<Timed>, k: ClientId)
    ensures var c0 := Start(retention, backlog, db, r, now);
            var c, missed := Run(c0, steps), MissedAt(c0, steps);
            k in c.sessions ==>
              k in missed && missed[k].who == c.sessions[k].who && IsSuffix(c.sessions[k].pending, missed[k].pending)
  {
    var c0 := Start(retention, backlog, db, r, now);
    StartMail(retention, backlog, db, r, now);
    StartPath(retention, backlog, db, r, now);
    hide Start, PathInv, Run, MissedAt, IsSuffix;
    RunRest(c0, steps);
  }

  /** Exactly: for an identity on record that list is, oldest first, every retained message above its cursor that it
      did not send itself, and nothing else. */
  lemma MissedExactly(c: Core, who: Identity, now: Clock, id: int)
    requires ValidMessages(c.db) && who in c.db.clients
    ensures Increasing(MissedBy(c, who, now))
    ensures id in MissedBy(c, who, now)
            <==> exists m :: m in c.db.messages && m.id == id && id > c.db.clients[who].lastSeen
                             && m.frame.Some? && m.origin != Some(who)
  {
    MessageIdsAfterExact(c.db, c.db.clients[who].lastSeen, who);
    hide MessageIdsAfter, BacklogMessageIds, ValidMessages;
  }
}
