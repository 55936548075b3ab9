/** With a radio that answers in order, and no timeouts, no message is lost. */
module InOrder {
  import opened Bytes
  import opened Protocol
  import opened Store
  import opened CoreState
  import opened RadioPath
  import opened Requests
  import opened Frames
  import opened Replay
  import opened NoLoss
  import opened Late
  import opened Flow
  import opened Firmware
  import opened Environment

  /** A radio hands messages over only when asked for them: a command that takes any reply gets none. */
  ghost predicate NoMessagesUnasked(w: World, a: Action) {
    a.Handle? && w.handled < |w.core.path.link.sent| && !Listed(w.core.path.link.sent[w.handled].payload) ==>
      forall f :: f in a.reply ==> !IsMessageCode(f[0])
  }

  ghost predicate AskedOnly(w: World) {
    forall i :: 0 <= i < w.handled && i < |w.core.path.link.sent| && i < |w.replies|
                && !Listed(w.core.path.link.sent[i].payload) ==>
      forall f :: f in w.replies[i] ==> !IsMessageCode(f[0])
  }

  /** The clock a step of the multiplexer reads; steps of the radio alone read none. */
  function StepOf(w: World, a: Action): seq<Timed> {
    match a
    case Own(i, now) => [Timed(i, now)]
    case Deliver(now) => if w.wire == [] then [] else [Timed(Radio(w.wire[0].frame), now)]
    case Renew(r, _, now) => [Timed(Reconnect(r), now)]
    case _ => []
  }

  /** What the multiplexer went through in a run of the whole system. */
  function StepsOf(worlds: seq<World>, actions: seq<Action>): seq<Timed>
    requires |worlds| >= |actions|
  {
    if actions == [] then []
    else
      var n := |actions| - 1;
      StepsOf(worlds[..n], actions[..n]) + StepOf(worlds[n], actions[n])
  }

  ghost predicate WellBehaved(worlds: seq<World>, actions: seq<Action>) {
    && Unfolds(worlds, actions)
    && forall n :: 0 <= n < |actions| ==>
         NoMessagesUnasked(worlds[n], actions[n])
         && forall t :: t in StepOf(worlds[n], actions[n]) ==> ClockOk(worlds[n].core, t.now)
  }

  lemma WellBehavedPrefix(worlds: seq<World>, actions: seq<Action>)
    requires WellBehaved(worlds, actions) && actions != []
    ensures WellBehaved(worlds[..|actions|], actions[..|actions| - 1])
  {
    UnfoldPrefix(worlds, actions);
    hide Unfolds, NoMessagesUnasked, ClockOk, StepOf;
  }

  // ---------------------------------------------------------------------
  // Messages come when asked for
  // ---------------------------------------------------------------------

  lemma DeliverSentGrows(w: World, now: Clock)
    requires WorldInv(w) && Allowed(w, Deliver(now)) && PushesMarked(w)
    ensures w.core.path.link.sent <= HandleRadioRx(w.core, w.wire[0].frame, now).path.link.sent
  {
    var p, c := w.wire[0].frame, w.core;
    hide HandleRadioRx, BelongsToInFlight;
    if w.wire[0].reply {
      SlotInv(c);
      NextReplyFrame(w);
      ReplySentGrows(c, p, now);
    } else {
      assert w.wire[0] in w.wire;
      DeliverPushMoves(c, p, now);
    }
  }

  lemma SentOnlyGrows(w: World, a: Action)
    requires WorldInv(w) && Allowed(w, a) && PushesMarked(w) && !a.Renew?
    ensures w.core.path.link.sent <= Act(w, a).core.path.link.sent
  {
    hide WorldInv, PushesMarked, HandleRadioRx, Answers, BelongsToInFlight;
    match a {
      case Own(i, now) =>
        OwnMoves(w.core, i, now);
        hide Step;
      case Deliver(now) =>
        RadioStep(w.core, w.wire[0].frame, now);
        DeliverSentGrows(w, now);
      case _ =>
    }
  }

  lemma ReplySentGrows(c: Core, p: Command, now: Clock)
    requires SlotIsLastSent(c) && BelongsToInFlight(c, p)
    ensures c.path.link.sent <= HandleRadioRx(c, p, now).path.link.sent
  {
    hide HandleRadioRx, AwaitingFor, CurrentFrames;
    if c.path.inFlight.value.awaiting.Completes(p[0]) {
      ReplyEnds(c, p, now);
    } else {
      ReplyContinues(c, p, now);
    }
  }

  lemma MoreSent(w: World, v: World)
    requires AskedOnly(w) && |w.replies| == w.handled <= |w.core.path.link.sent|
    requires w.core.path.link.sent <= v.core.path.link.sent && v.handled == w.handled && v.replies == w.replies
    ensures AskedOnly(v)
  {
    hide AwaitingFor;
  }

  lemma HandleAskedOnly(w: World, reply: seq<Command>, after: map<Item, Frame>)
    requires AskedOnly(w) && |w.replies| == w.handled < |w.core.path.link.sent|
             && NoMessagesUnasked(w, Handle(reply, after))
    ensures AskedOnly(Act(w, Handle(reply, after)))
  {
    hide AwaitingFor, Removed;
  }

  lemma ActAskedOnly(w: World, a: Action)
    requires WorldInv(w) && Allowed(w, a) && PushesMarked(w) && AskedOnly(w) && NoMessagesUnasked(w, a)
    ensures AskedOnly(Act(w, a))
  {
    InStepShort(w);
    hide WorldInv, PushesMarked, NoMessagesUnasked, Answers, BelongsToInFlight;
    if a.Handle? {
      HandleAskedOnly(w, a.reply, a.after);
    } else if !a.Renew? {
      SentOnlyGrows(w, a);
      hide Step, AskedOnly;
      MoreSent(w, Act(w, a));
    } else {
      hide Step, NotAskedFor;
      assert Act(w, a).handled == 0;
    }
  }

  lemma InStepShort(w: World)
    requires WorldInv(w)
    ensures |w.replies| == w.handled <= |w.core.path.link.sent|
  {
  }

  lemma InFlightTakes(c: Core, p: Command)
    requires SlotIsLastSent(c) && BelongsToInFlight(c, p) && IsMessageCode(p[0])
    ensures var cmd := c.path.inFlight.value.payload;
            (cmd[0] == 0x0A || !Listed(cmd))
            && c.path.link.sent != [] && c.path.link.sent[|c.path.link.sent| - 1].payload == cmd
  {
    TakenBy(c.path.inFlight.value, p);
    AnyIsUnlisted(c.path.inFlight.value.payload);
    hide Listed, AwaitingFor, OpenReply, CurrentFrames;
  }

  lemma InTheMiddle(read: seq<Command>, p: Command, rest: seq<Command>, reply: seq<Command>)
    requires read + [p] + rest == reply
    ensures p in reply
  {
    assert reply[|read|] == p;
  }

  /** The message at the head of the wire answers a GET_MSG in flight. */
  lemma HeadAnswers(w: World)
    requires WorldInv(w) && AskedOnly(w) && w.wire != [] && w.wire[0].reply && IsMessageCode(w.wire[0].frame[0])
    ensures w.core.path.inFlight.Some? && w.core.path.inFlight.value.payload[0] == 0x0A
  {
    hide PathInv, Shaped, InStep, Faithful, AwaitingFor, ReplyPart, CurrentFrames, SlotIsLastSent,
      IsMessageCode;
    var p, c, n := w.wire[0].frame, w.core, |w.core.path.link.sent| - 1;
    NextReplyFrame(w);
    SlotInv(c);
    InFlightTakes(c, p);
    InTheMiddle(CurrentFrames(c), p, ReplyPart(w.wire[1..]), w.replies[n]);
    NeverUnasked(w, n, p);
  }

  lemma NeverUnasked(w: World, n: nat, f: Command)
    requires AskedOnly(w) && n < w.handled && n < |w.core.path.link.sent| && n < |w.replies| && f in w.replies[n]
    requires IsMessageCode(f[0])
    ensures Listed(w.core.path.link.sent[n].payload)
  {
    hide Listed, IsMessageCode;
  }

  /** A message is delivered only while the GET_MSG it answers is in flight, so everybody hears it. */
  lemma MessageIsHeard(w: World, now: Clock)
    requires WorldInv(w) && AskedOnly(w) && Allowed(w, Deliver(now)) && PushesMarked(w) && Storable(w.wire[0].frame)
    ensures AllWouldHear(w.core)
  {
    var c := w.core;
    hide WorldInv, AskedOnly;
    assert w.wire[0] in w.wire;
    if w.wire[0].reply {
      HeadAnswers(w);
      forall k | k in c.sessions && k in c.live
        ensures SomeHears(c, c.sessions[k].who)
      {
        assert WouldHear(c, k);
      }
    }
  }

  lemma StepIsFair(w: World, a: Action, t: Timed)
    requires WorldInv(w) && AskedOnly(w) && Allowed(w, a) && PushesMarked(w) && t in StepOf(w, a)
             && ClockOk(w.core, t.now)
    ensures Fair(w.core, t.input, t.now) && Act(w, a).core == Step(w.core, t.input, t.now)
  {
    hide Step, ClockOk, WorldInv, PushesMarked, AskedOnly, AllWouldHear, BelongsToInFlight;
    if a.Deliver? && Storable(w.wire[0].frame) {
      MessageIsHeard(w, a.now);
    }
  }

  // ---------------------------------------------------------------------
  // Runs
  // ---------------------------------------------------------------------

  lemma FairAppend(c: Core, steps: seq<Timed>, t: Timed)
    requires FairRun(c, steps) && Fair(Run(c, steps), t.input, t.now)
    ensures FairRun(c, steps + [t]) && Run(c, steps + [t]) == Step(Run(c, steps), t.input, t.now)
  {
    var all := steps + [t];
    assert all[..|steps|] == steps;
    hide Fair, Step;
    forall n | 0 <= n < |all|
      ensures Fair(Run(c, all[..n]), all[n].input, all[n].now)
    {
      if n < |steps| {
        assert all[..n] == steps[..n];
      }
    }
  }

  /** The multiplexer's part of a run of the whole system is a fair run. */
  lemma {:induction false} WellBehavedIsFair(worlds: seq<World>, actions: seq<Action>)
    requires WellBehaved(worlds, actions)
    requires WorldInv(worlds[0]) && PushesMarked(worlds[0]) && AskedOnly(worlds[0])
    ensures FairRun(worlds[0].core, StepsOf(worlds, actions))
    ensures Run(worlds[0].core, StepsOf(worlds, actions)) == worlds[|actions|].core
    ensures AskedOnly(worlds[|actions|])
  {
    hide WorldInv, PushesMarked, AskedOnly, Act, Allowed, NoMessagesUnasked, ClockOk, Fair, StepOf, Step;
    if actions != [] {
      var n := |actions| - 1;
      var before, w, a := worlds[..n + 1], worlds[n], actions[n];
      WellBehavedPrefix(worlds, actions);
      WellBehavedIsFair(before, actions[..n]);
      UnfoldKeeps(before, actions[..n]);
      assert before[..n] == worlds[..n];
      StepsSame(before, worlds, actions[..n]);
      var steps := StepsOf(before, actions[..n]);
      ActAskedOnly(w, a);
      assert StepsOf(worlds, actions) == steps + StepOf(w, a);
      OneMoreStep(worlds[0].core, steps, w, a);
    }
  }

  lemma StepsSame(a: seq<World>, b: seq<World>, actions: seq<Action>)
    requires |a| >= |actions| && |b| >= |actions| && a[..|actions|] == b[..|actions|]
    ensures StepsOf(a, actions) == StepsOf(b[..|actions|], actions)
  {
    hide StepOf;
    if actions != [] {
      var n := |actions| - 1;
      assert a[n] == a[..|actions|][n] && b[n] == b[..|actions|][n];
      assert a[..n] == a[..|actions|][..n] && b[..|actions|][..n] == a[..n];
    }
  }

  lemma OneMoreStep(c0: Core, steps: seq<Timed>, w: World, a: Action)
    requires FairRun(c0, steps) && Run(c0, steps) == w.core
    requires WorldInv(w) && AskedOnly(w) && Allowed(w, a) && PushesMarked(w)
    requires forall t :: t in StepOf(w, a) ==> ClockOk(w.core, t.now)
    ensures FairRun(c0, steps + StepOf(w, a)) && Run(c0, steps + StepOf(w, a)) == Act(w, a).core
  {
    StepOrNone(w, a);
    hide WorldInv, PushesMarked, AskedOnly, Allowed, ClockOk, Fair, StepOf, Step, Act;
    if StepOf(w, a) == [] {
      assert steps + [] == steps;
    } else {
      var t := StepOf(w, a)[0];
      assert t in StepOf(w, a) && StepOf(w, a) == [t];
      StepIsFair(w, a, t);
      FairAppend(c0, steps, t);
    }
  }

  lemma StepOrNone(w: World, a: Action)
    requires Allowed(w, a)
    ensures |StepOf(w, a)| <= 1 && (StepOf(w, a) == [] ==> Act(w, a).core == w.core)
  {
    hide Answers, BelongsToInFlight;
  }

  /** No message is lost, end to end. Whatever clients do, wherever pushes come in, and across reconnections:
      with a radio that answers in order and hands messages over when asked, and without timeouts, every
      retained message an identity may be replayed, above where its promise starts and at or below its cursor,
      has been shown to it live, replayed to it, or sent by it. */
  lemma NoMessageIsLostInOrder(retention: Retention, backlog: Backlog, db: Tables, r: Reconnection,
                               tables: map<Item, Frame>,
                               now: Clock, worlds: seq<World>, actions: seq<Action>)
    requires SoundTables(db) && (backlog.Seconds? ==> ArrivalOrder(db))
    requires WellBehaved(worlds, actions) && worlds[0] == Begin(retention, backlog, db, r, tables, now)
    ensures var c0 := Start(retention, backlog, db, r, now);
            var c, w := worlds[|actions|].core, WatchRun(c0, WatchFrom(c0), StepsOf(worlds, actions));
            && (forall who :: who in c.db.clients ==> who in w.start)
            && (forall m, who | m in c.db.messages && who in c.db.clients ::
                  ReplayableTo(m, who) && w.start[who] < m.id <= c.db.clients[who].lastSeen ==>
                        (who, m.id as int) in w.seen)
  {
    BeginInv(retention, backlog, db, r, tables, now);
    BeginAskedOnly(retention, backlog, db, r, tables, now);
    assert |worlds| == |actions| + 1;
    hide WorldInv, PushesMarked, AskedOnly, Start, Run, WatchRun, Fair, WellBehaved, ReconnectRadio;
    WellBehavedIsFair(worlds, actions);
    NoMessageIsLost(retention, backlog, db, r, now, StepsOf(worlds, actions));
  }

  lemma BeginAskedOnly(retention: Retention, backlog: Backlog, db: Tables, r: Reconnection, tables: map<Item, Frame>,
                       now: Clock)
    ensures AskedOnly(Begin(retention, backlog, db, r, tables, now))
  {
    hide ReconnectRadio, Start;
  }
}
