/** Once a command has gone out that changes the radio's own data, nobody is handed what was known of it before. */
module Setters {
  import opened Bytes
  import opened Protocol
  import opened Store
  import opened CoreState
  import opened RadioPath
  import opened Requests
  import opened Frames
  import opened Outcomes
  import opened Links
  import opened Flow
  import opened Firmware
  import opened Replay
  import opened Reports

  predicate NothingKnown(c: Core) {
    c.mem.selfInfo.None? && c.mem.deviceInfo.None? && c.mem.batteryInfo.None?
  }

  // ---------------------------------------------------------------------
  // The step that sends
  // ---------------------------------------------------------------------

  /** Nothing was sent, or the request now in flight was; and if that is a setter, nothing is known any more. */
  ghost predicate Withdrawn(c: Core, d: Core) {
    d.path.link.sent == c.path.link.sent
    || (d.path.inFlight.Some? && d.path.link.sent == c.path.link.sent + [d.path.inFlight.value.Req()]
        && (IsSetter(d.path.inFlight.value.payload) ==> NothingKnown(d)))
  }

  lemma FlowsWithdraw(c: Core, d: Core)
    requires Flows(c, d)
    ensures Withdrawn(c, d)
  {
    if NewSlot(c, d) {
      InvalidateIs(c, d.path.inFlight.value.payload);
    }
    hide Invalidate, QueueFlows;
  }

  lemma SameSent(c: Core, e: Core, d: Core)
    requires e.path.link.sent == c.path.link.sent && Withdrawn(e, d)
    ensures Withdrawn(c, d)
  {
    hide IsSetter, NothingKnown;
  }

  lemma RouteWithdraws(c: Core, p: Command, now: Clock)
    requires SlotIsLastSent(c) && BelongsToInFlight(c, p)
    ensures Withdrawn(c, RouteToInFlight(c, p, now))
  {
    var f := c.path.inFlight.value;
    var c1 := Forward(c, f, p, now);
    ForwardFlow(c, p, now);
    hide Forward, Complete, AwaitingFor, SlotIsLastSent, FollowUp, Withdrawn;
    if f.awaiting.Completes(p[0]) {
      CompleteFlows(c1, f, p, now);
      FlowsWithdraw(WithSlot(c1, None), Complete(c1, f, p, now));
      SameSent(c, WithSlot(c1, None), Complete(c1, f, p, now));
    } else {
      StaysSent(c, WithSlot(c1, Some(f.(lastActivity := now.mono))));
    }
  }

  lemma StaysSent(c: Core, d: Core)
    requires d.path.link.sent == c.path.link.sent
    ensures Withdrawn(c, d)
  {
  }

  lemma RadioWithdraws(c: Core, p: Frame, now: Clock)
    requires SlotIsLastSent(c)
    ensures Withdrawn(c, HandleRadioRx(c, p, now))
  {
    if p == [] {
      StaysSent(c, c);
    } else {
      CacheUnanswered(c, p, now);
      var c1, d := CacheResponse(c, p, now), HandleRadioRx(c, p, now);
      assert SlotIsLastSent(c1);
      hide CacheResponse, RouteToInFlight, HandlePush, SlotIsLastSent, Withdrawn, Flows, RouteAck;
      if BelongsToInFlight(c1, p) {
        RouteWithdraws(c1, p, now);
      } else if MatchesAck(c1, p) {
        AckUnanswered(c1, p);
        StaysSent(c1, RouteAck(c1, p));
      } else if IsPush(p[0]) {
        PushFlows(c1, p, now);
        FlowsWithdraw(c1, HandlePush(c1, p, now));
      } else {
        StaysSent(c1, c1);
      }
      SameSent(c, c1, d);
    }
  }

  lemma TimeoutWithdraws(c: Core, now: Clock)
    ensures Withdrawn(c, CheckInFlightTimeout(c, now))
  {
    hide AdvanceQueue, Wire, Withdrawn;
    StaysSent(c, c);
    if TimedOut(c, now) {
      AdvanceFlows(FailInFlight(c), now);
      FlowsWithdraw(FailInFlight(c), AdvanceQueue(FailInFlight(c), now));
      SameSent(c, FailInFlight(c), AdvanceQueue(FailInFlight(c), now));
    }
  }

  lemma MaintenanceWithdraws(c: Core, now: Clock)
    ensures Withdrawn(c, RunMaintenance(c, now))
  {
    hide RequestFullSync, Maintain, Flows;
    RequestFullSyncFlows(c, now);
    FlowsWithdraw(c, RequestFullSync(c, now));
  }

  lemma StepWithdraws(c: Core, i: Input, now: Clock)
    requires SlotIsLastSent(c) && !i.Reconnect?
    ensures Withdrawn(c, Step(c, i, now))
  {
    hide HandleClientCommand, HandleRadioRx, CheckInFlightTimeout, RunMaintenance, SlotIsLastSent, Withdrawn, Flows;
    match i {
      case Connect => StaysSent(c, Step(c, i, now));
      case Disconnect(_) => StaysSent(c, Step(c, i, now));
      case Command(cmd) =>
        CommandFlows(c, cmd, now);
        FlowsWithdraw(c, HandleClientCommand(c, cmd, now));
      case Radio(p) => RadioWithdraws(c, p, now);
      case TimeoutTick => TimeoutWithdraws(c, now);
      case MaintenanceTick => MaintenanceWithdraws(c, now);
      case LinkCloses => StaysSent(c, Step(c, i, now));
    }
  }

  // ---------------------------------------------------------------------
  // The steps after it
  // ---------------------------------------------------------------------

  /** In the step a setter goes out over the link. */
  ghost predicate SetterGoesOut(c: Core, t: Timed) {
    !t.input.Reconnect?
    && exists q: Request ::
         Step(c, t.input, t.now).path.link.sent == c.path.link.sent + [q] && IsSetter(q.payload)
  }

  /** In none of the steps the radio says anything under the code. */
  ghost predicate NotToldOf(steps: seq<Timed>, code: byte) {
    forall n :: 0 <= n < |steps| ==> Last(ReportsOf(steps[n].input), code).None?
  }

  lemma SetterForgets(c: Core, t: Timed)
    requires PathInv(c) && SetterGoesOut(c, t)
    ensures NothingKnown(Step(c, t.input, t.now))
  {
    SlotKept(c);
    hide PathInv, Step, IsSetter, NothingKnown;
    StepWithdraws(c, t.input, t.now);
    var d := Step(c, t.input, t.now);
    var q: Request :| d.path.link.sent == c.path.link.sent + [q] && IsSetter(q.payload);
    assert d.path.link.sent[|c.path.link.sent|] == q;
  }

  lemma {:induction false} StaysUnknown(c: Core, steps: seq<Timed>, code: byte)
    requires PathInv(c) && IsAnswerCode(code) && Known(c, code).None? && NotToldOf(steps, code)
    ensures Known(Run(c, steps), code).None? && PathInv(Run(c, steps))
  {
    hide PathInv, Step, Known, Last, ReportsOf, KeyAfter, CountAfter;
    if steps != [] {
      var n := |steps| - 1;
      var d := Run(c, steps[..n]);
      StaysUnknown(c, steps[..n], code);
      SlotKept(d);
      StepLearns(d, steps[n].input, steps[n].now);
      StepKeeps(d, steps[n].input, steps[n].now);
      assert LearntOf(d, Run(c, steps), ReportsOf(steps[n].input), code);
    }
  }

  /** Nothing that is told is a cached answer. */
  predicate NothingServed(news: seq<Event>) {
    forall e :: e in news ==> !(e.ToClient? && e.kind.Cached?)
  }

  lemma UnknownIsNotServed(c: Core, cmd: ClientCommand, now: Clock)
    requires cmd.payload != [] && AnswerTo(cmd.payload[0]).Some? && Known(c, AnswerTo(cmd.payload[0]).value).None?
    ensures NothingServed(News(c, HandleClientCommand(c, cmd, now)))
  {
    var d := HandleClientCommand(c, cmd, now);
    if cmd.client in c.live {
      NotedAlike(c, cmd, now);
      var c1 := NoteCommand(c, cmd, now);
      hide NoteCommand, TryServeFromCache, AdvanceQueue, DispatchToRadio;
      ServedIsKnown(c1, cmd);
      var q := Request(Some(cmd.client), ForRadio(cmd.payload));
      DispatchFails(Arrive(c1, [q]), q, now);
      assert OnlyFailures(c.out, d.out);
    }
  }

  lemma NotedAlike(c: Core, cmd: ClientCommand, now: Clock)
    requires cmd.payload != []
    ensures var d := NoteCommand(c, cmd, now); d.mem == c.mem && d.out == c.out && d.live == c.live
  {
    hide MissedBy, AppName, MessageHead;
  }

  /** Over every run, with timeouts, losses and reconnections: once a command has gone out that sets the name, the
      radio's parameters, its power, place, tuning, PIN or other parameters, or resets it, no client that asks for
      SELF_INFO, DEVICE_INFO or BATTERY is served from the cache before the radio has said it anew; its question goes
      to the radio. */
  lemma SettersAreNotOutrun(c: Core, t: Timed, more: seq<Timed>, cmd: ClientCommand, now: Clock)
    requires Reachable(c) && SetterGoesOut(c, t) && cmd.payload != [] && AnswerTo(cmd.payload[0]).Some?
    requires NotToldOf(more, AnswerTo(cmd.payload[0]).value)
    ensures var d := Run(Step(c, t.input, t.now), more);
            Known(d, AnswerTo(cmd.payload[0]).value).None? && NothingServed(News(d, Step(d, Command(cmd), now)))
  {
    hide Reachable, PathInv, Step, Run, SetterGoesOut, NotToldOf, HandleClientCommand, NothingServed, Known;
    ReachablePath(c);
    SetterForgets(c, t);
    StepKeeps(c, t.input, t.now);
    var d0 := Step(c, t.input, t.now);
    UnknownOf(d0, AnswerTo(cmd.payload[0]).value);
    StaysUnknown(d0, more, AnswerTo(cmd.payload[0]).value);
    UnknownAsked(Run(d0, more), cmd, now);
  }

  lemma UnknownOf(c: Core, code: byte)
    requires NothingKnown(c) && IsAnswerCode(code)
    ensures Known(c, code).None?
  {
  }

  lemma UnknownAsked(c: Core, cmd: ClientCommand, now: Clock)
    requires cmd.payload != [] && AnswerTo(cmd.payload[0]).Some? && Known(c, AnswerTo(cmd.payload[0]).value).None?
    ensures NothingServed(News(c, Step(c, Command(cmd), now)))
  {
    CommandStep(c, cmd, now);
    hide Step, HandleClientCommand, NothingServed, Known;
    UnknownIsNotServed(c, cmd, now);
  }
}
