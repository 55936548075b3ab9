/** Work on the radio path dies out, and a silent radio cannot hold anybody up for ever. */
module Liveness {
  import opened Bytes
  import opened Protocol
  import opened Store
  import opened CoreState
  import opened RadioPath
  import opened Requests

  // ---------------------------------------------------------------------
  // A potential that every completion lowers
  // ---------------------------------------------------------------------

  /** A client's request may cause one internal request; an internal one causes none. */
  function Weight(q: Request): nat {
    if q.client.Some? then 2 else 1
  }

  function TotalWeight(requests: seq<Request>): nat {
    if requests == [] then 0 else Weight(requests[0]) + TotalWeight(requests[1..])
  }

  lemma {:induction false} TotalWeightAppend(a: seq<Request>, b: seq<Request>)
    ensures TotalWeight(a + b) == TotalWeight(a) + TotalWeight(b)
  {
    if a == [] {
      assert a + b == b;
    } else {
      assert (a + b)[1..] == a[1..] + b;
      TotalWeightAppend(a[1..], b);
    }
  }

  function SlotWeight(c: Core): nat {
    if c.path.inFlight.Some? then Weight(c.path.inFlight.value.Req()) else 0
  }

  function Potential(c: Core): nat {
    SlotWeight(c) + TotalWeight(c.path.queue)
  }

  /** Potential zero is idleness. */
  lemma PotentialZeroIsIdle(c: Core)
    ensures Potential(c) == 0 <==> Outstanding(c) == []
  {
    if c.path.queue != [] {
      assert TotalWeight(c.path.queue) >= Weight(c.path.queue[0]);
    }
  }

  lemma {:induction false} AdvancePotential(c: Core, now: Clock)
    requires c.path.inFlight.None?
    ensures Potential(AdvanceQueue(c, now)) <= Potential(c)
    decreases |c.path.queue|
  {
    if c.path.queue != [] {
      hide Invalidate;
      var q, c1 := c.path.queue[0], WithQueue(c, c.path.queue[1..]);
      if ClientLeft(c1, q) {
        AdvancePotential(Settle(c1, q, Gone), now);
      } else {
        DispatchedPath(c1, q, now);
        var c2 := DispatchToRadio(c1, q, now);
        if c2.path.inFlight.None? {
          AdvancePotential(c2, now);
        }
      }
    }
  }

  /** What dispatching does to the slot and the queue. */
  lemma DispatchedPath(c: Core, q: Request, now: Clock)
    requires c.path.inFlight.None?
    ensures var d := DispatchToRadio(c, q, now);
            d.path.queue == c.path.queue
            && (CanSend(c) ==> d.path.inFlight.Some? && d.path.inFlight.value.Req() == q)
            && (!CanSend(c) ==> d.path.inFlight.None?)
            && d.live == c.live && d.path.link.open == c.path.link.open && d.path.link.attached == c.path.link.attached
  {
    InvalidateOnly(HandOver(c, q), q.payload);
    hide Invalidate, AwaitingFor;
  }

  lemma InvalidateOnly(c: Core, payload: Command)
    ensures Invalidate(c, payload) == c.(db := Invalidate(c, payload).db, mem := Invalidate(c, payload).mem)
  {
    hide DeleteContact, DeleteChannel;
  }

  lemma ForwardPath(c: Core, f: InFlight, p: Command, now: Clock)
    ensures Forward(c, f, p, now).path == AppendRouted(c, p).path
    ensures Forward(c, f, p, now).live == c.live
  {
    PassOnOnly(AppendRouted(c, p), f, p, now);
    hide PassOn;
  }

  /** Accepting a command queues at most one internal request, and only for a client's command. */
  lemma AcceptedPath(c: Core, done: InFlight, now: Clock)
    requires done.client.None? ==> InternalCommand(done.payload)
    ensures var d := OnCommandAccepted(c, done, now);
            d.path.inFlight == c.path.inFlight && d.live == c.live
            && (d.path.queue == c.path.queue
                || exists q: Request :: q.client.None? && done.client.Some? && d.path.queue == c.path.queue + [q])
  {
    var c1 := if done.payload[0] == 0x01 && done.client.Some? then NotifyMissed(c, done.client.value) else c;
    var c2 := ApplyAccepted(c1, done);
    EchoKeepsPath(c2, done, now);
    hide SynthesizeEcho, TrimNuls, AnswersTo;
    assert SamePath(c2, OnCommandAccepted(c, done, now));
    var p := done.payload;
    if p[0] in {0x09, 0x0D} && |p| >= 33 {
      assert c2.path.queue == c.path.queue + [Request(None, RefreshCommand(p[1..33]))];
    } else if p[0] == 0x12 {
      assert c2.path.queue == c.path.queue + [Request(None, FULL_SYNC)];
    }
  }

  lemma AcceptedPotential(c: Core, done: InFlight, now: Clock)
    requires c.path.inFlight.None? && (done.client.None? ==> InternalCommand(done.payload))
    ensures OnCommandAccepted(c, done, now).path.inFlight.None?
    ensures Potential(OnCommandAccepted(c, done, now)) < Weight(done.Req()) + Potential(c)
  {
    AcceptedPath(c, done, now);
    hide OnCommandAccepted;
    var d := OnCommandAccepted(c, done, now);
    if d.path.queue != c.path.queue {
      var q: Request :| q.client.None? && done.client.Some? && d.path.queue == c.path.queue + [q];
      TotalWeightAppend(c.path.queue, [q]);
      assert TotalWeight([q]) == 1;
    }
  }

  lemma CompletePotential(c: Core, f: InFlight, p: Command, now: Clock)
    requires c.path.inFlight == Some(f) && (f.client.None? ==> InternalCommand(f.payload))
    ensures Potential(Complete(c, f, p, now)) < Potential(c)
  {
    var c1 := Settle(WithSlot(c, None), f.Req(), Answered(CurrentFrames(c)));
    hide OnCommandAccepted, AdvanceQueue;
    AcceptedPotential(c1, f, now);
    AdvancePotential(if IsError(p) then c1 else OnCommandAccepted(c1, f, now), now);
  }

  /** The frame that ends the request in flight strictly lowers the potential. */
  lemma CompletionLowersPotential(c: Core, p: Command, now: Clock)
    requires PathInv(c) && BelongsToInFlight(c, p)
    ensures Potential(RouteToInFlight(c, p, now)) <= Potential(c)
    ensures c.path.inFlight.value.awaiting.Completes(p[0]) ==> Potential(RouteToInFlight(c, p, now)) < Potential(c)
  {
    var f := c.path.inFlight.value;
    assert f.Req() in Outstanding(c) && WellFormedRequest(c, f.Req());
    ForwardPath(c, f, p, now);
    hide Forward, Complete, PathInv;
    if f.awaiting.Completes(p[0]) {
      CompletePotential(Forward(c, f, p, now), f, p, now);
    }
  }

  lemma TimeoutLowersPotential(c: Core, now: Clock)
    ensures Potential(CheckInFlightTimeout(c, now)) <= Potential(c)
    ensures TimedOut(c, now) ==> Potential(CheckInFlightTimeout(c, now)) < Potential(c)
  {
    if TimedOut(c, now) {
      hide AdvanceQueue;
      AdvancePotential(FailInFlight(c), now);
    }
  }

  /** A frame that reports a contact change, on which the multiplexer queues a refresh. */
  predicate AdvertPush(p: Frame) {
    |p| >= 33 && p[0] in {0x80, 0x81}
  }

  /** Inputs that bring no new work to the radio path. */
  predicate Quiet(i: Input) {
    match i
    case Command(_) => false
    case MaintenanceTick => false
    case Reconnect(_) => false
    case Radio(frame) => !AdvertPush(frame)
    case _ => true
  }

  /** The step ends the request in flight: a terminating frame or an expired timeout. */
  predicate Finishes(c: Core, i: Input, now: Clock) {
    match i
    case Radio(p) => p != [] && BelongsToInFlight(c, p) && c.path.inFlight.value.awaiting.Completes(p[0])
    case TimeoutTick => TimedOut(c, now)
    case _ => false
  }

  lemma QuietRadioPotential(c: Core, p: Frame, now: Clock)
    requires PathInv(c) && !AdvertPush(p)
    ensures Potential(HandleRadioRx(c, p, now)) <= Potential(c)
    ensures Finishes(c, Radio(p), now) ==> Potential(HandleRadioRx(c, p, now)) < Potential(c)
  {
    if p != [] {
      var c1 := CacheResponse(c, p, now);
      CacheResponseKeepsPath(c, p, now);
      SamePathKeeps(c, c1);
      hide CacheResponse, RouteToInFlight, PathInv, NoIdleWait, RouteAck, HandlePush, MatchesAck;
      if BelongsToInFlight(c1, p) {
        CompletionLowersPotential(c1, p, now);
      } else if MatchesAck(c1, p) {
        AckPath(c1, p);
      } else if IsPush(p[0]) {
        PlainPushPath(c1, p, now);
      }
    }
  }

  lemma AckPath(c: Core, p: Command)
    requires MatchesAck(c, p)
    ensures RouteAck(c, p).path == c.path
  {
  }

  lemma PlainPushPath(c: Core, p: Command, now: Clock)
    requires !AdvertPush(p)
    ensures HandlePush(c, p, now).path == c.path
  {
  }

  lemma QuietStepPotential(c: Core, i: Input, now: Clock)
    requires PathInv(c) && Quiet(i)
    ensures Potential(Step(c, i, now)) <= Potential(c)
    ensures Finishes(c, i, now) ==> Potential(Step(c, i, now)) < Potential(c)
  {
    hide PathInv, HandleRadioRx, CheckInFlightTimeout, HandleClientCommand, RunMaintenance, ReconnectRadio;
    match i {
      case Radio(p) => QuietRadioPotential(c, p, now);
      case TimeoutTick => TimeoutLowersPotential(c, now);
      case _ =>
    }
  }

  /** How many requests end in the course of a run. */
  function Finished(c: Core, steps: seq<Timed>): nat {
    if steps == [] then 0
    else
      var before, last := steps[..|steps| - 1], steps[|steps| - 1];
      Finished(c, before) + (if Finishes(Run(c, before), last.input, last.now) then 1 else 0)
  }

  /** With no new commands, adverts or maintenance, at most `Potential` requests can ever end: internal
      refreshes cannot keep themselves alive, and once that many have ended the multiplexer is idle. */
  lemma {:induction false} InternalTrafficDiesOut(c: Core, steps: seq<Timed>)
    requires PathInv(c)
    requires forall k :: 0 <= k < |steps| ==> Quiet(steps[k].input)
    ensures Finished(c, steps) + Potential(Run(c, steps)) <= Potential(c)
    ensures Finished(c, steps) == Potential(c) ==> Outstanding(Run(c, steps)) == []
  {
    hide PathInv, Step, Finishes;
    if steps != [] {
      var before, last := steps[..|steps| - 1], steps[|steps| - 1];
      InternalTrafficDiesOut(c, before);
      RunKeeps(c, before);
      QuietStepPotential(Run(c, before), last.input, last.now);
    }
    PotentialZeroIsIdle(Run(c, steps));
  }

  // ---------------------------------------------------------------------
  // A silent radio
  // ---------------------------------------------------------------------

  /** Who was sent an ERROR by the multiplexer itself, in order. */
  function FailedClients(out: seq<Event>): seq<ClientId> {
    if out == [] then []
    else
      var e := out[|out| - 1];
      FailedClients(out[..|out| - 1]) + (if e.ToClient? && e.kind == Failure then [e.client] else [])
  }

  /** The clients among `live` waiting for these requests, in order. */
  function WaitingFor(requests: seq<Request>, live: set<ClientId>): seq<ClientId> {
    if requests == [] then []
    else
      var q := requests[0];
      (if q.client.Some? && q.client.value in live then [q.client.value] else []) + WaitingFor(requests[1..], live)
  }

  lemma WaitingCons(q: Request, rest: seq<Request>, live: set<ClientId>)
    ensures WaitingFor([q] + rest, live)
            == (if q.client.Some? && q.client.value in live then [q.client.value] else []) + WaitingFor(rest, live)
  {
    assert ([q] + rest)[1..] == rest;
  }

  /** Those already failed, then those who will be if the radio stays silent. */
  function Fate(c: Core): seq<ClientId> {
    FailedClients(c.out) + WaitingFor(Outstanding(c), c.live)
  }

  lemma FailFate(c: Core, q: Request)
    ensures FailedClients(Fail(c, q, []).out)
            == FailedClients(c.out) + (if q.client.Some? && q.client.value in c.live then [q.client.value] else [])
    ensures forall frames :: Fail(c, q, frames).out == Fail(c, q, []).out
  {
    if q.client.Some? && q.client.value in c.live {
      var e := ToClient(q.client.value, ERROR_FRAME, Wire(c, q.client.value, ERROR_FRAME), Failure);
      assert (c.out + [e])[..|c.out|] == c.out;
    }
  }

  /** Advancing the queue changes nobody's fate. */
  lemma {:induction false} AdvanceFate(c: Core, now: Clock)
    requires c.path.inFlight.None?
    ensures var d := AdvanceQueue(c, now);
            Fate(d) == Fate(c) && d.live == c.live && CanSend(d) == CanSend(c)
            && |Outstanding(d)| <= |Outstanding(c)|
            && (d.path.inFlight.None? ==> d.path.queue == [])
            && (d.path.inFlight.Some? ==> d.path.inFlight.value.lastActivity == now.mono)
    decreases |c.path.queue|
  {
    if c.path.queue != [] {
      var q, c1 := c.path.queue[0], WithQueue(c, c.path.queue[1..]);
      hide WaitingFor, FailedClients, Invalidate, AwaitingFor;
      assert Outstanding(c) == c.path.queue == [q] + c1.path.queue && Outstanding(c1) == c1.path.queue;
      WaitingCons(q, c1.path.queue, c.live);
      if ClientLeft(c1, q) {
        var c2 := Settle(c1, q, Gone);
        assert Outstanding(c2) == c1.path.queue;
        assert [] + WaitingFor(c1.path.queue, c.live) == WaitingFor(c1.path.queue, c.live);
        AdvanceFate(c2, now);
      } else {
        DispatchFate(c1, q, now);
        var c2 := DispatchToRadio(c1, q, now);
        hide DispatchToRadio, Fate;
        if c2.path.inFlight.None? {
          assert Fate(c2) == Fate(c) by { SameFate(c, c1, q, c2); }
          AdvanceFate(c2, now);
        } else {
          assert Fate(c2) == Fate(c) by { SameFate(c, c1, q, c2); }
        }
      }
    }
  }

  lemma DispatchFate(c: Core, q: Request, now: Clock)
    requires c.path.inFlight.None?
    ensures var d := DispatchToRadio(c, q, now);
            d.path.queue == c.path.queue && d.live == c.live && CanSend(d) == CanSend(c)
            && Fate(d) == FailedClients(c.out) + WaitingFor([q] + c.path.queue, c.live)
            && (CanSend(c) ==> d.path.inFlight.Some? && d.path.inFlight.value.lastActivity == now.mono)
            && (!CanSend(c) ==> d.path.inFlight.None?)
  {
    InvalidateOnly(HandOver(c, q), q.payload);
    hide Invalidate, AwaitingFor, WaitingFor, FailedClients;
    var d := DispatchToRadio(c, q, now);
    WaitingCons(q, c.path.queue, c.live);
    if CanSend(c) {
      assert Outstanding(d) == [q] + c.path.queue;
    } else {
      FailFate(c, q);
      assert Outstanding(d) == c.path.queue;
    }
  }

  lemma SameFate(c: Core, c1: Core, q: Request, d: Core)
    requires c.path.inFlight.None? && c.path.queue == [q] + c1.path.queue && c1.out == c.out
    requires Fate(d) == FailedClients(c1.out) + WaitingFor([q] + c1.path.queue, c.live)
    ensures Fate(d) == Fate(c)
  {
    assert Outstanding(c) == c.path.queue;
  }

  /** An expired timeout leaves everybody's fate as it was, and one request fewer. */
  lemma TimeoutFate(c: Core, now: Clock)
    requires TimedOut(c, now)
    ensures var d := CheckInFlightTimeout(c, now);
            Fate(d) == Fate(c) && d.live == c.live && |Outstanding(d)| < |Outstanding(c)|
            && (d.path.inFlight.None? ==> d.path.queue == [])
            && (d.path.inFlight.Some? ==> d.path.inFlight.value.lastActivity == now.mono)
  {
    var c1 := FailInFlight(c);
    FailInFlightFate(c);
    hide FailInFlight, AdvanceQueue, Fate;
    AdvanceFate(c1, now);
  }

  lemma FailInFlightFate(c: Core)
    requires c.path.inFlight.Some?
    ensures var d := FailInFlight(c);
            Fate(d) == Fate(c) && d.live == c.live && d.path.inFlight.None? && |Outstanding(d)| < |Outstanding(c)|
  {
    hide WaitingFor, FailedClients;
    var q, d := c.path.inFlight.value.Req(), FailInFlight(c);
    FailFate(WithSlot(c, None), q);
    assert Outstanding(c) == [q] + c.path.queue && Outstanding(d) == c.path.queue;
    WaitingCons(q, c.path.queue, c.live);
  }

  /** Nothing from the radio and no new request: ticks, early or late, clients leaving, the link closing. */
  predicate Silent(steps: seq<Timed>) {
    forall n :: 0 <= n < |steps| ==>
          steps[n].input.TimeoutTick? || steps[n].input.Disconnect? || steps[n].input.LinkCloses?
  }

  /** How many ticks found the request in flight past its time. */
  function Expiries(c: Core, steps: seq<Timed>): nat {
    if steps == [] then 0
    else
      var n := |steps| - 1;
      Expiries(c, steps[..n])
      + if steps[n].input.TimeoutTick? && TimedOut(Run(c, steps[..n]), steps[n].now) then 1 else 0
  }

  /** Those of `all` who are in `some`, in order. */
  function Among(all: seq<ClientId>, some: set<ClientId>): seq<ClientId> {
    if all == [] then []
    else Among(all[..|all| - 1], some) + if all[|all| - 1] in some then [all[|all| - 1]] else []
  }

  lemma {:induction false} AmongAppend(a: seq<ClientId>, b: seq<ClientId>, some: set<ClientId>)
    ensures Among(a + b, some) == Among(a, some) + Among(b, some)
  {
    if b == [] {
      assert a + b == a;
    } else {
      assert (a + b)[..|a + b| - 1] == a + b[..|b| - 1];
      AmongAppend(a, b[..|b| - 1], some);
    }
  }

  lemma {:induction false} AmongWaiting(requests: seq<Request>, live: set<ClientId>, some: set<ClientId>)
    requires some <= live
    ensures Among(WaitingFor(requests, live), some) == WaitingFor(requests, some)
  {
    if requests != [] {
      var q := requests[0];
      var head: seq<ClientId> := if q.client.Some? && q.client.value in live then [q.client.value] else [];
      AmongWaiting(requests[1..], live, some);
      AmongAppend(head, WaitingFor(requests[1..], live), some);
      if head != [] {
        assert head[..0] == [];
      }
    }
  }

  /** For the clients in `some`: the failures so far, then those to come if the radio stays silent. */
  function FateOf(c: Core, some: set<ClientId>): seq<ClientId> {
    Among(FailedClients(c.out), some) + WaitingFor(Outstanding(c), some)
  }

  lemma FateAmong(c: Core, some: set<ClientId>)
    requires some <= c.live
    ensures Among(Fate(c), some) == FateOf(c, some)
  {
    AmongAppend(FailedClients(c.out), WaitingFor(Outstanding(c), c.live), some);
    AmongWaiting(Outstanding(c), c.live, some);
  }

  /** A slot that waits for nothing: free, with requests behind it. Only a link whose sender closed before the first
      synchronisation went out leaves one. */
  predicate Stuck(c: Core) {
    c.path.inFlight.None? && c.path.queue != []
  }

  /** One step of silence. */
  lemma SilentStep(c: Core, i: Input, now: Clock, some: set<ClientId>)
    requires i.TimeoutTick? || i.Disconnect? || i.LinkCloses?
    requires some <= Step(c, i, now).live
    ensures var d := Step(c, i, now);
            d.live <= c.live && FateOf(d, some) == FateOf(c, some)
            && (Stuck(c) ==> Stuck(d) && Outstanding(d) == Outstanding(c) && !TimedOut(c, now))
            && (!Stuck(c) ==>
                  (!Stuck(d)
                   && |Outstanding(d)| + (if i.TimeoutTick? && TimedOut(c, now) then 1 else 0) <= |Outstanding(c)|))
  {
    var d := Step(c, i, now);
    if i.TimeoutTick? && TimedOut(c, now) {
      TimeoutFate(c, now);
      hide CheckInFlightTimeout, Fate, FateOf, Among;
      FateAmong(c, some);
      FateAmong(d, some);
    } else {
      assert Outstanding(d) == Outstanding(c) && d.out == c.out;
      hide FailedClients, WaitingFor, Among;
    }
  }

  /** However the silence goes. A path that is not stuck loses at least one request with every expiry, so that as
      many expiries as there are requests clear it; a stuck one stays as it is for ever. And every client that
      stays connected has been sent one ERROR for each of its requests that is gone, in arrival order, and those
      it still waits for are still to come. */
  lemma {:induction false} SilentRadioDrains(c: Core, steps: seq<Timed>)
    requires Silent(steps)
    ensures var d := Run(c, steps);
            d.live <= c.live
            && Among(FailedClients(d.out), d.live) + WaitingFor(Outstanding(d), d.live)
               == Among(FailedClients(c.out), d.live) + WaitingFor(Outstanding(c), d.live)
            && (if Stuck(c) then Stuck(d) && Outstanding(d) == Outstanding(c) && Expiries(c, steps) == 0
                else !Stuck(d) && |Outstanding(d)| + Expiries(c, steps) <= |Outstanding(c)|)
  {
    SilentRun(c, steps, Run(c, steps).live);
    hide Run, Among, FailedClients, WaitingFor, Expiries;
  }

  lemma {:induction false} SilentRun(c: Core, steps: seq<Timed>, some: set<ClientId>)
    requires Silent(steps) && some <= Run(c, steps).live
    ensures var d := Run(c, steps);
            d.live <= c.live && FateOf(d, some) == FateOf(c, some)
            && (if Stuck(c) then Stuck(d) && Outstanding(d) == Outstanding(c) && Expiries(c, steps) == 0
                else !Stuck(d) && |Outstanding(d)| + Expiries(c, steps) <= |Outstanding(c)|)
  {
    hide Step, FateOf, Outstanding;
    if steps != [] {
      var n := |steps| - 1;
      var d := Run(c, steps[..n]);
      hide Stuck, TimedOut;
      SilentStep(d, steps[n].input, steps[n].now, some);
      SilentRun(c, steps[..n], some);
    }
  }

  /** A silent radio can be waited out if and only if the path is not stuck. */
  lemma DrainsExactly(c: Core)
    ensures (exists steps :: Silent(steps) && Outstanding(Run(c, steps)) == []) <==> !Stuck(c)
  {
    if Stuck(c) {
      forall steps | Silent(steps)
        ensures Outstanding(Run(c, steps)) != []
      {
        SilentRadioDrains(c, steps);
        StuckWaits(c);
        hide Run;
      }
    } else {
      WaitedOut(c);
    }
  }

  lemma StuckWaits(c: Core)
    requires Stuck(c)
    ensures Outstanding(c) != []
  {
  }

  lemma {:induction false} WaitedOut(c: Core)
    requires !Stuck(c)
    ensures exists steps :: Silent(steps) && Outstanding(Run(c, steps)) == []
    decreases |Outstanding(c)|
  {
    if c.path.inFlight.None? {
      assert Silent([]) && Run(c, []) == c && Outstanding(c) == [];
    } else {
      var t := Timed(TimeoutTick, Clock(c.path.inFlight.value.lastActivity + IN_FLIGHT_TIMEOUT_MS, 0));
      var d := Step(c, TimeoutTick, t.now);
      SilentStep(c, TimeoutTick, t.now, {});
      assert TimedOut(c, t.now);
      hide Step;
      WaitedOut(d);
      hide Run;
      var steps :| Silent(steps) && Outstanding(Run(d, steps)) == [];
      RunAfter(c, t, steps);
      assert Silent([t] + steps);
    }
  }

  // ---------------------------------------------------------------------
  // What clears a stuck path
  // ---------------------------------------------------------------------

  /** Over a closed link advancing the queue fails everything in it. */
  lemma {:induction false} ClosedAdvance(c: Core, now: Clock)
    requires c.path.inFlight.None? && !CanSend(c)
    ensures Outstanding(AdvanceQueue(c, now)) == []
    decreases |c.path.queue|
  {
    if c.path.queue != [] {
      var q, c1 := c.path.queue[0], WithQueue(c, c.path.queue[1..]);
      hide Wire;
      if ClientLeft(c1, q) {
        ClosedAdvance(Settle(c1, q, Gone), now);
      } else {
        ClosedAdvance(DispatchToRadio(c1, q, now), now);
      }
    }
  }

  /** Of the ticks only maintenance gets a stuck path going again: if and only if it queues a full synchronisation, that
      is, if contacts are purged by age and none is queued already. */
  lemma MaintenanceClearsExactly(c: Core, now: Clock)
    requires Stuck(c) && !CanSend(c)
    ensures Outstanding(RunMaintenance(c, now)) == [] <==> c.conf.retention.contactsDays > 0 && !FullSyncPending(c)
    ensures Step(c, TimeoutTick, now) == c
  {
    hide AdvanceQueue, Maintain, FullSyncPending;
    ClosedAdvance(Enqueue(c, Request(None, FULL_SYNC)), now);
  }
}
