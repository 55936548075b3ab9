/** Under which identity a request went out: the one its client had when it was sent, whatever it calls itself since. */
module Origins {
  import opened Bytes
  import opened Protocol
  import opened Store
  import opened CoreState
  import opened RadioPath
  import opened Outcomes
  import opened Links
  import opened Requests
  import opened Frames
  import opened Flow

  // ---------------------------------------------------------------------
  // Watching who sends
  // ---------------------------------------------------------------------

  /** The client of the request sent last. */
  function LastClient(c: Core): Option<ClientId> {
    if c.path.link.sent == [] then None else c.path.link.sent[|c.path.link.sent| - 1].client
  }

  /** What an onlooker notes at a step in which something is sent: the identity of the client it is sent for. */
  function AskerAfter(pre: Core, i: Input, post: Core, asker: Option<Identity>): Option<Identity> {
    if !i.Reconnect? && post.path.link.sent == pre.path.link.sent then asker
    else if LastClient(post).Some? && LastClient(post).value in post.sessions then
      Some(post.sessions[LastClient(post).value].who)
    else None
  }

  /** The identity under which the last request of a run was sent. */
  function Asker(c: Core, steps: seq<Timed>): Option<Identity> {
    if steps == [] then None
    else
      var n := |steps| - 1;
      AskerAfter(Run(c, steps[..n]), steps[n].input, Run(c, steps), Asker(c, steps[..n]))
  }

  // ---------------------------------------------------------------------
  // Every step
  // ---------------------------------------------------------------------

  /** The request in flight is on record under that identity. */
  predicate Named(c: Core, asker: Option<Identity>) {
    c.path.inFlight.Some? ==> c.path.inFlight.value.origin == asker
  }

  /** Nothing was sent and the slot's request, if it is still there, is on record as before; or something was, and
      is on record under the identity of its client. */
  ghost predicate NamedMove(c: Core, d: Core) {
    || (d.path.link.sent == c.path.link.sent
        && (d.path.inFlight.Some? ==>
              c.path.inFlight.Some? && d.path.inFlight.value.origin == c.path.inFlight.value.origin))
    || (d.path.link.sent != c.path.link.sent
        && (d.path.inFlight.Some? ==> d.path.inFlight.value.origin == IdentityOf(d, LastClient(d))))
  }

  lemma MoveNames(c: Core, i: Input, d: Core, asker: Option<Identity>)
    requires NamedMove(c, d) && Named(c, asker) && !i.Reconnect?
    ensures Named(d, AskerAfter(c, i, d, asker))
  {
  }

  lemma FlowsName(c: Core, d: Core)
    requires Flows(c, d)
    ensures NamedMove(c, d)
  {
    hide Invalidate, SameCache, QueueFlows;
    if NewSlot(c, d) {
      assert d.path.link.sent[|d.path.link.sent| - 1] == d.path.inFlight.value.Req();
    }
  }

  /** What happens after a slot has been freed, or its request failed. */
  lemma FreedNames(c: Core, freed: Core, d: Core)
    requires freed.path.inFlight.None? && freed.path.link.sent == c.path.link.sent && Flows(freed, d)
    ensures NamedMove(c, d)
  {
    FlowsName(freed, d);
    hide Flows;
  }

  lemma SamePathNames(c: Core, d: Core)
    requires d.path.link.sent == c.path.link.sent && d.path.inFlight == c.path.inFlight
    ensures NamedMove(c, d)
  {
  }

  lemma RouteNames(c: Core, p: Command, now: Clock)
    requires SlotIsLastSent(c) && BelongsToInFlight(c, p)
    ensures NamedMove(c, RouteToInFlight(c, p, now))
  {
    var f := c.path.inFlight.value;
    var c1 := Forward(c, f, p, now);
    ForwardFlow(c, p, now);
    hide Forward, Complete, AwaitingFor, SlotIsLastSent, FollowUp;
    if f.awaiting.Completes(p[0]) {
      CompleteFlows(c1, f, p, now);
      FreedNames(c, WithSlot(c1, None), Complete(c1, f, p, now));
    }
  }

  lemma RadioNames(c: Core, p: Frame, now: Clock)
    requires SlotIsLastSent(c)
    ensures NamedMove(c, HandleRadioRx(c, p, now))
  {
    if p != [] {
      CacheUnanswered(c, p, now);
      var c1 := CacheResponse(c, p, now);
      assert SlotIsLastSent(c1);
      hide CacheResponse, RouteToInFlight, RouteAck, HandlePush, SlotIsLastSent;
      if BelongsToInFlight(c1, p) {
        RouteNames(c1, p, now);
      } else if MatchesAck(c1, p) {
        AckUnanswered(c1, p);
      } else if IsPush(p[0]) {
        PushFlows(c1, p, now);
        FlowsName(c1, HandlePush(c1, p, now));
      }
    }
  }

  lemma TimeoutNames(c: Core, now: Clock)
    ensures NamedMove(c, CheckInFlightTimeout(c, now))
  {
    hide AdvanceQueue, Wire;
    if TimedOut(c, now) {
      AdvanceFlows(FailInFlight(c), now);
      FreedNames(c, FailInFlight(c), AdvanceQueue(FailInFlight(c), now));
    }
  }

  lemma ReconnectNames(c: Core, r: Reconnection, now: Clock)
    ensures var d := ReconnectRadio(c, r, now);
            d.path.inFlight.Some? ==> d.path.inFlight.value.origin.None? && d.path.inFlight.value.client.None?
  {
    ReconnectStarts(c, r, now);
    hide ReconnectRadio, LoseRadio, FailedAttempts, InitializeRadio, SyncFromRadio, NewLink;
    var c2 := FailedAttempts(LoseRadio(c).(live := c.live - r.left), r.attempts, now);
    SyncStarts(InitializeRadio(WithLink(c2, Link(true, r.open, [], [])), r, now), now);
  }

  lemma MaintenanceNames(c: Core, now: Clock)
    ensures NamedMove(c, RunMaintenance(c, now))
  {
    RequestFullSyncFlows(c, now);
    hide RequestFullSync, Maintain, Flows, NamedMove;
    FlowsName(c, RequestFullSync(c, now));
    PurgeNames(c, RequestFullSync(c, now), RunMaintenance(c, now));
  }

  lemma CommandNames(c: Core, cmd: ClientCommand, now: Clock)
    ensures NamedMove(c, HandleClientCommand(c, cmd, now))
  {
    CommandFlows(c, cmd, now);
    hide HandleClientCommand, Flows;
    FlowsName(c, HandleClientCommand(c, cmd, now));
  }

  lemma StepMoves(c: Core, i: Input, now: Clock)
    requires SlotIsLastSent(c) && !i.Reconnect?
    ensures NamedMove(c, Step(c, i, now))
  {
    hide HandleClientCommand, HandleRadioRx, CheckInFlightTimeout, RunMaintenance, SlotIsLastSent, NamedMove;
    match i {
      case Connect => SamePathNames(c, Step(c, i, now));
      case Disconnect(_) => SamePathNames(c, Step(c, i, now));
      case Command(cmd) => CommandNames(c, cmd, now);
      case Radio(p) => RadioNames(c, p, now);
      case TimeoutTick => TimeoutNames(c, now);
      case MaintenanceTick => MaintenanceNames(c, now);
      case LinkCloses => SamePathNames(c, Step(c, i, now));
    }
  }

  lemma StepNames(c: Core, i: Input, now: Clock, asker: Option<Identity>)
    requires PathInv(c) && Named(c, asker)
    ensures Named(Step(c, i, now), AskerAfter(c, i, Step(c, i, now), asker))
  {
    var d := Step(c, i, now);
    StepKeeps(c, i, now);
    if i.Reconnect? {
      ReconnectNames(c, i.how, now);
      hide ReconnectRadio, PathInv;
      if d.path.inFlight.Some? {
        SlotClient(d);
      }
    } else {
      hide Step, Conserved, Fifo, Told, SlotIsLastSent, NamedMove;
      StepMoves(c, i, now);
      MoveNames(c, i, d, asker);
    }
  }

  lemma PurgeNames(c: Core, c1: Core, d: Core)
    requires NamedMove(c, c1) && d.path == c1.path && d.sessions == c1.sessions
    ensures NamedMove(c, d)
  {
  }

  lemma SlotClient(c: Core)
    requires PathInv(c) && c.path.inFlight.Some?
    ensures LastClient(c) == c.path.inFlight.value.client
  {
    hide Conserved, Fifo, Told, AwaitingFor, OpenReply;
  }

  lemma StartNames(retention: Retention, backlog: Backlog, db: Tables, r: Reconnection, now: Clock)
    ensures Named(Start(retention, backlog, db, r, now), None)
  {
    var f := Fresh(retention, backlog, db);
    ReconnectNames(f, r, now);
    hide ReconnectRadio, RestoreBlobs;
    RestoreOnlyMemory(ReconnectRadio(f, r, now));
  }

  /** Over every run: the request in flight is on record under the identity its client had when it was sent. */
  lemma {:induction false} RunNames(c: Core, steps: seq<Timed>)
    requires PathInv(c) && Named(c, None)
    ensures PathInv(Run(c, steps)) && Named(Run(c, steps), Asker(c, steps))
  {
    hide PathInv, Named, Step;
    if steps != [] {
      var n := |steps| - 1;
      RunNames(c, steps[..n]);
      StepNames(Run(c, steps[..n]), steps[n].input, steps[n].now, Asker(c, steps[..n]));
      StepKeeps(Run(c, steps[..n]), steps[n].input, steps[n].now);
    }
  }
}
