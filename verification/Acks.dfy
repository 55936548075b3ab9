/** Delivery acknowledgements: an ACK goes to the client whose send it confirms, and to everybody otherwise. */
module Acks {
  import opened Bytes
  import opened Protocol
  import opened Store
  import opened CoreState
  import opened RadioPath
  import opened Outcomes
  import opened Requests
  import opened Frames

  // ---------------------------------------------------------------------
  // Whose ACK it is
  // ---------------------------------------------------------------------

  /** What happened to ACK codes: a SENT reply announced one to a client, or the ACK itself came in. */
  datatype Note = Announced(code: Frame, client: ClientId, at: int) | Confirmed(code: Frame)

  /** The client an ACK code belongs to: the one it was last announced to, unless the ACK has come in since, or
      an announcement found the entry past its time. */
  function Owner(notes: seq<Note>, code: Frame): Option<(ClientId, int)> {
    if notes == [] then None
    else
      var last, before := notes[|notes| - 1], Owner(notes[..|notes| - 1], code);
      match last
      case Confirmed(other) => if other == code then None else before
      case Announced(other, client, at) =>
        if other == code then Some((client, at))
        else if before.Some? && at - before.value.1 >= PENDING_ACK_TTL_MS then None
        else before
  }

  /** A SENT frame with an ACK code in it, in reply to a client's request. */
  predicate Announces(c: Core, p: Command) {
    && BelongsToInFlight(c, p) && c.path.inFlight.value.client.Some? && p[0] == 0x06 && |p| >= 6
  }

  predicate IsAck(p: Command) {
    p[0] == 0x82 && |p| >= 5
  }

  function Noted(c: Core, i: Input, now: Clock): seq<Note> {
    if !i.Radio? || i.frame == [] then []
    else if Announces(c, i.frame) then [Announced(i.frame[2..6], c.path.inFlight.value.client.value, now.mono)]
    else if IsAck(i.frame) then [Confirmed(i.frame[1..5])]
    else []
  }

  function Notes(c: Core, steps: seq<Timed>): seq<Note> {
    if steps == [] then []
    else
      var n := |steps| - 1;
      Notes(c, steps[..n]) + Noted(Run(c, steps[..n]), steps[n].input, steps[n].now)
  }

  function Waiting(c: Core, code: Frame): Option<(ClientId, int)> {
    if code in c.acks then Some(c.acks[code]) else None
  }

  ghost predicate Tracked(c: Core, notes: seq<Note>) {
    forall code: Frame :: Waiting(c, code) == Owner(notes, code)
  }

  // ---------------------------------------------------------------------
  // One step
  // ---------------------------------------------------------------------

  /** No request takes an ACK, and nothing caches one. */
  lemma AckIsNobodysReply(c: Core, p: Command, now: Clock)
    requires SlotIsLastSent(c) && IsAck(p)
    ensures !BelongsToInFlight(c, p) && CacheResponse(c, p, now) == c
  {
    hide StoreMessage;
    if c.path.inFlight.Some? {
      OnlySelfTelemetryAbsorbsAPush(c.path.inFlight.value.payload, p[0]);
    }
  }

  /** An ACK changes nothing but the entry it consumes; it is handed to the waiting client if that is still
      there, and to everybody if none is waiting. */
  lemma AckRouted(c: Core, p: Command, now: Clock)
    requires SlotIsLastSent(c) && IsAck(p)
    ensures var w := Waiting(c, p[1..5]);
            HandleRadioRx(c, p, now)
            == if w.None? then c.(out := c.out + [ToAll(p)])
               else c.(acks := c.acks - {p[1..5]},
                       out := c.out + if w.value.0 in c.live then [ToClient(w.value.0, p, p, Ack)] else [])
  {
    AckIsNobodysReply(c, p, now);
    hide CacheResponse, BelongsToInFlight;
    assert c.out + [] == c.out;
  }

  lemma StashedAcks(c: Core, d: Core, client: ClientId, p: Command, now: Clock)
    requires d.acks == c.acks
    ensures StashAck(d, client, p, now).acks == StashAck(c, client, p, now).acks
  {
  }

  lemma ForwardAcks(c: Core, f: InFlight, p: Command, now: Clock)
    ensures Forward(c, f, p, now).acks == if f.client.Some? then StashAck(c, f.client.value, p, now).acks else c.acks
  {
    var c0 := AppendRouted(c, p);
    if f.client.Some? {
      StashedAcks(c, c0, f.client.value, p, now);
    }
    hide AppendRouted, StashAck, Wire;
    AppendedAcks(c, p);
  }

  lemma AppendedAcks(c: Core, p: Command)
    ensures AppendRouted(c, p).acks == c.acks
  {
  }

  lemma RoutedAcks(c: Core, p: Command, now: Clock)
    requires BelongsToInFlight(c, p)
    ensures var f := c.path.inFlight.value;
            RouteToInFlight(c, p, now).acks
            == if f.client.Some? then StashAck(c, f.client.value, p, now).acks else c.acks
  {
    hide Complete, Forward, StashAck;
    var f := c.path.inFlight.value;
    ForwardAcks(c, f, p, now);
    if f.awaiting.Completes(p[0]) {
      CompleteAnswersOnce(Forward(c, f, p, now), f, p, now);
    }
  }

  /** How a frame that is no ACK changes who waits: only by announcing a code. */
  lemma OtherFrameAcks(c: Core, p: Command, now: Clock)
    requires !IsAck(p)
    ensures HandleRadioRx(c, p, now).acks
            == if Announces(c, p) then StashAck(c, c.path.inFlight.value.client.value, p, now).acks else c.acks
  {
    CacheUnanswered(c, p, now);
    hide CacheResponse, RouteToInFlight, HandlePush;
    var c1 := CacheResponse(c, p, now);
    if BelongsToInFlight(c1, p) {
      RoutedAcks(c1, p, now);
    } else if IsPush(p[0]) {
      PushUnanswered(c1, p, now);
    }
  }

  lemma OwnerAfter(notes: seq<Note>, n: Note, code: Frame)
    ensures (notes + [n])[..|notes|] == notes
    ensures Owner(notes + [n], code)
            == match n
               case Confirmed(other) => if other == code then None else Owner(notes, code)
               case Announced(other, client, at) =>
                 if other == code then Some((client, at))
                 else if Owner(notes, code).Some? && at - Owner(notes, code).value.1 >= PENDING_ACK_TTL_MS then None
                 else Owner(notes, code)
  {
    assert (notes + [n])[..|notes|] == notes;
  }

  lemma AnnouncedTracked(c: Core, d: Core, notes: seq<Note>, client: ClientId, p: Command, now: Clock)
    requires Tracked(c, notes) && p[0] == 0x06 && |p| >= 6 && d.acks == StashAck(c, client, p, now).acks
    ensures Tracked(d, notes + [Announced(p[2..6], client, now.mono)])
  {
    hide Owner;
    forall code: Frame
      ensures Waiting(d, code) == Owner(notes + [Announced(p[2..6], client, now.mono)], code)
    {
      OwnerAfter(notes, Announced(p[2..6], client, now.mono), code);
      assert Waiting(c, code) == Owner(notes, code);
    }
  }

  lemma ConfirmedTracked(c: Core, d: Core, notes: seq<Note>, ack: Frame)
    requires Tracked(c, notes) && d.acks == c.acks - {ack}
    ensures Tracked(d, notes + [Confirmed(ack)])
  {
    hide Owner;
    forall code: Frame
      ensures Waiting(d, code) == Owner(notes + [Confirmed(ack)], code)
    {
      OwnerAfter(notes, Confirmed(ack), code);
      assert Waiting(c, code) == Owner(notes, code);
    }
  }

  lemma SameTracked(c: Core, d: Core, notes: seq<Note>)
    requires Tracked(c, notes) && d.acks == c.acks
    ensures Tracked(d, notes + [])
  {
    hide Owner;
    assert notes + [] == notes;
    forall code: Frame
      ensures Waiting(d, code) == Owner(notes, code)
    {
      assert Waiting(c, code) == Owner(notes, code);
    }
  }

  lemma AckTracked(c: Core, p: Command, now: Clock, notes: seq<Note>)
    requires Tracked(c, notes) && SlotIsLastSent(c) && IsAck(p)
    ensures Tracked(HandleRadioRx(c, p, now), notes + Noted(c, Radio(p), now))
  {
    AckRouted(c, p, now);
    hide HandleRadioRx, Tracked, SlotIsLastSent;
    var code, d := p[1..5], HandleRadioRx(c, p, now);
    assert Noted(c, Radio(p), now) == [Confirmed(code)];
    assert c.acks - {code} == d.acks by {
      if code !in c.acks {
        assert c.acks - {code} == c.acks;
      }
    }
    ConfirmedTracked(c, d, notes, code);
  }

  lemma StepTracked(c: Core, i: Input, now: Clock, notes: seq<Note>)
    requires Tracked(c, notes) && PathInv(c)
    ensures Tracked(Step(c, i, now), notes + Noted(c, i, now))
  {
    hide Tracked, HandleRadioRx, Conserved, Fifo, Told, SlotIsLastSent, StashAck;
    if i.Radio? {
      RadioStep(c, i.frame, now);
      hide Step;
      if i.frame == [] {
        NothingArrives(c, now);
        SameTracked(c, c, notes);
      } else if IsAck(i.frame) {
        AckTracked(c, i.frame, now, notes);
      } else {
        OtherFrameAcks(c, i.frame, now);
        if Announces(c, i.frame) {
          AnnouncedTracked(c, Step(c, i, now), notes, c.path.inFlight.value.client.value, i.frame, now);
        } else {
          SameTracked(c, Step(c, i, now), notes);
        }
      }
    } else {
      OtherStepsAnswerNothing(c, i, now);
      hide Step;
      SameTracked(c, Step(c, i, now), notes);
    }
  }

  // ---------------------------------------------------------------------
  // Runs
  // ---------------------------------------------------------------------

  lemma {:induction false} RunTracked(c: Core, steps: seq<Timed>)
    requires c.acks == map[] && PathInv(c)
    ensures Tracked(Run(c, steps), Notes(c, steps)) && PathInv(Run(c, steps))
  {
    hide PathInv, Step, Noted;
    if steps != [] {
      var n := |steps| - 1;
      RunTracked(c, steps[..n]);
      hide Tracked;
      StepTracked(Run(c, steps[..n]), steps[n].input, steps[n].now, Notes(c, steps[..n]));
      StepKeeps(Run(c, steps[..n]), steps[n].input, steps[n].now);
    }
  }

  lemma StartAcks(retention: Retention, backlog: Backlog, db: Tables, r: Reconnection, now: Clock)
    ensures Start(retention, backlog, db, r, now).acks == map[]
  {
    var f := Fresh(retention, backlog, db);
    ReconnectUnanswered(f, r, now);
    hide ReconnectRadio, RestoreBlobs;
    RestoreOnlyMemory(ReconnectRadio(f, r, now));
  }

  /** After any run an ACK goes to the client its code was last announced to, provided
      no ACK with that code has come in since and no announcement has evicted it; every other ACK is broadcast.
      In either case nothing else changes: no request in flight takes it, and the entry is gone. */
  lemma AcksFindTheirSender(retention: Retention, backlog: Backlog, db: Tables, r: Reconnection, now: Clock,
                            steps: seq<Timed>, p: Command, later: Clock)
    requires IsAck(p)
    ensures var c0 := Start(retention, backlog, db, r, now);
            var c, owner := Run(c0, steps), Owner(Notes(c0, steps), p[1..5]);
            Step(c, Radio(p), later)
            == if owner.None? then c.(out := c.out + [ToAll(p)])
               else c.(acks := c.acks - {p[1..5]},
                       out := c.out + if owner.value.0 in c.live then [ToClient(owner.value.0, p, p, Ack)] else [])
  {
    var c0 := Start(retention, backlog, db, r, now);
    StartAcks(retention, backlog, db, r, now);
    StartPath(retention, backlog, db, r, now);
    hide Start, Run, Owner, Notes, Conserved, Fifo, Told, HandleRadioRx, SlotIsLastSent;
    RunTracked(c0, steps);
    var c := Run(c0, steps);
    assert Waiting(c, p[1..5]) == Owner(Notes(c0, steps), p[1..5]);
    AckRouted(c, p, later);
  }

  /** Every announcement leaves only entries younger than the time to live. */
  lemma AnnouncementEvicts(c: Core, p: Command, now: Clock)
    requires Announces(c, p)
    ensures var d := Step(c, Radio(p), now);
            p[2..6] in d.acks && d.acks[p[2..6]] == (c.path.inFlight.value.client.value, now.mono)
            && forall code :: code in d.acks ==> now.mono - d.acks[code].1 < PENDING_ACK_TTL_MS
  {
    OtherFrameAcks(c, p, now);
    RadioStep(c, p, now);
    hide HandleRadioRx, Step, BelongsToInFlight;
  }

  // ---------------------------------------------------------------------
  // Where frames end up that nobody asked for
  // ---------------------------------------------------------------------

  /** The delivery of a push as a reply, to a client that is still there. */
  function HandedTo(c: Core, client: Option<ClientId>, p: Command): seq<Event> {
    if client.Some? && client.value in c.live then [ToClient(client.value, p, p, Reply)] else []
  }

  /** The answer to a self-telemetry request goes to its client, as it came; what else is told, when the next
      requests go out, is that some of them failed. */
  lemma TelemetryHandedOver(c: Core, p: Command, now: Clock)
    requires SlotIsLastSent(c) && IsPush(p[0]) && BelongsToInFlight(c, p)
    ensures var f := c.path.inFlight.value;
            p[0] == 0x8B && f.payload[0] == 0x27 && |f.payload| == 4
            && OnlyFailures(c.out + HandedTo(c, f.client, p), HandleRadioRx(c, p, now).out)
  {
    var f := c.path.inFlight.value;
    OnlySelfTelemetryAbsorbsAPush(f.payload, p[0]);
    RouteIs(c, p, now);
    PushCached(c, p, now);
    TelemetryForwarded(c, f, p, now);
    var c1 := Forward(c, f, p, now);
    assert f.awaiting.Completes(p[0]);
    hide HandleRadioRx, CacheResponse, Forward, AwaitingFor, SlotIsLastSent, OnlyFailures, HandedTo, Complete;
    assert HandleRadioRx(c, p, now) == Complete(c1, f, p, now);
    TelemetryCompleted(c1, f, p, now);
  }

  lemma TelemetryForwarded(c: Core, f: InFlight, p: Command, now: Clock)
    requires p[0] == 0x8B && f.payload[0] == 0x27
    ensures Forward(c, f, p, now).out == c.out + HandedTo(c, f.client, p)
  {
    assert forall k :: Wire(c, k, p) == p;
    assert AppendRouted(c, p).out == c.out && AppendRouted(c, p).live == c.live
           && AppendRouted(c, p).versions == c.versions;
    hide AppendRouted;
  }

  lemma TelemetryCompleted(c: Core, f: InFlight, p: Command, now: Clock)
    requires f.payload[0] == 0x27
    ensures OnlyFailures(c.out, Complete(c, f, p, now).out)
  {
    var c1 := Settle(WithSlot(c, None), f.Req(), Answered(CurrentFrames(c)));
    assert OnCommandAccepted(c1, f, now) == c1;
    hide OnCommandAccepted, CurrentFrames, AdvanceQueue, OnlyFailures;
    AdvanceFails(c1, now);
  }

  /** A push ends up in exactly one place: with the client of the self-telemetry request that waits for it, with the
      client whose send it confirms, or with everybody, as it came. */
  lemma PushesAreDelivered(c: Core, p: Command, now: Clock)
    requires Reachable(c) && IsPush(p[0])
    ensures var d := HandleRadioRx(c, p, now);
            if BelongsToInFlight(c, p) then
              var f := c.path.inFlight.value;
              p[0] == 0x8B && f.payload[0] == 0x27 && |f.payload| == 4
              && OnlyFailures(c.out + HandedTo(c, f.client, p), d.out)
            else if IsAck(p) && p[1..5] in c.acks then
              d.out == c.out + if c.acks[p[1..5]].0 in c.live then [ToClient(c.acks[p[1..5]].0, p, p, Ack)] else []
            else d.out != [] && d.out[|d.out| - 1] == ToAll(p)
  {
    ReachablePath(c);
    hide Reachable, Conserved, Fifo, Told;
    if BelongsToInFlight(c, p) {
      TelemetryHandedOver(c, p, now);
      hide HandleRadioRx, OnlyFailures, HandedTo, SlotIsLastSent;
    } else if IsAck(p) {
      AckRouted(c, p, now);
      hide HandleRadioRx;
    } else {
      OtherPushesAreBroadcast(c, p, now);
      hide HandleRadioRx;
    }
  }

  lemma OtherPushesAreBroadcast(c: Core, p: Command, now: Clock)
    requires IsPush(p[0]) && !BelongsToInFlight(c, p) && !IsAck(p)
    ensures var d := HandleRadioRx(c, p, now); d.out != [] && d.out[|d.out| - 1] == ToAll(p)
  {
    PushCached(c, p, now);
    PushBroadcasts(c, p, now);
    hide CacheResponse, HandlePush, BelongsToInFlight;
  }

  lemma PushBroadcasts(c: Core, p: Command, now: Clock)
    ensures var d := HandlePush(c, p, now); d.out != [] && d.out[|d.out| - 1] == ToAll(p)
  {
    hide AdvanceQueue, RefreshContact;
  }

  lemma PushCached(c: Core, p: Command, now: Clock)
    requires IsPush(p[0])
    ensures CacheResponse(c, p, now) == c
  {
    hide StoreMessage;
  }

  /** A reply nobody waits for, such as the late answer to a request that timed out, reaches no client and
      settles nothing; it may still be cached. */
  lemma LateRepliesReachNobody(c: Core, p: Command, now: Clock)
    requires !IsPush(p[0]) && !BelongsToInFlight(c, p)
    ensures HandleRadioRx(c, p, now) == CacheResponse(c, p, now)
    ensures HandleRadioRx(c, p, now).out == c.out && HandleRadioRx(c, p, now).path == c.path
  {
    CacheResponseOnly(c, p, now);
    hide CacheResponse, RouteToInFlight, RouteAck, HandlePush;
  }
}
