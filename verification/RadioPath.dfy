/** The radio path: one slot, one FIFO queue, one link. Conservation and order of requests, and what every
    client is told about its own. */
module RadioPath {
  import opened Bytes
  import opened Protocol
  import opened Store
  import opened CoreState

  // ---------------------------------------------------------------------
  // What the path holds and what it has told clients
  // ---------------------------------------------------------------------

  function Slot(c: Core): seq<Request> {
    if c.path.inFlight.Some? then [c.path.inFlight.value.Req()] else []
  }

  /** Requests on the path, oldest first. */
  function Outstanding(c: Core): seq<Request> {
    Slot(c) + c.path.queue
  }

  function Ended(settled: seq<Settled>): seq<Request> {
    seq(|settled|, i requires 0 <= i < |settled| => settled[i].request)
  }

  /** The frames a client was sent as the answer to something: radio replies and ERRORs, in order. */
  function AnswersTo(out: seq<Event>, client: ClientId): seq<Frame> {
    if out == [] then []
    else AnswersTo(out[..|out| - 1], client) + AnswerIn(out[|out| - 1], client)
  }

  function AnswerIn(e: Event, client: ClientId): seq<Frame> {
    if e.ToClient? && e.client == client && (e.kind == Reply || e.kind == Failure) then [e.frame] else []
  }

  /** The frames an outcome owes the client that asked. */
  function Answer(o: Outcome): seq<Frame> {
    match o
    case Answered(frames) => frames
    case Failed(frames) => frames + [ERROR_FRAME]
    case Gone => []
    case Lost => []
  }

  /** Everything owed to a client by its settled requests, in the order they were settled. */
  function Owed(settled: seq<Settled>, client: ClientId): seq<Frame> {
    if settled == [] then []
    else
      var last := settled[|settled| - 1];
      Owed(settled[..|settled| - 1], client)
          + (if last.request.client == Some(client) then Answer(last.outcome) else [])
  }

  /** What the request in flight has brought a client so far. */
  function Running(c: Core, client: ClientId): seq<Frame> {
    if c.path.inFlight.Some? && c.path.inFlight.value.client == Some(client) then CurrentFrames(c) else []
  }

  // ---------------------------------------------------------------------
  // The invariant
  // ---------------------------------------------------------------------

  /** The only commands the multiplexer sends of its own accord; none of them makes it queue another. */
  predicate InternalCommand(payload: Command) {
    payload[0] in {0x04, 0x1E, 0x1F}
  }

  ghost predicate WellFormedRequest(c: Core, q: Request) {
    && (q.client.None? ==> InternalCommand(q.payload))
    && (q.client.Some? ==> q.client.value < c.nextClient)
  }

  ghost predicate WellFormedOutcome(s: Settled) {
    match s.outcome
    case Answered(frames) => WholeReply(AwaitingFor(s.request.payload), frames)
    case Failed(frames) => OpenReply(AwaitingFor(s.request.payload), frames)
    case Gone => s.request.client.Some?
    case Lost => false
  }

  /** Every request ever put on the path is settled, in flight or queued, and counted once. */
  ghost predicate Conserved(c: Core) {
    multiset(c.path.arrived) == multiset(Ended(c.path.settled)) + multiset(Outstanding(c))
  }

  /** The requests sent on this link, then those still waiting: never out of arrival order. */
  ghost predicate Fifo(c: Core) {
    IsSubsequence(c.path.link.sent + c.path.queue, c.path.arrived)
  }

  /** The link's history fits the slot. */
  ghost predicate SlotIsLastSent(c: Core) {
    && |c.path.link.routed| == |c.path.link.sent|
    && (c.path.inFlight.Some? ==>
          && c.path.link.sent != [] && c.path.link.sent[|c.path.link.sent| - 1] == c.path.inFlight.value.Req()
          && c.path.inFlight.value.awaiting == AwaitingFor(c.path.inFlight.value.payload)
          && OpenReply(c.path.inFlight.value.awaiting, CurrentFrames(c)))
  }

  ghost predicate WellFormed(c: Core) {
    && (forall q :: q in Outstanding(c) ==> WellFormedRequest(c, q))
    && (forall s :: s in c.path.settled ==> WellFormedOutcome(s))
    && (forall k :: k in c.live ==> k < c.nextClient)
  }

  /** A client still connected has been told exactly what its requests came to. Client ids are never reused,
      so the same holds, vacuously, of ids not given out yet. */
  ghost predicate Told(c: Core) {
    forall k: ClientId :: k in c.live || k >= c.nextClient ==> ToldTo(c, k)
  }

  ghost predicate ToldTo(c: Core, k: ClientId) {
    AnswersTo(c.out, k) == Owed(c.path.settled, k) + Running(c, k)
  }

  /** All but the claim about an idle slot, which handlers break and restore. */
  ghost predicate PathInv'(c: Core) {
    Conserved(c) && Fifo(c) && SlotIsLastSent(c) && WellFormed(c) && Told(c)
  }

  /** A free slot means nothing is waiting, unless the link's sender is closed for good. */
  ghost predicate NoIdleWait(c: Core) {
    c.path.inFlight.None? && c.path.queue != [] ==> !CanSend(c)
  }

  ghost predicate PathInv(c: Core) {
    PathInv'(c) && NoIdleWait(c)
  }

  // ---------------------------------------------------------------------
  // Handlers that do not touch the path
  // ---------------------------------------------------------------------

  ghost predicate SamePath(c: Core, d: Core) {
    && d.path == c.path && d.live == c.live && d.nextClient == c.nextClient
    && forall k: ClientId :: AnswersTo(d.out, k) == AnswersTo(c.out, k)
  }

  lemma SamePathKeeps(c: Core, d: Core)
    requires SamePath(c, d)
    ensures PathInv'(c) ==> PathInv'(d)
    ensures NoIdleWait(c) ==> NoIdleWait(d)
  {
    if PathInv'(c) {
      assert Outstanding(d) == Outstanding(c) && Slot(d) == Slot(c) && CurrentFrames(d) == CurrentFrames(c);
      forall k: ClientId | k in d.live || k >= d.nextClient
        ensures ToldTo(d, k)
      {
        assert Running(d, k) == Running(c, k);
      }
      assert forall q :: WellFormedRequest(d, q) == WellFormedRequest(c, q);
    }
  }

  lemma EmitKeepsPath(c: Core, e: Event)
    requires e.ToClient? ==> e.kind != Reply && e.kind != Failure
    ensures SamePath(c, c.(out := c.out + [e]))
  {
    assert (c.out + [e])[..|c.out|] == c.out;
    forall k: ClientId
      ensures AnswersTo(c.out + [e], k) == AnswersTo(c.out, k)
    {
      assert AnswerIn(e, k) == [];
    }
  }

  lemma SendKeepsPath(c: Core, client: ClientId, frame: Frame, kind: Kind)
    requires kind != Reply && kind != Failure
    ensures SamePath(c, SendToClient(c, client, frame, kind))
  {
    EmitKeepsPath(c, ToClient(client, frame, Wire(c, client, frame), kind));
  }

  lemma StoreMessageOnly(c: Core, timestamp: int, frame: Frame, origin: Option<Identity>, now: Clock)
    ensures var d := StoreMessage(c, timestamp, frame, origin, now);
            d == c.(db := d.db, sessions := d.sessions, versions := d.versions)
  {
    hide AdvanceAll, CaughtUp;
  }

  lemma KeepOnlyMemory(c: Core, blob: Frame)
    ensures KeepSelfInfo(c, blob) == c.(mem := KeepSelfInfo(c, blob).mem)
    ensures KeepDeviceInfo(c, blob) == c.(mem := KeepDeviceInfo(c, blob).mem)
  {
    hide TrimNuls;
  }

  /** Caching a frame touches what is remembered and stored, nothing on the path and no client. */
  lemma CacheResponseOnly(c: Core, p: Command, now: Clock)
    ensures var d := CacheResponse(c, p, now);
            d == c.(mem := d.mem, db := d.db, sessions := d.sessions, versions := d.versions)
  {
    hide StoreMessage, KeepSelfInfo, KeepDeviceInfo, ContactFromFrame, ChannelFromFrame, MessageTimestamp;
    if p[0] == 0x05 {
      KeepOnlyMemory(c.(db := c.db.(blobs := c.db.blobs[SelfInfo := p])), p);
    } else if p[0] == 0x0D {
      KeepOnlyMemory(c.(db := c.db.(blobs := c.db.blobs[DeviceInfo := p])), p);
    } else if Storable(p) {
      StoreMessageOnly(c, MessageTimestamp(p), p, None, now);
    }
  }

  lemma CacheResponseKeepsPath(c: Core, p: Command, now: Clock)
    ensures SamePath(c, CacheResponse(c, p, now))
  {
    CacheResponseOnly(c, p, now);
    hide CacheResponse;
  }

  lemma {:induction false} ListContactsKeepsPath(c: Core, client: ClientId, rows: seq<Contact>, since: Option<nat>)
    ensures SamePath(c, ListContacts(c, client, rows, since).0)
  {
    if rows != [] {
      ListContactsKeepsPath(c, client, rows[..|rows| - 1], since);
      var (c1, _) := ListContacts(c, client, rows[..|rows| - 1], since);
      SendKeepsPath(c1, client, ContactFrame(rows[|rows| - 1]), Cached);
    }
  }

  lemma ServeFromCacheKeepsPath(c: Core, cmd: ClientCommand)
    requires cmd.payload != []
    ensures TryServeFromCache(c, cmd).Some? ==> SamePath(c, TryServeFromCache(c, cmd).value)
  {
    var code := cmd.payload[0];
    if CachedBlob(c, code).Some? {
      SendKeepsPath(c, cmd.client, CachedBlob(c, code).value, Cached);
    } else if code == 0x04 && c.db.contacts != [] {
      var rows, since := GetContacts(c.db), Since(cmd.payload);
      var c1 := SendToClient(c, cmd.client, [0x02] + LE32(|rows|), Cached);
      SendKeepsPath(c, cmd.client, [0x02] + LE32(|rows|), Cached);
      ListContactsKeepsPath(c1, cmd.client, rows, since);
      var (c2, newest) := ListContacts(c1, cmd.client, rows, since);
      SendKeepsPath(c2, cmd.client, [0x04] + LE32(newest), Cached);
    } else if code == 0x1F && RequestedChannel(cmd.payload) in c.db.channels {
      SendKeepsPath(c, cmd.client, ChannelFrame(c.db.channels[RequestedChannel(cmd.payload)]), Cached);
    }
  }

  lemma NotifyKeepsPath(c: Core, client: ClientId)
    ensures SamePath(c, NotifyMissed(c, client))
  {
    SendKeepsPath(c, client, [0x83], Notice);
  }

  lemma {:induction false} ServeMissedKeepsPath(c: Core, client: ClientId, now: Clock)
    requires client in c.sessions
    ensures SamePath(c, ServeMissed(c, client, now).0)
    decreases |c.sessions[client].pending|
  {
    var s := c.sessions[client];
    if s.pending != [] {
      var id, c1 := s.pending[0], c.(sessions := c.sessions[client := s.(pending := s.pending[1..])]);
      var frame := MessageFrame(c1.db, id);
      if frame.None? {
        ServeMissedKeepsPath(c1, client, now);
      } else {
        SendKeepsPath(c1, client, frame.value, Missed(id));
      }
    }
  }

  lemma ReplayKeepsPath(c: Core, client: ClientId, now: Clock)
    ensures SamePath(c, ReplayNextMissed(c, client, now).0)
  {
    if client in c.sessions {
      ServeMissedKeepsPath(c, client, now);
    }
  }

  lemma EchoKeepsPath(c: Core, done: InFlight, now: Clock)
    ensures SamePath(c, SynthesizeEcho(c, done, now))
  {
    if done.client.Some? && IsWellFormedSend(done.payload) && c.mem.pubkey.Some? {
      var echo := EchoFrame(c, done.payload);
      EmitKeepsPath(c,
                    ToOthers(echo, map id | id in Recipients(c, done.client) :: Wire(c, id, echo), Echoed(done.Req())));
    }
  }

  // ---------------------------------------------------------------------
  // Handlers that do
  // ---------------------------------------------------------------------

  lemma AnswersAfter(out: seq<Event>, e: Event, k: ClientId)
    ensures AnswersTo(out + [e], k) == AnswersTo(out, k) + AnswerIn(e, k)
  {
    assert (out + [e])[..|out|] == out;
  }

  lemma OwedAfter(settled: seq<Settled>, s: Settled, k: ClientId)
    ensures Owed(settled + [s], k) == Owed(settled, k) + (if s.request.client == Some(k) then Answer(s.outcome) else [])
  {
    assert (settled + [s])[..|settled|] == settled;
  }

  lemma EndedAfter(settled: seq<Settled>, s: Settled)
    ensures Ended(settled + [s]) == Ended(settled) + [s.request]
  {
  }

  /** An ERROR reaches its client if, and only if, it is still there. */
  lemma ErrorAnswers(c: Core, client: Option<ClientId>)
    ensures SendError(c, client) == c.(out := SendError(c, client).out)
    ensures forall k: ClientId :: AnswersTo(SendError(c, client).out, k)
                        == AnswersTo(c.out, k) + (if client == Some(k) && k in c.live then [ERROR_FRAME] else [])
  {
    forall k: ClientId
      ensures AnswersTo(SendError(c, client).out, k)
              == AnswersTo(c.out, k) + (if client == Some(k) && k in c.live then [ERROR_FRAME] else [])
    {
      if client.Some? && client.value in c.live {
        AnswersAfter(c.out, ToClient(client.value, ERROR_FRAME, Wire(c, client.value, ERROR_FRAME), Failure), k);
      }
    }
  }

  /** With the slot free and `q` off the queue: the path minus `q`, which is about to be settled or sent. */
  ghost predicate Popped(c: Core, q: Request) {
    && c.path.inFlight.None?
    && multiset(c.path.arrived) == multiset(Ended(c.path.settled)) + multiset{q} + multiset(c.path.queue)
    && Fifo(c) && SlotIsLastSent(c) && WellFormed(c) && WellFormedRequest(c, q) && Told(c)
  }

  /** `q` may be sent now without overtaking anything. */
  ghost predicate NextInLine(c: Core, q: Request) {
    IsSubsequence(c.path.link.sent + [q] + c.path.queue, c.path.arrived)
  }

  lemma SameWellFormed(c: Core, d: Core)
    requires d.nextClient == c.nextClient && d.live == c.live && d.path.settled == c.path.settled
    requires WellFormed(c)
    requires forall q :: q in Outstanding(d) ==> q in Outstanding(c)
    ensures WellFormed(d)
    ensures forall q :: q in Outstanding(c) ==> WellFormedRequest(d, q)
  {
    assert forall q :: WellFormedRequest(d, q) == WellFormedRequest(c, q);
  }

  lemma SameTold(c: Core, d: Core)
    requires d.nextClient == c.nextClient && d.live == c.live && d.out == c.out && d.path.settled == c.path.settled
    requires d.path.inFlight == c.path.inFlight && d.path.link == c.path.link && Told(c)
    ensures Told(d)
  {
    forall k: ClientId | k in d.live || k >= d.nextClient
      ensures ToldTo(d, k)
    {
      assert Running(d, k) == Running(c, k);
    }
  }

  lemma PopOrder(sent: seq<Request>, queue: seq<Request>, arrived: seq<Request>)
    requires queue != [] && IsSubsequence(sent + queue, arrived)
    ensures IsSubsequence(sent + [queue[0]] + queue[1..], arrived)
    ensures IsSubsequence(sent + queue[1..], arrived)
  {
    assert sent + queue == sent + [queue[0]] + queue[1..];
    SubsequenceDrop(sent, queue[0], queue[1..], arrived);
  }

  lemma PopConserves(c: Core)
    requires Conserved(c) && c.path.inFlight.None? && c.path.queue != []
    ensures multiset(c.path.arrived)
            == multiset(Ended(c.path.settled)) + multiset{c.path.queue[0]} + multiset(c.path.queue[1..])
  {
    hide Ended;
    assert Outstanding(c) == c.path.queue == [c.path.queue[0]] + c.path.queue[1..];
  }

  lemma Pop(c: Core)
    requires PathInv'(c) && c.path.inFlight.None? && c.path.queue != []
    ensures Popped(WithQueue(c, c.path.queue[1..]), c.path.queue[0])
    ensures NextInLine(WithQueue(c, c.path.queue[1..]), c.path.queue[0])
  {
    hide AnswersTo, Owed, IsSubsequence, AwaitingFor, OpenReply, WellFormed, Told, Ended, Conserved;
    var q, d := c.path.queue[0], WithQueue(c, c.path.queue[1..]);
    PopConserves(c);
    assert Outstanding(c) == c.path.queue && Outstanding(d) == d.path.queue;
    assert c.path.queue == [q] + d.path.queue;
    SameWellFormed(c, d);
    SameTold(c, d);
    PopOrder(c.path.link.sent, c.path.queue, c.path.arrived);
  }

  /** Settling the request taken off the queue, with the frames its outcome owes already sent. */
  lemma SettlePopped(c: Core, out: seq<Event>, q: Request, outcome: Outcome)
    requires Popped(c, q) && WellFormedOutcome(Settled(q, outcome))
    requires forall k: ClientId :: k in c.live || k >= c.nextClient ==>
               AnswersTo(out, k) == AnswersTo(c.out, k) + if q.client == Some(k) then Answer(outcome) else []
    ensures PathInv'(Settle(c.(out := out), q, outcome))
  {
    var d, s := Settle(c.(out := out), q, outcome), Settled(q, outcome);
    hide AnswersTo, Owed, IsSubsequence, AwaitingFor, OpenReply;
    EndedAfter(c.path.settled, s);
    assert Outstanding(d) == c.path.queue && Outstanding(c) == c.path.queue;
    assert forall x :: WellFormedRequest(d, x) == WellFormedRequest(c, x);
    forall k: ClientId | k in d.live || k >= d.nextClient
      ensures ToldTo(d, k)
    {
      OwedAfter(c.path.settled, s, k);
      assert Running(c, k) == [] && Running(d, k) == [];
    }
  }

  lemma FailPopped(c: Core, q: Request)
    requires Popped(c, q)
    ensures PathInv'(Fail(c, q, [])) && Fail(c, q, []).path.inFlight.None?
    ensures Fail(c, q, []).path.queue == c.path.queue && Fail(c, q, []).path.link == c.path.link
  {
    var sent := SendError(c, q.client);
    ErrorAnswers(c, q.client);
    assert [] + [ERROR_FRAME] == [ERROR_FRAME];
    hide AnswersTo, SendError, Conserved, Fifo, WellFormed, SlotIsLastSent;
    forall k: ClientId | k in c.live || k >= c.nextClient
      ensures AnswersTo(sent.out, k) == AnswersTo(c.out, k) + if q.client == Some(k) then Answer(Failed([])) else []
    {
    }
    SettlePopped(c, sent.out, q, Failed([]));
  }

  lemma DropPopped(c: Core, q: Request)
    requires Popped(c, q) && ClientLeft(c, q)
    ensures PathInv'(Settle(c, q, Gone))
  {
    SettlePopped(c, c.out, q, Gone);
    assert c.(out := c.out) == c;
  }

  /** Sending the request taken off the queue: the slot takes its place. Cache changes do not matter. */
  lemma SendPopped(c: Core, d: Core, q: Request, now: Clock)
    requires Popped(c, q) && NextInLine(c, q)
    requires d == Occupy(HandOver(c, q), q, now).(db := d.db, mem := d.mem)
    ensures PathInv'(d) && d.path.inFlight.Some?
  {
    hide AnswersTo, Owed, IsSubsequence, AwaitingFor;
    assert Slot(d) == [q] && Slot(c) == [] && Outstanding(d) == [q] + c.path.queue;
    assert CurrentFrames(d) == [];
    forall x | x in Outstanding(d)
      ensures WellFormedRequest(d, x)
    {
      assert x == q || x in Outstanding(c);
      assert WellFormedRequest(c, x);
    }
    forall k: ClientId | k in d.live || k >= d.nextClient
      ensures ToldTo(d, k)
    {
      assert Running(d, k) == [] && Running(c, k) == [];
    }
  }

  lemma DispatchPopped(c: Core, q: Request, now: Clock)
    requires Popped(c, q)
    requires CanSend(c) ==> NextInLine(c, q)
    ensures PathInv'(DispatchToRadio(c, q, now))
    ensures DispatchToRadio(c, q, now).path.inFlight.None? ==>
              !CanSend(c) && DispatchToRadio(c, q, now).path.queue == c.path.queue
              && DispatchToRadio(c, q, now).path.link == c.path.link
  {
    hide PathInv', Popped, NextInLine;
    if CanSend(c) {
      SendPopped(c, DispatchToRadio(c, q, now), q, now);
    } else {
      FailPopped(c, q);
    }
  }

  /** The queue advances until the slot is taken or nothing is left. */
  lemma {:induction false} AdvanceKeeps(c: Core, now: Clock)
    requires PathInv'(c) && c.path.inFlight.None?
    ensures PathInv'(AdvanceQueue(c, now))
    ensures AdvanceQueue(c, now).path.inFlight.None? ==> AdvanceQueue(c, now).path.queue == []
    decreases |c.path.queue|
  {
    if c.path.queue != [] {
      var q, c1 := c.path.queue[0], WithQueue(c, c.path.queue[1..]);
      Pop(c);
      hide PathInv', Popped, NextInLine;
      if ClientLeft(c1, q) {
        DropPopped(c1, q);
        AdvanceKeeps(Settle(c1, q, Gone), now);
      } else {
        DispatchPopped(c1, q, now);
        var c2 := DispatchToRadio(c1, q, now);
        if c2.path.inFlight.None? {
          AdvanceKeeps(c2, now);
        }
      }
    }
  }

  /** The synchronous variant may stop with requests waiting, but only on a closed link. */
  lemma {:induction false} AdvanceSyncKeeps(c: Core, now: Clock)
    requires PathInv'(c) && c.path.inFlight.None? && c.path.link.attached
    ensures PathInv(AdvanceQueueSync(c, now))
    decreases |c.path.queue|
  {
    if c.path.queue != [] {
      var q, c1 := c.path.queue[0], WithQueue(c, c.path.queue[1..]);
      Pop(c);
      if ClientLeft(c1, q) {
        DropPopped(c1, q);
        AdvanceSyncKeeps(Settle(c1, q, Gone), now);
      } else if !c1.path.link.open {
        FailPopped(c1, q);
      } else {
        SendPopped(c1, AdvanceQueueSync(c, now), q, now);
      }
    }
  }

  /** A request joining the path at its end. */
  lemma EnqueueKeeps(c: Core, q: Request)
    requires PathInv'(c) && WellFormedRequest(c, q)
    ensures PathInv'(Enqueue(c, q))
  {
    hide AnswersTo, Owed, IsSubsequence, AwaitingFor, OpenReply, WellFormedOutcome, Told, Running, Ended, Conserved;
    var d := Enqueue(c, q);
    EnqueueConserves(c, q);
    assert Outstanding(d) == Outstanding(c) + [q];
    EnqueueOrder(c.path.link.sent, c.path.queue, c.path.arrived, q);
    assert WellFormed(d) by {
      assert forall x :: WellFormedRequest(d, x) == WellFormedRequest(c, x);
    }
    SameTold(c, d);
  }

  lemma MultisetAppend(s: seq<Request>, q: Request)
    ensures multiset(s + [q]) == multiset(s) + multiset{q}
  {
  }

  lemma OneMoreCounted(all: multiset<Request>, done: multiset<Request>, left: multiset<Request>, q: Request)
    requires all == done + left
    ensures all + multiset{q} == done + (left + multiset{q})
  {
  }

  lemma SameConserved(c: Core, d: Core)
    requires Conserved(c)
    requires d.path.arrived == c.path.arrived && d.path.settled == c.path.settled && Outstanding(d) == Outstanding(c)
    ensures Conserved(d)
  {
  }

  lemma EnqueueConserves(c: Core, q: Request)
    requires Conserved(c)
    ensures Conserved(Enqueue(c, q))
  {
    hide Ended;
    assert Outstanding(Enqueue(c, q)) == Outstanding(c) + [q];
    MultisetAppend(c.path.arrived, q);
    MultisetAppend(Outstanding(c), q);
    OneMoreCounted(multiset(c.path.arrived), multiset(Ended(c.path.settled)), multiset(Outstanding(c)), q);
  }

  lemma EnqueueOrder(sent: seq<Request>, queue: seq<Request>, arrived: seq<Request>, q: Request)
    requires IsSubsequence(sent + queue, arrived)
    ensures IsSubsequence(sent + (queue + [q]), arrived + [q])
    ensures IsSubsequence(sent + queue, arrived + [q])
  {
    assert sent + (queue + [q]) == sent + queue + [q];
    SubsequenceTake(sent + queue, arrived, q);
    SubsequenceSkip(sent + queue, arrived, q);
  }

  lemma ArriveConserves(c: Core, q: Request)
    requires Conserved(c) && c.path.inFlight.None?
    ensures var d := Arrive(c, [q]);
            multiset(d.path.arrived) == multiset(Ended(d.path.settled)) + multiset{q} + multiset(d.path.queue)
  {
    hide Ended;
    assert Outstanding(c) == c.path.queue;
    MultisetAppend(c.path.arrived, q);
    OneMoreCounted(multiset(c.path.arrived), multiset(Ended(c.path.settled)), multiset(c.path.queue), q);
  }

  lemma ArriveInLine(c: Core, q: Request)
    requires Fifo(c) && NoIdleWait(c) && c.path.inFlight.None?
    ensures Fifo(Arrive(c, [q]))
    ensures CanSend(c) ==> NextInLine(Arrive(c, [q]), q)
  {
    hide IsSubsequence;
    var sent := c.path.link.sent;
    EnqueueOrder(sent, c.path.queue, c.path.arrived, q);
    if CanSend(c) {
      assert c.path.queue + [q] == [q];
      assert sent + [q] + [] == sent + [q];
    }
  }

  lemma ArrivePopped(c: Core, q: Request)
    requires PathInv(c) && c.path.inFlight.None? && WellFormedRequest(c, q)
    ensures Popped(Arrive(c, [q]), q)
    ensures CanSend(c) ==> NextInLine(Arrive(c, [q]), q)
  {
    hide Conserved, Fifo, WellFormed, Told, NextInLine, NoIdleWait, AwaitingFor, Ended, OpenReply;
    ArriveConserves(c, q);
    ArriveInLine(c, q);
    assert Outstanding(Arrive(c, [q])) == Outstanding(c);
    SameWellFormed(c, Arrive(c, [q]));
    SameTold(c, Arrive(c, [q]));
  }

  /** A request arriving at a free slot: nothing is waiting, or the link is closed and it fails at once. */
  lemma ArriveKeeps(c: Core, q: Request, now: Clock)
    requires PathInv(c) && c.path.inFlight.None? && WellFormedRequest(c, q)
    ensures PathInv(DispatchToRadio(Arrive(c, [q]), q, now))
  {
    ArrivePopped(c, q);
    hide PathInv', Popped, NextInLine, DispatchToRadio;
    DispatchPopped(Arrive(c, [q]), q, now);
  }

  lemma EnqueueOrDispatchKeeps(c: Core, q: Request, now: Clock)
    requires PathInv(c) && WellFormedRequest(c, q)
    ensures PathInv(EnqueueOrDispatch(c, q, now))
  {
    hide PathInv';
    if c.path.inFlight.None? {
      ArriveKeeps(c, q, now);
    } else {
      EnqueueKeeps(c, q);
    }
  }

  /** An internal request, sent on at once when the slot is free. */
  lemma EnqueueAndAdvanceKeeps(c: Core, q: Request, now: Clock)
    requires PathInv(c) && WellFormedRequest(c, q)
    ensures var d := Enqueue(c, q);
            PathInv(if d.path.inFlight.None? then AdvanceQueue(d, now) else d)
  {
    EnqueueKeeps(c, q);
    hide PathInv';
    if c.path.inFlight.None? {
      AdvanceKeeps(Enqueue(c, q), now);
    }
  }

  // ---------------------------------------------------------------------
  // Replies
  // ---------------------------------------------------------------------

  /** The invariant while a frame of the reply is being handled: the frame may be the last one. */
  ghost predicate Replying(c: Core, f: InFlight) {
    && c.path.inFlight == Some(f) && f.awaiting == AwaitingFor(f.payload)
    && Conserved(c) && Fifo(c) && WellFormed(c) && Told(c)
    && |c.path.link.routed| == |c.path.link.sent|
    && c.path.link.sent != [] && c.path.link.sent[|c.path.link.sent| - 1] == f.Req()
  }

  lemma ForwardKeeps(c: Core, p: Command, now: Clock)
    requires PathInv'(c) && BelongsToInFlight(c, p)
    ensures var f := c.path.inFlight.value;
            Replying(Forward(c, f, p, now), f) && Forward(c, f, p, now).path == AppendRouted(c, p).path
  {
    PassOnKeeps(c, p, now);
    hide Replying, PathInv', PassOn, AppendRouted, AwaitingFor;
    SpreadKeepsReplying(PassOn(AppendRouted(c, p), c.path.inFlight.value, p, now), c.path.inFlight.value, p);
  }

  lemma PassOnOnly(c: Core, f: InFlight, p: Command, now: Clock)
    ensures PassOn(c, f, p, now) == c.(acks := PassOn(c, f, p, now).acks, out := PassOn(c, f, p, now).out)
  {
    StashAckOnly(c, p, now);
    hide StashAck;
  }

  lemma PassOnKeeps(c: Core, p: Command, now: Clock)
    requires PathInv'(c) && BelongsToInFlight(c, p)
    ensures var f, c1 := c.path.inFlight.value, AppendRouted(c, p);
            Replying(PassOn(c1, f, p, now), f) && PassOn(c1, f, p, now).path == c1.path
  {
    hide Told, PassOn, AppendRouted, WellFormed, Conserved, Fifo, AwaitingFor, OpenReply;
    var f, c1 := c.path.inFlight.value, AppendRouted(c, p);
    var d := PassOn(c1, f, p, now);
    ReplyTold(c, p, now);
    RoutedGrows(c, p);
    PassOnOnly(c1, f, p, now);
    assert Outstanding(d) == Outstanding(c);
    SameWellFormed(c, d);
    SameConserved(c, d);
    SameFifo(c, d);
  }

  lemma SameFifo(c: Core, d: Core)
    requires Fifo(c) && d.path.arrived == c.path.arrived && d.path.queue == c.path.queue
    requires d.path.link.sent == c.path.link.sent
    ensures Fifo(d)
  {
  }

  lemma SpreadKeepsReplying(c: Core, f: InFlight, p: Command)
    requires Replying(c, f)
    ensures Replying(BroadcastToOthers(c, f.client, p, Heard), f)
  {
    EmitKeepsPath(c, ToOthers(p, map id | id in Recipients(c, f.client) :: Wire(c, id, p), Heard));
    hide Replying;
    ReplyingSamePath(c, BroadcastToOthers(c, f.client, p, Heard), f);
  }

  /** The frame joins what the client was told and what its running request has brought, at once. */
  lemma ReplyTold(c: Core, p: Command, now: Clock)
    requires PathInv'(c) && BelongsToInFlight(c, p)
    ensures Told(PassOn(AppendRouted(c, p), c.path.inFlight.value, p, now))
  {
    hide PassOn, AppendRouted, Conserved, Fifo, WellFormed, AnswersTo, Owed, AwaitingFor, OpenReply;
    var f, c1 := c.path.inFlight.value, AppendRouted(c, p);
    var d := PassOn(c1, f, p, now);
    InFlightKnown(c);
    RoutedGrows(c, p);
    PassOnOnly(c1, f, p, now);
    forall k: ClientId | k in d.live || k >= d.nextClient
      ensures ToldTo(d, k)
    {
      assert ToldTo(c, k);
      PassOnAnswers(c1, f, p, now, k);
    }
  }

  /** The client in flight has been given out its id. */
  lemma InFlightKnown(c: Core)
    requires WellFormed(c) && c.path.inFlight.Some?
    ensures c.path.inFlight.value.client.Some? ==> c.path.inFlight.value.client.value < c.nextClient
  {
    var f := c.path.inFlight.value;
    assert f.Req() in Outstanding(c) && WellFormedRequest(c, f.Req());
  }

  lemma PassOnAnswers(c: Core, f: InFlight, p: Command, now: Clock, k: ClientId)
    ensures AnswersTo(PassOn(c, f, p, now).out, k)
            == AnswersTo(c.out, k) + (if f.client == Some(k) && k in c.live then [p] else [])
  {
    if f.client.Some? && f.client.value in c.live {
      var c0 := StashAck(c, f.client.value, p, now);
      StashAckOnly(c, p, now);
      AnswersAfter(c.out, ToClient(f.client.value, p, Wire(c0, f.client.value, p), Reply), k);
    }
  }

  lemma RoutedGrows(c: Core, p: Command)
    requires c.path.link.routed != []
    ensures CurrentFrames(AppendRouted(c, p)) == CurrentFrames(c) + [p]
    ensures AppendRouted(c, p) == WithLink(c, c.path.link.(routed := AppendRouted(c, p).path.link.routed))
    ensures |AppendRouted(c, p).path.link.routed| == |c.path.link.routed|
  {
  }

  lemma StashAckOnly(c: Core, p: Command, now: Clock)
    ensures forall client :: StashAck(c, client, p, now) == c.(acks := StashAck(c, client, p, now).acks)
  {
  }

  lemma ReplyingSamePath(c: Core, d: Core, f: InFlight)
    requires Replying(c, f) && SamePath(c, d)
    ensures Replying(d, f)
  {
    hide AwaitingFor, IsSubsequence, Owed, WellFormedOutcome;
    assert Outstanding(d) == Outstanding(c) && CurrentFrames(d) == CurrentFrames(c);
    assert forall x :: WellFormedRequest(d, x) == WellFormedRequest(c, x);
    forall k: ClientId | k in d.live || k >= d.nextClient
      ensures ToldTo(d, k)
    {
      assert Running(d, k) == Running(c, k);
    }
  }

  /** Settling the request in flight, its outcome's frames already with the client. */
  lemma SettleInFlight(c: Core, out: seq<Event>, f: InFlight, outcome: Outcome)
    requires Replying(c, f) && WellFormedOutcome(Settled(f.Req(), outcome))
    requires forall k: ClientId :: k in c.live || k >= c.nextClient ==>
               AnswersTo(out, k) == Owed(c.path.settled, k) + if f.client == Some(k) then Answer(outcome) else []
    ensures PathInv'(Settle(WithSlot(c, None).(out := out), f.Req(), outcome))
  {
    var d, s := Settle(WithSlot(c, None).(out := out), f.Req(), outcome), Settled(f.Req(), outcome);
    EndedAfter(c.path.settled, s);
    assert Outstanding(c) == [f.Req()] + c.path.queue && Outstanding(d) == c.path.queue;
    assert WellFormed(d) by {
      assert forall x :: WellFormedRequest(d, x) == WellFormedRequest(c, x);
      assert forall x :: x in Outstanding(d) ==> x in Outstanding(c);
    }
    forall k: ClientId | k in d.live || k >= d.nextClient
      ensures ToldTo(d, k)
    {
      OwedAfter(c.path.settled, s, k);
      assert Running(d, k) == [];
    }
  }

  lemma ApplyAcceptedKeeps(c: Core, done: InFlight)
    requires PathInv'(c)
    ensures PathInv'(ApplyAccepted(c, done))
    ensures ApplyAccepted(c, done).path.inFlight == c.path.inFlight
  {
    var p, d := done.payload, ApplyAccepted(c, done);
    hide PathInv', TrimNuls, AnswersTo;
    if p[0] in {0x09, 0x0D} && |p| >= 33 {
      InternalIsWellFormed(c, RefreshCommand(p[1..33]));
      EnqueueKeeps(c, Request(None, RefreshCommand(p[1..33])));
    } else if p[0] == 0x12 {
      InternalIsWellFormed(c, FULL_SYNC);
      EnqueueKeeps(c, Request(None, FULL_SYNC));
    } else {
      SamePathKeeps(c, d);
    }
  }

  lemma InternalIsWellFormed(c: Core, payload: Command)
    requires InternalCommand(payload)
    ensures WellFormedRequest(c, Request(None, payload))
  {
  }

  lemma OnCommandAcceptedKeeps(c: Core, done: InFlight, now: Clock)
    requires PathInv'(c)
    ensures PathInv'(OnCommandAccepted(c, done, now))
    ensures OnCommandAccepted(c, done, now).path.inFlight == c.path.inFlight
  {
    var c1 := if done.payload[0] == 0x01 && done.client.Some? then NotifyMissed(c, done.client.value) else c;
    if done.payload[0] == 0x01 && done.client.Some? {
      NotifyKeepsPath(c, done.client.value);
      SamePathKeeps(c, c1);
    }
    hide PathInv', AnswersTo;
    ApplyAcceptedKeeps(c1, done);
    EchoKeepsPath(ApplyAccepted(c1, done), done, now);
    SamePathKeeps(ApplyAccepted(c1, done), OnCommandAccepted(c, done, now));
  }

  lemma CompleteKeeps(c: Core, f: InFlight, p: Command, now: Clock)
    requires Replying(c, f) && WholeReply(f.awaiting, CurrentFrames(c))
    ensures PathInv(Complete(c, f, p, now))
  {
    var outcome := Answered(CurrentFrames(c));
    var c1 := Settle(WithSlot(c, None), f.Req(), outcome);
    assert PathInv'(c1) by {
      forall k: ClientId | k in c.live || k >= c.nextClient
        ensures AnswersTo(c.out, k) == Owed(c.path.settled, k) + if f.client == Some(k) then Answer(outcome) else []
      {
        assert Answer(outcome) == CurrentFrames(c);
      }
      SettleInFlight(c, c.out, f, outcome);
      assert WithSlot(c, None).(out := c.out) == WithSlot(c, None);
    }
    hide PathInv', Replying;
    if !IsError(p) {
      OnCommandAcceptedKeeps(c1, f, now);
    }
    AdvanceKeeps(if IsError(p) then c1 else OnCommandAccepted(c1, f, now), now);
  }

  lemma RouteKeeps(c: Core, p: Command, now: Clock)
    requires PathInv(c) && BelongsToInFlight(c, p)
    ensures PathInv(RouteToInFlight(c, p, now))
  {
    var f := c.path.inFlight.value;
    ForwardKeeps(c, p, now);
    RoutedGrows(c, p);
    var c1 := Forward(c, f, p, now);
    var frames := CurrentFrames(c1);
    assert frames[..|frames| - 1] == CurrentFrames(c);
    if f.awaiting.Completes(p[0]) {
      assert WholeReply(f.awaiting, frames);
      hide PathInv', Replying;
      CompleteKeeps(c1, f, p, now);
    } else {
      StillOpen(c1, f, now);
    }
  }

  lemma StillOpen(c: Core, f: InFlight, now: Clock)
    requires Replying(c, f) && OpenReply(f.awaiting, CurrentFrames(c))
    ensures PathInv(WithSlot(c, Some(f.(lastActivity := now.mono))))
  {
    hide AnswersTo, Owed, IsSubsequence, AwaitingFor, WellFormedOutcome;
    var d := WithSlot(c, Some(f.(lastActivity := now.mono)));
    assert Outstanding(d) == Outstanding(c) && CurrentFrames(d) == CurrentFrames(c);
    assert forall x :: WellFormedRequest(d, x) == WellFormedRequest(c, x);
    forall k: ClientId | k in d.live || k >= d.nextClient
      ensures ToldTo(d, k)
    {
      assert Running(d, k) == Running(c, k);
    }
  }

  /** Giving the slot's request up: the client gets what came so far and an ERROR. */
  lemma FailInFlightKeeps(c: Core)
    requires PathInv'(c)
    ensures PathInv'(FailInFlight(c)) && FailInFlight(c).path.inFlight.None?
    ensures FailInFlight(c).path.queue == c.path.queue && FailInFlight(c).path.link == c.path.link
  {
    if c.path.inFlight.Some? {
      var f, outcome := c.path.inFlight.value, Failed(CurrentFrames(c));
      var sent := SendError(WithSlot(c, None), f.client);
      InFlightKnown(c);
      ErrorAnswers(WithSlot(c, None), f.client);
      FailTold(c, f, sent.out);
      hide AnswersTo, SendError, Conserved, Fifo, WellFormed, AwaitingFor, OpenReply, Told;
      SettleInFlight(c, sent.out, f, outcome);
    }
  }

  lemma FailTold(c: Core, f: InFlight, out: seq<Event>)
    requires c.path.inFlight == Some(f) && Told(c)
    requires f.client.Some? ==> f.client.value < c.nextClient
    requires forall k: ClientId :: AnswersTo(out, k)
                                   == AnswersTo(c.out, k)
                                   + (if f.client == Some(k) && k in c.live then [ERROR_FRAME] else [])
    ensures forall k: ClientId :: k in c.live || k >= c.nextClient ==>
              AnswersTo(out, k) == Owed(c.path.settled, k) + if f.client == Some(k)
                  then Answer(Failed(CurrentFrames(c))) else []
  {
    hide AnswersTo, Owed;
    forall k: ClientId | k in c.live || k >= c.nextClient
      ensures AnswersTo(out, k) == Owed(c.path.settled, k) + if f.client == Some(k)
              then Answer(Failed(CurrentFrames(c))) else []
    {
      assert ToldTo(c, k);
    }
  }
}
