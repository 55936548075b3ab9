/** The multiplexer in front of a radio that answers commands in order: the reply a client gets is the radio's. */
module Environment {
  import opened Bytes
  import opened Protocol
  import opened Store
  import opened CoreState
  import opened RadioPath
  import opened Outcomes
  import opened Links
  import opened Requests
  import opened Frames
  import opened Flow
  import opened Firmware

  // ---------------------------------------------------------------------
  // The radio
  // ---------------------------------------------------------------------

  /** What the radio holds and the multiplexer caches. */
  datatype Item = OfContact(key: Frame) | OfChannel(idx: byte) | OfSelf | OfDevice

  /** The item a frame from the radio is about, and its value as it is served from the cache. */
  function Carries(p: Command): Option<(Item, Frame)> {
    if IsContactFrame(p) then Some((OfContact(ContactKey(p)), p[..CONTACT_FRAME_LEN]))
    else if IsChannelFrame(p) then Some((OfChannel(p[1]), ChannelFrame(ChannelFromFrame(p))))
    else if p[0] == 0x05 then Some((OfSelf, p))
    else if p[0] == 0x0D then Some((OfDevice, p))
    else None
  }

  predicate IsAbout(p: Command, x: Item) {
    Carries(p).Some? && Carries(p).value.0 == x
  }

  /** The command asks for this item. */
  predicate Rereads(cmd: Command, x: Item) {
    match x
    case OfContact(key) => cmd == [0x04] || cmd == [0x1E] + key
    case OfChannel(idx) => cmd == [0x1F, idx]
    case _ => false
  }

  /** An item in both tables has one value; nothing is new. */
  predicate KeepsItem(before: map<Item, Frame>, after: map<Item, Frame>, x: Item) {
    x in after ==> x in before && after[x] == before[x]
  }

  /** A reply the radio may give: what the firmware replies to that command, truthful about what it holds then,
      complete for what was asked unless it is refused. An accepted command may change anything, a refused one changes
      nothing. */
  ghost predicate Answers(cmd: Command, before: map<Item, Frame>, reply: seq<Command>, after: map<Item, Frame>) {
    && FirmwareReply(cmd, reply)
    && (forall f :: f in reply && Carries(f).Some? ==>
          Carries(f).value.0 in after && after[Carries(f).value.0] == Carries(f).value.1)
    && (forall x :: x in after && Rereads(cmd, x) && !IsError(reply[|reply| - 1]) ==>
        exists f :: f in reply && IsAbout(f, x))
    && (IsError(reply[|reply| - 1]) ==> forall x :: KeepsItem(before, after, x))
    && (cmd[0] == 0x0F && |cmd| >= 33 && !IsError(reply[|reply| - 1]) ==> OfContact(cmd[1..33]) !in after)
  }

  /** What the radio answers is a whole reply to what was asked. */
  lemma AnswersWhole(cmd: Command, before: map<Item, Frame>, reply: seq<Command>, after: map<Item, Frame>)
    requires Answers(cmd, before, reply, after)
    ensures WholeReply(AwaitingFor(cmd), reply) && reply != []
  {
    hide FirmwareReply, Carries, Rereads, AwaitingFor;
    ReplyIsWhole(cmd, reply);
  }

  /** A frame on its way from the radio; `reply` tells those that answer a command from pushes. */
  datatype InTransit = InTransit(frame: Command, reply: bool)

  /** `handled`: how many commands of the link the radio has answered, with `replies`. `base`: the requests settled
      before this link. `gone`: contacts whose removal was accepted, until the radio holds them again. `unsynced`:
      items the last synchronisation did not ask for. `unread`: items the radio has refused to tell, or has changed by
      a command that is not followed up, without a frame about them since. `outdated`: items cached otherwise than the
      radio held them when the link began or when it last changed, told or refused to tell them, and about which no
      frame has been read since. */
  datatype World = World(core: Core, tables: map<Item, Frame>, handled: nat, replies: seq<seq<Command>>,
                         wire: seq<InTransit>, base: nat, gone: set<Item>, unsynced: set<Item>,
                         unread: set<Item>, outdated: set<Item>)

  datatype Action =
    | Own(input: Input, now: Clock)
    | Deliver(now: Clock)
    | Handle(reply: seq<Command>, after: map<Item, Frame>)
    | Push(at: nat, frame: Command)
    | Announce(frame: Command, value: Frame)
    | Forget(x: Item)
    | Renew(r: Reconnection, after: map<Item, Frame>, now: Clock)

  predicate TellsOfContact(p: Command) {
    p[0] in {0x80, 0x81} && |p| >= 33
  }

  /** The handshake told the truth. */
  predicate Truthful(r: Reconnection, tables: map<Item, Frame>) {
    && OfSelf in tables && tables[OfSelf] == r.selfInfo
    && (r.deviceInfo.Some? ==> OfDevice in tables && tables[OfDevice] == r.deviceInfo.value)
  }

  /** No request times out, and no stray self-telemetry push comes while one is waiting for its own. */
  ghost predicate Allowed(w: World, a: Action) {
    match a
    case Own(i, now) => !i.Radio? && !i.Reconnect? && (i.TimeoutTick? ==> !TimedOut(w.core, now))
    case Deliver(_) => w.wire != [] && (!w.wire[0].reply ==> !BelongsToInFlight(w.core, w.wire[0].frame))
    case Handle(reply, after) =>
      w.handled < |w.core.path.link.sent| && Answers(w.core.path.link.sent[w.handled].payload, w.tables, reply, after)
    case Push(at, frame) => at <= |w.wire| && IsPush(frame[0])
    case Announce(frame, _) => TellsOfContact(frame)
    case Forget(_) => true
    case Renew(r, after, _) => Truthful(r, after)
  }

  function AsReply(frames: seq<Command>): (t: seq<InTransit>)
    ensures |t| == |frames|
  {
    seq(|frames|, i requires 0 <= i < |frames| => InTransit(frames[i], true))
  }

  /** The removal of a contact, accepted. */
  function Removed(cmd: Command, reply: seq<Command>): set<Item> {
    if cmd[0] == 0x0F && |cmd| >= 33 && reply != [] && !IsError(reply[|reply| - 1]) then {OfContact(cmd[1..33])} else {}
  }

  /** What is cached now and the synchronisation after a handshake will not ask for. */
  function NotAskedFor(c: Core, r: Reconnection): set<Item> {
    (set i: byte | i as int in c.db.channels && i as int >= c.mem.maxChannels :: OfChannel(i))
    + if r.deviceInfo.None? then {OfDevice} else {}
  }

  /** The items a refused command asked for in vain. */
  function Refused(cmd: Command, reply: seq<Command>, held: map<Item, Frame>): set<Item> {
    if reply != [] && IsError(reply[|reply| - 1]) then set x | x in held && Rereads(cmd, x) else {}
  }

  /** The items some frames are about. */
  function Mentioned(frames: seq<Command>): set<Item> {
    set f | f in frames && Carries(f).Some? :: Carries(f).value.0
  }

  /** The frame a client would be served for the item. */
  function View(c: Core, x: Item): Option<Frame> {
    match x
    case OfContact(key) =>
      var row := FindContact(c.db.contacts, key);
      if row.Some? then Some(ContactFrame(row.value)) else None
    case OfChannel(idx) =>
      if idx as int in c.db.channels then Some(ChannelFrame(c.db.channels[idx as int])) else None
    case OfSelf => c.mem.selfInfo
    case OfDevice => c.mem.deviceInfo
  }

  /** What is cached otherwise than the radio holds it. */
  function CachedOtherwise(c: Core, held: map<Item, Frame>): set<Item> {
    set x | x in held && View(c, x).Some? && View(c, x) != Some(held[x])
  }

  /** What the radio holds now and did not hold before, or not like this. */
  function Altered(before: map<Item, Frame>, after: map<Item, Frame>): set<Item> {
    set x | x in after && !KeepsItem(before, after, x)
  }

  /** The multiplexer asks for the item once the command has been accepted. */
  predicate FollowedUp(cmd: Command, x: Item) {
    FollowUp(cmd).Some? && Rereads(FollowUp(cmd).value.payload, x)
  }

  /** What an answer leaves the multiplexer in the dark about: changed and not asked for again, or refused. */
  function Neglected(cmd: Command, before: map<Item, Frame>, reply: seq<Command>, after: map<Item, Frame>): set<Item> {
    (set x | x in Altered(before, after) && !FollowedUp(cmd, x)) + Refused(cmd, reply, after)
  }

  /** What an answer bears on: the items it changes, refuses to tell, or tells. */
  function Touched(cmd: Command, before: map<Item, Frame>, reply: seq<Command>, after: map<Item, Frame>): set<Item> {
    Altered(before, after) + Refused(cmd, reply, after) + Mentioned(reply)
  }

  function Act(w: World, a: Action): World
    requires a.Deliver? ==> w.wire != []
    requires a.Handle? ==> w.handled < |w.core.path.link.sent|
    requires a.Push? ==> a.at <= |w.wire|
    requires a.Announce? ==> |a.frame| >= 33
  {
    match a
    case Own(i, now) => w.(core := Step(w.core, i, now))
    case Deliver(now) =>
      w.(core := Step(w.core, Radio(w.wire[0].frame), now), wire := w.wire[1..],
         outdated := w.outdated - Mentioned([w.wire[0].frame]))
    case Handle(reply, after) =>
      var cmd := w.core.path.link.sent[w.handled].payload;
      var touched := Touched(cmd, w.tables, reply, after);
      w.(tables := after, handled := w.handled + 1, replies := w.replies + [reply], wire := w.wire + AsReply(reply),
         gone := (w.gone + Removed(cmd, reply)) - after.Keys,
         unread := (w.unread + Neglected(cmd, w.tables, reply, after)) - Mentioned(reply),
         outdated := (w.outdated - touched) + touched * CachedOtherwise(w.core, after))
    case Push(at, frame) => w.(wire := w.wire[..at] + [InTransit(frame, false)] + w.wire[at..])
    case Announce(frame, value) =>
      w.(tables := w.tables[OfContact(frame[1..33]) := value], wire := w.wire + [InTransit(frame, false)],
         gone := w.gone - {OfContact(frame[1..33])})
    case Forget(x) => w.(tables := w.tables - {x})
    case Renew(r, after, now) =>
      var c := Step(w.core, Reconnect(r), now);
      World(c, after, 0, [], [], |c.path.settled|, w.gone - after.Keys, NotAskedFor(c, r), {},
            CachedOtherwise(c, after))
  }

  // ---------------------------------------------------------------------
  // The invariant
  // ---------------------------------------------------------------------

  function ReplyPart(wire: seq<InTransit>): seq<Command> {
    if wire == [] then []
    else (if wire[0].reply then [wire[0].frame] else []) + ReplyPart(wire[1..])
  }

  /** A request and the frames it was answered with. */
  datatype Exchange = Exchange(request: Request, frames: seq<Command>)

  function Exchanges(settled: seq<Settled>): seq<Exchange> {
    if settled == [] then []
    else
      var last := settled[|settled| - 1];
      Exchanges(settled[..|settled| - 1])
      + if last.outcome.Answered? then [Exchange(last.request, last.outcome.frames)] else []
  }

  function Paired(sent: seq<Request>, replies: seq<seq<Command>>, n: nat): seq<Exchange>
    requires n <= |sent| && n <= |replies|
  {
    seq(n, i requires 0 <= i < n => Exchange(sent[i], replies[i]))
  }

  function Completed(w: World): int {
    |w.core.path.link.sent| - if w.core.path.inFlight.Some? then 1 else 0
  }

  /** The radio is at most one command behind, and what it has answered but not delivered is the unread rest of
      the reply to the command in flight. */
  ghost predicate InStep(w: World) {
    var sent, routed := w.core.path.link.sent, w.core.path.link.routed;
    && |w.replies| == w.handled && |routed| == |sent|
    && (if w.core.path.inFlight.Some? then
          && sent != []
          && (w.handled == |sent|
              || (w.handled == |sent| - 1 && ReplyPart(w.wire) == [] && CurrentFrames(w.core) == []))
          && (w.handled == |sent| ==>
                ReplyPart(w.wire) != [] && CurrentFrames(w.core) + ReplyPart(w.wire) == w.replies[|sent| - 1])
        else w.handled == |sent| && ReplyPart(w.wire) == [])
  }

  ghost predicate Shaped(w: World) {
    && w.handled <= |w.core.path.link.sent| && |w.replies| == w.handled
    && (forall i :: 0 <= i < w.handled ==> WholeReply(AwaitingFor(w.core.path.link.sent[i].payload), w.replies[i]))
  }

  /** On this link, the answered requests are the commands sent, each with the radio's own reply. */
  ghost predicate Faithful(w: World) {
    && w.base <= |w.core.path.settled| && 0 <= Completed(w) <= |w.replies|
    && Exchanges(w.core.path.settled[w.base..]) == Paired(w.core.path.link.sent, w.replies, Completed(w))
  }

  ghost predicate WorldInv(w: World) {
    PathInv(w.core) && Shaped(w) && InStep(w) && Faithful(w)
  }

  // ---------------------------------------------------------------------
  // What a step does to the link
  // ---------------------------------------------------------------------

  /** Nothing was sent, or one command into the free slot; nothing was answered. */
  ghost predicate LinkMoves(c: Core, d: Core) {
    && c.path.settled <= d.path.settled
    && (forall j :: |c.path.settled| <= j < |d.path.settled| ==> !d.path.settled[j].outcome.Answered?)
    && ((d.path.link.sent == c.path.link.sent && d.path.link.routed == c.path.link.routed
         && d.path.inFlight == c.path.inFlight)
        || (c.path.inFlight.None? && d.path.inFlight.Some?
            && d.path.link.sent == c.path.link.sent + [d.path.inFlight.value.Req()]
            && d.path.link.routed == c.path.link.routed + [[]]))
  }

  lemma FlowsMove(c: Core, d: Core)
    requires Flows(c, d) && Unanswered(c, d)
    ensures LinkMoves(c, d)
  {
    hide Invalidate, SameCache, StillDue;
  }

  lemma OwnMoves(c: Core, i: Input, now: Clock)
    requires !i.Radio? && !i.Reconnect? && (i.TimeoutTick? ==> !TimedOut(c, now))
    ensures LinkMoves(c, Step(c, i, now))
  {
    hide HandleClientCommand, RequestFullSync, KeptMessages, KeptContacts, KeptClients;
    match i {
      case Connect =>
      case Disconnect(_) =>
      case Command(cmd) =>
        CommandFlows(c, cmd, now);
        CommandUnanswered(c, cmd, now);
        FlowsMove(c, HandleClientCommand(c, cmd, now));
      case TimeoutTick =>
      case MaintenanceTick =>
        RequestFullSyncFlows(c, now);
        FullSyncUnanswered(c, now);
        FlowsMove(c, RequestFullSync(c, now));
      case LinkCloses =>
    }
  }

  lemma FullSyncUnanswered(c: Core, now: Clock)
    ensures Unanswered(c, RequestFullSync(c, now))
  {
    AdvanceUnanswered(Enqueue(c, Request(None, FULL_SYNC)), now);
    hide AdvanceQueue, FullSyncPending;
  }

  // ---------------------------------------------------------------------
  // Sequences
  // ---------------------------------------------------------------------

  lemma {:induction false} ReplyPartAppend(a: seq<InTransit>, b: seq<InTransit>)
    ensures ReplyPart(a + b) == ReplyPart(a) + ReplyPart(b)
  {
    if a == [] {
      assert a + b == b;
    } else {
      assert (a + b)[1..] == a[1..] + b;
      ReplyPartAppend(a[1..], b);
    }
  }

  lemma {:induction false} ReplyPartOfReply(frames: seq<Command>)
    ensures ReplyPart(AsReply(frames)) == frames
  {
    if frames != [] {
      assert AsReply(frames)[1..] == AsReply(frames[1..]);
      ReplyPartOfReply(frames[1..]);
    }
  }

  lemma PushIsNoReply(p: Command)
    ensures ReplyPart([InTransit(p, false)]) == []
  {
    assert [InTransit(p, false)][1..] == [];
  }

  lemma ReplyPartInsert(wire: seq<InTransit>, at: nat, p: Command)
    requires at <= |wire|
    ensures ReplyPart(wire[..at] + [InTransit(p, false)] + wire[at..]) == ReplyPart(wire)
  {
    PushIsNoReply(p);
    hide ReplyPart;
    var t := [InTransit(p, false)];
    ReplyPartAppend(wire[..at] + t, wire[at..]);
    ReplyPartAppend(wire[..at], t);
    ReplyPartAppend(wire[..at], wire[at..]);
    assert wire[..at] + wire[at..] == wire;
  }

  lemma {:induction false} ExchangesSame(a: seq<Settled>, b: seq<Settled>)
    requires a <= b && forall j :: |a| <= j < |b| ==> !b[j].outcome.Answered?
    ensures Exchanges(b) == Exchanges(a)
    decreases |b|
  {
    if |b| > |a| {
      ExchangesSame(a, b[..|b| - 1]);
    } else {
      assert a == b;
    }
  }

  // ---------------------------------------------------------------------
  // The actions
  // ---------------------------------------------------------------------

  lemma MovesInStep(w: World, d: Core, wire: seq<InTransit>)
    requires InStep(w) && LinkMoves(w.core, d) && SlotIsLastSent(d) && ReplyPart(wire) == ReplyPart(w.wire)
    ensures InStep(w.(core := d, wire := wire)) && Completed(w.(core := d)) == Completed(w)
  {
    hide ReplyPart, AwaitingFor, OpenReply;
  }

  lemma MovesFaithful(w: World, d: Core)
    requires Faithful(w) && LinkMoves(w.core, d) && Completed(w.(core := d)) == Completed(w)
    ensures Faithful(w.(core := d))
  {
    var a, b := w.core.path.settled[w.base..], d.path.settled[w.base..];
    assert forall j :: |a| <= j < |b| ==> b[j] == d.path.settled[w.base + j];
    ExchangesSame(a, b);
    hide Exchanges;
    assert Paired(d.path.link.sent, w.replies, Completed(w)) == Paired(w.core.path.link.sent, w.replies, Completed(w));
  }

  lemma MovesShaped(w: World, d: Core)
    requires Shaped(w) && LinkMoves(w.core, d)
    ensures Shaped(w.(core := d))
  {
    hide WholeReply;
  }

  lemma SameFaithful(w: World, wire: seq<InTransit>)
    requires Faithful(w)
    ensures Faithful(w.(wire := wire))
  {
    hide Exchanges, Paired;
  }

  lemma SameShaped(w: World, wire: seq<InTransit>)
    requires Shaped(w)
    ensures Shaped(w.(wire := wire))
  {
    hide WholeReply, AwaitingFor;
  }

  /** A step that answers nothing, with the radio and the wire as they were, or a push less. */
  lemma MovesKeep(w: World, d: Core, wire: seq<InTransit>)
    requires WorldInv(w) && LinkMoves(w.core, d) && PathInv(d) && ReplyPart(wire) == ReplyPart(w.wire)
    ensures WorldInv(w.(core := d, wire := wire))
  {
    hide PathInv, SlotIsLastSent, LinkMoves, Shaped, InStep, Faithful, Completed, ReplyPart;
    SlotInv(d);
    MovesInStep(w, d, wire);
    MovesFaithful(w, d);
    MovesShaped(w, d);
    SameFaithful(w.(core := d), wire);
    SameShaped(w.(core := d), wire);
  }

  lemma SlotInv(c: Core)
    requires PathInv(c)
    ensures SlotIsLastSent(c)
  {
  }

  lemma HandleInStep(w: World, reply: seq<Command>, wire: seq<InTransit>)
    requires InStep(w) && SlotIsLastSent(w.core) && w.handled < |w.core.path.link.sent| && reply != []
    requires ReplyPart(wire) == ReplyPart(w.wire) + reply
    ensures InStep(w.(handled := w.handled + 1, replies := w.replies + [reply], wire := wire))
  {
    hide ReplyPart, AwaitingFor, OpenReply;
  }

  lemma HandleShaped(w: World, reply: seq<Command>, v: World)
    requires Shaped(w) && w.handled < |w.core.path.link.sent| && v.core == w.core
    requires WholeReply(AwaitingFor(w.core.path.link.sent[w.handled].payload), reply)
    requires v.handled == w.handled + 1 && v.replies == w.replies + [reply]
    ensures Shaped(v)
  {
    hide WholeReply, AwaitingFor;
  }

  lemma HandleFaithful(w: World, reply: seq<Command>, v: World)
    requires Faithful(w) && v.core == w.core && v.replies == w.replies + [reply] && v.base == w.base
    ensures Faithful(v)
  {
    hide Exchanges;
    assert Paired(w.core.path.link.sent, v.replies, Completed(w))
           == Paired(w.core.path.link.sent, w.replies, Completed(w));
  }

  lemma HandleKeeps(w: World, reply: seq<Command>, after: map<Item, Frame>)
    requires WorldInv(w) && Allowed(w, Handle(reply, after))
    ensures WorldInv(Act(w, Handle(reply, after)))
  {
    hide PathInv, Shaped, InStep, Faithful, WholeReply, FirmwareReply, Carries, Rereads, AwaitingFor, ReplyPart,
      SlotIsLastSent, Removed, Neglected, Touched, Mentioned, CachedOtherwise;
    var v := Act(w, Handle(reply, after));
    ReplyPartAppend(w.wire, AsReply(reply));
    ReplyPartOfReply(reply);
    AnswersWhole(w.core.path.link.sent[w.handled].payload, w.tables, reply, after);
    SlotInv(w.core);
    HandleInStep(w, reply, v.wire);
    HandleShaped(w, reply, v);
    HandleFaithful(w, reply, v);
    SameInStep(w.(handled := v.handled, replies := v.replies, wire := v.wire), v);
  }

  lemma SameInStep(w: World, v: World)
    requires InStep(w) && v == w.(tables := v.tables, gone := v.gone, unread := v.unread, outdated := v.outdated)
    ensures InStep(v)
  {
    hide ReplyPart, CurrentFrames;
  }

  lemma NextInReply(a: Awaiting, reply: seq<Command>, read: seq<Command>, p: Command, rest: seq<Command>)
    requires WholeReply(a, reply) && read + [p] + rest == reply
    ensures a.Belongs(p[0]) && (a.Completes(p[0]) <==> rest == [])
  {
    assert reply[|read|] == p;
    if rest != [] {
      assert reply[..|reply| - 1][|read|] == p;
    }
  }

  lemma HeadIsUnread(w: World)
    requires InStep(w) && w.wire != [] && w.wire[0].reply
    ensures var c, p := w.core, w.wire[0].frame;
            c.path.inFlight.Some? && c.path.link.sent != [] && w.handled == |c.path.link.sent|
            && |w.replies| == w.handled
            && CurrentFrames(c) + [p] + ReplyPart(w.wire[1..]) == w.replies[|c.path.link.sent| - 1]
  {
    assert ReplyPart(w.wire) == [w.wire[0].frame] + ReplyPart(w.wire[1..]);
    hide ReplyPart, CurrentFrames;
  }

  /** The next frame of a reply belongs to the command in flight, and ends it exactly when it is the last. */
  lemma NextReplyFrame(w: World)
    requires WorldInv(w) && w.wire != [] && w.wire[0].reply
    ensures var p, c := w.wire[0].frame, w.core;
            BelongsToInFlight(c, p) && c.path.link.sent != [] && w.handled == |c.path.link.sent| == |w.replies|
            && (c.path.inFlight.value.awaiting.Completes(p[0]) <==> ReplyPart(w.wire[1..]) == [])
            && CurrentFrames(c) + [p] + ReplyPart(w.wire[1..]) == w.replies[|c.path.link.sent| - 1]
  {
    hide PathInv, AwaitingFor, Faithful, InStep, ReplyPart, CurrentFrames, WholeReply, SlotIsLastSent;
    var p, c, n := w.wire[0].frame, w.core, |w.core.path.link.sent| - 1;
    SlotInv(c);
    HeadIsUnread(w);
    LastSentIs(c);
    assert WholeReply(AwaitingFor(c.path.link.sent[n].payload), w.replies[n]);
    NextInReply(AwaitingFor(c.path.link.sent[n].payload), w.replies[n], CurrentFrames(c), p, ReplyPart(w.wire[1..]));
  }

  lemma PushPlain(c: Core, p: Command, now: Clock)
    requires IsPush(p[0])
    ensures CacheResponse(c, p, now) == c
  {
    hide StoreMessage;
  }

  lemma DeliverPushMoves(c: Core, p: Command, now: Clock)
    requires !BelongsToInFlight(c, p) && IsPush(p[0])
    ensures LinkMoves(c, HandleRadioRx(c, p, now))
  {
    PushPlain(c, p, now);
    hide CacheResponse, HandlePush;
    if MatchesAck(c, p) {
      AckUnanswered(c, p);
    } else {
      PushFlows(c, p, now);
      PushUnanswered(c, p, now);
      FlowsMove(c, HandlePush(c, p, now));
    }
  }

  /** The state after one more frame was routed. */
  ghost function Routed(c: Core, p: Command): Core
    requires |c.path.link.routed| > 0
  {
    c.(path := c.path.(link := c.path.link.(routed :=
      c.path.link.routed[|c.path.link.routed| - 1 := CurrentFrames(c) + [p]])))
  }

  /** The same, with the request settled as answered. */
  ghost function AnsweredBy(c: Core, p: Command): Core
    requires |c.path.link.routed| > 0 && c.path.inFlight.Some?
  {
    var s := Settled(c.path.inFlight.value.Req(), Answered(CurrentFrames(c) + [p]));
    var d := Routed(c, p);
    d.(path := d.path.(inFlight := None, settled := c.path.settled + [s]))
  }

  lemma LastFrameMoves(c: Core, f: InFlight, p: Command, now: Clock)
    requires SlotIsLastSent(c) && c.path.inFlight == Some(f) && f.awaiting.Completes(p[0])
    ensures LinkMoves(AnsweredBy(c, p), Complete(Forward(c, f, p, now), f, p, now))
  {
    ForwardFlow(c, p, now);
    ForwardOnly(c, p, now);
    var c2 := Forward(c, f, p, now);
    assert CurrentFrames(c2) == CurrentFrames(c) + [p];
    CompleteFlows(c2, f, p, now);
    CompleteAnswersOnce(c2, f, p, now);
    hide Forward, Complete, AwaitingFor, FollowUp, Invalidate, SameCache, StillDue, CurrentFrames;
  }

  /** What the last frame of a reply does to the link. */
  lemma ReplyEnds(c: Core, p: Command, now: Clock)
    requires SlotIsLastSent(c) && BelongsToInFlight(c, p) && c.path.inFlight.value.awaiting.Completes(p[0])
    ensures LinkMoves(AnsweredBy(c, p), HandleRadioRx(c, p, now))
  {
    RouteIs(c, p, now);
    var c1 := CacheResponse(c, p, now);
    hide CacheResponse, HandleRadioRx, AwaitingFor, Forward, Complete;
    LastFrameMoves(c1, c.path.inFlight.value, p, now);
    assert AnsweredBy(c, p).path == AnsweredBy(c1, p).path;
    hide AnsweredBy;
  }

  /** What any other frame of it does. */
  lemma ReplyContinues(c: Core, p: Command, now: Clock)
    requires SlotIsLastSent(c) && BelongsToInFlight(c, p) && !c.path.inFlight.value.awaiting.Completes(p[0])
    ensures var d := HandleRadioRx(c, p, now);
            d.path == Routed(c, p).path.(inFlight := d.path.inFlight) && d.path.inFlight.Some?
            && d.path.inFlight.value == c.path.inFlight.value.(lastActivity := now.mono)
  {
    RouteIs(c, p, now);
    var c1 := CacheResponse(c, p, now);
    hide CacheResponse, HandleRadioRx, AwaitingFor, Forward;
    ForwardFlow(c1, p, now);
    ForwardOnly(c1, p, now);
    hide SameCache, SlotIsLastSent;
  }

  lemma ForwardOnly(c: Core, p: Command, now: Clock)
    requires c.path.inFlight.Some?
    ensures var d := Forward(c, c.path.inFlight.value, p, now);
            d.path == c.path.(link := d.path.link)
  {
    var c0 := AppendRouted(c, p);
    PassOnOnly(c0, c.path.inFlight.value, p, now);
    StashAckOnly(c0, p, now);
    hide StashAck, Wire;
  }

  lemma UnreadInStep(w: World, d: Core, p: Command, rest: seq<InTransit>)
    requires InStep(w) && w.core.path.inFlight.Some? && w.handled == |w.core.path.link.sent|
    requires |w.core.path.link.routed| > 0 && ReplyPart(rest) != []
    requires CurrentFrames(w.core) + [p] + ReplyPart(rest) == w.replies[|w.core.path.link.sent| - 1]
    requires d.path == Routed(w.core, p).path.(inFlight := d.path.inFlight) && d.path.inFlight.Some?
    ensures InStep(w.(core := d, wire := rest))
  {
    hide ReplyPart;
    assert CurrentFrames(d) == CurrentFrames(w.core) + [p];
  }

  lemma UnreadKeeps(w: World, d: Core)
    requires WorldInv(w) && w.wire != [] && w.wire[0].reply && PathInv(d)
    requires w.core.path.inFlight.Some? && !w.core.path.inFlight.value.awaiting.Completes(w.wire[0].frame[0])
    requires |w.core.path.link.routed| > 0
    requires d.path == Routed(w.core, w.wire[0].frame).path.(inFlight := d.path.inFlight) && d.path.inFlight.Some?
    ensures WorldInv(w.(core := d, wire := w.wire[1..]))
  {
    hide PathInv, WholeReply, AwaitingFor, Exchanges, ReplyPart, CurrentFrames, Paired;
    NextReplyFrame(w);
    UnreadInStep(w, d, w.wire[0].frame, w.wire[1..]);
    hide InStep;
  }

  lemma ReadInStep(w: World, p: Command, rest: seq<InTransit>)
    requires InStep(w) && w.core.path.inFlight.Some? && w.handled == |w.core.path.link.sent|
    requires |w.core.path.link.routed| > 0 && ReplyPart(rest) == []
    ensures InStep(w.(core := AnsweredBy(w.core, p), wire := rest))
  {
    hide ReplyPart, CurrentFrames;
  }

  lemma ReadFaithful(w: World, p: Command)
    requires Faithful(w) && w.core.path.inFlight.Some? && w.handled == |w.core.path.link.sent| == |w.replies|
    requires |w.core.path.link.routed| > 0 && w.handled > 0
    requires w.core.path.link.sent[w.handled - 1] == w.core.path.inFlight.value.Req()
    requires CurrentFrames(w.core) + [p] == w.replies[w.handled - 1]
    ensures Faithful(w.(core := AnsweredBy(w.core, p)))
  {
    hide CurrentFrames;
    var mid, n := AnsweredBy(w.core, p), w.handled - 1;
    var a, s := w.core.path.settled[w.base..], mid.path.settled[|mid.path.settled| - 1];
    assert mid.path.settled[w.base..] == a + [s] && (a + [s])[..|a|] == a;
    assert Paired(w.core.path.link.sent, w.replies, n + 1)
           == Paired(w.core.path.link.sent, w.replies, n) + [Exchange(w.core.path.link.sent[n], w.replies[n])];
  }

  lemma ReadShaped(w: World, p: Command, rest: seq<InTransit>)
    requires Shaped(w) && w.core.path.inFlight.Some? && |w.core.path.link.routed| > 0
    ensures Shaped(w.(core := AnsweredBy(w.core, p), wire := rest))
  {
    hide WholeReply, CurrentFrames, AwaitingFor;
  }

  lemma LastSentIs(c: Core)
    requires SlotIsLastSent(c) && c.path.inFlight.Some?
    ensures c.path.link.sent != [] && c.path.link.sent[|c.path.link.sent| - 1] == c.path.inFlight.value.Req()
    ensures c.path.inFlight.value.awaiting == AwaitingFor(c.path.inFlight.value.payload)
  {
    hide AwaitingFor, OpenReply;
  }

  /** The state after the last frame of a reply, before anything else happens. */
  lemma ReadKeeps(w: World)
    requires WorldInv(w) && w.wire != [] && w.wire[0].reply && |w.core.path.link.routed| > 0
    requires w.core.path.inFlight.Some? && w.core.path.inFlight.value.awaiting.Completes(w.wire[0].frame[0])
    ensures var v := w.(core := AnsweredBy(w.core, w.wire[0].frame), wire := w.wire[1..]);
            Shaped(v) && InStep(v) && Faithful(v)
  {
    hide PathInv, Shaped, InStep, Faithful, SlotIsLastSent, ReplyPart, AwaitingFor, CurrentFrames, AnsweredBy;
    var p, n := w.wire[0].frame, w.handled - 1;
    NextReplyFrame(w);
    SlotInv(w.core);
    LastSentIs(w.core);
    assert CurrentFrames(w.core) + [p] + [] == CurrentFrames(w.core) + [p];
    ReadInStep(w, p, w.wire[1..]);
    ReadFaithful(w, p);
    ReadShaped(w, p, w.wire[1..]);
    SameFaithful(w.(core := AnsweredBy(w.core, p)), w.wire[1..]);
  }

  lemma DeliverLastKeeps(w: World, now: Clock)
    requires WorldInv(w) && w.wire != [] && w.wire[0].reply
    requires w.core.path.inFlight.Some? && w.core.path.inFlight.value.awaiting.Completes(w.wire[0].frame[0])
    ensures WorldInv(w.(core := HandleRadioRx(w.core, w.wire[0].frame, now), wire := w.wire[1..]))
  {
    var p, c, wire := w.wire[0].frame, w.core, w.wire[1..];
    var d := HandleRadioRx(c, p, now);
    NextReplyFrame(w);
    SlotInv(c);
    RadioKeeps(c, p, now);
    ReplyEnds(c, p, now);
    hide HandleRadioRx, PathInv, AnsweredBy, LinkMoves, Shaped, InStep, Faithful;
    ReadKeeps(w);
    SlotInv(d);
    var v := w.(core := AnsweredBy(c, p), wire := wire);
    hide SlotIsLastSent, WorldInv;
    MovesInStep(v, d, wire);
    MovesFaithful(v, d);
    MovesShaped(v, d);
    Together(w.(core := d, wire := wire));
  }

  lemma Together(w: World)
    requires PathInv(w.core) && Shaped(w) && InStep(w) && Faithful(w)
    ensures WorldInv(w)
  {
  }

  lemma DeliverReplyKeeps(w: World, now: Clock)
    requires WorldInv(w) && w.wire != [] && w.wire[0].reply
    ensures WorldInv(w.(core := HandleRadioRx(w.core, w.wire[0].frame, now), wire := w.wire[1..]))
  {
    var p, c := w.wire[0].frame, w.core;
    NextReplyFrame(w);
    SlotInv(c);
    hide HandleRadioRx, PathInv, Shaped, InStep, Faithful, AwaitingFor;
    if c.path.inFlight.value.awaiting.Completes(p[0]) {
      DeliverLastKeeps(w, now);
    } else {
      RadioKeeps(c, p, now);
      ReplyContinues(c, p, now);
      UnreadKeeps(w, HandleRadioRx(c, p, now));
    }
  }

  /** Pushes carry the high bit, replies do not have to. */
  ghost predicate PushesMarked(w: World) {
    forall t :: t in w.wire && !t.reply ==> IsPush(t.frame[0])
  }

  lemma DeliverPushKeeps(w: World, now: Clock)
    requires WorldInv(w) && PushesMarked(w) && Allowed(w, Deliver(now)) && !w.wire[0].reply
    ensures WorldInv(w.(core := HandleRadioRx(w.core, w.wire[0].frame, now), wire := w.wire[1..]))
  {
    var p, c := w.wire[0].frame, w.core;
    assert w.wire[0] in w.wire;
    DeliverPushMoves(c, p, now);
    RadioKeeps(c, p, now);
    assert ReplyPart(w.wire) == ReplyPart(w.wire[1..]);
    hide HandleRadioRx, Step, LinkMoves, PathInv, WorldInv;
    MovesKeep(w, HandleRadioRx(c, p, now), w.wire[1..]);
  }

  lemma OwnKeeps(w: World, i: Input, now: Clock)
    requires WorldInv(w) && Allowed(w, Own(i, now))
    ensures WorldInv(Act(w, Own(i, now)))
  {
    OwnMoves(w.core, i, now);
    StepKeeps(w.core, i, now);
    hide Step, LinkMoves, PathInv, WorldInv;
    MovesKeep(w, Step(w.core, i, now), w.wire);
  }

  lemma RenewKeeps(w: World, r: Reconnection, after: map<Item, Frame>, now: Clock)
    requires PathInv(w.core)
    ensures WorldInv(Act(w, Renew(r, after, now)))
  {
    hide ReconnectRadio, PathInv', NoIdleWait, NewLink, NotAskedFor, CachedOtherwise, WorldInv;
    ReconnectNewLink(w.core, r, now);
    ReconnectKeeps(w.core, r, now);
    FreshLink(Act(w, Renew(r, after, now)));
  }

  lemma FreshLink(w: World)
    requires PathInv(w.core) && NewLink(w.core) && w.handled == 0 && w.replies == [] && w.wire == []
    requires w.base == |w.core.path.settled|
    ensures WorldInv(w)
  {
    SlotInv(w.core);
    hide PathInv;
    assert w.core.path.settled[w.base..] == [];
  }

  /** What happens on the wire, apart from replies, and in the tables does not matter to the replies. */
  lemma WireKeeps(w: World, v: World)
    requires WorldInv(w) && v == w.(tables := v.tables, wire := v.wire, gone := v.gone)
    requires ReplyPart(v.wire) == ReplyPart(w.wire)
    ensures WorldInv(v)
  {
    hide PathInv, ReplyPart, Exchanges, WholeReply, Paired, CurrentFrames;
    assert v.core == w.core;
  }

  /** What onlookers note does not matter either. */
  lemma OnlookersKeep(w: World, v: World)
    requires WorldInv(w) && v == w.(unread := v.unread, outdated := v.outdated)
    ensures WorldInv(v)
  {
    hide PathInv, ReplyPart, Exchanges, WholeReply, Paired, CurrentFrames;
  }

  lemma PushKeepsWorld(w: World, at: nat, frame: Command)
    requires WorldInv(w) && at <= |w.wire|
    ensures WorldInv(Act(w, Push(at, frame)))
  {
    hide WorldInv, ReplyPart;
    ReplyPartInsert(w.wire, at, frame);
    WireKeeps(w, Act(w, Push(at, frame)));
  }

  lemma AnnounceKeepsWorld(w: World, frame: Command, value: Frame)
    requires WorldInv(w) && |frame| >= 33
    ensures WorldInv(Act(w, Announce(frame, value)))
  {
    hide WorldInv, ReplyPart;
    ReplyPartAppend(w.wire, [InTransit(frame, false)]);
    PushIsNoReply(frame);
    WireKeeps(w, Act(w, Announce(frame, value)));
  }

  lemma ActMarked(w: World, a: Action)
    requires PushesMarked(w) && Allowed(w, a)
    ensures PushesMarked(Act(w, a))
  {
    hide Step, Answers, NotAskedFor, Removed, Neglected, Touched, Mentioned, CachedOtherwise, BelongsToInFlight;
  }

  lemma ActKeeps(w: World, a: Action)
    requires WorldInv(w) && PushesMarked(w) && Allowed(w, a)
    ensures WorldInv(Act(w, a)) && PushesMarked(Act(w, a))
  {
    ActMarked(w, a);
    assert PathInv(w.core);
    hide PathInv, HandleRadioRx, Answers, WorldInv, PushesMarked, BelongsToInFlight, Mentioned;
    match a {
      case Own(i, now) => OwnKeeps(w, i, now);
      case Deliver(now) =>
        RadioStep(w.core, w.wire[0].frame, now);
        if w.wire[0].reply {
          DeliverReplyKeeps(w, now);
        } else {
          DeliverPushKeeps(w, now);
        }
        OnlookersKeep(Act(w, a).(outdated := w.outdated), Act(w, a));
      case Handle(reply, after) => HandleKeeps(w, reply, after);
      case Push(at, frame) => PushKeepsWorld(w, at, frame);
      case Announce(frame, value) => AnnounceKeepsWorld(w, frame, value);
      case Forget(_) => WireKeeps(w, Act(w, a));
      case Renew(r, after, now) => RenewKeeps(w, r, after, now);
    }
  }

  // ---------------------------------------------------------------------
  // Runs
  // ---------------------------------------------------------------------

  /** Startup: the handshake and the first synchronisation, nothing answered yet. */
  function Begin(retention: Retention, backlog: Backlog, db: Tables, r: Reconnection, tables: map<Item, Frame>,
                 now: Clock): World {
    var c := Start(retention, backlog, db, r, now);
    World(c, tables, 0, [], [], |c.path.settled|, {},
          NotAskedFor(ReconnectRadio(Fresh(retention, backlog, db), r, now), r),
          {}, CachedOtherwise(c, tables))
  }

  /** `worlds` is a run of the whole system: every step is allowed and is what it says. */
  ghost predicate Unfolds(worlds: seq<World>, actions: seq<Action>) {
    && |worlds| == |actions| + 1
    && forall n :: 0 <= n < |actions| ==> Allowed(worlds[n], actions[n]) && worlds[n + 1] == Act(worlds[n], actions[n])
  }

  /** A startup, on any database whose contacts have a key each. */
  ghost predicate Opening(w: World) {
    exists retention, backlog, db: Tables, r: Reconnection, tables: map<Item, Frame>, now ::
      Truthful(r, tables) && UniqueKeys(db.contacts) && w == Begin(retention, backlog, db, r, tables, now)
  }

  /** A run from a startup to `w`. */
  ghost predicate LeadsTo(worlds: seq<World>, actions: seq<Action>, w: World) {
    worlds != [] && Opening(worlds[0]) && Unfolds(worlds, actions) && worlds[|worlds| - 1] == w
  }

  ghost predicate Possible(w: World) {
    exists worlds: seq<World>, actions: seq<Action> :: LeadsTo(worlds, actions, w)
  }

  lemma BeginInv(retention: Retention, backlog: Backlog, db: Tables, r: Reconnection, tables: map<Item, Frame>,
                 now: Clock)
    ensures var w := Begin(retention, backlog, db, r, tables, now);
            WorldInv(w) && PushesMarked(w)
  {
    var w, f := Begin(retention, backlog, db, r, tables, now), Fresh(retention, backlog, db);
    StartPath(retention, backlog, db, r, now);
    ReconnectNewLink(f, r, now);
    hide ReconnectRadio, PathInv, NotAskedFor, RestoreBlobs, WorldInv;
    RestoreOnlyMemory(ReconnectRadio(f, r, now));
    FreshLink(w);
  }

  /** A run is a shorter run and one more step. */
  lemma UnfoldPrefix(worlds: seq<World>, actions: seq<Action>)
    requires Unfolds(worlds, actions) && actions != []
    ensures |worlds| == |actions| + 1
    ensures var n := |actions| - 1;
            Unfolds(worlds[..n + 1], actions[..n]) && worlds[..n + 1][0] == worlds[0] && worlds[..n + 1][n] == worlds[n]
            && Allowed(worlds[n], actions[n]) && worlds[n + 1] == Act(worlds[n], actions[n])
  {
    hide Act, Allowed;
  }

  lemma {:induction false} UnfoldKeeps(worlds: seq<World>, actions: seq<Action>)
    requires Unfolds(worlds, actions) && WorldInv(worlds[0]) && PushesMarked(worlds[0])
    ensures WorldInv(worlds[|worlds| - 1]) && PushesMarked(worlds[|worlds| - 1])
  {
    hide WorldInv, PushesMarked, Act, Allowed;
    if actions != [] {
      var n := |actions| - 1;
      UnfoldPrefix(worlds, actions);
      hide Unfolds;
      UnfoldKeeps(worlds[..n + 1], actions[..n]);
      ActKeeps(worlds[n], actions[n]);
    }
  }

  lemma OpeningInv(w: World)
    requires Opening(w)
    ensures WorldInv(w) && PushesMarked(w)
  {
    hide WorldInv, PushesMarked, Begin, UniqueKeys, Truthful;
    var retention, backlog, db: Tables, r: Reconnection, tables: map<Item, Frame>, now :|
      Truthful(r, tables) && UniqueKeys(db.contacts) && w == Begin(retention, backlog, db, r, tables, now);
    BeginInv(retention, backlog, db, r, tables, now);
  }

  lemma PossibleInv(w: World)
    requires Possible(w)
    ensures WorldInv(w) && PushesMarked(w)
  {
    hide WorldInv, PushesMarked, Unfolds, Opening;
    var worlds: seq<World>, actions: seq<Action> :| LeadsTo(worlds, actions, w);
    OpeningInv(worlds[0]);
    UnfoldKeeps(worlds, actions);
  }

  /** With a radio that answers in order, pushes in between wherever they like, and no
      timeouts: the requests answered on a link are exactly the commands sent on it, in order, each with the
      whole reply the radio gave to that command; what a connected client was handed is made of those replies,
      whole and in order; and at most one command is outstanding, the one in flight. */
  lemma ReplyIsTheRadios(w: World, client: ClientId)
    requires Possible(w) && client in w.core.live
    ensures |w.core.path.link.sent| - w.handled <= 1
    ensures w.base <= |w.core.path.settled| && 0 <= Completed(w) <= |w.replies|
            && Completed(w) <= |w.core.path.link.sent|
            && Exchanges(w.core.path.settled[w.base..]) == Paired(w.core.path.link.sent, w.replies, Completed(w))
    ensures AnswersTo(w.core.out, client) == Owed(w.core.path.settled, client) + Running(w.core, client)
    ensures w.core.path.inFlight.Some? && w.handled == |w.core.path.link.sent| == |w.replies| && w.handled > 0 ==>
              CurrentFrames(w.core) + ReplyPart(w.wire) == w.replies[w.handled - 1]
  {
    PossibleInv(w);
    ClientTold(w.core, client);
    hide Possible, PathInv, Exchanges, ReplyPart, CurrentFrames;
  }

  lemma ClientTold(c: Core, client: ClientId)
    requires PathInv(c) && client in c.live
    ensures AnswersTo(c.out, client) == Owed(c.path.settled, client) + Running(c, client)
  {
    assert ToldTo(c, client);
  }
}
