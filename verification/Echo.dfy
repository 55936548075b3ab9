/** Echoes: a send is shown to the other clients and stored exactly when the radio has accepted it. */
module Echo {
  import opened Bytes
  import opened Protocol
  import opened Store
  import opened CoreState
  import opened RadioPath
  import opened Requests
  import opened Origins
  import opened Frames
  import opened Outcomes
  import opened Replay
  import opened NoLoss

  // ---------------------------------------------------------------------
  // What is compared
  // ---------------------------------------------------------------------

  datatype EchoShown = EchoShown(request: Request, frame: Frame)

  function EchoIn(e: Event): seq<EchoShown> {
    if e.ToOthers? && e.why.Echoed? then [EchoShown(e.why.request, e.frame)] else []
  }

  /** The echoes among some events, in order. */
  function Echoes(out: seq<Event>): seq<EchoShown> {
    if out == [] then [] else Echoes(out[..|out| - 1]) + EchoIn(out[|out| - 1])
  }

  /** A client's send the radio took: its terminal reply was not ERROR. */
  predicate Accepted(s: Settled) {
    && s.request.client.Some? && IsWellFormedSend(s.request.payload)
    && s.outcome.Answered? && s.outcome.frames != [] && !IsError(s.outcome.frames[|s.outcome.frames| - 1])
  }

  function AcceptedSends(settled: seq<Settled>): seq<Request> {
    if settled == [] then []
    else
      var last := settled[|settled| - 1];
      AcceptedSends(settled[..|settled| - 1]) + if Accepted(last) then [last.request] else []
  }

  function Senders(echoes: seq<EchoShown>): (requests: seq<Request>)
    ensures |requests| == |echoes|
  {
    seq(|echoes|, i requires 0 <= i < |echoes| => echoes[i].request)
  }

  /** The row a step stores, unless it came off the air. */
  ghost function SentRow(pre: Core, i: Input, post: Core): seq<Message> {
    if StoredNow(pre, post).None? || (i.Radio? && i.frame != [] && Storable(i.frame)) then []
    else [StoredNow(pre, post).value]
  }

  /** Over a run: the rows stored for clients' sends. */
  ghost function SentRows(c: Core, steps: seq<Timed>): seq<Message> {
    if steps == [] then []
    else
      var n := |steps| - 1;
      SentRows(c, steps[..n]) + SentRow(Run(c, steps[..n]), steps[n].input, Run(c, steps))
  }

  /** Row by row: the frame that was echoed, under the identity that sent it. */
  ghost predicate Matching(rows: seq<Message>, echoes: seq<EchoShown>, askers: seq<Option<Identity>>) {
    |rows| == |echoes| == |askers|
    && forall j :: 0 <= j < |rows| ==> rows[j].frame == Some(echoes[j].frame) && rows[j].origin == askers[j]
  }

  // ---------------------------------------------------------------------
  // Nothing echoed
  // ---------------------------------------------------------------------

  predicate Unechoed(a: seq<Event>, b: seq<Event>) {
    a <= b && forall j :: |a| <= j < |b| ==> EchoIn(b[j]) == []
  }

  lemma {:induction false} UnechoedSame(a: seq<Event>, b: seq<Event>)
    requires Unechoed(a, b)
    ensures Echoes(b) == Echoes(a)
    decreases |b|
  {
    if |b| > |a| {
      UnechoedSame(a, b[..|b| - 1]);
    } else {
      assert a == b;
    }
  }

  lemma {:induction false} UnansweredSame(a: seq<Settled>, b: seq<Settled>)
    requires a <= b && forall j :: |a| <= j < |b| ==> !b[j].outcome.Answered?
    ensures AcceptedSends(b) == AcceptedSends(a)
    decreases |b|
  {
    if |b| > |a| {
      UnansweredSame(a, b[..|b| - 1]);
    } else {
      assert a == b;
    }
  }

  /** A command may replay a message; it echoes nothing. */
  lemma CommandUnechoed(c: Core, cmd: ClientCommand, now: Clock)
    ensures Unechoed(c.out, HandleClientCommand(c, cmd, now).out)
  {
    hide HandleClientCommand, ReplayNextMissed, ServedId;
    if cmd.payload != [] && cmd.payload[0] == 0x0A && LiveSession(c, cmd.client) {
      ReplayEvent(c, cmd.client, now);
      ReplayThenForward(c, cmd, now);
      ReplayedThenQuiet(c, cmd, now);
    } else {
      OtherCommandUnechoed(c, cmd, now);
    }
  }

  lemma ReplayedThenQuiet(c: Core, cmd: ClientCommand, now: Clock)
    requires cmd.payload != [] && cmd.payload[0] == 0x0A && LiveSession(c, cmd.client)
    ensures ServedId(c, cmd.client) != [] ==> HandleClientCommand(c, cmd, now) == ReplayNextMissed(c, cmd.client, now).0
  {
    ReplayEvent(c, cmd.client, now);
    hide ReplayNextMissed, ServeOrForward, ServedId;
  }

  lemma OtherCommandUnechoed(c: Core, cmd: ClientCommand, now: Clock)
    requires cmd.payload != [] && cmd.payload[0] == 0x0A && cmd.client in c.live ==> cmd.client !in c.sessions
    ensures Unechoed(c.out, HandleClientCommand(c, cmd, now).out)
  {
    if cmd.payload != [] && cmd.client in c.live {
      hide ServeOrForward, MissedBy, AppName;
      ServeOrForwardQuiet(NoteCommand(c, cmd, now), cmd, now);
    }
  }

  // ---------------------------------------------------------------------
  // Completing a request
  // ---------------------------------------------------------------------

  /** The frame is the terminal reply, not an ERROR, to a client's well-formed send. */
  predicate TakesSend(c: Core, p: Command) {
    && BelongsToInFlight(c, p) && c.path.inFlight.value.awaiting.Completes(p[0]) && !IsError(p)
    && c.path.inFlight.value.client.Some? && IsWellFormedSend(c.path.inFlight.value.payload)
  }

  /** The reply to a send is neither cached nor a message. */
  lemma SendReplyPlain(c: Core, p: Command, now: Clock)
    requires SlotIsLastSent(c) && TakesSend(c, p)
    ensures !Storable(p) && CacheResponse(c, p, now) == c
  {
    hide StoreMessage;
  }

  lemma NoEcho(c: Core, done: InFlight, now: Clock)
    requires !(done.client.Some? && IsWellFormedSend(done.payload) && c.mem.pubkey.Some?)
    ensures QuietMail(c, OnCommandAccepted(c, done, now))
  {
    hide ApplyAccepted, IsWellFormedSend, Wire;
    var c1 := if done.payload[0] == 0x01 && done.client.Some? then NotifyMissed(c, done.client.value) else c;
    if done.client.Some? {
      NotifyQuiet(c, done.client.value);
    }
    ApplyAcceptedQuiet(c1, done);
    AppliedMemory(c1, done);
    assert SynthesizeEcho(ApplyAccepted(c1, done), done, now) == ApplyAccepted(c1, done);
  }

  /** One more answered request, then only failures. */
  lemma CompleteAnswers(c: Core, f: InFlight, p: Command, now: Clock)
    ensures var d := Complete(c, f, p, now);
            AcceptedSends(d.path.settled)
            == AcceptedSends(c.path.settled)
            + (if Accepted(Settled(f.Req(), Answered(CurrentFrames(c)))) then [f.Req()] else [])
            && (c.mem.pubkey.Some? ==> d.mem.pubkey.Some?)
  {
    CompleteAnswersOnce(c, f, p, now);
    hide Complete, Accepted;
    var s := Settled(f.Req(), Answered(CurrentFrames(c)));
    assert (c.path.settled + [s])[..|c.path.settled|] == c.path.settled;
    UnansweredSame(c.path.settled + [s], Complete(c, f, p, now).path.settled);
  }

  lemma CompleteQuiet(c: Core, f: InFlight, p: Command, now: Clock)
    requires IsError(p) || !(f.client.Some? && IsWellFormedSend(f.payload) && c.mem.pubkey.Some?)
    ensures QuietMail(c, Complete(c, f, p, now))
  {
    hide AdvanceQueue, OnCommandAccepted, IsWellFormedSend;
    var c1 := Settle(WithSlot(c, None), f.Req(), Answered(CurrentFrames(c)));
    if !IsError(p) {
      NoEcho(c1, f, now);
    }
    AdvanceQuiet(if IsError(p) then c1 else OnCommandAccepted(c1, f, now), now);
  }

  /** The frame just routed is the last of the current reply. */
  lemma LastRouted(c: Core, p: Command, now: Clock)
    requires SlotIsLastSent(c) && c.path.inFlight.Some?
    ensures var d := Forward(c, c.path.inFlight.value, p, now);
            CurrentFrames(d) == CurrentFrames(c) + [p] && d.path.settled == c.path.settled && d.mem == c.mem
            && d.db == c.db && d.live == c.live && d.versions == c.versions && d.path.inFlight == c.path.inFlight
            && d.sessions == c.sessions
  {
    var c0 := AppendRouted(c, p);
    PassOnOnly(c0, c.path.inFlight.value, p, now);
    StashAckOnly(c0, p, now);
    hide StashAck, AwaitingFor, Wire;
  }

  // ---------------------------------------------------------------------
  // A frame from the radio
  // ---------------------------------------------------------------------

  /** The event that shows an accepted send to the others. */
  function EchoEvent(c: Core, f: InFlight, echo: Frame): Event
    requires f.client.Some?
  {
    ToOthers(echo, map id | id in c.live && id != f.client.value :: MessageFrameFor(Version(c, id), echo),
             Echoed(f.Req()))
  }

  lemma SpreadEvent(c: Core, f: InFlight, echo: Frame)
    requires f.client.Some?
    ensures BroadcastToOthers(c, f.client, echo, Echoed(f.Req())).out == c.out + [EchoEvent(c, f, echo)]
  {
    hide MessageFrameFor;
    var wires := map id | id in Recipients(c, f.client) :: Wire(c, id, echo);
    assert wires == EchoEvent(c, f, echo).wires;
  }

  lemma AcceptedEchoes(c: Core, done: InFlight, now: Clock)
    requires done.client.Some? && IsWellFormedSend(done.payload) && c.mem.pubkey.Some?
    ensures var d, echo := OnCommandAccepted(c, done, now), EchoFrame(c, done.payload);
            d.out == c.out + [EchoEvent(c, done, echo)]
            && d.db.lastId == c.db.lastId + 1
            && d.db.messages == c.db.messages
                 + [Message(c.db.lastId + 1, U32(done.payload, 3), Some(now.unix), Some(echo), done.origin)]
  {
    hide StoreMessage, EchoFrame;
    assert done.payload[0] in {0x02, 0x03} && ApplyAccepted(c, done) == c;
    var echo := EchoFrame(c, done.payload);
    SpreadEvent(c, done, echo);
    StoreResult(BroadcastToOthers(c, done.client, echo, Echoed(done.Req())), U32(done.payload, 3), echo, done.origin,
                now);
  }

  lemma CompleteEchoes(c: Core, f: InFlight, p: Command, now: Clock)
    requires f.client.Some? && IsWellFormedSend(f.payload) && c.mem.pubkey.Some? && !IsError(p)
    ensures var d, echo := Complete(c, f, p, now), EchoFrame(c, f.payload);
            Plainly(c.out + [EchoEvent(c, f, echo)], d.out)
            && d.db.lastId == c.db.lastId + 1
            && d.db.messages == c.db.messages
                 + [Message(c.db.lastId + 1, U32(f.payload, 3), Some(now.unix), Some(echo), f.origin)]
  {
    hide AdvanceQueue, OnCommandAccepted, IsWellFormedSend;
    var c1 := Settle(WithSlot(c, None), f.Req(), Answered(CurrentFrames(c)));
    AcceptedEchoes(c1, f, now);
    assert EchoFrame(c1, f.payload) == EchoFrame(c, f.payload);
    assert EchoEvent(c1, f, EchoFrame(c, f.payload)) == EchoEvent(c, f, EchoFrame(c, f.payload));
    hide EchoFrame, EchoEvent;
    AdvanceQuiet(OnCommandAccepted(c1, f, now), now);
  }

  lemma PlainlyUnechoed(a: seq<Event>, b: seq<Event>)
    requires Plainly(a, b)
    ensures Unechoed(a, b)
  {
  }

  lemma OneEcho(a: seq<Event>, e: Event)
    ensures Echoes(a + [e]) == Echoes(a) + EchoIn(e)
  {
    assert (a + [e])[..|a|] == a;
  }

  /** The terminal reply to a client's well-formed send, if not ERROR, shows the
      send once to every other live client, each in its own layout, never to the sender; stores it once, as the
      identity it had when it was dispatched; and echoes nothing else. */
  lemma AcceptedSendIsEchoed(c: Core, p: Command, now: Clock)
    requires SlotIsLastSent(c) && TakesSend(c, p) && c.mem.pubkey.Some?
    ensures var d, f := HandleRadioRx(c, p, now), c.path.inFlight.value;
            var echo := EchoFrame(c, f.payload);
            && (exists j :: |c.out| <= j < |d.out| && d.out[j] == EchoEvent(c, f, echo))
            && Echoes(d.out) == Echoes(c.out) + [EchoShown(f.Req(), echo)]
            && d.db.lastId == c.db.lastId + 1
            && d.db.messages == c.db.messages
                 + [Message(c.db.lastId + 1, U32(f.payload, 3), Some(now.unix), Some(echo), f.origin)]
  {
    var f := c.path.inFlight.value;
    var c1, d := Forward(c, f, p, now), HandleRadioRx(c, p, now);
    SendRouted(c, p, now);
    LastRouted(c, p, now);
    ForwardQuiet(c, f, p, now);
    SameEcho(c, c1, f);
    hide HandleRadioRx, Forward, Complete, EchoFrame, EchoEvent, SlotIsLastSent, IsWellFormedSend, BelongsToInFlight;
    CompleteEchoes(c1, f, p, now);
    EchoAmong(c.out, c1.out, EchoEvent(c, f, EchoFrame(c, f.payload)), d.out);
  }

  lemma SameEcho(c: Core, d: Core, f: InFlight)
    requires d.live == c.live && d.versions == c.versions && d.mem == c.mem
    requires f.client.Some? && IsWellFormedSend(f.payload) && c.mem.pubkey.Some?
    ensures EchoFrame(d, f.payload) == EchoFrame(c, f.payload)
    ensures EchoEvent(d, f, EchoFrame(c, f.payload)) == EchoEvent(c, f, EchoFrame(c, f.payload))
  {
  }

  lemma SendRouted(c: Core, p: Command, now: Clock)
    requires SlotIsLastSent(c) && TakesSend(c, p)
    ensures var f := c.path.inFlight.value;
            HandleRadioRx(c, p, now) == Complete(Forward(c, f, p, now), f, p, now)
  {
    SendReplyPlain(c, p, now);
    hide CacheResponse, Forward, Complete, SlotIsLastSent, IsWellFormedSend;
  }

  lemma EchoAmong(a: seq<Event>, b: seq<Event>, e: Event, d: seq<Event>)
    requires Plainly(a, b) && Plainly(b + [e], d)
    ensures exists j :: |a| <= j < |d| && d[j] == e
    ensures Echoes(d) == Echoes(a) + EchoIn(e)
  {
    assert (b + [e])[|b|] == e;
    assert d[|b|] == e;
    hide Plain;
    PlainlyUnechoed(a, b);
    PlainlyUnechoed(b + [e], d);
    UnechoedSame(a, b);
    UnechoedSame(b + [e], d);
    OneEcho(b, e);
  }

  /** Any other frame echoes nothing, and if it stores a message then itself, off the air. */
  lemma OtherFrameEchoesNothing(c: Core, p: Command, now: Clock)
    requires SlotIsLastSent(c) && !(TakesSend(c, p) && c.mem.pubkey.Some?)
    ensures var d := HandleRadioRx(c, p, now);
            Plainly(c.out, d.out) && (!Storable(p) ==> SameMail(c, d))
  {
    if Storable(p) {
      MessageStored(c, p, now);
      StoreResult(c, MessageTimestamp(p), p, None, now);
      hide HandleRadioRx, StoreMessage, SlotIsLastSent;
    } else {
      CacheResponseQuiet(c, p, now);
      CacheUnanswered(c, p, now);
      hide CacheResponse, RouteToInFlight, RouteAck, HandlePush, IsWellFormedSend;
      var c1 := CacheResponse(c, p, now);
      if BelongsToInFlight(c1, p) {
        RouteQuiet(c, c1, p, now);
      } else if MatchesAck(c1, p) {
        AckQuiet(c1, p);
      } else if IsPush(p[0]) {
        PushQuiet(c1, p, now);
      }
    }
  }

  lemma RouteQuiet(c: Core, c1: Core, p: Command, now: Clock)
    requires !(TakesSend(c, p) && c.mem.pubkey.Some?) && c1.path == c.path && SlotIsLastSent(c)
    requires p[0] != 0x05 ==> c1.mem.pubkey == c.mem.pubkey
    requires BelongsToInFlight(c1, p)
    ensures QuietMail(c1, RouteToInFlight(c1, p, now))
  {
    hide IsWellFormedSend, Complete, Forward, SlotIsLastSent;
    var f := c1.path.inFlight.value;
    ForwardQuiet(c1, f, p, now);
    if f.awaiting.Completes(p[0]) {
      if !IsError(p) {
        NotTaken(c, c1, p);
      }
      ForwardMemory(c1, f, p, now);
      CompleteQuiet(Forward(c1, f, p, now), f, p, now);
    }
  }

  lemma NotTaken(c: Core, c1: Core, p: Command)
    requires SlotIsLastSent(c) && !(TakesSend(c, p) && c.mem.pubkey.Some?) && c1.path == c.path
    requires p[0] != 0x05 ==> c1.mem.pubkey == c.mem.pubkey
    requires BelongsToInFlight(c1, p) && c1.path.inFlight.value.awaiting.Completes(p[0]) && !IsError(p)
    ensures var f := c1.path.inFlight.value;
            !(f.client.Some? && IsWellFormedSend(f.payload) && c1.mem.pubkey.Some?)
  {
  }

  /** What a frame answers. */
  lemma FrameAnswers(c: Core, p: Command, now: Clock)
    requires SlotIsLastSent(c)
    ensures var d := HandleRadioRx(c, p, now);
            AcceptedSends(d.path.settled)
            == AcceptedSends(c.path.settled) + (if TakesSend(c, p) then [c.path.inFlight.value.Req()] else [])
            && (c.mem.pubkey.Some? ==> d.mem.pubkey.Some?)
  {
    CacheUnanswered(c, p, now);
    var c1, d := CacheResponse(c, p, now), HandleRadioRx(c, p, now);
    hide CacheResponse, RouteAck, HandlePush, IsWellFormedSend, Complete, Forward, AwaitingFor;
    if BelongsToInFlight(c1, p) {
      var f := c1.path.inFlight.value;
      LastRouted(c1, p, now);
      if f.awaiting.Completes(p[0]) {
        CompleteAnswers(Forward(c1, f, p, now), f, p, now);
      }
    } else if MatchesAck(c1, p) {
      AckUnanswered(c1, p);
    } else if IsPush(p[0]) {
      PushUnanswered(c1, p, now);
      UnansweredSame(c1.path.settled, d.path.settled);
    }
  }

  // ---------------------------------------------------------------------
  // The other steps
  // ---------------------------------------------------------------------

  /** Only frames from the radio accept sends. */
  lemma OtherStepsAcceptNothing(c: Core, i: Input, now: Clock)
    requires !i.Radio?
    ensures var d := Step(c, i, now);
            Unanswered(c, d) && Unechoed(c.out, d.out) && d.db.lastId == c.db.lastId
  {
    OtherStepsAnswerNothing(c, i, now);
    hide HandleClientCommand, CheckInFlightTimeout, RequestFullSync, ReconnectRadio, KeptMessages, KeptContacts,
      KeptClients, Unanswered;
    match i {
      case Connect =>
      case Disconnect(_) =>
      case Command(cmd) =>
        CommandUnechoed(c, cmd, now);
        CommandKeepsMessages(c, cmd, now);
      case TimeoutTick => TimeoutQuiet(c, now);
      case MaintenanceTick => RequestFullSyncQuiet(c, now);
      case LinkCloses =>
      case Reconnect(how) => ReconnectQuiet(c, how, now);
    }
  }

  // ---------------------------------------------------------------------
  // Runs
  // ---------------------------------------------------------------------

  /** The accepted sends among the requests settled between two states. */
  function NewlyAccepted(pre: Core, post: Core): seq<Request> {
    var before, after := AcceptedSends(pre.path.settled), AcceptedSends(post.path.settled);
    if |before| <= |after| then after[|before|..] else []
  }

  /** The sends accepted while the radio's key was known. */
  function Heeded(c: Core, steps: seq<Timed>): seq<Request> {
    if steps == [] then []
    else
      var n := |steps| - 1;
      var d := Run(c, steps[..n]);
      Heeded(c, steps[..n]) + if d.mem.pubkey.Some? then NewlyAccepted(d, Run(c, steps)) else []
  }

  /** The identities under which those were sent. */
  function HeededAs(c: Core, steps: seq<Timed>): seq<Option<Identity>> {
    if steps == [] then []
    else
      var n := |steps| - 1;
      HeededAs(c, steps[..n]) + AskersNow(Run(c, steps[..n]), Run(c, steps), Asker(c, steps[..n]))
  }

  ghost predicate EchoInv(c: Core, heeded: seq<Request>, rows: seq<Message>, askers: seq<Option<Identity>>) {
    Senders(Echoes(c.out)) == heeded && Matching(rows, Echoes(c.out), askers)
  }

  /** What a step adds to the heeded. */
  function HeededNow(pre: Core, post: Core): seq<Request> {
    if pre.mem.pubkey.Some? then NewlyAccepted(pre, post) else []
  }

  function AskersNow(pre: Core, post: Core, asker: Option<Identity>): seq<Option<Identity>> {
    seq(|HeededNow(pre, post)|, _ => asker)
  }

  lemma NothingNew(c: Core, heeded: seq<Request>, rows: seq<Message>, askers: seq<Option<Identity>>,
                   asker: Option<Identity>, i: Input, d: Core)
    requires EchoInv(c, heeded, rows, askers)
             && (c.mem.pubkey.Some? ==> AcceptedSends(d.path.settled) == AcceptedSends(c.path.settled))
    requires Echoes(d.out) == Echoes(c.out) && SentRow(c, i, d) == []
    ensures EchoInv(d, heeded + HeededNow(c, d), rows + SentRow(c, i, d), askers + AskersNow(c, d, asker))
  {
    hide Echoes, AcceptedSends, SentRow;
    assert rows + [] == rows && heeded + [] == heeded && askers + [] == askers;
    assert AskersNow(c, d, asker) == [];
  }

  lemma OneMoreEcho(c: Core, heeded: seq<Request>, rows: seq<Message>, askers: seq<Option<Identity>>,
                    asker: Option<Identity>, d: Core, q: Request, echo: Frame, row: Message)
    requires EchoInv(c, heeded, rows, askers) && c.mem.pubkey.Some?
             && AcceptedSends(d.path.settled) == AcceptedSends(c.path.settled) + [q]
    requires Echoes(d.out) == Echoes(c.out) + [EchoShown(q, echo)] && row.frame == Some(echo) && row.origin == asker
    ensures EchoInv(d, heeded + HeededNow(c, d), rows + [row], askers + AskersNow(c, d, asker))
  {
    hide Echoes, AcceptedSends;
    assert Senders(Echoes(d.out)) == Senders(Echoes(c.out)) + [q];
    assert AskersNow(c, d, asker) == [asker];
  }

  lemma TakenKeepsEchoes(c: Core, p: Command, now: Clock, heeded: seq<Request>, rows: seq<Message>,
                         askers: seq<Option<Identity>>, asker: Option<Identity>)
    requires Named(c, asker)
    requires EchoInv(c, heeded, rows, askers) && SlotIsLastSent(c) && TakesSend(c, p) && c.mem.pubkey.Some?
    requires AcceptedSends(HandleRadioRx(c, p, now).path.settled)
             == AcceptedSends(c.path.settled) + [c.path.inFlight.value.Req()]
    ensures var d := HandleRadioRx(c, p, now);
            EchoInv(d, heeded + HeededNow(c, d), rows + SentRow(c, Radio(p), d), askers + AskersNow(c, d, asker))
  {
    hide HandleRadioRx, EchoInv, SlotIsLastSent, CacheResponse, EchoFrame, Echoes, AcceptedSends, EchoEvent, Storable,
      U32, HeededNow;
    var f, d := c.path.inFlight.value, HandleRadioRx(c, p, now);
    SendReplyPlain(c, p, now);
    AcceptedSendIsEchoed(c, p, now);
    var row := Message(c.db.lastId + 1, U32(f.payload, 3), Some(now.unix), Some(EchoFrame(c, f.payload)), f.origin);
    assert SentRow(c, Radio(p), d) == [row];
    OneMoreEcho(c, heeded, rows, askers, asker, d, f.Req(), EchoFrame(c, f.payload), row);
  }

  lemma FrameKeepsEchoes(c: Core, p: Frame, now: Clock, heeded: seq<Request>, rows: seq<Message>,
                         askers: seq<Option<Identity>>, asker: Option<Identity>)
    requires Named(c, asker)
    requires EchoInv(c, heeded, rows, askers) && SlotIsLastSent(c)
    ensures var d := HandleRadioRx(c, p, now);
            EchoInv(d, heeded + HeededNow(c, d), rows + SentRow(c, Radio(p), d), askers + AskersNow(c, d, asker))
  {
    var d := HandleRadioRx(c, p, now);
    hide EchoInv, SlotIsLastSent, HeededNow;
    if p == [] {
      NothingArrives(c, now);
      NothingNew(c, heeded, rows, askers, asker, Radio(p), d);
    } else {
      FrameAnswers(c, p, now);
      hide HandleRadioRx, TakesSend;
      if TakesSend(c, p) && c.mem.pubkey.Some? {
        TakenKeepsEchoes(c, p, now, heeded, rows, askers, asker);
      } else {
        OtherFrameEchoesNothing(c, p, now);
        PlainlyUnechoed(c.out, d.out);
        UnechoedSame(c.out, d.out);
        NothingNew(c, heeded, rows, askers, asker, Radio(p), d);
      }
    }
  }

  /** A message off the air is stored as it came, and as nobody's. */
  lemma OffTheAirIsNobodys(c: Core, p: Command, now: Clock)
    requires Reachable(c) && Storable(p)
    ensures var d := HandleRadioRx(c, p, now);
            d.db.messages
                == c.db.messages + [Message(c.db.lastId + 1, MessageTimestamp(p), Some(now.unix), Some(p), None)]
            && Echoes(d.out) == Echoes(c.out)
  {
    ReachablePath(c);
    hide Reachable, Conserved, Fifo, Told, HandleRadioRx, SlotIsLastSent, StoreMessage, MessageTimestamp;
    MessageStored(c, p, now);
    StoreResult(c, MessageTimestamp(p), p, None, now);
    PlainlyUnechoed(c.out, HandleRadioRx(c, p, now).out);
    UnechoedSame(c.out, HandleRadioRx(c, p, now).out);
  }

  lemma StepKeepsEchoes(c: Core, i: Input, now: Clock, heeded: seq<Request>, rows: seq<Message>,
                        askers: seq<Option<Identity>>, asker: Option<Identity>)
    requires Named(c, asker)
    requires EchoInv(c, heeded, rows, askers) && PathInv(c)
    ensures EchoInv(Step(c, i, now), heeded + HeededNow(c, Step(c, i, now)), rows + SentRow(c, i, Step(c, i, now)),
                    askers + AskersNow(c, Step(c, i, now), asker))
  {
    hide EchoInv, Conserved, Fifo, Told, SlotIsLastSent, HeededNow;
    if i.Radio? {
      RadioStep(c, i.frame, now);
      hide Step;
      FrameKeepsEchoes(c, i.frame, now, heeded, rows, askers, asker);
    } else {
      OtherStepsAcceptNothing(c, i, now);
      hide Step;
      UnechoedSame(c.out, Step(c, i, now).out);
      UnansweredSame(c.path.settled, Step(c, i, now).path.settled);
      NothingNew(c, heeded, rows, askers, asker, i, Step(c, i, now));
    }
  }

  lemma {:induction false} RunKeepsEchoes(c: Core, steps: seq<Timed>)
    requires EchoInv(c, [], [], []) && PathInv(c) && Named(c, None)
    ensures EchoInv(Run(c, steps), Heeded(c, steps), SentRows(c, steps), HeededAs(c, steps)) && PathInv(Run(c, steps))
  {
    hide EchoInv, PathInv, Step, SentRow, NewlyAccepted, Named, Asker;
    if steps != [] {
      var n := |steps| - 1;
      RunKeepsEchoes(c, steps[..n]);
      RunNames(c, steps[..n]);
      StepKeepsEchoes(Run(c, steps[..n]), steps[n].input, steps[n].now, Heeded(c, steps[..n]), SentRows(c, steps[..n]),
                      HeededAs(c, steps[..n]), Asker(c, steps[..n]));
      StepKeeps(Run(c, steps[..n]), steps[n].input, steps[n].now);
    }
  }

  lemma StartSilent(retention: Retention, backlog: Backlog, db: Tables, r: Reconnection, now: Clock)
    ensures var c := Start(retention, backlog, db, r, now);
            Echoes(c.out) == [] && AcceptedSends(c.path.settled) == []
  {
    var f := Fresh(retention, backlog, db);
    ReconnectUnanswered(f, r, now);
    ReconnectQuiet(f, r, now);
    hide ReconnectRadio, RestoreBlobs, Plain;
    var c := ReconnectRadio(f, r, now);
    RestoreOnlyMemory(c);
    PlainlyUnechoed(f.out, c.out);
    UnechoedSame(f.out, c.out);
    UnansweredSame(f.path.settled, c.path.settled);
  }

  /** Over every run: the echoes are, one for one and in order, the clients' well-formed sends that the radio accepted
      with a reply other than ERROR while its key was known, and so are the rows stored other than off the air, each
      holding the frame that was echoed, under the identity its client had when the send went out. Timed-out, rejected
      and link-failed sends leave no trace. */
  lemma EchoExactlyWhenAccepted(retention: Retention, backlog: Backlog, db: Tables, r: Reconnection, now: Clock,
                                steps: seq<Timed>)
    ensures var c0 := Start(retention, backlog, db, r, now);
            var c, rows := Run(c0, steps), SentRows(c0, steps);
            && Senders(Echoes(c.out)) == Heeded(c0, steps)
            && |rows| == |Echoes(c.out)|
            && |HeededAs(c0, steps)| == |rows|
            && forall j :: 0 <= j < |rows| ==>
                 rows[j].frame == Some(Echoes(c.out)[j].frame) && rows[j].origin == HeededAs(c0, steps)[j]
  {
    var c0 := Start(retention, backlog, db, r, now);
    StartSilent(retention, backlog, db, r, now);
    StartPath(retention, backlog, db, r, now);
    StartNames(retention, backlog, db, r, now);
    hide Start, PathInv, Run, Heeded, SentRows, HeededAs, Named;
    RunKeepsEchoes(c0, steps);
  }

  lemma {:induction false} EveryOneHeeded(c: Core, steps: seq<Timed>)
    requires PathInv(c) && c.mem.pubkey.Some? && AcceptedSends(c.path.settled) == []
    ensures Heeded(c, steps) == AcceptedSends(Run(c, steps).path.settled) && Run(c, steps).mem.pubkey.Some?
    ensures PathInv(Run(c, steps))
  {
    hide PathInv, Step, AcceptedSends;
    if steps != [] {
      var n := |steps| - 1;
      var d := Run(c, steps[..n]);
      EveryOneHeeded(c, steps[..n]);
      StepKeeps(d, steps[n].input, steps[n].now);
      AcceptedGrow(d, steps[n].input, steps[n].now);
      KeyKept(d, steps[n].input, steps[n].now);
    }
  }

  lemma AcceptedGrow(c: Core, i: Input, now: Clock)
    requires PathInv(c)
    ensures AcceptedSends(c.path.settled) <= AcceptedSends(Step(c, i, now).path.settled)
  {
    hide Conserved, Fifo, Told, SlotIsLastSent, HandleRadioRx, AcceptedSends;
    if i.Radio? {
      RadioStep(c, i.frame, now);
      if i.frame == [] {
        NothingArrives(c, now);
      } else {
        FrameAnswers(c, i.frame, now);
      }
    } else {
      OtherStepsAcceptNothing(c, i, now);
      hide Step;
      UnansweredSame(c.path.settled, Step(c, i, now).path.settled);
    }
  }

  /** With the key known from the start, that is every accepted send. */
  lemma KeyKnownEchoesAll(retention: Retention, backlog: Backlog, db: Tables, r: Reconnection, now: Clock,
                          steps: seq<Timed>)
    requires Start(retention, backlog, db, r, now).mem.pubkey.Some?
    ensures var c := Run(Start(retention, backlog, db, r, now), steps);
            Senders(Echoes(c.out)) == AcceptedSends(c.path.settled)
  {
    EchoExactlyWhenAccepted(retention, backlog, db, r, now, steps);
    StartSilent(retention, backlog, db, r, now);
    StartPath(retention, backlog, db, r, now);
    hide Start, PathInv, Run, Heeded, SentRows, AcceptedSends, Echoes;
    EveryOneHeeded(Start(retention, backlog, db, r, now), steps);
  }

  /** The key is what it takes: an accepted send is echoed if and only if the radio's key is known. */
  lemma EchoNeedsTheKey(c: Core, p: Command, now: Clock)
    requires Reachable(c) && TakesSend(c, p)
    ensures |Echoes(HandleRadioRx(c, p, now).out)| > |Echoes(c.out)| <==> c.mem.pubkey.Some?
  {
    ReachablePath(c);
    hide Reachable, Conserved, Fifo, Told, HandleRadioRx, TakesSend, SlotIsLastSent;
    if c.mem.pubkey.Some? {
      AcceptedSendIsEchoed(c, p, now);
      hide EchoEvent, EchoFrame, Echoes;
    } else {
      OtherFrameEchoesNothing(c, p, now);
      PlainlyUnechoed(c.out, HandleRadioRx(c, p, now).out);
      UnechoedSame(c.out, HandleRadioRx(c, p, now).out);
    }
  }

  lemma KeyKept(c: Core, i: Input, now: Clock)
    requires PathInv(c) && c.mem.pubkey.Some?
    ensures Step(c, i, now).mem.pubkey.Some?
  {
    hide Conserved, Fifo, Told, HandleRadioRx, SlotIsLastSent;
    if i.Radio? {
      RadioStep(c, i.frame, now);
      if i.frame == [] {
        NothingArrives(c, now);
      } else {
        FrameAnswers(c, i.frame, now);
      }
    } else {
      OtherStepsAcceptNothing(c, i, now);
    }
  }

  /** Once known, the key stays known: whether sends are echoed is settled by the first SELF_INFO in full. */
  lemma KeyStaysKnown(c: Core, i: Input, now: Clock)
    requires Reachable(c) && c.mem.pubkey.Some?
    ensures Step(c, i, now).mem.pubkey.Some?
  {
    ReachablePath(c);
    hide PathInv, Step, Reachable;
    KeyKept(c, i, now);
  }

  // ---------------------------------------------------------------------
  // What an echo says
  // ---------------------------------------------------------------------

  /** Read the way a client reads a received message, an echo says what was sent: a direct text comes from this
      node's key prefix, with the sender's type, clock and text; a channel text comes on the sender's channel,
      with its clock, under the node's name. */
  lemma EchoReadsAsReceived(c: Core, payload: Command)
    requires IsWellFormedSend(payload) && c.mem.pubkey.Some?
    ensures var e := EchoFrame(c, payload);
            if payload[0] == 0x02 then
              Storable(e) && MessageTimestamp(e) == U32(payload, 3)
              && e[0] == 0x07 && e[1..7] == c.mem.pubkey.value[..6] && e[8] == payload[1] && e[13..] == payload[13..]
            else
              e[0] == 0x08 && e[1] == payload[2] && (|e| > 8 ==> Storable(e) && MessageTimestamp(e) == U32(payload, 3))
              && e[8..] == ChannelTextOnAir(c.mem.name, payload[7..])
              && (c.mem.name.Some? ==> c.mem.name.value + [0x3A, 0x20] <= e[8..])
  {
    hide ChannelTextOnAir;
    OnAirPrefix(c.mem.name, payload[7..]);
    var e := EchoFrame(c, payload);
    if payload[0] == 0x02 {
      assert e[9] == payload[3] && e[10] == payload[4] && e[11] == payload[5] && e[12] == payload[6];
      assert e[13..] == payload[13..];
    } else {
      assert e[4] == payload[3] && e[5] == payload[4] && e[6] == payload[5] && e[7] == payload[6];
      assert e[8..] == ChannelTextOnAir(c.mem.name, payload[7..]);
    }
  }

  /** The node's name comes first, and the text follows as far as a packet has room. */
  lemma OnAirPrefix(name: Option<Frame>, text: Frame)
    ensures var t := ChannelTextOnAir(name, text);
            (name.Some? ==> name.value + [0x3A, 0x20] <= t)
            && (name.None? ==> t <= text)
            && (|t| <= MAX_TEXT_LEN || (name.Some? && t == name.value + [0x3A, 0x20]))
  {
  }
}
