/** A client's text, byte by byte: what it is made of, what the radio's SENT or OK to it causes, and how the others read
    its echo. */
module Sends {
  import opened Bytes
  import opened Protocol
  import opened Readings
  import opened Store
  import opened CoreState
  import opened RadioPath
  import opened Requests
  import opened Frames
  import opened Outcomes
  import opened Replay
  import opened NoLoss
  import opened Reports
  import opened Echo
  import opened Acks
  import opened LiveReplay

  const SENT: byte := 0x06
  const OK: byte := 0x00

  /** SEND_TXT_MSG: code, text type, attempt, clock, the first six bytes of the recipient's key, text. */
  function DirectText(kind: byte, attempt: byte, clock: Word, to: Frame, text: Frame): Command
    requires |to| == 6
  {
    [0x02, kind, attempt] + clock + to + text
  }

  /** SEND_CHANNEL_TXT_MSG: code, text type, channel, clock, text. */
  function ChannelText(kind: byte, idx: byte, clock: Word, text: Frame): Command {
    [0x03, kind, idx] + clock + text
  }

  lemma DirectTextIs(kind: byte, attempt: byte, clock: Word, to: Frame, text: Frame)
    requires |to| == 6
    ensures var p := DirectText(kind, attempt, clock, to, text);
            (IsWellFormedSend(p) <==> text != []) && p[1] == kind && p[3..7] == clock && p[13..] == text && |p| >= 13
            && U32(p, 3) == U32(clock, 0)
  {
    var p := DirectText(kind, attempt, clock, to, text);
    assert p[3..7] == clock && p[13..] == text;
  }

  lemma ChannelTextIs(kind: byte, idx: byte, clock: Word, text: Frame)
    ensures var p := ChannelText(kind, idx, clock, text);
            (IsWellFormedSend(p) <==> text != []) && p[2] == idx && p[3..7] == clock && p[7..] == text && |p| >= 7
            && U32(p, 3) == U32(clock, 0)
  {
    var p := ChannelText(kind, idx, clock, text);
    assert p[3..7] == clock && p[7..] == text;
  }

  /** The firmware takes a direct text with SENT and a channel text with OK. */
  lemma TakenWithItsReply(c: Core, p: Command)
    requires SlotIsLastSent(c) && c.path.inFlight.Some? && c.path.inFlight.value.client.Some?
    requires IsWellFormedSend(c.path.inFlight.value.payload)
    ensures TakesSend(c, p) <==> p[0] == if c.path.inFlight.value.payload[0] == 0x02 then SENT else OK
  {
    hide CurrentFrames, OpenReply;
  }

  // ---------------------------------------------------------------------
  // The echo
  // ---------------------------------------------------------------------

  lemma DirectEchoReads(c: Core, kind: byte, attempt: byte, clock: Word, to: Frame, text: Frame)
    requires |to| == 6 && text != [] && c.mem.pubkey.Some?
             && IsWellFormedSend(DirectText(kind, attempt, clock, to, text))
    ensures Read(EchoFrame(c, DirectText(kind, attempt, clock, to, text)))
            == Some(Direct(c.mem.pubkey.value[..6], 0, kind, U32(clock, 0), text))
  {
    DirectTextIs(kind, attempt, clock, to, text);
    var p, key := DirectText(kind, attempt, clock, to, text), c.mem.pubkey.value;
    var e := EchoFrame(c, p);
    var b := key[..6] + [0, kind] + clock + text;
    assert e == [0x07] + b;
    assert e[1..] == b;
    assert b[..6] == key[..6] && b[12..] == text && U32(b, 8) == U32(clock, 0);
  }

  lemma ChannelEchoReads(c: Core, kind: byte, idx: byte, clock: Word, text: Frame)
    requires text != [] && c.mem.pubkey.Some? && IsWellFormedSend(ChannelText(kind, idx, clock, text))
    ensures Read(EchoFrame(c, ChannelText(kind, idx, clock, text)))
            == Some(OnChannel(idx, 0, 0, U32(clock, 0), ChannelTextOnAir(c.mem.name, text)))
  {
    ChannelTextIs(kind, idx, clock, text);
    var p, air := ChannelText(kind, idx, clock, text), ChannelTextOnAir(c.mem.name, text);
    hide ChannelTextOnAir;
    var e := EchoFrame(c, p);
    var b := [idx, 0, 0] + clock + air;
    assert e == [0x08] + b;
    assert e[1..] == b;
    assert b[7..] == air && U32(b, 3) == U32(clock, 0);
  }

  /** On the air a text is preceded by the node's name, a colon and a blank, if the name is known, and the text is cut
      so that the whole has at most 160 bytes. */
  lemma TextOnAir(name: Frame, text: Frame)
    ensures ChannelTextOnAir(None, text) == text[..if |text| <= 160 then |text| else 160]
    ensures var prefix := name + [0x3A, 0x20];
            var air := ChannelTextOnAir(Some(name), text);
            prefix <= air && air[|prefix|..] <= text
            && (|prefix| + |text| <= 160 ==> air == prefix + text)
            && (|prefix| + |text| > 160 ==> |air| == if |prefix| <= 160 then 160 else |prefix|)
  {
    var prefix := name + [0x3A, 0x20];
    var air := ChannelTextOnAir(Some(name), text);
    assert air[|prefix|..] <= text;
  }

  /** The event shows `reading` to every connected client but `k`, each in its layout. */
  ghost predicate ShowsAll(c: Core, e: Event, k: ClientId, reading: Reading) {
    && e.ToOthers? && Read(e.frame) == Some(reading)
    && (forall j :: j in e.wires <==> j in c.live && j != k)
    && forall j :: j in e.wires ==> Read(e.wires[j]) == Some(reading)
  }

  lemma EchoShowsAll(c: Core, f: InFlight, echo: Frame, reading: Reading)
    requires f.client.Some? && Read(echo) == Some(reading)
    ensures ShowsAll(c, EchoEvent(c, f, echo), f.client.value, reading)
  {
    var e := EchoEvent(c, f, echo);
    hide Read, MessageFrameFor;
    forall j | j in e.wires
      ensures Read(e.wires[j]) == Some(reading)
    {
      ConversionKeepsReading(Version(c, j), echo);
    }
  }

  /** What the acceptance of a client's text does to the request, the others and the log. */
  ghost predicate ShownAndStored(c: Core, d: Core, k: ClientId, payload: Command, reading: Reading, now: Clock) {
    && AcceptedSends(d.path.settled) == AcceptedSends(c.path.settled) + [Request(Some(k), payload)]
    && (exists e :: e in News(c, d) && ShowsAll(c, e, k, reading))
    && exists row: Message ::
         d.db.messages == c.db.messages + [row] && row.frame.Some? && Read(row.frame.value) == Some(reading)
         && row.timestamp == reading.clock && row.receivedAt == Some(now.unix) && row.id == c.db.lastId + 1
  }

  lemma AcceptedIsShown(c: Core, p: Command, now: Clock, reading: Reading)
    requires SlotIsLastSent(c) && TakesSend(c, p) && c.mem.pubkey.Some?
    requires Read(EchoFrame(c, c.path.inFlight.value.payload)) == Some(reading)
    requires U32(c.path.inFlight.value.payload, 3) == reading.clock
    ensures var f := c.path.inFlight.value;
            ShownAndStored(c, HandleRadioRx(c, p, now), f.client.value, f.payload, reading, now)
  {
    var d, f := HandleRadioRx(c, p, now), c.path.inFlight.value;
    var echo := EchoFrame(c, f.payload);
    AcceptedSendIsEchoed(c, p, now);
    FrameAnswers(c, p, now);
    EchoShowsAll(c, f, echo, reading);
    TakenGrows(c, p, now);
    hide HandleRadioRx, EchoFrame, EchoEvent, SlotIsLastSent, TakesSend, Read, AcceptedSends, Echoes, ShowsAll,
      IsWellFormedSend, U32;
    var j :| |c.out| <= j < |d.out| && d.out[j] == EchoEvent(c, f, echo);
    assert News(c, d)[j - |c.out|] == EchoEvent(c, f, echo);
    var row := Message(c.db.lastId + 1, U32(f.payload, 3), Some(now.unix), Some(echo), f.origin);
    assert d.db.messages == c.db.messages + [row];
  }

  lemma TakenGrows(c: Core, p: Command, now: Clock)
    requires SlotIsLastSent(c) && TakesSend(c, p) && c.mem.pubkey.Some?
    ensures |c.out| <= |HandleRadioRx(c, p, now).out|
  {
    AcceptedSendIsEchoed(c, p, now);
    hide HandleRadioRx, TakesSend, SlotIsLastSent, EchoEvent, EchoFrame, Echoes;
  }

  // ---------------------------------------------------------------------
  // Over runs
  // ---------------------------------------------------------------------

  /** Client `k`'s payload is in flight. */
  predicate InFlightOf(c: Core, k: ClientId, payload: Command) {
    c.path.inFlight.Some? && c.path.inFlight.value.client == Some(k) && c.path.inFlight.value.payload == payload
  }

  /** In every state of every run in which a client's direct text is in flight and the radio's key is known: SENT is
      handed to the client, ends the request, and announces the ACK code to wait for; and every other client, and the
      log, get a message from the first six bytes of the key that the radio last reported, with the text type, clock
      and text that were sent. */
  lemma DirectTextIsSent(retention: Retention, backlog: Backlog, db: Tables, r: Reconnection, start: Clock,
                         steps: seq<Timed>, k: ClientId, kind: byte, attempt: byte, clock: Word, to: Frame, text: Frame,
                         route: byte, code: Word, rest: Frame, now: Clock)
    requires |to| == 6 && text != [] && KeyAfter(None, AllSaid(db, r, steps)).Some?
    requires InFlightOf(Run(Start(retention, backlog, db, r, start), steps), k,
                        DirectText(kind, attempt, clock, to, text))
    ensures var c, p := Run(Start(retention, backlog, db, r, start), steps), [SENT, route] + code + rest;
            var d, key := Step(c, Radio(p), now), KeyAfter(None, AllSaid(db, r, steps)).value;
            ShownAndStored(c, d, k, DirectText(kind, attempt, clock, to, text),
                           Direct(key[..6], 0, kind, U32(clock, 0), text), now)
            && (k in c.live ==> ToClient(k, p, p, Reply) in News(c, d))
            && code in d.acks && d.acks[code] == (k, now.mono)
  {
    var c, p := Run(Start(retention, backlog, db, r, start), steps), [SENT, route] + code + rest;
    KeyIsTheRadios(retention, backlog, db, r, start, steps);
    StartPath(retention, backlog, db, r, start);
    RunKeeps(Start(retention, backlog, db, r, start), steps);
    SlotKept(c);
    hide Start, Run, AllSaid, KeyAfter, CountAfter, PathInv, SlotIsLastSent;
    DirectTextAt(c, k, kind, attempt, clock, to, text, route, code, rest, now);
  }

  lemma DirectTextAt(c: Core, k: ClientId, kind: byte, attempt: byte, clock: Word, to: Frame, text: Frame, route: byte,
                     code: Word, rest: Frame, now: Clock)
    requires |to| == 6 && text != [] && c.mem.pubkey.Some? && SlotIsLastSent(c)
    requires InFlightOf(c, k, DirectText(kind, attempt, clock, to, text))
    ensures var p := [SENT, route] + code + rest;
            var d := Step(c, Radio(p), now);
            ShownAndStored(c, d, k, DirectText(kind, attempt, clock, to, text),
                           Direct(c.mem.pubkey.value[..6], 0, kind, U32(clock, 0), text), now)
            && (k in c.live ==> ToClient(k, p, p, Reply) in News(c, d))
            && code in d.acks && d.acks[code] == (k, now.mono)
  {
    var p := [SENT, route] + code + rest;
    assert p[2..6] == code;
    DirectTextIs(kind, attempt, clock, to, text);
    DirectEchoReads(c, kind, attempt, clock, to, text);
    TakenWithItsReply(c, p);
    RadioStep(c, p, now);
    hide Step, DirectText, Read, SlotIsLastSent, EchoFrame, HandleRadioRx, ShownAndStored, U32;
    assert TakesSend(c, p);
    AcceptedIsShown(c, p, now, Direct(c.mem.pubkey.value[..6], 0, kind, U32(clock, 0), text));
    ReplyHanded(c, k, p, now);
    SentAnnounces(c, k, p);
    hide TakesSend, Announces;
    AnnouncementEvicts(c, p, now);
  }

  lemma SentAnnounces(c: Core, k: ClientId, p: Command)
    requires TakesSend(c, p) && p[0] == SENT && |p| >= 6
    ensures Announces(c, p)
  {
  }

  /** The reply to a send is handed to its client. */
  lemma ReplyHanded(c: Core, k: ClientId, p: Command, now: Clock)
    requires SlotIsLastSent(c) && TakesSend(c, p) && c.path.inFlight.value.client == Some(k) && c.mem.pubkey.Some?
    requires p[0] in {SENT, OK}
    ensures k in c.live ==> ToClient(k, p, p, Reply) in News(c, HandleRadioRx(c, p, now))
  {
    var f, d := c.path.inFlight.value, HandleRadioRx(c, p, now);
    var c1 := Forward(c, f, p, now);
    SendRouted(c, p, now);
    SameForwarded(c, f, p, now);
    ForwardedOut(c, f, k, p, now);
    hide HandleRadioRx, Forward, Complete, SlotIsLastSent, IsWellFormedSend, BelongsToInFlight, EchoFrame, EchoEvent;
    CompleteEchoes(c1, f, p, now);
    if k in c.live {
      assert d.out[|c.out|] == ToClient(k, p, p, Reply);
      assert News(c, d)[0] == d.out[|c.out|];
    }
  }

  lemma SameForwarded(c: Core, f: InFlight, p: Command, now: Clock)
    ensures Forward(c, f, p, now).mem == c.mem
  {
    ForwardMemory(c, f, p, now);
  }

  lemma ForwardedOut(c: Core, f: InFlight, k: ClientId, p: Command, now: Clock)
    requires f.client == Some(k) && p[0] in {SENT, OK}
    ensures k in c.live ==> c.out + [ToClient(k, p, p, Reply)] <= Forward(c, f, p, now).out
  {
    assert forall j :: Wire(c, j, p) == p;
    assert AppendRouted(c, p).out == c.out && AppendRouted(c, p).live == c.live
           && AppendRouted(c, p).versions == c.versions;
    hide AppendRouted;
  }

  /** The same for a channel text and its OK; nobody waits for an ACK. */
  lemma ChannelTextIsSent(c: Core, k: ClientId, kind: byte, idx: byte, clock: Word, text: Frame, rest: Frame,
                          now: Clock)
    requires Reachable(c) && text != [] && c.mem.pubkey.Some? && InFlightOf(c, k, ChannelText(kind, idx, clock, text))
    ensures var p := [OK] + rest;
            var d := Step(c, Radio(p), now);
            ShownAndStored(c, d, k, ChannelText(kind, idx, clock, text),
                           OnChannel(idx, 0, 0, U32(clock, 0), ChannelTextOnAir(c.mem.name, text)), now)
            && (k in c.live ==> ToClient(k, p, p, Reply) in News(c, d))
  {
    hide Step, ChannelTextOnAir, Read, SlotIsLastSent, ShownAndStored, U32, Reachable, PathInv;
    ReachablePath(c);
    SlotKept(c);
    ChannelTextAt(c, k, kind, idx, clock, text, rest, now);
  }

  lemma ChannelTextAt(c: Core, k: ClientId, kind: byte, idx: byte, clock: Word, text: Frame, rest: Frame, now: Clock)
    requires SlotIsLastSent(c) && text != [] && c.mem.pubkey.Some?
    requires InFlightOf(c, k, ChannelText(kind, idx, clock, text))
    ensures var p := [OK] + rest;
            var d := Step(c, Radio(p), now);
            ShownAndStored(c, d, k, ChannelText(kind, idx, clock, text),
                           OnChannel(idx, 0, 0, U32(clock, 0), ChannelTextOnAir(c.mem.name, text)), now)
            && (k in c.live ==> ToClient(k, p, p, Reply) in News(c, d))
  {
    hide Step, ChannelText, ChannelTextOnAir, Read, SlotIsLastSent, EchoFrame, HandleRadioRx, ShownAndStored, U32;
    var p := [OK] + rest;
    ChannelTextIs(kind, idx, clock, text);
    ChannelSent(kind, idx, clock, text);
    ChannelEchoReads(c, kind, idx, clock, text);
    TakenWithItsReply(c, p);
    RadioStep(c, p, now);
    assert TakesSend(c, p);
    hide TakesSend;
    AcceptedIsShown(c, p, now, OnChannel(idx, 0, 0, U32(clock, 0), ChannelTextOnAir(c.mem.name, text)));
    ReplyHanded(c, k, p, now);
  }

  lemma ChannelSent(kind: byte, idx: byte, clock: Word, text: Frame)
    ensures ChannelText(kind, idx, clock, text)[0] == 0x03
  {
  }
}
