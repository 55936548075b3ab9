/** Telling a client that it has mail: who is sent MESSAGES_WAITING, and when. */
module Notices {
  import opened Bytes
  import opened Protocol
  import opened Store
  import opened CoreState
  import opened RadioPath
  import opened Requests
  import opened Frames
  import opened Outcomes
  import opened Replay
  import opened NoLoss
  import opened ReplayOnce

  /** The step tells client `k` that messages wait for it. */
  predicate Notified(pre: Core, post: Core, k: ClientId) {
    exists j :: 0 <= j < |News(pre, post)| && IsNotice(News(pre, post)[j], k)
  }

  predicate IsNotice(e: Event, k: ClientId) {
    e.ToClient? && e.client == k && e.kind == Notice && e.frame == [0x83]
  }

  // ---------------------------------------------------------------------
  // Which identities have mail
  // ---------------------------------------------------------------------

  /** A message the identity may be replayed: above its cursor, or for a newcomer within the backlog. */
  ghost predicate HasMail(c: Core, who: Identity, now: Clock) {
    exists m :: m in c.db.messages && ReplayableTo(m, who) && Recent(c, who, m, now)
  }

  predicate Recent(c: Core, who: Identity, m: Message, now: Clock) {
    if who in c.db.clients then m.id > c.db.clients[who].lastSeen
    else
      match c.conf.backlog
      case Off => false
      case Messages(n) => n > 0
      case Seconds(s) => m.receivedAt.Some? && m.receivedAt.value >= now.unix - s
  }

  lemma MailIsMissed(c: Core, who: Identity, now: Clock)
    requires ValidMessages(c.db)
    ensures MissedBy(c, who, now) != [] <==> HasMail(c, who, now)
  {
    if who in c.db.clients {
      MessageIdsAfterExact(c.db, c.db.clients[who].lastSeen, who);
      hide MessageIdsAfter, ValidMessages, ReplayableTo;
      var ids := MissedBy(c, who, now);
      assert ids != [] ==> ids[0] in ids;
      if m :| m in c.db.messages && ReplayableTo(m, who) && Recent(c, who, m, now) {
        assert m.id as int in ids;
      }
    } else {
      match c.conf.backlog {
        case Off =>
        case Messages(n) =>
          CountedMail(c, n, who, now);
        case Seconds(s) =>
          AgedMail(c, s, who, now);
      }
    }
  }

  lemma CountedMail(c: Core, n: nat, who: Identity, now: Clock)
    requires who !in c.db.clients && c.conf.backlog == Messages(n)
    ensures MissedBy(c, who, now) != [] <==> HasMail(c, who, now)
  {
    BacklogByCount(c.db, n, who, now.unix);
    var keep := (m: Message) => ReplayableTo(m, who);
    SomeKept(c.db.messages, keep);
    hide Filter, BacklogMessageIds;
    assert MissedBy(c, who, now) != [] <==> n > 0 && Filter(c.db.messages, keep) != [];
    hide MissedBy;
    if n > 0 && Filter(c.db.messages, keep) != [] {
      var m :| m in c.db.messages && keep(m);
      assert Recent(c, who, m, now);
    }
    if m :| m in c.db.messages && ReplayableTo(m, who) && Recent(c, who, m, now) {
      assert keep(m);
    }
  }

  lemma AgedMail(c: Core, s: int, who: Identity, now: Clock)
    requires who !in c.db.clients && c.conf.backlog == Seconds(s)
    ensures MissedBy(c, who, now) != [] <==> HasMail(c, who, now)
  {
    var ids := BacklogMessageIds(c.db, Seconds(s), who, now.unix);
    assert MissedBy(c, who, now) == ids;
    forall id
      ensures id in ids
              <==> exists m :: m in c.db.messages && m.id == id && ReplayableTo(m, who) && Recent(c, who, m, now)
    {
      BacklogByAge(c.db, s, who, now.unix, id);
    }
    hide MissedBy, BacklogMessageIds, ReplayableTo, Recent;
    assert ids != [] ==> ids[0] in ids;
    if m :| m in c.db.messages && ReplayableTo(m, who) && Recent(c, who, m, now) {
      assert m.id as int in ids;
    }
  }

  lemma SomeKept(rows: seq<Message>, keep: Message -> bool)
    ensures Filter(rows, keep) != [] <==> exists m :: m in rows && keep(m)
  {
    var kept := Filter(rows, keep);
    forall m
      ensures m in kept <==> m in rows && keep(m)
    {
      FilterMember(rows, keep, m);
    }
    if kept != [] {
      assert kept[0] in kept;
    }
  }

  // ---------------------------------------------------------------------
  // Answered from the cache
  // ---------------------------------------------------------------------

  /** An APP_START answered from the cache is followed by MESSAGES_WAITING if and only if the log holds a message
      for the identity; nobody else is told anything. */
  lemma MissedMailIsAnnounced(c: Core, cmd: ClientCommand, now: Clock, j: ClientId)
    requires ValidMessages(c.db) && cmd.client in c.live && cmd.payload != [] && cmd.payload[0] == 0x01
             && c.mem.selfInfo.Some?
    ensures var d := HandleClientCommand(c, cmd, now);
            |c.out| < |d.out| && d.out[|c.out|].ToClient? && d.out[|c.out|].client == cmd.client
            && d.out[|c.out|].frame == c.mem.selfInfo.value
            && (Notified(c, d, j) <==> j == cmd.client && HasMail(c, WhoIs(cmd), now))
  {
    var who, d := WhoIs(cmd), HandleClientCommand(c, cmd, now);
    MailIsMissed(c, who, now);
    RowAfterRegister(c, cmd, now, who);
    hide HasMail, MissedBy, AppName, Wire, ValidMessages, MessageHead;
    var c1 := RegisterSession(c, cmd, now);
    RegisterSilent(c, cmd, now);
    RegisterMemory(c, cmd, now);
    hide RegisterSession;
    var info := SendToClient(c1, cmd.client, c.mem.selfInfo.value, Cached);
    assert d == NotifyMissed(info, cmd.client);
    NoticeGiven(c, info, cmd.client, d, j);
  }

  lemma RegisterMemory(c: Core, cmd: ClientCommand, now: Clock)
    ensures RegisterSession(c, cmd, now).mem == c.mem
  {
    hide MissedBy, AppName, MessageHead;
  }

  /** After one event that is no notice, the notice itself or nothing. */
  lemma NoticeGiven(c: Core, c1: Core, k: ClientId, d: Core, j: ClientId)
    requires |c1.out| == |c.out| + 1 && c.out <= c1.out && c1.out[|c.out|].ToClient? && c1.out[|c.out|].kind != Notice
    requires d == NotifyMissed(c1, k) && k in c1.live
    ensures c1.out <= d.out
    ensures Notified(c, d, j) <==> j == k && k in c1.sessions && c1.sessions[k].pending != []
  {
    hide Wire;
    var news := News(c, d);
    assert news[0] == c1.out[|c.out|];
    if k in c1.sessions && c1.sessions[k].pending != [] {
      assert |news| == 2 && IsNotice(news[1], k);
    } else {
      assert |news| == 1;
    }
  }

  // ---------------------------------------------------------------------
  // Answered by the radio
  // ---------------------------------------------------------------------

  lemma SameNotices(c: Core, d: Core, e: Core, j: ClientId)
    requires c.out <= d.out && OnlyFailures(d.out, e.out)
    ensures Notified(c, e, j) <==> Notified(c, d, j)
  {
    var was, news := News(c, d), News(c, e);
    assert forall i :: 0 <= i < |was| ==> news[i] == was[i] == e.out[|c.out| + i];
    assert forall i :: |was| <= i < |news| ==> news[i] == e.out[|c.out| + i];
    if Notified(c, d, j) {
      var i :| 0 <= i < |was| && IsNotice(was[i], j);
      assert IsNotice(news[i], j);
    }
  }

  /** The APP_START in flight is answered. */
  predicate Introduces(c: Core, k: ClientId, p: Frame) {
    && c.path.inFlight.Some? && c.path.inFlight.value.client == Some(k) && c.path.inFlight.value.payload[0] == 0x01
    && p != [] && p[0] in {0x01, 0x05}
  }

  lemma IntroductionIs(c: Core, p: Command, now: Clock)
    requires c.path.inFlight.Some? && c.path.inFlight.value.payload[0] == 0x01 && p[0] in {0x01, 0x05}
    requires c.path.inFlight.value.awaiting == AwaitingFor(c.path.inFlight.value.payload)
    ensures var c1, f := CacheResponse(c, p, now), c.path.inFlight.value;
            HandleRadioRx(c, p, now) == Complete(PassOn(AppendRouted(c1, p), f, p, now), f, p, now)
  {
    CachePath(c, p, now);
    hide CacheResponse, Complete, PassOn, AppendRouted;
  }

  lemma CachePath(c: Core, p: Command, now: Clock)
    requires p[0] in {0x01, 0x05}
    ensures var d := CacheResponse(c, p, now);
            d.path == c.path && d.live == c.live && d.sessions == c.sessions && d.out == c.out
  {
    hide ExtractRadioIdentity;
    KeepOnlyMemory(c, p);
    KeepOnlyMemory(c.(db := c.db.(blobs := c.db.blobs[SelfInfo := p])), p);
    hide KeepSelfInfo;
  }

  lemma PassedOn(c: Core, f: InFlight, k: ClientId, p: Command, now: Clock)
    requires f.client == Some(k) && k in c.live
    ensures var d := PassOn(c, f, p, now);
            d.live == c.live && d.sessions == c.sessions && |d.out| == |c.out| + 1 && c.out <= d.out
            && d.out[|c.out|].ToClient? && d.out[|c.out|].kind == Reply
  {
    hide Wire;
  }

  lemma PassedToNobody(c: Core, f: InFlight, k: ClientId, p: Command, now: Clock)
    requires f.client == Some(k) && k !in c.live
    ensures var d := PassOn(c, f, p, now); d.live == c.live && d.sessions == c.sessions && d.out == c.out
  {
    hide Wire;
  }

  lemma AppendedOnly(c: Core, p: Command)
    ensures var d := AppendRouted(c, p); d.live == c.live && d.sessions == c.sessions && d.out == c.out
  {
  }

  /** What the completion of an APP_START says, before the next request goes. */
  lemma CompletedIs(c: Core, f: InFlight, k: ClientId, p: Command, now: Clock)
    requires f.client == Some(k) && f.payload[0] == 0x01
    ensures var c1 := Settle(WithSlot(c, None), f.Req(), Answered(CurrentFrames(c)));
            c1.out == c.out && c1.live == c.live && c1.sessions == c.sessions
            && Complete(c, f, p, now) == AdvanceQueue(if IsError(p) then c1 else NotifyMissed(c1, k), now)
  {
    hide CurrentFrames, AdvanceQueue, NotifyMissed;
  }

  lemma NotifiedOut(c: Core, d: Core, k: ClientId)
    requires c.live == d.live && c.sessions == d.sessions && c.out == d.out
    ensures c.out <= NotifyMissed(c, k).out
    ensures k !in c.live ==> NotifyMissed(c, k) == c
  {
    hide Wire;
  }

  /** An APP_START that the radio answers is followed by MESSAGES_WAITING if and only if the client is still
      connected and its session has something pending; after an ERROR, and to anybody else, nothing is said. */
  lemma IntroducedIsTold(c: Core, k: ClientId, p: Command, now: Clock, j: ClientId)
    requires Reachable(c) && Introduces(c, k, p)
    ensures Notified(c, HandleRadioRx(c, p, now), j)
            <==> p[0] == 0x05 && j == k && LiveSession(c, k) && c.sessions[k].pending != []
  {
    ReachablePath(c);
    SlotAwaits(c);
    var f, c1 := c.path.inFlight.value, CacheResponse(c, p, now);
    IntroductionIs(c, p, now);
    CachePath(c, p, now);
    AppendedOnly(c1, p);
    hide HandleRadioRx, CacheResponse, PassOn, AppendRouted, Complete, Reachable, PathInv, AdvanceQueue, Notified,
      NotifyMissed;
    var c2 := AppendRouted(c1, p);
    var c3 := PassOn(c2, f, p, now);
    CompletedIs(c3, f, k, p, now);
    var c4 := Settle(WithSlot(c3, None), f.Req(), Answered(CurrentFrames(c3)));
    var c5 := if IsError(p) then c4 else NotifyMissed(c4, k);
    AdvanceFails(c5, now);
    hide Settle, WithSlot, CurrentFrames;
    if k in c.live {
      PassedOn(c2, f, k, p, now);
      TellsOne(c, c4, k, c5, j, IsError(p));
    } else {
      PassedToNobody(c2, f, k, p, now);
      NotifiedOut(c4, c3, k);
      NobodyTold(c, c5, j);
    }
    SameNotices(c, c5, HandleRadioRx(c, p, now), j);
  }

  lemma TellsOne(c: Core, c4: Core, k: ClientId, c5: Core, j: ClientId, refused: bool)
    requires c4.live == c.live && c4.sessions == c.sessions && k in c.live
    requires |c4.out| == |c.out| + 1 && c.out <= c4.out && c4.out[|c.out|].ToClient? && c4.out[|c.out|].kind == Reply
    requires c5 == if refused then c4 else NotifyMissed(c4, k)
    ensures c.out <= c5.out
    ensures Notified(c, c5, j) <==> !refused && j == k && LiveSession(c, k) && c.sessions[k].pending != []
  {
    NoticeGiven(c, c4, k, NotifyMissed(c4, k), j);
    hide NotifyMissed;
    if refused {
      assert News(c, c4) == [c4.out[|c.out|]];
    }
  }

  lemma NobodyTold(c: Core, d: Core, j: ClientId)
    requires d.out == c.out
    ensures !Notified(c, d, j)
  {
  }

  lemma SlotAwaits(c: Core)
    requires PathInv(c) && c.path.inFlight.Some?
    ensures c.path.inFlight.value.awaiting == AwaitingFor(c.path.inFlight.value.payload)
  {
    hide Told, Fifo, Conserved, AwaitingFor;
  }
}
