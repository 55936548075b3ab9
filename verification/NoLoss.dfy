/** No message is lost: the promise of the missed-message log, over whole runs. */
module NoLoss {
  import opened Bytes
  import opened Protocol
  import opened Store
  import opened CoreState
  import opened RadioPath
  import opened Requests
  import opened Frames
  import opened Replay

  // ---------------------------------------------------------------------
  // When a step keeps the promise
  // ---------------------------------------------------------------------

  /** A message frame arriving now would be shown to connection `k`: a GET_MSG is in flight, so it is fanned
      out, or it is taken as the reply to `k`'s own request. */
  predicate WouldHear(c: Core, k: ClientId) {
    c.path.inFlight.Some?
    && (c.path.inFlight.value.payload[0] == 0x0A
        || (c.path.inFlight.value.awaiting.Any? && c.path.inFlight.value.client == Some(k)))
  }

  predicate SomeHears(c: Core, who: Identity) {
    exists k :: k in c.sessions && k in c.live && c.sessions[k].who == who && WouldHear(c, k)
  }

  predicate AllWouldHear(c: Core) {
    forall k :: k in c.sessions && k in c.live ==> SomeHears(c, c.sessions[k].who)
  }

  /** A message frame reaches every identity with a live connection; clocks do not run behind stored arrival
      times. */
  ghost predicate Fair(c: Core, i: Input, now: Clock) {
    && (i.Radio? && i.frame != [] && Storable(i.frame) ==> AllWouldHear(c))
    && ClockOk(c, now)
  }

  ghost predicate ClockOk(c: Core, now: Clock) {
    c.conf.backlog.Seconds? ==>
      forall m :: m in c.db.messages && m.receivedAt.Some? ==> m.receivedAt.value <= now.unix
  }

  ghost predicate Orderly(c: Core) {
    c.conf.backlog.Seconds? ==> ArrivalOrder(c.db)
  }

  // ---------------------------------------------------------------------
  // Steps that do not touch the mail
  // ---------------------------------------------------------------------

  lemma WatchBounded(c: Core, w: Watch, i: Input, now: Clock)
    requires forall x :: x in w.seen ==> x.1 <= c.db.lastId
    requires c.db.lastId <= Step(c, i, now).db.lastId
    requires ValidMessages(Step(c, i, now).db)
    ensures forall x :: x in WatchStep(w, c, i, now).seen ==> x.1 <= Step(c, i, now).db.lastId
  {
    hide Step;
    var post := Step(c, i, now);
    if post.db.messages != [] {
      assert post.db.messages[|post.db.messages| - 1] in post.db.messages;
    }
  }

  /** A step after which the mail is as before, apart from clients having come or gone. */
  lemma QuietStepKeeps(c: Core, w: Watch, i: Input, now: Clock, mid: Core)
    requires ReplayInv(c, w) && !Registers(c, i)
    requires mid == c.(live := mid.live, nextClient := mid.nextClient)
    requires mid.live <= c.live || (mid.live == c.live + {c.nextClient} && mid.nextClient > c.nextClient)
    requires mid.nextClient >= c.nextClient
    requires SameMail(mid, Step(c, i, now))
    ensures ReplayInv(Step(c, i, now), WatchStep(w, c, i, now))
  {
    hide Step;
    var post, w' := Step(c, i, now), WatchStep(w, c, i, now);
    LiveChangeReplay(c, w, mid);
    SameMessages(mid.db, post.db);
    WatchBounded(c, w, i, now);
    hide ReplayInv;
    SameMailKeeps(mid, w, post, w');
  }

  lemma LiveChangeReplay(c: Core, w: Watch, d: Core)
    requires ReplayInv(c, w)
    requires d == c.(live := d.live, nextClient := d.nextClient) && d.nextClient >= c.nextClient
    requires d.live <= c.live || d.live == c.live + {c.nextClient}
    ensures ReplayInv(d, w) && ValidMessages(d.db)
  {
    hide ValidMessages, Increasing, ReplayableTo;
    forall m, who | m in d.db.messages && who in d.db.clients
      ensures NotLost(d, w, m, who)
    {
      assert NotLost(c, w, m, who);
    }
    forall k | LiveSession(d, k)
      ensures SessionInv(d, w, k)
    {
      assert LiveSession(c, k) && SessionInv(c, w, k);
      assert Accounted(d, w, c.sessions[k], w.base[k]) by { SameAccounted(c, d, w, c.sessions[k], w.base[k]); }
    }
  }

  lemma QuietKeeps(c: Core, w: Watch, i: Input, now: Clock)
    requires ReplayInv(c, w) && !Registers(c, i) && SameMail(c, Step(c, i, now))
    ensures ReplayInv(Step(c, i, now), WatchStep(w, c, i, now))
  {
    hide Step, ReplayInv;
    QuietStepKeeps(c, w, i, now, c);
  }

  // ---------------------------------------------------------------------
  // Commands
  // ---------------------------------------------------------------------

  lemma RegisterStep(c: Core, w: Watch, cmd: ClientCommand, now: Clock)
    requires ReplayInv(c, w) && Registers(c, Command(cmd)) && cmd.client < c.nextClient && Orderly(c)
    ensures ReplayInv(Step(c, Command(cmd), now), WatchStep(w, c, Command(cmd), now))
  {
    hide RegisterSession, ServeOrForward, ReplayInv, Floor, MissedBy, Step, AppName, ValidMessages, StartAfter,
      ReplayedNow, ShownNow, Registered, BasesOf, SameSpeakers, Orderly, Learnt;
    var i := Command(cmd);
    var c1, post := RegisterSession(c, cmd, now), Step(c, i, now);
    var w1, w' := Registered(c, w, cmd, now), WatchStep(w, c, i, now);
    RegisterFirst(c, w, cmd, now);
    RegisterMail(c, cmd, now);
    RegisterRow(c, w, cmd, now);
    RegisterLastId(c, cmd, now);
    MessagesValid(c1, w1);
    SameMessages(c1.db, post.db);
    SeenBounded(c, w);
    KnownRows(c, w);
    WatchBounded(c, w, i, now);
    RegisterWatch(c, w, cmd, now);
    SameMailKeeps(c1, w1, post, w');
  }

  lemma RegisterFirst(c: Core, w: Watch, cmd: ClientCommand, now: Clock)
    requires ReplayInv(c, w) && Registers(c, Command(cmd)) && cmd.client < c.nextClient && Orderly(c)
    ensures ReplayInv(RegisterSession(c, cmd, now), Registered(c, w, cmd, now))
  {
    hide ReplayInv, RegisterSession, Registered;
    RegisterKeeps(c, w, cmd, now);
  }

  /** After the registration an APP_START leaves the mail alone. */
  lemma RegisterMail(c: Core, cmd: ClientCommand, now: Clock)
    requires Registers(c, Command(cmd))
    ensures var c1, post := RegisterSession(c, cmd, now), Step(c, Command(cmd), now);
            SameMail(c1, post) && SameSpeakers(c1, post)
  {
    hide RegisterSession, ServeOrForward;
    ServeOrForwardQuiet(RegisterSession(c, cmd, now), cmd, now);
  }

  lemma RegisterLastId(c: Core, cmd: ClientCommand, now: Clock)
    ensures RegisterSession(c, cmd, now).db.lastId == c.db.lastId
  {
    hide MissedBy, AppName;
  }

  lemma RegisterWatch(c: Core, w: Watch, cmd: ClientCommand, now: Clock)
    requires Registers(c, Command(cmd)) && c.db.clients.Keys <= w.start.Keys
    requires var post, c1, who := Step(c, Command(cmd), now), RegisterSession(c, cmd, now), WhoIs(cmd);
             post.db.clients == c1.db.clients && post.db.lastId == c.db.lastId
             && c1.db.clients.Keys == c.db.clients.Keys + {who}
             && SameSpeakers(c1, post)
             && forall x :: x in WatchStep(w, c, Command(cmd), now).seen ==> x.1 <= c1.db.lastId
    ensures Learnt(RegisterSession(c, cmd, now), Registered(c, w, cmd, now), WatchStep(w, c, Command(cmd), now))
  {
    var base := w.base[cmd.client := Floor(c, cmd, now)];
    if WhoIs(cmd) !in c.db.clients {
      SameBases(RegisterSession(c, cmd, now), Step(c, Command(cmd), now), base, WhoIs(cmd));
    }
    hide Step, RegisterSession, Floor, AppName, ReplayedNow, ShownNow, BasesOf;
  }

  lemma {:induction false} ServeEvent(c: Core, k: ClientId, now: Clock)
    requires LiveSession(c, k)
    ensures ServeMissed(c, k, now).1 <==> ServedId(c, k) != []
    ensures ServedId(c, k) == [] ==> ServeMissed(c, k, now).0.out == c.out
    ensures var d, ids := ServeMissed(c, k, now).0, ServedId(c, k);
            c.out <= d.out && d.live == c.live && k in d.sessions && d.sessions[k].who == c.sessions[k].who
            && (ids != [] ==> |ids| == 1 && |d.out| == |c.out| + 1
                              && d.out[|c.out|].ToClient? && d.out[|c.out|].client == k
                              && d.out[|c.out|].kind == Missed(ids[0]))
    decreases |c.sessions[k].pending|
  {
    var s := c.sessions[k];
    if s.pending != [] {
      hide MessageFrame, Wire;
      var id, c1 := s.pending[0], c.(sessions := c.sessions[k := s.(pending := s.pending[1..])]);
      if MessageFrame(c1.db, id).None? {
        ServeEvent(c1, k, now);
      }
    }
  }

  lemma ReplayEvent(c: Core, k: ClientId, now: Clock)
    requires LiveSession(c, k)
    ensures ReplayNextMissed(c, k, now).1 <==> ServedId(c, k) != []
    ensures ServedId(c, k) == [] ==> ReplayNextMissed(c, k, now).0.out == c.out
    ensures var d, ids := ReplayNextMissed(c, k, now).0, ServedId(c, k);
            c.out <= d.out && d.live == c.live && k in d.sessions && d.sessions[k].who == c.sessions[k].who
            && (ids != [] ==> |ids| == 1 && |d.out| == |c.out| + 1
                              && d.out[|c.out|].ToClient? && d.out[|c.out|].client == k
                              && d.out[|c.out|].kind == Missed(ids[0]))
  {
    ServeEvent(c, k, now);
    hide ServeMissed, ServedId, MessageHead;
  }

  lemma ServedBounded(c: Core, w: Watch, k: ClientId)
    requires ReplayInv(c, w) && LiveSession(c, k)
    ensures forall id :: id in ServedId(c, k) ==> id <= c.db.lastId
  {
    PendingBounded(c, w, k);
    hide ReplayInv;
    ServedPending(c, k);
  }

  lemma {:induction false} ServedPending(c: Core, k: ClientId)
    requires k in c.sessions
    ensures forall id :: id in ServedId(c, k) ==> id in c.sessions[k].pending
    decreases |c.sessions[k].pending|
  {
    var s := c.sessions[k];
    if s.pending != [] && MessageFrame(c.db, s.pending[0]).None? {
      hide MessageFrame;
      ServedPending(c.(sessions := c.sessions[k := s.(pending := s.pending[1..])]), k);
    }
  }

  /** A GET_MSG is answered from the log, or forwarded, which leaves the mail alone. */
  lemma ReplayThenForward(c: Core, cmd: ClientCommand, now: Clock)
    requires LiveSession(c, cmd.client) && cmd.payload != [] && cmd.payload[0] == 0x0A
    ensures QuietMail(ReplayNextMissed(c, cmd.client, now).0, HandleClientCommand(c, cmd, now))
  {
    hide ServeOrForward, ReplayNextMissed;
    ServeOrForwardQuiet(ReplayNextMissed(c, cmd.client, now).0, cmd, now);
  }

  lemma ReplayStep(c: Core, w: Watch, cmd: ClientCommand, now: Clock)
    requires ReplayInv(c, w) && LiveSession(c, cmd.client) && cmd.payload != [] && cmd.payload[0] == 0x0A
    ensures ReplayInv(Step(c, Command(cmd), now), WatchStep(w, c, Command(cmd), now))
  {
    hide ReplayNextMissed, ServedId, ReplayInv, Step, ValidMessages, Serving, StartAfter, ReplayedNow, ShownNow;
    var i, k := Command(cmd), cmd.client;
    var who, ids := c.sessions[k].who, ServedId(c, k);
    var c1, post := ReplayNextMissed(c, k, now).0, Step(c, i, now);
    var w1, w' := Serving(c, w, who, ids), WatchStep(w, c, i, now);
    CommandStep(c, cmd, now);
    ReplayThenForward(c, cmd, now);
    ReplayKeeps(c, w, k, now);
    ReplayEvent(c, k, now);
    ReplaySpeakers(c, k, now);
    ServedBounded(c, w, k);
    MessagesValid(c1, w1);
    SameMessages(c1.db, post.db);
    SeenBounded(c, w);
    KnownRows(c, w);
    WatchBounded(c, w, i, now);
    if ids != [] {
      assert ids[0] in ids;
      assert post.out[|c.out|] == c1.out[|c.out|];
    }
    ServingLearnt(c, w, post, ids, k);
    ServingBase(c, w, who, ids);
    assert Learnt(c1, w1, w');
    SameMailKeeps(c1, w1, post, w');
  }

  lemma {:induction false} ServeSpeakers(c: Core, k: ClientId, now: Clock)
    requires LiveSession(c, k)
    ensures SameSpeakers(c, ServeMissed(c, k, now).0)
    decreases |c.sessions[k].pending|
  {
    var s := c.sessions[k];
    if s.pending != [] && MessageFrame(c.db, s.pending[0]).None? {
      hide MessageFrame;
      ServeSpeakers(c.(sessions := c.sessions[k := s.(pending := s.pending[1..])]), k, now);
    }
  }

  lemma ReplaySpeakers(c: Core, k: ClientId, now: Clock)
    requires LiveSession(c, k)
    ensures SameSpeakers(c, ReplayNextMissed(c, k, now).0)
  {
    ServeSpeakers(c, k, now);
    hide ServeMissed, MessageHead;
  }

  lemma ServingBase(c: Core, w: Watch, who: Identity, ids: seq<int>)
    ensures Serving(c, w, who, ids).base == w.base
  {
  }

  lemma KnownRows(c: Core, w: Watch)
    requires ReplayInv(c, w)
    ensures c.db.clients.Keys <= w.start.Keys
  {
  }

  lemma ServingLearnt(c: Core, w: Watch, post: Core, ids: seq<int>, k: ClientId)
    requires LiveSession(c, k) && k in post.sessions && post.sessions[k].who == c.sessions[k].who
             && SameSpeakers(c, post)
    requires c.db.clients.Keys <= w.start.Keys && post.db.lastId == c.db.lastId
    requires post.db.clients.Keys <= c.db.clients.Keys + {c.sessions[k].who}
    requires |c.out| <= |post.out|
    requires ids != [] ==> |ids| == 1 && ids[0] <= c.db.lastId && |post.out| > |c.out|
                           && post.out[|c.out|].ToClient? && post.out[|c.out|].client == k
                           && post.out[|c.out|].kind == Missed(ids[0])
    ensures var w1 := Serving(c, w, c.sessions[k].who, ids);
            w1.seen <= w.seen + ReplayedNow(c, post)
            && StartAfter(w, w.base, c, post).Keys == post.db.clients.Keys
            && forall x :: x in post.db.clients ==> x in w1.start && StartAfter(w, w.base, c, post)[x] == w1.start[x]
  {
    var who := c.sessions[k].who;
    SameBases(c, post, w.base, who);
    hide BasesOf;
    if ids != [] {
      var e := post.out[|c.out|];
      assert News(c, post)[0] == e && e in News(c, post);
      assert (who, ids[0]) in ReplayedNow(c, post);
    }
  }

  lemma OtherCommandQuiet(c: Core, cmd: ClientCommand, now: Clock)
    requires !Registers(c, Command(cmd))
    requires cmd.payload != [] && cmd.payload[0] == 0x0A && cmd.client in c.live ==> cmd.client !in c.sessions
    ensures SameMail(c, HandleClientCommand(c, cmd, now))
  {
    if cmd.payload != [] && cmd.client in c.live {
      hide ServeOrForward, RegisterSession;
      var c1 := NoteCommand(c, cmd, now);
      ServeOrForwardQuiet(c1, cmd, now);
    }
  }

  lemma CommandKeepsReplay(c: Core, w: Watch, cmd: ClientCommand, now: Clock)
    requires ReplayInv(c, w) && Orderly(c) && (forall k :: k in c.live ==> k < c.nextClient)
    ensures ReplayInv(Step(c, Command(cmd), now), WatchStep(w, c, Command(cmd), now))
  {
    hide ReplayInv, Step, WatchStep;
    if Registers(c, Command(cmd)) {
      RegisterStep(c, w, cmd, now);
    } else if cmd.payload != [] && cmd.payload[0] == 0x0A && LiveSession(c, cmd.client) {
      ReplayStep(c, w, cmd, now);
    } else {
      OtherCommandQuiet(c, cmd, now);
      CommandStep(c, cmd, now);
      QuietKeeps(c, w, Command(cmd), now);
    }
  }

  // ---------------------------------------------------------------------
  // Frames from the radio
  // ---------------------------------------------------------------------

  /** Some connection of the identity of `k` is shown the frame. */
  ghost predicate Reached(c: Core, post: Core, k: ClientId, frame: Frame)
    requires k in c.sessions
  {
    exists j :: LiveSession(c, j) && c.sessions[j].who == c.sessions[k].who && Shown(News(c, post), j, frame)
  }

  /** The step stores one message, and every identity with a live session is shown it. */
  ghost predicate StoresOnce(c: Core, e: Core, timestamp: int, frame: Frame, origin: Option<Identity>, now: Clock,
                             post: Core) {
    && SameMail(c, e)
    && SameMail(StoreMessage(e, timestamp, frame, origin, now), post)
    && forall k :: LiveSession(c, k) ==> Reached(c, post, k, frame)
  }

  lemma StoreStep(c: Core, w: Watch, i: Input, now: Clock, e: Core, timestamp: int, frame: Frame,
                  origin: Option<Identity>)
    requires ReplayInv(c, w) && !Registers(c, i)
    requires StoresOnce(c, e, timestamp, frame, origin, now, Step(c, i, now))
    ensures ReplayInv(Step(c, i, now), WatchStep(w, c, i, now))
  {
    hide Step, AdvanceAll, CaughtUp, ValidMessages, SessionInv, NothingLost;
    var post, w' := Step(c, i, now), WatchStep(w, c, i, now);
    SeenBounded(c, w);
    KnownRows(c, w);
    SameMailKeeps(c, w, e, w);
    var d := StoreMessage(e, timestamp, frame, origin, now);
    StoreResult(e, timestamp, frame, origin, now);
    MessagesValid(e, w);
    InsertedValid(e.db, timestamp, frame, origin, now.unix);
    SameMessages(e.db.(messages := d.db.messages, lastId := d.db.lastId), post.db);
    WatchBounded(c, w, i, now);
    StoreSeen(w, c, i, now, frame);
    StoreLearnt(c, w, i, now, e);
    StoreKeeps(e, w, timestamp, frame, origin, now, w');
    SameMailKeeps(d, w', post, w');
  }

  lemma StoreResult(e: Core, timestamp: int, frame: Frame, origin: Option<Identity>, now: Clock)
    ensures var d := StoreMessage(e, timestamp, frame, origin, now);
            d.db.lastId == e.db.lastId + 1
            && d.db.messages
            == e.db.messages + [Message(e.db.lastId + 1, timestamp, Some(now.unix), Some(frame), origin)]
            && (forall k :: k in d.sessions <==> LiveSession(e, k))
            && (forall k :: k in d.sessions ==> d.sessions[k] == e.sessions[k])
            && d.db.clients.Keys == e.db.clients.Keys + CaughtUpLive(e)
            && d.live == e.live && d.nextClient == e.nextClient && d.conf == e.conf && d.out == e.out
            && d.path == e.path
  {
    var c1 := e.(db := InsertMessage(e.db, timestamp, frame, origin, now.unix));
    var w := Watch(map who | who in CaughtUpLive(c1) :: c1.db.lastId as int, map[], {});
    FollowMoves(c1, w, now);
    hide AdvanceAll, CaughtUp;
  }

  /** The onlooker notes that every identity with a live session has seen the new message. */
  lemma StoreSeen(w: Watch, c: Core, i: Input, now: Clock, frame: Frame)
    requires var post := Step(c, i, now);
             post.db.lastId == c.db.lastId + 1 && post.db.messages != []
             && post.db.messages[|post.db.messages| - 1].id == c.db.lastId + 1
             && post.db.messages[|post.db.messages| - 1].frame == Some(frame)
             && (forall k :: LiveSession(c, k) ==> k in post.sessions && post.sessions[k] == c.sessions[k]
                                                   && Reached(c, post, k, frame))
    ensures forall k :: LiveSession(c, k) ==> (c.sessions[k].who, c.db.lastId + 1) in WatchStep(w, c, i, now).seen
  {
    hide Step, Shown, ReplayedNow, News, StartAfter;
    var post := Step(c, i, now);
    forall k | LiveSession(c, k)
      ensures (c.sessions[k].who, c.db.lastId + 1) in WatchStep(w, c, i, now).seen
    {
      var j :| LiveSession(c, j) && c.sessions[j].who == c.sessions[k].who && Shown(News(c, post), j, frame);
      assert (post.sessions[j].who, c.db.lastId + 1) in ShownNow(c, post);
    }
  }

  lemma StoreLearnt(c: Core, w: Watch, i: Input, now: Clock, e: Core)
    requires c.db.clients.Keys <= w.start.Keys && !Registers(c, i) && CaughtUpLive(e) == CaughtUpLive(c)
    requires var post := Step(c, i, now);
             post.db.clients.Keys == c.db.clients.Keys + CaughtUpLive(c) && SameSpeakers(e, post)
    ensures var w' := WatchStep(w, c, i, now);
            w'.base == w.base && w.seen <= w'.seen
            && (forall who :: who in c.db.clients ==> who in w'.start && w'.start[who] == w.start[who])
            && forall who :: who in CaughtUpLive(e) && who !in c.db.clients ==> StartsAbove(e, w', who)
  {
    hide Step, ShownNow, ReplayedNow, BasesOf;
    var w' := WatchStep(w, c, i, now);
    forall who | who in CaughtUpLive(e) && who !in c.db.clients
      ensures StartsAbove(e, w', who)
    {
      SameBases(e, Step(c, i, now), w.base, who);
      HighestStartsAbove(e, w', who);
    }
  }

  lemma ShownBy(news: seq<Event>, j: nat, k: ClientId, frame: Frame)
    requires j < |news| && Shows(news[j], k, frame)
    ensures Shown(news, k, frame)
  {
  }

  lemma PassOnShows(c: Core, f: InFlight, p: Command, now: Clock, k: ClientId)
    requires k in c.live && f.client == Some(k)
    ensures c.out <= PassOn(c, f, p, now).out && Shown(PassOn(c, f, p, now).out[|c.out|..], k, p)
  {
    StashAckOnly(c, p, now);
    hide StashAck, Wire;
    var news := PassOn(c, f, p, now).out[|c.out|..];
    assert news[0].ToClient?;
    ShownBy(news, 0, k, p);
  }

  lemma SpreadShows(c: Core, exclude: Option<ClientId>, p: Frame, k: ClientId)
    requires k in c.live && exclude != Some(k)
    ensures Shown(BroadcastToOthers(c, exclude, p, Heard).out[|c.out|..], k, p)
  {
    hide Wire;
    var news := BroadcastToOthers(c, exclude, p, Heard).out[|c.out|..];
    assert news[0].ToOthers?;
    ShownBy(news, 0, k, p);
  }

  /** A message on its way to the originator of a GET_MSG is fanned out; on its way to the only identified
      client it needs no fan-out. */
  lemma ForwardShows(c: Core, f: InFlight, p: Command, now: Clock, k: ClientId)
    requires k in c.live && IsMessageCode(p[0])
    requires f.payload[0] == 0x0A || f.client == Some(k)
    ensures c.out <= Forward(c, f, p, now).out
            && Shown(Forward(c, f, p, now).out[|c.out|..], k, p)
  {
    var c0 := AppendRouted(c, p);
    var c1, d := PassOn(c0, f, p, now), Forward(c, f, p, now);
    PassOnOnly(c0, f, p, now);
    PassOnGrows(c0, f, p, now);
    ForwardQuiet(c, f, p, now);
    hide PassOn, Shown, Wire;
    if f.client == Some(k) {
      PassOnShows(c0, f, p, now, k);
      ShownLater(c.out, c1.out, d.out, k, p);
    } else {
      SpreadShows(c1, f.client, p, k);
      ShownSooner(c.out, c1.out, d.out, k, p);
    }
  }

  /** A request in whose reply a message may come has no echo. */
  lemma MessageReplyHasNoEcho(c: Core, done: InFlight, p: Command, now: Clock)
    requires done.awaiting == AwaitingFor(done.payload) && done.awaiting.Belongs(p[0]) && IsMessageCode(p[0])
    ensures SynthesizeEcho(c, done, now) == c
  {
    hide StoreMessage, EchoFrame;
  }

  lemma AcceptedQuiet(c: Core, done: InFlight, p: Command, now: Clock)
    requires done.awaiting == AwaitingFor(done.payload) && done.awaiting.Belongs(p[0]) && IsMessageCode(p[0])
    ensures QuietMail(c, OnCommandAccepted(c, done, now))
  {
    hide SynthesizeEcho, ApplyAccepted, NotifyMissed, AwaitingFor;
    var c1 := if done.payload[0] == 0x01 && done.client.Some? then NotifyMissed(c, done.client.value) else c;
    if done.client.Some? {
      NotifyQuiet(c, done.client.value);
    }
    ApplyAcceptedQuiet(c1, done);
    MessageReplyHasNoEcho(ApplyAccepted(c1, done), done, p, now);
  }

  lemma MessageCompletesQuietly(c: Core, f: InFlight, p: Command, now: Clock)
    requires f.awaiting == AwaitingFor(f.payload) && f.awaiting.Belongs(p[0]) && IsMessageCode(p[0])
    ensures QuietMail(c, Complete(c, f, p, now))
  {
    hide AwaitingFor, AdvanceQueue, OnCommandAccepted;
    var c1 := Settle(WithSlot(c, None), f.Req(), Answered(CurrentFrames(c)));
    AcceptedQuiet(c1, f, p, now);
    AdvanceQuiet(OnCommandAccepted(c1, f, now), now);
  }

  lemma MessageRoute(c: Core, p: Command, now: Clock)
    requires BelongsToInFlight(c, p) && IsMessageCode(p[0])
    requires c.path.inFlight.value.awaiting == AwaitingFor(c.path.inFlight.value.payload)
    ensures QuietMail(c, RouteToInFlight(c, p, now))
    ensures forall k :: k in c.live && WouldHear(c, k) ==>
              Shown(RouteToInFlight(c, p, now).out[|c.out|..], k, p)
  {
    var f := c.path.inFlight.value;
    var c1, d := Forward(c, f, p, now), RouteToInFlight(c, p, now);
    ForwardQuiet(c, f, p, now);
    MessageCompletesQuietly(c1, f, p, now);
    hide Forward, Complete, AwaitingFor, Shown, Shows;
    assert c1.out <= d.out;
    forall k | k in c.live && WouldHear(c, k)
      ensures Shown(d.out[|c.out|..], k, p)
    {
      ForwardShows(c, f, p, now, k);
      ShownLater(c.out, c1.out, d.out, k, p);
    }
  }

  lemma ShownLater(a: seq<Event>, b: seq<Event>, d: seq<Event>, k: ClientId, frame: Frame)
    requires a <= b <= d && Shown(b[|a|..], k, frame)
    ensures Shown(d[|a|..], k, frame)
  {
    hide Shows;
    var j :| 0 <= j < |b[|a|..]| && Shows(b[|a|..][j], k, frame);
    assert d[|a|..][j] == b[|a|..][j];
  }

  /** A message is always taken by a request that would hear it. */
  lemma HeardBelongs(c: Core, k: ClientId, p: Command)
    requires SlotIsLastSent(c) && WouldHear(c, k) && IsMessageCode(p[0])
    ensures BelongsToInFlight(c, p)
  {
  }

  /** Whatever waits, a message frame changes the mail by being stored, once. */
  lemma MessageStored(c: Core, p: Command, now: Clock)
    requires Storable(p) && SlotIsLastSent(c)
    ensures QuietMail(StoreMessage(c, MessageTimestamp(p), p, None, now), HandleRadioRx(c, p, now))
    ensures forall k :: k in c.live && WouldHear(c, k) ==> Shown(News(c, HandleRadioRx(c, p, now)), k, p)
  {
    hide StoreMessage, MessageTimestamp;
    var c1, d := CacheResponse(c, p, now), HandleRadioRx(c, p, now);
    assert c1 == StoreMessage(c, MessageTimestamp(p), p, None, now);
    StoreResult(c, MessageTimestamp(p), p, None, now);
    hide CacheResponse, RouteToInFlight, AwaitingFor, Shown;
    if BelongsToInFlight(c1, p) {
      MessageRoute(c1, p, now);
      assert WouldHearAlike(c, c1);
      assert News(c, d) == d.out[|c.out|..];
    } else {
      forall k | k in c.live && WouldHear(c, k)
        ensures false
      {
        hide SlotIsLastSent;
        HeardBelongs(c, k, p);
      }
    }
  }

  lemma MessageArrives(c: Core, p: Command, now: Clock)
    requires Storable(p) && SlotIsLastSent(c) && AllWouldHear(c)
    ensures StoresOnce(c, c, MessageTimestamp(p), p, None, now, HandleRadioRx(c, p, now))
  {
    hide HandleRadioRx, StoreMessage, MessageTimestamp, Shown, SlotIsLastSent, WouldHear, News;
    MessageStored(c, p, now);
  }

  ghost predicate WouldHearAlike(c: Core, d: Core) {
    forall k :: WouldHear(c, k) == WouldHear(d, k)
  }

  lemma MessageKeeps(c: Core, w: Watch, p: Command, now: Clock)
    requires ReplayInv(c, w) && SlotIsLastSent(c) && Storable(p) && AllWouldHear(c)
    ensures ReplayInv(Step(c, Radio(p), now), WatchStep(w, c, Radio(p), now))
  {
    hide ReplayInv, SlotIsLastSent, AllWouldHear, Step, WatchStep, StoresOnce;
    RadioStep(c, p, now);
    MessageArrives(c, p, now);
    StoreStep(c, w, Radio(p), now, c, MessageTimestamp(p), p, None);
  }

  // ---------------------------------------------------------------------
  // Echoes
  // ---------------------------------------------------------------------

  /** The mail is left alone, or one message is stored that every live session is shown. */
  ghost predicate StoresAtMostOnce(c: Core, now: Clock, post: Core) {
    Unreplayed(c.out, post.out)
    && (SameMail(c, post)
        || exists e, timestamp, frame, origin :: StoresOnce(c, e, timestamp, frame, origin, now, post))
  }

  lemma StoresEarlier(c: Core, d: Core, now: Clock, post: Core)
    requires QuietMail(c, d) && StoresAtMostOnce(d, now, post)
    ensures StoresAtMostOnce(c, now, post)
  {
    hide StoresOnce;
    if !SameMail(d, post) {
      var e, timestamp, frame, origin :| StoresOnce(d, e, timestamp, frame, origin, now, post);
      StoresOnceEarlier(c, d, e, timestamp, frame, origin, now, post);
    }
  }

  lemma StoresOnceEarlier(c: Core, d: Core, e: Core, timestamp: int, frame: Frame, origin: Option<Identity>, now: Clock,
                          post: Core)
    requires QuietMail(c, d) && d.out <= post.out && StoresOnce(d, e, timestamp, frame, origin, now, post)
    ensures StoresOnce(c, e, timestamp, frame, origin, now, post)
  {
    hide Reached, StoreMessage;
    forall k | LiveSession(c, k)
      ensures Reached(c, post, k, frame)
    {
      assert LiveSession(d, k);
      ReachedSooner(c, d, post, k, frame);
    }
  }

  lemma ShownSooner(a: seq<Event>, b: seq<Event>, d: seq<Event>, k: ClientId, frame: Frame)
    requires a <= b <= d && Shown(d[|b|..], k, frame)
    ensures Shown(d[|a|..], k, frame)
  {
    hide Shows;
    var j :| 0 <= j < |d[|b|..]| && Shows(d[|b|..][j], k, frame);
    assert d[|a|..][j + |b| - |a|] == d[|b|..][j];
  }

  lemma ReachedSooner(c: Core, d: Core, post: Core, k: ClientId, frame: Frame)
    requires QuietMail(c, d) && d.out <= post.out && LiveSession(d, k) && Reached(d, post, k, frame)
    ensures Reached(c, post, k, frame)
  {
    hide Shown;
    var j :| LiveSession(d, j) && d.sessions[j].who == d.sessions[k].who && Shown(News(d, post), j, frame);
    ShownSooner(c.out, d.out, post.out, j, frame);
    assert LiveSession(c, j);
  }

  lemma ReachedLater(c: Core, d: Core, post: Core, k: ClientId, frame: Frame)
    requires c.out <= d.out <= post.out && LiveSession(c, k) && Reached(c, d, k, frame)
    ensures Reached(c, post, k, frame)
  {
    hide Shown;
    var j :| LiveSession(c, j) && c.sessions[j].who == c.sessions[k].who && Shown(News(c, d), j, frame);
    ShownLater(c.out, d.out, post.out, j, frame);
  }

  lemma StoresThenQuiet(c: Core, now: Clock, d: Core, post: Core)
    requires StoresAtMostOnce(c, now, d) && QuietMail(d, post)
    ensures StoresAtMostOnce(c, now, post)
  {
    hide StoresOnce;
    if !SameMail(c, d) {
      var e, timestamp, frame, origin :| StoresOnce(c, e, timestamp, frame, origin, now, d);
      StoresOnceLater(c, d, e, timestamp, frame, origin, now, post);
    }
  }

  lemma StoresOnceLater(c: Core, d: Core, e: Core, timestamp: int, frame: Frame, origin: Option<Identity>, now: Clock,
                        post: Core)
    requires QuietMail(d, post) && c.out <= d.out && StoresOnce(c, e, timestamp, frame, origin, now, d)
    ensures StoresOnce(c, e, timestamp, frame, origin, now, post)
  {
    hide Reached, StoreMessage;
    forall k | LiveSession(c, k)
      ensures Reached(c, post, k, frame)
    {
      ReachedLater(c, d, post, k, frame);
    }
  }

  /** The echo of a send reaches everyone, the sender by having sent it. */
  lemma EchoStores(c: Core, done: InFlight, now: Clock)
    ensures StoresAtMostOnce(c, now, SynthesizeEcho(c, done, now))
  {
    if done.client.Some? && IsWellFormedSend(done.payload) && c.mem.pubkey.Some? {
      hide StoreMessage, EchoFrame, Shown;
      var echo := EchoFrame(c, done.payload);
      var e := BroadcastToOthers(c, done.client, echo, Echoed(done.Req()));
      var post := SynthesizeEcho(c, done, now);
      StoreResult(e, U32(done.payload, 3), echo, done.origin, now);
      forall k | LiveSession(c, k)
        ensures Reached(c, post, k, echo)
      {
        assert News(c, post)[0] == e.out[|c.out|];
        ShownBy(News(c, post), 0, k, echo);
      }
      assert StoresOnce(c, e, U32(done.payload, 3), echo, done.origin, now, post);
    }
  }

  lemma AcceptedStores(c: Core, done: InFlight, now: Clock)
    ensures StoresAtMostOnce(c, now, OnCommandAccepted(c, done, now))
  {
    hide SynthesizeEcho, ApplyAccepted, NotifyMissed, StoresAtMostOnce;
    var c1 := if done.payload[0] == 0x01 && done.client.Some? then NotifyMissed(c, done.client.value) else c;
    if done.client.Some? {
      NotifyQuiet(c, done.client.value);
    }
    ApplyAcceptedQuiet(c1, done);
    EchoStores(ApplyAccepted(c1, done), done, now);
    StoresEarlier(c, ApplyAccepted(c1, done), now, OnCommandAccepted(c, done, now));
  }

  lemma CompleteStores(c: Core, f: InFlight, p: Command, now: Clock)
    ensures StoresAtMostOnce(c, now, Complete(c, f, p, now))
  {
    hide AdvanceQueue, OnCommandAccepted, StoresOnce;
    var c1 := Settle(WithSlot(c, None), f.Req(), Answered(CurrentFrames(c)));
    var c2 := if IsError(p) then c1 else OnCommandAccepted(c1, f, now);
    AcceptedStores(c1, f, now);
    AdvanceQuiet(c2, now);
    hide StoresAtMostOnce;
    assert StoresAtMostOnce(c1, now, c2) by { NothingStored(c1, now); }
    StoresThenQuiet(c1, now, c2, Complete(c, f, p, now));
    StoresEarlier(c, c1, now, Complete(c, f, p, now));
  }

  lemma NothingStored(c: Core, now: Clock)
    ensures StoresAtMostOnce(c, now, c)
  {
  }

  lemma RouteStores(c: Core, p: Command, now: Clock)
    requires BelongsToInFlight(c, p)
    ensures StoresAtMostOnce(c, now, RouteToInFlight(c, p, now))
  {
    hide Forward, Complete, StoresOnce;
    var f := c.path.inFlight.value;
    var c1 := Forward(c, f, p, now);
    ForwardQuiet(c, f, p, now);
    if f.awaiting.Completes(p[0]) {
      CompleteStores(c1, f, p, now);
      hide StoresAtMostOnce;
      StoresEarlier(c, c1, now, RouteToInFlight(c, p, now));
    }
  }

  /** A frame that is not itself a message stores at most the echo of the send it accepts. */
  lemma OtherFrameStores(c: Core, p: Command, now: Clock)
    requires !Storable(p)
    ensures StoresAtMostOnce(c, now, HandleRadioRx(c, p, now))
  {
    hide CacheResponse, RouteToInFlight, RouteAck, HandlePush, StoresAtMostOnce;
    var c1, d := CacheResponse(c, p, now), HandleRadioRx(c, p, now);
    CacheResponseQuiet(c, p, now);
    if BelongsToInFlight(c1, p) {
      RouteStores(c1, p, now);
    } else if MatchesAck(c1, p) {
      AckQuiet(c1, p);
      QuietStores(c1, now, d);
    } else if IsPush(p[0]) {
      PushQuiet(c1, p, now);
      QuietStores(c1, now, d);
    } else {
      QuietStores(c1, now, d);
    }
    StoresEarlier(c, c1, now, d);
  }

  lemma AckQuiet(c: Core, p: Command)
    requires MatchesAck(c, p)
    ensures QuietMail(c, RouteAck(c, p))
  {
  }

  lemma QuietStores(c: Core, now: Clock, d: Core)
    requires QuietMail(c, d)
    ensures StoresAtMostOnce(c, now, d)
  {
  }

  lemma OtherFrameKeeps(c: Core, w: Watch, p: Frame, now: Clock)
    requires ReplayInv(c, w) && (p != [] ==> !Storable(p))
    ensures ReplayInv(Step(c, Radio(p), now), WatchStep(w, c, Radio(p), now))
  {
    hide ReplayInv, Step, WatchStep, HandleRadioRx, StoresOnce;
    RadioStep(c, p, now);
    if p == [] {
      NothingArrives(c, now);
      QuietKeeps(c, w, Radio(p), now);
    } else {
      OtherFrameStores(c, p, now);
      if SameMail(c, HandleRadioRx(c, p, now)) {
        QuietKeeps(c, w, Radio(p), now);
      } else {
        var e, timestamp, frame, origin :| StoresOnce(c, e, timestamp, frame, origin, now, HandleRadioRx(c, p, now));
        StoreStep(c, w, Radio(p), now, e, timestamp, frame, origin);
      }
    }
  }

  // ---------------------------------------------------------------------
  // Maintenance
  // ---------------------------------------------------------------------

  /** Purging messages and forgotten clients takes promises away, it breaks none. */
  lemma PurgeKeeps(c: Core, w: Watch, now: Clock)
    requires ReplayInv(c, w)
    ensures ReplayInv(c.(db := Maintain(c.db, c.conf.retention, now.unix)), w)
  {
    var d := c.(db := Maintain(c.db, c.conf.retention, now.unix));
    MaintainKeepsMessages(c.db, c.conf.retention, now.unix);
    PurgedClients(c.db, c.conf.retention, now.unix);
    hide ValidMessages, Increasing, ReplayableTo, Maintain;
    forall m, who | m in d.db.messages && who in d.db.clients
      ensures NotLost(d, w, m, who)
    {
      assert NotLost(c, w, m, who);
    }
    forall k | LiveSession(d, k)
      ensures SessionInv(d, w, k)
    {
      assert LiveSession(c, k) && SessionInv(c, w, k);
      forall m | m in d.db.messages
        ensures Covered(w, c.sessions[k], w.base[k], m)
      {
      }
    }
  }

  lemma PurgedClients(t: Tables, r: Retention, now: int)
    ensures var u := Maintain(t, r, now);
            u.clients.Keys <= t.clients.Keys && u.lastId == t.lastId
            && forall who :: who in u.clients ==> u.clients[who] == t.clients[who]
  {
    hide KeptMessages, KeptContacts;
  }

  lemma MaintenanceKeepsReplay(c: Core, w: Watch, now: Clock)
    requires ReplayInv(c, w)
    ensures ReplayInv(Step(c, MaintenanceTick, now), WatchStep(w, c, MaintenanceTick, now))
  {
    var post, w' := Step(c, MaintenanceTick, now), WatchStep(w, c, MaintenanceTick, now);
    var c1 := RequestFullSync(c, now);
    RequestFullSyncQuiet(c, now);
    hide RequestFullSync, Maintain, ReplayInv;
    assert post == c1.(db := Maintain(c1.db, c1.conf.retention, now.unix));
    SeenBounded(c, w);
    KnownRows(c, w);
    SameMailKeeps(c, w, c1, w);
    PurgeKeeps(c1, w, now);
    PurgedClients(c1.db, c1.conf.retention, now.unix);
    MessagesValid(post, w);
    hide ValidMessages, Step;
    WatchBounded(c, w, MaintenanceTick, now);
    SameMailKeeps(post, w, post, w');
  }

  // ---------------------------------------------------------------------
  // All steps, all runs
  // ---------------------------------------------------------------------

  lemma ReconnectKeepsReplay(c: Core, w: Watch, r: Reconnection, now: Clock)
    requires ReplayInv(c, w)
    ensures ReplayInv(Step(c, Reconnect(r), now), WatchStep(w, c, Reconnect(r), now))
  {
    hide ReplayInv, ReconnectRadio, WatchStep;
    ReconnectQuiet(c, r, now);
    QuietStepKeeps(c, w, Reconnect(r), now, c.(live := c.live - r.left));
  }

  lemma StepKeepsReplay(c: Core, w: Watch, i: Input, now: Clock)
    requires ReplayInv(c, w) && PathInv(c) && Orderly(c) && Fair(c, i, now)
    ensures ReplayInv(Step(c, i, now), WatchStep(w, c, i, now))
  {
    hide ReplayInv, HandleClientCommand, HandleRadioRx, CheckInFlightTimeout, RunMaintenance, ReconnectRadio, WatchStep,
      Conserved, Fifo, Told, ClockOk, AllWouldHear, Orderly;
    match i {
      case Connect => QuietStepKeeps(c, w, i, now, Step(c, i, now));
      case Disconnect(_) => QuietStepKeeps(c, w, i, now, Step(c, i, now));
      case Command(cmd) => CommandKeepsReplay(c, w, cmd, now);
      case Radio(p) =>
        if p != [] && Storable(p) {
          MessageKeeps(c, w, p, now);
        } else {
          OtherFrameKeeps(c, w, p, now);
        }
      case TimeoutTick =>
        TimeoutQuiet(c, now);
        QuietKeeps(c, w, i, now);
      case MaintenanceTick => MaintenanceKeepsReplay(c, w, now);
      case LinkCloses => QuietKeeps(c, w, i, now);
      case Reconnect(how) => ReconnectKeepsReplay(c, w, how, now);
    }
  }

  // ---------------------------------------------------------------------
  // Arrival times
  // ---------------------------------------------------------------------

  /** Messages are only ever appended, stamped with the present, or purged. */
  ghost predicate GrowsBy(c: Core, now: Clock, post: Core) {
    post.db.messages == c.db.messages
    || (|post.db.messages| == |c.db.messages| + 1
        && c.db.messages == post.db.messages[..|c.db.messages|]
        && post.db.messages[|c.db.messages|].receivedAt == Some(now.unix))
  }

  lemma StoresGrow(c: Core, e: Core, timestamp: int, frame: Frame, origin: Option<Identity>, now: Clock, post: Core)
    requires SameMail(c, e) && SameMail(StoreMessage(e, timestamp, frame, origin, now), post)
    ensures GrowsBy(c, now, post) && post.conf == c.conf
  {
    StoreResult(e, timestamp, frame, origin, now);
    hide StoreMessage;
  }

  lemma RadioGrows(c: Core, p: Frame, now: Clock)
    requires SlotIsLastSent(c)
    ensures GrowsBy(c, now, HandleRadioRx(c, p, now)) && HandleRadioRx(c, p, now).conf == c.conf
  {
    if p != [] {
      if Storable(p) {
        MessageStored(c, p, now);
        hide HandleRadioRx, MessageTimestamp, SlotIsLastSent;
        StoresGrow(c, c, MessageTimestamp(p), p, None, now, HandleRadioRx(c, p, now));
      } else {
        OtherFrameStores(c, p, now);
        hide HandleRadioRx, MessageTimestamp, SlotIsLastSent, Reached;
        var post := HandleRadioRx(c, p, now);
        if !SameMail(c, post) {
          var e, timestamp, frame, origin :| StoresOnce(c, e, timestamp, frame, origin, now, post);
          StoresGrow(c, e, timestamp, frame, origin, now, post);
        }
      }
    }
  }

  lemma {:induction false} ServeKeepsMessages(c: Core, k: ClientId, now: Clock)
    requires k in c.sessions
    ensures ServeMissed(c, k, now).0.db.messages == c.db.messages && ServeMissed(c, k, now).0.conf == c.conf
            && ServeMissed(c, k, now).0.db.lastId == c.db.lastId
    decreases |c.sessions[k].pending|
  {
    var s := c.sessions[k];
    if s.pending != [] && MessageFrame(c.db, s.pending[0]).None? {
      hide MessageFrame;
      ServeKeepsMessages(c.(sessions := c.sessions[k := s.(pending := s.pending[1..])]), k, now);
    }
  }

  lemma CommandKeepsMessages(c: Core, cmd: ClientCommand, now: Clock)
    ensures var d := HandleClientCommand(c, cmd, now);
            d.db.messages == c.db.messages && d.conf == c.conf && d.db.lastId == c.db.lastId
  {
    if cmd.payload != [] && cmd.client in c.live {
      hide ServeOrForward, MissedBy, AppName, ServeMissed, MessageHead;
      var c1 := NoteCommand(c, cmd, now);
      if cmd.client in c1.sessions {
        ServeKeepsMessages(c1, cmd.client, now);
      }
      var c2 := if cmd.payload[0] == 0x0A then ReplayNextMissed(c1, cmd.client, now).0 else c1;
      ServeOrForwardQuiet(c2, cmd, now);
    }
  }

  lemma {:induction false} FilterArrivals(t: Tables, u: Tables, keep: Message -> bool)
    requires ArrivalOrder(t) && u.messages == Filter(t.messages, keep)
    ensures ArrivalOrder(u)
    decreases |t.messages|
  {
    if t.messages != [] {
      var n := |t.messages| - 1;
      var front, last := t.(messages := t.messages[..n]), t.messages[n];
      var kept := u.(messages := Filter(front.messages, keep));
      FilterArrivals(front, kept, keep);
      forall i | 0 <= i < |kept.messages| && kept.messages[i].receivedAt.Some?
        ensures last.receivedAt.Some? && kept.messages[i].receivedAt.value <= last.receivedAt.value
      {
        FilterMember(front.messages, keep, kept.messages[i]);
        var j :| 0 <= j < n && t.messages[j] == kept.messages[i];
      }
    }
  }

  lemma StepOrderly(c: Core, i: Input, now: Clock)
    requires PathInv(c) && Orderly(c) && ClockOk(c, now)
    ensures Orderly(Step(c, i, now))
  {
    hide HandleClientCommand, HandleRadioRx, CheckInFlightTimeout, RequestFullSync, ReconnectRadio,
      Conserved, Fifo, Told, SlotIsLastSent, KeptContacts, KeptClients;
    match i {
      case Connect =>
      case Disconnect(_) =>
      case Command(cmd) => CommandKeepsMessages(c, cmd, now);
      case Radio(p) => RadioGrows(c, p, now);
      case TimeoutTick => TimeoutQuiet(c, now);
      case MaintenanceTick =>
        RequestFullSyncQuiet(c, now);
        if c.conf.backlog.Seconds? && c.conf.retention.messagesDays != 0 {
          var keep := (m: Message) => ArrivedAt(m) >= Cutoff(now.unix, c.conf.retention.messagesDays);
          FilterArrivals(c.db, Step(c, i, now).db, keep);
        }
      case LinkCloses =>
      case Reconnect(how) => ReconnectQuiet(c, how, now);
    }
  }

  // ---------------------------------------------------------------------
  // Runs
  // ---------------------------------------------------------------------

  ghost predicate FairRun(c: Core, steps: seq<Timed>) {
    forall n :: 0 <= n < |steps| ==> Fair(Run(c, steps[..n]), steps[n].input, steps[n].now)
  }

  lemma {:induction false} RunKeepsReplay(c: Core, w: Watch, steps: seq<Timed>)
    requires ReplayInv(c, w) && PathInv(c) && Orderly(c) && FairRun(c, steps)
    ensures ReplayInv(Run(c, steps), WatchRun(c, w, steps))
            && PathInv(Run(c, steps)) && Orderly(Run(c, steps))
  {
    hide ReplayInv, PathInv, Orderly, Step, WatchStep, ClockOk, AllWouldHear;
    if steps != [] {
      var n := |steps| - 1;
      var before, last := steps[..n], steps[n];
      assert FairRun(c, before) by { FairPrefix(c, steps); }
      RunKeepsReplay(c, w, before);
      var d := Run(c, before);
      assert Fair(d, last.input, last.now);
      StepKeepsReplay(d, WatchRun(c, w, before), last.input, last.now);
      StepKeeps(d, last.input, last.now);
      StepOrderly(d, last.input, last.now);
    }
  }

  lemma FairPrefix(c: Core, steps: seq<Timed>)
    requires FairRun(c, steps) && steps != []
    ensures FairRun(c, steps[..|steps| - 1])
  {
    hide Run, Fair;
    var before := steps[..|steps| - 1];
    forall n | 0 <= n < |before|
      ensures Fair(Run(c, before[..n]), before[n].input, before[n].now)
    {
      assert before[..n] == steps[..n];
    }
  }

  /** A database as some earlier run may have left it. */
  ghost predicate SoundTables(t: Tables) {
    ValidMessages(t) && forall who :: who in t.clients ==> t.clients[who].lastSeen <= t.lastId
  }

  lemma StartMail(retention: Retention, backlog: Backlog, db: Tables, r: Reconnection, now: Clock)
    ensures var c := Start(retention, backlog, db, r, now);
            c.sessions == map[] && c.db.messages == db.messages && c.db.lastId == db.lastId
            && c.db.clients == db.clients && c.conf.backlog == backlog && c.live == {} && c.nextClient == 1
  {
    var f := Fresh(retention, backlog, db);
    ReconnectQuiet(f, r, now);
    hide ReconnectRadio, RestoreBlobs;
    RestoreOnlyMemory(ReconnectRadio(f, r, now));
  }

  lemma StartReplay(retention: Retention, backlog: Backlog, db: Tables, r: Reconnection, now: Clock)
    requires SoundTables(db) && (backlog.Seconds? ==> ArrivalOrder(db))
    ensures var c := Start(retention, backlog, db, r, now);
            ReplayInv(c, WatchFrom(c)) && Orderly(c)
  {
    hide Start, Increasing;
    StartMail(retention, backlog, db, r, now);
  }

  /** Over every run from any database, in which message frames arrive only while every identity with a live
      connection would hear them: a retained message that an identity may be replayed, above where its promise
      starts and at or below its cursor, has been shown to it live, replayed to it, or sent by it, however many of
      its connections overlapped. The same goes for what lies above the cursor at which a live connection
      identified itself, unless that connection still has it pending. */
  lemma NoMessageIsLost(retention: Retention, backlog: Backlog, db: Tables, r: Reconnection, now: Clock,
                        steps: seq<Timed>)
    requires SoundTables(db) && (backlog.Seconds? ==> ArrivalOrder(db))
    requires FairRun(Start(retention, backlog, db, r, now), steps)
    ensures var c0 := Start(retention, backlog, db, r, now);
            var c, w := Run(c0, steps), WatchRun(c0, WatchFrom(c0), steps);
            && (forall who :: who in c.db.clients ==> who in w.start)
            && (forall m, who | m in c.db.messages && who in c.db.clients ::
                  ReplayableTo(m, who) && w.start[who] < m.id <= c.db.clients[who].lastSeen ==>
                        (who, m.id as int) in w.seen)
            && (forall k, m | LiveSession(c, k) && m in c.db.messages && k in w.base ::
                  ReplayableTo(m, c.sessions[k].who) && m.id > w.base[k] && m.id as int !in c.sessions[k].pending ==>
                  (c.sessions[k].who, m.id as int) in w.seen)
  {
    var c0 := Start(retention, backlog, db, r, now);
    StartReplay(retention, backlog, db, r, now);
    StartPath(retention, backlog, db, r, now);
    RunKeepsReplay(c0, WatchFrom(c0), steps);
    hide Start, Run, WatchRun, PathInv, Fair, ReplayableTo, ValidMessages, Bounded;
    Promises(Run(c0, steps), WatchRun(c0, WatchFrom(c0), steps));
  }

  lemma Promises(c: Core, w: Watch)
    requires ReplayInv(c, w)
    ensures forall who :: who in c.db.clients ==> who in w.start
    ensures forall m, who | m in c.db.messages && who in c.db.clients ::
              ReplayableTo(m, who) && w.start[who] < m.id <= c.db.clients[who].lastSeen ==> (who, m.id as int) in w.seen
    ensures forall k, m | LiveSession(c, k) && m in c.db.messages && k in w.base ::
              ReplayableTo(m, c.sessions[k].who) && m.id > w.base[k] && m.id as int !in c.sessions[k].pending ==>
              (c.sessions[k].who, m.id as int) in w.seen
  {
    hide ValidMessages, ReplayableTo, Bounded;
    forall m, who | m in c.db.messages && who in c.db.clients
      ensures NotLost(c, w, m, who)
    {
    }
    forall k, m | LiveSession(c, k) && m in c.db.messages
      ensures k in w.base && Covered(w, c.sessions[k], w.base[k], m)
    {
      assert SessionInv(c, w, k);
    }
  }
}
