/** Replay is at most once, and in order: unless connections of one identity overlap while one still has something to
    be served, no message is served to the identity twice, and the ids it is served strictly increase. */
module ReplayOnce {
  import opened Bytes
  import opened Protocol
  import opened Store
  import opened CoreState
  import opened RadioPath
  import opened Requests
  import opened Frames
  import opened Replay
  import opened NoLoss

  // ---------------------------------------------------------------------
  // The log of replays
  // ---------------------------------------------------------------------

  /** A stored message served to a connection of `who`, with the origin on record for it. */
  datatype Replayed = Replayed(who: Identity, id: int, origin: Option<Identity>)

  function OriginOf(rows: seq<Message>, id: int): Option<Identity> {
    if rows == [] then None
    else if rows[|rows| - 1].id == id then rows[|rows| - 1].origin
    else OriginOf(rows[..|rows| - 1], id)
  }

  /** The replays among some events, told apart by who the connections are. */
  function ReplaysIn(news: seq<Event>, sessions: map<ClientId, Session>, rows: seq<Message>): seq<Replayed> {
    if news == [] then []
    else
      var e := news[|news| - 1];
      ReplaysIn(news[..|news| - 1], sessions, rows)
      + if e.ToClient? && e.kind.Missed? && e.client in sessions then
          [Replayed(sessions[e.client].who, e.kind.id, OriginOf(rows, e.kind.id))]
        else []
  }

  function Replays(pre: Core, post: Core): seq<Replayed> {
    ReplaysIn(News(pre, post), post.sessions, pre.db.messages)
  }

  function ReplayLog(c: Core, steps: seq<Timed>): seq<Replayed> {
    if steps == [] then []
    else
      var n := |steps| - 1;
      ReplayLog(c, steps[..n]) + Replays(Run(c, steps[..n]), Run(c, steps))
  }

  function IdsFor(log: seq<Replayed>, who: Identity): seq<int> {
    if log == [] then []
    else
      var last := log[|log| - 1];
      IdsFor(log[..|log| - 1], who) + if last.who == who then [last.id] else []
  }

  lemma {:induction false} NoReplays(news: seq<Event>, sessions: map<ClientId, Session>, rows: seq<Message>)
    requires forall j :: 0 <= j < |news| ==> !(news[j].ToClient? && news[j].kind.Missed?)
    ensures ReplaysIn(news, sessions, rows) == []
  {
    if news != [] {
      NoReplays(news[..|news| - 1], sessions, rows);
    }
  }

  lemma UnreplayedNothing(pre: Core, post: Core)
    requires Unreplayed(pre.out, post.out)
    ensures Replays(pre, post) == []
  {
    var news := News(pre, post);
    forall j | 0 <= j < |news|
      ensures !(news[j].ToClient? && news[j].kind.Missed?)
    {
      assert news[j] == post.out[|pre.out| + j];
    }
    NoReplays(news, post.sessions, pre.db.messages);
  }

  lemma IdsForAppend(log: seq<Replayed>, r: Replayed, who: Identity)
    ensures IdsFor(log + [r], who) == IdsFor(log, who) + if r.who == who then [r.id] else []
  {
    assert (log + [r])[..|log|] == log;
  }

  // ---------------------------------------------------------------------
  // The invariant
  // ---------------------------------------------------------------------

  predicate SessionOf(c: Core, who: Identity, k: ClientId) {
    LiveSession(c, k) && c.sessions[k].who == who
  }

  /** The message is still stored with its frame. */
  predicate Servable(c: Core, id: int) {
    MessageFrame(c.db, id).Some?
  }

  ghost predicate Owing(c: Core, who: Identity, pending: seq<int>) {
    && who in c.db.clients && Increasing(pending)
    && (forall id :: id in pending ==> id <= c.db.lastId)
    && (forall m :: m in c.db.messages && m.id as int in pending ==> ReplayableTo(m, who))
  }

  /** What is asked of the ids replayed to an identity: nothing, that none repeats, or that they increase. */
  datatype Law = Unruled | Once | InOrder

  predicate NoRepeats(ids: seq<int>) {
    forall i, j :: 0 <= i < j < |ids| ==> ids[i] != ids[j]
  }

  /** Under the law `id` may still be served after `ids`. */
  predicate Follows(ids: seq<int>, id: int, law: Law) {
    law.Unruled? || forall x :: x in ids ==> if law.InOrder? then x < id else x != id
  }

  ghost predicate Lawful(ids: seq<int>, law: Law) {
    match law
    case Unruled => true
    case Once => NoRepeats(ids)
    case InOrder => Increasing(ids)
  }

  ghost predicate LogBelow(c: Core, log: seq<Replayed>, who: Identity, law: Law) {
    && Lawful(IdsFor(log, who), law)
    && (forall id :: id in IdsFor(log, who) ==> who in c.db.clients && id <= c.db.clients[who].lastSeen)
    && (forall r :: r in log && r.who == who ==> r.origin != Some(who))
  }

  /** What a session may still be served follows what the identity was served. */
  ghost predicate Behind(c: Core, log: seq<Replayed>, who: Identity, law: Law, pending: seq<int>) {
    forall id :: id in pending && Servable(c, id) ==> Follows(IdsFor(log, who), id, law)
  }

  /** Under the law both sessions may be served: not the same message, and in order not both anything. */
  ghost predicate Apart(c: Core, p: seq<int>, q: seq<int>, law: Law) {
    forall x, y :: x in p && y in q && Servable(c, x) && Servable(c, y) ==> law.Unruled? || (law.Once? && x != y)
  }

  /** Whatever the connections of an identity are still served, the law is kept. */
  ghost predicate OnceInv(c: Core, log: seq<Replayed>, who: Identity, law: Law) {
    && ValidMessages(c.db)
    && (forall k :: k in c.sessions ==> k < c.nextClient)
    && LogBelow(c, log, who, law)
    && (forall k :: SessionOf(c, who, k) ==>
          Owing(c, who, c.sessions[k].pending) && Behind(c, log, who, law, c.sessions[k].pending))
    && (forall j, k :: SessionOf(c, who, j) && SessionOf(c, who, k) && j != k ==>
          Apart(c, c.sessions[j].pending, c.sessions[k].pending, law))
  }

  /** A connection identifies itself while another one of the same identity still has something to be served that the
      law forbids both: the same stored message, or, in order, any, if there is any for the new one. */
  ghost predicate Overlaps(c: Core, i: Input, now: Clock, who: Identity, law: Law) {
    Registers(c, i) && WhoIs(i.cmd) == who
    && exists j :: SessionOf(c, who, j) && j != i.cmd.client
                   && !Apart(c, c.sessions[j].pending, MissedBy(c, who, now), law)
  }

  /** Sessions, messages and this identity's row as before; other rows may have moved. */
  ghost predicate SameFor(c: Core, d: Core, who: Identity) {
    && d.db.messages == c.db.messages && d.db.lastId == c.db.lastId && d.nextClient >= c.nextClient
    && (forall k :: k in d.sessions ==> k < d.nextClient)
    && (forall k :: SessionOf(d, who, k) ==> SessionOf(c, who, k) && d.sessions[k] == c.sessions[k])
    && (who in c.db.clients ==> who in d.db.clients && d.db.clients[who].lastSeen == c.db.clients[who].lastSeen)
  }

  lemma SameServable(c: Core, d: Core, id: int)
    requires d.db.messages == c.db.messages
    ensures Servable(d, id) == Servable(c, id)
  {
  }

  lemma SameForKeeps(c: Core, d: Core, log: seq<Replayed>, who: Identity, law: Law)
    requires OnceInv(c, log, who, law) && SameFor(c, d, who)
    ensures OnceInv(d, log, who, law)
  {
    SameMessages(c.db, d.db);
    hide ValidMessages, Increasing, NoRepeats, ReplayableTo, IdsFor, MessageFrame, Follows;
    forall id: int
      ensures Servable(d, id) == Servable(c, id)
    {
      SameServable(c, d, id);
    }
    hide Servable;
  }

  lemma QuietOnce(c: Core, d: Core, log: seq<Replayed>, who: Identity, law: Law)
    requires OnceInv(c, log, who, law) && SameMail(c, d)
    ensures OnceInv(d, log, who, law)
  {
    hide ValidMessages, LogBelow, Owing, Behind, Apart;
    assert SameFor(c, d, who);
    SameForKeeps(c, d, log, who, law);
  }

  // ---------------------------------------------------------------------
  // Storing and purging
  // ---------------------------------------------------------------------

  lemma StoreRow(e: Core, timestamp: int, frame: Frame, origin: Option<Identity>, now: Clock, who: Identity)
    ensures var d := StoreMessage(e, timestamp, frame, origin, now);
            (who in e.db.clients ==>
               (who in d.db.clients
                && d.db.clients[who].lastSeen
                   == if who in CaughtUpLive(e) then Max(e.db.clients[who].lastSeen, e.db.lastId + 1)
                   else e.db.clients[who].lastSeen))
            && (forall k :: k in d.sessions ==> LiveSession(e, k) && d.sessions[k] == e.sessions[k])
  {
    var c1 := e.(db := InsertMessage(e.db, timestamp, frame, origin, now.unix));
    var w := Watch(map x | x in CaughtUpLive(c1) :: c1.db.lastId as int, map[], {});
    FollowMoves(c1, w, now);
    hide AdvanceAll, CaughtUp;
    assert CaughtUpLive(c1) == CaughtUpLive(e);
  }

  /** Sessions as before or fewer, the same messages or fewer of the old ones, cursors not behind. */
  ghost predicate Lessens(c: Core, d: Core, who: Identity) {
    && ValidMessages(d.db) && d.nextClient >= c.nextClient && d.db.lastId >= c.db.lastId
    && (forall k :: k in d.sessions ==> k in c.sessions)
    && (forall k :: SessionOf(d, who, k) ==> SessionOf(c, who, k) && d.sessions[k] == c.sessions[k])
    && (forall m :: m in d.db.messages && m.id <= c.db.lastId ==> m in c.db.messages)
    && (forall id :: id <= c.db.lastId && Servable(d, id) ==> Servable(c, id))
    && (who in c.db.clients ==> who in d.db.clients && d.db.clients[who].lastSeen >= c.db.clients[who].lastSeen)
  }

  lemma LessensKeeps(c: Core, d: Core, log: seq<Replayed>, who: Identity, law: Law)
    requires OnceInv(c, log, who, law) && Lessens(c, d, who)
    ensures OnceInv(d, log, who, law)
  {
    hide ValidMessages, Increasing, NoRepeats, ReplayableTo, IdsFor, Servable, Follows;
    assert forall k :: SessionOf(c, who, k) ==> Owing(c, who, c.sessions[k].pending);
  }

  /** What was stored and could be served already could be before. */
  lemma OldServable(t: Tables, u: Tables, id: int)
    requires ValidMessages(t) && ValidMessages(u)
    requires forall m :: m in u.messages && m.id == id ==> m in t.messages
    ensures MessageFrame(u, id).Some? ==> MessageFrame(t, id).Some?
  {
    FrameOfExact(u.messages, id);
    FrameOfExact(t.messages, id);
    hide Increasing;
  }

  lemma StoreOnce(c: Core, timestamp: int, frame: Frame, origin: Option<Identity>, now: Clock, log: seq<Replayed>,
                  who: Identity,
                  law: Law)
    requires OnceInv(c, log, who, law)
    ensures OnceInv(StoreMessage(c, timestamp, frame, origin, now), log, who, law)
  {
    StoreLessens(c, timestamp, frame, origin, now, who);
    hide StoreMessage, OnceInv, Lessens;
    LessensKeeps(c, StoreMessage(c, timestamp, frame, origin, now), log, who, law);
  }

  lemma StoreLessens(c: Core, timestamp: int, frame: Frame, origin: Option<Identity>, now: Clock, who: Identity)
    requires ValidMessages(c.db)
    ensures Lessens(c, StoreMessage(c, timestamp, frame, origin, now), who)
  {
    var d := StoreMessage(c, timestamp, frame, origin, now);
    StoreResult(c, timestamp, frame, origin, now);
    StoreRow(c, timestamp, frame, origin, now, who);
    InsertedValid(c.db, timestamp, frame, origin, now.unix);
    SameMessages(InsertMessage(c.db, timestamp, frame, origin, now.unix), d.db);
    hide ValidMessages, StoreMessage, MessageFrame;
    assert d.db.messages == c.db.messages + [d.db.messages[|c.db.messages|]];
    forall id | id <= c.db.lastId && Servable(d, id)
      ensures Servable(c, id)
    {
      OldServable(c.db, d.db, id);
    }
    hide Servable;
  }

  lemma PurgeOnce(c: Core, now: Clock, log: seq<Replayed>, who: Identity, law: Law)
    requires OnceInv(c, log, who, law)
    requires who in c.db.clients ==> who in Maintain(c.db, c.conf.retention, now.unix).clients
    ensures OnceInv(c.(db := Maintain(c.db, c.conf.retention, now.unix)), log, who, law)
  {
    var d := c.(db := Maintain(c.db, c.conf.retention, now.unix));
    hide LogBelow, Owing, Behind, Apart;
    assert Lessens(c, d, who) by {
      MaintainKeepsMessages(c.db, c.conf.retention, now.unix);
      PurgedClients(c.db, c.conf.retention, now.unix);
      hide ValidMessages, Maintain, MessageFrame;
      forall id | id <= c.db.lastId && Servable(d, id)
        ensures Servable(c, id)
      {
        OldServable(c.db, d.db, id);
      }
      hide Servable;
    }
    LessensKeeps(c, d, log, who, law);
  }

  // ---------------------------------------------------------------------
  // Identifying
  // ---------------------------------------------------------------------

  lemma MissedIncreasing(c: Core, who: Identity, now: Clock)
    requires ValidMessages(c.db)
    ensures Increasing(MissedBy(c, who, now))
  {
    if who in c.db.clients {
      FilterIncreasing(c.db.messages, (m: Message) => m.id > c.db.clients[who].lastSeen && ReplayableTo(m, who));
    } else {
      match c.conf.backlog {
        case Off =>
        case Messages(n) =>
          var all := Filter(c.db.messages, (m: Message) => ReplayableTo(m, who));
          FilterIncreasing(c.db.messages, (m: Message) => ReplayableTo(m, who));
          hide Filter;
          assert Increasing(Ids(all));
          IncreasingTail(Ids(all), if |all| <= n then 0 else |all| - n);
          assert MissedBy(c, who, now) == Ids(all)[if |all| <= n then 0 else |all| - n..];
        case Seconds(s) =>
          FilterIncreasing(c.db.messages, (m: Message) =>
            m.receivedAt.Some? && m.receivedAt.value >= now.unix - s && ReplayableTo(m, who));
      }
    }
  }

  lemma IncreasingTail(ids: seq<int>, n: nat)
    requires Increasing(ids) && n <= |ids|
    ensures Increasing(ids[n..])
  {
    forall i, j | 0 <= i < j < |ids[n..]|
      ensures ids[n..][i] < ids[n..][j]
    {
      assert ids[n + i] < ids[n + j];
    }
  }

  /** What is owed is on record, and not the identity's own. */
  lemma MissedReplayable(c: Core, who: Identity, now: Clock, id: int)
    requires id in MissedBy(c, who, now)
    ensures exists m :: m in c.db.messages && m.id == id && ReplayableTo(m, who)
    ensures who in c.db.clients ==> id > c.db.clients[who].lastSeen
  {
    if who in c.db.clients {
      KeptId(c.db.messages, (m: Message) => m.id > c.db.clients[who].lastSeen && ReplayableTo(m, who), id);
    } else {
      match c.conf.backlog {
        case Off =>
        case Messages(n) =>
          KeptId(c.db.messages, (m: Message) => ReplayableTo(m, who), id);
        case Seconds(s) =>
          KeptId(c.db.messages, (m: Message) =>
            m.receivedAt.Some? && m.receivedAt.value >= now.unix - s && ReplayableTo(m, who), id);
      }
    }
  }

  lemma KeptId(rows: seq<Message>, keep: Message -> bool, id: int)
    requires id in Ids(Filter(rows, keep))
    ensures exists m :: m in rows && m.id == id && keep(m)
  {
    IdsMember(Filter(rows, keep), id);
    var m :| m in Filter(rows, keep) && m.id == id;
    FilterMember(rows, keep, m);
  }

  /** The list of a newly identified session: above the cursor, oldest first, to be served. */
  lemma RegisteredOwing(c: Core, cmd: ClientCommand, now: Clock)
    requires ValidMessages(c.db)
    ensures var who, pending, d := WhoIs(cmd), MissedBy(c, WhoIs(cmd), now), RegisterSession(c, cmd, now);
            Owing(d, who, pending) && forall id :: id in pending && who in c.db.clients ==>
                  c.db.clients[who].lastSeen < id
  {
    var who, pending, d := WhoIs(cmd), MissedBy(c, WhoIs(cmd), now), RegisterSession(c, cmd, now);
    MissedIncreasing(c, who, now);
    IdsUnique(c.db);
    RowAfterRegister(c, cmd, now, who);
    hide MissedBy, ReplayableTo, RegisterSession;
    forall id | id in pending
      ensures id <= d.db.lastId
      ensures who in c.db.clients ==> c.db.clients[who].lastSeen < id
      ensures forall m :: m in c.db.messages && m.id == id ==> ReplayableTo(m, who)
    {
      MissedReplayable(c, who, now, id);
    }
  }

  lemma RegisterOnce(c: Core, cmd: ClientCommand, now: Clock, log: seq<Replayed>, who: Identity, law: Law)
    requires OnceInv(c, log, who, law) && cmd.client < c.nextClient && Registers(c, Command(cmd))
    requires !Overlaps(c, Command(cmd), now, who, law)
    ensures OnceInv(RegisterSession(c, cmd, now), log, who, law)
  {
    var d := RegisterSession(c, cmd, now);
    RowAfterRegister(c, cmd, now, who);
    hide MissedBy, AppName, RegisterSession;
    if WhoIs(cmd) == who {
      OwnRegister(c, d, cmd, now, log, law);
    } else {
      hide OnceInv;
      assert SameFor(c, d, who) by { SessionsBelow(c, log, who, law); }
      SameForKeeps(c, d, log, who, law);
    }
  }

  lemma SessionsBelow(c: Core, log: seq<Replayed>, who: Identity, law: Law)
    requires OnceInv(c, log, who, law)
    ensures forall k :: k in c.sessions ==> k < c.nextClient
  {
  }

  lemma OwnRegister(c: Core, d: Core, cmd: ClientCommand, now: Clock, log: seq<Replayed>, law: Law)
    requires OnceInv(c, log, WhoIs(cmd), law) && cmd.client < c.nextClient && Registers(c, Command(cmd))
    requires !Overlaps(c, Command(cmd), now, WhoIs(cmd), law) && d == RegisterSession(c, cmd, now)
    ensures OnceInv(d, log, WhoIs(cmd), law)
  {
    var who, p := WhoIs(cmd), MissedBy(c, WhoIs(cmd), now);
    RegisteredOwing(c, cmd, now);
    SameMessages(c.db, d.db);
    RowAfterRegister(c, cmd, now, who);
    hide ValidMessages, Increasing, NoRepeats, MissedBy, AppName, ReplayableTo, IdsFor, RegisterSession, Servable,
      Overlaps;
    assert LogBelow(d, log, who, law);
    assert Behind(d, log, who, law, p);
    hide LogBelow, Follows, WhoIs;
    ApartIsMutual(d, law);
    forall j | SessionOf(d, who, j) && j != cmd.client
      ensures SessionOf(c, who, j) && d.sessions[j] == c.sessions[j] && Apart(d, d.sessions[j].pending, p, law)
      ensures Owing(d, who, d.sessions[j].pending) && Behind(d, log, who, law, d.sessions[j].pending)
    {
      RegisterApart(c, d, cmd, now, who, law, j);
      SameBehind(c, d, log, who, law, d.sessions[j].pending);
    }
    forall j, k | SessionOf(d, who, j) && SessionOf(d, who, k) && j != k
      ensures Apart(d, d.sessions[j].pending, d.sessions[k].pending, law)
    {
      if j != cmd.client && k != cmd.client {
        FewerApart(c, d, c.sessions[j].pending, c.sessions[k].pending, d.sessions[j].pending, d.sessions[k].pending,
                   law);
      }
    }
  }

  lemma SameBehind(c: Core, d: Core, log: seq<Replayed>, who: Identity, law: Law, pending: seq<int>)
    requires who in c.db.clients ==> who in d.db.clients
    requires d.db.messages == c.db.messages && d.db.lastId == c.db.lastId
    requires Owing(c, who, pending) && Behind(c, log, who, law, pending)
    ensures Owing(d, who, pending) && Behind(d, log, who, law, pending)
  {
    hide Increasing, ReplayableTo, Follows, IdsFor;
  }

  lemma ApartIsMutual(d: Core, law: Law)
    ensures forall p, q :: Apart(d, p, q, law) ==> Apart(d, q, p, law)
  {
    hide Servable;
  }

  /** A session that is not in the way holds nothing that the new one may not hold too. */
  lemma RegisterApart(c: Core, d: Core, cmd: ClientCommand, now: Clock, who: Identity, law: Law, j: ClientId)
    requires Registers(c, Command(cmd)) && !Overlaps(c, Command(cmd), now, who, law) && j != cmd.client
             && WhoIs(cmd) == who
    requires d.db.messages == c.db.messages && d.live == c.live && SessionOf(d, who, j) && cmd.client in d.sessions
    requires d.sessions == c.sessions[cmd.client := d.sessions[cmd.client]]
    ensures SessionOf(c, who, j) && d.sessions[j] == c.sessions[j]
            && Apart(d, d.sessions[j].pending, MissedBy(c, who, now), law)
  {
    hide MessageFrame, WhoIs, MissedBy;
    assert SessionOf(c, who, j) && d.sessions[j] == c.sessions[j];
    var p := MissedBy(c, who, now);
    assert Apart(c, c.sessions[j].pending, p, law);
    FewerApart(c, d, c.sessions[j].pending, p, c.sessions[j].pending, p, law);
  }

  lemma RowAfterRegister(c: Core, cmd: ClientCommand, now: Clock, who: Identity)
    ensures var d := RegisterSession(c, cmd, now);
            d.db.messages == c.db.messages && d.db.lastId == c.db.lastId && d.live == c.live
                && d.nextClient == c.nextClient
            && d.sessions == c.sessions[cmd.client := Session(WhoIs(cmd), MissedBy(c, WhoIs(cmd), now))]
            && (who in c.db.clients ==>
                  (who in d.db.clients && d.db.clients[who].lastSeen >= c.db.clients[who].lastSeen
                   && (who != WhoIs(cmd) ==> d.db.clients[who] == c.db.clients[who])))
  {
    hide MissedBy, AppName, MessageHead;
  }

  // ---------------------------------------------------------------------
  // Serving
  // ---------------------------------------------------------------------

  function ReplayOf(c: Core, k: ClientId): seq<Replayed>
    requires k in c.sessions
  {
    if ServedId(c, k) == [] then []
    else [Replayed(c.sessions[k].who, ServedId(c, k)[0], OriginOf(c.db.messages, ServedId(c, k)[0]))]
  }

  lemma {:induction false} OriginKnown(rows: seq<Message>, m: Message)
    requires m in rows && Increasing(Ids(rows))
    ensures OriginOf(rows, m.id) == m.origin
  {
    var n := |rows| - 1;
    var i :| 0 <= i <= n && rows[i] == m;
    if i < n {
      assert Ids(rows)[i] < Ids(rows)[n];
      assert Ids(rows[..n]) == Ids(rows)[..n] && m == rows[..n][i];
      OriginKnown(rows[..n], m);
    }
  }

  /** What is served is pending, on record, and has a frame. */
  lemma {:induction false} ServedOnRecord(c: Core, k: ClientId)
    requires k in c.sessions && ServedId(c, k) != [] && Increasing(Ids(c.db.messages))
    ensures var id := ServedId(c, k)[0];
            id in c.sessions[k].pending && exists m :: m in c.db.messages && m.id == id
    decreases |c.sessions[k].pending|
  {
    var s := c.sessions[k];
    if MessageFrame(c.db, s.pending[0]).Some? {
      FrameOfExact(c.db.messages, s.pending[0]);
    } else {
      hide MessageFrame, Increasing;
      ServedOnRecord(c.(sessions := c.sessions[k := s.(pending := s.pending[1..])]), k);
    }
  }

  /** A serving touches the session and the row of the one served. */
  lemma {:induction false} ServeOther(c: Core, k: ClientId, now: Clock)
    requires k in c.sessions
    ensures var d, who := ServeMissed(c, k, now).0, c.sessions[k].who;
            k in d.sessions && d.sessions == c.sessions[k := d.sessions[k]] && d.sessions[k].who == who
            && d.live == c.live && d.nextClient == c.nextClient
            && d.db.messages == c.db.messages && d.db.lastId == c.db.lastId
            && forall x :: x in c.db.clients && x != who ==> x in d.db.clients && d.db.clients[x] == c.db.clients[x]
    decreases |c.sessions[k].pending|
  {
    var s := c.sessions[k];
    if s.pending != [] && MessageFrame(c.db, s.pending[0]).None? {
      hide MessageFrame;
      ServeOther(c.(sessions := c.sessions[k := s.(pending := s.pending[1..])]), k, now);
    }
  }

  /** The session that is left, and the row, after a serving. */
  lemma {:induction false} ServeResult(c: Core, k: ClientId, now: Clock)
    requires k in c.sessions && Increasing(c.sessions[k].pending)
    ensures var d, ids, who, p := ServeMissed(c, k, now).0, ServedId(c, k), c.sessions[k].who, c.sessions[k].pending;
            k in d.sessions && Increasing(d.sessions[k].pending)
            && (forall id :: id in d.sessions[k].pending ==> id in p && (ids != [] ==> id > ids[0]))
            && (ids == [] ==> d.db.clients == c.db.clients && d.out == c.out && d.sessions[k].pending == [])
            && (ids != [] ==> d.db.clients == c.db.clients[who := AdvancedRow(c.db.clients, who, ids[0], now.unix)])
    decreases |c.sessions[k].pending|
  {
    var s := c.sessions[k];
    if s.pending != [] {
      hide MessageFrame, AdvancedRow;
      var c1 := c.(sessions := c.sessions[k := s.(pending := s.pending[1..])]);
      IncreasingTail(s.pending, 1);
      assert forall id :: id in s.pending[1..] ==> id in s.pending;
      if MessageFrame(c.db, s.pending[0]).None? {
        ServeResult(c1, k, now);
      } else {
        hide Increasing;
        TailAbove(s.pending);
      }
    }
  }

  lemma TailAbove(p: seq<int>)
    requires p != [] && Increasing(p)
    ensures forall id :: id in p[1..] ==> id > p[0]
  {
    forall id | id in p[1..]
      ensures id > p[0]
    {
      var j :| 0 <= j < |p[1..]| && p[1..][j] == id;
      assert p[0] < p[j + 1];
    }
  }

  /** What is served could be served. */
  lemma {:induction false} ServedServable(c: Core, k: ClientId)
    requires k in c.sessions && ServedId(c, k) != []
    ensures Servable(c, ServedId(c, k)[0]) && ServedId(c, k)[0] in c.sessions[k].pending
    decreases |c.sessions[k].pending|
  {
    var s := c.sessions[k];
    if MessageFrame(c.db, s.pending[0]).None? {
      hide MessageFrame;
      ServedServable(c.(sessions := c.sessions[k := s.(pending := s.pending[1..])]), k);
    }
  }

  lemma ServeOnce(c: Core, k: ClientId, now: Clock, log: seq<Replayed>, who: Identity, law: Law)
    requires OnceInv(c, log, who, law) && SessionOf(c, who, k)
    ensures OnceInv(ServeMissed(c, k, now).0, log + ReplayOf(c, k), who, law)
    ensures SessionOf(ServeMissed(c, k, now).0, who, k)
  {
    hide ServeMissed, ReplayableTo, ServedId, ValidMessages, IdsFor, LogBelow, AdvancedRow, ReplayOf, Servable, Follows,
      Behind, Apart;
    var d := ServeMissed(c, k, now).0;
    assert Owing(c, who, c.sessions[k].pending);
    ServeResult(c, k, now);
    ServeOther(c, k, now);
    SameMessages(c.db, d.db);
    hide Increasing, Owing;
    assert forall j :: SessionOf(d, who, j) ==> SessionOf(c, who, j);
    ServedLogBelow(c, d, k, log, who, now, law);
    forall j | SessionOf(d, who, j)
      ensures Owing(d, who, d.sessions[j].pending) && Behind(d, log + ReplayOf(c, k), who, law, d.sessions[j].pending)
    {
      if j == k {
        ServedOwing(c, d, k, who);
        ServedBehind(c, d, k, log, who, law, c.sessions[k].pending, d.sessions[k].pending);
      } else {
        assert SessionOf(c, who, j) && d.sessions[j] == c.sessions[j];
        OtherOwing(c, d, who, c.sessions[j].pending);
        OtherBehind(c, d, k, log, who, law, j);
      }
    }
    forall i, j | SessionOf(d, who, i) && SessionOf(d, who, j) && i != j
      ensures Apart(d, d.sessions[i].pending, d.sessions[j].pending, law)
    {
      FewerApart(c, d, c.sessions[i].pending, c.sessions[j].pending, d.sessions[i].pending, d.sessions[j].pending, law);
    }
  }

  lemma FewerApart(c: Core, d: Core, p: seq<int>, q: seq<int>, p': seq<int>, q': seq<int>, law: Law)
    requires Apart(c, p, q, law) && d.db.messages == c.db.messages
    requires (forall id :: id in p' ==> id in p) && (forall id :: id in q' ==> id in q)
    ensures Apart(d, p', q', law)
  {
  }

  lemma ServedOwing(c: Core, d: Core, k: ClientId, who: Identity)
    requires who in c.db.clients ==> who in d.db.clients
    requires k in c.sessions && k in d.sessions && Owing(c, who, c.sessions[k].pending)
             && Increasing(d.sessions[k].pending)
    requires forall id :: id in d.sessions[k].pending ==> id in c.sessions[k].pending
    requires d.db.messages == c.db.messages && d.db.lastId == c.db.lastId
    ensures Owing(d, who, d.sessions[k].pending)
  {
    hide Increasing, ReplayableTo;
  }

  lemma OtherOwing(c: Core, d: Core, who: Identity, pending: seq<int>)
    requires who in c.db.clients ==> who in d.db.clients
    requires Owing(c, who, pending) && d.db.messages == c.db.messages && d.db.lastId == c.db.lastId
    ensures Owing(d, who, pending)
  {
    hide Increasing, ReplayableTo;
  }

  /** What is left to the one served still follows. */
  lemma ServedBehind(c: Core, d: Core, k: ClientId, log: seq<Replayed>, who: Identity, law: Law, p: seq<int>,
                     left: seq<int>)
    requires k in c.sessions && c.sessions[k].who == who && Behind(c, log, who, law, p)
             && d.db.messages == c.db.messages
    requires forall id :: id in left ==> id in p && (ServedId(c, k) != [] ==> id > ServedId(c, k)[0])
    ensures Behind(d, log + ReplayOf(c, k), who, law, left)
  {
    ServedIds(c, k, log, who);
    hide ServedId, IdsFor, OriginOf, ReplayOf;
  }

  /** What another connection waits for may still be served after what was served to this one. */
  lemma OtherBehind(c: Core, d: Core, k: ClientId, log: seq<Replayed>, who: Identity, law: Law, j: ClientId)
    requires SessionOf(c, who, k) && SessionOf(c, who, j) && d.db.messages == c.db.messages
    requires Behind(c, log, who, law, c.sessions[j].pending)
    requires Apart(c, c.sessions[j].pending, c.sessions[k].pending, law)
    ensures Behind(d, log + ReplayOf(c, k), who, law, c.sessions[j].pending)
  {
    ServedIds(c, k, log, who);
    if ServedId(c, k) != [] {
      ServedServable(c, k);
    }
    hide ServedId, IdsFor, OriginOf, ReplayOf;
  }

  /** What a serving adds to the ids of its identity. */
  lemma ServedIds(c: Core, k: ClientId, log: seq<Replayed>, who: Identity)
    requires k in c.sessions && c.sessions[k].who == who
    ensures IdsFor(log + ReplayOf(c, k), who) == IdsFor(log, who) + ServedId(c, k) && |ServedId(c, k)| <= 1
  {
    ServedOne(c, k);
    hide ServedId, OriginOf;
    if ServedId(c, k) == [] {
      assert log + ReplayOf(c, k) == log;
    } else {
      IdsForAppend(log, ReplayOf(c, k)[0], who);
      assert log + ReplayOf(c, k) == log + [ReplayOf(c, k)[0]];
    }
    hide IdsFor;
  }

  lemma {:induction false} ServedOne(c: Core, k: ClientId)
    requires k in c.sessions
    ensures |ServedId(c, k)| <= 1
    decreases |c.sessions[k].pending|
  {
    var s := c.sessions[k];
    if s.pending != [] && MessageFrame(c.db, s.pending[0]).None? {
      hide MessageFrame;
      ServedOne(c.(sessions := c.sessions[k := s.(pending := s.pending[1..])]), k);
    }
  }

  lemma ServedLogBelow(c: Core, d: Core, k: ClientId, log: seq<Replayed>, who: Identity, now: Clock, law: Law)
    requires OnceInv(c, log, who, law) && SessionOf(c, who, k)
    requires var ids := ServedId(c, k);
             (ids == [] ==> d.db.clients == c.db.clients)
             && (ids != [] ==> d.db.clients == c.db.clients[who := AdvancedRow(c.db.clients, who, ids[0], now.unix)])
    ensures LogBelow(d, log + ReplayOf(c, k), who, law)
  {
    if ServedId(c, k) == [] {
      assert log + ReplayOf(c, k) == log;
      hide ServedId, ValidMessages, Increasing, NoRepeats, IdsFor;
    } else {
      ServedLog(c, k, log, who, law);
      hide ServedId, ValidMessages, Increasing, NoRepeats, IdsFor, Owing, ReplayableTo, ReplayOf;
    }
  }

  lemma ServedLog(c: Core, k: ClientId, log: seq<Replayed>, who: Identity, law: Law)
    requires OnceInv(c, log, who, law) && SessionOf(c, who, k) && ServedId(c, k) != []
    ensures var id, ids := ServedId(c, k)[0], IdsFor(log + ReplayOf(c, k), who);
            ids == IdsFor(log, who) + [id] && Lawful(ids, law)
            && (forall r :: r in log + ReplayOf(c, k) && r.who == who ==> r.origin != Some(who))
  {
    var id := ServedId(c, k)[0];
    ServedServable(c, k);
    ServedIds(c, k, log, who);
    ServedOrigin(c, k, who);
    hide ServedId, IdsFor, ValidMessages, Increasing, NoRepeats, OriginOf, Servable;
    assert ServedId(c, k) == [id];
    assert Follows(IdsFor(log, who), id, law);
    match law {
      case Unruled =>
      case Once => FreshAppend(IdsFor(log, who), id);
      case InOrder => IncreasingAppend(IdsFor(log, who), id);
    }
  }

  /** It is nobody's own message that is served to an identity. */
  lemma ServedOrigin(c: Core, k: ClientId, who: Identity)
    requires SessionOf(c, who, k) && ServedId(c, k) != [] && ValidMessages(c.db) && Owing(c, who, c.sessions[k].pending)
    ensures ReplayOf(c, k)[0].who == who && ReplayOf(c, k)[0].origin != Some(who)
  {
    var id := ServedId(c, k)[0];
    ServedOnRecord(c, k);
    var m :| m in c.db.messages && m.id == id;
    OriginKnown(c.db.messages, m);
    assert ReplayableTo(m, who);
    hide ServedId, OriginOf, Increasing;
  }

  lemma FreshAppend(ids: seq<int>, id: int)
    requires NoRepeats(ids) && id !in ids
    ensures NoRepeats(ids + [id])
  {
  }

  lemma IncreasingAppend(ids: seq<int>, id: int)
    requires Increasing(ids) && forall x :: x in ids ==> x < id
    ensures Increasing(ids + [id])
  {
    forall i, j | 0 <= i < j < |ids + [id]|
      ensures (ids + [id])[i] < (ids + [id])[j]
    {
      if j == |ids| {
        assert ids[i] in ids;
      }
    }
  }

  lemma ReplayKeepsOnce(c: Core, k: ClientId, now: Clock, log: seq<Replayed>, who: Identity, law: Law)
    requires OnceInv(c, log, who, law) && SessionOf(c, who, k)
    ensures OnceInv(ReplayNextMissed(c, k, now).0, log + ReplayOf(c, k), who, law)
  {
    ServeOnce(c, k, now, log, who, law);
    var d := ServeMissed(c, k, now).0;
    hide ServeMissed, ReplayOf, OnceInv, MessageHead;
    CatchUpOnce(d, k, now, log + ReplayOf(c, k), who, law);
  }

  lemma CatchUpOnce(c: Core, k: ClientId, now: Clock, log: seq<Replayed>, who: Identity, law: Law)
    requires OnceInv(c, log, who, law)
    ensures OnceInv(CatchUp(c, k, who, now), log, who, law)
  {
    var d := CatchUp(c, k, who, now);
    SameMessages(c.db, d.db);
    hide ValidMessages, Increasing, NoRepeats, ReplayableTo, IdsFor, MessageHead, MessageFrame, Follows;
    forall id: int
      ensures Servable(d, id) == Servable(c, id)
    {
      SameServable(c, d, id);
    }
    hide Servable;
    assert forall j :: SessionOf(d, who, j) ==> SessionOf(c, who, j);
  }

  /** Serving a connection of somebody else. */
  lemma OtherServed(c: Core, k: ClientId, now: Clock, log: seq<Replayed>, who: Identity, law: Law)
    requires OnceInv(c, log, who, law) && LiveSession(c, k) && c.sessions[k].who != who
    ensures OnceInv(ReplayNextMissed(c, k, now).0, log + ReplayOf(c, k), who, law)
  {
    var d := ReplayNextMissed(c, k, now).0;
    OtherServedSame(c, k, now, who);
    hide ReplayNextMissed, ServedId;
    SameForKeeps(c, d, log, who, law);
    if ServedId(c, k) != [] {
      OtherLog(d, log, ReplayOf(c, k)[0], who, law);
      assert log + ReplayOf(c, k) == log + [ReplayOf(c, k)[0]];
    } else {
      assert log + ReplayOf(c, k) == log;
    }
  }

  lemma OtherLog(c: Core, log: seq<Replayed>, r: Replayed, who: Identity, law: Law)
    requires OnceInv(c, log, who, law) && r.who != who
    ensures OnceInv(c, log + [r], who, law)
  {
    IdsForAppend(log, r, who);
    hide Increasing, NoRepeats, Owing, ValidMessages, IdsFor, Apart, Servable;
    assert IdsFor(log + [r], who) == IdsFor(log, who);
  }

  lemma OtherServedSame(c: Core, k: ClientId, now: Clock, who: Identity)
    requires LiveSession(c, k) && c.sessions[k].who != who && (forall j :: j in c.sessions ==> j < c.nextClient)
    ensures SameFor(c, ReplayNextMissed(c, k, now).0, who)
  {
    ServeOther(c, k, now);
    hide ServeMissed, MessageHead;
  }

  // ---------------------------------------------------------------------
  // All steps
  // ---------------------------------------------------------------------

  lemma GetMessageOnce(c: Core, cmd: ClientCommand, now: Clock, log: seq<Replayed>, who: Identity, law: Law)
    requires OnceInv(c, log, who, law)
    requires LiveSession(c, cmd.client) && cmd.payload != [] && cmd.payload[0] == 0x0A
    ensures var post := HandleClientCommand(c, cmd, now);
            OnceInv(post, log + Replays(c, post), who, law)
  {
    var k, c2, post := cmd.client, ReplayNextMissed(c, cmd.client, now).0, HandleClientCommand(c, cmd, now);
    hide OnceInv, ReplayNextMissed;
    if c.sessions[k].who == who {
      ReplayKeepsOnce(c, k, now, log, who, law);
    } else {
      OtherServed(c, k, now, log, who, law);
    }
    ReplayThenForward(c, cmd, now);
    QuietOnce(c2, post, log + ReplayOf(c, k), who, law);
    ReplayNoted(c, cmd, now);
  }

  /** The onlooker's log takes down exactly what was served. */
  lemma ReplayNoted(c: Core, cmd: ClientCommand, now: Clock)
    requires LiveSession(c, cmd.client) && cmd.payload != [] && cmd.payload[0] == 0x0A
    ensures Replays(c, HandleClientCommand(c, cmd, now)) == ReplayOf(c, cmd.client)
  {
    var k, c2, post := cmd.client, ReplayNextMissed(c, cmd.client, now).0, HandleClientCommand(c, cmd, now);
    hide ServeOrForward, ReplayNextMissed, ServedId;
    ReplayEvent(c, k, now);
    ReplayThenForward(c, cmd, now);
    if ServedId(c, k) == [] {
      UnreplayedNothing(c, post);
    } else {
      assert post == c2;
      OneReplay(c, post, k, ServedId(c, k)[0]);
    }
  }

  lemma OneReplay(c: Core, post: Core, k: ClientId, id: int)
    requires |post.out| == |c.out| + 1 && k in post.sessions
    requires var e := post.out[|c.out|]; e.ToClient? && e.client == k && e.kind == Missed(id)
    ensures Replays(c, post) == [Replayed(post.sessions[k].who, id, OriginOf(c.db.messages, id))]
  {
    hide OriginOf;
    var news := News(c, post);
    assert news == [post.out[|c.out|]];
    assert ReplaysIn(news[..0], post.sessions, c.db.messages) == [];
  }

  lemma CommandOnce(c: Core, cmd: ClientCommand, now: Clock, log: seq<Replayed>, who: Identity, law: Law)
    requires OnceInv(c, log, who, law) && !Overlaps(c, Command(cmd), now, who, law)
    requires forall k :: k in c.live ==> k < c.nextClient
    ensures var post := HandleClientCommand(c, cmd, now);
            OnceInv(post, log + Replays(c, post), who, law)
  {
    hide OnceInv, ReplayNextMissed, RegisterSession, ServeOrForward;
    var post := HandleClientCommand(c, cmd, now);
    if cmd.payload == [] || cmd.client !in c.live {
      UnreplayedNothing(c, c);
    } else if cmd.payload[0] == 0x01 {
      var c1 := RegisterSession(c, cmd, now);
      ServeOrForwardQuiet(c1, cmd, now);
      assert forall k :: SessionOf(c1, who, k) ==> SessionOf(post, who, k);
      RegisterOnce(c, cmd, now, log, who, law);
      QuietOnce(c1, post, log, who, law);
      RegisterSilent(c, cmd, now);
      UnreplayedNothing(c, post);
    } else if cmd.payload[0] == 0x0A && cmd.client in c.sessions {
      GetMessageOnce(c, cmd, now, log, who, law);
    } else {
      OtherCommandPlain(c, cmd, now);
      QuietOnce(c, post, log, who, law);
      UnreplayedNothing(c, post);
    }
    assert log + [] == log;
  }

  lemma RegisterSilent(c: Core, cmd: ClientCommand, now: Clock)
    ensures RegisterSession(c, cmd, now).out == c.out
  {
    hide MissedBy, AppName;
  }

  lemma OtherCommandPlain(c: Core, cmd: ClientCommand, now: Clock)
    requires cmd.payload != [] && cmd.client in c.live && cmd.payload[0] != 0x01
    requires cmd.payload[0] == 0x0A ==> cmd.client !in c.sessions
    ensures QuietMail(c, HandleClientCommand(c, cmd, now))
  {
    hide ServeOrForward, RegisterSession;
    ServeOrForwardQuiet(NoteCommand(c, cmd, now), cmd, now);
  }

  lemma RadioOnce(c: Core, p: Frame, now: Clock, log: seq<Replayed>, who: Identity, law: Law)
    requires OnceInv(c, log, who, law) && SlotIsLastSent(c)
    ensures var post := HandleRadioRx(c, p, now);
            OnceInv(post, log, who, law) && Replays(c, post) == []
  {
    hide OnceInv, SlotIsLastSent, HandleRadioRx, StoreMessage;
    var post := HandleRadioRx(c, p, now);
    if p == [] {
      NothingArrives(c, now);
    } else if Storable(p) {
      MessageStored(c, p, now);
      StoreResult(c, MessageTimestamp(p), p, None, now);
      StoreOnce(c, MessageTimestamp(p), p, None, now, log, who, law);
      hide MessageTimestamp;
      QuietOnce(StoreMessage(c, MessageTimestamp(p), p, None, now), post, log, who, law);
    } else {
      OtherFrameStores(c, p, now);
      if SameMail(c, post) {
        QuietOnce(c, post, log, who, law);
      } else {
        var e, timestamp, frame, origin :| StoresOnce(c, e, timestamp, frame, origin, now, post);
        hide Reached;
        QuietOnce(c, e, log, who, law);
        StoreOnce(e, timestamp, frame, origin, now, log, who, law);
        QuietOnce(StoreMessage(e, timestamp, frame, origin, now), post, log, who, law);
      }
    }
    UnreplayedNothing(c, post);
  }

  lemma LiveChangeOnce(c: Core, d: Core, mid: Core, log: seq<Replayed>, who: Identity, law: Law)
    requires OnceInv(c, log, who, law) && QuietMail(mid, d)
    requires mid == c.(live := mid.live, nextClient := mid.nextClient) && mid.nextClient >= c.nextClient
    requires mid.live <= c.live || mid.live == c.live + {c.nextClient}
    ensures OnceInv(d, log, who, law) && Replays(c, d) == []
  {
    hide Owing, Behind, Apart, LogBelow, ValidMessages;
    SameForKeeps(c, mid, log, who, law);
    QuietOnce(mid, d, log, who, law);
    UnreplayedNothing(c, d);
  }

  lemma MaintenanceOnce(c: Core, now: Clock, log: seq<Replayed>, who: Identity, law: Law)
    requires OnceInv(c, log, who, law)
    requires who in c.db.clients ==> who in RunMaintenance(c, now).db.clients
    ensures var post := RunMaintenance(c, now);
            OnceInv(post, log, who, law) && Replays(c, post) == []
  {
    RequestFullSyncQuiet(c, now);
    hide OnceInv, RequestFullSync, Maintain;
    QuietOnce(c, RequestFullSync(c, now), log, who, law);
    PurgeOnce(RequestFullSync(c, now), now, log, who, law);
    UnreplayedNothing(c, RunMaintenance(c, now));
  }

  lemma StepOnce(c: Core, i: Input, now: Clock, log: seq<Replayed>, who: Identity, law: Law)
    requires OnceInv(c, log, who, law) && PathInv(c) && !Overlaps(c, i, now, who, law)
    requires who in c.db.clients ==> who in Step(c, i, now).db.clients
    ensures OnceInv(Step(c, i, now), log + Replays(c, Step(c, i, now)), who, law)
  {
    hide OnceInv, Overlaps, Replays, HandleClientCommand, HandleRadioRx, CheckInFlightTimeout, RunMaintenance,
      ReconnectRadio, Conserved, Fifo, Told, SlotIsLastSent;
    var post := Step(c, i, now);
    match i {
      case Connect => LiveChangeOnce(c, post, post, log, who, law);
      case Disconnect(_) => LiveChangeOnce(c, post, post, log, who, law);
      case Command(cmd) => CommandOnce(c, cmd, now, log, who, law);
      case Radio(p) => RadioOnce(c, p, now, log, who, law);
      case TimeoutTick =>
        TimeoutQuiet(c, now);
        LiveChangeOnce(c, post, c, log, who, law);
      case MaintenanceTick => MaintenanceOnce(c, now, log, who, law);
      case LinkCloses => LiveChangeOnce(c, post, c, log, who, law);
      case Reconnect(how) =>
        ReconnectQuiet(c, how, now);
        LiveChangeOnce(c, post, c.(live := c.live - how.left), log, who, law);
    }
    assert log + [] == log;
  }

  // ---------------------------------------------------------------------
  // Runs
  // ---------------------------------------------------------------------

  /** Along the whole run the row of the identity is not purged. */
  ghost predicate StaysOnRecord(c: Core, steps: seq<Timed>, who: Identity) {
    forall n :: 0 <= n < |steps| ==> OnRecordStill(Run(c, steps[..n]), steps[n], who)
  }

  predicate OnRecordStill(c: Core, t: Timed, who: Identity) {
    who in c.db.clients ==> who in Step(c, t.input, t.now).db.clients
  }

  /** No step of the run is an overlap. */
  ghost predicate NobodyOverlaps(c: Core, steps: seq<Timed>, who: Identity, law: Law) {
    forall n :: 0 <= n < |steps| ==> !Overlaps(Run(c, steps[..n]), steps[n].input, steps[n].now, who, law)
  }

  lemma QuietPrefix(c: Core, steps: seq<Timed>, who: Identity, law: Law)
    requires StaysOnRecord(c, steps, who) && NobodyOverlaps(c, steps, who, law) && steps != []
    ensures var n := |steps| - 1;
            StaysOnRecord(c, steps[..n], who) && NobodyOverlaps(c, steps[..n], who, law)
            && !Overlaps(Run(c, steps[..n]), steps[n].input, steps[n].now, who, law)
            && OnRecordStill(Run(c, steps[..n]), steps[n], who)
  {
    hide Run, Overlaps, OnRecordStill;
    var before := steps[..|steps| - 1];
    assert forall n :: 0 <= n < |before| ==> before[..n] == steps[..n] && before[n] == steps[n];
  }

  lemma {:induction false} RunOnce(c: Core, steps: seq<Timed>, log: seq<Replayed>, who: Identity, law: Law)
    requires OnceInv(c, log, who, law) && PathInv(c) && StaysOnRecord(c, steps, who)
             && NobodyOverlaps(c, steps, who, law)
    ensures OnceInv(Run(c, steps), log + ReplayLog(c, steps), who, law) && PathInv(Run(c, steps))
  {
    hide OnceInv, PathInv, Overlaps, StaysOnRecord, NobodyOverlaps, Step, Replays;
    if steps != [] {
      var n := |steps| - 1;
      QuietPrefix(c, steps, who, law);
      RunOnce(c, steps[..n], log, who, law);
      var d, last := Run(c, steps[..n]), steps[n];
      StepOnce(d, last.input, last.now, log + ReplayLog(c, steps[..n]), who, law);
      StepKeeps(d, last.input, last.now);
      assert log + ReplayLog(c, steps) == log + ReplayLog(c, steps[..n]) + Replays(d, Run(c, steps));
    } else {
      assert log + [] == log;
    }
  }

  lemma StartOnce(retention: Retention, backlog: Backlog, db: Tables, r: Reconnection, now: Clock, steps: seq<Timed>,
                  who: Identity, law: Law)
    requires ValidMessages(db)
    requires var c0 := Start(retention, backlog, db, r, now);
             StaysOnRecord(c0, steps, who) && NobodyOverlaps(c0, steps, who, law)
    ensures var c0 := Start(retention, backlog, db, r, now); OnceInv(Run(c0, steps), ReplayLog(c0, steps), who, law)
  {
    var c0 := Start(retention, backlog, db, r, now);
    StartMail(retention, backlog, db, r, now);
    StartPath(retention, backlog, db, r, now);
    SameMessages(db, c0.db);
    hide Start, Run, PathInv, ValidMessages, IdsFor, ReplayLog, StaysOnRecord, NobodyOverlaps, OnceInv;
    EmptyLog(c0, who, law);
    RunOnce(c0, steps, [], who, law);
    assert [] + ReplayLog(c0, steps) == ReplayLog(c0, steps);
  }

  /** At most once. Over every run from any database, in which no connection identifies itself while another one of
      the same identity still has a stored message pending that is owed to the new one too, and the identity is not
      purged: no message is replayed to it twice, none above its cursor, and none that is on record as its own. */
  lemma ReplaysAreOnce(retention: Retention, backlog: Backlog, db: Tables, r: Reconnection, now: Clock,
                       steps: seq<Timed>, who: Identity)
    requires ValidMessages(db)
    requires var c0 := Start(retention, backlog, db, r, now);
             StaysOnRecord(c0, steps, who) && NobodyOverlaps(c0, steps, who, Once)
    ensures var c0 := Start(retention, backlog, db, r, now);
            var c, log := Run(c0, steps), ReplayLog(c0, steps);
            && (forall i, j :: 0 <= i < j < |IdsFor(log, who)| ==> IdsFor(log, who)[i] != IdsFor(log, who)[j])
            && (forall id :: id in IdsFor(log, who) ==> who in c.db.clients && id <= c.db.clients[who].lastSeen)
            && (forall e :: e in log && e.who == who ==> e.origin != Some(who))
  {
    StartOnce(retention, backlog, db, r, now, steps, who, Once);
    hide Start, Run, ValidMessages, IdsFor, ReplayLog, StaysOnRecord, NobodyOverlaps, Owing, Behind, Apart;
  }

  /** In order. If no connection to which something is owed identifies itself while another one of the same identity
      still has any stored message pending, the ids replayed to the identity strictly increase. */
  lemma ReplaysIncrease(retention: Retention, backlog: Backlog, db: Tables, r: Reconnection, now: Clock,
                        steps: seq<Timed>, who: Identity)
    requires ValidMessages(db)
    requires var c0 := Start(retention, backlog, db, r, now);
             StaysOnRecord(c0, steps, who) && NobodyOverlaps(c0, steps, who, InOrder)
    ensures var log := ReplayLog(Start(retention, backlog, db, r, now), steps);
            forall i, j :: 0 <= i < j < |IdsFor(log, who)| ==> IdsFor(log, who)[i] < IdsFor(log, who)[j]
  {
    StartOnce(retention, backlog, db, r, now, steps, who, InOrder);
    hide Start, Run, ValidMessages, IdsFor, ReplayLog, StaysOnRecord, NobodyOverlaps, Owing, Behind, Apart;
  }

  lemma EmptyLog(c: Core, who: Identity, law: Law)
    requires ValidMessages(c.db) && c.sessions == map[]
    ensures OnceInv(c, [], who, law)
  {
  }

  // ---------------------------------------------------------------------
  // Cursors
  // ---------------------------------------------------------------------

  /** The row is still there and not behind where it was. */
  ghost predicate NotBehind(c: Core, d: Core, who: Identity) {
    who in c.db.clients ==> who in d.db.clients && c.db.clients[who].lastSeen <= d.db.clients[who].lastSeen
  }

  lemma ReplayForward(c: Core, k: ClientId, now: Clock, who: Identity)
    ensures NotBehind(c, ReplayNextMissed(c, k, now).0, who)
  {
    if k in c.sessions {
      ServeForward(c, k, now, who);
      hide ServeMissed, MessageHead;
    }
  }

  lemma {:induction false} ServeForward(c: Core, k: ClientId, now: Clock, who: Identity)
    requires k in c.sessions
    ensures NotBehind(c, ServeMissed(c, k, now).0, who)
    decreases |c.sessions[k].pending|
  {
    var s := c.sessions[k];
    if s.pending != [] && MessageFrame(c.db, s.pending[0]).None? {
      hide MessageFrame;
      ServeForward(c.(sessions := c.sessions[k := s.(pending := s.pending[1..])]), k, now, who);
    }
  }

  lemma CommandForward(c: Core, cmd: ClientCommand, now: Clock, who: Identity)
    ensures NotBehind(c, HandleClientCommand(c, cmd, now), who)
  {
    if cmd.payload != [] && cmd.client in c.live {
      var c1 := NoteCommand(c, cmd, now);
      var c2 := if cmd.payload[0] == 0x0A then ReplayNextMissed(c1, cmd.client, now).0 else c1;
      RowAfterRegister(c, cmd, now, who);
      ReplayForward(c1, cmd.client, now, who);
      hide ServeOrForward, ReplayNextMissed, RegisterSession;
      ServeOrForwardQuiet(c2, cmd, now);
    }
  }

  lemma RadioForward(c: Core, p: Frame, now: Clock, who: Identity)
    requires SlotIsLastSent(c)
    ensures NotBehind(c, HandleRadioRx(c, p, now), who)
  {
    hide SlotIsLastSent, HandleRadioRx, StoreMessage, CaughtUpLive;
    var post := HandleRadioRx(c, p, now);
    if p == [] {
      NothingArrives(c, now);
    } else if Storable(p) {
      MessageStored(c, p, now);
      StoreRow(c, MessageTimestamp(p), p, None, now, who);
    } else {
      OtherFrameStores(c, p, now);
      if !SameMail(c, post) {
        var e, timestamp, frame, origin :| StoresOnce(c, e, timestamp, frame, origin, now, post);
        hide Reached;
        StoreRow(e, timestamp, frame, origin, now, who);
      }
    }
  }

  lemma MaintenanceForward(c: Core, now: Clock, who: Identity)
    requires who in c.db.clients
    ensures var d := RunMaintenance(c, now);
            if who in d.db.clients then d.db.clients[who] == c.db.clients[who]
            else c.conf.retention.clientsDays > 0
                 && c.db.clients[who].lastConnectedAt < Cutoff(now.unix, c.conf.retention.clientsDays)
  {
    RequestFullSyncQuiet(c, now);
    hide RequestFullSync, KeptContacts, KeptMessages;
  }

  /** A cursor never moves back. Its row goes only when maintenance finds the client gone for longer than the
      retention period. */
  lemma CursorsMoveForward(c: Core, i: Input, now: Clock, who: Identity)
    requires Reachable(c) && who in c.db.clients
    ensures var d := Step(c, i, now);
            if who in d.db.clients then c.db.clients[who].lastSeen <= d.db.clients[who].lastSeen
            else i.MaintenanceTick? && c.conf.retention.clientsDays > 0
                 && c.db.clients[who].lastConnectedAt < Cutoff(now.unix, c.conf.retention.clientsDays)
  {
    ReachablePath(c);
    hide HandleClientCommand, HandleRadioRx, CheckInFlightTimeout, RunMaintenance, ReconnectRadio, Reachable,
      Conserved, Fifo, Told, SlotIsLastSent;
    match i {
      case Connect =>
      case Disconnect(_) =>
      case Command(cmd) => CommandForward(c, cmd, now, who);
      case Radio(p) => RadioForward(c, p, now, who);
      case TimeoutTick => TimeoutQuiet(c, now);
      case MaintenanceTick => MaintenanceForward(c, now, who);
      case LinkCloses =>
      case Reconnect(how) => ReconnectQuiet(c, how, now);
    }
  }

  // ---------------------------------------------------------------------
  // What a replay puts on the channel
  // ---------------------------------------------------------------------

  /** A replay puts the stored frame on the channel, in the client's layout. */
  lemma {:induction false} ServedWire(c: Core, k: ClientId, now: Clock)
    requires LiveSession(c, k) && ServedId(c, k) != []
    ensures var d, frame := ServeMissed(c, k, now).0, MessageFrame(c.db, ServedId(c, k)[0]);
            frame.Some? && |d.out| > |c.out|
            && d.out[|c.out|]
            == ToClient(k, frame.value, MessageFrameFor(Version(c, k), frame.value), Missed(ServedId(c, k)[0]))
    decreases |c.sessions[k].pending|
  {
    var s := c.sessions[k];
    if MessageFrame(c.db, s.pending[0]).None? {
      hide MessageFrame;
      ServedWire(c.(sessions := c.sessions[k := s.(pending := s.pending[1..])]), k, now);
    }
    hide MessageFrame, MessageFrameFor;
  }
}
