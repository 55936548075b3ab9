/** Missed messages: what an identity is owed, and that nothing at or below its cursor is lost to it. */
module Replay {
  import opened Bytes
  import opened Protocol
  import opened Store
  import opened CoreState
  import opened RadioPath
  import opened Requests
  import opened Frames

  // ---------------------------------------------------------------------
  // Watching a run
  // ---------------------------------------------------------------------

  /** What an onlooker notes. `start`: for each identity, the cursor its promise counts from. `base`: for each
      connection, the cursor it identified itself at. `seen`: which identity has been shown which message,
      live, replayed, or by sending it. */
  datatype Watch = Watch(start: map<Identity, int>, base: map<ClientId, int>, seen: set<(Identity, int)>)

  predicate LiveSession(c: Core, k: ClientId) {
    k in c.sessions && k in c.live
  }

  function News(pre: Core, post: Core): seq<Event> {
    if |pre.out| <= |post.out| then post.out[|pre.out|..] else []
  }

  /** The event shows `frame` to connection `k`, or is the echo of what `k` sent. */
  predicate Shows(e: Event, k: ClientId, frame: Frame) {
    || (e.ToClient? && e.client == k && e.frame == frame && e.kind == Reply)
    || (e.ToOthers? && e.frame == frame && (k in e.wires || (e.why.Echoed? && e.why.request.client == Some(k))))
  }

  predicate Shown(news: seq<Event>, k: ClientId, frame: Frame) {
    exists j :: 0 <= j < |news| && Shows(news[j], k, frame)
  }

  /** The message stored in this step, if any. */
  function StoredNow(pre: Core, post: Core): Option<Message> {
    if post.db.lastId > pre.db.lastId && post.db.messages != [] then Some(post.db.messages[|post.db.messages| - 1])
    else None
  }

  ghost function ReplayedNow(pre: Core, post: Core): set<(Identity, int)> {
    set e | e in News(pre, post) && e.ToClient? && e.kind.Missed? && e.client in post.sessions
            && e.kind.id <= post.db.lastId ::
      (post.sessions[e.client].who, e.kind.id)
  }

  ghost function ShownNow(pre: Core, post: Core): set<(Identity, int)> {
    var m := StoredNow(pre, post);
    if m.None? || m.value.frame.None? then {}
    else set k | k in post.sessions && Shown(News(pre, post), k, m.value.frame.value) ::
           (post.sessions[k].who, m.value.id as int)
  }

  /** The cursors the live connections of an identity identified themselves at. */
  ghost function BasesOf(c: Core, base: map<ClientId, int>, who: Identity): set<int> {
    set k | k in c.sessions && k in c.live && c.sessions[k].who == who && k in base :: base[k]
  }

  ghost function Highest(s: set<int>): (top: int)
    ensures s != {} ==> top in s
    ensures forall x :: x in s ==> x <= top
  {
    if exists x :: x in s then
      var x :| x in s;
      var rest := s - {x};
      assert s == rest + {x};
      if rest == {} then x else Max(x, Highest(rest))
    else 0
  }

  /** A row created anew, a purged identity's included, counts from the highest cursor one of its live
      connections identified itself at. */
  ghost function StartAfter(w: Watch, base: map<ClientId, int>, pre: Core, post: Core): map<Identity, int> {
    map who | who in post.db.clients ::
      if who in pre.db.clients && who in w.start then w.start[who] else Highest(BasesOf(post, base, who))
  }

  predicate Registers(pre: Core, i: Input) {
    i.Command? && i.cmd.payload != [] && i.cmd.payload[0] == 0x01 && i.cmd.client in pre.live
  }

  function WhoIs(cmd: ClientCommand): Identity {
    Identity(cmd.port, AppName(cmd.payload))
  }

  /** The cursor a connection identifies itself at. */
  function Floor(pre: Core, cmd: ClientCommand, now: Clock): int {
    var who := WhoIs(cmd);
    if who in pre.db.clients then pre.db.clients[who].lastSeen
    else
      var pending := MissedBy(pre, who, now);
      if pending == [] then MessageHead(pre.db) else pending[0] - 1
  }

  ghost function WatchStep(w: Watch, pre: Core, i: Input, now: Clock): Watch {
    var post := Step(pre, i, now);
    var base := if Registers(pre, i) then w.base[i.cmd.client := Floor(pre, i.cmd, now)] else w.base;
    Watch(StartAfter(w, base, pre, post), base, w.seen + ReplayedNow(pre, post) + ShownNow(pre, post))
  }

  ghost function WatchRun(c: Core, w: Watch, steps: seq<Timed>): Watch {
    if steps == [] then w
    else
      var before, last := steps[..|steps| - 1], steps[|steps| - 1];
      WatchStep(WatchRun(c, w, before), Run(c, before), last.input, last.now)
  }

  /** Watching begins with the database as it is: what came before is not accounted for. */
  function WatchFrom(c: Core): Watch {
    Watch(map who | who in c.db.clients :: c.db.clients[who].lastSeen, map[], {})
  }

  // ---------------------------------------------------------------------
  // The promise and the invariant behind it
  // ---------------------------------------------------------------------

  /** Every retained message an identity may be replayed, above its starting point and at or below its
      cursor, has been seen by it. */
  ghost predicate NothingLost(c: Core, w: Watch) {
    forall m, who :: m in c.db.messages && who in c.db.clients ==> NotLost(c, w, m, who)
  }

  ghost predicate NotLost(c: Core, w: Watch, m: Message, who: Identity)
    requires who in c.db.clients
  {
    ReplayableTo(m, who) && who in w.start && w.start[who] < m.id <= c.db.clients[who].lastSeen ==>
          (who, m.id as int) in w.seen
  }

  /** What an identity may be replayed, above the cursor its connection identified itself at, it has seen, unless the
      connection still has it pending; and what is pending it may be replayed. */
  ghost predicate Accounted(c: Core, w: Watch, s: Session, base: int) {
    forall m :: m in c.db.messages ==> Covered(w, s, base, m)
  }

  ghost predicate Covered(w: Watch, s: Session, base: int, m: Message) {
    && (m.id as int in s.pending ==> ReplayableTo(m, s.who))
    && (ReplayableTo(m, s.who) && m.id > base && m.id as int !in s.pending ==> (s.who, m.id as int) in w.seen)
  }

  ghost predicate Bounded(c: Core, w: Watch, s: Session, base: int) {
    && Increasing(s.pending)
    && base <= c.db.lastId
    && (forall id :: id in s.pending ==> base < id <= c.db.lastId)
    && (s.who in c.db.clients && s.who in w.start ==> base <= c.db.clients[s.who].lastSeen || base <= w.start[s.who])
  }

  ghost predicate SessionInv(c: Core, w: Watch, k: ClientId)
    requires k in c.sessions
  {
    k in w.base && Bounded(c, w, c.sessions[k], w.base[k]) && Accounted(c, w, c.sessions[k], w.base[k])
  }

  ghost predicate ReplayInv(c: Core, w: Watch) {
    && ValidMessages(c.db)
    && c.db.clients.Keys <= w.start.Keys
    && (forall k :: k in c.sessions ==> k < c.nextClient)
    && (forall who :: who in c.db.clients ==> c.db.clients[who].lastSeen <= c.db.lastId)
    && (forall x :: x in w.seen ==> x.1 <= c.db.lastId)
    && NothingLost(c, w)
    && (forall k :: LiveSession(c, k) ==> SessionInv(c, w, k))
  }

  /** The watch has only learnt more, and agrees where there is a row. */
  ghost predicate Learnt(c: Core, w: Watch, w': Watch) {
    && w.seen <= w'.seen && w'.base == w.base && (forall x :: x in w'.seen ==> x.1 <= c.db.lastId)
    && forall who :: who in c.db.clients && who in w.start ==> who in w'.start && w'.start[who] == w.start[who]
  }

  lemma SameMailKeeps(c: Core, w: Watch, d: Core, w': Watch)
    requires ReplayInv(c, w) && SameMail(c, d) && Learnt(c, w, w')
    ensures ReplayInv(d, w')
  {
    SameMessages(c.db, d.db);
    hide ValidMessages, Increasing, ReplayableTo;
    forall m, who | m in d.db.messages && who in d.db.clients
      ensures NotLost(d, w', m, who)
    {
      assert NotLost(c, w, m, who);
    }
    forall k | LiveSession(d, k)
      ensures SessionInv(d, w', k)
    {
      assert LiveSession(c, k) && SessionInv(c, w, k);
      var s, base := c.sessions[k], w.base[k];
      forall m | m in d.db.messages
        ensures Covered(w', s, base, m)
      {
        assert Covered(w, s, base, m);
      }
    }
  }

  // ---------------------------------------------------------------------
  // Moving a cursor
  // ---------------------------------------------------------------------

  /** Moving an identity's cursor forward over messages one of its live connections no longer owes it. */
  lemma AdvanceNotLost(c: Core, w: Watch, k: ClientId, v: int, m: Message)
    requires ReplayInv(c, w) && LiveSession(c, k) && m in c.db.messages
    requires forall id :: id in c.sessions[k].pending ==> id > v
    requires ReplayableTo(m, c.sessions[k].who) && m.id <= v
    requires c.sessions[k].who in c.db.clients && w.start[c.sessions[k].who] < m.id
    ensures (c.sessions[k].who, m.id as int) in w.seen
  {
    var s, base := c.sessions[k], w.base[k];
    assert SessionInv(c, w, k) && NotLost(c, w, m, s.who) && Covered(w, s, base, m);
  }

  /** The promise to the identity starts at or above every cursor its live connections identified themselves at. */
  ghost predicate StartsAbove(c: Core, w: Watch, who: Identity) {
    who in w.start && forall k :: LiveSession(c, k) && c.sessions[k].who == who && k in w.base ==>
          w.base[k] <= w.start[who]
  }

  /** The same connections are there, speaking for the same identities. */
  ghost predicate SameSpeakers(c: Core, d: Core) {
    forall k :: (LiveSession(c, k) <==> LiveSession(d, k))
        && (LiveSession(c, k) ==> d.sessions[k].who == c.sessions[k].who)
  }

  lemma SameBases(c: Core, d: Core, base: map<ClientId, int>, who: Identity)
    requires SameSpeakers(c, d)
    ensures BasesOf(d, base, who) == BasesOf(c, base, who)
  {
    forall x | x in BasesOf(c, base, who)
      ensures x in BasesOf(d, base, who)
    {
      var k :| LiveSession(c, k) && c.sessions[k].who == who && k in base && base[k] == x;
      assert LiveSession(d, k);
    }
    forall x | x in BasesOf(d, base, who)
      ensures x in BasesOf(c, base, who)
    {
      var k :| LiveSession(d, k) && d.sessions[k].who == who && k in base && base[k] == x;
      assert LiveSession(c, k);
    }
  }

  lemma HighestStartsAbove(c: Core, w: Watch, who: Identity)
    requires who in w.start && w.start[who] == Highest(BasesOf(c, w.base, who))
    ensures StartsAbove(c, w, who)
  {
    forall k | LiveSession(c, k) && c.sessions[k].who == who && k in w.base
      ensures w.base[k] <= w.start[who]
    {
      assert w.base[k] in BasesOf(c, w.base, who);
    }
  }

  /** The clients table after some identities' cursors have moved to `v`. */
  ghost predicate Moved(c: Core, d: Core, w: Watch, whos: set<Identity>, v: int) {
    && d.db.clients.Keys == c.db.clients.Keys + whos
    && (forall who :: who in c.db.clients && who !in whos ==> d.db.clients[who] == c.db.clients[who])
    && (forall who :: who in whos && who in c.db.clients ==>
          d.db.clients[who].lastSeen == Max(c.db.clients[who].lastSeen, v))
    && (forall who :: who in whos && who !in c.db.clients ==> StartsAbove(c, w, who))
    && (forall who :: who in whos && who !in c.db.clients ==> d.db.clients[who].lastSeen == v)
    && (forall who :: who in whos ==> exists k :: LiveSession(c, k) && c.sessions[k].who == who
                                          && forall id :: id in c.sessions[k].pending ==> id > v)
  }

  lemma MovedKeeps(c: Core, w: Watch, d: Core, whos: set<Identity>, v: int)
    requires ReplayInv(c, w) && Moved(c, d, w, whos, v) && v <= c.db.lastId
    requires d.db.messages == c.db.messages && d.db.lastId == c.db.lastId
    requires d.live == c.live && d.nextClient == c.nextClient
    requires forall k :: k in d.sessions ==> k in c.sessions && d.sessions[k] == c.sessions[k]
    ensures ReplayInv(d, w)
  {
    hide ValidMessages, Increasing, ReplayableTo;
    assert ValidMessages(d.db) by { SameMessages(c.db, d.db); }
    forall m, who | m in d.db.messages && who in d.db.clients
      ensures NotLost(d, w, m, who)
    {
      MovedNotLost(c, w, d, whos, v, m, who);
    }
    forall k | LiveSession(d, k)
      ensures SessionInv(d, w, k)
    {
      assert LiveSession(c, k) && SessionInv(c, w, k);
      var s := c.sessions[k];
      assert Accounted(d, w, s, w.base[k]) by { SameAccounted(c, d, w, s, w.base[k]); }
      assert Bounded(d, w, s, w.base[k]);
    }
  }

  lemma SameMessages(t: Tables, u: Tables)
    requires ValidMessages(t) && u.messages == t.messages && u.lastId == t.lastId
    ensures ValidMessages(u)
  {
  }

  lemma SameAccounted(c: Core, d: Core, w: Watch, s: Session, base: int)
    requires Accounted(c, w, s, base) && d.db.messages == c.db.messages
    ensures Accounted(d, w, s, base)
  {
  }

  lemma MovedNotLost(c: Core, w: Watch, d: Core, whos: set<Identity>, v: int, m: Message, who: Identity)
    requires ReplayInv(c, w) && Moved(c, d, w, whos, v) && v <= c.db.lastId
    requires m in c.db.messages && who in d.db.clients
    ensures NotLost(d, w, m, who)
  {
    if who in c.db.clients {
      assert NotLost(c, w, m, who);
    }
    if who in whos && who !in c.db.clients && ReplayableTo(m, who) && w.start[who] < m.id <= v {
      var k :| LiveSession(c, k) && c.sessions[k].who == who && forall id :: id in c.sessions[k].pending ==> id > v;
      assert SessionInv(c, w, k) && Covered(w, c.sessions[k], w.base[k], m);
    }
    if who in whos && who in c.db.clients && ReplayableTo(m, who) && w.start[who] < m.id <= v {
      var k :| LiveSession(c, k) && c.sessions[k].who == who && forall id :: id in c.sessions[k].pending ==> id > v;
      AdvanceNotLost(c, w, k, v, m);
    }
  }

  // ---------------------------------------------------------------------
  // Replaying
  // ---------------------------------------------------------------------

  /** Before a row is created under a live connection, its starting point is set. */
  ghost function Restarted(c: Core, w: Watch, who: Identity): Watch {
    if who in c.db.clients then w else w.(start := w.start[who := Highest(BasesOf(c, w.base, who))])
  }

  lemma RestartKeeps(c: Core, w: Watch, who: Identity)
    requires ReplayInv(c, w)
    ensures ReplayInv(c, Restarted(c, w, who))
  {
    hide ValidMessages, Increasing, ReplayableTo;
    var w' := Restarted(c, w, who);
    forall m, x | m in c.db.messages && x in c.db.clients
      ensures NotLost(c, w', m, x)
    {
      assert NotLost(c, w, m, x);
    }
    forall k | LiveSession(c, k)
      ensures SessionInv(c, w', k)
    {
      assert SessionInv(c, w, k);
      forall m | m in c.db.messages
        ensures Covered(w', c.sessions[k], w.base[k], m)
      {
        assert Covered(w, c.sessions[k], w.base[k], m);
      }
    }
  }

  lemma RestartsAbove(c: Core, w: Watch, who: Identity)
    ensures who !in c.db.clients ==> StartsAbove(c, Restarted(c, w, who), who)
  {
    if who !in c.db.clients {
      HighestStartsAbove(c, Restarted(c, w, who), who);
    }
  }

  /** Taking the first pending id off: it has been shown, or its message is gone. */
  lemma PopKeeps(c: Core, w: Watch, k: ClientId)
    requires ReplayInv(c, w) && LiveSession(c, k) && c.sessions[k].pending != []
    requires var s := c.sessions[k];
             (s.who, s.pending[0]) in w.seen || forall m :: m in c.db.messages ==> m.id != s.pending[0]
    ensures var s := c.sessions[k];
            ReplayInv(c.(sessions := c.sessions[k := s.(pending := s.pending[1..])]), w)
  {
    hide ValidMessages, ReplayableTo;
    var s := c.sessions[k];
    var s' := s.(pending := s.pending[1..]);
    var d := c.(sessions := c.sessions[k := s']);
    assert SessionInv(c, w, k);
    assert s.pending == [s.pending[0]] + s'.pending;
    assert forall id :: id in s'.pending ==> id in s.pending;
    forall m, who | m in d.db.messages && who in d.db.clients
      ensures NotLost(d, w, m, who)
    {
      assert NotLost(c, w, m, who);
    }
    forall j | LiveSession(d, j)
      ensures SessionInv(d, w, j)
    {
      assert LiveSession(c, j) && SessionInv(c, w, j);
      forall m | m in d.db.messages
        ensures Covered(w, d.sessions[j], w.base[j], m)
      {
        assert Covered(w, c.sessions[j], w.base[j], m);
      }
    }
  }

  /** Moving one identity's cursor on behalf of a live connection that owes nothing up to there. */
  lemma AdvanceCursorKeeps(c: Core, w: Watch, k: ClientId, v: int, now: Clock)
    requires ReplayInv(c, w) && LiveSession(c, k) && v <= c.db.lastId
    requires forall id :: id in c.sessions[k].pending ==> id > v
    requires c.sessions[k].who !in c.db.clients ==>
               StartsAbove(c, w, c.sessions[k].who)
    ensures ReplayInv(AdvanceCursor(c, c.sessions[k].who, v, now), w)
  {
    var who := c.sessions[k].who;
    var d := AdvanceCursor(c, who, v, now);
    hide ReplayInv;
    assert Moved(c, d, w, {who}, v);
    MovedKeeps(c, w, d, {who}, v);
  }

  /** The watch while a client is being served: the row is about to exist, and the served id counts as seen. */
  ghost function Serving(c: Core, w: Watch, who: Identity, served: seq<int>): Watch {
    Restarted(c, w, who).(seen := w.seen + set id | id in served :: (who, id))
  }

  /** The id `ServeMissed` serves, if it serves one. */
  function ServedId(c: Core, client: ClientId): seq<int>
    requires client in c.sessions
    decreases |c.sessions[client].pending|
  {
    var s := c.sessions[client];
    if s.pending == [] then []
    else if MessageFrame(c.db, s.pending[0]).Some? then [s.pending[0]]
    else ServedId(c.(sessions := c.sessions[client := s.(pending := s.pending[1..])]), client)
  }

  lemma NoFrameNoReplay(c: Core, w: Watch, k: ClientId)
    requires ReplayInv(c, w) && LiveSession(c, k) && c.sessions[k].pending != []
    requires MessageFrame(c.db, c.sessions[k].pending[0]).None?
    ensures forall m :: m in c.db.messages ==> m.id != c.sessions[k].pending[0]
  {
    hide Increasing;
    FrameOfExact(c.db.messages, c.sessions[k].pending[0]);
    forall m | m in c.db.messages
      ensures m.id != c.sessions[k].pending[0]
    {
      assert SessionInv(c, w, k) && Covered(w, c.sessions[k], w.base[k], m);
    }
  }

  lemma LearnKeeps(c: Core, w: Watch, who: Identity, id: int)
    requires ReplayInv(c, w) && id <= c.db.lastId
    ensures ReplayInv(c, w.(seen := w.seen + {(who, id)}))
  {
    hide ReplayInv;
    assert Learnt(c, w, w.(seen := w.seen + {(who, id)})) by { SeenBounded(c, w); }
    SameMailKeeps(c, w, c, w.(seen := w.seen + {(who, id)}));
  }

  lemma SeenBounded(c: Core, w: Watch)
    requires ReplayInv(c, w)
    ensures forall x :: x in w.seen ==> x.1 <= c.db.lastId
  {
  }

  lemma {:induction false} ServeKeeps(c: Core, w: Watch, k: ClientId, now: Clock)
    requires ReplayInv(c, w) && LiveSession(c, k)
    requires c.sessions[k].who !in c.db.clients ==>
               StartsAbove(c, w, c.sessions[k].who)
    ensures var (d, served) := ServeMissed(c, k, now);
            var ids := ServedId(c, k);
            ReplayInv(d, w.(seen := w.seen + set id | id in ids :: (c.sessions[k].who, id)))
            && served == (ids != []) && LiveSession(d, k) && d.sessions[k].who == c.sessions[k].who
            && d.db.lastId == c.db.lastId && d.db.messages == c.db.messages && d.live == c.live
            && c.db.clients.Keys <= d.db.clients.Keys <= c.db.clients.Keys + {c.sessions[k].who}
            && (c.sessions[k].who !in d.db.clients ==> StartsAbove(d, w, c.sessions[k].who))
    decreases |c.sessions[k].pending|
  {
    var s := c.sessions[k];
    var ids := ServedId(c, k);
    if s.pending == [] {
      assert w.seen + (set id | id in ids :: (s.who, id)) == w.seen;
    } else {
      var id, c1 := s.pending[0], c.(sessions := c.sessions[k := s.(pending := s.pending[1..])]);
      PendingBounded(c, w, k);
      assert id in s.pending;
      var frame := MessageFrame(c1.db, id);
      hide ReplayInv, MessageFrame;
      if frame.None? {
        NoFrameNoReplay(c, w, k);
        PopKeeps(c, w, k);
        ServeKeeps(c1, w, k, now);
      } else {
        assert (set x | x in ids :: (s.who, x)) == {(s.who, id)};
        var w1 := w.(seen := w.seen + {(s.who, id)});
        LearnKeeps(c, w, s.who, id);
        PopKeeps(c, w1, k);
        var c2 := SendToClient(c1, k, frame.value, Missed(id));
        SeenBounded(c1, w1);
        SameMailKeeps(c1, w1, c2, w1);
        PendingAfterPop(c, w, k);
        AdvanceCursorKeeps(c2, w1, k, id, now);
      }
    }
  }

  lemma PendingBounded(c: Core, w: Watch, k: ClientId)
    requires ReplayInv(c, w) && LiveSession(c, k)
    ensures forall id :: id in c.sessions[k].pending ==> id <= c.db.lastId
  {
    assert SessionInv(c, w, k);
  }

  lemma PendingAfterPop(c: Core, w: Watch, k: ClientId)
    requires ReplayInv(c, w) && LiveSession(c, k) && c.sessions[k].pending != []
    ensures forall id :: id in c.sessions[k].pending[1..] ==> id > c.sessions[k].pending[0]
  {
    assert SessionInv(c, w, k);
    var p := c.sessions[k].pending;
    forall id | id in p[1..]
      ensures id > p[0]
    {
      var j :| 0 <= j < |p[1..]| && p[1..][j] == id;
      assert p[0] < p[j + 1];
    }
  }

  lemma HeadBounded(t: Tables)
    requires ValidMessages(t)
    ensures MessageHead(t) <= t.lastId
  {
    if t.messages != [] {
      assert t.messages[|t.messages| - 1] in t.messages;
    }
  }

  lemma ReplayKeeps(c: Core, w: Watch, k: ClientId, now: Clock)
    requires ReplayInv(c, w) && LiveSession(c, k)
    ensures var w' := Serving(c, w, c.sessions[k].who, ServedId(c, k));
            ReplayInv(ReplayNextMissed(c, k, now).0, w')
            && ReplayNextMissed(c, k, now).0.db.lastId == c.db.lastId
            && ReplayNextMissed(c, k, now).0.db.clients.Keys <= c.db.clients.Keys + {c.sessions[k].who}
  {
    var who, ids := c.sessions[k].who, ServedId(c, k);
    var w0 := Restarted(c, w, who);
    RestartKeeps(c, w, who);
    RestartsAbove(c, w, who);
    hide ReplayInv, BasesOf;
    ServeKeeps(c, w0, k, now);
    var d := ServeMissed(c, k, now).0;
    var w' := w0.(seen := w0.seen + set id | id in ids :: (who, id));
    assert w' == Serving(c, w, who, ids);
    hide ServeMissed, ServedId;
    assert who !in d.db.clients ==> StartsAbove(d, w', who);
    hide StartsAbove;
    MessagesValid(d, w');
    HeadBounded(d.db);
    hide ValidMessages, MessageHead;
    if d.sessions[k].pending == [] {
      AdvanceCursorKeeps(d, w', k, MessageHead(d.db), now);
    }
  }

  lemma MessagesValid(c: Core, w: Watch)
    requires ReplayInv(c, w)
    ensures ValidMessages(c.db)
  {
  }

  // ---------------------------------------------------------------------
  // Identifying
  // ---------------------------------------------------------------------

  /** Where a registration leaves the watch. */
  ghost function Registered(c: Core, w: Watch, cmd: ClientCommand, now: Clock): Watch {
    var who := WhoIs(cmd);
    var w1 := w.(base := w.base[cmd.client := Floor(c, cmd, now)]);
    if who in c.db.clients then w1
    else w1.(start := w1.start[who := Highest(BasesOf(RegisterSession(c, cmd, now), w1.base, who))])
  }

  /** The pending list of a new session and the cursor it starts from fit together. */
  lemma MissedFits(c: Core, cmd: ClientCommand, now: Clock)
    requires ValidMessages(c.db)
    requires c.conf.backlog.Seconds? ==> ArrivalOrder(c.db)
    ensures var who, pending, floor := WhoIs(cmd), MissedBy(c, WhoIs(cmd), now), Floor(c, cmd, now);
            Increasing(pending)
            && (forall id :: id in pending ==> floor < id <= c.db.lastId)
            && (forall m :: m in c.db.messages ==>
                  (m.id as int in pending ==> ReplayableTo(m, who))
                  && (ReplayableTo(m, who) && m.id > floor ==> m.id as int in pending))
  {
    var who, pending, floor := WhoIs(cmd), MissedBy(c, WhoIs(cmd), now), Floor(c, cmd, now);
    hide MessageIdsAfter, BacklogMessageIds, AppName, NoGap;
    if who in c.db.clients {
      MessageIdsAfterExact(c.db, floor, who);
    } else {
      if c.conf.backlog.Seconds? {
        OrderedHasNoGap(c.db, who, now.unix - c.conf.backlog.s);
      }
      BacklogIsATail(c.db, c.conf.backlog, who, now.unix);
      if pending != [] {
        MessageIdsAfterExact(c.db, pending[0] - 1, who);
      } else {
        NothingAboveHead(c.db);
      }
    }
    IdsUnique(c.db);
  }

  lemma NothingAboveHead(t: Tables)
    requires ValidMessages(t)
    ensures forall m :: m in t.messages ==> m.id <= MessageHead(t)
  {
    forall m | m in t.messages
      ensures m.id <= MessageHead(t)
    {
      var i :| 0 <= i < |t.messages| && t.messages[i] == m;
      assert Ids(t.messages)[i] <= Ids(t.messages)[|t.messages| - 1];
    }
  }

  lemma FloorBounded(c: Core, w: Watch, cmd: ClientCommand, now: Clock)
    requires ReplayInv(c, w)
    requires c.conf.backlog.Seconds? ==> ArrivalOrder(c.db)
    ensures WhoIs(cmd) !in c.db.clients ==> Floor(c, cmd, now) <= c.db.lastId
  {
    MissedFits(c, cmd, now);
    HeadBounded(c.db);
    hide MissedBy, ReplayInv, AppName;
    var pending := MissedBy(c, WhoIs(cmd), now);
    if pending != [] {
      assert pending[0] in pending;
    }
  }

  lemma RegisterKeeps(c: Core, w: Watch, cmd: ClientCommand, now: Clock)
    requires ReplayInv(c, w) && cmd.client in c.live && cmd.client < c.nextClient
    requires c.conf.backlog.Seconds? ==> ArrivalOrder(c.db)
    ensures ReplayInv(RegisterSession(c, cmd, now), Registered(c, w, cmd, now))
  {
    var d, w' := RegisterSession(c, cmd, now), Registered(c, w, cmd, now);
    RegisterTables(c, w, cmd, now);
    assert d.db.messages == c.db.messages && d.live == c.live && d.nextClient == c.nextClient;
    hide ValidMessages, NotLost, SessionInv, RegisterSession, Registered;
    forall m, who | m in d.db.messages && who in d.db.clients
      ensures NotLost(d, w', m, who)
    {
      RegisterNotLost(c, w, cmd, now, m, who);
    }
    forall k | LiveSession(d, k)
      ensures SessionInv(d, w', k)
    {
      if k == cmd.client {
        RegisterOwnSession(c, w, cmd, now);
      } else {
        RegisterOtherSession(c, w, cmd, now, k);
      }
    }
  }

  lemma RegisterTables(c: Core, w: Watch, cmd: ClientCommand, now: Clock)
    requires ReplayInv(c, w)
    requires c.conf.backlog.Seconds? ==> ArrivalOrder(c.db)
    ensures var d, w' := RegisterSession(c, cmd, now), Registered(c, w, cmd, now);
            ValidMessages(d.db) && d.db.clients.Keys <= w'.start.Keys && w'.seen == w.seen && d.db.lastId == c.db.lastId
            && d.sessions.Keys == c.sessions.Keys + {cmd.client}
            && (forall k :: k in c.sessions && k != cmd.client ==> d.sessions[k] == c.sessions[k])
            && (forall who :: who in d.db.clients ==> d.db.clients[who].lastSeen <= d.db.lastId)
  {
    var d := RegisterSession(c, cmd, now);
    MissedFits(c, cmd, now);
    FloorBounded(c, w, cmd, now);
    HeadBounded(c.db);
    SameMessages(c.db, d.db);
    RegisterRow(c, w, cmd, now);
    hide ValidMessages, Increasing, ReplayableTo, MissedBy, Floor, AppName, MessageHead, NothingLost, SessionInv;
    var p := MissedBy(c, WhoIs(cmd), now);
    if p != [] {
      assert p[0] in p;
    }
  }

  /** The row a registration leaves behind. */
  lemma RegisterRow(c: Core, w: Watch, cmd: ClientCommand, now: Clock)
    requires ReplayInv(c, w)
    ensures var who, d := WhoIs(cmd), RegisterSession(c, cmd, now);
            d.db.clients.Keys == c.db.clients.Keys + {who}
            && (forall x :: x in c.db.clients && x != who ==> d.db.clients[x] == c.db.clients[x])
            && (who !in c.db.clients ==> d.db.clients[who].lastSeen == Floor(c, cmd, now))
            && (who in c.db.clients ==>
                  Floor(c, cmd, now) == c.db.clients[who].lastSeen <= d.db.clients[who].lastSeen
                  && d.db.clients[who].lastSeen
                     == Max(c.db.clients[who].lastSeen,
                            var p := MissedBy(c, who, now); if p == [] then MessageHead(c.db) else p[0] - 1))
  {
    hide ReplayInv, MissedBy, AppName;
  }

  lemma RegisterNotLost(c: Core, w: Watch, cmd: ClientCommand, now: Clock, m: Message, who: Identity)
    requires ReplayInv(c, w) && m in c.db.messages && who in RegisterSession(c, cmd, now).db.clients
             && cmd.client in c.live
    requires c.conf.backlog.Seconds? ==> ArrivalOrder(c.db)
    ensures NotLost(RegisterSession(c, cmd, now), Registered(c, w, cmd, now), m, who)
  {
    MissedFits(c, cmd, now);
    RegisterRow(c, w, cmd, now);
    NothingAboveHead(c.db);
    FloorBounded(c, w, cmd, now);
    hide ValidMessages, Increasing, ReplayableTo, MissedBy, Floor, AppName, MessageHead;
    if who in c.db.clients {
      assert NotLost(c, w, m, who);
      if who == WhoIs(cmd) && ReplayableTo(m, who) && m.id > c.db.clients[who].lastSeen {
        FirstPending(c, cmd, now, m);
      }
    } else {
      RegisteredAbove(c, w, cmd, now);
    }
  }

  /** The promise to an identity put on record anew starts above what its connections were already owed. */
  lemma RegisteredAbove(c: Core, w: Watch, cmd: ClientCommand, now: Clock)
    requires WhoIs(cmd) !in c.db.clients && cmd.client in c.live
    ensures var d, w' := RegisterSession(c, cmd, now), Registered(c, w, cmd, now);
            StartsAbove(d, w', WhoIs(cmd)) && w'.start[WhoIs(cmd)] >= Floor(c, cmd, now)
            && forall k :: LiveSession(c, k) && k != cmd.client && c.sessions[k].who == WhoIs(cmd) && k in w.base ==>
                 w.base[k] <= w'.start[WhoIs(cmd)]
  {
    var d, w' := RegisterSession(c, cmd, now), Registered(c, w, cmd, now);
    HighestStartsAbove(d, w', WhoIs(cmd));
    hide MissedBy, AppName, MessageHead, Floor;
    assert LiveSession(d, cmd.client) && d.sessions[cmd.client].who == WhoIs(cmd);
    forall k | LiveSession(c, k) && k != cmd.client && c.sessions[k].who == WhoIs(cmd) && k in w.base
      ensures w.base[k] <= w'.start[WhoIs(cmd)]
    {
      assert LiveSession(d, k) && d.sessions[k] == c.sessions[k];
    }
  }

  /** A message above the floor is pending, so no cursor the registration sets has passed it. */
  lemma FirstPending(c: Core, cmd: ClientCommand, now: Clock, m: Message)
    requires ValidMessages(c.db) && m in c.db.messages
    requires c.conf.backlog.Seconds? ==> ArrivalOrder(c.db)
    requires ReplayableTo(m, WhoIs(cmd)) && m.id > Floor(c, cmd, now)
    ensures var p := MissedBy(c, WhoIs(cmd), now); p != [] && p[0] - 1 < m.id
  {
    MissedFits(c, cmd, now);
    hide MissedBy, Floor, AppName;
    var p := MissedBy(c, WhoIs(cmd), now);
    assert m.id as int in p;
    var i :| 0 <= i < |p| && p[i] == m.id;
    assert p[0] <= p[i];
  }

  lemma RegisterOtherSession(c: Core, w: Watch, cmd: ClientCommand, now: Clock, k: ClientId)
    requires ReplayInv(c, w) && LiveSession(c, k) && k != cmd.client && cmd.client in c.live
    ensures SessionInv(RegisterSession(c, cmd, now), Registered(c, w, cmd, now), k)
  {
    assert SessionInv(c, w, k);
    RegisterRow(c, w, cmd, now);
    hide ValidMessages, Increasing, ReplayableTo, MissedBy, Floor, AppName, MessageHead, ReplayInv;
    var d, w' := RegisterSession(c, cmd, now), Registered(c, w, cmd, now);
    var s := c.sessions[k];
    forall m | m in d.db.messages
      ensures Covered(w', s, w'.base[k], m)
    {
      assert Covered(w, s, w.base[k], m);
    }
    if s.who == WhoIs(cmd) && s.who !in c.db.clients {
      RegisteredAbove(c, w, cmd, now);
    }
  }

  lemma RegisterOwnSession(c: Core, w: Watch, cmd: ClientCommand, now: Clock)
    requires ReplayInv(c, w)
    requires c.conf.backlog.Seconds? ==> ArrivalOrder(c.db)
    ensures SessionInv(RegisterSession(c, cmd, now), Registered(c, w, cmd, now), cmd.client)
  {
    MissedFits(c, cmd, now);
    RegisterRow(c, w, cmd, now);
    FloorBounded(c, w, cmd, now);
    RowBounded(c, w, WhoIs(cmd));
    hide ValidMessages, Increasing, ReplayableTo, MissedBy, AppName, MessageHead, ReplayInv, Floor;
  }

  /** No cursor is ahead of the newest id. */
  lemma RowBounded(c: Core, w: Watch, who: Identity)
    requires ReplayInv(c, w)
    ensures who in c.db.clients ==> c.db.clients[who].lastSeen <= c.db.lastId
  {
  }

  // ---------------------------------------------------------------------
  // New messages
  // ---------------------------------------------------------------------

  /** A message is stored and every live session has been shown it. */
  lemma StoreKeeps(c: Core, w: Watch, timestamp: int, frame: Frame, origin: Option<Identity>, now: Clock, w': Watch)
    requires ReplayInv(c, w)
    requires w'.base == w.base && w.seen <= w'.seen
    requires forall x :: x in w'.seen ==> x.1 <= c.db.lastId + 1
    requires forall k :: LiveSession(c, k) ==> (c.sessions[k].who, c.db.lastId + 1) in w'.seen
    requires forall who :: who in c.db.clients ==> who in w'.start && w'.start[who] == w.start[who]
    requires forall who :: who in CaughtUpLive(c) && who !in c.db.clients ==>
               StartsAbove(c, w', who)
    ensures ReplayInv(StoreMessage(c, timestamp, frame, origin, now), w')
  {
    var c1 := c.(db := InsertMessage(c.db, timestamp, frame, origin, now.unix));
    InsertKeeps(c, w, timestamp, frame, origin, now, w');
    var d := FollowHead(c1, c1.db.lastId, now);
    hide ReplayInv, AdvanceAll;
    FollowMoves(c1, w', now);
    MovedKeeps(c1, w', d, CaughtUpLive(c1), c1.db.lastId);
  }

  lemma InsertKeeps(c: Core, w: Watch, timestamp: int, frame: Frame, origin: Option<Identity>, now: Clock, w': Watch)
    requires ReplayInv(c, w)
    requires w'.base == w.base && w.seen <= w'.seen
    requires forall x :: x in w'.seen ==> x.1 <= c.db.lastId + 1
    requires forall k :: LiveSession(c, k) ==> (c.sessions[k].who, c.db.lastId + 1) in w'.seen
    requires forall who :: who in c.db.clients ==> who in w'.start && w'.start[who] == w.start[who]
    ensures ReplayInv(c.(db := InsertMessage(c.db, timestamp, frame, origin, now.unix)), w')
  {
    var d := c.(db := InsertMessage(c.db, timestamp, frame, origin, now.unix));
    InsertedValid(c.db, timestamp, frame, origin, now.unix);
    hide ValidMessages, Increasing, ReplayableTo;
    var row := Message(c.db.lastId + 1, timestamp, Some(now.unix), Some(frame), origin);
    assert d.db.messages == c.db.messages + [row];
    forall m, who | m in d.db.messages && who in d.db.clients
      ensures NotLost(d, w', m, who)
    {
      if m in c.db.messages {
        assert NotLost(c, w, m, who);
      } else {
        assert m == row;
      }
    }
    forall k | LiveSession(d, k)
      ensures SessionInv(d, w', k)
    {
      assert LiveSession(c, k) && SessionInv(c, w, k);
      InsertSession(c, w, d, w', k, row);
    }
  }

  lemma InsertSession(c: Core, w: Watch, d: Core, w': Watch, k: ClientId, row: Message)
    requires k in c.sessions && SessionInv(c, w, k) && d == c.(db := d.db)
    requires d.db == c.db.(messages := c.db.messages + [row], lastId := c.db.lastId + 1) && row.id == c.db.lastId + 1
    requires w'.base == w.base && w.seen <= w'.seen && (c.sessions[k].who, c.db.lastId + 1) in w'.seen
    requires forall who :: who in c.db.clients ==> who in w'.start && who in w.start && w'.start[who] == w.start[who]
    ensures SessionInv(d, w', k)
  {
    var s, base := c.sessions[k], w.base[k];
    hide ReplayableTo, Increasing;
    forall m | m in d.db.messages
      ensures Covered(w', s, base, m)
    {
      if m in c.db.messages {
        assert Covered(w, s, base, m);
      } else {
        assert m == row && m.id as int !in s.pending;
      }
    }
  }

  ghost function CaughtUpLive(c: Core): set<Identity> {
    set k | k in c.sessions && k in c.live && c.sessions[k].pending == [] :: c.sessions[k].who
  }

  lemma FollowMoves(c: Core, w: Watch, now: Clock)
    requires forall who :: who in CaughtUpLive(c) && who !in c.db.clients ==>
               StartsAbove(c, w, who)
    ensures var d := FollowHead(c, c.db.lastId, now);
            Moved(c, d, w, CaughtUpLive(c), c.db.lastId)
            && d.db.messages == c.db.messages && d.db.lastId == c.db.lastId && d.conf == c.conf
            && d.live == c.live && d.nextClient == c.nextClient && d.out == c.out
            && (forall k :: k in d.sessions <==> LiveSession(c, k))
            && forall k :: k in d.sessions ==> k in c.sessions && d.sessions[k] == c.sessions[k]
  {
    var kept := map k | k in c.sessions && k in c.live :: c.sessions[k];
    forall who
      ensures who in CaughtUp(kept) <==> who in CaughtUpLive(c)
    {
      if who in CaughtUpLive(c) {
        var k :| k in c.sessions && k in c.live && c.sessions[k].pending == [] && c.sessions[k].who == who;
        assert k in kept && kept[k].pending == [] && kept[k].who == who;
      }
    }
    assert CaughtUp(kept) == CaughtUpLive(c);
    forall who | who in CaughtUpLive(c)
      ensures exists k :: LiveSession(c, k) && c.sessions[k].who == who && forall id :: id in c.sessions[k].pending ==>
                id > c.db.lastId
    {
      var k :| k in c.sessions && k in c.live && c.sessions[k].pending == [] && c.sessions[k].who == who;
      assert LiveSession(c, k);
    }
  }
}
