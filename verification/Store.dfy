/** The SQLite tables behind the multiplexer, as values. */
module Store {
  import opened Bytes
  import opened Protocol

  const DAY := 86_400

  /** A client across reconnections: the local port it connects to and the app name it announces. */
  datatype Identity = Identity(port: nat, app: Frame)

  /** A row of `messages`. `frame` is missing only in rows written by older versions. */
  datatype Message = Message(id: nat, timestamp: int, receivedAt: Option<int>, frame: Option<Frame>,
                             origin: Option<Identity>)

  /** A row of `clients`: the highest message id the identity has seen. */
  datatype Client = Client(lastSeen: int, lastConnectedAt: int)

  /** A row of `contacts`. `place` stands for the two coordinate words, which only rows without a raw frame
      are rebuilt from. */
  datatype Contact = Contact(key: Frame, name: Frame, kind: byte, lastAdvert: Option<int>, place: Frame,
                             raw: Option<Frame>, seenAt: Option<int>)

  datatype Channel = Channel(idx: int, name: Frame, config: Option<Frame>)

  datatype Blob = SelfInfo | DeviceInfo | Battery

  datatype Backlog = Off | Messages(n: nat) | Seconds(s: int)

  /** Retention periods in days; 0 keeps the table forever. */
  datatype Retention = Retention(messagesDays: nat, contactsDays: nat, clientsDays: nat)

  datatype PurgeStats = PurgeStats(messages: nat, contacts: nat, clients: nat)

  datatype Tables = Tables(messages: seq<Message>, lastId: nat, clients: map<Identity, Client>,
                           contacts: seq<Contact>, channels: map<int, Channel>,
                           contactsSyncedAt: Option<int>, blobs: map<Blob, Frame>)

  // ---------------------------------------------------------------------
  // Filtering rows
  // ---------------------------------------------------------------------

  function Filter<T>(rows: seq<T>, keep: T -> bool): seq<T> {
    if rows == [] then []
    else
      var last := rows[|rows| - 1];
      Filter(rows[..|rows| - 1], keep) + (if keep(last) then [last] else [])
  }

  lemma {:induction false} FilterMember<T>(rows: seq<T>, keep: T -> bool, x: T)
    ensures x in Filter(rows, keep) <==> x in rows && keep(x)
  {
    if rows != [] {
      FilterMember(rows[..|rows| - 1], keep, x);
      assert rows == rows[..|rows| - 1] + [rows[|rows| - 1]];
    }
  }

  lemma FilterAppendOne<T>(rows: seq<T>, keep: T -> bool, x: T)
    ensures Filter(rows + [x], keep) == Filter(rows, keep) + (if keep(x) then [x] else [])
  {
    assert (rows + [x])[..|rows|] == rows;
  }

  // ---------------------------------------------------------------------
  // Messages
  // ---------------------------------------------------------------------

  /** Ids grow along the table. */
  ghost predicate Increasing(ids: seq<int>) {
    forall i, j :: 0 <= i < j < |ids| ==> ids[i] < ids[j]
  }

  function Ids(rows: seq<Message>): (ids: seq<int>)
    ensures |ids| == |rows|
  {
    seq(|rows|, i requires 0 <= i < |rows| => rows[i].id)
  }

  /** AUTOINCREMENT: ids grow along the table and none exceeds the last one ever given out. */
  ghost predicate ValidMessages(t: Tables) {
    && Increasing(Ids(t.messages))
    && forall m :: m in t.messages ==> 0 < m.id <= t.lastId
  }

  /** The condition REPLAYABLE_TO: a stored frame, not sent by that same identity. */
  predicate ReplayableTo(m: Message, who: Identity) {
    m.frame.Some? && m.origin != Some(who)
  }

  function InsertMessage(t: Tables, timestamp: int, frame: Frame, origin: Option<Identity>, now: int): Tables {
    var row := Message(t.lastId + 1, timestamp, Some(now), Some(frame), origin);
    t.(messages := t.messages + [row], lastId := t.lastId + 1)
  }

  /** `MAX(id)`, 0 on an empty table. */
  function MessageHead(t: Tables): int {
    if t.messages == [] then 0 else t.messages[|t.messages| - 1].id
  }

  function MessageIdsAfter(t: Tables, after: int, who: Identity): seq<int> {
    Ids(Filter(t.messages, (m: Message) => m.id > after && ReplayableTo(m, who)))
  }

  function BacklogMessageIds(t: Tables, backlog: Backlog, who: Identity, now: int): seq<int> {
    match backlog
    case Off => []
    case Messages(n) =>
      var ids := Ids(Filter(t.messages, (m: Message) => ReplayableTo(m, who)));
      if |ids| <= n then ids else ids[|ids| - n..]
    case Seconds(s) =>
      Ids(Filter(t.messages, (m: Message) =>
        m.receivedAt.Some? && m.receivedAt.value >= now - s && ReplayableTo(m, who)))
  }

  function FrameOf(rows: seq<Message>, id: int): Option<Frame> {
    if rows == [] then None
    else
      var last := rows[|rows| - 1];
      if last.id == id && last.frame.Some? then last.frame else FrameOf(rows[..|rows| - 1], id)
  }

  function MessageFrame(t: Tables, id: int): Option<Frame> {
    FrameOf(t.messages, id)
  }

  lemma {:induction false} FrameOfExact(rows: seq<Message>, id: int)
    requires Increasing(Ids(rows))
    ensures forall m :: m in rows && m.id == id && m.frame.Some? ==> FrameOf(rows, id) == m.frame
    ensures FrameOf(rows, id).Some? ==> exists m :: m in rows && m.id == id && m.frame == FrameOf(rows, id)
  {
    if rows != [] {
      var front, last := rows[..|rows| - 1], rows[|rows| - 1];
      assert Ids(front) == Ids(rows)[..|rows| - 1];
      FrameOfExact(front, id);
      assert rows == front + [last];
      assert forall m :: m in front ==> m.id < last.id by {
        forall m | m in front
          ensures m.id < last.id
        {
          var i :| 0 <= i < |front| && front[i] == m;
          assert Ids(rows)[i] < Ids(rows)[|rows| - 1];
        }
      }
      if last.id == id && last.frame.Some? {
        assert last in rows;
      } else if FrameOf(front, id).Some? {
        var m :| m in front && m.id == id && m.frame == FrameOf(front, id);
        assert m in rows;
      }
    }
  }

  /** A message inserted is found under its own id, every other as before. */
  lemma InsertedFrames(t: Tables, timestamp: int, frame: Frame, origin: Option<Identity>, now: int)
    ensures var u := InsertMessage(t, timestamp, frame, origin, now);
            MessageFrame(u, u.lastId) == Some(frame)
            && forall other: int :: other != u.lastId ==> MessageFrame(u, other) == MessageFrame(t, other)
  {
    var u := InsertMessage(t, timestamp, frame, origin, now);
    assert u.messages[..|t.messages|] == t.messages;
  }

  /** Its id is above every other, and the order of ids is kept. */
  lemma InsertedValid(t: Tables, timestamp: int, frame: Frame, origin: Option<Identity>, now: int)
    requires ValidMessages(t)
    ensures var u := InsertMessage(t, timestamp, frame, origin, now);
            ValidMessages(u) && forall m :: m in t.messages ==> m.id < u.lastId
  {
    var u := InsertMessage(t, timestamp, frame, origin, now);
    forall i, j | 0 <= i < j < |u.messages|
      ensures Ids(u.messages)[i] < Ids(u.messages)[j]
    {
      assert t.messages[i] in t.messages;
      if j < |t.messages| {
        assert Ids(t.messages)[i] < Ids(t.messages)[j];
      }
    }
  }

  lemma {:induction false} FilterIncreasing(rows: seq<Message>, keep: Message -> bool)
    requires Increasing(Ids(rows))
    ensures Increasing(Ids(Filter(rows, keep)))
  {
    if rows != [] {
      var front, last := rows[..|rows| - 1], rows[|rows| - 1];
      assert Ids(front) == Ids(rows)[..|rows| - 1];
      FilterIncreasing(front, keep);
      var kept := Filter(front, keep);
      forall i | 0 <= i < |kept|
        ensures kept[i].id < last.id
      {
        FilterMember(front, keep, kept[i]);
        var j :| 0 <= j < |front| && front[j] == kept[i];
        assert Ids(rows)[j] < Ids(rows)[|rows| - 1];
      }
      var all := Filter(rows, keep);
      forall i, j | 0 <= i < j < |all|
        ensures Ids(all)[i] < Ids(all)[j]
      {
        if j < |kept| {
          assert Ids(kept)[i] < Ids(kept)[j];
        }
      }
    }
  }

  lemma IdsMember(rows: seq<Message>, id: int)
    ensures id in Ids(rows) <==> exists m :: m in rows && m.id == id
  {
    if id in Ids(rows) {
      var i :| 0 <= i < |rows| && Ids(rows)[i] == id;
      assert rows[i] in rows;
    }
    if exists m :: m in rows && m.id == id {
      var m :| m in rows && m.id == id;
      var i :| 0 <= i < |rows| && rows[i] == m;
      assert Ids(rows)[i] == id;
    }
  }

  /** What a returning client is owed: exactly the retained messages above its cursor that it did not send
      itself, oldest first. */
  lemma MessageIdsAfterExact(t: Tables, after: int, who: Identity)
    requires ValidMessages(t)
    ensures Increasing(MessageIdsAfter(t, after, who))
    ensures forall id :: id in MessageIdsAfter(t, after, who) <==>
              exists m :: m in t.messages && m.id == id && id > after && ReplayableTo(m, who)
  {
    var keep := (m: Message) => m.id > after && ReplayableTo(m, who);
    FilterIncreasing(t.messages, keep);
    var kept := Filter(t.messages, keep);
    forall id
      ensures id in Ids(kept) <==> exists m :: m in t.messages && m.id == id && id > after && ReplayableTo(m, who)
    {
      IdsMember(kept, id);
      forall m
        ensures m in kept <==> m in t.messages && keep(m)
      {
        FilterMember(t.messages, keep, m);
      }
    }
  }

  lemma IdsUnique(t: Tables)
    requires ValidMessages(t)
    ensures forall m, n :: m in t.messages && n in t.messages && m.id == n.id ==> m == n
  {
    forall m, n | m in t.messages && n in t.messages && m.id == n.id
      ensures m == n
    {
      var i :| 0 <= i < |t.messages| && t.messages[i] == m;
      var j :| 0 <= j < |t.messages| && t.messages[j] == n;
      assert Ids(t.messages)[i] == Ids(t.messages)[j];
    }
  }

  /** A clock that never ran backwards: arrival times grow with the ids. */
  ghost predicate ArrivalOrder(t: Tables) {
    forall i, j :: 0 <= i < j < |t.messages| && t.messages[i].receivedAt.Some? ==>
      t.messages[j].receivedAt.Some? && t.messages[i].receivedAt.value <= t.messages[j].receivedAt.value
  }

  /** A gapless tail: nothing, or from its first message on every retained message `who` did not send. */
  ghost predicate IsTail(t: Tables, ids: seq<int>, who: Identity) {
    Increasing(ids) && (ids != [] ==> ids == MessageIdsAfter(t, ids[0] - 1, who))
  }

  /** The last messages, counted. */
  lemma CountedTail(t: Tables, who: Identity, from: nat)
    requires ValidMessages(t)
    requires from < |Filter(t.messages, (m: Message) => ReplayableTo(m, who))|
    ensures IsTail(t, Ids(Filter(t.messages, (m: Message) => ReplayableTo(m, who)))[from..], who)
  {
    var keep := (m: Message) => ReplayableTo(m, who);
    var all := Filter(t.messages, keep);
    FilterIncreasing(t.messages, keep);
    var id := Ids(all)[from];
    forall i | 0 <= i < |all|
      ensures all[i].id >= id <==> i >= from
    {
      assert Ids(all)[i] == all[i].id;
    }
    FilterTail(t.messages, keep, id, from);
    FilterSame(t.messages, (m: Message) => m.id > id - 1 && ReplayableTo(m, who), (m: Message) => m.id >= id
               && keep(m));
    assert Ids(all[from..]) == Ids(all)[from..];
  }

  predicate ArrivedSince(m: Message, since: int) {
    m.receivedAt.Some? && m.receivedAt.value >= since
  }

  /** Whatever `who` may be replayed after a message that arrived within the window arrived within it too. */
  ghost predicate NoGap(t: Tables, who: Identity, since: int) {
    forall first, m | first in t.messages && m in t.messages && first.id <= m.id
                      && ReplayableTo(first, who) && ReplayableTo(m, who)
                      && ArrivedSince(first, since) :: ArrivedSince(m, since)
  }

  predicate KeptSince(m: Message, who: Identity, since: int) {
    ReplayableTo(m, who) && ArrivedSince(m, since)
  }

  /** The messages of a time window leave no gap if the window does. */
  lemma RecentTail(t: Tables, who: Identity, since: int)
    requires ValidMessages(t) && NoGap(t, who, since)
    ensures IsTail(t, Ids(Filter(t.messages, (m: Message) => KeptSince(m, who, since))), who)
  {
    var keep := (m: Message) => KeptSince(m, who, since);
    var kept := Filter(t.messages, keep);
    FilterIncreasing(t.messages, keep);
    if kept != [] {
      var first := kept[0];
      var above := (m: Message) => m.id > first.id - 1 && ReplayableTo(m, who);
      FilterMember(t.messages, keep, first);
      forall m | m in t.messages
        ensures keep(m) <==> above(m)
      {
        FilterMember(t.messages, keep, m);
        if keep(m) {
          var i :| 0 <= i < |kept| && kept[i] == m;
          assert Ids(kept)[0] <= Ids(kept)[i];
        }
      }
      FilterSame(t.messages, keep, above);
    }
  }

  /** And only then. */
  lemma TailHasNoGap(t: Tables, who: Identity, since: int)
    requires ValidMessages(t) && IsTail(t, Ids(Filter(t.messages, (m: Message) => KeptSince(m, who, since))), who)
    ensures NoGap(t, who, since)
  {
    var keep := (m: Message) => KeptSince(m, who, since);
    var kept := Ids(Filter(t.messages, keep));
    IdsUnique(t);
    hide Filter, MessageIdsAfter, ReplayableTo, ArrivedSince;
    forall first, m | first in t.messages && m in t.messages && first.id <= m.id && KeptSince(first, who, since)
        && ReplayableTo(m, who)
      ensures ArrivedSince(m, since)
    {
      FilterMember(t.messages, keep, first);
      IdsMember(Filter(t.messages, keep), first.id);
      var i :| 0 <= i < |kept| && kept[i] == first.id;
      assert kept[0] <= kept[i];
      MessageIdsAfterExact(t, kept[0] - 1, who);
      assert m.id as int in kept;
      IdsMember(Filter(t.messages, keep), m.id);
      var same :| same in Filter(t.messages, keep) && same.id == m.id;
      FilterMember(t.messages, keep, same);
    }
  }

  /** With arrival times growing along the table there is no gap. */
  lemma OrderedHasNoGap(t: Tables, who: Identity, since: int)
    requires ValidMessages(t) && ArrivalOrder(t)
    ensures NoGap(t, who, since)
  {
    hide ReplayableTo;
    forall first, m | first in t.messages && m in t.messages && first.id <= m.id && ArrivedSince(first, since)
      ensures ArrivedSince(m, since)
    {
      var i :| 0 <= i < |t.messages| && t.messages[i] == m;
      var j :| 0 <= j < |t.messages| && t.messages[j] == first;
      assert Ids(t.messages)[i] == m.id && Ids(t.messages)[j] == first.id;
    }
  }

  lemma EmptyTail(t: Tables, who: Identity)
    ensures IsTail(t, [], who)
  {
  }

  /** What a client seen for the first time gets is a gapless tail: always when counted, and for a backlog by age
      if and only if nothing in the log arrived before the window after something that arrived within it. */
  lemma BacklogIsATail(t: Tables, backlog: Backlog, who: Identity, now: int)
    requires ValidMessages(t)
    ensures IsTail(t, BacklogMessageIds(t, backlog, who, now), who)
            <==> (backlog.Seconds? ==> NoGap(t, who, now - backlog.s))
  {
    hide IsTail, Filter, NoGap;
    EmptyTail(t, who);
    match backlog {
      case Off =>
      case Messages(n) =>
        var all := Ids(Filter(t.messages, (m: Message) => ReplayableTo(m, who)));
        if all != [] && n > 0 {
          var from := if |all| <= n then 0 else |all| - n;
          CountedTail(t, who, from);
          assert BacklogMessageIds(t, backlog, who, now) == all[from..];
        } else {
          assert BacklogMessageIds(t, backlog, who, now) == [];
        }
      case Seconds(s) =>
        AgedIs(t, s, who, now);
        if NoGap(t, who, now - s) {
          RecentTail(t, who, now - s);
        } else if IsTail(t, BacklogMessageIds(t, backlog, who, now), who) {
          TailHasNoGap(t, who, now - s);
        }
    }
  }

  lemma AgedIs(t: Tables, s: int, who: Identity, now: int)
    ensures BacklogMessageIds(t, Seconds(s), who, now)
            == Ids(Filter(t.messages, (m: Message) => KeptSince(m, who, now - s)))
  {
    FilterSame(t.messages, (m: Message) => m.receivedAt.Some? && m.receivedAt.value >= now - s && ReplayableTo(m, who),
               (m: Message) => KeptSince(m, who, now - s));
  }

  /** A backlog by count is as long as asked for, or all there is. */
  lemma BacklogByCount(t: Tables, n: nat, who: Identity, now: int)
    ensures |BacklogMessageIds(t, Messages(n), who, now)|
            == Min(n, |Filter(t.messages, (m: Message) => ReplayableTo(m, who))|)
  {
  }

  /** A backlog by age is exactly what arrived within it. */
  lemma BacklogByAge(t: Tables, s: int, who: Identity, now: int, id: int)
    ensures id in BacklogMessageIds(t, Seconds(s), who, now)
            <==> exists m :: m in t.messages && m.id == id && ReplayableTo(m, who)
                             && m.receivedAt.Some? && m.receivedAt.value >= now - s
  {
    var keep := (m: Message) => m.receivedAt.Some? && m.receivedAt.value >= now - s && ReplayableTo(m, who);
    IdsMember(Filter(t.messages, keep), id);
    forall m
      ensures m in Filter(t.messages, keep) <==> m in t.messages && keep(m)
    {
      FilterMember(t.messages, keep, m);
    }
    assert BacklogMessageIds(t, Seconds(s), who, now) == Ids(Filter(t.messages, keep));
  }

  /** Two conditions that agree on every row select the same rows. */
  lemma {:induction false} FilterSame<T>(rows: seq<T>, p: T -> bool, q: T -> bool)
    requires forall x :: x in rows ==> p(x) == q(x)
    ensures Filter(rows, p) == Filter(rows, q)
  {
    if rows != [] {
      assert rows == rows[..|rows| - 1] + [rows[|rows| - 1]];
      FilterSame(rows[..|rows| - 1], p, q);
    }
  }

  /** Dropping the selected rows below an id is selecting from that id on. */
  lemma {:induction false} FilterTail(rows: seq<Message>, keep: Message -> bool, id: int, from: nat)
    requires Increasing(Ids(rows))
    requires from <= |Filter(rows, keep)|
    requires forall i :: 0 <= i < |Filter(rows, keep)| ==> (Filter(rows, keep)[i].id >= id <==> i >= from)
    ensures Filter(rows, (m: Message) => m.id >= id && keep(m)) == Filter(rows, keep)[from..]
  {
    var both := (m: Message) => m.id >= id && keep(m);
    if rows != [] {
      var front, last := rows[..|rows| - 1], rows[|rows| - 1];
      assert Ids(front) == Ids(rows)[..|rows| - 1];
      var kept := Filter(front, keep);
      assert forall i :: 0 <= i < |kept| ==> kept[i] == Filter(rows, keep)[i];
      if from <= |kept| {
        FilterTail(front, keep, id, from);
        if keep(last) {
          assert Filter(rows, keep)[|kept|] == last;
          assert Filter(rows, keep)[from..] == kept[from..] + [last];
        }
      } else {
        assert from == |kept| + 1 && keep(last);
        FilterTail(front, keep, id, |kept|);
        assert Filter(rows, keep)[|kept|] == last;
      }
    }
  }

  // ---------------------------------------------------------------------
  // Clients
  // ---------------------------------------------------------------------

  function ClientCursor(t: Tables, who: Identity): Option<int> {
    if who in t.clients then Some(t.clients[who].lastSeen) else None
  }

  /** Forward only: two sessions of one identity may report out of order. */
  function AdvancedRow(clients: map<Identity, Client>, who: Identity, seen: int, now: int): Client {
    Client(if who in clients then Max(clients[who].lastSeen, seen) else seen, now)
  }

  function AdvanceClientCursor(t: Tables, who: Identity, seen: int, now: int): Tables {
    t.(clients := t.clients[who := AdvancedRow(t.clients, who, seen, now)])
  }

  // ---------------------------------------------------------------------
  // Contacts and channels
  // ---------------------------------------------------------------------

  function WithoutContact(rows: seq<Contact>, key: Frame): seq<Contact> {
    Filter(rows, (c: Contact) => c.key != key)
  }

  /** INSERT OR REPLACE: the old row goes, the new one is the newest. */
  function UpsertContact(t: Tables, c: Contact): Tables {
    t.(contacts := WithoutContact(t.contacts, c.key) + [c])
  }

  function DeleteContact(t: Tables, key: Frame): Tables {
    t.(contacts := WithoutContact(t.contacts, key))
  }

  function UpsertChannel(t: Tables, ch: Channel): Tables {
    t.(channels := t.channels[ch.idx := ch])
  }

  function DeleteChannel(t: Tables, idx: int): Tables {
    t.(channels := t.channels - {idx})
  }

  /** Byte order of names, as the column's collation compares them. */
  predicate NameBefore(a: Frame, b: Frame) {
    b != [] && (a == [] || a[0] < b[0] || (a[0] == b[0] && NameBefore(a[1..], b[1..])))
  }

  function InsertByName(sorted: seq<Contact>, c: Contact): (r: seq<Contact>)
    ensures multiset(r) == multiset(sorted) + multiset{c}
  {
    if sorted == [] || !NameBefore(c.name, sorted[|sorted| - 1].name) then sorted + [c]
    else
      var front, last := sorted[..|sorted| - 1], sorted[|sorted| - 1];
      assert sorted == front + [last];
      InsertByName(front, c) + [last]
  }

  /** `ORDER BY name`, rows with equal names in table order. */
  function ByName(rows: seq<Contact>): (r: seq<Contact>)
    ensures multiset(r) == multiset(rows)
  {
    if rows == [] then []
    else
      assert rows == rows[..|rows| - 1] + [rows[|rows| - 1]];
      InsertByName(ByName(rows[..|rows| - 1]), rows[|rows| - 1])
  }

  function GetContacts(t: Tables): seq<Contact> {
    ByName(t.contacts)
  }

  /** The row cached for a key. */
  function FindContact(rows: seq<Contact>, key: Frame): Option<Contact> {
    if rows == [] then None
    else if rows[|rows| - 1].key == key then Some(rows[|rows| - 1])
    else FindContact(rows[..|rows| - 1], key)
  }

  /** The key column is a primary key. */
  ghost predicate UniqueKeys(rows: seq<Contact>) {
    forall i, j :: 0 <= i < j < |rows| ==> rows[i].key != rows[j].key
  }

  lemma {:induction false} FindWithout(rows: seq<Contact>, key: Frame, other: Frame)
    ensures FindContact(WithoutContact(rows, key), other)
            == if other == key then None else FindContact(rows, other)
  {
    if rows != [] {
      FindWithout(rows[..|rows| - 1], key, other);
      var kept := WithoutContact(rows, key);
      if rows[|rows| - 1].key != key {
        assert kept[..|kept| - 1] == WithoutContact(rows[..|rows| - 1], key);
      } else {
        assert kept == WithoutContact(rows[..|rows| - 1], key);
      }
    }
  }

  /** An upsert is visible under its own key and nowhere else. */
  lemma FindUpserted(t: Tables, c: Contact, other: Frame)
    ensures FindContact(UpsertContact(t, c).contacts, other)
            == if other == c.key then Some(c) else FindContact(t.contacts, other)
  {
    FindWithout(t.contacts, c.key, other);
    var kept := WithoutContact(t.contacts, c.key);
    assert (kept + [c])[..|kept|] == kept;
  }

  /** A row found under a key is a row of the table with that key; with unique keys it is the only one. */
  lemma {:induction false} FindContactExact(rows: seq<Contact>, key: Frame)
    ensures FindContact(rows, key).Some? ==>
              FindContact(rows, key).value in rows && FindContact(rows, key).value.key == key
    ensures FindContact(rows, key).None? ==> forall c :: c in rows ==> c.key != key
    ensures UniqueKeys(rows) ==> forall c :: c in rows && c.key == key ==> FindContact(rows, key) == Some(c)
  {
    if rows != [] {
      FindContactExact(rows[..|rows| - 1], key);
      assert rows == rows[..|rows| - 1] + [rows[|rows| - 1]];
    }
  }

  lemma {:induction false} FilterUniqueKeys(rows: seq<Contact>, keep: Contact -> bool)
    requires UniqueKeys(rows)
    ensures UniqueKeys(Filter(rows, keep))
  {
    if rows != [] {
      var front := rows[..|rows| - 1];
      FilterUniqueKeys(front, keep);
      var kept := Filter(front, keep);
      forall i | 0 <= i < |kept|
        ensures kept[i].key != rows[|rows| - 1].key
      {
        FilterMember(front, keep, kept[i]);
        var j :| 0 <= j < |front| && front[j] == kept[i];
      }
    }
  }

  lemma UpsertKeepsKeysUnique(t: Tables, c: Contact)
    requires UniqueKeys(t.contacts)
    ensures UniqueKeys(UpsertContact(t, c).contacts)
  {
    FilterUniqueKeys(t.contacts, (x: Contact) => x.key != c.key);
    var kept := WithoutContact(t.contacts, c.key);
    forall i | 0 <= i < |kept|
      ensures kept[i].key != c.key
    {
      FilterMember(t.contacts, (x: Contact) => x.key != c.key, kept[i]);
    }
  }

  // ---------------------------------------------------------------------
  // Maintenance
  // ---------------------------------------------------------------------

  function Cutoff(now: int, days: nat): int {
    now - days * DAY
  }

  function ArrivedAt(m: Message): int {
    if m.receivedAt.Some? then m.receivedAt.value else m.timestamp
  }

  function SeenAt(c: Contact): int {
    if c.seenAt.Some? then c.seenAt.value else 0
  }

  function KeptMessages(t: Tables, r: Retention, now: int): seq<Message> {
    if r.messagesDays == 0 then t.messages
    else Filter(t.messages, (m: Message) => ArrivedAt(m) >= Cutoff(now, r.messagesDays))
  }

  /** A contact goes only if the last full sync missed it and the retention period has passed too. */
  predicate ContactExpired(t: Tables, r: Retention, now: int, c: Contact) {
    r.contactsDays > 0 && t.contactsSyncedAt.Some?
    && SeenAt(c) < Min(t.contactsSyncedAt.value, Cutoff(now, r.contactsDays))
  }

  function KeptContacts(t: Tables, r: Retention, now: int): seq<Contact> {
    if r.contactsDays == 0 || t.contactsSyncedAt.None? then t.contacts
    else Filter(t.contacts, (c: Contact) => !ContactExpired(t, r, now, c))
  }

  function KeptClients(t: Tables, r: Retention, now: int): map<Identity, Client> {
    if r.clientsDays == 0 then t.clients
    else map who | who in t.clients && t.clients[who].lastConnectedAt >= Cutoff(now, r.clientsDays) :: t.clients[who]
  }

  function Maintain(t: Tables, r: Retention, now: int): Tables {
    t.(messages := KeptMessages(t, r, now), contacts := KeptContacts(t, r, now), clients := KeptClients(t, r, now))
  }

  /** Purging keeps the order of ids, the id counter, and every message younger than the retention. */
  lemma MaintainKeepsMessages(t: Tables, r: Retention, now: int)
    requires ValidMessages(t)
    ensures ValidMessages(Maintain(t, r, now)) && Maintain(t, r, now).lastId == t.lastId
    ensures forall m :: m in Maintain(t, r, now).messages <==>
              m in t.messages && (r.messagesDays == 0 || ArrivedAt(m) >= Cutoff(now, r.messagesDays))
  {
    var keep := (m: Message) => ArrivedAt(m) >= Cutoff(now, r.messagesDays);
    FilterIncreasing(t.messages, keep);
    forall m
      ensures m in Filter(t.messages, keep) <==> m in t.messages && keep(m)
    {
      FilterMember(t.messages, keep, m);
    }
  }

  /** A contact leaves the cache exactly when it has expired. */
  lemma MaintainContactsExact(t: Tables, r: Retention, now: int, c: Contact)
    ensures c in Maintain(t, r, now).contacts <==> c in t.contacts && !ContactExpired(t, r, now, c)
  {
    FilterMember(t.contacts, (x: Contact) => !ContactExpired(t, r, now, x), c);
  }

  lemma {:induction false} FilterShrinks<T>(rows: seq<T>, keep: T -> bool)
    ensures |Filter(rows, keep)| <= |rows|
  {
    if rows != [] {
      FilterShrinks(rows[..|rows| - 1], keep);
    }
  }

  lemma SubmapSmaller<K, V>(small: map<K, V>, big: map<K, V>)
    requires small.Keys <= big.Keys
    ensures |small| <= |big|
  {
    SubsetSmaller(small.Keys, big.Keys);
  }

  lemma {:induction false} SubsetSmaller<K>(small: set<K>, big: set<K>)
    requires small <= big
    ensures |small| <= |big|
  {
    if small != {} {
      var x :| x in small;
      SubsetSmaller(small - {x}, big - {x});
    }
  }
}
