/** The object that owns the tables: every query is one method call. */
module Node {
  import opened Bytes
  import opened Store

  /** `NodeState`: one owner, one query at a time. */
  class NodeState {
    var messages: seq<Message>
    var lastId: nat
    var clients: map<Identity, Client>
    var contacts: seq<Contact>
    var channels: map<int, Channel>
    var contactsSyncedAt: Option<int>
    var blobs: map<Blob, Frame>

    function Model(): Tables
      reads this
    {
      Tables(messages, lastId, clients, contacts, channels, contactsSyncedAt, blobs)
    }

    /** Open a database with the given content. */
    constructor (t: Tables)
      ensures Model() == t
    {
      messages, lastId, clients := t.messages, t.lastId, t.clients;
      contacts, channels := t.contacts, t.channels;
      contactsSyncedAt, blobs := t.contactsSyncedAt, t.blobs;
    }

    method InsertMessage(timestamp: int, frame: Frame, origin: Option<Identity>, now: int) returns (id: int)
      modifies this
      ensures Model() == Store.InsertMessage(old(Model()), timestamp, frame, origin, now)
      ensures id == lastId > old(lastId)
      ensures old(ValidMessages(Model())) ==>
                ValidMessages(Model()) && (forall m :: m in old(messages) ==> m.id < id) && MessageHead(Model()) == id
                && MessageFrame(Model(), id) == Some(frame)
                && forall other :: other != id ==> MessageFrame(Model(), other) == old(MessageFrame(Model(), other))
    {
      ghost var t := Model();
      lastId := lastId + 1;
      messages := messages + [Message(lastId, timestamp, Some(now), Some(frame), origin)];
      id := lastId;
      InsertedFrames(t, timestamp, frame, origin, now);
      if ValidMessages(t) {
        InsertedValid(t, timestamp, frame, origin, now);
      }
    }

    method AdvanceClientCursor(who: Identity, seen: int, now: int)
      modifies this
      ensures Model() == Store.AdvanceClientCursor(old(Model()), who, seen, now)
      ensures who in clients && clients[who].lastSeen >= seen && clients[who].lastConnectedAt == now
      ensures forall x :: x in old(clients) ==> x in clients && clients[x].lastSeen >= old(clients)[x].lastSeen
    {
      if who in clients {
        clients := clients[who := Client(Max(clients[who].lastSeen, seen), now)];
      } else {
        clients := clients[who := Client(seen, now)];
      }
    }

    method UpsertContact(c: Contact)
      modifies this
      ensures Model() == Store.UpsertContact(old(Model()), c)
      ensures forall key ::
                FindContact(contacts, key) == if key == c.key then Some(c) else old(FindContact(contacts, key))
      ensures contacts != [] && contacts[|contacts| - 1] == c
      ensures old(UniqueKeys(contacts)) ==> UniqueKeys(contacts)
    {
      ghost var t := Model();
      contacts := WithoutContact(contacts, c.key) + [c];
      forall key
        ensures FindContact(contacts, key) == if key == c.key then Some(c) else FindContact(t.contacts, key)
      {
        FindUpserted(t, c, key);
      }
      if UniqueKeys(t.contacts) {
        UpsertKeepsKeysUnique(t, c);
      }
    }

    method DeleteContact(key: Frame)
      modifies this
      ensures Model() == Store.DeleteContact(old(Model()), key)
      ensures forall other ::
                FindContact(contacts, other) == if other == key then None else old(FindContact(contacts, other))
      ensures old(UniqueKeys(contacts)) ==> UniqueKeys(contacts)
    {
      ghost var rows := contacts;
      contacts := WithoutContact(contacts, key);
      forall other
        ensures FindContact(contacts, other) == if other == key then None else FindContact(rows, other)
      {
        FindWithout(rows, key, other);
      }
      if UniqueKeys(rows) {
        FilterUniqueKeys(rows, (c: Contact) => c.key != key);
      }
    }

    method UpsertChannel(ch: Channel)
      modifies this
      ensures Model() == Store.UpsertChannel(old(Model()), ch)
    {
      channels := channels[ch.idx := ch];
    }

    method DeleteChannel(idx: int)
      modifies this
      ensures Model() == Store.DeleteChannel(old(Model()), idx)
    {
      channels := channels - {idx};
    }

    method SetBlob(key: Blob, value: Frame)
      modifies this
      ensures Model() == old(Model()).(blobs := old(blobs)[key := value])
    {
      blobs := blobs[key := value];
    }

    method SetContactsSyncedAt(startedAt: int)
      modifies this
      ensures Model() == old(Model()).(contactsSyncedAt := Some(startedAt))
    {
      contactsSyncedAt := Some(startedAt);
    }

    /** Purge table by table and count what went. */
    method Maintain(r: Retention, now: int) returns (stats: PurgeStats)
      modifies this
      ensures Model() == Store.Maintain(old(Model()), r, now)
      ensures stats.messages == |old(messages)| - |messages|
      ensures stats.contacts == |old(contacts)| - |contacts|
      ensures stats.clients == |old(clients)| - |clients|
    {
      var m, c, k := 0, 0, 0;
      ghost var t := Model();
      if r.messagesDays > 0 {
        var before := |messages|;
        FilterShrinks(messages, (m: Message) => ArrivedAt(m) >= Cutoff(now, r.messagesDays));
        messages := Filter(messages, (m: Message) => ArrivedAt(m) >= Cutoff(now, r.messagesDays));
        m := before - |messages|;
      }
      if r.contactsDays > 0 && contactsSyncedAt.Some? {
        var threshold := Min(contactsSyncedAt.value, Cutoff(now, r.contactsDays));
        var before := |contacts|;
        FilterShrinks(contacts, (c: Contact) => SeenAt(c) >= threshold);
        FilterSame(contacts, (c: Contact) => SeenAt(c) >= threshold, (c: Contact) => !ContactExpired(t, r, now, c));
        contacts := Filter(contacts, (c: Contact) => SeenAt(c) >= threshold);
        c := before - |contacts|;
      }
      if r.clientsDays > 0 {
        var before := clients;
        clients := map who | who in clients
            && clients[who].lastConnectedAt >= Cutoff(now, r.clientsDays) :: clients[who];
        SubmapSmaller(clients, before);
        k := |before| - |clients|;
      }
      stats := PurgeStats(m, c, k);
    }
  }
}
