/** Replies from the cache are the replies the radio would give. */
module CachedReplies {
  import opened Bytes
  import opened Protocol
  import opened Store
  import opened CoreState

  /** A whole CONTACT frame as the radio sends it. */
  type ContactEntry = f: Frame | |f| == CONTACT_FRAME_LEN && f[0] == 0x03
    witness [0x03] + seq(CONTACT_FRAME_LEN - 1, _ => 0)

  // ---------------------------------------------------------------------
  // GET_CONTACTS as the radio answers it
  // ---------------------------------------------------------------------

  function Modified(f: ContactEntry): nat {
    U32(f, 144)
  }

  predicate Newer(f: ContactEntry, since: Option<nat>) {
    since.None? || Modified(f) > since.value
  }

  function Selected(entries: seq<ContactEntry>, since: Option<nat>): seq<ContactEntry> {
    Filter(entries, (f: ContactEntry) => Newer(f, since))
  }

  /** The most recent modification among some entries, 0 when there are none. */
  ghost predicate IsNewest(entries: seq<ContactEntry>, n: nat) {
    && (forall f :: f in entries ==> Modified(f) <= n)
    && (if entries == [] then n == 0 else exists f :: f in entries && Modified(f) == n)
  }

  /** START with the total count, the entries modified after `since` in any order, END with the most recent
      modification among those sent. */
  ghost predicate RadioReply(entries: seq<ContactEntry>, since: Option<nat>, reply: seq<Frame>) {
    exists sent: seq<ContactEntry>, newest: nat ::
      && multiset(sent) == multiset(Selected(entries, since))
      && IsNewest(sent, newest)
      && reply == [[0x02] + LE32(|entries|)] + sent + [[0x04] + LE32(newest)]
  }

  // ---------------------------------------------------------------------
  // The cache
  // ---------------------------------------------------------------------

  function Entry(row: Contact): ContactEntry {
    ContactFrame(row)
  }

  function Entries(rows: seq<Contact>): (entries: seq<ContactEntry>)
    ensures |entries| == |rows|
  {
    seq(|rows|, i requires 0 <= i < |rows| => Entry(rows[i]))
  }

  /** The cache holds one row for each of these frames, and no other row. */
  ghost predicate Caches(rows: seq<Contact>, entries: seq<ContactEntry>) {
    multiset(Entries(rows)) == multiset(entries)
  }

  function Served(client: ClientId, frames: seq<Frame>): seq<Event> {
    seq(|frames|, i requires 0 <= i < |frames| => ToClient(client, frames[i], frames[i], Cached))
  }

  lemma {:induction false} SelectedCount(s: seq<ContactEntry>, since: Option<nat>, x: ContactEntry)
    ensures multiset(Selected(s, since))[x] == if Newer(x, since) then multiset(s)[x] else 0
  {
    hide Newer;
    if s != [] {
      var front, last := s[..|s| - 1], s[|s| - 1];
      assert s == front + [last];
      SelectedCount(front, since, x);
    }
  }

  lemma SelectedPermutation(s: seq<ContactEntry>, t: seq<ContactEntry>, since: Option<nat>)
    requires multiset(s) == multiset(t)
    ensures multiset(Selected(s, since)) == multiset(Selected(t, since))
  {
    hide Selected;
    forall x: ContactEntry
      ensures multiset(Selected(s, since))[x] == multiset(Selected(t, since))[x]
    {
      SelectedCount(s, since, x);
      SelectedCount(t, since, x);
    }
    SameCounts(multiset(Selected(s, since)), multiset(Selected(t, since)));
  }

  lemma SameCounts(a: multiset<ContactEntry>, b: multiset<ContactEntry>)
    requires forall x: ContactEntry :: a[x] == b[x]
    ensures a == b
  {
    assert a <= b && b <= a;
  }

  lemma EntriesAppend(rows: seq<Contact>, more: seq<Contact>)
    ensures Entries(rows + more) == Entries(rows) + Entries(more)
  {
    hide Entry;
  }

  lemma EntriesWithout(rows: seq<Contact>, i: nat)
    requires i < |rows|
    ensures multiset(rows) == multiset(rows[..i] + rows[i + 1..]) + multiset{rows[i]}
    ensures multiset(Entries(rows)) == multiset(Entries(rows[..i] + rows[i + 1..])) + multiset{Entry(rows[i])}
  {
    hide Entry;
    assert rows == rows[..i] + [rows[i]] + rows[i + 1..];
    EntriesAppend(rows[..i] + [rows[i]], rows[i + 1..]);
    EntriesAppend(rows[..i], [rows[i]]);
    EntriesAppend(rows[..i], rows[i + 1..]);
    assert Entries([rows[i]]) == [Entry(rows[i])];
  }

  lemma {:induction false} EntriesPermutation(rows: seq<Contact>, other: seq<Contact>)
    requires multiset(rows) == multiset(other)
    ensures multiset(Entries(rows)) == multiset(Entries(other))
    decreases |rows|
  {
    hide Entry, Entries;
    assert |multiset(rows)| == |rows| && |multiset(other)| == |other|;
    if rows == [] {
      assert other == [];
    } else {
      assert rows[0] in multiset(rows);
      var i :| 0 <= i < |other| && other[i] == rows[0];
      EntriesWithout(rows, 0);
      EntriesWithout(other, i);
      assert multiset(rows[..0] + rows[1..]) == multiset(rows) - multiset{rows[0]};
      assert multiset(other[..i] + other[i + 1..]) == multiset(other) - multiset{rows[0]};
      EntriesPermutation(rows[..0] + rows[1..], other[..i] + other[i + 1..]);
    }
  }

  lemma ServedAppend(client: ClientId, a: seq<Frame>, f: Frame)
    ensures Served(client, a + [f]) == Served(client, a) + [ToClient(client, f, f, Cached)]
  {
  }

  /** Only received messages are rewritten on their way to a client. */
  lemma SendVerbatim(c: Core, client: ClientId, f: Frame)
    requires client in c.live && f != [] && !IsMessageCode(f[0])
    ensures SendToClient(c, client, f, Cached) == c.(out := c.out + Served(client, [f]))
  {
    LayoutFollowsVersion(Version(c, client), f);
  }

  /** The listing loop sends the selected entries in row order and ends with their newest modification. */
  lemma {:induction false} ListingIs(c: Core, client: ClientId, rows: seq<Contact>, since: Option<nat>)
    requires client in c.live
    ensures var sent := Selected(Entries(rows), since);
            ListContacts(c, client, rows, since).0 == c.(out := c.out + Served(client, sent))
            && IsNewest(sent, ListContacts(c, client, rows, since).1)
  {
    if rows == [] {
      assert Entries(rows) == [] && c.out + Served(client, []) == c.out;
    } else {
      var front, last := rows[..|rows| - 1], rows[|rows| - 1];
      var (c1, newest) := ListContacts(c, client, front, since);
      var sent, all := Selected(Entries(front), since), Selected(Entries(rows), since);
      ListingIs(c, client, front, since);
      assert rows == front + [last];
      EntriesAppend(front, [last]);
      assert Entries([last]) == [Entry(last)];
      FilterAppendOne(Entries(front), (f: ContactEntry) => Newer(f, since), Entry(last));
      hide ContactFrame, Filter;
      if Wanted(last, since) {
        assert all == sent + [Entry(last)];
        SendVerbatim(c1, client, Entry(last));
        ServedAppend(client, sent, Entry(last));
        assert c.out + Served(client, sent) + Served(client, [Entry(last)]) == c.out + Served(client, all);
        NewestAppend(sent, newest, Entry(last));
      } else {
        assert all == sent;
      }
    }
  }

  lemma NewestAppend(sent: seq<ContactEntry>, newest: nat, f: ContactEntry)
    requires IsNewest(sent, newest)
    ensures IsNewest(sent + [f], Max(newest, Modified(f)))
  {
    hide U32;
    assert f in sent + [f];
    if newest > Modified(f) {
      var g :| g in sent && Modified(g) == newest;
      assert g in sent + [f];
    }
  }

  /** When the cached rows are exactly the radio's frames, the
      reply served from the cache is, for every `since`, a reply the radio would give. */
  lemma CachedContactsLikeTheRadio(c: Core, cmd: ClientCommand, entries: seq<ContactEntry>)
    requires cmd.client in c.live && cmd.payload != [] && cmd.payload[0] == 0x04
    requires Caches(c.db.contacts, entries) && entries != []
    ensures exists reply: seq<Frame> ::
              RadioReply(entries, Since(cmd.payload), reply)
              && TryServeFromCache(c, cmd) == Some(c.(out := c.out + Served(cmd.client, reply)))
  {
    hide TryServeFromCache, Selected, LE32, GetContacts, IsNewest, RespondContacts, Entries, Served, RadioReply, Since;
    var rows, since := GetContacts(c.db), Since(cmd.payload);
    var sent := Selected(Entries(rows), since);
    SortedSame(c.db);
    SameCount(c.db.contacts, rows, entries);
    EntriesPermutation(rows, c.db.contacts);
    SelectedPermutation(Entries(rows), entries, since);
    ServesContacts(c, cmd);
    var newest := RespondsWith(c, cmd.client, rows, since);
    IsRadioReply(entries, since, sent, newest);
  }

  lemma SortedSame(t: Tables)
    ensures multiset(GetContacts(t)) == multiset(t.contacts)
  {
  }

  lemma IsRadioReply(entries: seq<ContactEntry>, since: Option<nat>, sent: seq<ContactEntry>, newest: nat)
    requires multiset(sent) == multiset(Selected(entries, since)) && IsNewest(sent, newest)
    ensures RadioReply(entries, since, [[0x02] + LE32(|entries|)] + sent + [[0x04] + LE32(newest)])
  {
    hide Selected, IsNewest, LE32;
  }

  lemma ServesContacts(c: Core, cmd: ClientCommand)
    requires cmd.payload != [] && cmd.payload[0] == 0x04 && c.db.contacts != []
    ensures TryServeFromCache(c, cmd) == Some(RespondContacts(c, cmd.client, GetContacts(c.db), Since(cmd.payload)))
  {
    hide RespondContacts, GetContacts;
  }

  lemma RespondsWith(c: Core, client: ClientId, rows: seq<Contact>, since: Option<nat>) returns (newest: nat)
    requires client in c.live
    ensures var sent := Selected(Entries(rows), since);
            IsNewest(sent, newest)
            && RespondContacts(c, client, rows, since)
               == c.(out := c.out + Served(client, [[0x02] + LE32(|rows|)] + sent + [[0x04] + LE32(newest)]))
  {
    hide ContactFrame, Selected, LE32, ListContacts, SendToClient, IsNewest;
    var sent := Selected(Entries(rows), since);
    var start: Frame := [0x02] + LE32(|rows|);
    var c1 := SendToClient(c, client, start, Cached);
    newest := ListContacts(c1, client, rows, since).1;
    var end: Frame := [0x04] + LE32(newest);
    SendVerbatim(c, client, start);
    ListingIs(c1, client, rows, since);
    SendVerbatim(ListContacts(c1, client, rows, since).0, client, end);
    assert Served(client, [start] + sent + [end])
           == Served(client, [start]) + Served(client, sent) + Served(client, [end]);
    assert c.out + Served(client, [start]) + Served(client, sent) + Served(client, [end])
           == c.out + Served(client, [start] + sent + [end]);
  }

  lemma SameCount(rows: seq<Contact>, sorted: seq<Contact>, entries: seq<ContactEntry>)
    requires Caches(rows, entries) && multiset(sorted) == multiset(rows)
    ensures |sorted| == |entries| == |rows|
  {
    hide Entry;
    assert |multiset(sorted)| == |sorted| && |multiset(rows)| == |rows|;
    assert |multiset(Entries(rows))| == |rows| && |multiset(entries)| == |entries|;
  }

  /** A GET_CONTACTS without `since` asks for everything, one with `since` 0 for what has a modification time:
      they differ exactly on entries that have none. */
  lemma NoSinceIsNotZero(entries: seq<ContactEntry>)
    ensures Selected(entries, None) == Selected(entries, Some(0)) <==> forall f :: f in entries ==> Modified(f) > 0
  {
    var all, some := (f: ContactEntry) => Newer(f, None), (f: ContactEntry) => Newer(f, Some(0));
    hide Modified;
    if forall f :: f in entries ==> Modified(f) > 0 {
      FilterSame(entries, all, some);
    } else {
      var f :| f in entries && Modified(f) == 0;
      FilterMember(entries, all, f);
      FilterMember(entries, some, f);
    }
  }

  // ---------------------------------------------------------------------
  // Single entries
  // ---------------------------------------------------------------------

  /** A contact is served as the radio last sent it, up to the length of a CONTACT frame. */
  lemma ContactServedVerbatim(p: Command, now: Clock)
    requires IsContactFrame(p)
    ensures ContactFrame(ContactFromFrame(p, now)) == p[..CONTACT_FRAME_LEN]
  {
    var raw := p[..CONTACT_FRAME_LEN];
    assert [0x03] + raw[1..CONTACT_FRAME_LEN] == raw;
  }

  /** A cached channel is served byte for byte exactly when its frame had no tail and its name field was padded
      with zeros from the first one on. */
  lemma ChannelServedVerbatim(p: Command)
    requires IsChannelFrame(p)
    ensures ChannelFrame(ChannelFromFrame(p)) == p
            <==> |p| == 50 && forall i :: 2 + FirstNul(p[2..34]) <= i < 34 ==> p[i] == 0
  {
    var q, n := ChannelFrame(ChannelFromFrame(p)), FirstNul(p[2..34]);
    var name := p[2..34][..n];
    hide FirstNul, PadTo;
    assert q == [0x12, p[1]] + PadTo(name, 32) + PadTo(p[34..50], 16);
    assert PadTo(p[34..50], 16) == p[34..50];
    assert forall i :: 2 <= i < 2 + n ==> q[i] == p[i];
    assert forall i :: 2 + n <= i < 34 ==> q[i] == 0;
    assert forall i :: 34 <= i < 50 ==> q[i] == p[i];
  }
}
