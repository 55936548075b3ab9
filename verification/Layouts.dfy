/** Bytes, times and orders that the rest takes from a handful of functions, each said here in another way: frames built
    up from their fields, periods in numbers, rows by what is in them. */
module Layouts {
  import opened Bytes
  import opened Protocol
  import opened FrameParser
  import opened Store
  import opened CoreState
  import opened RadioPath
  import opened Requests
  import opened Frames
  import opened Outcomes
  import opened Names
  import opened Reports
  import opened Replay
  import opened NoLoss
  import opened ReplayOnce

  /** Numbers have their low byte first. */
  lemma LowByteFirst()
    ensures LE16(0x0201) == [1, 2] && U16([1, 2], 0) == 0x0201
    ensures LE32(0x0403_0201) == [1, 2, 3, 4] && U32([1, 2, 3, 4], 0) == 0x0403_0201
    ensures forall b: Frame, i: nat :: i + 4 <= |b| ==> U32(b, i) == U16(b, i) + 0x1_0000 * U16(b, i + 2)
  {
  }

  /** A frame on the serial line: `<` from a client or `>` to one, the length in two bytes, the payload. */
  lemma SerialFrame(header: byte, payload: Frame)
    ensures IsHeader(header) <==> header as int == '<' as int || header as int == '>' as int
    ensures |payload| < 0x1_0000 ==>
              var e := Encode(header, payload);
              |e| == |payload| + 3 && e[0] == header && |payload| == (e[1] as int) + 256 * (e[2] as int)
                  && e[3..] == payload
  {
  }

  /** Pushes are the codes with the high bit. */
  lemma PushIsHighBit(low: byte)
    requires low < 128
    ensures IsPush(128 + low) && !IsPush(low)
  {
  }

  // ---------------------------------------------------------------------
  // Contacts and channels
  // ---------------------------------------------------------------------

  /** A name without NULs in a field of 32 bytes. */
  predicate FitsField(name: Frame) {
    |name| <= 32 && forall i :: 0 <= i < |name| ==> name[i] != 0
  }

  function NameField(name: Frame): (f: Frame)
    requires |name| <= 32
    ensures |f| == 32
  {
    name + Nuls(32 - |name|)
  }

  lemma NameInField(name: Frame)
    requires FitsField(name)
    ensures NameField(name)[..FirstNul(NameField(name))] == name
  {
    var f := NameField(name);
    assert f[..|name|] == name;
    if |name| < 32 {
      assert f[|name|] == 0;
    }
  }

  /** CONTACT: code, key, type, flags, length of the path, path, name, time of the last advert, place, modification
      time. */
  function ContactBytes(key: Key, kind: byte, flags: byte, hops: byte, path: Frame, name: Frame, advert: Word,
                        place: Frame, modified: Word): (p: Frame)
    requires |path| == 64 && |name| <= 32 && |place| == 8
    ensures |p| == 148
  {
    [0x03] + key + [kind, flags, hops] + path + NameField(name) + advert + place + modified
  }

  lemma ContactFields(key: Key, kind: byte, flags: byte, hops: byte, path: Frame, name: Frame, advert: Word,
                      place: Frame, modified: Word)
    requires |path| == 64 && |name| <= 32 && |place| == 8
    ensures var p := ContactBytes(key, kind, flags, hops, path, name, advert, place, modified);
            p[0] == 0x03 && p[1..33] == key && p[33] == kind && p[100..132] == NameField(name) && p[132..136] == advert
            && p[136..144] == place && p[144..148] == modified
  {
    var p := ContactBytes(key, kind, flags, hops, path, name, advert, place, modified);
    var a := [0x03] + key + [kind, flags, hops] + path;
    assert p == a + NameField(name) + advert + place + modified && |a| == 100;
    assert p[..100] == a;
    assert p[1..33] == a[1..33] == key && p[33] == a[33] == kind;
  }

  lemma WordAt(p: Frame, i: nat, w: Word)
    requires i + 4 <= |p| && p[i..i + 4] == w
    ensures U32(p, i) == U32(w, 0)
  {
    assert w[0] == p[i] && w[1] == p[i + 1] && w[2] == p[i + 2] && w[3] == p[i + 3];
  }

  /** A CONTACT frame is cached under its key, with its type, name, time of advert and place, as seen now, and is served
      as it came with its modification time. */
  lemma ContactIsCached(c: Core, key: Key, kind: byte, flags: byte, hops: byte, path: Frame, name: Frame, advert: Word,
                        place: Frame, modified: Word, now: Clock)
    requires |path| == 64 && FitsField(name) && |place| == 8
    ensures var p := ContactBytes(key, kind, flags, hops, path, name, advert, place, modified);
            var row := FindContact(CacheResponse(c, p, now).db.contacts, key);
            row.Some? && row.value == Contact(key, name, kind, Some(U32(advert, 0)), place, Some(p), Some(now.unix))
            && ContactFrame(row.value) == p && LastMod(row.value) == U32(modified, 0)
  {
    var p := ContactBytes(key, kind, flags, hops, path, name, advert, place, modified);
    ContactFields(key, kind, flags, hops, path, name, advert, place, modified);
    NameInField(name);
    WordAt(p, 132, advert);
    WordAt(p, 144, modified);
    hide ContactBytes, FirstNul, NameField, U32;
    var row := ContactFromFrame(p, now);
    assert p[..148] == p && [0x03] + p[1..148] == p;
    FindUpserted(c.db, row, key);
    hide FindContact;
  }

  /** A row kept since before raw frames were is served as a frame that carries what the row knows, and modification
      time 0. */
  lemma LegacyRowIsServed(key: Key, name: Frame, kind: byte, advert: nat, place: Frame, seen: Option<int>)
    requires FitsField(name) && |place| == 8 && advert < 0x1_0000_0000
    ensures var row := Contact(key, name, kind, Some(advert), place, None, seen);
            ContactFrame(row) == ContactBytes(key, kind, 0, 0, Nuls(64), name, LE32(advert), place, [0, 0, 0, 0])
            && U32(LE32(advert), 0) == advert && LastMod(row) == 0
  {
    hide U32, LE32, ContactBytes, ContactFrame;
    LittleEndianRoundTrip(advert);
    RebuiltIs(key, name, kind, advert, place, seen);
    ContactFields(key, kind, 0, 0, Nuls(64), name, LE32(advert), place, [0, 0, 0, 0]);
    var p := ContactBytes(key, kind, 0, 0, Nuls(64), name, LE32(advert), place, [0, 0, 0, 0]);
    WordAt(p, 144, [0, 0, 0, 0]);
    NoTime();
  }

  lemma RebuiltIs(key: Key, name: Frame, kind: byte, advert: nat, place: Frame, seen: Option<int>)
    requires FitsField(name) && |place| == 8 && advert < 0x1_0000_0000
    ensures ContactFrame(Contact(key, name, kind, Some(advert), place, None, seen))
            == ContactBytes(key, kind, 0, 0, Nuls(64), name, LE32(advert), place, [0, 0, 0, 0])
  {
    assert PadTo(key, 32) == key && PadTo(place, 8) == place && PadTo(name, 32) == NameField(name);
    hide PadTo, NameField, LE32;
    var none: Frame := seq(64, _ => 0);
    assert none == Nuls(64);
    hide Nuls;
  }

  lemma NoTime()
    ensures U32([0, 0, 0, 0], 0) == 0
  {
  }

  /** CHANNEL_INFO: code, index, name, secret. */
  lemma ChannelIsCached(c: Core, idx: byte, name: Frame, secret: Frame, now: Clock)
    requires FitsField(name) && |secret| == 16
    ensures var p := [0x12, idx] + NameField(name) + secret;
            var d := CacheResponse(c, p, now);
            d.db.channels == c.db.channels[idx as int := Channel(idx, name, Some(secret))]
            && ChannelFrame(d.db.channels[idx as int]) == p
  {
    var p := [0x12, idx] + NameField(name) + secret;
    NameInField(name);
    assert p[2..34] == NameField(name) && p[34..50] == secret;
    assert PadTo(name, 32) == NameField(name) && PadTo(secret, 16) == secret;
    hide FirstNul, NameField, PadTo;
  }

  /** GET_CONTACTS carries `since` in the four bytes after its code. */
  lemma SinceIsCarried(since: Word, rest: Frame)
    ensures Since([0x04] + since + rest) == Some(U32(since, 0)) && Since([0x04]).None?
  {
    var p := [0x04] + since + rest;
    assert p[1..5] == since;
    WordAt(p, 1, since);
  }

  // ---------------------------------------------------------------------
  // The node's name
  // ---------------------------------------------------------------------

  /** SELF_INFO: four bytes, key, 22 bytes of settings, name. */
  lemma NameIsReported(c: Core, head: Frame, key: Key, settings: Frame, name: Frame, padding: nat, now: Clock)
    requires |head| == 4 && head[0] == 0x05 && |settings| == 22 && ProperName(name)
    ensures var d := CacheResponse(c, head + key + settings + name + Nuls(padding), now);
            d.mem.name == Some(name) && d.mem.pubkey == Some(key)
  {
    var p := head + key + settings + name + Nuls(padding);
    assert p[4..36] == key && p[58..] == name + Nuls(padding);
    TrimmedName(name + Nuls(padding), name, padding);
    hide TrimNuls, StoreMessage;
    assert |p| == 58 ==> p[58..] == [] && name == [];
  }

  lemma {:induction false} AdvanceNames(c: Core, now: Clock)
    ensures AdvanceQueue(c, now).mem.name == c.mem.name
    decreases |c.path.queue|
  {
    if c.path.queue != [] {
      var q, c1 := c.path.queue[0], WithQueue(c, c.path.queue[1..]);
      hide Wire, AwaitingFor, IdentityOf;
      if ClientLeft(c1, q) {
        AdvanceNames(Settle(c1, q, Gone), now);
      } else {
        DispatchShrinks(c1, q, now);
        DispatchNames(c1, q, now);
        hide DispatchToRadio;
        if DispatchToRadio(c1, q, now).path.inFlight.None? {
          AdvanceNames(DispatchToRadio(c1, q, now), now);
        }
      }
    }
  }

  lemma DispatchNames(c: Core, q: Request, now: Clock)
    ensures DispatchToRadio(c, q, now).mem.name == c.mem.name
  {
    hide Wire, AwaitingFor, IdentityOf, InvalidatesIdentity;
  }

  /** SET_ADVERT_NAME, accepted, is the name from then on, as far as the radio keeps it: 31 bytes. */
  lemma NameIsSet(c: Core, name: Frame, now: Clock)
    requires Reachable(c) && c.path.inFlight.Some? && c.path.inFlight.value.payload == [0x08] + name
    requires ProperName(name) && |name| <= 31
    ensures HandleRadioRx(c, [0x00], now).mem.name == Some(name)
  {
    hide HandleRadioRx, CacheResponse, Forward, Reachable, PathInv, SlotIsLastSent, AwaitingFor, Complete;
    ReachablePath(c);
    SlotKept(c);
    var f, p: Command := c.path.inFlight.value, [0x00];
    OkEndsNaming(c, name);
    RouteIs(c, p, now);
    OkIsNotKept(c, now);
    assert HandleRadioRx(c, p, now) == Complete(Forward(c, f, p, now), f, p, now);
    NameApplied(Forward(c, f, p, now), f, name, now);
  }

  lemma OkEndsNaming(c: Core, name: Frame)
    requires SlotIsLastSent(c) && c.path.inFlight.Some? && c.path.inFlight.value.payload == [0x08] + name
    ensures c.path.inFlight.value.awaiting.Belongs(0x00) && c.path.inFlight.value.awaiting.Completes(0x00)
  {
    hide CurrentFrames, OpenReply;
  }

  lemma OkIsNotKept(c: Core, now: Clock)
    ensures CacheResponse(c, [0x00], now) == c
  {
    hide StoreMessage;
  }

  lemma NameApplied(c: Core, f: InFlight, name: Frame, now: Clock)
    requires f.payload == [0x08] + name && ProperName(name) && |name| <= 31
    ensures Complete(c, f, [0x00], now).mem.name == Some(name)
  {
    hide AdvanceQueue, CurrentFrames, StoreMessage, EchoFrame;
    var c1 := Settle(WithSlot(c, None), f.Req(), Answered(CurrentFrames(c)));
    assert f.payload[1..Min(|f.payload|, 32)] == name;
    assert name == name + Nuls(0);
    TrimmedName(name, name, 0);
    hide TrimNuls;
    assert OnCommandAccepted(c1, f, now).mem.name == Some(name);
    AdvanceNames(OnCommandAccepted(c1, f, now), now);
  }

  // ---------------------------------------------------------------------
  // Commands on their way
  // ---------------------------------------------------------------------

  /** What a client's command puts on the radio path: nothing, or the command as it came; a DEVICE_QUERY asks for
      version 3 whatever its client asked for, and that is the version its client is served in. */
  lemma ForwardedVerbatim(c: Core, cmd: ClientCommand, now: Clock)
    ensures var d := HandleClientCommand(c, cmd, now);
            d.path.arrived == c.path.arrived
            || (cmd.payload != []
                && d.path.arrived
                   == c.path.arrived
                   + [Request(Some(cmd.client), if cmd.payload[0] == 0x16 then [0x16, 3] else cmd.payload)])
  {
    if cmd.payload != [] && cmd.client in c.live {
      hide MissedBy, AppName, ServeMissed, MessageHead, TryServeFromCache, NotifyMissed;
      var c1 := NoteCommand(c, cmd, now);
      if cmd.client in c1.sessions {
        ServeMissedOnly(c1, cmd.client, now);
      }
      var c2 := if cmd.payload[0] == 0x0A then ReplayNextMissed(c1, cmd.client, now).0 else c1;
      assert c2.path == c.path;
      ServedPath(c2, cmd);
      EnqueuedArrives(c2, Request(Some(cmd.client), ForRadio(cmd.payload)), now);
      hide EnqueueOrDispatch, NoteCommand, ReplayNextMissed;
    }
  }

  lemma ServedPath(c: Core, cmd: ClientCommand)
    requires cmd.payload != []
    ensures TryServeFromCache(c, cmd).Some? ==>
              TryServeFromCache(c, cmd).value.path == c.path
              && NotifyMissed(TryServeFromCache(c, cmd).value, cmd.client).path == c.path
  {
    ListedWhole(c, cmd.client, Since(cmd.payload));
    hide RespondContacts, ChannelFrame, GetContacts, Wire, Since, CachedBlob, RequestedChannel;
  }

  lemma ListedWhole(c: Core, k: ClientId, since: Option<nat>)
    ensures RespondContacts(c, k, GetContacts(c.db), since).path == c.path
  {
    hide GetContacts, Wire, ListContacts;
    ListedPath(SendToClient(c, k, [0x02] + LE32(|GetContacts(c.db)|), Cached), k, GetContacts(c.db), since);
  }

  lemma {:induction false} ListedPath(c: Core, k: ClientId, rows: seq<Contact>, since: Option<nat>)
    ensures ListContacts(c, k, rows, since).0.path == c.path
  {
    hide ContactFrame, Wire, LastMod;
    if rows != [] {
      ListedPath(c, k, rows[..|rows| - 1], since);
    }
  }

  lemma EnqueuedArrives(c: Core, q: Request, now: Clock)
    ensures EnqueueOrDispatch(c, q, now).path.arrived == c.path.arrived + [q]
  {
    hide Wire, AwaitingFor, IdentityOf, InvalidatesIdentity, WithoutContact;
  }

  /** DEVICE_QUERY tells the version a client speaks; nobody else's changes, and without one it is below 3. */
  lemma VersionIsTold(c: Core, k: ClientId, port: nat, version: byte, rest: Frame, now: Clock, j: ClientId)
    requires k in c.live
    ensures var d := HandleClientCommand(c, ClientCommand(k, port, [0x16, version] + rest), now);
            Version(d, j) == if j == k then version else Version(c, j)
    ensures j !in c.versions ==> Version(c, j) < 3
  {
    var cmd := ClientCommand(k, port, [0x16, version] + rest);
    var c1 := NoteCommand(c, cmd, now);
    assert c1 == c.(versions := c.versions[k := version]);
    ServedVersions(c1, cmd, now);
    hide ServeOrForward;
  }

  lemma ServedVersions(c: Core, cmd: ClientCommand, now: Clock)
    requires cmd.payload != [] && cmd.payload[0] == 0x16
    ensures ServeOrForward(c, cmd, now).versions == c.versions
  {
    hide Wire, AwaitingFor, IdentityOf, InvalidatesIdentity, WithoutContact, RespondContacts, ChannelFrame;
  }

  /** Maintenance asks for all contacts if and only if they are purged by age and no GET_CONTACTS without `since` is in
      flight or queued, whoever asked. */
  lemma MaintenanceAsksOnce(c: Core, now: Clock)
    ensures RunMaintenance(c, now).path.arrived
            == c.path.arrived
               + if c.conf.retention.contactsDays > 0
                    && !(c.path.inFlight.Some? && c.path.inFlight.value.payload == [0x04])
                    && (forall q :: q in c.path.queue ==> q.payload != [0x04])
                 then [Request(None, [0x04])] else []
  {
    var asked := exists q :: q in c.path.queue && q.payload == [0x04];
    if asked {
      var q :| q in c.path.queue && q.payload == [0x04];
      var i :| 0 <= i < |c.path.queue| && c.path.queue[i] == q;
    }
    hide Maintain, AdvanceQueue;
    AdvanceArrived(Enqueue(c, Request(None, FULL_SYNC)), now);
  }

  lemma {:induction false} AdvanceArrived(c: Core, now: Clock)
    ensures AdvanceQueue(c, now).path.arrived == c.path.arrived
    decreases |c.path.queue|
  {
    if c.path.queue != [] {
      var q, c1 := c.path.queue[0], WithQueue(c, c.path.queue[1..]);
      hide Wire, AwaitingFor, IdentityOf, InvalidatesIdentity, WithoutContact;
      if ClientLeft(c1, q) {
        AdvanceArrived(Settle(c1, q, Gone), now);
      } else {
        DispatchShrinks(c1, q, now);
        if DispatchToRadio(c1, q, now).path.inFlight.None? {
          AdvanceArrived(DispatchToRadio(c1, q, now), now);
        }
      }
    }
  }

  // ---------------------------------------------------------------------
  // Periods
  // ---------------------------------------------------------------------

  /** A request has five seconds from the last frame it got; whoever waits for an ACK, five minutes. Times are counted
      in milliseconds. */
  lemma Periods(c: Core, k: ClientId, p: Command, now: Clock, code: Frame)
    ensures TimedOut(c, now) <==> c.path.inFlight.Some? && c.path.inFlight.value.lastActivity + 5 * 1000 <= now.mono
    ensures p[0] == 0x06 && |p| >= 6 && code != p[2..6] ==>
              (code in StashAck(c, k, p, now).acks <==> code in c.acks && now.mono < c.acks[code].1 + 5 * 60 * 1000)
  {
  }

  /** What maintenance purges, row by row: what is older than so many days of 24 hours, messages by when they arrived,
      clients by when they last connected. */
  lemma PurgedByAge(t: Tables, r: Retention, now: int, m: Message, who: Identity)
    ensures m in Maintain(t, r, now).messages
            <==> m in t.messages
                 && (r.messagesDays == 0
                     || (if m.receivedAt.Some? then m.receivedAt.value else m.timestamp)
                        >= now - r.messagesDays * 24 * 60 * 60)
    ensures who in Maintain(t, r, now).clients
            <==> who in t.clients
                 && (r.clientsDays == 0 || t.clients[who].lastConnectedAt >= now - r.clientsDays * 24 * 60 * 60)
    ensures who in Maintain(t, r, now).clients ==> Maintain(t, r, now).clients[who] == t.clients[who]
  {
    FilterMember(t.messages, (x: Message) => ArrivedAt(x) >= Cutoff(now, r.messagesDays), m);
    hide KeptContacts, Filter;
  }

  lemma ContactsPurgedByAge(t: Tables, r: Retention, now: int, c: Contact)
    ensures c in Maintain(t, r, now).contacts
            <==> c in t.contacts
                 && (r.contactsDays == 0 || t.contactsSyncedAt.None?
                     || (if c.seenAt.Some? then c.seenAt.value else 0) >= t.contactsSyncedAt.value
                     || (if c.seenAt.Some? then c.seenAt.value else 0) >= now - r.contactsDays * 24 * 60 * 60)
  {
    MaintainContactsExact(t, r, now, c);
    hide Maintain;
  }

  // ---------------------------------------------------------------------
  // Orders
  // ---------------------------------------------------------------------

  /** `a` comes before `b`: at the first byte in which they differ it has the smaller one, or it ends there. */
  predicate Lexicographic(a: Frame, b: Frame) {
    exists n: nat :: n <= |a| && n < |b| && a[..n] == b[..n] && (n == |a| || a[n] < b[n])
  }

  lemma {:induction false} NamesInOrder(a: Frame, b: Frame)
    ensures NameBefore(a, b) <==> Lexicographic(a, b)
  {
    if a != [] && b != [] {
      NamesInOrder(a[1..], b[1..]);
      if n: nat :| n <= |a| && n < |b| && a[..n] == b[..n] && (n == |a| || a[n] < b[n]) {
        if n > 0 {
          assert a[..n][0] == a[0] && b[..n][0] == b[0];
          assert a[1..][..n - 1] == a[..n][1..] && b[1..][..n - 1] == b[..n][1..];
          assert Lexicographic(a[1..], b[1..]);
        }
      }
      if a[0] < b[0] {
        assert a[..0] == b[..0];
        assert Lexicographic(a, b);
      }
      if a[0] == b[0] && Lexicographic(a[1..], b[1..]) {
        var n: nat :| n <= |a[1..]| && n < |b[1..]| && a[1..][..n] == b[1..][..n]
                      && (n == |a[1..]| || a[1..][n] < b[1..][n]);
        assert a[..n + 1] == [a[0]] + a[1..][..n] && b[..n + 1] == [b[0]] + b[1..][..n];
        assert Lexicographic(a, b);
      }
    } else if b != [] {
      assert a[..0] == b[..0];
      assert Lexicographic(a, b);
    }
  }

  /** No name comes before an earlier one. */
  ghost predicate SortedByName(rows: seq<Contact>) {
    forall i, j :: 0 <= i < j < |rows| ==> !Lexicographic(rows[j].name, rows[i].name)
  }

  lemma {:induction false} BeforeIsTotal(a: Frame, b: Frame, c: Frame)
    ensures !(NameBefore(a, b) && NameBefore(b, a))
    ensures !NameBefore(b, a) && !NameBefore(c, b) ==> !NameBefore(c, a)
  {
    if a != [] && b != [] && c != [] {
      BeforeIsTotal(a[1..], b[1..], c[1..]);
    } else if a != [] && b != [] {
      BeforeIsTotal(a[1..], b[1..], []);
    }
  }

  ghost predicate Ascending(rows: seq<Contact>) {
    forall i, j :: 0 <= i < j < |rows| ==> !NameBefore(rows[j].name, rows[i].name)
  }

  lemma {:induction false} InsertedSorted(sorted: seq<Contact>, c: Contact)
    requires Ascending(sorted)
    ensures var r := InsertByName(sorted, c);
            Ascending(r) && |r| == |sorted| + 1 && (forall x :: x in r ==> x in sorted || x == c)
  {
    var r, n := InsertByName(sorted, c), |sorted|;
    hide NameBefore;
    if n > 0 {
      var front, last := sorted[..n - 1], sorted[n - 1];
      assert forall i :: 0 <= i < |front| ==> front[i] == sorted[i];
      if NameBefore(c.name, last.name) {
        InsertedSorted(front, c);
        BeforeIsTotal(c.name, last.name, last.name);
        forall x | x in InsertByName(front, c)
          ensures !NameBefore(last.name, x.name)
        {
          if x != c {
            var i :| 0 <= i < |front| && front[i] == x;
            assert sorted[i] == x;
          }
        }
      } else {
        forall i | 0 <= i < n
          ensures !NameBefore(c.name, sorted[i].name)
        {
          if i < n - 1 {
            BeforeIsTotal(sorted[i].name, last.name, c.name);
          }
        }
      }
    }
  }

  lemma {:induction false} ByNameSorted(rows: seq<Contact>)
    ensures Ascending(ByName(rows))
  {
    hide NameBefore;
    if rows != [] {
      ByNameSorted(rows[..|rows| - 1]);
      InsertedSorted(ByName(rows[..|rows| - 1]), rows[|rows| - 1]);
    }
  }

  /** Contacts are listed by name, every row once. */
  lemma ListedByName(t: Tables)
    ensures multiset(GetContacts(t)) == multiset(t.contacts) && SortedByName(GetContacts(t))
  {
    ByNameSorted(t.contacts);
    var r := GetContacts(t);
    hide NameBefore, Lexicographic, ByName;
    forall i, j | 0 <= i < j < |r|
      ensures !Lexicographic(r[j].name, r[i].name)
    {
      NamesInOrder(r[j].name, r[i].name);
    }
  }

  /** The head of the log is the highest id in it, and 0 when it is empty. */
  lemma HeadIsHighest(t: Tables)
    requires ValidMessages(t)
    ensures if t.messages == [] then MessageHead(t) == 0
            else (exists m :: m in t.messages && m.id == MessageHead(t))
                 && forall m :: m in t.messages ==> m.id <= MessageHead(t)
  {
    NothingAboveHead(t);
    if t.messages != [] {
      assert t.messages[|t.messages| - 1] in t.messages;
    }
  }
}
