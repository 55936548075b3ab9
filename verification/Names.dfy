/** Who a client is: the port it connects to and the app name it announces, whatever pads the name. */
module Names {
  import opened Bytes
  import opened Protocol
  import opened Store
  import opened CoreState
  import opened RadioPath
  import opened Requests
  import opened Frames
  import opened Replay
  import opened NoLoss
  import opened ReplayOnce

  /** A name as an app may announce it: empty, or not ending in NUL. */
  predicate ProperName(name: Frame) {
    name == [] || name[|name| - 1] != 0
  }

  function Nuls(n: nat): (b: Frame)
    ensures |b| == n && forall i :: 0 <= i < n ==> b[i] == 0
  {
    seq(n, _ => 0)
  }

  /** APP_START: code, app version, six reserved bytes, and the name with any number of NULs behind it. */
  function AppStart(version: byte, reserved: Frame, name: Frame, padding: nat): Command
    requires |reserved| == 6
  {
    [0x01, version] + reserved + name + Nuls(padding)
  }

  lemma TrimmedName(b: Frame, name: Frame, padding: nat)
    requires ProperName(name) && b == name + Nuls(padding)
    ensures TrimNuls(b) == name
  {
    assert name != [] ==> b[|name| - 1] == name[|name| - 1];
    assert forall i :: |name| <= i < |b| ==> b[i] == 0;
    assert TrimNuls(b) == b[..|TrimNuls(b)|] && name == b[..|name|];
  }

  lemma AppStartName(version: byte, reserved: Frame, name: Frame, padding: nat)
    requires |reserved| == 6 && ProperName(name)
    ensures AppName(AppStart(version, reserved, name, padding)) == name
  {
    assert AppStart(version, reserved, name, padding)[8..] == name + Nuls(padding);
    TrimmedName(name + Nuls(padding), name, padding);
  }

  /** A connected client that announces a name on a port is that port and that name, whatever its version and the
      padding; and what it is owed is what that identity missed. */
  lemma ClientIsPortAndName(c: Core, k: ClientId, port: nat, version: byte, reserved: Frame, name: Frame, padding: nat,
                            now: Clock)
    requires k in c.live && |reserved| == 6 && ProperName(name)
    ensures var d := HandleClientCommand(c, ClientCommand(k, port, AppStart(version, reserved, name, padding)), now);
            d.sessions == c.sessions[k := Session(Identity(port, name), MissedBy(c, Identity(port, name), now))]
  {
    var cmd := ClientCommand(k, port, AppStart(version, reserved, name, padding));
    AppStartName(version, reserved, name, padding);
    RowAfterRegister(c, cmd, now, Identity(port, name));
    hide AppName, MissedBy, ServeOrForward, RegisterSession;
    ServeOrForwardQuiet(RegisterSession(c, cmd, now), cmd, now);
  }

  /** An APP_START too short to carry a name announces the empty one. */
  lemma ShortStartIsNameless(c: Core, k: ClientId, port: nat, payload: Command, now: Clock)
    requires k in c.live && payload[0] == 0x01 && |payload| < 8
    ensures var d := HandleClientCommand(c, ClientCommand(k, port, payload), now);
            d.sessions == c.sessions[k := Session(Identity(port, []), MissedBy(c, Identity(port, []), now))]
  {
    var cmd := ClientCommand(k, port, payload);
    RowAfterRegister(c, cmd, now, Identity(port, []));
    hide MissedBy, ServeOrForward, RegisterSession;
    ServeOrForwardQuiet(RegisterSession(c, cmd, now), cmd, now);
  }

  // ---------------------------------------------------------------------
  // Identities keep out of each other's way
  // ---------------------------------------------------------------------

  /** The row of an identity is as it was. */
  predicate SameRow(c: Core, d: Core, who: Identity) {
    (who in d.db.clients <==> who in c.db.clients) && (who in c.db.clients ==> d.db.clients[who] == c.db.clients[who])
  }

  /** What an identity is owed depends on the log and on its own row. */
  lemma OwedByOwnRow(c: Core, d: Core, who: Identity, now: Clock)
    requires SameRow(c, d, who) && d.db.messages == c.db.messages && d.conf == c.conf
    ensures MissedBy(d, who, now) == MissedBy(c, who, now)
  {
    if who !in c.db.clients {
      assert Filter(d.db.messages, (m: Message) => ReplayableTo(m, who))
             == Filter(c.db.messages, (m: Message) => ReplayableTo(m, who));
    }
  }

  /** A client that announces another name, or the same one on another port, moves nothing of this identity: its row
      stays, and so does all it is owed. */
  lemma OthersAnnounceThemselves(c: Core, k: ClientId, port: nat, version: byte, reserved: Frame, name: Frame,
                                 padding: nat, now: Clock, otherPort: nat, otherName: Frame, later: Clock)
    requires k in c.live && |reserved| == 6 && ProperName(name) && (otherPort != port || otherName != name)
    ensures var d := HandleClientCommand(c, ClientCommand(k, port, AppStart(version, reserved, name, padding)), now);
            var other := Identity(otherPort, otherName);
            SameRow(c, d, other) && MissedBy(d, other, later) == MissedBy(c, other, later)
  {
    var cmd := ClientCommand(k, port, AppStart(version, reserved, name, padding));
    var other := Identity(otherPort, otherName);
    AppStartName(version, reserved, name, padding);
    RegisterRows(c, cmd, now, other);
    hide AppName, MissedBy, ServeOrForward, RegisterSession;
    var c1 := RegisterSession(c, cmd, now);
    ServeOrForwardQuiet(c1, cmd, now);
    OwedByOwnRow(c, ServeOrForward(c1, cmd, now), other, later);
  }

  lemma RegisterRows(c: Core, cmd: ClientCommand, now: Clock, other: Identity)
    requires other != WhoIs(cmd)
    ensures var d := RegisterSession(c, cmd, now);
            SameRow(c, d, other) && d.db.messages == c.db.messages && d.conf == c.conf
  {
    hide MissedBy, AppName, MessageHead;
  }

  lemma {:induction false} ServeRows(c: Core, k: ClientId, now: Clock, other: Identity)
    requires k in c.sessions && c.sessions[k].who != other
    ensures SameRow(c, ServeMissed(c, k, now).0, other)
    decreases |c.sessions[k].pending|
  {
    var s := c.sessions[k];
    if s.pending != [] && MessageFrame(c.db, s.pending[0]).None? {
      hide MessageFrame;
      ServeRows(c.(sessions := c.sessions[k := s.(pending := s.pending[1..])]), k, now, other);
    }
    hide MessageFrame;
  }

  lemma CommandRows(c: Core, cmd: ClientCommand, now: Clock, who: Identity)
    requires !(cmd.client in c.live && cmd.client in HandleClientCommand(c, cmd, now).sessions
               && HandleClientCommand(c, cmd, now).sessions[cmd.client].who == who)
    ensures SameRow(c, HandleClientCommand(c, cmd, now), who)
  {
    if cmd.payload != [] && cmd.client in c.live {
      hide ServeOrForward, RegisterSession, MissedBy, AppName, ServeMissed, MessageHead;
      var c1 := NoteCommand(c, cmd, now);
      ServeOrForwardQuiet(c1, cmd, now);
      if cmd.payload[0] == 0x01 {
        RowAfterRegister(c, cmd, now, who);
        RegisterRows(c, cmd, now, who);
      } else if cmd.payload[0] == 0x0A && cmd.client in c.sessions {
        ServeOther(c, cmd.client, now);
        var c2 := ReplayNextMissed(c, cmd.client, now).0;
        ServeOrForwardQuiet(c2, cmd, now);
        ServeRows(c, cmd.client, now, who);
      }
    }
  }

  /** The row of an identity moves only in steps after which a connected client is that identity; and it is purged only
      in maintenance. */
  predicate Present(c: Core, who: Identity) {
    exists k :: k in c.sessions && k in c.live && c.sessions[k].who == who
  }

  lemma StoreRowsStay(c: Core, timestamp: int, frame: Frame, origin: Option<Identity>, now: Clock, who: Identity)
    requires !Present(c, who)
    ensures SameRow(c, StoreMessage(c, timestamp, frame, origin, now), who)
  {
    hide Max;
  }

  lemma RadioRowsStay(c: Core, p: Frame, now: Clock, who: Identity)
    requires SlotIsLastSent(c) && !Present(c, who)
    ensures SameRow(c, HandleRadioRx(c, p, now), who)
  {
    hide SlotIsLastSent, HandleRadioRx, StoreMessage, Reached;
    if p == [] {
      NothingArrives(c, now);
    } else if Storable(p) {
      MessageStored(c, p, now);
      StoreRowsStay(c, MessageTimestamp(p), p, None, now, who);
    } else {
      OtherFrameStores(c, p, now);
      if !SameMail(c, HandleRadioRx(c, p, now)) {
        var e, timestamp, frame, origin :| StoresOnce(c, e, timestamp, frame, origin, now, HandleRadioRx(c, p, now));
        StoreRowsStay(e, timestamp, frame, origin, now, who);
      }
    }
  }

  /** Over every step: an identity that nobody is connected as keeps its row, whatever clients of other names or ports
      do and whatever the radio sends, until it is purged. */
  lemma AbsentKeepTheirRows(c: Core, i: Input, now: Clock, who: Identity)
    requires Reachable(c) && !Present(c, who) && !Present(Step(c, i, now), who)
    ensures var d := Step(c, i, now);
            SameRow(c, d, who)
            || (i.MaintenanceTick? && who in c.db.clients && who !in d.db.clients && c.conf.retention.clientsDays > 0)
  {
    ReachablePath(c);
    hide HandleClientCommand, HandleRadioRx, CheckInFlightTimeout, RequestFullSync, ReconnectRadio, Reachable,
      Conserved, Fifo, Told, SlotIsLastSent, KeptMessages, KeptContacts;
    match i {
      case Connect =>
      case Disconnect(_) =>
      case Command(cmd) =>
        CommandLive(c, cmd, now);
        CommandRows(c, cmd, now, who);
      case Radio(p) => RadioRowsStay(c, p, now, who);
      case TimeoutTick => TimeoutQuiet(c, now);
      case MaintenanceTick => RequestFullSyncQuiet(c, now);
      case LinkCloses =>
      case Reconnect(how) => ReconnectQuiet(c, how, now);
    }
  }

  lemma CommandLive(c: Core, cmd: ClientCommand, now: Clock)
    ensures HandleClientCommand(c, cmd, now).live == c.live
  {
    if cmd.payload != [] && cmd.client in c.live {
      hide ServeOrForward, RegisterSession, MissedBy, AppName, ServeMissed, MessageHead;
      ServeOrForwardQuiet(NoteCommand(c, cmd, now), cmd, now);
      RowAfterRegister(c, cmd, now, WhoIs(cmd));
      if cmd.client in c.sessions {
        ServeOther(c, cmd.client, now);
        ServeOrForwardQuiet(ReplayNextMissed(c, cmd.client, now).0, cmd, now);
      }
    }
  }
}
