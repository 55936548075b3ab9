/** Two connections of one identity at once: both can be replayed the same message. */
module Overlap {
  import opened Bytes
  import opened Protocol
  import opened Store
  import opened CoreState
  import opened RadioPath
  import opened Requests
  import opened Frames
  import opened Replay
  import opened NoLoss
  import opened ReplayOnce

  lemma HeadReplayed(c: Core, k: ClientId, id: int)
    requires LiveSession(c, k) && c.sessions[k].pending != [] && c.sessions[k].pending[0] == id
    requires MessageFrame(c.db, id).Some?
    ensures ReplayOf(c, k) == [Replayed(c.sessions[k].who, id, OriginOf(c.db.messages, id))]
  {
  }

  /** After a GET_MSG of another connection a session waits for what it waited for. */
  lemma OthersWaitOn(c: Core, cmd: ClientCommand, k: ClientId, now: Clock)
    requires LiveSession(c, cmd.client) && cmd.payload != [] && cmd.payload[0] == 0x0A
    requires LiveSession(c, k) && k != cmd.client
    ensures var d := Step(c, Command(cmd), now);
            LiveSession(d, k) && d.sessions[k] == c.sessions[k] && d.db.messages == c.db.messages
            && Replays(c, d) == ReplayOf(c, cmd.client)
  {
    CommandStep(c, cmd, now);
    ServeOther(c, cmd.client, now);
    ReplayNoted(c, cmd, now);
    ReplayThenForward(c, cmd, now);
    hide HandleClientCommand, ServeMissed, Step, Replays, MessageHead;
  }

  /** Two connections of one identity that wait for the same message are both replayed it. */
  lemma OverlapRepeats(c: Core, j: ClientId, k: ClientId, id: int, port: nat, now: Clock)
    requires j != k && LiveSession(c, j) && LiveSession(c, k) && c.sessions[j].who == c.sessions[k].who
    requires c.sessions[j].pending != [] && c.sessions[k].pending != []
    requires c.sessions[j].pending[0] == id == c.sessions[k].pending[0] && MessageFrame(c.db, id).Some?
    ensures var first, second := ClientCommand(j, port, [0x0A]), ClientCommand(k, port, [0x0A]);
            var d := Step(c, Command(first), now);
            Replays(c, d) == Replays(d, Step(d, Command(second), now))
            == [Replayed(c.sessions[j].who, id, OriginOf(c.db.messages, id))]
  {
    var first, second := ClientCommand(j, port, [0x0A]), ClientCommand(k, port, [0x0A]);
    var d := Step(c, Command(first), now);
    OthersWaitOn(c, first, k, now);
    HeadReplayed(c, j, id);
    SameFrame(c.db, d.db, id);
    HeadReplayed(d, k, id);
    CommandStep(d, second, now);
    ReplayNoted(d, second, now);
    hide Step, HandleClientCommand, Replays, MessageFrame, OriginOf, ReplayOf;
  }

  lemma SameFrame(t: Tables, u: Tables, id: int)
    requires u.messages == t.messages
    ensures MessageFrame(u, id) == MessageFrame(t, id)
  {
  }

  // ---------------------------------------------------------------------
  // From a startup
  // ---------------------------------------------------------------------

  /** An identity that registers again before it was served anything waits for the same message first. */
  lemma SameHeadAgain(c: Core, d: Core, cmd: ClientCommand, now: Clock, later: Clock)
    requires ValidMessages(c.db) && MissedBy(c, WhoIs(cmd), now) != []
    requires SameMail(RegisterSession(c, cmd, now), d)
    ensures var who := WhoIs(cmd);
            MissedBy(d, who, later) != [] && MissedBy(d, who, later)[0] == MissedBy(c, who, now)[0]
  {
    var who, pending := WhoIs(cmd), MissedBy(c, WhoIs(cmd), now);
    MissedReplayable(c, who, now, pending[0]);
    RegisteredCursor(c, cmd, now);
    SameMessages(c.db, d.db);
    MessageIdsAfterExact(d.db, pending[0] - 1, who);
    hide MissedBy, MessageIdsAfter, RegisterSession, ReplayableTo, ValidMessages;
    HeadIs(MessageIdsAfter(d.db, pending[0] - 1, who), pending[0]);
    MissedOnRecord(d, who, later);
  }

  lemma MissedOnRecord(c: Core, who: Identity, now: Clock)
    requires who in c.db.clients
    ensures MissedBy(c, who, now) == MessageIdsAfter(c.db, c.db.clients[who].lastSeen, who)
  {
  }

  lemma HeadIs(ids: seq<int>, id: int)
    requires Increasing(ids) && id in ids && forall x :: x in ids ==> x > id - 1
    ensures ids[0] == id
  {
    var i :| 0 <= i < |ids| && ids[i] == id;
    assert ids[0] in ids;
  }

  lemma RegisteredCursor(c: Core, cmd: ClientCommand, now: Clock)
    requires MissedBy(c, WhoIs(cmd), now) != []
    ensures var d, who, pending := RegisterSession(c, cmd, now), WhoIs(cmd), MissedBy(c, WhoIs(cmd), now);
            who in d.db.clients && d.db.clients[who].lastSeen == pending[0] - 1 && d.db.messages == c.db.messages
            && d.db.lastId == c.db.lastId
  {
    var who, pending := WhoIs(cmd), MissedBy(c, WhoIs(cmd), now);
    MissedReplayable(c, who, now, pending[0]);
    hide MissedBy, AppName;
  }

  /** What an APP_START of a connected client leaves. */
  lemma Identifies(c: Core, cmd: ClientCommand, now: Clock)
    requires Registers(c, Command(cmd))
    ensures var d := Step(c, Command(cmd), now);
            SameMail(RegisterSession(c, cmd, now), d) && d.live == c.live && d.db.messages == c.db.messages
            && d.db.lastId == c.db.lastId
            && d.sessions == c.sessions[cmd.client := Session(WhoIs(cmd), MissedBy(c, WhoIs(cmd), now))]
  {
    RowAfterRegister(c, cmd, now, WhoIs(cmd));
    CommandStep(c, cmd, now);
    hide MissedBy, AppName, RegisterSession, ServeOrForward, Step;
    ServeOrForwardQuiet(RegisterSession(c, cmd, now), cmd, now);
  }

  /** Two clients have connected. */
  function TwoJoined(retention: Retention, backlog: Backlog, db: Tables, r: Reconnection, now: Clock): Core {
    Step(Step(Start(retention, backlog, db, r, now), Connect, now), Connect, now)
  }

  lemma TwoAreLive(retention: Retention, backlog: Backlog, db: Tables, r: Reconnection, now: Clock)
    ensures var c := TwoJoined(retention, backlog, db, r, now);
            1 in c.live && 2 in c.live && c.db.messages == db.messages && c.db.lastId == db.lastId
            && c.db.clients == db.clients && c.conf.backlog == backlog
  {
    StartMail(retention, backlog, db, r, now);
    hide Start;
  }

  lemma SameMissed(c: Core, d: Core, who: Identity, now: Clock)
    requires d.db.messages == c.db.messages && d.db.clients == c.db.clients && d.conf.backlog == c.conf.backlog
    ensures MissedBy(d, who, now) == MissedBy(c, who, now)
  {
    assert Filter(d.db.messages, (m: Message) => ReplayableTo(m, who))
           == Filter(c.db.messages, (m: Message) => ReplayableTo(m, who));
  }

  lemma FrameOnRecord(t: Tables, id: int, who: Identity)
    requires ValidMessages(t) && exists m :: m in t.messages && m.id == id && ReplayableTo(m, who)
    ensures MessageFrame(t, id).Some?
  {
    FrameOfExact(t.messages, id);
  }

  /** From every startup on any database that holds a message for an identity: two clients connect, both identify
      themselves as that identity, both ask once, and both are replayed the same message. */
  lemma OverlapFromStart(retention: Retention, backlog: Backlog, db: Tables, r: Reconnection, now: Clock, port: nat,
                         hello: Frame)
    requires ValidMessages(db) && hello != [] && hello[0] == 0x01
    requires MissedBy(Fresh(retention, backlog, db), Identity(port, AppName(hello)), now) != []
    ensures var who := Identity(port, AppName(hello));
            var id := MissedBy(Fresh(retention, backlog, db), who, now)[0];
            var c0 := TwoJoined(retention, backlog, db, r, now);
            var c1 := Step(c0, Command(ClientCommand(1, port, hello)), now);
            var c2 := Step(c1, Command(ClientCommand(2, port, hello)), now);
            var c3 := Step(c2, Command(ClientCommand(1, port, [0x0A])), now);
            var c4 := Step(c3, Command(ClientCommand(2, port, [0x0A])), now);
            Replays(c2, c3) == Replays(c3, c4) == [Replayed(who, id, OriginOf(db.messages, id))]
  {
    var f, who := Fresh(retention, backlog, db), Identity(port, AppName(hello));
    var first, second := ClientCommand(1, port, hello), ClientCommand(2, port, hello);
    var c0 := TwoJoined(retention, backlog, db, r, now);
    var id := MissedBy(f, who, now)[0];
    TwoAreLive(retention, backlog, db, r, now);
    SameMissed(f, c0, who, now);
    MissedReplayable(f, who, now, id);
    FrameOnRecord(db, id, who);
    SameMessages(db, c0.db);
    hide Start, Step, TwoJoined, Fresh, MissedBy, AppName, RegisterSession, ValidMessages, ReplayableTo, Replays,
      OriginOf, MessageFrame;
    var c1 := Step(c0, Command(first), now);
    Identifies(c0, first, now);
    SameHeadAgain(c0, c1, first, now, now);
    var c2 := Step(c1, Command(second), now);
    Identifies(c1, second, now);
    SameFrame(db, c2.db, id);
    OverlapRepeats(c2, 1, 2, id, port, now);
  }
}
