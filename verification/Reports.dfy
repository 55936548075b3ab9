/** What the multiplexer knows of its radio is what the radio last said: its answers, its key, the number of its
    channels. */
module Reports {
  import opened Bytes
  import opened Protocol
  import opened Store
  import opened CoreState
  import opened RadioPath
  import opened Requests
  import opened Frames
  import opened Outcomes
  import opened Links
  import opened Flow

  /** The three answers that are kept in memory, each by the code of its frame. */
  predicate IsAnswerCode(code: byte) {
    code in {0x05, 0x0D, 0x0C}
  }

  function Known(c: Core, code: byte): Option<Frame>
    requires IsAnswerCode(code)
  {
    if code == 0x05 then c.mem.selfInfo else if code == 0x0D then c.mem.deviceInfo else c.mem.batteryInfo
  }

  /** APP_START is answered with SELF_INFO, DEVICE_QUERY with DEVICE_INFO, GET_BATT_AND_STORAGE with BATTERY. */
  function AnswerTo(code: byte): Option<byte> {
    if code == 0x01 then Some(0x05) else if code == 0x16 then Some(0x0D) else if code == 0x14 then Some(0x0C) else None
  }

  // ---------------------------------------------------------------------
  // What each step learns and forgets
  // ---------------------------------------------------------------------

  /** A frame from the radio, or restored, under the code it is kept by. */
  datatype Saying = Saying(code: byte, frame: Frame)

  function AttemptReports(attempts: seq<Option<SelfInfoFrame>>): seq<Saying> {
    if attempts == [] then []
    else
      var last := attempts[|attempts| - 1];
      AttemptReports(attempts[..|attempts| - 1]) + if last.Some? then [Saying(0x05, last.value)] else []
  }

  /** What the radio says in a step. */
  function ReportsOf(i: Input): seq<Saying> {
    match i
    case Radio(frame) => if frame == [] then [] else [Saying(frame[0], frame)]
    case Reconnect(r) =>
      AttemptReports(r.attempts) + [Saying(0x05, r.selfInfo)]
      + if r.deviceInfo.Some? then [Saying(0x0D, r.deviceInfo.value)] else []
    case _ => []
  }

  /** The last report under a code, if there is one. */
  function Last(reports: seq<Saying>, code: byte): Option<Frame> {
    if reports == [] then None
    else if reports[|reports| - 1].code == code then Some(reports[|reports| - 1].frame)
    else Last(reports[..|reports| - 1], code)
  }

  lemma {:induction false} LastOfTwo(a: seq<Saying>, b: seq<Saying>, code: byte)
    ensures Last(a + b, code) == if Last(b, code).Some? then Last(b, code) else Last(a, code)
  {
    if b == [] {
      assert a + b == a;
    } else {
      assert (a + b)[..|a + b| - 1] == a + b[..|b| - 1];
      LastOfTwo(a, b[..|b| - 1], code);
    }
  }

  /** The key of the last SELF_INFO long enough to carry one: the 32 bytes behind its head of four. */
  function KeyAfter(key: Option<Key>, reports: seq<Saying>): Option<Key> {
    if reports == [] then key
    else
      var last := reports[|reports| - 1];
      if last.code == 0x05 && |last.frame| >= 36 then Some(last.frame[4..36])
      else KeyAfter(key, reports[..|reports| - 1])
  }

  /** The number of channels in the last DEVICE_INFO that gives one: the byte behind its head of three, unless 0. */
  function CountAfter(channels: byte, reports: seq<Saying>): byte {
    if reports == [] then channels
    else
      var last := reports[|reports| - 1];
      if last.code == 0x0D && |last.frame| >= 4 && last.frame[3] != 0 then last.frame[3]
      else CountAfter(channels, reports[..|reports| - 1])
  }

  lemma {:induction false} KeyAfterTwo(key: Option<Key>, a: seq<Saying>, b: seq<Saying>)
    ensures KeyAfter(key, a + b) == KeyAfter(KeyAfter(key, a), b)
  {
    if b == [] {
      assert a + b == a;
    } else {
      assert (a + b)[..|a + b| - 1] == a + b[..|b| - 1];
      KeyAfterTwo(key, a, b[..|b| - 1]);
    }
  }

  lemma {:induction false} CountAfterTwo(channels: byte, a: seq<Saying>, b: seq<Saying>)
    ensures CountAfter(channels, a + b) == CountAfter(CountAfter(channels, a), b)
  {
    if b == [] {
      assert a + b == a;
    } else {
      assert (a + b)[..|a + b| - 1] == a + b[..|b| - 1];
      CountAfterTwo(channels, a, b[..|b| - 1]);
    }
  }

  /** Each answer is still known as it was, or as just reported, or no more; key and number of channels
      are as before unless just reported. */
  ghost predicate Learns(c: Core, d: Core, reports: seq<Saying>) {
    && (forall code :: IsAnswerCode(code) ==> LearntOf(c, d, reports, code))
    && d.mem.pubkey == KeyAfter(c.mem.pubkey, reports)
    && d.mem.maxChannels == CountAfter(c.mem.maxChannels, reports)
  }

  predicate LearntOf(c: Core, d: Core, reports: seq<Saying>, code: byte)
    requires IsAnswerCode(code)
  {
    Known(d, code).None?
    || Known(d, code) == if Last(reports, code).Some? then Last(reports, code) else Known(c, code)
  }

  lemma LearnsOn(c: Core, d: Core, e: Core, a: seq<Saying>, b: seq<Saying>)
    requires Learns(c, d, a) && Learns(d, e, b)
    ensures Learns(c, e, a + b)
  {
    forall code | IsAnswerCode(code)
      ensures LearntOf(c, e, a + b, code)
    {
      LastOfTwo(a, b, code);
      assert LearntOf(c, d, a, code) && LearntOf(d, e, b, code);
    }
    KeyAfterTwo(c.mem.pubkey, a, b);
    CountAfterTwo(c.mem.maxChannels, a, b);
    hide Last, KeyAfter, CountAfter, LearntOf;
  }

  lemma NoReports()
    ensures var none: seq<Saying> := []; none + none == none && none + (none + none) == none
  {
  }

  lemma NothingLearnt(c: Core, d: Core)
    requires d.mem == c.mem.(name := d.mem.name)
    ensures Learns(c, d, [])
  {
  }

  lemma FlowsForget(c: Core, d: Core)
    requires Flows(c, d)
    ensures Learns(c, d, [])
  {
    if NewSlot(c, d) && !SameCache(c, d) {
      InvalidateIs(c, d.path.inFlight.value.payload);
    }
    hide Invalidate, QueueFlows, InvalidatesIdentity;
  }

  lemma OneReport(r: Saying, key: Option<Key>, channels: byte)
    ensures forall code :: Last([r], code) == if r.code == code then Some(r.frame) else None
    ensures KeyAfter(key, [r]) == if r.code == 0x05 && |r.frame| >= 36 then Some(r.frame[4..36]) else key
    ensures CountAfter(channels, [r])
            == if r.code == 0x0D && |r.frame| >= 4 && r.frame[3] != 0 then r.frame[3] else channels
  {
    assert [r][..0] == [] && Last([], r.code) == None;
    forall code
      ensures Last([r], code) == if r.code == code then Some(r.frame) else None
    {
      assert Last([r][..0], code) == None;
    }
  }

  lemma CacheLearns(c: Core, p: Command, now: Clock)
    ensures Learns(c, CacheResponse(c, p, now), [Saying(p[0], p)])
  {
    OneReport(Saying(p[0], p), c.mem.pubkey, c.mem.maxChannels);
    CacheMemory(c, p, now);
    hide CacheResponse, Last, KeyAfter, CountAfter;
  }

  lemma CacheMemory(c: Core, p: Command, now: Clock)
    ensures var d := CacheResponse(c, p, now);
            d.mem.selfInfo == (if p[0] == 0x05 then Some(p) else c.mem.selfInfo)
            && d.mem.deviceInfo == (if p[0] == 0x0D then Some(p) else c.mem.deviceInfo)
            && d.mem.batteryInfo == (if p[0] == 0x0C then Some(p) else c.mem.batteryInfo)
            && d.mem.pubkey == (if p[0] == 0x05 && |p| >= 36 then Some(p[4..36]) else c.mem.pubkey)
            && d.mem.maxChannels == (if p[0] == 0x0D && |p| >= 4 && p[3] != 0 then p[3] else c.mem.maxChannels)
  {
    if Storable(p) {
      StoreStill(c, MessageTimestamp(p), p, None, now);
    }
    hide StoreMessage, MessageTimestamp, TrimNuls, ContactFromFrame, ChannelFromFrame;
  }

  lemma RouteLearns(c: Core, p: Command, now: Clock)
    requires SlotIsLastSent(c) && BelongsToInFlight(c, p)
    ensures Learns(c, RouteToInFlight(c, p, now), [])
  {
    var f := c.path.inFlight.value;
    var c1 := Forward(c, f, p, now);
    ForwardFlow(c, p, now);
    NothingLearnt(c, c1);
    hide Forward, Complete, AwaitingFor, SlotIsLastSent, FollowUp, Learns;
    if f.awaiting.Completes(p[0]) {
      CompleteFlows(c1, f, p, now);
      FlowsForget(WithSlot(c1, None), Complete(c1, f, p, now));
      NothingLearnt(c1, WithSlot(c1, None));
      LearnsOn(c1, WithSlot(c1, None), Complete(c1, f, p, now), [], []);
      LearnsOn(c, c1, Complete(c1, f, p, now), [], [] + []);
      NoReports();
    } else {
      var d := WithSlot(c1, Some(f.(lastActivity := now.mono)));
      NothingLearnt(c1, d);
      LearnsOn(c, c1, d, [], []);
      NoReports();
    }
  }

  lemma RadioLearns(c: Core, p: Frame, now: Clock)
    requires SlotIsLastSent(c)
    ensures Learns(c, HandleRadioRx(c, p, now), ReportsOf(Radio(p)))
  {
    if p == [] {
      NothingLearnt(c, c);
    } else {
      CacheLearns(c, p, now);
      CacheUnanswered(c, p, now);
      var c1, d := CacheResponse(c, p, now), HandleRadioRx(c, p, now);
      assert SlotIsLastSent(c1);
      hide CacheResponse, RouteToInFlight, HandlePush, SlotIsLastSent, Learns, Flows;
      if BelongsToInFlight(c1, p) {
        RouteLearns(c1, p, now);
      } else if MatchesAck(c1, p) {
        NothingLearnt(c1, RouteAck(c1, p));
      } else if IsPush(p[0]) {
        PushFlows(c1, p, now);
        FlowsForget(c1, HandlePush(c1, p, now));
      } else {
        NothingLearnt(c1, c1);
      }
      LearnsOn(c, c1, d, [Saying(p[0], p)], []);
      assert [Saying(p[0], p)] + [] == [Saying(p[0], p)];
    }
  }

  lemma {:induction false} AttemptsLearn(c: Core, attempts: seq<Option<SelfInfoFrame>>, now: Clock)
    ensures Learns(c, FailedAttempts(c, attempts, now), AttemptReports(attempts))
  {
    if attempts == [] {
      NothingLearnt(c, c);
    } else {
      var front, last := attempts[..|attempts| - 1], attempts[|attempts| - 1];
      AttemptsLearn(c, front, now);
      var c1 := FailedAttempts(c, front, now);
      hide CacheResponse, Learns;
      if last.Some? {
        CacheLearns(c1, last.value, now);
        LearnsOn(c, c1, CacheResponse(c1, last.value, now), AttemptReports(front), [Saying(0x05, last.value)]);
      } else {
        assert AttemptReports(front) + [] == AttemptReports(front);
      }
    }
  }

  lemma {:induction false} FailQueueKnows(c: Core)
    ensures FailQueue(c).mem == c.mem
    decreases |c.path.queue|
  {
    if c.path.queue != [] {
      FailQueueKnows(Fail(WithQueue(c, c.path.queue[1..]), c.path.queue[0], []));
    }
  }

  lemma LoseKnows(c: Core)
    ensures LoseRadio(c).mem == c.mem
  {
    FailQueueKnows(WithLink(FailInFlight(c), NO_LINK));
    hide FailQueue;
  }

  lemma HandshakeLearns(c: Core, r: Reconnection, now: Clock)
    ensures Learns(c, InitializeRadio(c, r, now),
                   [Saying(0x05, r.selfInfo)] + if r.deviceInfo.Some? then [Saying(0x0D, r.deviceInfo.value)] else [])
  {
    hide CacheResponse, Learns;
    CacheLearns(c, r.selfInfo, now);
    if r.deviceInfo.Some? {
      CacheLearns(CacheResponse(c, r.selfInfo, now), r.deviceInfo.value, now);
      LearnsOn(c, CacheResponse(c, r.selfInfo, now), InitializeRadio(c, r, now), [Saying(0x05, r.selfInfo)],
               [Saying(0x0D, r.deviceInfo.value)]);
    } else {
      assert [Saying(0x05, r.selfInfo)] + [] == [Saying(0x05, r.selfInfo)];
    }
  }

  lemma ReconnectLearns(c: Core, r: Reconnection, now: Clock)
    ensures Learns(c, ReconnectRadio(c, r, now), ReportsOf(Reconnect(r)))
  {
    ReconnectStarts(c, r, now);
    LoseKnows(c);
    hide ReconnectRadio, LoseRadio, FailedAttempts, InitializeRadio, SyncFromRadio, Learns, NewLink;
    var c1 := LoseRadio(c).(live := c.live - r.left);
    var c2 := FailedAttempts(c1, r.attempts, now);
    var c3 := WithLink(c2, Link(true, r.open, [], []));
    var c4 := InitializeRadio(c3, r, now);
    var told := [Saying(0x05, r.selfInfo)] + if r.deviceInfo.Some? then [Saying(0x0D, r.deviceInfo.value)] else [];
    NothingLearnt(c, c1);
    AttemptsLearn(c1, r.attempts, now);
    LearnsOn(c, c1, c2, [], AttemptReports(r.attempts));
    assert [] + AttemptReports(r.attempts) == AttemptReports(r.attempts);
    NothingLearnt(c2, c3);
    HandshakeLearns(c3, r, now);
    LearnsOn(c2, c3, c4, [], told);
    assert [] + told == told;
    LearnsOn(c, c2, c4, AttemptReports(r.attempts), told);
    SyncStarts(c4, now);
    NothingLearnt(c4, SyncFromRadio(c4, now));
    LearnsOn(c, c4, SyncFromRadio(c4, now), AttemptReports(r.attempts) + told, []);
    assert AttemptReports(r.attempts) + told + [] == ReportsOf(Reconnect(r));
  }

  lemma TimeoutForgets(c: Core, now: Clock)
    ensures Learns(c, CheckInFlightTimeout(c, now), [])
  {
    hide AdvanceQueue, Learns, Wire;
    if TimedOut(c, now) {
      var c1 := FailInFlight(c);
      NothingLearnt(c, c1);
      AdvanceFlows(c1, now);
      FlowsForget(c1, AdvanceQueue(c1, now));
      LearnsOn(c, c1, AdvanceQueue(c1, now), [], []);
      NoReports();
    } else {
      NothingLearnt(c, c);
    }
  }

  lemma MaintenanceForgets(c: Core, now: Clock)
    ensures Learns(c, RunMaintenance(c, now), [])
  {
    hide RequestFullSync, Maintain, Learns, Flows;
    RequestFullSyncFlows(c, now);
    FlowsForget(c, RequestFullSync(c, now));
    NothingLearnt(RequestFullSync(c, now), RunMaintenance(c, now));
    LearnsOn(c, RequestFullSync(c, now), RunMaintenance(c, now), [], []);
    NoReports();
  }

  lemma StepLearns(c: Core, i: Input, now: Clock)
    requires SlotIsLastSent(c)
    ensures Learns(c, Step(c, i, now), ReportsOf(i))
  {
    hide HandleClientCommand, HandleRadioRx, CheckInFlightTimeout, RunMaintenance, ReconnectRadio, SlotIsLastSent,
      Learns, Flows;
    match i {
      case Connect => NothingLearnt(c, Step(c, i, now));
      case Disconnect(_) => NothingLearnt(c, Step(c, i, now));
      case Command(cmd) =>
        CommandFlows(c, cmd, now);
        FlowsForget(c, HandleClientCommand(c, cmd, now));
      case Radio(p) => RadioLearns(c, p, now);
      case TimeoutTick => TimeoutForgets(c, now);
      case MaintenanceTick => MaintenanceForgets(c, now);
      case LinkCloses => NothingLearnt(c, Step(c, i, now));
      case Reconnect(how) => ReconnectLearns(c, how, now);
    }
  }

  // ---------------------------------------------------------------------
  // Runs
  // ---------------------------------------------------------------------

  /** What the radio has said in a run. */
  function Said(steps: seq<Timed>): seq<Saying> {
    if steps == [] then [] else Said(steps[..|steps| - 1]) + ReportsOf(steps[|steps| - 1].input)
  }

  /** What is known at startup: what the radio says in the handshake, then what the last session left, of the rest. */
  function SaidAtStart(db: Tables, r: Reconnection): seq<Saying> {
    ReportsOf(Reconnect(r))
    + (if r.deviceInfo.None? && DeviceInfo in db.blobs then [Saying(0x0D, db.blobs[DeviceInfo])] else [])
    + (if Battery in db.blobs then [Saying(0x0C, db.blobs[Battery])] else [])
  }

  lemma BlobsCached(c: Core, p: Command, now: Clock)
    requires p[0] in {0x05, 0x0D}
    ensures var d := CacheResponse(c, p, now);
            d.db.blobs == c.db.blobs[(if p[0] == 0x05 then SelfInfo else DeviceInfo) := p]
            && d.mem.batteryInfo == c.mem.batteryInfo
            && d.mem.selfInfo == (if p[0] == 0x05 then Some(p) else c.mem.selfInfo)
            && d.mem.deviceInfo == (if p[0] == 0x0D then Some(p) else c.mem.deviceInfo)
  {
    hide TrimNuls, StoreMessage;
  }

  /** The blobs that a handshake does not bring stay in the database. */
  ghost predicate Spares(c: Core, d: Core) {
    && d.mem.deviceInfo == c.mem.deviceInfo && d.mem.batteryInfo == c.mem.batteryInfo
    && forall key :: key in {DeviceInfo, Battery} ==>
         (key in d.db.blobs <==> key in c.db.blobs) && (key in c.db.blobs ==> d.db.blobs[key] == c.db.blobs[key])
  }

  lemma {:induction false} AttemptsSpare(c: Core, attempts: seq<Option<SelfInfoFrame>>, now: Clock)
    ensures Spares(c, FailedAttempts(c, attempts, now))
  {
    if attempts != [] {
      hide CacheResponse;
      AttemptsSpare(c, attempts[..|attempts| - 1], now);
      if attempts[|attempts| - 1].Some? {
        BlobsCached(FailedAttempts(c, attempts[..|attempts| - 1], now), attempts[|attempts| - 1].value, now);
      }
    }
  }

  lemma {:induction false} FailQueueSpares(c: Core)
    ensures FailQueue(c).db == c.db
    decreases |c.path.queue|
  {
    if c.path.queue != [] {
      FailQueueSpares(Fail(WithQueue(c, c.path.queue[1..]), c.path.queue[0], []));
    }
  }

  lemma HandshakeSpares(c: Core, r: Reconnection, now: Clock)
    ensures var d := InitializeRadio(c, r, now);
            d.mem.selfInfo == Some(r.selfInfo) && d.mem.batteryInfo == c.mem.batteryInfo
            && d.mem.deviceInfo == (if r.deviceInfo.Some? then r.deviceInfo else c.mem.deviceInfo)
            && (Battery in d.db.blobs <==> Battery in c.db.blobs)
            && (Battery in c.db.blobs ==> d.db.blobs[Battery] == c.db.blobs[Battery])
            && (r.deviceInfo.None? ==>
                  (DeviceInfo in d.db.blobs <==> DeviceInfo in c.db.blobs)
                  && (DeviceInfo in c.db.blobs ==> d.db.blobs[DeviceInfo] == c.db.blobs[DeviceInfo]))
  {
    hide CacheResponse;
    BlobsCached(c, r.selfInfo, now);
    if r.deviceInfo.Some? {
      BlobsCached(CacheResponse(c, r.selfInfo, now), r.deviceInfo.value, now);
    }
  }

  lemma ReconnectSpares(c: Core, r: Reconnection, now: Clock)
    ensures var d := ReconnectRadio(c, r, now);
            d.mem.selfInfo == Some(r.selfInfo) && d.mem.batteryInfo == c.mem.batteryInfo
            && d.mem.deviceInfo == (if r.deviceInfo.Some? then r.deviceInfo else c.mem.deviceInfo)
            && (Battery in d.db.blobs <==> Battery in c.db.blobs)
            && (Battery in c.db.blobs ==> d.db.blobs[Battery] == c.db.blobs[Battery])
            && (r.deviceInfo.None? ==>
                  (DeviceInfo in d.db.blobs <==> DeviceInfo in c.db.blobs)
                  && (DeviceInfo in c.db.blobs ==> d.db.blobs[DeviceInfo] == c.db.blobs[DeviceInfo]))
  {
    ReconnectStarts(c, r, now);
    LoseKnows(c);
    FailQueueSpares(WithLink(FailInFlight(c), NO_LINK));
    hide ReconnectRadio, FailQueue, FailedAttempts, InitializeRadio, SyncFromRadio, NewLink;
    var c1 := LoseRadio(c).(live := c.live - r.left);
    AttemptsSpare(c1, r.attempts, now);
    var c3 := WithLink(FailedAttempts(c1, r.attempts, now), Link(true, r.open, [], []));
    HandshakeSpares(c3, r, now);
    SyncStarts(InitializeRadio(c3, r, now), now);
  }

  lemma RestoreLearns(c: Core)
    requires c.mem.selfInfo.Some?
    ensures Learns(c, RestoreBlobs(c),
                   (if c.mem.deviceInfo.None? && DeviceInfo in c.db.blobs then [Saying(0x0D, c.db.blobs[DeviceInfo])]
                    else [])
                   + (if c.mem.batteryInfo.None? && Battery in c.db.blobs then [Saying(0x0C, c.db.blobs[Battery])]
                      else []))
  {
    var a := if c.mem.deviceInfo.None? && DeviceInfo in c.db.blobs then [Saying(0x0D, c.db.blobs[DeviceInfo])] else [];
    var b := if c.mem.batteryInfo.None? && Battery in c.db.blobs then [Saying(0x0C, c.db.blobs[Battery])] else [];
    var c1 := if a != [] then KeepDeviceInfo(c, c.db.blobs[DeviceInfo]) else c;
    if a != [] {
      OneReport(a[0], c.mem.pubkey, c.mem.maxChannels);
    }
    if b != [] {
      OneReport(b[0], c1.mem.pubkey, c1.mem.maxChannels);
    }
    hide KeyAfter, CountAfter, Last;
    if a == [] {
      NothingLearnt(c, c1);
    }
    assert Learns(c, c1, a);
    if b == [] {
      NothingLearnt(c1, RestoreBlobs(c));
    }
    assert Learns(c1, RestoreBlobs(c), b);
    hide Learns, RestoreBlobs;
    LearnsOn(c, c1, RestoreBlobs(c), a, b);
  }

  lemma StartLearns(retention: Retention, backlog: Backlog, db: Tables, r: Reconnection, now: Clock)
    ensures Learns(Fresh(retention, backlog, db), Start(retention, backlog, db, r, now), SaidAtStart(db, r))
  {
    var f := Fresh(retention, backlog, db);
    var c := ReconnectRadio(f, r, now);
    ReconnectLearns(f, r, now);
    ReconnectSpares(f, r, now);
    RestoreLearns(c);
    hide ReconnectRadio, RestoreBlobs, Learns;
    var a := if r.deviceInfo.None? && DeviceInfo in db.blobs then [Saying(0x0D, db.blobs[DeviceInfo])] else [];
    var b := if Battery in db.blobs then [Saying(0x0C, db.blobs[Battery])] else [];
    LearnsOn(f, c, RestoreBlobs(c), ReportsOf(Reconnect(r)), a + b);
    assert ReportsOf(Reconnect(r)) + (a + b) == SaidAtStart(db, r);
  }

  /** At startup SELF_INFO is known from the handshake; DEVICE_INFO from the handshake or else from the last session;
      BATTERY from the last session. */
  lemma KnownAtStart(retention: Retention, backlog: Backlog, db: Tables, r: Reconnection, now: Clock)
    ensures var c := Start(retention, backlog, db, r, now);
            c.mem.selfInfo == Some(r.selfInfo)
            && c.mem.deviceInfo == (if r.deviceInfo.Some? then Some(r.deviceInfo.value)
                                    else if DeviceInfo in db.blobs then Some(db.blobs[DeviceInfo]) else None)
            && c.mem.batteryInfo == (if Battery in db.blobs then Some(db.blobs[Battery]) else None)
  {
    var c := ReconnectRadio(Fresh(retention, backlog, db), r, now);
    ReconnectSpares(Fresh(retention, backlog, db), r, now);
    hide ReconnectRadio;
    RestoredIs(c);
  }

  lemma RestoredIs(c: Core)
    requires c.mem.selfInfo.Some?
    ensures var d := RestoreBlobs(c);
            d.mem.selfInfo == c.mem.selfInfo
            && d.mem.deviceInfo
            == (if c.mem.deviceInfo.None? && DeviceInfo in c.db.blobs then Some(c.db.blobs[DeviceInfo])
                                    else c.mem.deviceInfo)
            && d.mem.batteryInfo == (if c.mem.batteryInfo.None? && Battery in c.db.blobs then Some(c.db.blobs[Battery])
                                     else c.mem.batteryInfo)
  {
  }

  lemma {:induction false} RunLearns(c: Core, steps: seq<Timed>)
    requires PathInv(c)
    ensures Learns(c, Run(c, steps), Said(steps)) && PathInv(Run(c, steps))
  {
    hide PathInv, Step, Learns;
    if steps == [] {
      NothingLearnt(c, c);
    } else {
      var n := |steps| - 1;
      var d := Run(c, steps[..n]);
      RunLearns(c, steps[..n]);
      SlotKept(d);
      StepLearns(d, steps[n].input, steps[n].now);
      StepKeeps(d, steps[n].input, steps[n].now);
      LearnsOn(c, d, Run(c, steps), Said(steps[..n]), ReportsOf(steps[n].input));
    }
  }

  lemma SlotKept(c: Core)
    requires PathInv(c)
    ensures SlotIsLastSent(c)
  {
    hide SlotIsLastSent, Conserved, Fifo, Told;
  }

  /** Everything the radio is known to have said, from startup on. */
  function AllSaid(db: Tables, r: Reconnection, steps: seq<Timed>): seq<Saying> {
    SaidAtStart(db, r) + Said(steps)
  }

  lemma HeardLearns(retention: Retention, backlog: Backlog, db: Tables, r: Reconnection, now: Clock, steps: seq<Timed>)
    ensures Learns(Fresh(retention, backlog, db), Run(Start(retention, backlog, db, r, now), steps),
                   AllSaid(db, r, steps))
  {
    hide Learns, Start, Run, Fresh, SaidAtStart, Said;
    var c0 := Start(retention, backlog, db, r, now);
    StartPath(retention, backlog, db, r, now);
    StartLearns(retention, backlog, db, r, now);
    RunLearns(c0, steps);
    LearnsOn(Fresh(retention, backlog, db), c0, Run(c0, steps), SaidAtStart(db, r), Said(steps));
  }

  /** Over every run: an answer of the radio that the multiplexer knows is the last one of its kind it has read, or was
      left from the last session. */
  lemma AnswersAreTheLastRead(retention: Retention, backlog: Backlog, db: Tables, r: Reconnection, now: Clock,
                              steps: seq<Timed>, code: byte)
    requires IsAnswerCode(code)
    ensures var c := Run(Start(retention, backlog, db, r, now), steps);
            Known(c, code).Some? ==> Known(c, code) == Last(AllSaid(db, r, steps), code)
  {
    HeardLearns(retention, backlog, db, r, now, steps);
    hide Start, Run, AllSaid, Last, KeyAfter, CountAfter;
    assert LearntOf(Fresh(retention, backlog, db), Run(Start(retention, backlog, db, r, now), steps),
                    AllSaid(db, r, steps),
                  code);
  }

  /** Over every run: the key, whenever it is known, is the 32 bytes behind the head of the last SELF_INFO read that is
      long enough to carry one, and it is known as soon as one was read; the number of channels is that of the last
      DEVICE_INFO that gives one, and 40 before. */
  lemma KeyIsTheRadios(retention: Retention, backlog: Backlog, db: Tables, r: Reconnection, now: Clock,
                       steps: seq<Timed>)
    ensures var c := Run(Start(retention, backlog, db, r, now), steps);
            c.mem.pubkey == KeyAfter(None, AllSaid(db, r, steps))
                && c.mem.maxChannels == CountAfter(40, AllSaid(db, r, steps))
  {
    HeardLearns(retention, backlog, db, r, now, steps);
    hide Start, Run, AllSaid, Last, KeyAfter, CountAfter, LearntOf;
  }

  /** A client that asks for SELF_INFO, DEVICE_INFO or BATTERY is handed, in every state of every run, the last answer
      of that kind that was read, if one is known, and its question goes to the radio otherwise. */
  lemma ServedTheLastRead(retention: Retention, backlog: Backlog, db: Tables, r: Reconnection, now: Clock,
                          steps: seq<Timed>, cmd: ClientCommand)
    requires cmd.payload != [] && AnswerTo(cmd.payload[0]).Some?
    requires cmd.client in Run(Start(retention, backlog, db, r, now), steps).live
    ensures var c, code := Run(Start(retention, backlog, db, r, now), steps), AnswerTo(cmd.payload[0]).value;
            var served := TryServeFromCache(c, cmd);
            (served.Some? <==> Known(c, code).Some?)
            && (served.Some? ==>
                  Last(AllSaid(db, r, steps), code).Some?
                  && var answer := Last(AllSaid(db, r, steps), code).value;
                     served.value.out == c.out + [ToClient(cmd.client, answer, Wire(c, cmd.client, answer), Cached)])
  {
    AnswersAreTheLastRead(retention, backlog, db, r, now, steps, AnswerTo(cmd.payload[0]).value);
    hide Start, Run, AllSaid, Last, Known, TryServeFromCache, AnswerTo;
    ServedIsKnown(Run(Start(retention, backlog, db, r, now), steps), cmd);
  }

  /** A question for an answer that is known is answered with it, and with nothing else. */
  lemma ServedIsKnown(c: Core, cmd: ClientCommand)
    requires cmd.payload != [] && AnswerTo(cmd.payload[0]).Some? && cmd.client in c.live
    ensures var known := Known(c, AnswerTo(cmd.payload[0]).value);
            TryServeFromCache(c, cmd)
            == if known.None? then None
               else Some(c.(out := c.out
                                   + [ToClient(cmd.client, known.value, Wire(c, cmd.client, known.value), Cached)]))
  {
    hide Wire, RespondContacts, ChannelFrame, GetContacts;
  }
}
