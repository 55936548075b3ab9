/** What a reconnection leaves behind: a fresh link, the full sync on its way, the channels queued behind it. */
module Links {
  import opened Bytes
  import opened Protocol
  import opened Store
  import opened CoreState
  import opened RadioPath
  import opened Frames
  import opened Outcomes

  /** A new link starts with nothing sent, or with the full sync. */
  ghost predicate NewLink(c: Core) {
    && |c.path.link.sent| <= 1 && (c.path.inFlight.Some? <==> c.path.link.sent != [])
    && (c.path.inFlight.Some? ==> CurrentFrames(c) == [])
  }

  lemma {:induction false} FailQueueEmpties(c: Core)
    ensures FailQueue(c).path.queue == [] && FailQueue(c).path.link == c.path.link
            && FailQueue(c).path.inFlight == c.path.inFlight
    decreases |c.path.queue|
  {
    if c.path.queue != [] {
      FailQueueEmpties(Fail(WithQueue(c, c.path.queue[1..]), c.path.queue[0], []));
    }
  }

  lemma {:induction false} AttemptsKeepLink(c: Core, attempts: seq<Option<SelfInfoFrame>>, now: Clock)
    ensures FailedAttempts(c, attempts, now).path == c.path
  {
    if attempts != [] {
      hide CacheResponse;
      AttemptsKeepLink(c, attempts[..|attempts| - 1], now);
      if attempts[|attempts| - 1].Some? {
        CacheUnanswered(FailedAttempts(c, attempts[..|attempts| - 1], now), attempts[|attempts| - 1].value, now);
      }
    }
  }

  /** Synchronising over a fresh link: the full sync goes out if the link is up, and the channels queue behind. */
  lemma SyncStarts(c: Core, now: Clock)
    requires c.path.queue == [] && c.path.inFlight.None? && c.path.link.attached
    requires c.path.link.sent == [] && c.path.link.routed == []
    ensures var d, sync := SyncFromRadio(c, now), SyncCommands(c.mem.maxChannels);
            sync != [] && sync[0] == Request(None, FULL_SYNC)
            && d.path.link.attached && d.path.link.open == c.path.link.open && d.path.queue == sync[1..]
            && NewLink(d) && (d.path.inFlight.Some? <==> CanSend(c))
            && (d.path.inFlight.Some? ==> d.path.inFlight.value.payload == FULL_SYNC
                                          && d.path.inFlight.value.awaiting == AwaitingFor(FULL_SYNC)
                                          && d.path.inFlight.value.client.None? && d.path.inFlight.value.origin.None?)
            && d.mem == c.mem && d.db == c.db
  {
    SyncHead(c.mem.maxChannels);
    hide AwaitingFor, Wire, SyncCommands;
    var sync := SyncCommands(c.mem.maxChannels);
    assert c.path.queue + sync == sync;
  }

  lemma {:induction false} SyncHead(channels: nat)
    requires channels <= 256
    ensures var sync := SyncCommands(channels);
            sync != [] && sync[0] == Request(None, FULL_SYNC)
            && forall i: nat :: i < channels ==> Request(None, [0x1F, i]) in sync[1..]
  {
    if channels > 0 {
      SyncHead(channels - 1);
      var before, sync := SyncCommands(channels - 1), SyncCommands(channels);
      assert sync[1..] == before[1..] + [Request(None, [0x1F, channels - 1])];
    }
  }

  /** What a reconnection leaves behind. */
  lemma ReconnectStarts(c: Core, r: Reconnection, now: Clock)
    ensures var d := ReconnectRadio(c, r, now);
            var c2 := FailedAttempts(LoseRadio(c).(live := c.live - r.left), r.attempts, now);
            var c3 := InitializeRadio(WithLink(c2, Link(true, r.open, [], [])), r, now);
            d == SyncFromRadio(c3, now)
            && c3.path.queue == [] && c3.path.inFlight.None? && c3.path.link == Link(true, r.open, [], [])
  {
    FailQueueEmpties(WithLink(FailInFlight(c), NO_LINK));
    LoseRadioQuiet(c);
    hide FailQueue, FailedAttempts, SyncFromRadio, CacheResponse;
    var c1 := LoseRadio(c);
    AttemptsKeepLink(c1.(live := c.live - r.left), r.attempts, now);
    var c2 := FailedAttempts(c1.(live := c.live - r.left), r.attempts, now);
    var c3 := WithLink(c2, Link(true, r.open, [], []));
    CacheUnanswered(c3, r.selfInfo, now);
    if r.deviceInfo.Some? {
      CacheUnanswered(CacheResponse(c3, r.selfInfo, now), r.deviceInfo.value, now);
    }
  }

  lemma ReconnectNewLink(c: Core, r: Reconnection, now: Clock)
    ensures NewLink(ReconnectRadio(c, r, now))
  {
    ReconnectStarts(c, r, now);
    hide ReconnectRadio, LoseRadio, FailedAttempts, InitializeRadio, SyncFromRadio, NewLink;
    var c2 := FailedAttempts(LoseRadio(c).(live := c.live - r.left), r.attempts, now);
    SyncStarts(InitializeRadio(WithLink(c2, Link(true, r.open, [], [])), r, now), now);
  }

  lemma RemembersSelf(c: Core, p: Command, now: Clock)
    ensures CacheResponse(c, p, now).mem.selfInfo == if p[0] == 0x05 then Some(p) else c.mem.selfInfo
  {
    if Storable(p) {
      StoreMessageOnly(c, MessageTimestamp(p), p, None, now);
    }
    hide StoreMessage, MessageTimestamp, TrimNuls, ContactFromFrame, ChannelFromFrame;
  }

  /** After a reconnection SELF_INFO is that of the handshake. */
  lemma HandshakeRemembers(c: Core, r: Reconnection, now: Clock)
    ensures ReconnectRadio(c, r, now).mem.selfInfo == Some(r.selfInfo)
  {
    ReconnectStarts(c, r, now);
    hide ReconnectRadio, LoseRadio, FailedAttempts, SyncFromRadio, CacheResponse;
    var c2 := WithLink(FailedAttempts(LoseRadio(c).(live := c.live - r.left), r.attempts, now),
                       Link(true, r.open, [], []));
    RemembersSelf(c2, r.selfInfo, now);
    if r.deviceInfo.Some? {
      RemembersSelf(CacheResponse(c2, r.selfInfo, now), r.deviceInfo.value, now);
    }
    SyncStarts(InitializeRadio(c2, r, now), now);
  }
}
