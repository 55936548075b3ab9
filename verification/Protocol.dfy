/** The companion protocol as the multiplexer reads it: reply shapes, push codes, message layouts. */
module Protocol {
  import opened Bytes

  const CONTACT_FRAME_LEN := 148
  const MAX_TEXT_LEN := 160
  const RADIO_PROTOCOL_VERSION: byte := 3

  const ERROR_FRAME: Command := [0x01, 0x01]

  /** The ERROR reply (0x01), which every command may get. */
  predicate IsError(f: Command) {
    f[0] == 0x01
  }

  /** Spontaneous events carry the high bit. */
  predicate IsPush(code: byte) {
    code >= 0x80
  }

  // ---------------------------------------------------------------------
  // Reply shapes
  // ---------------------------------------------------------------------

  /** What a request waits for before the slot is freed. */
  datatype Awaiting =
    | Any
    | OneOf(codes: set<byte>)
    | Stream(frameCodes: set<byte>, terminator: byte)
  {
    /** Whether a frame with this code is part of the reply. */
    predicate Belongs(code: byte) {
      match this
      case Any => !IsPush(code)
      case OneOf(codes) => code == 0x01 || code in codes
      case Stream(frameCodes, terminator) => code == terminator || code == 0x01 || code in frameCodes
    }

    /** Whether a frame that belongs ends the request. */
    predicate Completes(code: byte) {
      match this
      case Any => true
      case OneOf(_) => true
      case Stream(_, terminator) => code == terminator || code == 0x01
    }
  }

  function AwaitingFor(payload: Command): Awaiting {
    var c := payload[0];
    if c == 0x04 then Stream({0x02, 0x03}, 0x04)
    else if c == 0x01 then OneOf({0x05})
    else if c in {0x02, 0x1A, 0x1B, 0x24, 0x32, 0x34, 0x39} then OneOf({0x06})
    else if c == 0x27 && |payload| == 4 then OneOf({0x8B})
    else if c == 0x27 then OneOf({0x06})
    else if c == 0x05 then OneOf({0x09})
    else if c == 0x0A then OneOf({0x07, 0x08, 0x10, 0x11, 0x1B, 0x0A})
    else if c == 0x11 then OneOf({0x0B})
    else if c == 0x14 then OneOf({0x0C})
    else if c == 0x16 then OneOf({0x0D})
    else if c == 0x17 then OneOf({0x0E, 0x0F})
    else if c == 0x18 then OneOf({0x00, 0x0F})
    else if c == 0x1E then OneOf({0x03})
    else if c == 0x1F then OneOf({0x12})
    else if c == 0x21 then OneOf({0x13})
    else if c == 0x23 then OneOf({0x14})
    else if c == 0x28 then OneOf({0x15})
    else if c == 0x2A then OneOf({0x16})
    else if c == 0x2B then OneOf({0x17})
    else if c == 0x38 then OneOf({0x18})
    else if c == 0x3B then OneOf({0x19})
    else if c == 0x3C then OneOf({0x1A})
    else if c == 0x40 then OneOf({0x1C})
    else if c == 0x42 then OneOf({0x1D})
    else if c in {0x03, 0x06, 0x07, 0x08, 0x09, 0x0B, 0x0C, 0x0D, 0x0E, 0x0F, 0x10, 0x12,
                  0x15, 0x19, 0x1C, 0x1D, 0x20, 0x22, 0x25, 0x26, 0x29, 0x33, 0x36, 0x37,
                  0x3A, 0x3D, 0x3E, 0x3F, 0x41} then OneOf({0x00})
    else Any
  }

  /** The one push code a request may wait for is the self-telemetry answer, and only for that request:
      every other push, in particular the delivery ACK (0x82), passes any request by. */
  lemma OnlySelfTelemetryAbsorbsAPush(payload: Command, code: byte)
    requires IsPush(code)
    ensures AwaitingFor(payload).Belongs(code) <==> code == 0x8B && payload[0] == 0x27 && |payload| == 4
  {
  }

  /** Frames routed so far to a request that is still open. */
  predicate OpenReply(a: Awaiting, frames: seq<Command>) {
    forall i :: 0 <= i < |frames| ==> a.Belongs(frames[i][0]) && !a.Completes(frames[i][0])
  }

  /** A whole reply: every frame belongs, and the last one, and only it, ends the request. */
  predicate WholeReply(a: Awaiting, frames: seq<Command>) {
    && frames != []
    && OpenReply(a, frames[..|frames| - 1])
    && a.Belongs(frames[|frames| - 1][0]) && a.Completes(frames[|frames| - 1][0])
  }

  /** A reply is never a proper prefix of another: where it ends is settled by the frames alone. */
  lemma RepliesArePrefixFree(a: Awaiting, r: seq<Command>, s: seq<Command>)
    requires WholeReply(a, r) && WholeReply(a, s) && r <= s
    ensures r == s
  {
    assert s[|r| - 1] == r[|r| - 1];
    assert |s| <= |r|;
    assert s[..|r|] == s;
  }

  // ---------------------------------------------------------------------
  // Message layouts
  // ---------------------------------------------------------------------

  /** A received message, in the old (0x07/0x08) or the v3 (0x10/0x11) layout. */
  predicate IsMessageCode(code: byte) {
    code in {0x07, 0x08, 0x10, 0x11}
  }

  /** The layout a client of the given protocol version expects. */
  function MessageFrameFor(version: byte, frame: Frame): Frame {
    if frame != [] && frame[0] in {0x10, 0x11} && version < 3 && |frame| >= 4 then
      [frame[0] - 0x09] + frame[4..]
    else if frame != [] && frame[0] in {0x07, 0x08} && version >= 3 then
      [frame[0] + 0x09, 0, 0, 0] + frame[1..]
    else frame
  }

  /** Only messages are ever rewritten, and only one way per version: a client of version 3 or more never
      sees the old codes, an older client sees the new ones only in frames too short to convert. */
  lemma LayoutFollowsVersion(version: byte, frame: Frame)
    ensures frame == [] || !IsMessageCode(frame[0]) ==> MessageFrameFor(version, frame) == frame
    ensures frame != [] ==> MessageFrameFor(version, frame) != []
    ensures frame != [] && IsMessageCode(frame[0]) ==>
              IsMessageCode(MessageFrameFor(version, frame)[0])
              && (version >= 3 ==> MessageFrameFor(version, frame)[0] in {0x10, 0x11})
              && (version < 3 && |frame| >= 4 ==> MessageFrameFor(version, frame)[0] in {0x07, 0x08})
  {
  }

  /** Converting twice for the same version is converting once. */
  lemma ConversionIsIdempotent(version: byte, frame: Frame)
    ensures MessageFrameFor(version, MessageFrameFor(version, frame)) == MessageFrameFor(version, frame)
  {
  }

  /** An old-layout message survives the trip through a v3 client's layout unchanged. */
  lemma OldLayoutRoundTrip(old': byte, new': byte, frame: Command)
    requires old' < 3 <= new' && frame[0] in {0x07, 0x08}
    ensures MessageFrameFor(old', MessageFrameFor(new', frame)) == frame
  {
    var up := MessageFrameFor(new', frame);
    assert up[4..] == frame[1..];
  }

  /** The trip of a v3 message through the old layout loses the SNR and the reserved bytes, nothing else. */
  lemma NewLayoutRoundTrip(old': byte, new': byte, frame: Command)
    requires old' < 3 <= new' && frame[0] in {0x10, 0x11} && |frame| >= 4
    ensures MessageFrameFor(new', MessageFrameFor(old', frame)) == [frame[0], 0, 0, 0] + frame[4..]
  {
    var down := MessageFrameFor(old', frame);
    assert down[1..] == frame[4..];
  }

  /** Hence a v3 message comes back identical exactly when those three bytes were zero. */
  lemma NewLayoutRoundTripExact(old': byte, new': byte, frame: Command)
    requires old' < 3 <= new' && frame[0] in {0x10, 0x11} && |frame| >= 4
    ensures MessageFrameFor(new', MessageFrameFor(old', frame)) == frame <==> frame[1..4] == [0, 0, 0]
  {
    NewLayoutRoundTrip(old', new', frame);
    var back := [frame[0], 0, 0, 0] + frame[4..];
    assert back[1..4] == [0, 0, 0];
    if frame[1..4] == [0, 0, 0] {
      assert frame == [frame[0]] + frame[1..4] + frame[4..];
      assert back == [frame[0]] + [0, 0, 0] + frame[4..];
    }
  }

  /** A channel message as the rest of the mesh hears it: `<node name>: <text>`, cut at MAX_TEXT_LEN. */
  function ChannelTextOnAir(nodeName: Option<Frame>, text: Frame): Frame {
    var prefix := if nodeName.Some? then nodeName.value + [0x3A, 0x20] else [];
    var room := if |prefix| <= MAX_TEXT_LEN then MAX_TEXT_LEN - |prefix| else 0;
    prefix + text[..Min(|text|, room)]
  }

  // ---------------------------------------------------------------------
  // What cache_response stores
  // ---------------------------------------------------------------------

  /** The frames that become stored messages, with the minimum lengths the decoders ask for. */
  predicate Storable(p: Command) {
    || (p[0] == 0x07 && |p| >= 13)
    || (p[0] == 0x08 && |p| >= 9)
    || (p[0] == 0x10 && |p| >= 16)
    || (p[0] == 0x11 && |p| >= 11)
  }

  /** Sender's clock carried in a stored message. */
  function MessageTimestamp(p: Command): int
    requires Storable(p)
  {
    if p[0] == 0x07 then U32(p, 9)
    else if p[0] == 0x08 then U32(p, 4)
    else if p[0] == 0x10 then U32(p, 12)
    else U32(p, 7)
  }

  /** A CONTACT frame long enough to be cached. */
  predicate IsContactFrame(p: Command) {
    p[0] == 0x03 && |p| >= CONTACT_FRAME_LEN
  }

  function ContactKey(p: Command): Frame
    requires IsContactFrame(p)
  {
    p[1..33]
  }

  /** A CHANNEL_INFO frame long enough to be cached. */
  predicate IsChannelFrame(p: Command) {
    p[0] == 0x12 && |p| >= 50
  }

  // ---------------------------------------------------------------------
  // Commands with side effects
  // ---------------------------------------------------------------------

  /** Setters after which SELF_INFO, DEVICE_INFO and BATTERY must be asked again. */
  predicate InvalidatesIdentity(payload: Command) {
    payload[0] in {0x08, 0x0B, 0x0C, 0x0E, 0x15, 0x25, 0x26, 0x33}
  }

  /** A send the echo code can parse: SEND_TXT_MSG or SEND_CHAN_MSG of sufficient length. */
  predicate IsWellFormedSend(payload: Command) {
    (payload[0] == 0x02 && |payload| >= 14) || (payload[0] == 0x03 && |payload| >= 8)
  }

  /** GET_CONTACT_BY_KEY for a 32-byte key. */
  function RefreshCommand(key: Frame): (p: Command)
    ensures |p| == 1 + |key| && p[0] == 0x1E && p[1..] == key
  {
    [0x1E] + key
  }

  const FULL_SYNC: Command := [0x04]
}
