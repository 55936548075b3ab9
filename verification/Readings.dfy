/** What a received message says, whichever layout carries it. */
module Readings {
  import opened Bytes
  import opened Protocol

  /** A direct message carries the first bytes of its sender's key, a channel message the index of its channel. */
  datatype Reading =
    | Direct(sender: Frame, path: byte, kind: byte, clock: nat, text: Frame)
    | OnChannel(idx: byte, path: byte, kind: byte, clock: nat, text: Frame)

  const CONTACT_MSG_RECV: byte := 0x07
  const CHANNEL_MSG_RECV: byte := 0x08
  const CONTACT_MSG_RECV_V3: byte := 0x10
  const CHANNEL_MSG_RECV_V3: byte := 0x11

  /** Sender's key prefix (6), path length, text type, clock (u32), text. */
  function ReadDirect(b: Frame): Option<Reading> {
    if |b| < 12 then None else Some(Direct(b[..6], b[6], b[7], U32(b, 8), b[12..]))
  }

  /** Channel, path length, text type, clock (u32), text. */
  function ReadChannel(b: Frame): Option<Reading> {
    if |b| < 7 then None else Some(OnChannel(b[0], b[1], b[2], U32(b, 3), b[7..]))
  }

  /** The v3 layouts put the SNR and two reserved bytes after the code. */
  function Read(frame: Frame): Option<Reading> {
    if frame == [] then None
    else if frame[0] == CONTACT_MSG_RECV then ReadDirect(frame[1..])
    else if frame[0] == CHANNEL_MSG_RECV then ReadChannel(frame[1..])
    else if |frame| < 4 then None
    else if frame[0] == CONTACT_MSG_RECV_V3 then ReadDirect(frame[4..])
    else if frame[0] == CHANNEL_MSG_RECV_V3 then ReadChannel(frame[4..])
    else None
  }

  /** In whichever layout a client is handed a frame, it reads what the frame says, in the layout of its version;
      what is no message it is handed as it is. */
  lemma ConversionKeepsReading(version: byte, frame: Frame)
    ensures var handed := MessageFrameFor(version, frame);
            Read(handed) == Read(frame)
            && (Read(frame).None? && (frame == [] || !IsMessageCode(frame[0])) ==> handed == frame)
            && (Read(frame).Some? ==>
                  handed != []
                  && handed[0] == (if version >= 3 then
                                     if Read(frame).value.Direct? then CONTACT_MSG_RECV_V3 else CHANNEL_MSG_RECV_V3
                                   else if Read(frame).value.Direct? then CONTACT_MSG_RECV else CHANNEL_MSG_RECV))
  {
    var handed := MessageFrameFor(version, frame);
    if frame != [] && frame[0] in {0x10, 0x11} && version < 3 && |frame| >= 4 {
      assert handed[1..] == frame[4..];
    } else if frame != [] && frame[0] in {0x07, 0x08} && version >= 3 {
      assert handed[4..] == frame[1..];
    }
  }

  /** The codes that carry messages are those of frames that can be read. */
  lemma MessageCodesAreRead(code: byte)
    ensures IsMessageCode(code) <==> exists frame: Frame :: frame != [] && frame[0] == code && Read(frame).Some?
  {
    if IsMessageCode(code) {
      var frame: Frame := [code] + seq(20, _ => 0);
      assert Read(frame).Some?;
    }
  }

  /** What is stored is what can be read, except that an old-layout channel message needs a text; and it is stored
      with the clock it reads. */
  lemma StoredIfRead(p: Command)
    ensures Storable(p) <==> Read(p).Some? && (p[0] == CHANNEL_MSG_RECV ==> Read(p).value.text != [])
    ensures Storable(p) ==> MessageTimestamp(p) == Read(p).value.clock
  {
    if p[0] == 0x07 {
      assert |p[1..]| == |p| - 1 && (|p| >= 13 ==> U32(p[1..], 8) == U32(p, 9));
    } else if p[0] == 0x08 {
      assert |p[1..]| == |p| - 1 && (|p| >= 8 ==> U32(p[1..], 3) == U32(p, 4));
    } else if |p| >= 4 {
      assert |p[4..]| == |p| - 4 && (|p| >= 16 ==> U32(p[4..], 8) == U32(p, 12));
      assert |p| >= 11 ==> U32(p[4..], 3) == U32(p, 7);
    }
  }
}
