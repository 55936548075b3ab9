/** The serial framing `header, length (u16 LE), payload` and its incremental parser. */
module FrameParser {
  import opened Bytes

  const HEADER_CLIENT: byte := 0x3c
  const HEADER_SERVER: byte := 0x3e

  predicate IsHeader(b: byte) {
    b == HEADER_CLIENT || b == HEADER_SERVER
  }

  /** `encode`: the length is `payload.len() as u16`, so it silently wraps. */
  function Encode(header: byte, payload: Frame): Frame {
    [header] + LE16(|payload|) + payload
  }

  // ---------------------------------------------------------------------
  // Reference parser: one byte at a time
  // ---------------------------------------------------------------------

  /** Where a byte-at-a-time reader stands. */
  datatype Scan =
    | Hunt                              // looking for a header byte
    | Length                            // header read, no length byte yet
    | LengthHigh(low: byte)             // first length byte read
    | Body(need: nat, got: Frame)       // collecting `need` payload bytes

  function ScanByte(s: Scan, b: byte): (Scan, seq<Frame>) {
    match s
    case Hunt => (if IsHeader(b) then Length else Hunt, [])
    case Length => (LengthHigh(b), [])
    case LengthHigh(low) =>
      var need := U16([low, b], 0);
      if need == 0 then (Hunt, [[]]) else (Body(need, []), [])
    case Body(need, got) =>
      if |got| + 1 >= need then (Hunt, [got + [b]]) else (Body(need, got + [b]), [])
  }

  /** The whole-stream parser: final position and all frames, in order. */
  function ScanAll(s: Scan, data: Frame): (Scan, seq<Frame>)
    decreases |data|
  {
    if data == [] then (s, [])
    else
      var (s1, f1) := ScanByte(s, data[0]);
      var (s2, f2) := ScanAll(s1, data[1..]);
      (s2, f1 + f2)
  }

  /** A byte that completes no frame only moves the position. */
  lemma ScanSilent(s: Scan, data: Frame)
    requires data != [] && ScanByte(s, data[0]).1 == []
    ensures ScanAll(s, data) == ScanAll(ScanByte(s, data[0]).0, data[1..])
  {
    var rest := ScanAll(ScanByte(s, data[0]).0, data[1..]);
    assert [] + rest.1 == rest.1;
  }

  /** Cutting a stream anywhere changes neither the frames nor the final position. */
  lemma {:induction false} ScanConcat(s: Scan, a: Frame, b: Frame)
    ensures ScanAll(s, a + b).0 == ScanAll(ScanAll(s, a).0, b).0
    ensures ScanAll(s, a + b).1 == ScanAll(s, a).1 + ScanAll(ScanAll(s, a).0, b).1
    decreases |a|
  {
    if a == [] {
      assert a + b == b;
    } else {
      assert (a + b)[1..] == a[1..] + b;
      ScanConcat(ScanByte(s, a[0]).0, a[1..], b);
    }
  }

  /** Reading the rest of a payload yields exactly that payload. */
  lemma {:induction false} ScanBody(need: nat, got: Frame, rest: Frame)
    requires rest != [] && |got| + |rest| == need
    ensures ScanAll(Body(need, got), rest) == (Hunt, [got + rest])
    decreases |rest|
  {
    if |rest| == 1 {
      assert rest[1..] == [] && got + [rest[0]] == got + rest;
      assert [got + rest] + [] == [got + rest];
    } else {
      ScanSilent(Body(need, got), rest);
      ScanBody(need, got + [rest[0]], rest[1..]);
      assert got + [rest[0]] + rest[1..] == got + rest;
    }
  }

  /** A payload shorter than announced leaves the reader inside it. */
  lemma {:induction false} ScanBodyPartial(need: nat, got: Frame, rest: Frame)
    requires |got| + |rest| < need
    ensures ScanAll(Body(need, got), rest) == (Body(need, got + rest), [])
    decreases |rest|
  {
    if rest == [] {
      assert got + rest == got;
    } else {
      ScanSilent(Body(need, got), rest);
      ScanBodyPartial(need, got + [rest[0]], rest[1..]);
      assert got + [rest[0]] + rest[1..] == got + rest;
    }
  }

  lemma ScanHeader(header: byte, low: byte, high: byte, rest: Frame)
    requires IsHeader(header)
    ensures var need := U16([low, high], 0);
            ScanAll(Hunt, [header, low, high] + rest)
            == (if need == 0 then (ScanAll(Hunt, rest).0, [[]] + ScanAll(Hunt, rest).1)
                else ScanAll(Body(need, []), rest))
  {
    var data := [header, low, high] + rest;
    ScanSilent(Hunt, data);
    assert data[1..] == [low, high] + rest;
    ScanSilent(Length, data[1..]);
    assert data[1..][1..] == [high] + rest;
    assert data[1..][1..][1..] == rest;
    if U16([low, high], 0) != 0 {
      ScanSilent(LengthHigh(low), data[1..][1..]);
    }
  }

  // ---------------------------------------------------------------------
  // Round trip
  // ---------------------------------------------------------------------

  /** One encoded frame read from the hunting position, followed by anything. */
  lemma ScanEncoded(header: byte, payload: Frame, rest: Frame)
    requires IsHeader(header) && |payload| < 0x1_0000
    ensures ScanAll(Hunt, Encode(header, payload) + rest).0 == ScanAll(Hunt, rest).0
    ensures ScanAll(Hunt, Encode(header, payload) + rest).1 == [payload] + ScanAll(Hunt, rest).1
  {
    hide ScanAll, ScanByte;
    var len := LE16(|payload|);
    LittleEndianRoundTrip(|payload|);
    assert len == [len[0], len[1]];
    assert Encode(header, payload) + rest == [header, len[0], len[1]] + (payload + rest);
    ScanHeader(header, len[0], len[1], payload + rest);
    if payload == [] {
      assert payload + rest == rest;
    } else {
      ScanBody(|payload|, [], payload);
      ScanConcat(Body(|payload|, []), payload, rest);
      assert [] + payload == payload;
    }
  }

  /** Bytes that are no header are skipped one by one. */
  lemma {:induction false} ScanNoise(noise: Frame, rest: Frame)
    requires forall b :: b in noise ==> !IsHeader(b)
    ensures ScanAll(Hunt, noise + rest) == ScanAll(Hunt, rest)
  {
    if noise == [] {
      assert noise + rest == rest;
    } else {
      assert (noise + rest)[1..] == noise[1..] + rest;
      assert noise[0] in noise;
      ScanSilent(Hunt, noise + rest);
      ScanNoise(noise[1..], rest);
    }
  }

  /** A frame as sent, with the garbage that precedes it on the line. */
  datatype Sent = Sent(noise: Frame, header: byte, payload: Frame)

  predicate Clean(noise: Frame) {
    forall b :: b in noise ==> !IsHeader(b)
  }

  function Stream(items: seq<Sent>): Frame {
    if items == [] then []
    else items[0].noise + Encode(items[0].header, items[0].payload) + Stream(items[1..])
  }

  function Payloads(items: seq<Sent>): seq<Frame> {
    seq(|items|, i requires 0 <= i < |items| => items[i].payload)
  }

  lemma {:induction false} ScanStream(items: seq<Sent>, tail: Frame)
    requires forall i :: 0 <= i < |items| ==>
               Clean(items[i].noise) && IsHeader(items[i].header) && |items[i].payload| <= 65535
    requires Clean(tail)
    ensures ScanAll(Hunt, Stream(items) + tail) == (Hunt, Payloads(items))
  {
    if items == [] {
      ScanNoise(tail, []);
      assert tail + [] == tail && Stream(items) + tail == tail;
    } else {
      var it, rest := items[0], Stream(items[1..]) + tail;
      assert Stream(items) + tail == it.noise + (Encode(it.header, it.payload) + rest);
      ScanNoise(it.noise, Encode(it.header, it.payload) + rest);
      ScanEncoded(it.header, it.payload, rest);
      ScanStream(items[1..], tail);
      assert Payloads(items) == [it.payload] + Payloads(items[1..]);
    }
  }

  /** Feeding a stream piece by piece. */
  function ScanChunks(s: Scan, chunks: seq<Frame>): (Scan, seq<Frame>)
    decreases |chunks|
  {
    if chunks == [] then (s, [])
    else
      var (s1, f1) := ScanAll(s, chunks[0]);
      var (s2, f2) := ScanChunks(s1, chunks[1..]);
      (s2, f1 + f2)
  }

  function Concatenated(chunks: seq<Frame>): Frame {
    if |chunks| == 0 then [] else chunks[0] + Concatenated(chunks[1..])
  }

  /** However the bytes are cut into reads, the frames and the final position are the same. */
  lemma {:induction false} ChunkInvariance(s: Scan, chunks: seq<Frame>)
    ensures ScanChunks(s, chunks) == ScanAll(s, Concatenated(chunks))
    decreases |chunks|
  {
    if chunks != [] {
      ChunkInvariance(ScanAll(s, chunks[0]).0, chunks[1..]);
      ScanConcat(s, chunks[0], Concatenated(chunks[1..]));
    }
  }

  /** Any list of payloads that fit the length field survives the wire: either header, noise without
      header bytes between frames, and any cutting into reads. */
  lemma FramesSurviveTheWire(items: seq<Sent>, tail: Frame, chunks: seq<Frame>)
    requires forall i :: 0 <= i < |items| ==>
               Clean(items[i].noise) && IsHeader(items[i].header) && |items[i].payload| <= 65535
    requires Clean(tail)
    requires Concatenated(chunks) == Stream(items) + tail
    ensures ScanChunks(Hunt, chunks) == (Hunt, Payloads(items))
  {
    ChunkInvariance(Hunt, chunks);
    ScanStream(items, tail);
  }

  /** One encoded payload comes back as itself exactly when its length fits 16 bits: above that the
      length field wraps and the first frame out is shorter than what went in. */
  lemma RoundTripIffLengthFits(header: byte, payload: Frame)
    requires IsHeader(header)
    ensures ScanAll(Hunt, Encode(header, payload)).1 == [payload] <==> |payload| <= 65535
  {
    if |payload| <= 65535 {
      ScanEncoded(header, payload, []);
      assert Encode(header, payload) + [] == Encode(header, payload);
    } else {
      var len := LE16(|payload|);
      LittleEndianRoundTrip(|payload|);
      var need := |payload| % 0x1_0000;
      assert len == [len[0], len[1]];
      assert Encode(header, payload) == [header, len[0], len[1]] + payload;
      ScanHeader(header, len[0], len[1], payload);
      if need != 0 {
        ScanBody(need, [], payload[..need]);
        ScanConcat(Body(need, []), payload[..need], payload[need..]);
        assert payload[..need] + payload[need..] == payload;
      }
      assert |ScanAll(Hunt, Encode(header, payload)).1[0]| == need;
    }
  }

  // ---------------------------------------------------------------------
  // The buffered parser
  // ---------------------------------------------------------------------

  /** What the reference reader makes of the buffered bytes, given the header and length fields already
      taken off the stream. */
  function After(header: bool, len: Option<nat>, buffer: Frame): (Scan, seq<Frame>) {
    if !header then ScanAll(Hunt, buffer)
    else if len.None? then ScanAll(Length, buffer)
    else if len.value == 0 then (ScanAll(Hunt, buffer).0, [[]] + ScanAll(Hunt, buffer).1)
    else ScanAll(Body(len.value, []), buffer)
  }

  /** The reader's position when the buffer holds less than the next field needs. */
  function Rest(header: bool, len: Option<nat>, buffer: Frame): Scan {
    if !header then Hunt
    else if len.Some? then Body(len.value, buffer)
    else if buffer == [] then Length
    else LengthHigh(buffer[0])
  }

  predicate Incomplete(header: bool, len: Option<nat>, buffer: Frame) {
    && (!header ==> len.None? && buffer == [])
    && (header && len.None? ==> |buffer| < 2)
    && (len.Some? ==> |buffer| < len.value)
  }

  /** An incomplete buffer followed by new data is read like the new data from its position. */
  lemma ResumeIncomplete(header: bool, len: Option<nat>, kept: Frame, data: Frame)
    requires Incomplete(header, len, kept)
    ensures After(header, len, kept + data) == ScanAll(Rest(header, len, kept), data)
  {
    if !header {
      assert kept + data == data;
    } else if len.Some? {
      ScanBodyPartial(len.value, [], kept);
      ScanConcat(Body(len.value, []), kept, data);
      assert [] + kept == kept;
      var after := ScanAll(Body(len.value, kept), data);
      assert [] + after.1 == after.1;
    } else if kept == [] {
      assert kept + data == data;
    } else {
      ScanSilent(Length, kept + data);
      assert (kept + data)[1..] == data;
    }
  }

  /** With too few bytes buffered nothing more comes out. */
  lemma NothingMore(header: bool, len: Option<nat>, buffer: Frame)
    requires Incomplete(header, len, buffer)
    ensures After(header, len, buffer) == (Rest(header, len, buffer), [])
  {
    ResumeIncomplete(header, len, buffer, []);
    assert buffer + [] == buffer;
  }

  lemma HeaderSkipped(buffer: Frame)
    requires buffer != [] && !IsHeader(buffer[0])
    ensures After(false, None, buffer) == After(false, None, buffer[1..])
  {
    ScanSilent(Hunt, buffer);
  }

  lemma HeaderRead(buffer: Frame)
    requires buffer != [] && IsHeader(buffer[0])
    ensures After(false, None, buffer) == After(true, None, buffer[1..])
  {
    ScanSilent(Hunt, buffer);
  }

  lemma LengthRead(buffer: Frame)
    requires |buffer| >= 2
    ensures After(true, None, buffer) == After(true, Some(U16(buffer, 0)), buffer[2..])
  {
    ScanSilent(Length, buffer);
    assert buffer[1..][1..] == buffer[2..];
    if U16(buffer, 0) != 0 {
      ScanSilent(LengthHigh(buffer[0]), buffer[1..]);
    }
  }

  lemma PayloadRead(need: nat, buffer: Frame)
    requires need <= |buffer|
    ensures After(true, Some(need), buffer).0 == After(false, None, buffer[need..]).0
    ensures After(true, Some(need), buffer).1 == [buffer[..need]] + After(false, None, buffer[need..]).1
  {
    if need == 0 {
      assert buffer[need..] == buffer;
    } else {
      ScanBody(need, [], buffer[..need]);
      ScanConcat(Body(need, []), buffer[..need], buffer[need..]);
      assert buffer[..need] + buffer[need..] == buffer && [] + buffer[..need] == buffer[..need];
    }
  }

  /** The parser the backends and the frontend run: it keeps undecoded bytes in `buffer`. */
  class Parser {
    var headerByte: Option<byte>
    var expectedLen: Option<nat>
    var buffer: Frame

    /** Between calls the parser holds at most an incomplete frame. */
    ghost predicate Valid()
      reads this
    {
      Incomplete(headerByte.Some?, expectedLen, buffer)
    }

    /** The position of the byte-at-a-time reader that has consumed the same bytes. */
    ghost function Position(): Scan
      reads this
    {
      Rest(headerByte.Some?, expectedLen, buffer)
    }

    constructor ()
      ensures Valid() && Position() == Hunt
    {
      headerByte, expectedLen, buffer := None, None, [];
    }

    method Feed(data: Frame) returns (frames: seq<Frame>)
      requires Valid()
      modifies this
      ensures Valid()
      ensures (Position(), frames) == ScanAll(old(Position()), data)
    {
      hide ScanAll, After;
      ghost var whole := ScanAll(Position(), data);
      ResumeIncomplete(headerByte.Some?, expectedLen, buffer, data);
      buffer := buffer + data;
      frames := [];
      ghost var ahead := whole;
      while true
        invariant headerByte.None? ==> expectedLen.None?
        invariant expectedLen.Some? ==> 0 < expectedLen.value
        invariant ahead == After(headerByte.Some?, expectedLen, buffer)
        invariant whole.0 == ahead.0 && whole.1 == frames + ahead.1
        decreases |buffer|
      {
        if headerByte.None? {
          if buffer == [] {
            break;
          }
          var h := buffer[0];
          if h != HEADER_CLIENT && h != HEADER_SERVER {
            HeaderSkipped(buffer);
            buffer := buffer[1..];
            continue;
          }
          HeaderRead(buffer);
          headerByte := Some(h);
          buffer := buffer[1..];
        }
        if expectedLen.None? {
          if |buffer| < 2 {
            break;
          }
          LengthRead(buffer);
          expectedLen := Some(U16(buffer, 0));
          buffer := buffer[2..];
        }
        var needed := expectedLen.value;
        if |buffer| < needed {
          break;
        }
        PayloadRead(needed, buffer);
        var payload := buffer[..needed];
        ahead := After(false, None, buffer[needed..]);
        ShiftOne(frames, payload, ahead.1);
        frames := frames + [payload];
        buffer := buffer[needed..];
        headerByte := None;
        expectedLen := None;
      }
      NothingMore(headerByte.Some?, expectedLen, buffer);
      assert frames + [] == frames;
    }
  }
}
