/** FLV tag bodies: how the muxer builds them and how ingest decodes them back. */
module Flv {
  import opened Bytes
  import opened Media
  import H264

  const TAG_AUDIO: byte := 8
  const TAG_VIDEO: byte := 9
  const TAG_SCRIPT: byte := 18

  function Clamp(lo: int, v: int, hi: int): int {
    if v < lo then lo else if v > hi then hi else v
  }

  /** FLV timestamps are unsigned 32-bit. */
  function ClampTs(ts: int): (r: nat)
    ensures r < TWO_32
  {
    Clamp(0, ts, TWO_32 - 1)
  }

  /** A composition offset as the format can carry it: signed 24-bit. */
  function ClampOffset(cts: int): (r: int)
    ensures -0x80_0000 <= r <= 0x7F_FFFF
  {
    Clamp(-0x80_0000, cts, 0x7F_FFFF)
  }

  function CompositionTime(cts: int): bytes {
    Be24(ClampOffset(cts) % TWO_24)
  }

  function SignExtend(raw: nat): int {
    if raw < 0x80_0000 then raw else raw - TWO_24
  }

  lemma OffsetRoundTrip(cts: int)
    ensures SignExtend(Rd24(CompositionTime(cts))) == ClampOffset(cts)
    ensures SignExtend(Rd24(CompositionTime(cts))) == cts <==> -0x80_0000 <= cts <= 0x7F_FFFF
  {
    Rd24Be24(ClampOffset(cts) % TWO_24);
  }

  function Distance(a: int, b: int): nat {
    if a < b then b - a else a - b
  }

  /** Out of range, times and offsets become the nearest that the format can carry. */
  lemma ClampsNearest(v: int, other: int)
    ensures 0 <= other < TWO_32 ==> Distance(v, ClampTs(v)) <= Distance(v, other)
    ensures -0x80_0000 <= other < 0x80_0000 ==>
      Distance(v, SignExtend(Rd24(CompositionTime(v)))) <= Distance(v, other)
  {
    OffsetRoundTrip(v);
  }

  // Bodies, as the muxer writes them

  function VideoConfigBody(avcc: bytes): bytes {
    [0x17, 0] + [0, 0, 0] + avcc
  }

  function AudioConfigBody(asc: bytes): bytes {
    [0xAF, 0] + asc
  }

  function VideoBody(isKey: bool, cts: int, nals: seq<bytes>): bytes {
    [if isKey then 0x17 else 0x27, 1] + CompositionTime(cts) + H264.Prefixed(nals)
  }

  function AudioBody(raw: bytes): bytes {
    [0xAF, 1] + raw
  }

  // Bodies, as ingest reads them

  datatype Decoded = VideoConfig(avcc: bytes) | AudioConfig(asc: bytes) | Packet(packet: MediaPacket)

  function DecodeTag(mtype: byte, ts: nat, body: bytes): Option<Decoded> {
    if mtype == TAG_VIDEO then DecodeVideo(ts, body)
    else if mtype == TAG_AUDIO then DecodeAudio(ts, body)
    else None
  }

  function DecodeVideo(ts: nat, body: bytes): Option<Decoded> {
    if |body| < 5 || body[0] % 16 != 7 then None
    else if body[1] == 0 then
      if body[5..] == [] then None else Some(VideoConfig(body[5..]))
    else if body[1] == 1 then
      var cts := SignExtend(Rd24(body[2..5]));
      match H264.Unprefixed(body[5..], 0)
      case None => None
      case Some(nals) =>
        if nals == [] then None
        else Some(Packet(MediaPacket(Video, ts + cts, ts, body[0] / 16 == 1, H264.AnnexB(nals))))
    else None
  }

  function DecodeAudio(ts: nat, body: bytes): Option<Decoded> {
    if |body| < 2 || body[0] / 16 != 10 then None
    else if body[1] == 0 then
      if body[2..] == [] then None else Some(AudioConfig(body[2..]))
    else if body[1] == 1 then Some(Packet(MediaPacket(Audio, ts, ts, false, body[2..])))
    else None
  }

  /** A video body gives back its key flag, its offset and its NAL units; without any it is skipped. */
  lemma DecodeVideoBody(ts: nat, isKey: bool, cts: int, nals: seq<bytes>)
    requires H264.Sized(nals)
    ensures DecodeTag(TAG_VIDEO, ts, VideoBody(isKey, cts, nals)) ==
            if nals == [] then None
            else Some(Packet(MediaPacket(Video, ts + ClampOffset(cts), ts, isKey, H264.AnnexB(nals))))
  {
    hide CompositionTime, H264.Prefixed, H264.Unprefixed, H264.AnnexB, SignExtend, Rd24, ClampOffset;
    var body := VideoBody(isKey, cts, nals);
    OffsetLength(cts);
    assert body[2..5] == CompositionTime(cts);
    assert body[5..] == H264.Prefixed(nals);
    OffsetRoundTrip(cts);
    H264.PrefixRoundTrip(body[5..], nals);
  }

  lemma DecodeOtherBodies(ts: nat, avcc: bytes, asc: bytes, raw: bytes)
    ensures DecodeTag(TAG_VIDEO, ts, VideoConfigBody(avcc)) == if avcc == [] then None else Some(VideoConfig(avcc))
    ensures DecodeTag(TAG_AUDIO, ts, AudioConfigBody(asc)) == if asc == [] then None else Some(AudioConfig(asc))
    ensures DecodeTag(TAG_AUDIO, ts, AudioBody(raw)) == Some(Packet(MediaPacket(Audio, ts, ts, false, raw)))
  {
    assert VideoConfigBody(avcc)[5..] == avcc;
    assert AudioConfigBody(asc)[2..] == asc;
    assert AudioBody(raw)[2..] == raw;
  }

  // What ingest decodes, and nothing else

  /** A frame as any publisher may send it: four bits of frame type, a signed 24-bit offset, and NAL units. */
  predicate FrameBody(body: bytes, frame: nat, cts: int, nals: seq<bytes>) {
    && frame < 16 && -0x80_0000 <= cts < 0x80_0000 && nals != [] && H264.Sized(nals)
    && body == [frame * 16 + 7, 1] + CompositionTime(cts) + H264.Prefixed(nals)
  }

  /** A video configuration: three bytes of no meaning stand before it. */
  predicate ConfigBody(body: bytes, frame: nat, unused: bytes, avcc: bytes) {
    frame < 16 && |unused| == 3 && avcc != [] && body == [frame * 16 + 7, 0] + unused + avcc
  }

  /** AAC at any rate, size and channel count that four bits name. */
  predicate SoundBody(body: bytes, flags: nat, kind: nat, payload: bytes) {
    flags < 16 && kind < 2 && body == [0xA0 + flags, kind] + payload
  }

  lemma OffsetBack(raw: bytes)
    requires |raw| == 3
    ensures var cts := SignExtend(Rd24(raw)); -0x80_0000 <= cts < 0x80_0000 && CompositionTime(cts) == raw
  {
    hide Rd24, Be24;
    Be24Rd24(raw);
    var n := Rd24(raw);
    assert (n - TWO_24) % TWO_24 == n;
  }

  /** A video packet comes of exactly the frames that a publisher may send. */
  lemma FramesDecoded(ts: nat, body: bytes, p: MediaPacket)
    ensures DecodeTag(TAG_VIDEO, ts, body) == Some(Packet(p)) <==>
      exists frame, cts, nals ::
        FrameBody(body, frame, cts, nals) && p == MediaPacket(Video, ts + cts, ts, frame == 1, H264.AnnexB(nals))
  {
    hide CompositionTime, H264.Prefixed, H264.Unprefixed, H264.AnnexB, SignExtend, Rd24;
    if DecodeTag(TAG_VIDEO, ts, body) == Some(Packet(p)) {
      var nals := H264.Unprefixed(body[5..], 0).value;
      H264.PrefixRoundTrip(body[5..], nals);
      OffsetBack(body[2..5]);
      var cts := SignExtend(Rd24(body[2..5]));
      assert body == [body[0], 1] + body[2..5] + body[5..];
      assert FrameBody(body, body[0] / 16, cts, nals);
    }
    if frame, cts, nals :|
      FrameBody(body, frame, cts, nals) && p == MediaPacket(Video, ts + cts, ts, frame == 1, H264.AnnexB(nals))
    {
      OffsetRoundTrip(cts);
      OffsetLength(cts);
      assert body[2..5] == CompositionTime(cts);
      assert body[5..] == H264.Prefixed(nals);
      H264.PrefixRoundTrip(body[5..], nals);
    }
  }

  lemma OffsetLength(cts: int)
    ensures |CompositionTime(cts)| == 3
  {
  }

  /** And the other bodies; any other type of tag decodes to nothing. */
  lemma OthersDecoded(mtype: byte, ts: nat, body: bytes, d: Decoded)
    requires DecodeTag(mtype, ts, body) == Some(d)
    ensures match d
      case VideoConfig(avcc) =>
        mtype == TAG_VIDEO && exists frame, unused :: ConfigBody(body, frame, unused, avcc)
      case AudioConfig(asc) => mtype == TAG_AUDIO && asc != [] && exists flags :: SoundBody(body, flags, 0, asc)
      case Packet(p) =>
        if mtype == TAG_VIDEO then p.kind == Video
        else
          && mtype == TAG_AUDIO && p == MediaPacket(Audio, ts, ts, false, p.data)
          && exists flags :: SoundBody(body, flags, 1, p.data)
  {
    hide CompositionTime, H264.Prefixed, H264.Unprefixed, H264.AnnexB, SignExtend, Rd24;
    match d
    case VideoConfig(avcc) =>
      assert body == [body[0], 0] + body[2..5] + body[5..];
      assert ConfigBody(body, body[0] / 16, body[2..5], avcc);
    case AudioConfig(asc) =>
      assert body == [body[0], 0] + body[2..];
      assert SoundBody(body, body[0] % 16, 0, asc);
    case Packet(p) =>
      if mtype == TAG_AUDIO {
        assert body == [body[0], 1] + body[2..];
        assert SoundBody(body, body[0] % 16, 1, p.data);
      }
  }

  lemma OthersDecode(ts: nat, body: bytes, frame: nat, unused: bytes, payload: bytes)
    ensures ConfigBody(body, frame, unused, payload) ==> DecodeTag(TAG_VIDEO, ts, body) == Some(VideoConfig(payload))
    ensures SoundBody(body, frame, 0, payload) && payload != [] ==>
      DecodeTag(TAG_AUDIO, ts, body) == Some(AudioConfig(payload))
    ensures SoundBody(body, frame, 1, payload) ==>
      DecodeTag(TAG_AUDIO, ts, body) == Some(Packet(MediaPacket(Audio, ts, ts, false, payload)))
  {
    if ConfigBody(body, frame, unused, payload) {
      assert body[5..] == payload;
    }
    if |body| >= 2 {
      assert SoundBody(body, frame, body[1], payload) ==> body[2..] == payload;
    }
  }
}
