/**
  The HLS segmenter: packets become fMP4 segments and a sliding playlist. `Hls` is its state as a
  value with one function per call; `HlsOutput` is the object. Storage never fails here, segment
  files are keyed by the number in their name, and durations are whole milliseconds.
 */
module Segmenter {
  import opened Bytes
  import opened Media
  import Mp4
  import H264

  const REORDER_TOLERANCE_MS := 100
  const DEFAULT_VIDEO_FRAME_MS := 33
  const AAC_FRAME_SAMPLES := 1024
  const VIDEO_TIMESCALE := 90_000
  const VIDEO_TRACK_ID := 1
  const AUDIO_TRACK_ID := 2
  const SAMPLE_RATES: seq<nat> :=
    [96000, 88200, 64000, 48000, 44100, 32000, 24000, 22050, 16000, 12000, 11025, 8000, 7350]

  function Min(a: int, b: int): int {
    if a < b then a else b
  }

  // ---------------------------------------------------------------------------------
  // Track parameters and the stream clock
  // ---------------------------------------------------------------------------------

  datatype AudioParams = AudioParams(asc: bytes, sampleRate: nat, channels: nat)

  function ParseAudioParams(asc: bytes): (r: Option<AudioParams>)
    ensures r.Some? ==> r.value.sampleRate > 0
  {
    if |asc| < 2 then None
    else
      var index := asc[0] % 8 * 2 + asc[1] / 128;
      if index >= |SAMPLE_RATES| then None
      else Some(AudioParams(asc, SAMPLE_RATES[index], Max(asc[1] / 8 % 16, 1)))
  }

  /** First decode time becomes 0, small slips clamp, larger ones move the origin. */
  datatype Clock = Clock(origin: Option<int>, last: Option<int>)

  function Normalize(c: Clock, dts: int): (Clock, int) {
    var origin := if c.origin.Some? then c.origin.value else dts;
    var ts := dts - origin;
    if c.last.Some? && ts < c.last.value then
      if c.last.value - ts > REORDER_TOLERANCE_MS then
        var high := Max(c.last.value, 0);
        (Clock(Some(dts - high), Some(high)), high)
      else (Clock(Some(origin), c.last), c.last.value)
    else (Clock(Some(origin), Some(ts)), ts)
  }

  // ---------------------------------------------------------------------------------
  // State
  // ---------------------------------------------------------------------------------

  /** A sample waiting for its segment; times are normalized milliseconds. */
  datatype Pending = Pending(payload: bytes, dts: int, cts: int, isSync: bool)

  datatype Entry = Entry(number: nat, durationMs: nat)

  datatype Playlist = Playlist(target: nat, mediaSequence: nat, entries: seq<Entry>, ended: bool)

  datatype InitTracks = InitTracks(avcc: Option<bytes>, audio: Option<AudioParams>)

  datatype Storage = Storage(init: Option<InitTracks>, segments: map<nat, bytes>, playlist: Option<Playlist>)

  /** What one written segment holds, and the pending samples it was made of. */
  datatype Written = Written(video: seq<Pending>, audio: seq<Pending>, frags: seq<Mp4.Fragment>)

  datatype Hls = Hls(
    targetSecs: nat, windowSize: nat, clock: Clock,
    avcc: Option<bytes>, audio: Option<AudioParams>,
    initWritten: bool, initHasVideo: bool, initHasAudio: bool,
    sawVideo: bool, started: bool,
    video: seq<Pending>, sound: seq<Pending>, segStart: Option<int>,
    videoNext: Option<nat>, audioNext: Option<nat>,
    sequence: nat, window: seq<Entry>, maxMs: nat, finished: bool,
    store: Storage, written: seq<Written>)

  function NewHls(targetSecs: nat, windowSize: nat): Hls {
    Hls(targetSecs, windowSize, Clock(None, None), None, None, false, false, false, false, false,
        [], [], None, None, None, 0, [], 0, false, Storage(None, map[], None), [])
  }

  function HasSamples(h: Hls): bool {
    h.video != [] || h.sound != []
  }

  /** How far the newest sample of either track lies behind `start`. */
  function Span(video: seq<Pending>, sound: seq<Pending>, start: int): int {
    var v := if video == [] then start else Max(video[|video| - 1].dts, start);
    var a := if sound == [] then v else Max(sound[|sound| - 1].dts, v);
    a - start
  }

  function SpanMs(h: Hls): int {
    if h.segStart.None? then 0 else Span(h.video, h.sound, h.segStart.value)
  }

  function TargetMs(h: Hls): nat {
    h.targetSecs * 1000
  }

  // ---------------------------------------------------------------------------------
  // Samples and fragments
  // ---------------------------------------------------------------------------------

  function VideoTicks(ms: int): nat {
    Max(ms, 0) * VIDEO_TIMESCALE / 1000
  }

  function AudioTicks(audio: Option<AudioParams>, ms: int): nat {
    if audio.None? then 0 else Max(ms, 0) * audio.value.sampleRate / 1000
  }

  /** A signed 32-bit cast. */
  function AsI32(n: int): int {
    (n + 0x8000_0000) % TWO_32 - 0x8000_0000
  }

  /** Two bits say what a sample depends on, and one that it is no sync sample. */
  function SampleFlags(dependsOn: nat, isSync: bool): nat {
    dependsOn % 4 * 0x100_0000 + if isSync then 0 else 0x1_0000
  }

  /** Milliseconds from sample `i` to the next, or the default frame time at the end. */
  function StepMs(samples: seq<Pending>, i: nat): int
    requires i < |samples|
  {
    if i + 1 < |samples| then Max(samples[i + 1].dts - samples[i].dts, 0) else DEFAULT_VIDEO_FRAME_MS
  }

  function VideoSample(samples: seq<Pending>, i: nat): Mp4.Sample
    requires i < |samples|
  {
    Mp4.Sample(Min(VideoTicks(StepMs(samples, i)), TWO_32 - 1), samples[i].payload,
               SampleFlags(if samples[i].isSync then 2 else 1, samples[i].isSync),
               AsI32(samples[i].cts * (VIDEO_TIMESCALE / 1000)))
  }

  function VideoSamples(samples: seq<Pending>): seq<Mp4.Sample> {
    seq(|samples|, i requires 0 <= i < |samples| => VideoSample(samples, i))
  }

  function AudioSamples(samples: seq<Pending>): seq<Mp4.Sample> {
    seq(|samples|, i requires 0 <= i < |samples| =>
      Mp4.Sample(AAC_FRAME_SAMPLES, samples[i].payload, SampleFlags(2, true), 0))
  }

  function TotalTicks(samples: seq<Mp4.Sample>): nat {
    if samples == [] then 0 else TotalTicks(samples[..|samples| - 1]) + samples[|samples| - 1].duration
  }

  /** The next base: the grid continues, but never before the time in milliseconds. */
  function Base(next: Option<nat>, ms: nat): nat {
    if next.Some? then Max(next.value, ms) else ms
  }

  function VideoFragment(h: Hls): Mp4.Fragment
    requires h.video != []
  {
    Mp4.Fragment(VIDEO_TRACK_ID, Base(h.videoNext, VideoTicks(h.video[0].dts)), VideoSamples(h.video))
  }

  function AudioFragment(h: Hls): Mp4.Fragment
    requires h.sound != []
  {
    Mp4.Fragment(AUDIO_TRACK_ID, Base(h.audioNext, AudioTicks(h.audio, h.sound[0].dts)), AudioSamples(h.sound))
  }

  function EndOf(f: Mp4.Fragment): nat {
    f.baseTime + TotalTicks(f.samples)
  }

  function Fragments(h: Hls): seq<Mp4.Fragment> {
    (if h.video == [] then [] else [VideoFragment(h)]) + (if h.sound == [] then [] else [AudioFragment(h)])
  }

  function AudioFrameMs(audio: Option<AudioParams>): int {
    if audio.Some? && audio.value.sampleRate > 0 then AAC_FRAME_SAMPLES * 1000 / audio.value.sampleRate else 23
  }

  /** Where the first `k` video samples end, at least `end`. */
  function VideoEndMs(samples: seq<Pending>, k: nat, end: int): int
    requires k <= |samples|
  {
    if k == 0 then end else Max(VideoEndMs(samples, k - 1, end), samples[k - 1].dts + StepMs(samples, k - 1))
  }

  function AudioEndMs(samples: seq<Pending>, k: nat, frameMs: int, end: int): int
    requires k <= |samples|
  {
    if k == 0 then end else Max(AudioEndMs(samples, k - 1, frameMs, end), samples[k - 1].dts + frameMs)
  }

  function DurationMs(h: Hls): nat {
    var start := if h.segStart.Some? then h.segStart.value else 0;
    var end := AudioEndMs(h.sound, |h.sound|, AudioFrameMs(h.audio), VideoEndMs(h.video, |h.video|, start));
    Max(end - (if h.segStart.Some? then h.segStart.value else end), 0)
  }

  // ---------------------------------------------------------------------------------
  // Operations
  // ---------------------------------------------------------------------------------

  function EnsureInit(h: Hls): Hls {
    if h.initWritten then h
    else h.(initWritten := true, initHasVideo := h.avcc.Some?, initHasAudio := h.audio.Some?,
            store := h.store.(init := Some(InitTracks(h.avcc, h.audio))))
  }

  function CeilSecs(ms: nat): nat {
    (ms + 999) / 1000
  }

  function MakePlaylist(h: Hls, ended: bool): Playlist {
    Playlist(Max(h.targetSecs, Max(CeilSecs(h.maxMs), 1)), Max(h.sequence - |h.window|, 0), h.window, ended)
  }

  function WritePlaylist(h: Hls, ended: bool): Hls {
    h.(store := h.store.(playlist := Some(MakePlaylist(h, ended))))
  }

  /** Drop the oldest entries, and their files, until at most `limit` remain. */
  function Slide(h: Hls, limit: nat): Hls
    decreases |h.window|
  {
    if |h.window| <= limit then h
    else
      var gone := h.window[0].number;
      Slide(h.(window := h.window[1..], store := h.store.(segments := h.store.segments - {gone})), limit)
  }

  /** Take the pending samples into a segment file and its playlist entry. */
  function Seal(h: Hls): Hls {
    var frags := Fragments(h);
    h.(video := [], sound := [], segStart := None,
       videoNext := if h.video == [] then h.videoNext else Some(EndOf(VideoFragment(h))),
       audioNext := if h.sound == [] then h.audioNext else Some(EndOf(AudioFragment(h))),
       store := h.store.(segments := h.store.segments[h.sequence := Mp4.Segment(h.sequence, frags)]),
       window := h.window + [Entry(h.sequence, DurationMs(h))],
       maxMs := Max(h.maxMs, DurationMs(h)),
       sequence := h.sequence + 1,
       written := h.written + [Written(h.video, h.sound, frags)])
  }

  function CloseSegment(h: Hls): Hls {
    if !HasSamples(h) then h
    else WritePlaylist(Slide(Seal(EnsureInit(h)), Max(h.windowSize, 1)), false)
  }

  function VideoPayload(p: MediaPacket): bytes {
    H264.Prefixed(H264.Nals(p.data))
  }

  /** A video packet before any gate: the first one that carries parameter sets configures the track. */
  function SeeVideo(h: Hls, p: MediaPacket): Hls {
    h.(sawVideo := true, avcc := if h.avcc.Some? then h.avcc else AnnexBToAvcc(p.data))
  }

  function TakesVideo(h: Hls, p: MediaPacket): bool {
    h.avcc.Some? && (h.initWritten ==> h.initHasVideo) && (h.started || p.isKey)
  }

  function PushVideo(h: Hls, s: Pending): Hls {
    h.(video := h.video + [s], segStart := if h.segStart.Some? then h.segStart else Some(s.dts))
  }

  function VideoPacket(h: Hls, p: MediaPacket): Hls {
    var s := SeeVideo(h, p);
    if !TakesVideo(s, p) then s
    else
      var (clock, dts) := Normalize(s.clock, p.dts);
      var t := s.(started := true, clock := clock);
      var u := if p.isKey && HasSamples(t) && SpanMs(t) >= TargetMs(t) then CloseSegment(t) else t;
      PushVideo(u, Pending(VideoPayload(p), dts, p.pts - p.dts, p.isKey))
  }

  function SeeAudio(h: Hls, p: MediaPacket): Hls {
    if h.audio.Some? then h
    else
      match AdtsToAsc(p.data)
      case None => h
      case Some(asc) => h.(audio := ParseAudioParams(asc))
  }

  function TakesAudio(h: Hls): bool {
    h.audio.Some? && (h.initWritten ==> h.initHasAudio) && (h.started || !h.sawVideo)
  }

  function PushAudio(h: Hls, s: Pending): Hls {
    h.(sound := h.sound + [s], segStart := if h.segStart.Some? then h.segStart else Some(s.dts))
  }

  function AudioPacket(h: Hls, p: MediaPacket): Hls {
    var s := SeeAudio(h, p);
    if !TakesAudio(s) then s
    else
      var (clock, dts) := Normalize(s.clock, p.dts);
      var t := s.(started := true, clock := clock);
      var u := if !t.sawVideo && HasSamples(t) && SpanMs(t) >= TargetMs(t) then CloseSegment(t) else t;
      PushAudio(u, Pending(StripAdts(p.data), dts, 0, true))
  }

  function PutPacket(h: Hls, p: MediaPacket): Hls {
    if h.finished then h
    else if p.kind == Video then VideoPacket(h, p)
    else AudioPacket(h, p)
  }

  function SetCodecs(h: Hls, avcc: Option<bytes>, asc: Option<bytes>): Hls {
    h.(avcc := if h.avcc.None? then avcc else h.avcc,
       audio := if asc.Some? && h.audio.None? then ParseAudioParams(asc.value) else h.audio)
  }

  function Finish(h: Hls): Hls {
    if h.finished then h
    else WritePlaylist(CloseSegment(h.(finished := true)), true)
  }

  datatype Call = Codecs(avcc: Option<bytes>, asc: Option<bytes>) | Packet(p: MediaPacket) | FinishCall

  function Do(h: Hls, c: Call): Hls {
    match c
    case Codecs(avcc, asc) => SetCodecs(h, avcc, asc)
    case Packet(p) => PutPacket(h, p)
    case FinishCall => Finish(h)
  }

  function DoAll(h: Hls, calls: seq<Call>): Hls
    decreases |calls|
  {
    if calls == [] then h else DoAll(Do(h, calls[0]), calls[1..])
  }
}
