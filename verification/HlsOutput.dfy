/** The segmenter as an object: its fields are updated in place, and each method does what `Hls` says. */
module HlsOutputs {
  import opened Bytes
  import opened Media
  import opened Segmenter
  import H264
  import Mp4

  class Timebase {
    var origin: Option<int>
    var last: Option<int>

    function View(): Clock
      reads this
    {
      Clock(origin, last)
    }

    constructor ()
      ensures View() == Clock(None, None)
    {
      origin, last := None, None;
    }

    method NormalizeTime(dts: int) returns (ts: int)
      modifies this
      ensures (View(), ts) == Normalize(old(View()), dts)
    {
      if origin.None? {
        origin := Some(dts);
      }
      ts := dts - origin.value;
      if last.Some? && ts < last.value {
        var slip := last.value - ts;
        if slip > REORDER_TOLERANCE_MS {
          origin := Some(dts - Max(last.value, 0));
          ts := Max(last.value, 0);
        } else {
          ts := last.value;
        }
      }
      last := Some(ts);
    }
  }

  class MemoryStorage {
    var init: Option<InitTracks>
    var segments: map<nat, bytes>
    var playlist: Option<Playlist>

    function View(): Storage
      reads this
    {
      Storage(init, segments, playlist)
    }

    constructor ()
      ensures View() == Storage(None, map[], None)
    {
      init, segments, playlist := None, map[], None;
    }

    method WriteSegment(number: nat, b: bytes)
      modifies this`segments
      ensures View() == old(View()).(segments := old(segments)[number := b])
    {
      segments := segments[number := b];
    }
  }

  /** The video part of a segment: samples with durations from their successors, and where they end. */
  method BuildVideo(samples: seq<Pending>, start: int) returns (out: seq<Mp4.Sample>, end: int)
    ensures out == VideoSamples(samples) && end == VideoEndMs(samples, |samples|, start)
  {
    hide VideoTicks, AsI32, SampleFlags;
    out, end := [], start;
    for i := 0 to |samples|
      invariant out == VideoSamples(samples)[..i] && end == VideoEndMs(samples, i, start)
    {
      var next := if i + 1 < |samples| then Max(samples[i + 1].dts - samples[i].dts, 0) else DEFAULT_VIDEO_FRAME_MS;
      end := Max(end, samples[i].dts + next);
      var flags := SampleFlags(if samples[i].isSync then 2 else 1, samples[i].isSync);
      out := out + [Mp4.Sample(Min(VideoTicks(next), TWO_32 - 1), samples[i].payload, flags,
                               AsI32(samples[i].cts * VIDEO_TIMESCALE / 1000))];
      assert samples[i].cts * VIDEO_TIMESCALE / 1000 == samples[i].cts * (VIDEO_TIMESCALE / 1000);
    }
  }

  method BuildAudio(samples: seq<Pending>, frameMs: int, start: int) returns (out: seq<Mp4.Sample>, end: int)
    ensures out == AudioSamples(samples) && end == AudioEndMs(samples, |samples|, frameMs, start)
  {
    hide SampleFlags;
    out, end := [], start;
    for i := 0 to |samples|
      invariant out == AudioSamples(samples)[..i] && end == AudioEndMs(samples, i, frameMs, start)
    {
      end := Max(end, samples[i].dts + frameMs);
      out := out + [Mp4.Sample(AAC_FRAME_SAMPLES, samples[i].payload, SampleFlags(2, true), 0)];
    }
  }

  class HlsOutput {
    const targetSecs: nat
    const windowSize: nat
    const timebase: Timebase
    const storage: MemoryStorage
    var avcc: Option<bytes>
    var audio: Option<AudioParams>
    var initWritten: bool
    var initHasVideo: bool
    var initHasAudio: bool
    var sawVideo: bool
    var started: bool
    var video: seq<Pending>
    var sound: seq<Pending>
    var segStart: Option<int>
    var videoNext: Option<nat>
    var audioNext: Option<nat>
    var sequence: nat
    var window: seq<Entry>
    var maxMs: nat
    var finished: bool
    ghost var written: seq<Written>

    ghost function View(): Hls
      reads this, timebase, storage
    {
      Hls(targetSecs, windowSize, timebase.View(), avcc, audio, initWritten, initHasVideo, initHasAudio,
              sawVideo, started, video, sound, segStart, videoNext, audioNext, sequence, window, maxMs, finished,
              storage.View(), written)
    }

    /** Few enough samples wait that the moof's size fits its field. */
    ghost predicate Roomy()
      reads this
    {
      |video| + |sound| < 200_000_000
    }

    constructor (targetSecs: nat, windowSize: nat)
      ensures View() == NewHls(targetSecs, windowSize) && fresh(timebase) && fresh(storage)
    {
      this.targetSecs, this.windowSize := targetSecs, windowSize;
      timebase := new Timebase();
      storage := new MemoryStorage();
      avcc, audio, initWritten, initHasVideo, initHasAudio := None, None, false, false, false;
      sawVideo, started, video, sound, segStart := false, false, [], [], None;
      videoNext, audioNext, sequence, window, maxMs, finished := None, None, 0, [], 0, false;
      written := [];
    }

    method EnsureInitFile()
      modifies this`initWritten, this`initHasVideo, this`initHasAudio, storage
      ensures View() == EnsureInit(old(View()))
    {
      if initWritten {
        return;
      }
      storage.init := Some(InitTracks(avcc, audio));
      initWritten, initHasVideo, initHasAudio := true, avcc.Some?, audio.Some?;
    }

    method WriteList(ended: bool)
      modifies storage
      ensures View() == WritePlaylist(old(View()), ended)
    {
      var target := Max(targetSecs, Max(CeilSecs(maxMs), 1));
      var first := if sequence < |window| then 0 else sequence - |window|;
      storage.playlist := Some(Playlist(target, first, window, ended));
    }

    /** Retire the oldest segments, one file each, until the window has its size. */
    method RollWindow(limit: nat)
      modifies this`window, storage
      ensures View() == Slide(old(View()), limit)
    {
      while |window| > limit
        invariant Slide(View(), limit) == Slide(old(View()), limit)
        invariant View() == old(View()).(window := window, store := storage.View())
        decreases |window|
      {
        var gone := window[0].number;
        window := window[1..];
        storage.segments := storage.segments - {gone};
      }
    }

    method TakeVideo(start: int) returns (frags: seq<Mp4.Fragment>, end: int)
      modifies this`video, this`videoNext
      ensures var h := old(View());
        && frags == (if h.video == [] then [] else [VideoFragment(h)])
        && end == VideoEndMs(h.video, |h.video|, start)
        && View() == h.(video := [], videoNext := if h.video == [] then h.videoNext else Some(EndOf(VideoFragment(h))))
    {
      hide VideoSamples, TotalTicks, VideoTicks, VideoFragment, EndOf;
      ghost var h := View();
      frags, end := [], start;
      if video != [] {
        var msBase := VideoTicks(video[0].dts);
        var out, e := BuildVideo(video, end);
        end := e;
        video := [];
        var first := if videoNext.Some? then Max(videoNext.value, msBase) else msBase;
        VideoPart(h, first);
        videoNext := Some(first + TotalTicks(out));
        frags := frags + [Mp4.Fragment(VIDEO_TRACK_ID, first, out)];
      }
    }

    method TakeAudio(start: int) returns (frags: seq<Mp4.Fragment>, end: int)
      modifies this`sound, this`audioNext
      ensures var h := old(View());
        && frags == (if h.sound == [] then [] else [AudioFragment(h)])
        && end == AudioEndMs(h.sound, |h.sound|, AudioFrameMs(h.audio), start)
        && View() == h.(sound := [], audioNext := if h.sound == [] then h.audioNext else Some(EndOf(AudioFragment(h))))
    {
      hide AudioSamples, TotalTicks, AudioTicks, AudioFrameMs, AudioFragment, EndOf;
      ghost var h := View();
      frags, end := [], start;
      if sound != [] {
        var msBase := AudioTicks(audio, sound[0].dts);
        var out, e := BuildAudio(sound, AudioFrameMs(audio), end);
        end := e;
        sound := [];
        var first := if audioNext.Some? then Max(audioNext.value, msBase) else msBase;
        AudioPart(h, first);
        audioNext := Some(first + AAC_FRAME_SAMPLES * |out|);
        frags := frags + [Mp4.Fragment(AUDIO_TRACK_ID, first, out)];
      }
    }

    /** Both tracks' pending samples as fragments, and where the last of them ends. */
    method TakeFragments() returns (frags: seq<Mp4.Fragment>, end: int)
      modifies this`video, this`videoNext, this`sound, this`audioNext
      ensures var h := old(View()); frags == Fragments(h) && end == SegmentEnd(h) && View() == Emptied(h)
    {
      hide VideoFragment, AudioFragment, EndOf, VideoEndMs, AudioEndMs, AudioFrameMs, Emptied, Fragments,
           SegmentEnd;
      ghost var h := View();
      var sound;
      frags, end := TakeVideo(if segStart.Some? then segStart.value else 0);
      ghost var g, v, e := View(), frags, end;
      sound, end := TakeAudio(end);
      frags := frags + sound;
      BothTaken(h, g, View(), v, sound, e, end);
    }

    /** Seal the open segment: build it, store it, roll the window and the playlist. */
    method CloseOpenSegment()
      requires Roomy()
      modifies this, storage
      ensures View() == CloseSegment(old(View()))
    {
      hide Slide, MakePlaylist, VideoFragment, AudioFragment, VideoEndMs, AudioEndMs, AudioFrameMs, EndOf,
           Mp4.Segment, Mp4.MoofLen, DurationMs, Seal, EnsureInit, Fragments, SegmentEnd;
      if video == [] && sound == [] {
        return;
      }
      EnsureInitFile();
      ghost var h := View();
      InitKeepsSamples(old(View()));
      SmallMoof(h);
      var frags, end := TakeFragments();
      var segment := Mp4.MediaSegment(sequence, frags);
      var duration := Max(end - (if segStart.Some? then segStart.value else end), 0);
      DurationIs(h);
      StoreSealed(frags, segment, duration, h);
      RollWindow(Max(windowSize, 1));
      WriteList(false);
    }

    /** The bookkeeping once a segment's bytes exist: its file, its entry, its number. */
    method StoreSealed(frags: seq<Mp4.Fragment>, segment: bytes, duration: nat, ghost h: Hls)
      requires View() == Emptied(h) && frags == Fragments(h) && duration == DurationMs(h)
      requires segment == Mp4.Segment(h.sequence, frags)
      modifies this`written, this`maxMs, this`window, this`sequence, this`segStart, storage`segments
      ensures View() == Seal(h)
    {
      hide Fragments, DurationMs, Mp4.Segment, Emptied, Seal;
      ghost var e := View();
      storage.WriteSegment(sequence, segment);
      written := written + [Written(h.video, h.sound, frags)];
      maxMs, window := Max(maxMs, duration), window + [Entry(sequence, duration)];
      sequence, segStart := sequence + 1, None;
      SealIs(h, e, View(), segment);
    }

    method SpanNow() returns (ms: int)
      ensures ms == SpanMs(View())
    {
      if segStart.None? {
        return 0;
      }
      ms := segStart.value;
      if video != [] {
        ms := Max(video[|video| - 1].dts, ms);
      }
      if sound != [] {
        ms := Max(sound[|sound| - 1].dts, ms);
      }
      ms := ms - segStart.value;
    }

    /** The gates a video packet must pass: a configuration, a place in the init segment, a keyframe to start on. */
    method AdmitVideo(p: MediaPacket) returns (taken: bool)
      modifies this`sawVideo, this`avcc, this`started
      ensures var s := SeeVideo(old(View()), p);
        taken == TakesVideo(s, p) && View() == if taken then Admitted(s) else s
    {
      hide AnnexBToAvcc;
      sawVideo := true;
      if avcc.None? {
        avcc := AnnexBToAvcc(p.data);
      }
      if avcc.None? {
        return false;
      }
      if initWritten && !initHasVideo {
        return false;
      }
      if !started {
        if !p.isKey {
          return false;
        }
        started := true;
      }
      return true;
    }

    method AdmitAudio(p: MediaPacket) returns (taken: bool)
      modifies this`audio, this`started
      ensures var s := SeeAudio(old(View()), p);
        taken == TakesAudio(s) && View() == if taken then Admitted(s) else s
    {
      hide AdtsToAsc, ParseAudioParams;
      if audio.None? {
        var asc := AdtsToAsc(p.data);
        if asc.Some? {
          audio := ParseAudioParams(asc.value);
        }
      }
      if audio.None? {
        return false;
      }
      if initWritten && !initHasAudio {
        return false;
      }
      if !started {
        if sawVideo {
          return false;
        }
        started := true;
      }
      return true;
    }

    method CutWhen(allowed: bool)
      requires Roomy()
      modifies this, storage
      ensures var h := old(View());
        View() == if allowed && HasSamples(h) && SpanMs(h) >= TargetMs(h) then CloseSegment(h) else h
    {
      hide CloseSegment, Span;
      var span := SpanNow();
      if allowed && (video != [] || sound != []) && span >= targetSecs * 1000 {
        CloseOpenSegment();
      }
    }

    method AppendVideo(s: Pending)
      modifies this`video, this`segStart
      ensures View() == PushVideo(old(View()), s)
    {
      if segStart.None? {
        segStart := Some(s.dts);
      }
      video := video + [s];
    }

    method AppendAudio(s: Pending)
      modifies this`sound, this`segStart
      ensures View() == PushAudio(old(View()), s)
    {
      if segStart.None? {
        segStart := Some(s.dts);
      }
      sound := sound + [s];
    }

    method PutVideo(p: MediaPacket)
      requires Roomy() && p.kind == Video
      modifies this, timebase, storage
      ensures View() == VideoPacket(old(View()), p)
    {
      hide CloseSegment, Normalize, SpanMs, SeeVideo, TakesVideo, H264.Nals, H264.Prefixed, HasSamples, TargetMs,
           VideoPacket, PushVideo;
      ghost var h := View();
      var taken := AdmitVideo(p);
      if !taken {
        VideoRefused(h, p);
        return;
      }
      ghost var s := View();
      var dts := timebase.NormalizeTime(p.dts);
      ghost var t := View();
      assert t == s.(clock := Normalize(s.clock, p.dts).0);
      var cts := p.pts - p.dts;
      CutWhen(p.isKey);
      ghost var u := View();
      var nals := H264.SplitAnnexB(p.data);
      var payload := H264.ToLengthPrefixed(nals);
      AppendVideo(Pending(payload, dts, cts, p.isKey));
      VideoTaken(h, p, s, t, u);
    }

    method PutAudio(p: MediaPacket)
      requires Roomy() && p.kind == Audio
      modifies this, timebase, storage
      ensures View() == AudioPacket(old(View()), p)
    {
      hide CloseSegment, Normalize, SpanMs, SeeAudio, TakesAudio, StripAdts, HasSamples, TargetMs, AudioPacket,
           PushAudio;
      ghost var h := View();
      var taken := AdmitAudio(p);
      if !taken {
        AudioRefused(h, p);
        return;
      }
      ghost var s := View();
      var dts := timebase.NormalizeTime(p.dts);
      ghost var t := View();
      assert t == s.(clock := Normalize(s.clock, p.dts).0);
      CutWhen(!sawVideo);
      ghost var u := View();
      var payload := StripAdts(p.data);
      AppendAudio(Pending(payload, dts, 0, true));
      AudioTaken(h, p, s, t, u);
    }

    method PutOne(p: MediaPacket)
      requires Roomy()
      modifies this, timebase, storage
      ensures View() == Do(old(View()), Packet(p))
    {
      hide VideoPacket, AudioPacket;
      if finished {
        return;
      }
      match p.kind
      case Video => PutVideo(p);
      case Audio => PutAudio(p);
    }

    method Configure(avcc: Option<bytes>, asc: Option<bytes>)
      modifies this
      ensures View() == Do(old(View()), Codecs(avcc, asc))
    {
      if avcc.Some? && this.avcc.None? {
        this.avcc := avcc;
      }
      if asc.Some? && audio.None? {
        audio := ParseAudioParams(asc.value);
      }
    }

    method FinishStream()
      requires Roomy()
      modifies this, storage
      ensures View() == Do(old(View()), FinishCall)
    {
      hide CloseSegment, MakePlaylist;
      if finished {
        return;
      }
      finished := true;
      CloseOpenSegment();
      WriteList(true);
    }
  }

  /** The state after the pending samples were taken and the grid moved. */
  function Emptied(h: Hls): Hls {
    h.(video := [], sound := [],
       videoNext := if h.video == [] then h.videoNext else Some(EndOf(VideoFragment(h))),
       audioNext := if h.sound == [] then h.audioNext else Some(EndOf(AudioFragment(h))))
  }

  lemma VideoPart(h: Hls, first: nat)
    requires h.video != [] && first == Base(h.videoNext, VideoTicks(h.video[0].dts))
    ensures VideoFragment(h) == Mp4.Fragment(VIDEO_TRACK_ID, first, VideoSamples(h.video))
    ensures EndOf(VideoFragment(h)) == first + TotalTicks(VideoSamples(h.video))
  {
  }

  lemma AudioPart(h: Hls, first: nat)
    requires h.sound != [] && first == Base(h.audioNext, AudioTicks(h.audio, h.sound[0].dts))
    ensures AudioFragment(h) == Mp4.Fragment(AUDIO_TRACK_ID, first, AudioSamples(h.sound))
    ensures EndOf(AudioFragment(h)) == first + AAC_FRAME_SAMPLES * |AudioSamples(h.sound)|
  {
    AudioSpan(h.sound);
  }

  /** Taking the video and then the audio part is taking both. */
  lemma BothTaken(h: Hls, g: Hls, t: Hls, v: seq<Mp4.Fragment>, a: seq<Mp4.Fragment>, middle: int, end: int)
    requires g == h.(video := [], videoNext := if h.video == [] then h.videoNext else Some(EndOf(VideoFragment(h))))
    requires v == if h.video == [] then [] else [VideoFragment(h)]
    requires middle == VideoEndMs(h.video, |h.video|, if h.segStart.Some? then h.segStart.value else 0)
    requires t == g.(sound := [], audioNext := if g.sound == [] then g.audioNext else Some(EndOf(AudioFragment(g))))
    requires a == if g.sound == [] then [] else [AudioFragment(g)]
    requires end == AudioEndMs(g.sound, |g.sound|, AudioFrameMs(g.audio), middle)
    ensures v + a == Fragments(h) && end == SegmentEnd(h) && t == Emptied(h)
  {
    hide EndOf, VideoFragment, VideoEndMs, AudioEndMs, AudioFrameMs, AudioSamples;
    if h.sound != [] {
      assert AudioFragment(g) == AudioFragment(h);
    }
  }

  lemma InitKeepsSamples(h: Hls)
    ensures var e := EnsureInit(h);
      e.video == h.video && e.sound == h.sound && e.windowSize == h.windowSize && e.sequence == h.sequence
  {
  }

  function SegmentEnd(h: Hls): int {
    var start := if h.segStart.Some? then h.segStart.value else 0;
    AudioEndMs(h.sound, |h.sound|, AudioFrameMs(h.audio), VideoEndMs(h.video, |h.video|, start))
  }

  lemma DurationIs(h: Hls)
    ensures var end := SegmentEnd(h);
            DurationMs(h) == Max(end - (if h.segStart.Some? then h.segStart.value else end), 0)
  {
    hide AudioEndMs, VideoEndMs, AudioFrameMs;
  }

  function Admitted(h: Hls): Hls {
    h.(started := true)
  }

  lemma VideoRefused(h: Hls, p: MediaPacket)
    requires !TakesVideo(SeeVideo(h, p), p)
    ensures VideoPacket(h, p) == SeeVideo(h, p)
  {
    hide SeeVideo, TakesVideo;
  }

  lemma AudioRefused(h: Hls, p: MediaPacket)
    requires !TakesAudio(SeeAudio(h, p))
    ensures AudioPacket(h, p) == SeeAudio(h, p)
  {
    hide SeeAudio, TakesAudio;
  }

  lemma VideoTaken(h: Hls, p: MediaPacket, s: Hls, t: Hls, u: Hls)
    requires TakesVideo(SeeVideo(h, p), p) && s == Admitted(SeeVideo(h, p))
    requires t == s.(clock := Normalize(s.clock, p.dts).0)
    requires u == if p.isKey && HasSamples(t) && SpanMs(t) >= TargetMs(t) then CloseSegment(t) else t
    ensures VideoPacket(h, p)
         == PushVideo(u, Pending(VideoPayload(p), Normalize(s.clock, p.dts).1, p.pts - p.dts, p.isKey))
  {
    hide CloseSegment, Normalize, SpanMs, SeeVideo, TakesVideo, VideoPayload, HasSamples, PushVideo;
    var s0 := SeeVideo(h, p);
    assert t == s0.(started := true, clock := Normalize(s0.clock, p.dts).0);
  }

  lemma AudioTaken(h: Hls, p: MediaPacket, s: Hls, t: Hls, u: Hls)
    requires TakesAudio(SeeAudio(h, p)) && s == Admitted(SeeAudio(h, p))
    requires t == s.(clock := Normalize(s.clock, p.dts).0)
    requires u == if !t.sawVideo && HasSamples(t) && SpanMs(t) >= TargetMs(t) then CloseSegment(t) else t
    ensures AudioPacket(h, p) == PushAudio(u, Pending(StripAdts(p.data), Normalize(s.clock, p.dts).1, 0, true))
  {
    hide CloseSegment, Normalize, SpanMs, SeeAudio, TakesAudio, StripAdts, HasSamples, PushAudio;
    var s0 := SeeAudio(h, p);
    assert t == s0.(started := true, clock := Normalize(s0.clock, p.dts).0);
  }

  lemma {:induction false} AudioSpan(samples: seq<Pending>)
    ensures |AudioSamples(samples)| == |samples|
    ensures TotalTicks(AudioSamples(samples)) == AAC_FRAME_SAMPLES * |samples|
    decreases |samples|
  {
    if samples != [] {
      var n := |samples| - 1;
      assert AudioSamples(samples)[..n] == AudioSamples(samples[..n]);
      AudioSpan(samples[..n]);
    }
  }

  lemma SmallMoof(h: Hls)
    requires |h.video| + |h.sound| < 200_000_000
    ensures Mp4.MoofLen(Fragments(h)) < TWO_32
  {
    hide VideoSamples, AudioSamples, Base, VideoTicks, AudioTicks, Mp4.TrafBox;
    var frags := Fragments(h);
    SampleCounts(h);
    TwoTrafs(frags);
    if h.video != [] { Mp4.TrafLength(VideoFragment(h), 0); }
    if h.sound != [] { Mp4.TrafLength(AudioFragment(h), 0); }
  }

  lemma SampleCounts(h: Hls)
    ensures |VideoSamples(h.video)| == |h.video| && |AudioSamples(h.sound)| == |h.sound|
  {
  }

  lemma TwoTrafs(frags: seq<Mp4.Fragment>)
    requires |frags| <= 2
    ensures Mp4.BlankTrafs(frags) == (if |frags| > 0 then Mp4.TrafBox(frags[0], 0) else [])
                                   + (if |frags| > 1 then Mp4.TrafBox(frags[1], 0) else [])
  {
    hide Mp4.TrafBox;
    if |frags| == 2 {
      assert frags[1..][1..] == [];
    } else if |frags| == 1 {
      assert frags[1..] == [];
    }
  }

  lemma SealIs(h: Hls, e: Hls, v: Hls, segment: bytes)
    requires e == Emptied(h) && segment == Mp4.Segment(h.sequence, Fragments(h))
    requires v == e.(written := e.written + [Written(h.video, h.sound, Fragments(h))],
                     store := e.store.(segments := e.store.segments[e.sequence := segment]),
                     maxMs := Max(e.maxMs, DurationMs(h)), window := e.window + [Entry(e.sequence, DurationMs(h))],
                     sequence := e.sequence + 1, segStart := None)
    ensures v == Seal(h)
  {
    hide Fragments, DurationMs, Mp4.Segment, EndOf, VideoFragment, AudioFragment;
  }
}
