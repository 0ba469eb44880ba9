/** The playlist window and the stored files: after every call they list exactly the same segments. */
module HlsWindow {
  import opened Bytes
  import opened Segmenter
  import opened HlsRuns
  import opened HlsCuts
  import Mp4
  import Mp4Player

  /** Consecutive numbers that end just before `sequence`, none longer than `maxMs`. */
  predicate Consecutive(window: seq<Entry>, sequence: nat, maxMs: nat) {
    && |window| <= sequence
    && forall i :: 0 <= i < |window| ==> window[i].number == sequence - |window| + i && window[i].durationMs <= maxMs
  }

  /** Files `from` up to `sequence`, each holding the segment written under its number. */
  ghost predicate Holds(files: map<nat, bytes>, written: seq<Written>, from: int, sequence: nat) {
    && |written| == sequence
    && (forall n: nat :: n in files.Keys <==> from <= n < sequence)
    && (forall n: nat :: n in files.Keys && n < |written| ==> files[n] == Mp4.Segment(n, written[n].frags))
  }

  ghost predicate Mirrored(h: Hls) {
    && |h.window| == Min(h.sequence, Max(h.windowSize, 1))
    && Consecutive(h.window, h.sequence, h.maxMs)
    && Holds(h.store.segments, h.written, h.sequence - |h.window|, h.sequence)
  }

  /** The playlist on disk shows the current window. */
  predicate Shown(h: Hls) {
    h.sequence > 0 || h.finished ==> h.store.playlist == Some(MakePlaylist(h, h.finished))
  }

  lemma SealMirrored(h: Hls)
    requires Mirrored(h)
    ensures var s := Seal(h);
      && |s.window| == |h.window| + 1 && s.sequence == h.sequence + 1 && s.windowSize == h.windowSize
      && Consecutive(s.window, s.sequence, s.maxMs)
      && Holds(s.store.segments, s.written, s.sequence - |s.window|, s.sequence)
  {
    hide DurationMs, Fragments, EndOf, VideoFragment, AudioFragment, Mp4.Segment;
    var s := Seal(h);
    assert forall i :: 0 <= i < |h.window| ==> s.window[i] == h.window[i];
    assert forall i :: 0 <= i < |h.written| ==> s.written[i] == h.written[i];
  }

  lemma SlideConsecutive(s: Hls, limit: nat)
    requires limit >= 1 && Consecutive(s.window, s.sequence, s.maxMs)
    ensures var t := Slide(s, limit);
      |t.window| == Min(|s.window|, limit) && Consecutive(t.window, s.sequence, s.maxMs)
  {
    hide Slide;
    SlideEffect(s, limit);
  }

  lemma SlideHolds(s: Hls, limit: nat)
    requires limit >= 1 && |s.window| <= limit + 1 && Consecutive(s.window, s.sequence, s.maxMs)
    requires Holds(s.store.segments, s.written, s.sequence - |s.window|, s.sequence)
    ensures var t := Slide(s, limit); Holds(t.store.segments, s.written, s.sequence - Min(|s.window|, limit),
        s.sequence)
  {
    hide Slide, Mp4.Segment;
    SlideEffect(s, limit);
    var files, kept := s.store.segments, Slide(s, limit).store.segments;
    forall n: nat ensures n in kept.Keys <==> s.sequence - Min(|s.window|, limit) <= n < s.sequence {
      if n in files.Keys && |s.window| == limit + 1 {
        assert s.window[0].number == s.sequence - |s.window|;
      }
    }
  }

  lemma SlideMirrored(s: Hls, limit: nat)
    requires limit >= 1 && |s.window| <= limit + 1 && Consecutive(s.window, s.sequence, s.maxMs)
    requires Holds(s.store.segments, s.written, s.sequence - |s.window|, s.sequence)
    ensures var t := Slide(s, limit);
      && t == s.(window := t.window, store := s.store.(segments := t.store.segments))
      && |t.window| == Min(|s.window|, limit) && Consecutive(t.window, t.sequence, t.maxMs)
      && Holds(t.store.segments, t.written, t.sequence - |t.window|, t.sequence)
  {
    hide Slide, Consecutive, Holds;
    SlideEffect(s, limit);
    SlideConsecutive(s, limit);
    SlideHolds(s, limit);
  }

  lemma CloseMirrored(h: Hls)
    requires Mirrored(h)
    ensures Mirrored(CloseSegment(h))
    ensures CloseSegment(h).sequence > h.sequence ==>
      CloseSegment(h).store.playlist == Some(MakePlaylist(CloseSegment(h), false))
    ensures HasSamples(h) || CloseSegment(h) == h
  {
    hide Slide, Seal, Consecutive, Holds;
    if HasSamples(h) {
      var i := EnsureInit(h);
      SealMirrored(i);
      SlideMirrored(Seal(i), Max(h.windowSize, 1));
    }
  }

  /** The fields the playlist shows. */
  predicate SameList(h: Hls, t: Hls) {
    && t.store == h.store && t.window == h.window && t.sequence == h.sequence && t.maxMs == h.maxMs
    && t.targetSecs == h.targetSecs && t.windowSize == h.windowSize
    && t.written == h.written && t.finished == h.finished
  }

  lemma SameMirrored(h: Hls, t: Hls)
    requires Mirrored(h) && Shown(h) && SameList(h, t)
    ensures Mirrored(t) && Shown(t)
  {
  }

  lemma CloseShown(h: Hls)
    requires Mirrored(h) && Shown(h) && !h.finished
    ensures Mirrored(CloseSegment(h)) && Shown(CloseSegment(h)) && !CloseSegment(h).finished
  {
    hide CloseSegment, MakePlaylist, Mirrored, Fragments, DurationMs, EndOf;
    CloseMirrored(h);
    if HasSamples(h) {
      CloseEffect(h);
    }
  }

  lemma FinishShown(h: Hls)
    requires Mirrored(h) && !h.finished
    ensures Mirrored(Finish(h)) && Shown(Finish(h))
  {
    hide CloseSegment, Consecutive, Holds, Fragments, DurationMs, EndOf;
    var f := h.(finished := true);
    CloseMirrored(f);
    if HasSamples(f) {
      FinishedStays(f);
    }
    assert MakePlaylist(Finish(h), true) == MakePlaylist(CloseSegment(f), true);
  }

  lemma CallMirrored(h: Hls, c: Call)
    requires Mirrored(h) && Shown(h)
    ensures Mirrored(Do(h, c)) && Shown(Do(h, c))
  {
    hide CloseSegment, PutPacket, Mirrored, Shown, Clocked, SampleOf, Seen, Accepts, Cuts, Finish;
    match c
    case Codecs(_, _) => SameMirrored(h, Do(h, c));
    case FinishCall =>
      if h.finished { FinishTwice(h); } else { FinishShown(h); }
    case Packet(p) =>
      if h.finished {
        Ignored(h, p);
      } else {
        PacketShape(h, p);
        SeenEffect(h, p);
        ClockedKeeps(h, p);
        SameMirrored(h, Seen(h, p));
        SameMirrored(h, Clocked(h, p));
        CloseShown(Clocked(h, p));
        var u := if Cuts(h, p) then CloseSegment(Clocked(h, p)) else Clocked(h, p);
        SameMirrored(u, PushVideo(u, SampleOf(h, p)));
        SameMirrored(u, PushAudio(u, SampleOf(h, p)));
      }
  }

  lemma FinishTwice(h: Hls)
    requires h.finished
    ensures Finish(h) == h
  {
  }

  lemma {:induction false} RunMirrored(h: Hls, calls: seq<Call>)
    requires Mirrored(h) && Shown(h)
    ensures Mirrored(DoAll(h, calls)) && Shown(DoAll(h, calls))
    decreases |calls|
  {
    hide Do, Mirrored, Shown;
    if calls != [] {
      CallMirrored(h, calls[0]);
      RunMirrored(Do(h, calls[0]), calls[1..]);
    }
  }

  lemma NewMirrored(t: nat, w: nat)
    ensures Mirrored(NewHls(t, w)) && Shown(NewHls(t, w))
  {
  }

  lemma ReachableMirrored(h: Hls)
    requires Reachable(h)
    ensures Mirrored(h) && Shown(h)
  {
    hide DoAll, Mirrored, Shown;
    var t: nat, w: nat, calls: seq<Call> :| h == DoAll(NewHls(t, w), calls);
    NewMirrored(t, w);
    RunMirrored(NewHls(t, w), calls);
  }

  /**
    Whenever a segment exists, the playlist lists the last min(sequence, max(window size, 1)) of them,
    numbered consecutively from its media sequence; the stored segment files are exactly the listed
    ones; and the target duration is at least one second and no shorter than any listed duration.
   */
  lemma PlaylistMirrorsStorage(h: Hls)
    requires Reachable(h) && h.sequence > 0
    ensures h.store.playlist.Some?
    ensures var p := h.store.playlist.value;
      && |p.entries| == Min(h.sequence, Max(h.windowSize, 1))
      && p.mediaSequence + |p.entries| == h.sequence && p.ended == h.finished
      && (forall i :: 0 <= i < |p.entries| ==>
            p.entries[i].number == p.mediaSequence + i && p.entries[i].durationMs <= p.target * 1000)
      && p.target >= 1 && p.target >= h.targetSecs
      && (forall n: nat :: n in h.store.segments.Keys <==> p.mediaSequence <= n < h.sequence)
  {
    hide Reachable;
    ReachableMirrored(h);
  }

  /** A player reading any stored file recovers the fragments that were written under its number. */
  lemma StoredFilesPlay(h: Hls, n: nat)
    requires Reachable(h) && n in h.store.segments.Keys
    ensures n < |h.written|
    ensures Mp4Player.Fits(n, h.written[n].frags) ==>
      Mp4Player.Demux(h.store.segments[n]) == Some(Mp4Player.MediaFile(n, h.written[n].frags))
  {
    hide Reachable, Mp4Player.Fits, Mp4Player.Demux, Mp4.Segment, Shown, Consecutive;
    ReachableMirrored(h);
    if Mp4Player.Fits(n, h.written[n].frags) {
      Mp4Player.SegmentRoundTrip(n, h.written[n].frags);
    }
  }

  // ---------------------------------------------------------------------------------
  // Listed durations
  // ---------------------------------------------------------------------------------

  lemma {:induction false} VideoEndsLast(samples: seq<Pending>, k: nat, start: int)
    requires Sorted(samples) && 0 < k <= |samples| && start <= samples[0].dts
    ensures VideoEndMs(samples, k, start)
         == if k < |samples| then samples[k].dts else samples[k - 1].dts + DEFAULT_VIDEO_FRAME_MS
  {
    if k > 1 {
      VideoEndsLast(samples, k - 1, start);
    }
  }

  lemma {:induction false} AudioEndsLast(samples: seq<Pending>, k: nat, frameMs: int, end: int)
    requires Sorted(samples) && 0 < k <= |samples|
    ensures AudioEndMs(samples, k, frameMs, end) == Max(end, samples[k - 1].dts + frameMs)
  {
    if k > 1 {
      AudioEndsLast(samples, k - 1, frameMs, end);
    }
  }

  /** Where a segment ends: its last video sample lasts a default frame, its last audio sample an AAC frame. */
  function EndMs(video: seq<Pending>, sound: seq<Pending>, frameMs: int): int
    requires video != [] || sound != []
  {
    if video == [] then sound[|sound| - 1].dts + frameMs
    else if sound == [] then video[|video| - 1].dts + DEFAULT_VIDEO_FRAME_MS
    else Max(video[|video| - 1].dts + DEFAULT_VIDEO_FRAME_MS, sound[|sound| - 1].dts + frameMs)
  }

  lemma DurationExact(h: Hls)
    requires Orderly(h) && HasSamples(h)
    ensures DurationMs(h) == EndMs(h.video, h.sound, AudioFrameMs(h.audio)) - Start(h.video, h.sound)
  {
    hide AudioFrameMs, VideoEndMs, AudioEndMs;
    FrameNotNegative(h.audio);
    var start, frame := Start(h.video, h.sound), AudioFrameMs(h.audio);
    NoneEnd(h.video, h.sound, frame, start);
    if h.video != [] {
      VideoEndsLast(h.video, |h.video|, start);
    }
    if h.sound != [] {
      AudioEndsLast(h.sound, |h.sound|, frame, VideoEndMs(h.video, |h.video|, start));
    }
  }

  lemma FrameNotNegative(audio: Option<AudioParams>)
    ensures AudioFrameMs(audio) >= 0
  {
  }

  lemma NoneEnd(video: seq<Pending>, sound: seq<Pending>, frameMs: int, end: int)
    ensures video == [] ==> VideoEndMs(video, |video|, end) == end
    ensures forall e :: sound == [] ==> AudioEndMs(sound, |sound|, frameMs, e) == e
  {
  }

  lemma SealLists(h: Hls)
    ensures Seal(h).window == h.window + [Entry(h.sequence, DurationMs(h))]
    ensures Seal(h).maxMs == Max(h.maxMs, DurationMs(h))
  {
  }

  lemma SlideLast(h: Hls, limit: nat)
    requires limit >= 1 && h.window != []
    ensures var w := Slide(h, limit).window; w != [] && w[|w| - 1] == h.window[|h.window| - 1]
  {
    hide Slide;
    SlideEffect(h, limit);
  }

  /** An AAC frame of 1024 samples in whole milliseconds, and 23 when no rate is known. */
  function FrameLength(audio: Option<AudioParams>): int {
    if audio.Some? && audio.value.sampleRate > 0 then 1024 * 1000 / audio.value.sampleRate else 23
  }

  /** The listed target: the least whole number of seconds, at least 1 and as configured, that covers every segment. */
  lemma TargetIsLeast(h: Hls, ended: bool, secs: nat)
    ensures var t := MakePlaylist(h, ended).target; t >= 1 && t >= h.targetSecs && t * 1000 >= h.maxMs
    ensures secs >= 1 && secs >= h.targetSecs && secs * 1000 >= h.maxMs ==> MakePlaylist(h, ended).target <= secs
  {
  }

  /** A closed segment is listed last, from its earliest sample to the end of its latest one. */
  lemma ClosedDuration(h: Hls)
    requires Orderly(h) && HasSamples(h)
    ensures var c := CloseSegment(h);
      && c.window != [] && c.window[|c.window| - 1].number == h.sequence
      && c.window[|c.window| - 1].durationMs
         == EndMs(h.video, h.sound, FrameLength(h.audio)) - Start(h.video, h.sound)
      && c.maxMs == Max(h.maxMs, c.window[|c.window| - 1].durationMs)
  {
    hide DurationMs, Slide, Seal, EnsureInit, EndMs, Start, Orderly;
    assert FrameLength(h.audio) == AudioFrameMs(h.audio);
    DurationExact(h);
    SealAfterInit(h);
    InitKeeps(h);
    SealLists(EnsureInit(h));
    SlideLast(Seal(EnsureInit(h)), Max(h.windowSize, 1));
    SlideKeeps(Seal(EnsureInit(h)), Max(h.windowSize, 1));
  }

  lemma {:induction false} SlideKeeps(h: Hls, limit: nat)
    ensures Slide(h, limit).maxMs == h.maxMs
    decreases |h.window|
  {
    if |h.window| > limit {
      var gone := h.window[0].number;
      SlideKeeps(h.(window := h.window[1..], store := h.store.(segments := h.store.segments - {gone})), limit);
    }
  }

  lemma InitKeeps(h: Hls)
    ensures EnsureInit(h).sequence == h.sequence && EnsureInit(h).windowSize == h.windowSize
    ensures EnsureInit(h).maxMs == h.maxMs
  {
  }

  // ---------------------------------------------------------------------------------
  // Segment numbers in file names
  // ---------------------------------------------------------------------------------

  function Digits(n: nat): (s: string)
    ensures s != []
    ensures forall i :: 0 <= i < |s| ==> '0' <= s[i] <= '9'
  {
    (if n < 10 then "" else Digits(n / 10)) + [('0' as int + n % 10) as char]
  }

  lemma {:induction false} DigitsInjective(a: nat, b: nat)
    requires Digits(a) == Digits(b)
    ensures a == b
    decreases a
  {
    var x, y := Digits(a), Digits(b);
    assert x[|x| - 1] == ('0' as int + a % 10) as char && y[|y| - 1] == ('0' as int + b % 10) as char;
    assert a % 10 == b % 10;
    assert x[..|x| - 1] == (if a < 10 then "" else Digits(a / 10));
    assert y[..|y| - 1] == (if b < 10 then "" else Digits(b / 10));
    if a >= 10 && b >= 10 {
      DigitsInjective(a / 10, b / 10);
    }
  }

  function SegmentName(prefix: string, n: nat): string {
    prefix + Digits(n) + ".m4s"
  }

  /** Two segments never share a file, so a file is as good as its number. */
  lemma NamesDiffer(prefix: string, a: nat, b: nat)
    requires SegmentName(prefix, a) == SegmentName(prefix, b)
    ensures a == b
  {
    var x, y := SegmentName(prefix, a), SegmentName(prefix, b);
    assert x[|prefix|..|x| - 4] == Digits(a);
    assert y[|prefix|..|y| - 4] == Digits(b);
    DigitsInjective(a, b);
  }
}
