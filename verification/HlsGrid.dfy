/**
  The tick grid: where written samples decode. Within a segment every video sample sits at its
  millisecond time plus one lead; the lead follows a recurrence from segment to segment; and
  fragments of a track never overlap.
 */
module HlsGrid {
  import opened Bytes
  import opened Segmenter
  import opened HlsRuns
  import opened HlsCuts
  import Mp4

  const FRAME_TICKS := 2970

  /** When sample `i` of a fragment decodes, as a player adds it up. */
  function DecodeTime(f: Mp4.Fragment, i: nat): nat
    requires i <= |f.samples|
  {
    f.baseTime + TotalTicks(f.samples[..i])
  }

  // ---------------------------------------------------------------------------------
  // Inside one segment
  // ---------------------------------------------------------------------------------

  /** No gap inside the segment overflows a 32-bit sample duration. */
  predicate Unclamped(samples: seq<Pending>, n: nat)
    requires n <= |samples|
  {
    forall i :: 0 < i < n ==> 90 * (samples[i].dts - samples[i - 1].dts) < TWO_32
  }

  lemma {:induction false} TicksUpTo(samples: seq<Pending>, i: nat)
    requires Sorted(samples) && i < |samples|
    ensures TotalTicks(VideoSamples(samples)[..i]) <= 90 * (samples[i].dts - samples[0].dts)
    ensures TotalTicks(VideoSamples(samples)[..i]) == 90 * (samples[i].dts - samples[0].dts)
       <==> Unclamped(samples, i + 1)
  {
    hide SampleFlags, AsI32, TotalTicks;
    var all := VideoSamples(samples);
    if i == 0 {
      NoTicks();
    } else {
      TicksUpTo(samples, i - 1);
      assert all[..i][..i - 1] == all[..i - 1] && all[..i][i - 1] == all[i - 1];
      TotalStep(all[..i]);
      assert all[i - 1].duration == Min(90 * (samples[i].dts - samples[i - 1].dts), TWO_32 - 1);
    }
  }

  lemma WholeTicks(samples: seq<Pending>)
    requires Sorted(samples) && samples != [] && Unclamped(samples, |samples|)
    ensures TotalTicks(VideoSamples(samples)) == 90 * (samples[|samples| - 1].dts - samples[0].dts) + FRAME_TICKS
  {
    hide SampleFlags, AsI32, TotalTicks;
    var n := |samples| - 1;
    TicksUpTo(samples, n);
    var all := VideoSamples(samples);
    assert all[n].duration == 90 * DEFAULT_VIDEO_FRAME_MS;
    assert TotalTicks(all) == TotalTicks(all[..n]) + all[n].duration by { TotalStep(all); }
  }

  lemma NoTicks()
    ensures TotalTicks([]) == 0
  {
  }

  lemma TotalStep(samples: seq<Mp4.Sample>)
    requires samples != []
    ensures TotalTicks(samples) == TotalTicks(samples[..|samples| - 1]) + samples[|samples| - 1].duration
  {
  }

  // ---------------------------------------------------------------------------------
  // From segment to segment
  // ---------------------------------------------------------------------------------

  /** Decode time in milliseconds of the last video sample written. */
  function LastVideo(written: seq<Written>): Option<int> {
    if written == [] then None
    else
      var w := written[|written| - 1];
      if w.video == [] then LastVideo(written[..|written| - 1]) else Some(w.video[|w.video| - 1].dts)
  }

  /** How far the grid runs ahead of the millisecond times in the newest segment with video. */
  function Lead(written: seq<Written>): nat {
    if written == [] then 0
    else
      var before, w := written[..|written| - 1], written[|written| - 1];
      if w.video == [] then Lead(before)
      else
        match LastVideo(before)
        case None => 0
        case Some(last) => Max(0, Lead(before) + FRAME_TICKS - 90 * (w.video[0].dts - last))
  }

  predicate Smooth(written: seq<Written>) {
    forall k :: 0 <= k < |written| ==> Unclamped(written[k].video, |written[k].video|)
  }

  /** Segment `k` carries its video samples at their times plus the lead. */
  ghost predicate OnGrid(written: seq<Written>, k: nat)
    requires k < |written|
  {
    var w := written[k];
    w.video != [] ==>
      && w.frags != [] && w.frags[0].trackId == VIDEO_TRACK_ID && |w.frags[0].samples| == |w.video|
      && forall i :: 0 <= i < |w.video| ==> DecodeTime(w.frags[0], i) == 90 * w.video[i].dts + Lead(written[..k + 1])
  }

  function GridNext(written: seq<Written>): Option<int> {
    match LastVideo(written)
    case None => None
    case Some(last) => Some(90 * last + Lead(written) + FRAME_TICKS)
  }

  ghost predicate Gridded(h: Hls) {
    Smooth(h.written) ==>
      && (forall k :: 0 <= k < |h.written| ==> OnGrid(h.written, k))
      && NextIs(h.videoNext, h.written)
  }

  /** The fragment about to be written starts on the grid. */
  lemma NextBase(h: Hls, w: Written)
    requires Orderly(h) && h.video != [] && w == Written(h.video, h.sound, Fragments(h))
    requires NextIs(h.videoNext, h.written)
    ensures VideoFragment(h).baseTime == 90 * h.video[0].dts + Lead(h.written + [w])
    ensures LastVideo(h.written + [w]) == Some(h.video[|h.video| - 1].dts)
  {
    hide VideoSamples, AudioSamples;
    var more := h.written + [w];
    assert more[..|more| - 1] == h.written;
    assert VideoTicks(h.video[0].dts) == 90 * h.video[0].dts;
  }

  lemma GridFragment(h: Hls, lead: int)
    requires Orderly(h) && h.video != [] && Unclamped(h.video, |h.video|)
    requires VideoFragment(h).baseTime == 90 * h.video[0].dts + lead
    ensures |VideoFragment(h).samples| == |h.video|
    ensures forall i :: 0 <= i < |h.video| ==> DecodeTime(VideoFragment(h), i) == 90 * h.video[i].dts + lead
    ensures EndOf(VideoFragment(h)) == 90 * h.video[|h.video| - 1].dts + lead + FRAME_TICKS
  {
    hide VideoSample, TotalTicks, Base;
    forall i | 0 <= i < |h.video|
      ensures DecodeTime(VideoFragment(h), i) == 90 * h.video[i].dts + lead
    {
      TicksUpTo(h.video, i);
    }
    WholeTicks(h.video);
  }

  lemma OnGridPrefix(written: seq<Written>, w: Written, k: nat)
    requires k < |written|
    ensures OnGrid(written + [w], k) == OnGrid(written, k)
  {
    hide Lead, TotalTicks;
    assert (written + [w])[..k + 1] == written[..k + 1];
  }

  ghost predicate NextIs(next: Option<nat>, written: seq<Written>) {
    if next.None? then GridNext(written).None? else GridNext(written) == Some(next.value)
  }

  /** The segment being closed lands on the grid, and the next free tick moves behind it. */
  lemma NewOnGrid(h: Hls, w: Written)
    requires Orderly(h) && HasSamples(h) && w == Written(h.video, h.sound, Fragments(h))
    requires Unclamped(h.video, |h.video|) && NextIs(h.videoNext, h.written)
    ensures OnGrid(h.written + [w], |h.written|)
    ensures NextIs(if h.video == [] then h.videoNext else Some(EndOf(VideoFragment(h))), h.written + [w])
  {
    hide VideoFragment, AudioFragment, DecodeTime, EndOf, Orderly;
    var more := h.written + [w];
    assert more[..|more|] == more && more[..|more| - 1] == h.written && more[|more| - 1] == w;
    if h.video != [] {
      NextBase(h, w);
      GridFragment(h, Lead(more));
      FragmentTrack(h);
    }
  }

  lemma FragmentTrack(h: Hls)
    requires h.video != []
    ensures VideoFragment(h).trackId == VIDEO_TRACK_ID
  {
  }

  lemma CloseGridded(h: Hls)
    requires Orderly(h) && Gridded(h)
    ensures Gridded(CloseSegment(h))
  {
    hide CloseSegment, DurationMs, Orderly, OnGrid, NextIs, EndOf, Fragments, Unclamped;
    if HasSamples(h) {
      CloseEffect(h);
      var w := Written(h.video, h.sound, Fragments(h));
      var more := h.written + [w];
      if Smooth(more) {
        assert forall k :: 0 <= k < |h.written| ==> more[k] == h.written[k];
        forall k | 0 <= k < |more| ensures OnGrid(more, k) {
          if k < |h.written| {
            OnGridPrefix(h.written, w, k);
          } else {
            assert more[k] == w;
            NewOnGrid(h, w);
          }
        }
        assert more[|h.written|] == w;
        NewOnGrid(h, w);
      }
    } else {
      NothingToClose(h);
    }
  }

  lemma CallGridded(h: Hls, c: Call)
    requires Orderly(h) && Gridded(h)
    ensures Gridded(Do(h, c))
  {
    hide CloseSegment, MakePlaylist, PutPacket, Smooth, OnGrid, NextIs, Clocked, SampleOf, Seen, Accepts, Cuts,
         Orderly;
    match c
    case Codecs(_, _) =>
    case FinishCall =>
      assert Orderly(h.(finished := true)) by { FinishedOrderly(h); }
      CloseGridded(h.(finished := true));
    case Packet(p) =>
      if h.finished {
        Ignored(h, p);
      } else {
        PacketShape(h, p);
        SeenEffect(h, p);
        ClockedKeeps(h, p);
        ClockedOrderly(h, p);
        CloseGridded(Clocked(h, p));
      }
  }

  lemma FinishedOrderly(h: Hls)
    requires Orderly(h)
    ensures Orderly(h.(finished := true))
  {
  }

  lemma {:induction false} RunGridded(h: Hls, calls: seq<Call>)
    requires Orderly(h) && Spanning(h) && Gridded(h)
    ensures Gridded(DoAll(h, calls))
    decreases |calls|
  {
    hide Do, Orderly, Spanning, Gridded;
    if calls != [] {
      CallOrderly(h, calls[0]);
      CallSpanning(h, calls[0]);
      CallGridded(h, calls[0]);
      RunGridded(Do(h, calls[0]), calls[1..]);
    }
  }

  lemma NewGridded(t: nat, w: nat)
    ensures Orderly(NewHls(t, w)) && Spanning(NewHls(t, w)) && Gridded(NewHls(t, w))
  {
  }

  /**
    Over any run without a clamped duration, every written video sample decodes at exactly its
    normalized time in 90 kHz ticks plus its segment's lead; `Lead` is the recurrence.
   */
  lemma VideoOnGrid(h: Hls, k: nat)
    requires Reachable(h) && Smooth(h.written) && k < |h.written|
    ensures OnGrid(h.written, k)
  {
    hide DoAll, NewHls, OnGrid, Smooth, Orderly, Spanning;
    var t: nat, w: nat, calls: seq<Call> :| h == DoAll(NewHls(t, w), calls);
    NewGridded(t, w);
    RunGridded(NewHls(t, w), calls);
  }

  /** Each segment's first video sample comes at least one default frame after the previous video sample. */
  ghost predicate Spaced(written: seq<Written>) {
    forall k :: 0 <= k < |written| && written[k].video != [] && LastVideo(written[..k]).Some? ==>
      written[k].video[0].dts - LastVideo(written[..k]).value >= DEFAULT_VIDEO_FRAME_MS
  }

  /** With such gaps the grid never runs ahead. */
  lemma {:induction false} NoLead(written: seq<Written>)
    requires Spaced(written)
    ensures Lead(written) == 0
    decreases |written|
  {
    if written != [] {
      var n := |written| - 1;
      assert forall k :: 0 <= k < n ==> written[..n][k] == written[k] && written[..n][..k] == written[..k];
      NoLead(written[..n]);
      assert written[n].video != [] && LastVideo(written[..n]).Some? ==>
        written[n].video[0].dts - LastVideo(written[..n]).value >= DEFAULT_VIDEO_FRAME_MS;
    }
  }

  // ---------------------------------------------------------------------------------
  // Fragments of a track never overlap
  // ---------------------------------------------------------------------------------

  function FragmentOf(frags: seq<Mp4.Fragment>, track: nat): Option<Mp4.Fragment> {
    if frags == [] then None
    else if frags[0].trackId == track then Some(frags[0])
    else FragmentOf(frags[1..], track)
  }

  ghost predicate Disjoint(written: seq<Written>, track: nat) {
    forall j, k :: 0 <= j < k < |written| ==>
      Before(FragmentOf(written[j].frags, track), FragmentOf(written[k].frags, track))
  }

  predicate Before(f: Option<Mp4.Fragment>, g: Option<Mp4.Fragment>) {
    f.Some? && g.Some? ==> EndOf(f.value) <= g.value.baseTime
  }

  ghost predicate EndsBy(written: seq<Written>, track: nat, next: Option<nat>) {
    forall k :: 0 <= k < |written| ==> EndedBy(FragmentOf(written[k].frags, track), next)
  }

  predicate EndedBy(f: Option<Mp4.Fragment>, next: Option<nat>) {
    f.Some? ==> next.Some? && EndOf(f.value) <= next.value
  }

  function NextOf(h: Hls, track: nat): Option<nat> {
    if track == VIDEO_TRACK_ID then h.videoNext else h.audioNext
  }

  ghost predicate Apart(h: Hls, track: nat) {
    Disjoint(h.written, track) && EndsBy(h.written, track, NextOf(h, track))
  }

  lemma FragmentsOfBoth(h: Hls)
    ensures FragmentOf(Fragments(h), VIDEO_TRACK_ID) == if h.video == [] then None else Some(VideoFragment(h))
    ensures FragmentOf(Fragments(h), AUDIO_TRACK_ID) == if h.sound == [] then None else Some(AudioFragment(h))
  {
    hide VideoSamples, AudioSamples, Base, VideoTicks, AudioTicks;
    if h.video != [] {
      assert Fragments(h)[1..] == if h.sound == [] then [] else [AudioFragment(h)];
    }
  }

  lemma StartsAtNext(h: Hls)
    ensures h.video != [] ==> Base(h.videoNext, 0) <= VideoFragment(h).baseTime <= EndOf(VideoFragment(h))
    ensures h.sound != [] ==> Base(h.audioNext, 0) <= AudioFragment(h).baseTime <= EndOf(AudioFragment(h))
  {
    hide VideoSamples, AudioSamples, TotalTicks, VideoTicks, AudioTicks;
  }

  lemma CloseApart(h: Hls, track: nat)
    requires ATrack(track) && Apart(h, track)
    ensures Apart(CloseSegment(h), track)
  {
    hide CloseSegment, DurationMs, EndOf, Fragments, FragmentOf, VideoFragment, AudioFragment;
    if HasSamples(h) {
      CloseEffect(h);
      FragmentsOfBoth(h);
      StartsAtNext(h);
    } else {
      NothingToClose(h);
    }
  }

  lemma CallApart(h: Hls, c: Call, track: nat)
    requires ATrack(track) && Apart(h, track)
    ensures Apart(Do(h, c), track)
  {
    hide CloseSegment, MakePlaylist, PutPacket, Disjoint, EndsBy, Clocked, SampleOf, Seen, Accepts, Cuts;
    match c
    case Codecs(_, _) =>
    case FinishCall => CloseApart(h.(finished := true), track);
    case Packet(p) =>
      if h.finished {
        Ignored(h, p);
      } else {
        PacketShape(h, p);
        SeenEffect(h, p);
        ClockedKeeps(h, p);
        CloseApart(Clocked(h, p), track);
      }
  }

  lemma {:induction false} RunApart(h: Hls, calls: seq<Call>, track: nat)
    requires ATrack(track) && Apart(h, track)
    ensures Apart(DoAll(h, calls), track)
    decreases |calls|
  {
    hide Do, Apart;
    if calls != [] {
      CallApart(h, calls[0], track);
      RunApart(Do(h, calls[0]), calls[1..], track);
    }
  }

  /** In every run, whatever the timestamps do, a track's later fragment starts at or after an earlier one's end. */
  lemma FragmentsNeverOverlap(h: Hls, track: nat)
    requires Reachable(h) && ATrack(track)
    ensures Disjoint(h.written, track)
  {
    hide DoAll, Disjoint, EndsBy;
    var t: nat, w: nat, calls: seq<Call> :| h == DoAll(NewHls(t, w), calls);
    NewApart(t, w, track);
    RunApart(NewHls(t, w), calls, track);
  }

  lemma NewApart(t: nat, w: nat, track: nat)
    ensures Apart(NewHls(t, w), track)
  {
  }
}
