/**
  The audio track of the segmenter: its fragments lie on a grid of whole AAC frames that never falls
  behind the times of the packets, and the longest segment listed is the longest there was.
 */
module HlsAudio {
  import opened Bytes
  import opened Media
  import opened Segmenter
  import opened HlsRuns
  import opened HlsCuts
  import opened HlsGrid
  import Mp4

  /** Samples at the track's rate up to a time in milliseconds. */
  function RateTicks(rate: nat, ms: int): int {
    ms * rate / 1000
  }

  /** Where the audio after some segments starts when it follows without a gap. */
  function AudioNext(written: seq<Written>, rate: nat): Option<int>
    decreases |written|, 0
  {
    if written == [] then None
    else
      var before, w := written[..|written| - 1], written[|written| - 1];
      if w.audio == [] then AudioNext(before, rate)
      else Some(AudioStart(before, w, rate) + 1024 * |w.audio|)
  }

  /** Where a segment's audio starts: at its first packet's time or where the audio before it ends, if later. */
  function AudioStart(before: seq<Written>, w: Written, rate: nat): int
    requires w.audio != []
    decreases |before|, 1
  {
    var due := RateTicks(rate, w.audio[0].dts);
    match AudioNext(before, rate)
    case None => due
    case Some(next) => Max(next, due)
  }

  /** Segment `k` carries its audio frame after frame from there on. */
  ghost predicate OnAudioGrid(written: seq<Written>, k: nat, rate: nat)
    requires k < |written|
  {
    var w := written[k];
    w.audio != [] ==>
      var f := FragmentOf(w.frags, AUDIO_TRACK_ID);
      && f.Some? && |f.value.samples| == |w.audio|
      && f.value.baseTime == AudioStart(written[..k], w, rate)
      && forall i :: 0 <= i < |w.audio| ==> DecodeTime(f.value, i) == f.value.baseTime + 1024 * i
  }

  /** The grid so far; without a rate no audio was taken. */
  ghost predicate Framed(h: Hls) {
    match h.audio
    case None => h.sound == [] && h.audioNext.None? && forall k :: 0 <= k < |h.written| ==> h.written[k].audio == []
    case Some(a) =>
      && (forall k :: 0 <= k < |h.written| ==> OnAudioGrid(h.written, k, a.sampleRate))
      && AudioNext(h.written, a.sampleRate) == if h.audioNext.None? then None else Some(h.audioNext.value)
  }

  lemma {:induction false} NoAudioNext(written: seq<Written>, rate: nat)
    requires forall k :: 0 <= k < |written| ==> written[k].audio == []
    ensures AudioNext(written, rate).None?
    decreases |written|
  {
    if written != [] {
      assert forall k :: 0 <= k < |written| - 1 ==> written[..|written| - 1][k] == written[k];
      NoAudioNext(written[..|written| - 1], rate);
    }
  }

  lemma {:induction false} FramesUpTo(samples: seq<Pending>, i: nat)
    requires i <= |samples|
    ensures TotalTicks(AudioSamples(samples)[..i]) == 1024 * i
  {
    hide TotalTicks;
    var all := AudioSamples(samples);
    if i == 0 {
      NoTicks();
    } else {
      FramesUpTo(samples, i - 1);
      assert all[..i][..i - 1] == all[..i - 1] && all[..i][i - 1] == all[i - 1];
      TotalStep(all[..i]);
    }
  }

  /** The audio of the segment being closed. */
  lemma AudioFound(h: Hls)
    requires h.sound != []
    ensures FragmentOf(Fragments(h), AUDIO_TRACK_ID) == Some(AudioFragment(h))
  {
    hide VideoSamples, AudioSamples, Base;
    if h.video == [] {
      assert Fragments(h) == [AudioFragment(h)];
    } else {
      assert Fragments(h) == [VideoFragment(h), AudioFragment(h)];
      assert Fragments(h)[1..] == [AudioFragment(h)];
    }
  }

  lemma NewAudio(h: Hls, rate: nat)
    requires Orderly(h) && h.sound != [] && h.audio.Some? && rate == h.audio.value.sampleRate
    requires AudioNext(h.written, rate) == if h.audioNext.None? then None else Some(h.audioNext.value)
    ensures var w := Written(h.video, h.sound, Fragments(h));
      var more := h.written + [w];
      && OnAudioGrid(more, |h.written|, rate)
      && AudioNext(more, rate) == Some(EndOf(AudioFragment(h)))
  {
    hide AudioSamples, TotalTicks, VideoFragment, FragmentOf;
    var w := Written(h.video, h.sound, Fragments(h));
    var more := h.written + [w];
    assert more[..|more| - 1] == h.written && more[..|h.written|] == h.written && more[|more| - 1] == w;
    AudioFound(h);
    var f := AudioFragment(h);
    AudioLength(h.sound);
    forall i | 0 <= i < |h.sound| ensures DecodeTime(f, i) == f.baseTime + 1024 * i {
      FramesUpTo(h.sound, i);
    }
    FramesUpTo(h.sound, |h.sound|);
    assert f.samples[..|h.sound|] == f.samples;
  }

  lemma AudioLength(samples: seq<Pending>)
    ensures |AudioSamples(samples)| == |samples|
  {
  }

  lemma GridStays(written: seq<Written>, w: Written, k: nat, rate: nat)
    requires k < |written|
    ensures OnAudioGrid(written + [w], k, rate) == OnAudioGrid(written, k, rate)
  {
    hide TotalTicks, FragmentOf, AudioStart;
    assert (written + [w])[..k] == written[..k];
  }

  lemma CloseFramed(h: Hls)
    requires Orderly(h) && Framed(h)
    ensures Framed(CloseSegment(h))
  {
    hide CloseSegment, DurationMs, Orderly, OnAudioGrid, EndOf, Fragments, AudioFragment, VideoFragment;
    if HasSamples(h) {
      CloseEffect(h);
      var w := Written(h.video, h.sound, Fragments(h));
      var more := h.written + [w];
      assert more[..|more| - 1] == h.written;
      if h.audio.Some? {
        var rate := h.audio.value.sampleRate;
        forall k | 0 <= k < |more| ensures OnAudioGrid(more, k, rate) {
          if k < |h.written| {
            GridStays(h.written, w, k, rate);
          } else if h.sound != [] {
            NewAudio(h, rate);
          } else {
            NoAudioHere(more, k, rate);
          }
        }
        if h.sound != [] {
          NewAudio(h, rate);
        }
      }
    } else {
      NothingToClose(h);
    }
  }

  lemma NoAudioHere(written: seq<Written>, k: nat, rate: nat)
    requires k < |written| && written[k].audio == []
    ensures OnAudioGrid(written, k, rate)
  {
  }

  /** The rate is fixed by the first configuration. */
  lemma ConfiguredFramed(h: Hls, n: Hls)
    requires Framed(h) && n == h.(audio := n.audio, avcc := n.avcc, sawVideo := n.sawVideo, started := n.started,
                                  clock := n.clock, finished := n.finished)
    requires h.audio.Some? ==> n.audio == h.audio
    ensures Framed(n)
  {
    hide OnAudioGrid;
    if h.audio.None? && n.audio.Some? {
      var rate := n.audio.value.sampleRate;
      NoAudioNext(h.written, rate);
      forall k | 0 <= k < |h.written| ensures OnAudioGrid(h.written, k, rate) {
        NoAudioHere(h.written, k, rate);
      }
    }
  }

  lemma CallFramed(h: Hls, c: Call)
    requires Orderly(h) && Framed(h)
    ensures Framed(Do(h, c))
  {
    hide CloseSegment, MakePlaylist, PutPacket, Clocked, Seen, Accepts, Cuts, Orderly, ParseAudioParams, Framed,
         SampleOf;
    match c
    case Codecs(avcc, asc) => ConfiguredFramed(h, Do(h, c));
    case FinishCall =>
      if !h.finished {
        ConfiguredFramed(h, h.(finished := true));
        FinishedOrderly(h);
        CloseFramed(h.(finished := true));
        PlaylistFramed(CloseSegment(h.(finished := true)));
      }
    case Packet(p) =>
      if h.finished {
        Ignored(h, p);
      } else {
        PacketShape(h, p);
        SeenEffect(h, p);
        ClockedKeeps(h, p);
        ClockedOrderly(h, p);
        ClockedAudio(h, p);
        ConfiguredFramed(h, Seen(h, p));
        ConfiguredFramed(h, Clocked(h, p));
        if Accepts(h, c) {
          TakeFramed(h, p);
        }
      }
  }

  lemma ClockedAudio(h: Hls, p: MediaPacket)
    ensures Clocked(h, p).audio == Seen(h, p).audio && Clocked(h, p).avcc == Seen(h, p).avcc
  {
    hide Seen, Normalize;
  }

  lemma PlaylistFramed(h: Hls)
    requires Framed(h)
    ensures Framed(WritePlaylist(h, true))
  {
    hide OnAudioGrid, MakePlaylist;
  }

  lemma TakeFramed(h: Hls, p: MediaPacket)
    requires !h.finished && Accepts(h, Packet(p)) && Orderly(Clocked(h, p)) && Framed(Clocked(h, p))
    ensures Framed(Take(Clocked(h, p), Cuts(h, p), p.kind, SampleOf(h, p)))
  {
    hide CloseSegment, OnAudioGrid, Orderly, SampleOf, Cuts, Normalize;
    var t := Clocked(h, p);
    CloseFramed(t);
    CloseKeepsAudio(t);
  }

  lemma CloseKeepsAudio(h: Hls)
    ensures CloseSegment(h).audio == h.audio
  {
    hide CloseSegment, Fragments, DurationMs, EndOf;
    if HasSamples(h) { CloseEffect(h); } else { NothingToClose(h); }
  }

  lemma {:induction false} RunFramed(h: Hls, calls: seq<Call>)
    requires Orderly(h) && Framed(h)
    ensures Framed(DoAll(h, calls))
    decreases |calls|
  {
    hide Do, Orderly, Framed;
    if calls != [] {
      CallOrderly(h, calls[0]);
      CallFramed(h, calls[0]);
      RunFramed(Do(h, calls[0]), calls[1..]);
    }
  }

  /**
    In every reachable state each segment's audio starts at the time of its first packet at the track's
    rate, or where the audio before it ends when that is later, and goes on frame after frame.
   */
  lemma AudioOnGrid(h: Hls, k: nat)
    requires Reachable(h) && k < |h.written|
    ensures h.audio.None? ==> h.written[k].audio == []
    ensures h.audio.Some? ==> OnAudioGrid(h.written, k, h.audio.value.sampleRate)
  {
    hide DoAll, OnAudioGrid, Orderly;
    var t: nat, w: nat, calls: seq<Call> :| h == DoAll(NewHls(t, w), calls);
    NewFramed(t, w);
    RunFramed(NewHls(t, w), calls);
  }

  lemma NewFramed(t: nat, w: nat)
    ensures Orderly(NewHls(t, w)) && Framed(NewHls(t, w))
  {
  }
}
