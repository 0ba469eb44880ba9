/**
  The stream clock over whole runs: which time every sample has, told from the packets' own decode
  times, and what the span of an open segment means.
 */
module HlsTimes {
  import opened Bytes
  import opened Media
  import opened Segmenter
  import opened HlsRuns
  import opened HlsCuts

  /** The decode time that counts as now, and how far the stream has come. */
  datatype Hand = Hand(mark: Option<int>, at: int)

  const START := Hand(None, 0)

  /** Time moves with the input; up to 100 ms back it waits, and after a longer jump it goes on from there. */
  function Moved(c: Hand, dts: int): Hand {
    if c.mark.None? then Hand(Some(dts), 0)
    else if dts >= c.mark.value then Hand(Some(dts), c.at + (dts - c.mark.value))
    else if dts >= c.mark.value - 100 then c
    else Hand(Some(dts), c.at)
  }

  function HandOf(c: Clock): Hand {
    if c.origin.Some? && c.last.Some? then Hand(Some(c.origin.value + c.last.value), c.last.value) else START
  }

  lemma ClockMoves(c: Clock, dts: int)
    requires Ticking(c)
    ensures var (d, ts) := Normalize(c, dts);
      Ticking(d) && HandOf(d) == Moved(HandOf(c), dts) && ts == Moved(HandOf(c), dts).at
  {
  }

  function HandsAt(c: Hand, raw: seq<int>): seq<int>
    decreases |raw|
  {
    if raw == [] then [] else var n := Moved(c, raw[0]); [n.at] + HandsAt(n, raw[1..])
  }

  /** Input in order keeps its distances. */
  lemma {:induction false} InOrderTimes(c: Hand, raw: seq<int>)
    requires forall i, j :: 0 <= i < j < |raw| ==> raw[i] <= raw[j]
    requires c.mark.Some? ==> raw == [] || c.mark.value <= raw[0]
    ensures |HandsAt(c, raw)| == |raw|
    ensures forall i :: 0 <= i < |raw| ==>
      HandsAt(c, raw)[i] == if c.mark.Some? then c.at + (raw[i] - c.mark.value) else raw[i] - raw[0]
    decreases |raw|
  {
    if raw != [] {
      InOrderTimes(Moved(c, raw[0]), raw[1..]);
      forall i | 0 <= i < |raw|
        ensures HandsAt(c, raw)[i] == if c.mark.Some? then c.at + (raw[i] - c.mark.value) else raw[i] - raw[0]
      {
        if i > 0 {
          assert raw[1..][i - 1] == raw[i];
        }
      }
    }
  }

  // ---------------------------------------------------------------------------------
  // Over runs
  // ---------------------------------------------------------------------------------

  function Stamps(samples: seq<Pending>): seq<int> {
    seq(|samples|, i requires 0 <= i < |samples| => samples[i].dts)
  }

  function OfTrack(w: Written, track: nat): seq<Pending> {
    if track == VIDEO_TRACK_ID then w.video else w.audio
  }

  function WrittenStamps(written: seq<Written>, track: nat): seq<int> {
    if written == [] then []
    else WrittenStamps(written[..|written| - 1], track) + Stamps(OfTrack(written[|written| - 1], track))
  }

  /** The times of a track's samples, those written and then those that wait. */
  function AllStamps(h: Hls, track: nat): seq<int> {
    WrittenStamps(h.written, track) + Stamps(if track == VIDEO_TRACK_ID then h.video else h.sound)
  }

  /** The times that the packets taken must get: both tracks move one clock. */
  function InputTimes(h: Hls, c: Hand, calls: seq<Call>, track: nat): seq<int>
    decreases |calls|
  {
    if calls == [] then []
    else if !Accepts(h, calls[0]) then InputTimes(Do(h, calls[0]), c, calls[1..], track)
    else
      var n := Moved(c, calls[0].p.dts);
      (if TrackId(calls[0].p.kind) == track then [n.at] else [])
      + InputTimes(Do(h, calls[0]), n, calls[1..], track)
  }

  lemma CloseStamps(h: Hls, track: nat)
    ensures AllStamps(CloseSegment(h), track) == AllStamps(h, track) && CloseSegment(h).clock == h.clock
  {
    hide CloseSegment, Fragments, DurationMs, EndOf, Stamps;
    if HasSamples(h) {
      CloseEffect(h);
      var more := h.written + [Written(h.video, h.sound, Fragments(h))];
      assert more[..|more| - 1] == h.written;
      NoStamps();
    } else {
      NothingToClose(h);
    }
  }

  lemma NoStamps()
    ensures Stamps([]) == []
  {
  }

  lemma StampsSnoc(samples: seq<Pending>, s: Pending)
    ensures Stamps(samples + [s]) == Stamps(samples) + [s.dts]
  {
  }

  lemma PushStamps(h: Hls, kind: MediaKind, s: Pending, track: nat)
    requires ATrack(track)
    ensures var u := if kind == Video then PushVideo(h, s) else PushAudio(h, s);
      && AllStamps(u, track) == AllStamps(h, track) + (if TrackId(kind) == track then [s.dts] else [])
      && u.clock == h.clock
  {
    hide Stamps, WrittenStamps;
    StampsSnoc(if kind == Video then h.video else h.sound, s);
    SameStamps(h, track);
    Joined(WrittenStamps(h.written, track), Stamps(if track == VIDEO_TRACK_ID then h.video else h.sound), [s.dts]);
  }

  lemma Joined(a: seq<int>, b: seq<int>, c: seq<int>)
    ensures a + (b + c) == a + b + c
  {
  }

  lemma TakeStamps(h: Hls, cut: bool, kind: MediaKind, s: Pending, track: nat)
    requires ATrack(track)
    ensures AllStamps(Take(h, cut, kind, s), track)
         == AllStamps(h, track) + if TrackId(kind) == track then [s.dts] else []
    ensures Take(h, cut, kind, s).clock == h.clock
  {
    hide CloseSegment, AllStamps, PushVideo, PushAudio;
    CloseStamps(h, track);
    PushStamps(if cut then CloseSegment(h) else h, kind, s, track);
  }

  lemma CallStamps(h: Hls, c: Call, track: nat)
    requires ATrack(track) && Ticking(h.clock)
    ensures var n, moved := Do(h, c), Moved(HandOf(h.clock), if c.Packet? then c.p.dts else 0);
      && (Accepts(h, c) ==> c.Packet?)
      && Ticking(n.clock) && HandOf(n.clock) == (if Accepts(h, c) then moved else HandOf(h.clock))
      && AllStamps(n, track)
         == AllStamps(h, track) + if Accepts(h, c) && TrackId(c.p.kind) == track then [moved.at] else []
  {
    hide CloseSegment, MakePlaylist, PutPacket, Normalize, AllStamps, Moved, HandOf, Ticking, Take, Seen, VideoPayload,
         StripAdts, Cuts;
    SameStamps(h, track);
    match c
    case Codecs(_, _) =>
      StampsOnly(h, Do(h, c), track);
    case FinishCall =>
      if !h.finished {
        var f := h.(finished := true);
        StampsOnly(h, f, track);
        CloseStamps(f, track);
        StampsOnly(CloseSegment(f), Do(h, c), track);
      }
    case Packet(p) =>
      if h.finished {
        Ignored(h, p);
      } else {
        PacketShape(h, p);
        SeenEffect(h, p);
        StampsOnly(h, Seen(h, p), track);
        if Accepts(h, c) {
          ClockMoves(h.clock, p.dts);
          ClockedKeeps(h, p);
          StampsOnly(h, Clocked(h, p), track);
          TakeStamps(Clocked(h, p), Cuts(h, p), p.kind, SampleOf(h, p), track);
        }
      }
  }

  lemma StampsOnly(h: Hls, n: Hls, track: nat)
    requires n.written == h.written && n.video == h.video && n.sound == h.sound
    ensures AllStamps(n, track) == AllStamps(h, track)
  {
  }

  lemma SameStamps(h: Hls, track: nat)
    ensures AllStamps(h, track) + [] == AllStamps(h, track)
  {
  }

  lemma {:induction false} StampsGrow(h: Hls, calls: seq<Call>, track: nat)
    requires ATrack(track) && Ticking(h.clock)
    ensures AllStamps(DoAll(h, calls), track)
         == AllStamps(h, track) + InputTimes(h, HandOf(h.clock), calls, track)
    decreases |calls|
  {
    hide Do, AllStamps, Accepts, HandOf, Moved, Ticking;
    SameStamps(h, track);
    if calls != [] {
      var c, n := calls[0], Do(h, calls[0]);
      CallStamps(h, c, track);
      StampsGrow(n, calls[1..], track);
      if Accepts(h, c) {
        var at := Moved(HandOf(h.clock), c.p.dts).at;
        Joined(AllStamps(h, track), if TrackId(c.p.kind) == track then [at] else [],
               InputTimes(n, HandOf(n.clock), calls[1..], track));
      }
    }
  }

  /**
    Over any run from a new output, the samples of each track that were written and then those that
    wait have the times that the decode times of the accepted packets, of both tracks, prescribe.
   */
  lemma TimesRefineInput(targetSecs: nat, windowSize: nat, calls: seq<Call>, track: nat)
    requires ATrack(track)
    ensures var h := NewHls(targetSecs, windowSize);
      AllStamps(DoAll(h, calls), track) == InputTimes(h, START, calls, track)
  {
    hide DoAll, InputTimes;
    StampsGrow(NewHls(targetSecs, windowSize), calls, track);
  }

  // ---------------------------------------------------------------------------------
  // The span of a segment
  // ---------------------------------------------------------------------------------

  /** The open segment is due when a sample of either track lies the target behind the earliest one. */
  lemma SpanIs(h: Hls)
    requires Orderly(h) && HasSamples(h)
    ensures SpanMs(h) >= TargetMs(h) <==>
      exists s :: s in h.video + h.sound && s.dts >= Start(h.video, h.sound) + 1000 * h.targetSecs
  {
    var newest := if h.video == [] then h.sound[|h.sound| - 1]
                  else if h.sound == [] || h.sound[|h.sound| - 1].dts <= h.video[|h.video| - 1].dts
                  then h.video[|h.video| - 1] else h.sound[|h.sound| - 1];
    assert newest in h.video + h.sound;
    NewestLast(h.video);
    NewestLast(h.sound);
    assert SpanMs(h) == newest.dts - Start(h.video, h.sound);
  }

  lemma NewestLast(samples: seq<Pending>)
    requires Sorted(samples)
    ensures forall s :: s in samples ==> s.dts <= samples[|samples| - 1].dts
  {
  }
}
