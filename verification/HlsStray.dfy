/**
  Audio cuts and stray video: a video packet is noticed before any gate looks at it, and from then on
  audio never cuts a segment again, whether or not that packet, or any other video, is ever taken.
 */
module HlsStray {
  import opened Bytes
  import opened Media
  import opened Segmenter
  import opened HlsRuns
  import opened HlsCuts

  /** An audio packet that is taken when the open segment spans the target. */
  predicate Due(h: Hls, c: Call) {
    Accepts(h, c) && c.p.kind == Audio && HasSamples(h) && SpanMs(h) >= TargetMs(h)
  }

  /** A video keyframe that is taken. */
  predicate Keyed(h: Hls, c: Call) {
    Accepts(h, c) && c.p.kind == Video && c.p.isKey
  }

  lemma CloseWrites(h: Hls)
    requires HasSamples(h)
    ensures CloseSegment(h).written == h.written + [Written(h.video, h.sound, Fragments(h))]
  {
    hide CloseSegment, Fragments, DurationMs, EndOf;
    CloseEffect(h);
  }

  /** Short of finishes and video keyframes a call writes a segment exactly when audio is due and no video was seen. */
  lemma CallWrites(h: Hls, c: Call)
    requires !c.FinishCall? && !Keyed(h, c)
    ensures if Due(h, c) && !h.sawVideo then |Do(h, c).written| == |h.written| + 1 && h.written <= Do(h, c).written
            else Do(h, c).written == h.written
  {
    hide CloseSegment, PutPacket, Normalize, Fragments, VideoPayload, StripAdts, Seen;
    if c.Packet? {
      if h.finished {
        Ignored(h, c.p);
      } else {
        PacketShape(h, c.p);
        SeenEffect(h, c.p);
        ClockedKeeps(h, c.p);
        SameSpan(h, Clocked(h, c.p));
        if Cuts(h, c.p) {
          CloseWrites(Clocked(h, c.p));
        }
      }
    }
  }

  lemma SameSpan(h: Hls, t: Hls)
    requires t.video == h.video && t.sound == h.sound && t.segStart == h.segStart && t.targetSecs == h.targetSecs
    ensures HasSamples(t) == HasSamples(h) && SpanMs(t) == SpanMs(h) && TargetMs(t) == TargetMs(h)
  {
  }

  /** An audio packet that is due cuts exactly when no video packet was ever seen. */
  lemma AudioCutsWithoutVideo(h: Hls, p: MediaPacket)
    requires Due(h, Packet(p))
    ensures Do(h, Packet(p)).written != h.written <==> !h.sawVideo
  {
    hide Due, Do;
    AudioIsNoKey(h, p);
    CallWrites(h, Packet(p));
  }

  lemma AudioIsNoKey(h: Hls, p: MediaPacket)
    requires Due(h, Packet(p))
    ensures !Keyed(h, Packet(p))
  {
  }

  /** A video packet that is taken cuts exactly when it is a keyframe and the open segment spans the target. */
  lemma KeyframesCut(h: Hls, p: MediaPacket)
    requires Accepts(h, Packet(p)) && p.kind == Video
    ensures Do(h, Packet(p)).written != h.written <==> p.isKey && HasSamples(h) && SpanMs(h) >= TargetMs(h)
  {
    hide CloseSegment, PutPacket, Normalize, Fragments, VideoPayload, StripAdts, Seen, Accepts, SpanMs;
    TakenIsOpen(h, p);
    PacketShape(h, p);
    SeenEffect(h, p);
    ClockedKeeps(h, p);
    SameSpan(h, Clocked(h, p));
    if Cuts(h, p) {
      CloseWrites(Clocked(h, p));
    }
  }

  lemma TakenIsOpen(h: Hls, p: MediaPacket)
    requires Accepts(h, Packet(p))
    ensures !h.finished
  {
  }

  // ---------------------------------------------------------------------------------
  // Runs
  // ---------------------------------------------------------------------------------

  /** Neither a finish nor a video keyframe that is taken. */
  predicate Unkeyed(h: Hls, calls: seq<Call>)
    decreases |calls|
  {
    calls != [] ==> !calls[0].FinishCall? && !Keyed(h, calls[0]) && Unkeyed(Do(h, calls[0]), calls[1..])
  }

  /** Whenever audio is due, video was seen before. */
  predicate VideoBeforeDue(h: Hls, calls: seq<Call>)
    decreases |calls|
  {
    calls != [] ==> (Due(h, calls[0]) ==> h.sawVideo) && VideoBeforeDue(Do(h, calls[0]), calls[1..])
  }

  /** In such a run nothing more is written exactly when video was seen before any audio was due. */
  lemma {:induction false} UnkeyedWrites(h: Hls, calls: seq<Call>)
    requires Unkeyed(h, calls)
    ensures h.written <= DoAll(h, calls).written
    ensures DoAll(h, calls).written == h.written <==> VideoBeforeDue(h, calls)
    decreases |calls|
  {
    hide Do, Due, Keyed;
    if calls != [] {
      CallWrites(h, calls[0]);
      UnkeyedWrites(Do(h, calls[0]), calls[1..]);
    }
  }

  lemma VideoStaysSeen(h: Hls, c: Call)
    requires h.sawVideo
    ensures Do(h, c).sawVideo
  {
    hide CloseSegment, PutPacket, Seen, Normalize, SampleOf, MakePlaylist, Fragments;
    match c
    case Codecs(_, _) =>
    case FinishCall =>
      if !h.finished {
        CloseKeepsVideo(h.(finished := true));
      }
    case Packet(p) =>
      if h.finished {
        Ignored(h, p);
      } else {
        PacketShape(h, p);
        SeenEffect(h, p);
        ClockedKeeps(h, p);
        CloseKeepsVideo(Clocked(h, p));
      }
  }

  lemma CloseKeepsVideo(h: Hls)
    ensures CloseSegment(h).sawVideo == h.sawVideo
  {
    hide CloseSegment, Fragments, DurationMs, EndOf;
    if HasSamples(h) { CloseEffect(h); } else { NothingToClose(h); }
  }

  lemma {:induction false} SeenBeforeDue(h: Hls, calls: seq<Call>)
    requires h.sawVideo
    ensures VideoBeforeDue(h, calls)
    decreases |calls|
  {
    hide Do, Due;
    if calls != [] {
      VideoStaysSeen(h, calls[0]);
      SeenBeforeDue(Do(h, calls[0]), calls[1..]);
    }
  }

  /** Once any video packet was seen nothing is written until a finish or a video keyframe that is taken. */
  lemma SeenVideoEndsCuts(h: Hls, calls: seq<Call>)
    requires h.sawVideo && Unkeyed(h, calls)
    ensures DoAll(h, calls).written == h.written
  {
    hide DoAll, Unkeyed, VideoBeforeDue;
    SeenBeforeDue(h, calls);
    UnkeyedWrites(h, calls);
  }

  // ---------------------------------------------------------------------------------
  // Behind an init segment without video
  // ---------------------------------------------------------------------------------

  predicate Finishes(calls: seq<Call>) {
    exists i :: 0 <= i < |calls| && calls[i].FinishCall?
  }

  /** The init segment is out and has no video track. */
  predicate AudioOnly(h: Hls) {
    h.initWritten && !h.initHasVideo
  }

  lemma StaysAudioOnly(h: Hls, c: Call)
    requires AudioOnly(h) && !c.FinishCall?
    ensures AudioOnly(Do(h, c)) && !Keyed(h, c)
  {
    hide CloseSegment, PutPacket, Seen, Normalize, SampleOf, Fragments, DurationMs, EndOf, AnnexBToAvcc;
    if c.Packet? {
      if h.finished {
        Ignored(h, c.p);
      } else {
        PacketShape(h, c.p);
        SeenEffect(h, c.p);
        ClockedKeeps(h, c.p);
        var t := Clocked(h, c.p);
        if HasSamples(t) { CloseEffect(t); } else { NothingToClose(t); }
      }
    }
  }

  lemma {:induction false} NeverKeyed(h: Hls, calls: seq<Call>)
    requires AudioOnly(h) && !Finishes(calls)
    ensures Unkeyed(h, calls)
    decreases |calls|
  {
    hide Do, AudioOnly, Keyed;
    if calls != [] {
      assert !calls[0].FinishCall?;
      StaysAudioOnly(h, calls[0]);
      assert forall i :: 0 <= i < |calls[1..]| ==> calls[1..][i] == calls[i + 1];
      NeverKeyed(Do(h, calls[0]), calls[1..]);
    }
  }

  /**
    Behind an init segment without a video track every video packet is dropped, and yet up to the finish
    nothing more is written exactly when one was seen before any audio was due.
   */
  lemma StrayVideoEndsCuts(h: Hls, calls: seq<Call>)
    requires AudioOnly(h) && !Finishes(calls)
    ensures DoAll(h, calls).written == h.written <==> VideoBeforeDue(h, calls)
    ensures h.sawVideo ==> VideoBeforeDue(h, calls)
  {
    hide DoAll, Unkeyed, VideoBeforeDue, Finishes;
    NeverKeyed(h, calls);
    UnkeyedWrites(h, calls);
    if h.sawVideo {
      SeenBeforeDue(h, calls);
    }
  }

  // ---------------------------------------------------------------------------------
  // From a new output
  // ---------------------------------------------------------------------------------

  /** Audio only, a target's worth and waiting: the next audio packet is due. */
  ghost predicate Brimming(h: Hls) {
    && h.audio.Some? && h.avcc.None? && !h.initWritten && !h.finished && h.started && h.written == []
    && HasSamples(h) && SpanMs(h) >= TargetMs(h)
  }

  /** Two audio packets a target apart fill the first segment. */
  lemma Fills(targetSecs: nat, windowSize: nat, asc: bytes, a: MediaPacket, b: MediaPacket)
    requires 0 < targetSecs && ParseAudioParams(asc).Some? && a.kind == Audio && b.kind == Audio
    requires b.dts - a.dts >= targetSecs * 1000
    ensures var h := Do(Do(Do(NewHls(targetSecs, windowSize), Codecs(None, Some(asc))), Packet(a)), Packet(b));
      Brimming(h) && !h.sawVideo
  {
    hide ParseAudioParams, StripAdts, AdtsToAsc, CloseSegment;
  }

  /** A video packet that carries no configuration changes nothing but the note that video was seen. */
  lemma StrayIsNoted(h: Hls, v: MediaPacket)
    requires !h.finished && h.avcc.None? && v.kind == Video && AnnexBToAvcc(v.data).None?
    ensures Do(h, Packet(v)) == h.(sawVideo := true)
  {
    hide AnnexBToAvcc, CloseSegment;
  }

  lemma BrimmingIsDue(h: Hls, c: MediaPacket)
    requires Brimming(h) && c.kind == Audio
    ensures Due(h, Packet(c))
  {
    hide AdtsToAsc, ParseAudioParams, SpanMs;
  }

  /**
    From a new output, before any init segment: the third audio packet closes the first segment, but
    not with one video packet before it, which is dropped for want of a configuration.
   */
  lemma StrayBeforeInit(targetSecs: nat, windowSize: nat, asc: bytes, a: MediaPacket, b: MediaPacket, v: MediaPacket,
                        c: MediaPacket)
    requires 0 < targetSecs && ParseAudioParams(asc).Some? && b.dts - a.dts >= targetSecs * 1000
    requires a.kind == Audio && b.kind == Audio && c.kind == Audio
    requires v.kind == Video && AnnexBToAvcc(v.data).None?
    ensures var h := NewHls(targetSecs, windowSize);
      var lead := [Codecs(None, Some(asc)), Packet(a), Packet(b)];
      && |DoAll(h, lead + [Packet(c)]).written| == 1
      && DoAll(h, lead + [Packet(v), Packet(c)]).written == []
  {
    hide Do, Brimming, Due, Keyed, ParseAudioParams, AnnexBToAvcc;
    var h, lead := NewHls(targetSecs, windowSize), [Codecs(None, Some(asc)), Packet(a), Packet(b)];
    var f := Do(Do(Do(h, lead[0]), lead[1]), lead[2]);
    Fills(targetSecs, windowSize, asc, a, b);
    DoThree(h, lead, [Packet(c)]);
    DoThree(h, lead, [Packet(v), Packet(c)]);
    BrimmingFacts(f);
    StrayIsNoted(f, v);
    var s := f.(sawVideo := true);
    StillBrimming(f, s);
    BrimmingIsDue(f, c);
    BrimmingIsDue(s, c);
    AudioIsNoKey(f, c);
    AudioIsNoKey(s, c);
    CallWrites(f, Packet(c));
    CallWrites(s, Packet(c));
    DoOne(f, Packet(c));
    DoOne(s, Packet(c));
    assert [Packet(v), Packet(c)][1..] == [Packet(c)];
  }

  lemma BrimmingFacts(h: Hls)
    requires Brimming(h)
    ensures !h.finished && h.avcc.None? && h.written == []
  {
  }

  lemma StillBrimming(h: Hls, s: Hls)
    requires Brimming(h) && s == h.(sawVideo := true)
    ensures Brimming(s)
  {
  }

  lemma DoOne(h: Hls, c: Call)
    ensures DoAll(h, [c]) == Do(h, c)
  {
    hide Do;
    assert [c][1..] == [];
  }

  lemma DoThree(h: Hls, lead: seq<Call>, rest: seq<Call>)
    requires |lead| == 3
    ensures DoAll(h, lead + rest) == DoAll(Do(Do(Do(h, lead[0]), lead[1]), lead[2]), rest)
  {
    hide Do, DoAll;
    var third := [lead[2]] + rest;
    var second := [lead[1]] + third;
    assert lead + rest == [lead[0]] + second;
    DoFirst(h, lead[0], second);
    DoFirst(Do(h, lead[0]), lead[1], third);
    DoFirst(Do(Do(h, lead[0]), lead[1]), lead[2], rest);
  }

  lemma DoFirst(h: Hls, c: Call, rest: seq<Call>)
    ensures DoAll(h, [c] + rest) == DoAll(Do(h, c), rest)
  {
    hide Do;
    assert ([c] + rest)[1..] == rest;
  }

  /** The cut that the third audio packet made wrote an init segment without video. */
  lemma CutIsAudioOnly(h: Hls, c: MediaPacket)
    requires Brimming(h) && !h.sawVideo && c.kind == Audio
    ensures var n := Do(h, Packet(c)); AudioOnly(n) && |n.written| == 1 && !n.finished && n.avcc.None?
  {
    hide CloseSegment, PutPacket, Normalize, Fragments, StripAdts, SpanMs, DurationMs, EndOf, AdtsToAsc,
         ParseAudioParams;
    BrimmingIsDue(h, c);
    PacketShape(h, c);
    SeenEffect(h, c);
    ClockedKeeps(h, c);
    SameSpan(h, Clocked(h, c));
    CloseEffect(Clocked(h, c));
  }

  /**
    From a new output, behind the first segment: one video packet, and no call short of the finish ever
    writes a second one.
   */
  lemma StrayAfterInit(targetSecs: nat, windowSize: nat, asc: bytes, a: MediaPacket, b: MediaPacket, c: MediaPacket,
                       v: MediaPacket, calls: seq<Call>)
    requires 0 < targetSecs && ParseAudioParams(asc).Some? && b.dts - a.dts >= targetSecs * 1000
    requires a.kind == Audio && b.kind == Audio && c.kind == Audio
    requires v.kind == Video && AnnexBToAvcc(v.data).None? && !Finishes(calls)
    ensures var lead := [Codecs(None, Some(asc)), Packet(a), Packet(b)];
      |DoAll(NewHls(targetSecs, windowSize), lead + ([Packet(c), Packet(v)] + calls)).written| == 1
  {
    hide Do, Brimming, Finishes, AudioOnly, VideoBeforeDue, ParseAudioParams, AnnexBToAvcc;
    var h, lead := NewHls(targetSecs, windowSize), [Codecs(None, Some(asc)), Packet(a), Packet(b)];
    var f := Do(Do(Do(h, lead[0]), lead[1]), lead[2]);
    var rest := [Packet(c), Packet(v)] + calls;
    Fills(targetSecs, windowSize, asc, a, b);
    DoThree(h, lead, rest);
    CutIsAudioOnly(f, c);
    var n := Do(f, Packet(c));
    StrayIsNoted(n, v);
    NoteKeepsInit(n);
    StrayVideoEndsCuts(n.(sawVideo := true), calls);
    assert rest[1..] == [Packet(v)] + calls && ([Packet(v)] + calls)[1..] == calls;
    assert DoAll(n, [Packet(v)] + calls) == DoAll(n.(sawVideo := true), calls);
  }

  lemma NoteKeepsInit(h: Hls)
    requires AudioOnly(h)
    ensures AudioOnly(h.(sawVideo := true))
  {
  }
}
