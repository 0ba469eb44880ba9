/**
  What the segmenter takes: from the first keyframe of a configured stream on it takes every video
  packet, and every audio packet of a track that its init segment has or can still have.
 */
module HlsGates {
  import opened Bytes
  import opened Media
  import opened Segmenter
  import opened HlsRuns
  import opened HlsCuts

  /** Running with a video track. */
  predicate Rolling(h: Hls) {
    !h.finished && h.started && h.avcc.Some? && (h.initWritten ==> h.initHasVideo)
  }

  /** And with an audio track. */
  predicate Sounding(h: Hls) {
    h.audio.Some? && (h.initWritten ==> h.initHasAudio)
  }

  function Packets(calls: seq<Call>, kind: MediaKind): seq<Coded> {
    if calls == [] then []
    else
      (if calls[0].Packet? && calls[0].p.kind == kind then [Expected(calls[0].p)] else []) + Packets(calls[1..], kind)
  }

  predicate Unfinished(calls: seq<Call>) {
    forall i :: 0 <= i < |calls| ==> !calls[i].FinishCall?
  }

  lemma CloseKeepsGates(h: Hls)
    ensures var c := CloseSegment(h);
      && c.finished == h.finished && c.started == h.started && c.avcc == h.avcc && c.audio == h.audio
      && (c.initWritten ==> if h.initWritten then c.initHasVideo == h.initHasVideo && c.initHasAudio == h.initHasAudio
                            else c.initHasVideo == h.avcc.Some? && c.initHasAudio == h.audio.Some?)
  {
    hide CloseSegment, Fragments, DurationMs, EndOf;
    if HasSamples(h) { CloseEffect(h); } else { NothingToClose(h); }
  }

  lemma ClockedConfigs(h: Hls, p: MediaPacket)
    ensures Clocked(h, p).audio == Seen(h, p).audio && Clocked(h, p).avcc == Seen(h, p).avcc
  {
    hide Seen, Normalize;
  }

  lemma CallRolls(h: Hls, c: Call)
    requires Rolling(h) && !c.FinishCall?
    ensures Rolling(Do(h, c)) && (Sounding(h) ==> Sounding(Do(h, c)))
    ensures c.Packet? && c.p.kind == Video ==> Accepts(h, c)
    ensures c.Packet? && c.p.kind == Audio && Sounding(h) ==> Accepts(h, c)
  {
    hide CloseSegment, PutPacket, Normalize, SampleOf, Cuts, ParseAudioParams, AnnexBToAvcc, AdtsToAsc, Seen;
    if c.Packet? {
      PacketShape(h, c.p);
      SeenEffect(h, c.p);
      ClockedKeeps(h, c.p);
      ClockedConfigs(h, c.p);
      CloseKeepsGates(Clocked(h, c.p));
    }
  }

  lemma {:induction false} RunRolls(h: Hls, calls: seq<Call>)
    requires Rolling(h) && Unfinished(calls)
    ensures Input(h, calls, VIDEO_TRACK_ID) == Packets(calls, Video)
    ensures Sounding(h) ==> Input(h, calls, AUDIO_TRACK_ID) == Packets(calls, Audio)
    decreases |calls|
  {
    hide Do, Accepts, Expected, Rolling, Sounding;
    if calls != [] {
      assert !calls[0].FinishCall?;
      OnlyPackets(h, calls[0]);
      CallRolls(h, calls[0]);
      assert forall i :: 0 <= i < |calls[1..]| ==> calls[1..][i] == calls[i + 1];
      RunRolls(Do(h, calls[0]), calls[1..]);
    }
  }

  /** A video configuration is given, or the packet brings one. */
  predicate Configures(avcc: Option<bytes>, key: MediaPacket) {
    avcc.Some? || AnnexBToAvcc(key.data).Some?
  }

  lemma KeyOpens(targetSecs: nat, windowSize: nat, avcc: Option<bytes>, asc: Option<bytes>, key: MediaPacket)
    requires IsKeyframe(key) && Configures(avcc, key)
    ensures var h := Do(NewHls(targetSecs, windowSize), Codecs(avcc, asc));
      && Accepts(h, Packet(key)) && Rolling(Do(h, Packet(key)))
      && (asc.Some? && ParseAudioParams(asc.value).Some? ==> Sounding(Do(h, Packet(key))))
      && !Do(h, Packet(key)).initWritten
  {
    hide CloseSegment, Normalize, VideoPayload, ParseAudioParams, AnnexBToAvcc;
  }

  /**
    From a new output: once configurations were given and a keyframe came that has one, nothing is gated
    any more. Every video packet, and with an audio configuration every audio packet, comes out.
   */
  lemma FromKeyframeOn(targetSecs: nat, windowSize: nat, avcc: Option<bytes>, asc: Option<bytes>, key: MediaPacket,
                       calls: seq<Call>)
    requires IsKeyframe(key) && Configures(avcc, key) && Unfinished(calls)
    ensures var all := [Codecs(avcc, asc), Packet(key)] + calls;
      && Input(NewHls(targetSecs, windowSize), all, VIDEO_TRACK_ID) == [Expected(key)] + Packets(calls, Video)
      && (asc.Some? && ParseAudioParams(asc.value).Some? ==>
            Input(NewHls(targetSecs, windowSize), all, AUDIO_TRACK_ID) == Packets(calls, Audio))
  {
    hide Do, Accepts, Expected, Rolling, Sounding, ParseAudioParams, Configures;
    var n, all := NewHls(targetSecs, windowSize), [Codecs(avcc, asc), Packet(key)] + calls;
    var h := Do(n, Codecs(avcc, asc));
    KeyOpens(targetSecs, windowSize, avcc, asc, key);
    RunRolls(Do(h, Packet(key)), calls);
    assert all[1..] == [Packet(key)] + calls && ([Packet(key)] + calls)[1..] == calls;
    OnlyPackets(n, Codecs(avcc, asc));
  }

  lemma OnlyPackets(h: Hls, c: Call)
    ensures Accepts(h, c) ==> c.Packet?
  {
  }

  /** Before the init segment is out an audio packet may bring its track's configuration itself. */
  lemma AudioBringsTrack(h: Hls, p: MediaPacket)
    requires Rolling(h) && !h.initWritten && h.audio.None? && p.kind == Audio
    requires AdtsToAsc(p.data).Some? && ParseAudioParams(AdtsToAsc(p.data).value).Some?
    ensures Accepts(h, Packet(p)) && Sounding(Do(h, Packet(p)))
  {
    hide CloseSegment, PutPacket, Normalize, SampleOf, Cuts, ParseAudioParams, AdtsToAsc;
    PacketShape(h, p);
    ClockedKeeps(h, p);
    ClockedConfigs(h, p);
    CloseKeepsGates(Clocked(h, p));
  }

  /** The track parameters of wrapped audio: the rate its frequency index names, and its channels, at least one. */
  lemma WrappedParams(f: AdtsFields, layer: nat, private: nat, low: nat, rest: bytes, raw: bytes)
    requires AdtsInRange(f) && layer < 8 && private < 2 && low < 64 && |rest| == if f.crc then 5 else 3
    ensures var asc := AdtsToAsc(AdtsFrame(f, layer, private, low, rest, raw));
      && asc.Some?
      && ParseAudioParams(asc.value) ==
         if f.frequencyIndex < |SAMPLE_RATES|
         then Some(AudioParams(asc.value, SAMPLE_RATES[f.frequencyIndex], Max(f.channels, 1))) else None
  {
    hide AdtsToAsc, AdtsFrame;
    AdtsRoundTrip(f, layer, private, low, rest, raw);
  }
}
