/**
  The times of a tick: a batch goes out in decode order, so on a fresh timebase its earliest packet is
  the origin, and every packet of it keeps its distance from that.
 */
module EngineTimes {
  import opened Bytes
  import opened Media
  import opened Mux
  import opened MuxRoom
  import opened TagLog
  import opened FlvTags
  import opened Engines
  import opened EngineWire

  /** No packet was stamped yet, or the origin is `base` and no track has passed `from`. */
  predicate Anchored(m: Mux, base: int, from: int) {
    && (m.origin == Some(base) || (m.origin.None? && from == base))
    && (m.lastVideo.Some? ==> m.lastVideo.value <= from - base)
    && (m.lastAudio.Some? ==> m.lastAudio.value <= from - base)
  }

  lemma AnchoredStamp(m: Mux, base: int, p: MediaPacket)
    requires Anchored(m, base, p.dts)
    ensures TrackTime(m, p) == Some(p.dts - base) && StampOf(m, p) == Stamp(p.dts - base, p.pts - base)
    ensures Anchored(Advanced(m, p), base, p.dts)
  {
  }

  lemma AnchoredLater(m: Mux, n: Mux, base: int, from: int, to: int)
    requires Anchored(m, base, from) && m.origin.Some? && SameClock(n, m) && from <= to
    ensures Anchored(n, base, to)
  {
  }

  /** A packet in order that is written moves the clock and nothing else. */
  lemma WrittenAnchored(m: Mux, base: int, p: MediaPacket)
    requires Anchored(m, base, p.dts) && WriteOrRebase(m, p).1 == Done
    ensures SameClock(WriteOrRebase(m, p).0, Advanced(m, p))
  {
    hide WritePacket, TrackTime, Advanced;
    AnchoredStamp(m, base, p);
    WriteSucceeds(m, p);
  }

  ghost predicate StampedFrom(told: seq<Told>, base: int) {
    forall i :: 0 <= i < |told| ==>
      var p := told[i].packet; p.dts >= base && told[i].at == Stamp(p.dts - base, p.pts - base)
  }

  /** What a send in decode order shows keeps its distances from the origin: nothing is clamped and nothing rebased. */
  lemma {:induction false} SendStamps(m: Mux, batch: seq<MediaPacket>, base: int)
    requires InOrder(batch) && (batch != [] ==> Anchored(m, base, batch[0].dts) && base <= batch[0].dts)
    ensures StampedFrom(ToldBySend(m, batch), base)
    decreases |batch|
  {
    hide WriteOrRebase, FrameShown, Anchored, StampOf;
    if batch != [] {
      var p := batch[0];
      AnchoredStamp(m, base, p);
      var (n, r) := WriteOrRebase(m, p);
      if r == Done {
        WrittenAnchored(m, base, p);
        AdvancedAnchored(m, p);
        if |batch| > 1 {
          AnchoredLater(Advanced(m, p), n, base, p.dts, batch[1].dts);
        }
        assert forall i :: 0 <= i < |batch[1..]| ==> batch[1..][i] == batch[i + 1];
        SendStamps(n, batch[1..], base);
      }
    }
  }

  lemma AdvancedAnchored(m: Mux, p: MediaPacket)
    requires TrackTime(m, p).Some?
    ensures Advanced(m, p).origin.Some?
  {
  }

  /** A muxer that has stamped nothing. */
  predicate FreshClock(m: Mux) {
    m.origin.None? && m.lastVideo.None? && m.lastAudio.None?
  }

  /**
    The first tick on a fresh timebase: the earliest packet that is sent is the origin, and every frame
    shown has the times of its packet, less that one's decode time.
   */
  lemma FirstTickTimes(e: Engine)
    requires e.muxer.Some? && FreshClock(e.muxer.value) && Batch(e) != []
    ensures forall q :: q in Kept(e.buffer.queue, e.awaitingKeyframe) ==> Batch(e)[0].dts <= q.dts
    ensures StampedFrom(ToldByTick(e, true), Batch(e)[0].dts)
  {
    hide Preamble, Kept, SortByDts, ToldBySend;
    BatchInOrder(e);
    BatchIsKept(e);
    PreambleKeepsClock(e, e.muxer.value);
    if Preamble(e, e.muxer.value).1 == Done {
      SendStamps(Preamble(e, e.muxer.value).0, Batch(e), Batch(e)[0].dts);
    }
  }

  lemma BatchIsKept(e: Engine)
    ensures forall q :: q in Kept(e.buffer.queue, e.awaitingKeyframe) ==> q in Batch(e)
  {
    hide Kept, SortByDts;
    var kept := Kept(e.buffer.queue, e.awaitingKeyframe);
    SortElements(kept);
    forall q | q in kept ensures q in Batch(e) {
      assert q in multiset(kept);
      assert q in multiset(Batch(e));
    }
  }

  lemma HeadersKeepClock(m: Mux, body: bytes)
    ensures FreshClock(m) ==> FreshClock(WriteMetadata(m, body).0)
    ensures FreshClock(m) ==> FreshClock(WriteVideoSequence(m, body).0)
    ensures FreshClock(m) ==> FreshClock(WriteAudioSequence(m, body).0)
  {
    hide Put, TagAt, TagBytes;
  }

  lemma PreambleKeepsClock(e: Engine, m: Mux)
    requires FreshClock(m)
    ensures FreshClock(Preamble(e, m).0)
  {
    hide WriteMetadata, WriteVideoSequence, WriteAudioSequence, FreshClock;
    HeadersKeepClock(m, e.meta);
    var n := if e.metadataWritten then m else WriteMetadata(m, e.meta).0;
    if e.avcc.Some? {
      HeadersKeepClock(n, e.avcc.value);
    }
    var v := if e.avcc.Some? then WriteVideoSequence(n, e.avcc.value).0 else n;
    if e.asc.Some? {
      HeadersKeepClock(v, e.asc.value);
    }
  }
}
