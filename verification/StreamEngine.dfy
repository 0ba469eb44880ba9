/** The engine object: its fields, its buffer and its muxer, updated in place. */
module StreamEngines {
  import opened Bytes
  import opened Media
  import opened Mux
  import opened Backpressure
  import opened Engines

  class StreamEngine {
    const profile: LatencyProfile
    const meta: bytes
    const buffer: BoundedBuffer
    var muxer: FlvMuxer?
    var metadataWritten: bool
    var muxed: nat
    var avcc: Option<bytes>
    var asc: Option<bytes>
    var timebase: Option<Timebase>
    var awaitingKeyframe: bool

    /** The objects the engine owns. */
    ghost function Repr(): set<object>
      reads this
    {
      {this, buffer} + if muxer == null then {} else {muxer, muxer.sink}
    }

    function View(): Engine
      reads this, buffer, muxer, if muxer == null then {} else {muxer.sink}
    {
      Engine(profile, meta, buffer.View(), if muxer == null then None else Some(muxer.View()),
             metadataWritten, muxed, avcc, asc, timebase, awaitingKeyframe)
    }

    constructor (profile: LatencyProfile, meta: bytes)
      ensures View() == NewEngine(profile, meta) && fresh(Repr())
    {
      this.profile, this.meta := profile, meta;
      buffer := new BoundedBuffer(PacketBudget(profile));
      muxer, metadataWritten, muxed := null, false, 0;
      avcc, asc, timebase, awaitingKeyframe := None, None, None, false;
    }

    method EnforcePolicy()
      modifies buffer
      ensures buffer.View() == EnforceDropPolicy(profile, old(buffer.View()))
    {
      var threshold := CutThreshold(profile);
      if threshold.Some? && |buffer.queue| >= threshold.value {
        var n := buffer.CutToKeyframe();
      }
    }

    /** Queues a batch of packets, then applies the drop policy once. */
    method PushPackets(ps: seq<MediaPacket>)
      modifies buffer
      ensures View() == PushAll(old(View()), ps)
    {
      hide Push, EnforceDropPolicy;
      ghost var before := buffer.View();
      for i := 0 to |ps|
        invariant PushSeq(buffer.View(), ps[i..]) == PushSeq(before, ps)
      {
        buffer.PushBack(ps[i]);
      }
      EnforcePolicy();
    }

    /** Attaches a fresh transport; a timebase left by a detach is taken over. */
    method AttachTransport(sink: ByteSink)
      modifies this`muxer, this`timebase, this`metadataWritten
      ensures View() == Attach(old(View()), sink.View()) && muxer != null && muxer.sink == sink && fresh(muxer)
    {
      var m := new FlvMuxer(sink);
      if timebase.Some? {
        m.SetTimebase(timebase.value.origin, timebase.value.lastVideo, timebase.value.lastAudio);
      }
      muxer, timebase, metadataWritten := m, None, false;
    }

    /** Drops a dead transport, keeping what a resumed stream needs. */
    method DetachTransport()
      modifies this, buffer
      ensures View() == Detach(old(View())) && muxer == null
    {
      hide Resync;
      if muxer != null {
        timebase := Some(Timebase(muxer.origin, muxer.lastVideo, muxer.lastAudio));
        if avcc.None? {
          avcc := muxer.avcc;
        }
        if asc.None? {
          asc := muxer.asc;
        }
      }
      muxer := null;
      var n := buffer.CutToKeyframe();
      awaitingKeyframe := avcc.Some? && !FrontIsKeyframe(buffer.queue);
    }

    method ConfigureWith(avcc: Option<bytes>, asc: Option<bytes>) returns (r: Outcome)
      modifies Repr()
      ensures (View(), r) == ConfigureCodecs(old(View()), avcc, asc)
      ensures muxer == old(muxer)
    {
      hide InitCodecs;
      if avcc.Some? {
        this.avcc := avcc;
      }
      if asc.Some? {
        this.asc := asc;
      }
      if muxer == null {
        return Done;
      }
      r := muxer.PutCodecs(avcc, asc);
    }

    /** Empties the buffer, dropping orphaned inter-frames, and orders the rest by decode time. */
    method DrainForMux() returns (batch: seq<MediaPacket>)
      modifies this`awaitingKeyframe, buffer
      ensures View() == Drained(old(View())) && batch == Batch(old(View()))
      ensures InOrder(batch)
      ensures forall t :: AtTime(batch, t) == AtTime(Kept(old(buffer.queue), old(awaitingKeyframe)), t)
    {
      hide Kept, Orphans, HasKeyframe, SortByDts;
      ghost var q, flag, b := buffer.queue, awaitingKeyframe, buffer.View();
      batch := [];
      DrainNothingYet(q, flag);
      while buffer.queue != []
        invariant PartlyDrained(q, flag, batch, buffer.dropped - b.dropped, buffer.queue, awaitingKeyframe)
        invariant buffer.View() == Buffer(buffer.queue, b.capacity, buffer.dropped, b.pushed)
        invariant View() == old(View()).(buffer := buffer.View(), awaitingKeyframe := awaitingKeyframe)
        decreases |buffer.queue|
      {
        DrainStep(q, flag, batch, buffer.dropped - b.dropped, buffer.queue, awaitingKeyframe);
        var p := buffer.PopOldest();
        if awaitingKeyframe && p.kind == Video && !p.isKey {
          buffer.RecordDrop();
          continue;
        }
        if p.kind == Video && p.isKey {
          awaitingKeyframe := false;
        }
        batch := batch + [p];
      }
      DrainedFully(q, flag, batch, buffer.dropped - b.dropped, awaitingKeyframe);
      SortSorts(batch);
      batch := SortByDts(batch);
    }

    /** The muxing loop of a tick: stops at the first packet that fails. */
    method SendAll(batch: seq<MediaPacket>) returns (sent: nat, failure: Outcome)
      requires muxer != null
      modifies muxer, muxer.sink
      ensures SendResult(muxer.View(), sent, failure) == Send(old(muxer.View()), batch)
    {
      hide WriteOrRebase;
      ghost var whole := Send(muxer.View(), batch);
      sent, failure := 0, Done;
      while failure == Done && sent < |batch|
        invariant sent <= |batch|
        invariant failure != Done ==> whole == SendResult(muxer.View(), sent, failure)
        invariant failure == Done ==>
                    whole == var rest := Send(muxer.View(), batch[sent..]); rest.(sent := sent + rest.sent)
        decreases |batch| - sent, failure == Done
      {
        failure := muxer.PutOrReanchor(batch[sent]);
        if failure == Done {
          sent := sent + 1;
        }
      }
    }

    /** What a connection needs before its first packet of a tick. */
    method PutPreamble() returns (r: Outcome)
      requires muxer != null
      modifies muxer, muxer.sink
      ensures (muxer.View(), r) == Preamble(old(View()), old(muxer.View()))
    {
      hide WriteMetadata, InitCodecs;
      r := Done;
      if !metadataWritten {
        r := muxer.PutMetadata(meta);
      }
      if r == Done {
        r := muxer.PutCodecs(avcc, asc);
      }
    }

    /** Drains what is buffered into the transport; what does not make it goes back to the front. */
    method TickOnce(healthy: bool, flushes: bool) returns (r: TickResult)
      modifies Repr()
      ensures (View(), r) == Tick(old(View()), healthy, flushes) && muxer == old(muxer)
    {
      hide Send, Preamble, Kept, Orphans, SortByDts, HasKeyframe;
      if muxer == null {
        return Muxed(0);
      }
      if !healthy {
        return Unhealthy;
      }
      ghost var e := View();
      var batch := DrainForMux();
      var sent := 0;
      PreambleDrained(e, e.muxer.value);
      var failure := PutPreamble();
      if failure == Done {
        sent, failure := SendAll(batch);
        if failure == Done && !flushes {
          failure := Io;
        }
      }
      assert SendResult(muxer.View(), sent, failure) == SendBatch(e, e.muxer.value, flushes);
      muxed := muxed + sent;
      if failure != Done {
        buffer.PushFrontAll(batch[sent..]);
        return MuxFailed(failure);
      }
      metadataWritten := true;
      if avcc.None? {
        avcc := muxer.avcc;
      }
      if asc.None? {
        asc := muxer.asc;
      }
      return Muxed(|batch|);
    }

    /** The final drain: no second try on an ordering error, and a failed batch is forgotten. */
    method FinishStream(flushes: bool) returns (r: Outcome)
      modifies Repr()
      ensures (View(), r) == Finish(old(View()), flushes)
    {
      hide WritePacket, Kept, Orphans, SortByDts, HasKeyframe;
      if muxer == null {
        return Done;
      }
      ghost var e := View();
      var batch := DrainForMux();
      ghost var whole := SendStrict(muxer.View(), batch);
      for i := 0 to |batch|
        invariant muxer != null && muxer == old(muxer) && View() == Drained(e).(muxer := Some(muxer.View()))
        invariant SendStrict(muxer.View(), batch[i..]) == whole
      {
        var w := muxer.PutPacket(batch[i]);
        if w != Done {
          return w;
        }
      }
      if !flushes {
        return Io;
      }
      muxed := muxed + |batch|;
      muxer := null;
      return Done;
    }
  }

  /** A drain in progress: what was kept and dropped so far, and what the rest will add. */
  ghost predicate PartlyDrained(q: seq<MediaPacket>, flag: bool, batch: seq<MediaPacket>, dropped: int,
                                rest: seq<MediaPacket>, awaiting: bool) {
    && batch + Kept(rest, awaiting) == Kept(q, flag)
    && dropped + |Orphans(rest, awaiting)| == |Orphans(q, flag)|
    && (awaiting && !HasKeyframe(rest)) == (flag && !HasKeyframe(q))
  }

  lemma PreambleDrained(e: Engine, m: Mux)
    ensures Preamble(Drained(e), m) == Preamble(e, m)
  {
    hide WriteMetadata, InitCodecs, Orphans, HasKeyframe;
  }

  lemma DrainStep(q: seq<MediaPacket>, flag: bool, batch: seq<MediaPacket>, dropped: int,
                  rest: seq<MediaPacket>, awaiting: bool)
    requires rest != [] && PartlyDrained(q, flag, batch, dropped, rest, awaiting)
    ensures IsOrphan(rest[0], awaiting) ==> PartlyDrained(q, flag, batch, dropped + 1, rest[1..], awaiting)
    ensures !IsOrphan(rest[0], awaiting) ==>
              PartlyDrained(q, flag, batch + [rest[0]], dropped, rest[1..], awaiting && !IsKeyframe(rest[0]))
  {
    hide HasKeyframe;
    HasKeyframeFirst(rest);
    if !IsOrphan(rest[0], awaiting) {
      var more := Kept(rest[1..], awaiting && !IsKeyframe(rest[0]));
      assert Kept(rest, awaiting) == [rest[0]] + more;
      assert batch + ([rest[0]] + more) == batch + [rest[0]] + more;
    }
  }

  lemma DrainedFully(q: seq<MediaPacket>, flag: bool, batch: seq<MediaPacket>, dropped: int, awaiting: bool)
    requires PartlyDrained(q, flag, batch, dropped, [], awaiting)
    ensures batch == Kept(q, flag) && dropped == |Orphans(q, flag)| && awaiting == (flag && !HasKeyframe(q))
  {
    assert batch + [] == batch;
  }

  lemma DrainNothingYet(q: seq<MediaPacket>, flag: bool)
    ensures PartlyDrained(q, flag, [], 0, q, flag)
  {
    assert [] + Kept(q, flag) == Kept(q, flag);
  }

  lemma HasKeyframeFirst(q: seq<MediaPacket>)
    requires q != []
    ensures HasKeyframe(q) == (IsKeyframe(q[0]) || HasKeyframe(q[1..]))
  {
    if HasKeyframe(q) && !IsKeyframe(q[0]) {
      var k :| 0 <= k < |q| && IsKeyframe(q[k]);
      assert q[1..][k - 1] == q[k];
    }
    if HasKeyframe(q[1..]) {
      var k :| 0 <= k < |q[1..]| && IsKeyframe(q[1..][k]);
      assert q[k + 1] == q[1..][k];
    }
  }
}
