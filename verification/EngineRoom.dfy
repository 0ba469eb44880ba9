/**
  What a tick needs of its transport, said of the state before it: the bytes of the preamble and of
  each packet of the batch. Times play no part, as a packet out of tolerance is rebased and sent.
 */
module EngineRoom {
  import opened Bytes
  import opened Media
  import opened FlvTags
  import opened Mux
  import opened MuxRoom
  import opened Engines
  import Flv

  // ---------------------------------------------------------------------------------
  // The preamble
  // ---------------------------------------------------------------------------------

  predicate NothingAhead(e: Engine) {
    e.metadataWritten && e.avcc.None? && e.asc.None?
  }

  function PreambleBytes(e: Engine, m: Mux): nat {
    (if NothingAhead(e) then 0 else HeaderBytes(m))
    + (if e.metadataWritten then 0 else TAG_OVERHEAD + |e.meta|)
    + (if e.avcc.Some? && !m.videoSeq then TAG_OVERHEAD + |Flv.VideoConfigBody(e.avcc.value)| else 0)
    + (if e.asc.Some? && !m.audioSeq then TAG_OVERHEAD + |Flv.AudioConfigBody(e.asc.value)| else 0)
  }

  /** What a muxer is after its preamble, but for the sink and the configurations. */
  function AfterPreamble(e: Engine, m: Mux): Mux {
    m.(header := m.header || !NothingAhead(e),
       videoSeq := m.videoSeq || e.avcc.Some?, audioSeq := m.audioSeq || e.asc.Some?)
  }

  /** The preamble of a tick goes out exactly when its bytes find room. */
  lemma PreambleRoom(e: Engine, m: Mux)
    ensures var (n, r) := Preamble(e, m);
      && (r == Done <==> PreambleBytes(e, m) <= Room(m.sink))
      && (r == Done ==>
            && SameClock(n, AfterPreamble(e, m)) && Room(n.sink) == Room(m.sink) - PreambleBytes(e, m))
  {
    hide WriteMetadata, WriteVideoSequence, WriteAudioSequence, FILE_HEADER, Flv.VideoConfigBody,
         Flv.AudioConfigBody, Room;
    MetadataRoom(m, e.meta);
    NoLessThanNothing(m.sink);
    var n := if e.metadataWritten then (m, Done) else WriteMetadata(m, e.meta);
    if n.1 == Done {
      if e.avcc.Some? {
        VideoSequenceRoom(n.0, e.avcc.value);
      }
      var v := if e.avcc.Some? then WriteVideoSequence(n.0, e.avcc.value) else (n.0, Done);
      if v.1 == Done && e.asc.Some? {
        AudioSequenceRoom(v.0, e.asc.value);
      }
    }
  }

  lemma NoLessThanNothing(s: Sink)
    ensures Room(s) >= 0
  {
  }

  // ---------------------------------------------------------------------------------
  // The batch
  // ---------------------------------------------------------------------------------

  /** Which headers are out: all that the bytes of a packet depend on. */
  predicate SameHeaders(a: Mux, b: Mux) {
    a.header == b.header && a.videoSeq == b.videoSeq && a.audioSeq == b.audioSeq
  }

  predicate AllKnown(m: Mux, ps: seq<MediaPacket>)
    decreases |ps|
  {
    ps != [] ==> Known(m, ps[0]) && AllKnown(WithLead(m, ps[0]), ps[1..])
  }

  function BytesOf(m: Mux, ps: seq<MediaPacket>): nat
    decreases |ps|
  {
    if ps == [] then 0 else BytesFor(m, ps[0]) + BytesOf(WithLead(m, ps[0]), ps[1..])
  }

  /** The headers that are out behind a batch. */
  function WithLeads(m: Mux, ps: seq<MediaPacket>): Mux
    decreases |ps|
  {
    if ps == [] then m else WithLeads(WithLead(m, ps[0]), ps[1..])
  }

  lemma PacketNeeds(a: Mux, b: Mux, p: MediaPacket)
    requires SameHeaders(a, b)
    ensures Known(a, p) == Known(b, p) && LeadBytes(a, p) == LeadBytes(b, p) && BytesFor(a, p) == BytesFor(b, p)
    ensures SameHeaders(WithLead(a, p), WithLead(b, p))
  {
  }

  lemma {:induction false} BatchNeeds(a: Mux, b: Mux, ps: seq<MediaPacket>)
    requires SameHeaders(a, b)
    ensures AllKnown(a, ps) == AllKnown(b, ps) && BytesOf(a, ps) == BytesOf(b, ps)
    ensures SameHeaders(WithLeads(a, ps), WithLeads(b, ps))
    decreases |ps|
  {
    hide Known, BytesFor, WithLead, SameHeaders;
    if ps != [] {
      PacketNeeds(a, b, ps[0]);
      BatchNeeds(WithLead(a, ps[0]), WithLead(b, ps[0]), ps[1..]);
    } else {
      assert WithLeads(a, ps) == a && WithLeads(b, ps) == b;
    }
  }

  /** What a packet that was written leaves: its bytes are gone and its headers out. */
  lemma WrittenLeaves(m: Mux, p: MediaPacket)
    requires WriteOrRebase(m, p).1 == Done
    ensures SameHeaders(WriteOrRebase(m, p).0, WithLead(m, p))
    ensures Room(WriteOrRebase(m, p).0.sink) == Room(m.sink) - BytesFor(m, p)
  {
    hide WritePacket, TrackTime, BytesFor, Known, Room;
    WriteSucceeds(m, p);
    LeadRoom(m, p);
    BytesSplit(m, p);
    var first := WritePacket(m, p);
    if first.1 == Ordering {
      OrderingLeaves(m, p);
      var r := Rebase(first.0, p.kind, p.dts);
      RebasedTime(first.0, p);
      RebasedNeeds(BeforeFrame(m, p), r, p);
      WriteSucceeds(r, p);
    }
  }

  /** At least the first `k` packets of a batch go out exactly when they are known and their bytes find room. */
  lemma {:induction false} SendReaches(m: Mux, batch: seq<MediaPacket>, k: nat)
    requires k <= |batch|
    ensures Send(m, batch).sent >= k <==> AllKnown(m, batch[..k]) && BytesOf(m, batch[..k]) <= Room(m.sink)
    decreases |batch|
  {
    hide WriteOrRebase, Known, BytesFor, Room, WithLead;
    NoLessThanNothing(m.sink);
    if k > 0 {
      var p := batch[0];
      assert batch[..k][0] == p && batch[..k][1..] == batch[1..][..k - 1];
      WriteOrRebaseSucceeds(m, p);
      var (n, r) := WriteOrRebase(m, p);
      if r == Done {
        WrittenLeaves(m, p);
        SendReaches(n, batch[1..], k - 1);
        BatchNeeds(n, WithLead(m, p), batch[1..][..k - 1]);
      }
    }
  }

  /** The state after a batch that went out. */
  lemma {:induction false} SentLeaves(m: Mux, ps: seq<MediaPacket>)
    requires Send(m, ps).sent == |ps|
    ensures SameHeaders(Send(m, ps).muxer, WithLeads(m, ps))
    ensures Room(Send(m, ps).muxer.sink) == Room(m.sink) - BytesOf(m, ps)
    decreases |ps|
  {
    hide WriteOrRebase, BytesFor, Room, WithLead, SameHeaders;
    if ps != [] {
      var (n, r) := WriteOrRebase(m, ps[0]);
      WrittenLeaves(m, ps[0]);
      SentLeaves(n, ps[1..]);
      BatchNeeds(n, WithLead(m, ps[0]), ps[1..]);
      HeadersJoin(Send(n, ps[1..]).muxer, WithLeads(n, ps[1..]), WithLeads(WithLead(m, ps[0]), ps[1..]));
    } else {
      HeadersSame(m);
    }
  }

  lemma HeadersJoin(a: Mux, b: Mux, c: Mux)
    requires SameHeaders(a, b) && SameHeaders(b, c)
    ensures SameHeaders(a, c)
  {
  }

  lemma HeadersSame(m: Mux)
    ensures SameHeaders(m, m)
  {
  }
}
