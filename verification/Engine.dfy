/**
  The engine: packets wait in the bounded buffer, and each tick drains them into the muxer of
  the attached transport. `Engine` is its state as a value with a function per public call;
  `StreamEngine` is the object with its buffer and muxer. One call is one atomic step, as all
  calls hold the source's one lock. Outcomes of the transport's own health check and flush are
  parameters; the byte sink decides where a write fails.
 */
module Engines {
  import opened Bytes
  import opened Media
  import opened Mux
  import opened Backpressure

  datatype LatencyProfile = Aggressive | Balanced | Lenient

  function PacketBudget(profile: LatencyProfile): nat {
    match profile
    case Aggressive => 30
    case Balanced => 120
    case Lenient => 480
  }

  function CutThreshold(profile: LatencyProfile): Option<nat> {
    match profile
    case Aggressive => Some(PacketBudget(profile) / 2)
    case Balanced => Some(PacketBudget(profile))
    case Lenient => None
  }

  /** The timebase of a muxer that is gone: origin and both watermarks. */
  datatype Timebase = Timebase(origin: Option<int>, lastVideo: Option<int>, lastAudio: Option<int>)

  datatype Engine = Engine(
    profile: LatencyProfile, meta: bytes,
    buffer: Buffer, muxer: Option<Mux>, metadataWritten: bool, muxed: nat,
    avcc: Option<bytes>, asc: Option<bytes>,
    timebase: Option<Timebase>, awaitingKeyframe: bool)

  function NewEngine(profile: LatencyProfile, meta: bytes): Engine {
    Engine(profile, meta, Buffer([], PacketBudget(profile), 0, 0), None, false, 0, None, None, None, false)
  }

  // ---------------------------------------------------------------------------------
  // Pushing
  // ---------------------------------------------------------------------------------

  function PushSeq(b: Buffer, ps: seq<MediaPacket>): Buffer
    decreases |ps|
  {
    if ps == [] then b else PushSeq(Push(b, ps[0]), ps[1..])
  }

  /** The cut back to the newest keyframe once the profile's threshold is reached. */
  function EnforceDropPolicy(profile: LatencyProfile, b: Buffer): Buffer {
    var threshold := CutThreshold(profile);
    if threshold.Some? && |b.queue| >= threshold.value then Resync(b) else b
  }

  function PushAll(e: Engine, ps: seq<MediaPacket>): Engine {
    e.(buffer := EnforceDropPolicy(e.profile, PushSeq(e.buffer, ps)))
  }

  // ---------------------------------------------------------------------------------
  // Attaching and detaching
  // ---------------------------------------------------------------------------------

  function Attach(e: Engine, sink: Sink): Engine {
    var m := match e.timebase
             case None => NewMux(sink)
             case Some(t) => RestoreTimebase(NewMux(sink), t.origin, t.lastVideo, t.lastAudio);
    e.(muxer := Some(m), timebase := None, metadataWritten := false)
  }

  function Or(a: Option<bytes>, b: Option<bytes>): Option<bytes> {
    if a.Some? then a else b
  }

  predicate FrontIsKeyframe(q: seq<MediaPacket>) {
    q != [] && IsKeyframe(q[0])
  }

  function Detach(e: Engine): Engine {
    var e1 :=
      match e.muxer
      case None => e
      case Some(m) =>
        e.(timebase := Some(Timebase(m.origin, m.lastVideo, m.lastAudio)),
           avcc := Or(e.avcc, m.avcc), asc := Or(e.asc, m.asc));
    var b := Resync(e1.buffer);
    e1.(muxer := None, buffer := b, awaitingKeyframe := e1.avcc.Some? && !FrontIsKeyframe(b.queue))
  }

  function ConfigureCodecs(e: Engine, avcc: Option<bytes>, asc: Option<bytes>): (Engine, Outcome) {
    var e1 := e.(avcc := Or(avcc, e.avcc), asc := Or(asc, e.asc));
    match e1.muxer
    case None => (e1, Done)
    case Some(m) =>
      var (m', r) := InitCodecs(m, avcc, asc);
      (e1.(muxer := Some(m')), r)
  }

  // ---------------------------------------------------------------------------------
  // Draining
  // ---------------------------------------------------------------------------------

  predicate IsOrphan(p: MediaPacket, awaiting: bool) {
    awaiting && p.kind == Video && !p.isKey
  }

  /** While a keyframe is awaited inter-frames are dropped; the flag falls at the first keyframe. */
  function Kept(q: seq<MediaPacket>, awaiting: bool): seq<MediaPacket> {
    if q == [] then []
    else if IsOrphan(q[0], awaiting) then Kept(q[1..], awaiting)
    else [q[0]] + Kept(q[1..], awaiting && !IsKeyframe(q[0]))
  }

  function Orphans(q: seq<MediaPacket>, awaiting: bool): seq<MediaPacket> {
    if q == [] then []
    else if IsOrphan(q[0], awaiting) then [q[0]] + Orphans(q[1..], awaiting)
    else Orphans(q[1..], awaiting && !IsKeyframe(q[0]))
  }

  predicate HasKeyframe(q: seq<MediaPacket>) {
    exists k :: 0 <= k < |q| && IsKeyframe(q[k])
  }

  /** Inserts before the first packet that is not earlier: equal times keep their order. */
  function Insert(p: MediaPacket, s: seq<MediaPacket>): seq<MediaPacket> {
    if s == [] then [p]
    else if p.dts <= s[0].dts then [p] + s
    else [s[0]] + Insert(p, s[1..])
  }

  /** The stable sort by decode time. */
  function SortByDts(s: seq<MediaPacket>): seq<MediaPacket> {
    if s == [] then [] else Insert(s[0], SortByDts(s[1..]))
  }

  function Batch(e: Engine): seq<MediaPacket> {
    SortByDts(Kept(e.buffer.queue, e.awaitingKeyframe))
  }

  function Drained(e: Engine): Engine {
    e.(buffer := e.buffer.(queue := [], dropped := e.buffer.dropped + |Orphans(e.buffer.queue, e.awaitingKeyframe)|),
       awaitingKeyframe := e.awaitingKeyframe && !HasKeyframe(e.buffer.queue))
  }

  // ---------------------------------------------------------------------------------
  // Ticking
  // ---------------------------------------------------------------------------------

  /** Muxing stops at the first packet that fails. */
  datatype SendResult = SendResult(muxer: Mux, sent: nat, failure: Outcome)

  function Send(m: Mux, batch: seq<MediaPacket>): (r: SendResult)
    ensures r.sent <= |batch| && (r.failure == Done ==> r.sent == |batch|)
    decreases |batch|
  {
    if batch == [] then SendResult(m, 0, Done)
    else
      var (m', r) := WriteOrRebase(m, batch[0]);
      if r != Done then SendResult(m', 0, r)
      else
        var rest := Send(m', batch[1..]);
        rest.(sent := rest.sent + 1)
  }

  /** Metadata on a fresh connection, the sequence headers known so far, then the batch. */
  function Preamble(e: Engine, m: Mux): (Mux, Outcome) {
    var meta := if e.metadataWritten then (m, Done) else WriteMetadata(m, e.meta);
    if meta.1 != Done then meta else InitCodecs(meta.0, e.avcc, e.asc)
  }

  function SendBatch(e: Engine, m: Mux, flushes: bool): (r: SendResult)
    ensures r.sent <= |Batch(e)| && (r.failure == Done ==> r.sent == |Batch(e)|)
  {
    var pre := Preamble(e, m);
    if pre.1 != Done then SendResult(pre.0, 0, pre.1)
    else
      var r := Send(pre.0, Batch(e));
      if r.failure == Done && !flushes then r.(failure := Io) else r
  }

  /** After a drain and a send: configs are harvested, or what was not sent goes back. */
  function Settle(e: Engine, batch: seq<MediaPacket>, r: SendResult): Engine
    requires r.sent <= |batch|
  {
    if r.failure == Done then
      e.(muxer := Some(r.muxer), metadataWritten := true, muxed := e.muxed + |batch|,
         avcc := Or(e.avcc, r.muxer.avcc), asc := Or(e.asc, r.muxer.asc))
    else
      e.(muxer := Some(r.muxer), muxed := e.muxed + r.sent, buffer := RestoreFront(e.buffer, batch[r.sent..]))
  }

  /** What a tick returns: packets muxed, or the failure. */
  datatype TickResult = Muxed(n: nat) | Unhealthy | MuxFailed(failure: Outcome)

  function Tick(e: Engine, healthy: bool, flushes: bool): (Engine, TickResult) {
    if e.muxer.None? then (e, Muxed(0))
    else if !healthy then (e, Unhealthy)
    else
      var r := SendBatch(e, e.muxer.value, flushes);
      (Settle(Drained(e), Batch(e), r), if r.failure == Done then Muxed(|Batch(e)|) else MuxFailed(r.failure))
  }

  /** The packets of a tick that reached the transport. */
  function TickSent(e: Engine, healthy: bool, flushes: bool): seq<MediaPacket> {
    if e.muxer.None? || !healthy then [] else Batch(e)[..SendBatch(e, e.muxer.value, flushes).sent]
  }

  // ---------------------------------------------------------------------------------
  // Finishing
  // ---------------------------------------------------------------------------------

  /** The final drain has no second try on an ordering error, and forgets its batch when it fails. */
  function SendStrict(m: Mux, batch: seq<MediaPacket>): (Mux, Outcome)
    decreases |batch|
  {
    if batch == [] then (m, Done)
    else
      var (m', r) := WritePacket(m, batch[0]);
      if r != Done then (m', r) else SendStrict(m', batch[1..])
  }

  function Finish(e: Engine, flushes: bool): (Engine, Outcome) {
    if e.muxer.None? then (e, Done)
    else
      var (m, r) := SendStrict(e.muxer.value, Batch(e));
      if r != Done then (Drained(e).(muxer := Some(m)), r)
      else if !flushes then (Drained(e).(muxer := Some(m)), Io)
      else (Drained(e).(muxer := None, muxed := e.muxed + |Batch(e)|), Done)
  }

  // ---------------------------------------------------------------------------------
  // Lemmas about draining
  // ---------------------------------------------------------------------------------

  lemma {:induction false} InsertElements(p: MediaPacket, s: seq<MediaPacket>)
    ensures multiset(Insert(p, s)) == multiset{p} + multiset(s) && |Insert(p, s)| == |s| + 1
  {
    if s != [] && p.dts > s[0].dts {
      InsertElements(p, s[1..]);
      assert s == [s[0]] + s[1..];
    }
  }

  lemma {:induction false} SortElements(s: seq<MediaPacket>)
    ensures multiset(SortByDts(s)) == multiset(s) && |SortByDts(s)| == |s|
  {
    if s != [] {
      SortElements(s[1..]);
      InsertElements(s[0], SortByDts(s[1..]));
      assert s == [s[0]] + s[1..];
    }
  }

  lemma {:induction false} DrainElements(q: seq<MediaPacket>, awaiting: bool)
    ensures multiset(Kept(q, awaiting)) + multiset(Orphans(q, awaiting)) == multiset(q)
    ensures |Kept(q, awaiting)| + |Orphans(q, awaiting)| == |q|
  {
    if q != [] {
      DrainElements(q[1..], awaiting && !IsKeyframe(q[0]));
      assert q == [q[0]] + q[1..];
    }
  }

  /** In decode order. */
  ghost predicate InOrder(s: seq<MediaPacket>) {
    forall i, j :: 0 <= i < j < |s| ==> s[i].dts <= s[j].dts
  }

  /** The packets of one decode time, in their order. */
  function AtTime(s: seq<MediaPacket>, t: int): seq<MediaPacket> {
    if s == [] then [] else (if s[0].dts == t then [s[0]] else []) + AtTime(s[1..], t)
  }

  lemma {:induction false} InsertInOrder(p: MediaPacket, s: seq<MediaPacket>)
    requires InOrder(s)
    ensures InOrder(Insert(p, s)) && forall x :: x in Insert(p, s) ==> x == p || x in s
  {
    if s != [] && p.dts > s[0].dts {
      assert forall i :: 0 <= i < |s[1..]| ==> s[1..][i] == s[i + 1];
      InsertInOrder(p, s[1..]);
      var rest := Insert(p, s[1..]);
      forall j | 0 <= j < |rest| ensures s[0].dts <= rest[j].dts {
        assert rest[j] in rest;
        if rest[j] != p {
          var k :| 0 <= k < |s[1..]| && s[1..][k] == rest[j];
        }
      }
    }
  }

  lemma {:induction false} InsertAtTime(p: MediaPacket, s: seq<MediaPacket>, t: int)
    ensures AtTime(Insert(p, s), t) == (if p.dts == t then [p] else []) + AtTime(s, t)
  {
    if s == [] || p.dts <= s[0].dts {
      assert ([p] + s)[1..] == s;
      assert Insert(p, s) == [p] + s;
    } else {
      InsertAtTime(p, s[1..], t);
      assert ([s[0]] + Insert(p, s[1..]))[1..] == Insert(p, s[1..]);
      if p.dts == t {
        assert s[0].dts != t;
      }
    }
  }

  /** The sort puts packets in decode order and leaves those of the same time in the order they came. */
  lemma {:induction false} SortSorts(s: seq<MediaPacket>)
    ensures InOrder(SortByDts(s))
    ensures forall t :: AtTime(SortByDts(s), t) == AtTime(s, t)
  {
    if s != [] {
      SortSorts(s[1..]);
      InsertInOrder(s[0], SortByDts(s[1..]));
      forall t ensures AtTime(SortByDts(s), t) == AtTime(s, t) {
        InsertAtTime(s[0], SortByDts(s[1..]), t);
      }
    }
  }

  /** So does every drain: what it keeps goes out in decode order. */
  lemma BatchInOrder(e: Engine)
    ensures InOrder(Batch(e))
    ensures forall t :: AtTime(Batch(e), t) == AtTime(Kept(e.buffer.queue, e.awaitingKeyframe), t)
  {
    SortSorts(Kept(e.buffer.queue, e.awaitingKeyframe));
  }
}
