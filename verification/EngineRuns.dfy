/**
  Runs of the engine: any sequence of public calls, with what went into the engine, what reached
  the transport and what was dropped recorded beside its state.
 */
module EngineRuns {
  import opened Bytes
  import opened Media
  import opened FlvTags
  import opened Mux
  import opened Timeline
  import opened Backpressure
  import opened Engines
  import opened MuxRoom

  datatype Event =
    | PushEv(ps: seq<MediaPacket>)
    | TickEv(healthy: bool, flushes: bool)
    | AttachEv(room: nat)
    | DetachEv
    | ConfigureEv(avcc: Option<bytes>, asc: Option<bytes>)
    | ResyncEv
    | FinishEv(flushes: bool)

  /**
    The engine; the tags of the streams that were finished and of the connections of this one that
    are gone; and the packets by their fate. A finish that fails loses its batch.
   */
  datatype World = World(
    engine: Engine, ended: seq<seq<FlvTag>>, past: seq<FlvTag>,
    pushed: seq<MediaPacket>, muxed: seq<MediaPacket>, dropped: seq<MediaPacket>, lost: seq<MediaPacket>)

  function NewWorld(profile: LatencyProfile, meta: bytes): World {
    World(NewEngine(profile, meta), [], [], [], [], [], [])
  }

  /** The tags a peer has seen on the connection that is attached. */
  function Current(e: Engine): seq<FlvTag> {
    if e.muxer.Some? then TagsOf(e.muxer.value.sink.log) else []
  }

  /** All tags of the current stream, connection after connection. */
  function Seen(w: World): seq<FlvTag> {
    w.past + Current(w.engine)
  }

  function PushDrops(b: Buffer, ps: seq<MediaPacket>): seq<MediaPacket>
    decreases |ps|
  {
    if ps == [] then [] else Evicted(b) + PushDrops(Push(b, ps[0]), ps[1..])
  }

  function CutDrops(q: seq<MediaPacket>): seq<MediaPacket> {
    q[..BeforeLastKey(q)]
  }

  function PolicyDrops(profile: LatencyProfile, b: Buffer): seq<MediaPacket> {
    var threshold := CutThreshold(profile);
    if threshold.Some? && |b.queue| >= threshold.value then CutDrops(b.queue) else []
  }

  function TickDrops(e: Engine, healthy: bool): seq<MediaPacket> {
    if e.muxer.None? || !healthy then [] else Orphans(e.buffer.queue, e.awaitingKeyframe)
  }

  /** The muxer a finish leaves behind its final drain. */
  function FinishMux(e: Engine): Mux
    requires e.muxer.Some?
  {
    SendStrict(e.muxer.value, Batch(e)).0
  }

  function Next(w: World, ev: Event): World {
    var e := w.engine;
    match ev
    case PushEv(ps) =>
      w.(engine := PushAll(e, ps), pushed := w.pushed + ps,
         dropped := w.dropped + PushDrops(e.buffer, ps) + PolicyDrops(e.profile, PushSeq(e.buffer, ps)))
    case TickEv(healthy, flushes) =>
      w.(engine := Tick(e, healthy, flushes).0, muxed := w.muxed + TickSent(e, healthy, flushes),
         dropped := w.dropped + TickDrops(e, healthy))
    case AttachEv(room) =>
      w.(engine := Attach(e, Sink([], room, false)), past := w.past + Current(e))
    case DetachEv =>
      w.(engine := Detach(e), past := w.past + Current(e), dropped := w.dropped + CutDrops(e.buffer.queue))
    case ConfigureEv(avcc, asc) =>
      w.(engine := ConfigureCodecs(e, avcc, asc).0)
    case ResyncEv =>
      w.(engine := e.(buffer := Resync(e.buffer)), dropped := w.dropped + CutDrops(e.buffer.queue))
    case FinishEv(flushes) =>
      if e.muxer.None? then w
      else
        var (n, r) := Finish(e, flushes);
        var v := w.(engine := n, dropped := w.dropped + TickDrops(e, true));
        if r != Done then v.(lost := w.lost + Batch(e))
        else v.(muxed := w.muxed + Batch(e), ended := w.ended + [w.past + TagsOf(FinishMux(e).sink.log)], past := [])
  }

  function Run(w: World, events: seq<Event>): World
    decreases |events|
  {
    if events == [] then w else Run(Next(w, events[0]), events[1..])
  }

  // ---------------------------------------------------------------------------------
  // Conservation
  // ---------------------------------------------------------------------------------

  /** The packets that will not come out any more, without having been muxed. */
  ghost function Gone(w: World): multiset<MediaPacket> {
    multiset(w.dropped) + multiset(w.lost)
  }

  /**
    Every packet that was pushed has exactly one fate, the counters say how many have which, and
    the buffer stays within the profile's budget.
   */
  ghost predicate Conserved(w: World) {
    var b := w.engine.buffer;
    && multiset(w.pushed) == multiset(w.muxed) + Gone(w) + multiset(b.queue)
    && b.pushed == |w.pushed| && b.dropped == |w.dropped| && w.engine.muxed == |w.muxed|
    && |b.queue| <= b.capacity == PacketBudget(w.engine.profile)
  }

  /** Two steps of bookkeeping, one after the other. */
  lemma Chain<T>(a: multiset<T>, p: multiset<T>, d: multiset<T>, b: multiset<T>, q: multiset<T>, e: multiset<T>,
         c: multiset<T>)
    requires a + p == d + b && b + q == e + c
    ensures a + (p + q) == (d + e) + c
  {
    forall x ensures (a + (p + q))[x] == ((d + e) + c)[x] {
      assert (a + p)[x] == (d + b)[x] && (b + q)[x] == (e + c)[x];
    }
  }

  /** The ledger after `p` came in, `m` went out and `d` was dropped. */
  lemma Ledger<T>(pushed: multiset<T>, muxed: multiset<T>, dropped: multiset<T>, b: multiset<T>,
                  p: multiset<T>, m: multiset<T>, d: multiset<T>, b': multiset<T>)
    requires pushed == muxed + dropped + b && b + p == m + d + b'
    ensures pushed + p == (muxed + m) + (dropped + d) + b'
  {
    forall x ensures (pushed + p)[x] == ((muxed + m) + (dropped + d) + b')[x] {
      assert pushed[x] == (muxed + dropped + b)[x] && (b + p)[x] == (m + d + b')[x];
    }
  }

  /** A step that takes `p` in, muxes `m`, drops `d` and loses `l` of what it finds in the buffer. */
  lemma Balance(w: World, n: World, p: seq<MediaPacket>, m: seq<MediaPacket>, d: seq<MediaPacket>, l: seq<MediaPacket>)
    requires Conserved(w) && n.pushed == w.pushed + p && n.muxed == w.muxed + m
    requires n.dropped == w.dropped + d && n.lost == w.lost + l
    requires var (b, c) := (w.engine.buffer, n.engine.buffer);
      && multiset(b.queue) + multiset(p) == multiset(m) + (multiset(d) + multiset(l)) + multiset(c.queue)
      && c.pushed == b.pushed + |p| && c.dropped == b.dropped + |d| && n.engine.muxed == w.engine.muxed + |m|
      && |c.queue| <= c.capacity == b.capacity && n.engine.profile == w.engine.profile
    ensures Conserved(n)
  {
    hide PacketBudget;
    var (b, c) := (w.engine.buffer, n.engine.buffer);
    Ledger(multiset(w.pushed), multiset(w.muxed), Gone(w), multiset(b.queue),
           multiset(p), multiset(m), multiset(d) + multiset(l), multiset(c.queue));
    GoneGrows(w, n, d, l);
  }

  lemma GoneGrows(w: World, n: World, d: seq<MediaPacket>, l: seq<MediaPacket>)
    requires n.dropped == w.dropped + d && n.lost == w.lost + l
    ensures Gone(n) == Gone(w) + (multiset(d) + multiset(l))
  {
  }

  lemma PushConserves(b: Buffer, p: MediaPacket)
    requires 0 < b.capacity && |b.queue| <= b.capacity
    ensures var b' := Push(b, p);
            && multiset(b.queue) + multiset{p} == multiset(Evicted(b)) + multiset(b'.queue)
            && b'.pushed == b.pushed + 1 && b'.dropped == b.dropped + |Evicted(b)|
            && |b'.queue| <= b'.capacity == b.capacity
  {
    if b.queue != [] {
      assert b.queue == [b.queue[0]] + b.queue[1..];
    }
  }

  lemma {:induction false} PushSeqConserves(b: Buffer, ps: seq<MediaPacket>)
    requires 0 < b.capacity && |b.queue| <= b.capacity
    ensures var b' := PushSeq(b, ps);
            && multiset(b.queue) + multiset(ps) == multiset(PushDrops(b, ps)) + multiset(b'.queue)
            && b'.pushed == b.pushed + |ps| && b'.dropped == b.dropped + |PushDrops(b, ps)|
            && |b'.queue| <= b'.capacity == b.capacity
    decreases |ps|
  {
    hide Push, Evicted;
    if ps == [] {
      assert multiset(ps) == multiset{};
    } else {
      PushConserves(b, ps[0]);
      PushSeqConserves(Push(b, ps[0]), ps[1..]);
      assert ps == [ps[0]] + ps[1..];
      var b1 := Push(b, ps[0]);
      Chain(multiset(b.queue), multiset{ps[0]}, multiset(Evicted(b)), multiset(b1.queue),
            multiset(ps[1..]), multiset(PushDrops(b1, ps[1..])), multiset(PushSeq(b1, ps[1..]).queue));
    }
  }

  lemma CutConserves(b: Buffer)
    ensures multiset(b.queue) == multiset(CutDrops(b.queue)) + multiset(Resync(b).queue)
    ensures Resync(b).dropped == b.dropped + |CutDrops(b.queue)| && |Resync(b).queue| <= |b.queue|
  {
    var n := BeforeLastKey(b.queue);
    assert b.queue == b.queue[..n] + b.queue[n..];
  }

  lemma SplitConserves(q: seq<MediaPacket>, awaiting: bool, batch: seq<MediaPacket>, sent: nat)
    requires batch == SortByDts(Kept(q, awaiting)) && sent <= |batch|
    ensures multiset(q) == multiset(batch[..sent]) + multiset(Orphans(q, awaiting)) + multiset(batch[sent..])
    ensures |batch| + |Orphans(q, awaiting)| == |q|
  {
    hide Kept, Orphans, SortByDts;
    DrainElements(q, awaiting);
    SortElements(Kept(q, awaiting));
    assert batch == batch[..sent] + batch[sent..];
  }

  lemma SettleCounts(e: Engine, batch: seq<MediaPacket>, r: SendResult)
    requires r.sent <= |batch| && (r.failure == Done ==> r.sent == |batch|) && e.buffer.queue == []
    ensures Settle(e, batch, r).buffer == e.buffer.(queue := batch[r.sent..])
    ensures Settle(e, batch, r).muxed == e.muxed + r.sent && Settle(e, batch, r).profile == e.profile
  {
    assert batch[r.sent..] + [] == batch[r.sent..];
    assert batch[|batch|..] == [];
  }

  /** A tick on the engine alone: the queue is split into what went out, what was dropped and what came back. */
  lemma TickBalances(e: Engine, healthy: bool, flushes: bool)
    requires |e.buffer.queue| <= e.buffer.capacity
    ensures var n, sent, drops := Tick(e, healthy, flushes).0, TickSent(e, healthy, flushes), TickDrops(e, healthy);
      && multiset(e.buffer.queue) + multiset{} == multiset(sent) + multiset(drops) + multiset(n.buffer.queue)
      && n.buffer.pushed == e.buffer.pushed && n.buffer.dropped == e.buffer.dropped + |drops|
      && n.muxed == e.muxed + |sent| && n.profile == e.profile
      && |n.buffer.queue| <= n.buffer.capacity == e.buffer.capacity
  {
    hide SendBatch, Kept, Orphans, SortByDts, HasKeyframe, Settle;
    if e.muxer.Some? && healthy {
      var batch, r := Batch(e), SendBatch(e, e.muxer.value, flushes);
      SplitConserves(e.buffer.queue, e.awaitingKeyframe, batch, r.sent);
      SettleCounts(Drained(e), batch, r);
    }
  }

  lemma TickConserves(w: World, healthy: bool, flushes: bool)
    requires Conserved(w)
    ensures Conserved(Next(w, TickEv(healthy, flushes)))
  {
    hide Tick, TickSent, TickDrops, Gone;
    var e := w.engine;
    TickBalances(e, healthy, flushes);
    Balance(w, Next(w, TickEv(healthy, flushes)), [], TickSent(e, healthy, flushes), TickDrops(e, healthy), []);
  }

  /** A finish on the engine alone: what it drains is dropped or in its batch, and counted when it succeeds. */
  lemma FinishBalances(e: Engine, flushes: bool)
    requires e.muxer.Some?
    ensures var (n, r) := Finish(e, flushes);
      && multiset(e.buffer.queue) == multiset(Batch(e)) + multiset(TickDrops(e, true)) && n.buffer.queue == []
      && n.buffer.pushed == e.buffer.pushed && n.buffer.dropped == e.buffer.dropped + |TickDrops(e, true)|
      && n.muxed == e.muxed + (if r == Done then |Batch(e)| else 0) && n.profile == e.profile
      && n.buffer.capacity == e.buffer.capacity
  {
    hide SendStrict, Kept, Orphans, SortByDts, HasKeyframe;
    var batch := Batch(e);
    SplitConserves(e.buffer.queue, e.awaitingKeyframe, batch, |batch|);
    assert batch[..|batch|] == batch && batch[|batch|..] == [];
  }

  lemma FinishConserves(w: World, flushes: bool)
    requires Conserved(w)
    ensures Conserved(Next(w, FinishEv(flushes)))
  {
    hide Finish, FinishMux, Batch, TickDrops, Gone, TagsOf;
    var e, n := w.engine, Next(w, FinishEv(flushes));
    if e.muxer.Some? {
      FinishBalances(e, flushes);
      var batch, drops := Batch(e), TickDrops(e, true);
      if Finish(e, flushes).1 == Done {
        assert w.lost + [] == w.lost;
        Balance(w, n, [], batch, drops, []);
      } else {
        assert w.muxed + [] == w.muxed;
        Balance(w, n, [], [], drops, batch);
      }
    }
  }

  /** Pushing a batch and then applying the drop policy, on the buffer alone. */
  lemma PushAllBalances(b: Buffer, profile: LatencyProfile, ps: seq<MediaPacket>)
    requires 0 < b.capacity && |b.queue| <= b.capacity
    ensures var b1 := PushSeq(b, ps);
      var b2, d1, d2 := EnforceDropPolicy(profile, b1), PushDrops(b, ps), PolicyDrops(profile, b1);
      && multiset(b.queue) + multiset(ps) == multiset{} + (multiset(d1) + multiset(d2)) + multiset(b2.queue)
      && b2.pushed == b.pushed + |ps| && b2.dropped == b.dropped + |d1| + |d2|
      && |b2.queue| <= b2.capacity == b.capacity
  {
    hide PushSeq, PushDrops, BeforeLastKey, CutDrops, Resync;
    PushSeqConserves(b, ps);
    CutConserves(PushSeq(b, ps));
    ResyncKeeps(PushSeq(b, ps));
    var d1, d2 := PushDrops(b, ps), PolicyDrops(profile, PushSeq(b, ps));
    var q1, q2 := PushSeq(b, ps).queue, EnforceDropPolicy(profile, PushSeq(b, ps)).queue;
    assert multiset(q1) == multiset(d2) + multiset(q2);
    Chain(multiset(b.queue), multiset(ps), multiset(d1), multiset(q1), multiset{}, multiset(d2), multiset(q2));
  }

  lemma PushEvConserves(w: World, ps: seq<MediaPacket>)
    requires Conserved(w)
    ensures Conserved(Next(w, PushEv(ps)))
  {
    hide PushSeq, PushDrops, PolicyDrops, EnforceDropPolicy, Gone;
    var b, profile := w.engine.buffer, w.engine.profile;
    PushAllBalances(b, profile, ps);
    var d1, d2 := PushDrops(b, ps), PolicyDrops(profile, PushSeq(b, ps));
    assert w.dropped + d1 + d2 == w.dropped + (d1 + d2);
    assert multiset(d1 + d2) == multiset(d1) + multiset(d2);
    Balance(w, Next(w, PushEv(ps)), ps, [], d1 + d2, []);
  }

  lemma CutEvConserves(w: World, ev: Event)
    requires Conserved(w) && (ev == DetachEv || ev == ResyncEv)
    ensures Conserved(Next(w, ev))
  {
    hide BeforeLastKey, CutDrops, Resync, TagsOf, Gone;
    CutConserves(w.engine.buffer);
    ResyncKeeps(w.engine.buffer);
    Balance(w, Next(w, ev), [], [], CutDrops(w.engine.buffer.queue), []);
  }

  lemma ResyncKeeps(b: Buffer)
    ensures Resync(b).capacity == b.capacity && Resync(b).pushed == b.pushed
  {
  }

  lemma StepConserves(w: World, ev: Event)
    requires Conserved(w)
    ensures Conserved(Next(w, ev))
  {
    match ev
    case PushEv(ps) => PushEvConserves(w, ps);
    case TickEv(healthy, flushes) => TickConserves(w, healthy, flushes);
    case AttachEv(room) => AttachEvConserves(w, room);
    case DetachEv => CutEvConserves(w, ev);
    case ConfigureEv(avcc, asc) => ConfigureEvConserves(w, avcc, asc);
    case ResyncEv => CutEvConserves(w, ev);
    case FinishEv(flushes) => FinishConserves(w, flushes);
  }

  lemma AttachEvConserves(w: World, room: nat)
    requires Conserved(w)
    ensures Conserved(Next(w, AttachEv(room)))
  {
    hide TagsOf;
  }

  lemma ConfigureEvConserves(w: World, avcc: Option<bytes>, asc: Option<bytes>)
    requires Conserved(w)
    ensures Conserved(Next(w, ConfigureEv(avcc, asc)))
  {
    hide InitCodecs, PacketBudget, Or;
  }

  lemma {:induction false} RunConserves(w: World, events: seq<Event>)
    requires Conserved(w)
    ensures Conserved(Run(w, events))
    decreases |events|
  {
    hide Next, Conserved;
    if events != [] {
      StepConserves(w, events[0]);
      RunConserves(Next(w, events[0]), events[1..]);
    }
  }

  lemma {:induction false} RunKeepsProfile(w: World, events: seq<Event>)
    ensures Run(w, events).engine.profile == w.engine.profile
    decreases |events|
  {
    if events != [] {
      StepKeepsProfile(w, events[0]);
      RunKeepsProfile(Next(w, events[0]), events[1..]);
    }
  }

  lemma StepKeepsProfile(w: World, ev: Event)
    ensures Next(w, ev).engine.profile == w.engine.profile
  {
    hide PushSeq, PushDrops, BeforeLastKey, InitCodecs, TagsOf, SendBatch, Kept, Orphans, SortByDts;
  }

  /** A successful tick reports how many packets it muxed, and one that fails leaves the rest in the buffer. */
  lemma TickReports(e: Engine, healthy: bool, flushes: bool)
    ensures var (n, r) := Tick(e, healthy, flushes);
      && (r.Muxed? ==> n.muxed == e.muxed + r.n)
      && (r.Muxed? && e.muxer.Some? ==> n.buffer.queue == [])
      && (r.Unhealthy? <==> e.muxer.Some? && !healthy)
      && (r.Unhealthy? ==> n == e)
  {
    hide SendBatch, Batch, Orphans, HasKeyframe;
    assert Batch(e)[|Batch(e)|..] == [];
  }

  /** A queue with no keyframe behind its first packet: nothing stands before the newest one. */
  ghost predicate Cut(q: seq<MediaPacket>) {
    forall k :: 0 < k < |q| ==> !IsKeyframe(q[k])
  }

  /**
    The drop policy: with 15 packets or more the aggressive profile, and with 120 the balanced one, keep
    nothing from before the newest keyframe; short of that, and under the lenient profile, pushing drops
    what does not fit the buffer and nothing else.
   */
  lemma DropPolicy(e: Engine, ps: seq<MediaPacket>)
    ensures var q, pushed := PushAll(e, ps).buffer.queue, PushSeq(e.buffer, ps).queue;
      var limit := match e.profile case Aggressive => Some(15) case Balanced => Some(120) case Lenient => None;
      if limit.Some? && |pushed| >= limit.value then
        Cut(q) && exists n :: 0 <= n <= |pushed| && q == pushed[n..] && (n == 0 || (q != [] && IsKeyframe(q[0])))
      else q == pushed
  {
    hide PushSeq;
    var pushed := PushSeq(e.buffer, ps).queue;
    var n := BeforeLastKey(pushed);
    assert pushed[n..] == pushed[n..];
  }

  function Newest(q: seq<MediaPacket>, n: nat): seq<MediaPacket> {
    if |q| <= n then q else q[|q| - n..]
  }

  lemma {:induction false} PushesKeepNewest(b: Buffer, ps: seq<MediaPacket>)
    requires |b.queue| <= b.capacity && b.capacity > 0
    ensures PushSeq(b, ps).queue == Newest(b.queue + ps, b.capacity)
    decreases |ps|
  {
    if ps == [] {
      assert b.queue + ps == b.queue;
    } else {
      PushesKeepNewest(Push(b, ps[0]), ps[1..]);
      assert b.queue + ps == b.queue + [ps[0]] + ps[1..];
      assert Newest(Push(b, ps[0]).queue + ps[1..], b.capacity) == Newest(b.queue + ps, b.capacity);
    }
  }

  /** The budgets: of all that is pushed into a new engine the newest 30, 120 or 480 packets find room. */
  lemma BudgetKept(profile: LatencyProfile, meta: bytes, ps: seq<MediaPacket>)
    ensures PushSeq(NewEngine(profile, meta).buffer, ps).queue ==
      Newest(ps, match profile case Aggressive => 30 case Balanced => 120 case Lenient => 480)
  {
    PushesKeepNewest(NewEngine(profile, meta).buffer, ps);
    assert [] + ps == ps;
  }

  // ---------------------------------------------------------------------------------
  // When a finish keeps its batch
  // ---------------------------------------------------------------------------------

  /** The strict drain succeeds exactly when every packet is acceptable in its turn and the bytes of all find room. */
  lemma {:induction false} StrictSucceeds(m: Mux, ps: seq<MediaPacket>)
    ensures SendStrict(m, ps).1 == Done <==> Acceptable(m, ps) && BytesForAll(m, ps) <= Room(m.sink)
    decreases |ps|
  {
    hide WritePacket, BytesFor, Known, Room, SameClock, Advanced, TrackTime;
    RoomNotNegative(m.sink);
    if ps != [] {
      WriteSucceeds(m, ps[0]);
      var n := WritePacket(m, ps[0]).0;
      StrictSucceeds(n, ps[1..]);
      if WritePacket(m, ps[0]).1 == Done {
        SameClockBatch(n, Advanced(m, ps[0]), ps[1..]);
      }
    }
  }

  lemma RoomNotNegative(s: Sink)
    ensures Room(s) >= 0
  {
  }

  /**
    Said before the call: there is nothing to finish or to send, or the flush succeeds, every packet of
    the sorted batch is acceptable without a rebase, and the transport takes the bytes of them all.
   */
  predicate KeepsBatch(e: Engine, flushes: bool) {
    || e.muxer.None? || Batch(e) == []
    || (flushes && Acceptable(e.muxer.value, Batch(e))
        && BytesForAll(e.muxer.value, Batch(e)) <= Room(e.muxer.value.sink))
  }

  lemma FinishSucceeds(e: Engine, flushes: bool)
    ensures Finish(e, flushes).1 == Done || (e.muxer.Some? && Batch(e) == []) <==> KeepsBatch(e, flushes)
  {
    hide SendStrict, Batch, Acceptable, BytesForAll, Room, HasKeyframe, Orphans;
    if e.muxer.Some? {
      StrictSucceeds(e.muxer.value, Batch(e));
      NothingToSend(e.muxer.value);
    }
  }

  lemma NothingToSend(m: Mux)
    ensures SendStrict(m, []) == (m, Done)
  {
  }

  /** A finish loses its whole batch when the condition fails, and nothing when it holds. */
  lemma FinishLoses(w: World, flushes: bool)
    ensures Next(w, FinishEv(flushes)).lost == w.lost + if KeepsBatch(w.engine, flushes) then [] else Batch(w.engine)
  {
    hide Finish, Batch, KeepsBatch, TagsOf, FinishMux;
    FinishSucceeds(w.engine, flushes);
    KeepsNothing(w.engine, flushes);
    assert w.lost + [] == w.lost;
  }

  lemma KeepsNothing(e: Engine, flushes: bool)
    ensures e.muxer.None? ==> KeepsBatch(e, flushes)
  {
  }

  /** The engine's own count: what was pushed is muxed, dropped or still buffered. */
  predicate Counted(e: Engine) {
    e.buffer.pushed == e.muxed + e.buffer.dropped + |e.buffer.queue|
  }

  /** A finish keeps the count exactly under that condition; otherwise the count is short by the batch. */
  lemma FinishCount(e: Engine, flushes: bool)
    requires Counted(e)
    ensures Counted(Finish(e, flushes).0) <==> KeepsBatch(e, flushes)
    ensures !KeepsBatch(e, flushes) ==>
              var n := Finish(e, flushes).0;
              n.buffer.pushed == n.muxed + n.buffer.dropped + |n.buffer.queue| + |Batch(e)|
  {
    hide SendStrict, Kept, Orphans, SortByDts, HasKeyframe, KeepsBatch;
    FinishSucceeds(e, flushes);
    DrainElements(e.buffer.queue, e.awaitingKeyframe);
    SortElements(Kept(e.buffer.queue, e.awaitingKeyframe));
  }

  /**
    No transport need fail for a batch to be lost: one audio packet 500 ms behind its track, which a
    tick would rebase and send, is refused by the finish and gone.
   */
  lemma SlipForgotten(w: World, m: Mux, p: MediaPacket)
    requires w.engine.muxer == Some(m) && w.engine.metadataWritten && m.header && m.videoSeq && m.audioSeq
    requires m.origin == Some(0) && m.lastAudio == Some(1000)
    requires p.kind == Audio && p.dts == 500 && w.engine.buffer.queue == [p]
    requires TAG_OVERHEAD + FrameSize(p) <= Room(m.sink)
    ensures Finish(w.engine, true).1 == Ordering && Next(w, FinishEv(true)).engine.buffer.queue == []
    ensures Next(w, FinishEv(true)).lost == w.lost + [p] && Next(w, FinishEv(true)).muxed == w.muxed
    ensures Next(w, TickEv(true, true)).muxed == w.muxed + [p] && Next(w, TickEv(true, true)).lost == w.lost
  {
    hide WritePacket, WriteOrRebase, FrameSize, Room, TagsOf;
    var e := w.engine;
    OneKept(p, e.awaitingKeyframe);
    LeadRoom(m, p);
    WriteSucceeds(m, p);
    WriteOrRebaseSucceeds(m, p);
    NothingToAdd(e, m);
    assert [p][1..] == [] && [p][..1] == [p];
  }

  lemma OneKept(p: MediaPacket, awaiting: bool)
    requires !IsOrphan(p, awaiting)
    ensures Kept([p], awaiting) == [p] && Orphans([p], awaiting) == [] && SortByDts([p]) == [p]
  {
    assert [p][1..] == [];
    assert SortByDts([]) == [];
  }

  lemma NothingToAdd(e: Engine, m: Mux)
    requires e.metadataWritten && m.header && m.videoSeq && m.audioSeq
    ensures Preamble(e, m) == (m, Done)
  {
  }

  // ---------------------------------------------------------------------------------
  // Conservation over runs
  // ---------------------------------------------------------------------------------

  /** Every finish of the run keeps its batch. */
  predicate FinishesKeep(w: World, events: seq<Event>)
    decreases |events|
  {
    events != [] ==>
      && (events[0].FinishEv? ==> KeepsBatch(w.engine, events[0].flushes))
      && FinishesKeep(Next(w, events[0]), events[1..])
  }

  lemma NextLost(w: World, ev: Event)
    ensures w.lost <= Next(w, ev).lost
    ensures Next(w, ev).lost == w.lost <==> (ev.FinishEv? ==> KeepsBatch(w.engine, ev.flushes))
  {
    hide PushAll, PushDrops, PolicyDrops, Tick, TickSent, TickDrops, Attach, Detach, CutDrops, ConfigureCodecs,
         Resync, TagsOf, Finish, KeepsBatch, Batch, FinishMux;
    if ev.FinishEv? {
      FinishLoses(w, ev.flushes);
      KeepsEmpty(w.engine, ev.flushes);
    }
  }

  lemma KeepsEmpty(e: Engine, flushes: bool)
    ensures Batch(e) == [] ==> KeepsBatch(e, flushes)
  {
  }

  lemma {:induction false} RunLost(w: World, events: seq<Event>)
    ensures w.lost <= Run(w, events).lost
    ensures Run(w, events).lost == w.lost <==> FinishesKeep(w, events)
    decreases |events|
  {
    hide Next, KeepsBatch;
    if events != [] {
      NextLost(w, events[0]);
      RunLost(Next(w, events[0]), events[1..]);
    }
  }

  /**
    Over any run from a new engine, failing ticks and finishes included, every pushed packet is in
    exactly one list: counted as muxed, dropped, lost by a finish, or still buffered. Nothing is lost
    exactly when every finish keeps its batch. What a peer saw of these packets is `EngineWire`'s.
   */
  lemma PacketConservation(profile: LatencyProfile, meta: bytes, events: seq<Event>)
    ensures var w := Run(NewWorld(profile, meta), events);
      var b := w.engine.buffer;
      && multiset(w.pushed) == multiset(w.muxed) + (multiset(w.dropped) + multiset(w.lost)) + multiset(b.queue)
      && b.pushed == w.engine.muxed + b.dropped + |w.lost| + |b.queue|
      && |b.queue| <= PacketBudget(profile)
      && (w.lost == [] <==> FinishesKeep(NewWorld(profile, meta), events))
  {
    hide Next;
    RunConserves(NewWorld(profile, meta), events);
    RunKeepsProfile(NewWorld(profile, meta), events);
    RunLost(NewWorld(profile, meta), events);
    var w := Run(NewWorld(profile, meta), events);
    assert |multiset(w.pushed)| == |w.pushed|;
    assert |multiset(w.muxed) + (multiset(w.dropped) + multiset(w.lost)) + multiset(w.engine.buffer.queue)| ==
           |w.muxed| + |w.dropped| + |w.lost| + |w.engine.buffer.queue|;
  }

  /** Between any two calls of a run whose finishes keep their batches: pushed = muxed + dropped + buffered. */
  lemma NothingLost(profile: LatencyProfile, meta: bytes, events: seq<Event>)
    requires FinishesKeep(NewWorld(profile, meta), events)
    ensures var w := Run(NewWorld(profile, meta), events);
      && multiset(w.pushed) == multiset(w.muxed) + multiset(w.dropped) + multiset(w.engine.buffer.queue)
      && Counted(w.engine)
  {
    hide Next, Run, FinishesKeep;
    PacketConservation(profile, meta, events);
    var w := Run(NewWorld(profile, meta), events);
    assert multiset(w.dropped) + multiset(w.lost) == multiset(w.dropped);
  }
}
