/**
  The session's side of resuming on a keyframe: it detaches before every reconnect, so each connection
  it dials after a loss starts on a keyframe behind its configuration.
 */
module SessionResumes {
  import opened Bytes
  import opened Media
  import opened Mux
  import opened Timeline
  import opened Engines
  import R = EngineRuns
  import T = EngineTimeline
  import K = Resume
  import opened Sessions
  import opened SessionRuns
  import B = Backoff

  /** The call that finishes the stream: what waits is written and flushed. */
  predicate Ends(s: Session, c: Call) {
    c.FinishCall? && s.state == Connected && s.engine.muxer.Some? && Finish(s.engine, c.flush).1 == Done
  }

  predicate EndsIn(s: Session, calls: seq<Call>)
    decreases |calls|
  {
    calls != [] && (Ends(s, calls[0]) || EndsIn(Do(s, calls[0]), calls[1..]))
  }

  /** What an engine asks of its callers to resume on a keyframe, asked of the session's. */
  ghost predicate GentleCall(s: Session, c: Call) {
    && Proper(s, c) && (c.PushCall? ==> K.PushSafe(s.engine, c.ps))
    && (c.FinishCall? && s.state == Connected ==> K.FinishSafe(s.engine, c.flush))
  }

  ghost predicate GentleCalls(s: Session, calls: seq<Call>)
    decreases |calls|
  {
    calls != [] ==> GentleCall(s, calls[0]) && GentleCalls(Do(s, calls[0]), calls[1..])
  }

  // ---------------------------------------------------------------------------------
  // Session calls as gentle engine runs
  // ---------------------------------------------------------------------------------

  lemma {:induction false} GentleSplit(w: R.World, a: seq<R.Event>, b: seq<R.Event>)
    requires K.GentleRun(w, a) && R.Run(w, a).ended == w.ended && K.GentleRun(R.Run(w, a), b)
    ensures K.GentleRun(w, a + b)
    decreases |a|
  {
    hide R.Next, K.Gentle;
    if a == [] {
      assert a + b == b;
    } else {
      assert (a + b)[1..] == a[1..] + b;
      K.NextEnds(w, a[0]);
      K.RunEnds(R.Next(w, a[0]), a[1..]);
      GentleSplit(R.Next(w, a[0]), a[1..], b);
    }
  }

  /** Neither a push nor a finish. */
  predicate Plain(ev: R.Event) {
    !ev.PushEv? && !ev.FinishEv?
  }

  lemma PlainKeeps(w: R.World, ev: R.Event)
    requires Plain(ev)
    ensures R.Next(w, ev).ended == w.ended && (T.Orderly(w, ev) ==> K.Gentle(w, ev))
  {
    hide Tick, TickSent, R.TickDrops, Attach, Detach, R.CutDrops, ConfigureCodecs, R.Current;
  }

  lemma {:induction false} PlainGentle(w: R.World, events: seq<R.Event>)
    requires T.OrderlyRun(w, events) && forall i :: 0 <= i < |events| ==> Plain(events[i])
    ensures K.GentleRun(w, events) && R.Run(w, events).ended == w.ended
    decreases |events|
  {
    hide R.Next, K.Gentle, T.Orderly, Plain;
    if events != [] {
      PlainKeeps(w, events[0]);
      assert forall i :: 0 <= i < |events[1..]| ==> events[1..][i] == events[i + 1];
      PlainGentle(R.Next(w, events[0]), events[1..]);
    }
  }

  lemma OneGentle(w: R.World, ev: R.Event)
    requires K.Gentle(w, ev)
    ensures K.GentleRun(w, [ev]) && R.Run(w, [ev]) == R.Next(w, ev)
  {
    hide R.Next, K.Gentle;
    assert [ev][1..] == [];
    assert K.GentleRun(R.Next(w, ev), []);
    RunTwice(w, ev, []);
  }

  lemma FinishEnds(w: R.World, flushes: bool)
    ensures var n := R.Next(w, R.FinishEv(flushes));
      n.ended == w.ended <==> w.engine.muxer.None? || Finish(w.engine, flushes).1 != Done
  {
    hide Finish, R.FinishMux, R.TickDrops, R.Current, Batch;
  }

  lemma PushEnds(w: R.World, ps: seq<MediaPacket>)
    ensures R.Next(w, R.PushEv(ps)).ended == w.ended
  {
    hide PushAll, R.PushDrops, R.PolicyDrops, PushSeq;
  }

  lemma NoPlainGentle(w: R.World)
    ensures K.GentleRun(w, []) && R.Run(w, []) == w
  {
  }

  lemma CallGentle(w: R.World, s: Session, c: Call)
    requires Tracks(w, s) && Inv(s) && GentleCall(s, c) && !Ends(s, c)
    ensures K.GentleRun(w, Events(s, c)) && R.Run(w, Events(s, c)).ended == w.ended
  {
    hide R.Next, R.Run, K.GentleRun, AttemptEvents, T.AllFit, FitsConfig, K.PushSafe, K.FinishSafe, Finish, Down;
    match c
    case PushCall(ps) =>
      PushEnds(w, ps);
      OneGentle(w, R.PushEv(ps));
    case FinishCall(flush, _) =>
      NoPlainGentle(w);
      if s.state == Connected {
        FinishEnds(w, flush);
        OneGentle(w, R.FinishEv(flush));
      }
    case _ =>
      CallOrderly(w, s, c);
      PlainEvents(s, c);
      PlainGentle(w, Events(s, c));
  }

  lemma PlainEvents(s: Session, c: Call)
    requires !c.PushCall? && !c.FinishCall?
    ensures forall i :: 0 <= i < |Events(s, c)| ==> Plain(Events(s, c)[i])
  {
    hide Disconnect, Down;
  }

  lemma {:induction false} RunGentle(w: R.World, s: Session, calls: seq<Call>)
    requires Tracks(w, s) && Inv(s) && GentleCalls(s, calls) && !EndsIn(s, calls)
    ensures K.GentleRun(w, AllEvents(s, calls)) && R.Run(w, AllEvents(s, calls)).ended == w.ended
    decreases |calls|
  {
    hide R.Run, Do, Events, Tracks, Inv, K.GentleRun, GentleCall, Ends;
    if calls == [] {
      NoPlainGentle(w);
    } else {
      var rest := AllEvents(Do(s, calls[0]), calls[1..]);
      CallGentle(w, s, calls[0]);
      CallTracks(w, s, calls[0]);
      CallInv(s, calls[0]);
      RunGentle(R.Run(w, Events(s, calls[0])), Do(s, calls[0]), calls[1..]);
      GentleSplit(w, Events(s, calls[0]), rest);
      RunSplit(w, Events(s, calls[0]), rest);
    }
  }

  // ---------------------------------------------------------------------------------
  // The pump that loses the connection
  // ---------------------------------------------------------------------------------

  /** The engine calls of such a pump before its detach: the tick that failed, or none when the transport stalled. */
  function BeforeLoss(s: Session, c: Call): seq<R.Event>
    requires c.PumpCall?
  {
    if Stalls(s, c.silent) then [] else [R.TickEv(c.healthy, c.flushes)]
  }

  lemma DownIsPump(s: Session, c: Call)
    requires Down(s, c).Some?
    ensures c.PumpCall?
  {
  }

  function AfterLoss(s: Session, c: Call): seq<R.Event>
    requires Down(s, c).Some?
  {
    AttemptEvents(Down(s, c).value, c.a)
  }

  lemma LossSplits(s: Session, c: Call)
    requires s.state == Connected && Down(s, c).Some?
    ensures Events(s, c) == BeforeLoss(s, c) + ([R.DetachEv] + AfterLoss(s, c))
  {
    hide AttemptEvents, Disconnect, Tick;
  }

  lemma LossTracks(w: R.World, s: Session, c: Call)
    requires Tracks(w, s) && s.state == Connected && Down(s, c).Some?
    ensures Tracks(R.Next(R.Run(w, BeforeLoss(s, c)), R.DetachEv), Down(s, c).value)
  {
    hide R.Next, R.Run, Down;
    DownIsPump(s, c);
    DownTracks(w, s, c);
    RunTwice(w, R.TickEv(c.healthy, c.flushes), []);
  }

  /** The world just before the detach is as sound as the one before the pump. */
  lemma LossSound(w: R.World, s: Session, c: Call)
    requires Tracks(w, s) && s.state == Connected && Down(s, c).Some?
    requires T.TimelineSound(w) && T.Fitting(w.engine) && K.VideoOrdered(w.engine.buffer.queue)
    ensures var u := R.Run(w, BeforeLoss(s, c));
      && T.TimelineSound(u) && T.Fitting(u.engine) && K.VideoOrdered(u.engine.buffer.queue) && u.ended == w.ended
  {
    hide R.Next, R.Run, T.TimelineSound, T.Fitting, K.VideoOrdered, Down;
    DownIsPump(s, c);
    var tick := R.TickEv(c.healthy, c.flushes);
    RunTwice(w, tick, []);
    T.StepSound(w, tick);
    K.TickOrdered(w, c.healthy, c.flushes);
    PlainKeeps(w, tick);
  }

  /** What the reconnect of that pump does is gentle. */
  lemma AttemptGentle(w: R.World, s: Session, c: Call)
    requires Inv(s) && s.state == Connected && Down(s, c).Some? && Tracks(w, Down(s, c).value)
    ensures K.GentleRun(w, AfterLoss(s, c)) && R.Run(w, AfterLoss(s, c)).ended == w.ended
  {
    hide R.Next, R.Run, K.GentleRun, T.OrderlyRun, Down;
    DownIsPump(s, c);
    DownInv(s, c);
    AttemptOrderly(w, Down(s, c).value, c.a);
    PlainGentle(w, AfterLoss(s, c));
  }

  /**
    Any session, at a pump in which it loses its connection with the video configuration known. As long
    as pushes and finishes are gentle and until the stream is finished, every connection it dials from
    then on shows a video configuration and then a keyframe before any other video frame.
   */
  lemma SessionResumesOnKeyframe(policy: B.Policy, profile: LatencyProfile, meta: bytes, before: seq<Call>, c: Call,
                                 calls: seq<Call>)
    requires |meta| < TWO_24 && ProperRun(NewSession(policy, profile, meta), before)
    requires var s := DoAll(NewSession(policy, profile, meta), before);
      && s.state == Connected && Down(s, c).Some? && Down(s, c).value.engine.avcc.Some?
      && K.VideoOrdered(s.engine.buffer.queue) && GentleCalls(Do(s, c), calls) && !EndsIn(Do(s, c), calls)
    ensures var s := DoAll(NewSession(policy, profile, meta), before);
      var e := DoAll(Do(s, c), calls).engine;
      && K.GoodStart(R.Current(e))
      && (e.muxer.Some? ==> K.GoodStart(K.Tags(R.FinishMux(e))))
  {
    hide R.Next, R.Run, DoAll, Do, AllEvents, ProperRun, Down, T.TimelineSound, T.Fitting, T.OrderlyRun,
         K.VideoOrdered, GentleCalls, EndsIn, K.GentleRun, K.GoodStart, R.Current, R.FinishMux, K.Tags, Inv, Tracks,
         Events, BeforeLoss, AfterLoss;
    var start := NewSession(policy, profile, meta);
    var s, w := DoAll(start, before), R.Run(R.NewWorld(profile, meta), AllEvents(start, before));
    ReachedSound(policy, profile, meta, before);
    LossResumes(w, s, c, calls);
  }

  lemma ReachedSound(policy: B.Policy, profile: LatencyProfile, meta: bytes, before: seq<Call>)
    requires |meta| < TWO_24 && ProperRun(NewSession(policy, profile, meta), before)
    ensures var s := NewSession(policy, profile, meta);
      var w := R.Run(R.NewWorld(profile, meta), AllEvents(s, before));
      && Tracks(w, DoAll(s, before)) && Inv(DoAll(s, before)) && T.TimelineSound(w) && T.Fitting(w.engine)
  {
    hide R.Run, DoAll, AllEvents, ProperRun;
    var s := NewSession(policy, profile, meta);
    RunTracks(R.NewWorld(profile, meta), s, before);
    RunInv(s, before);
    RunOrderly(R.NewWorld(profile, meta), s, before);
    T.RunSound(R.NewWorld(profile, meta), AllEvents(s, before));
  }

  lemma LossResumes(w: R.World, s: Session, c: Call, calls: seq<Call>)
    requires Tracks(w, s) && Inv(s) && T.TimelineSound(w) && T.Fitting(w.engine)
    requires s.state == Connected && Down(s, c).Some? && Down(s, c).value.engine.avcc.Some?
    requires K.VideoOrdered(s.engine.buffer.queue) && GentleCalls(Do(s, c), calls) && !EndsIn(Do(s, c), calls)
    ensures var e := DoAll(Do(s, c), calls).engine;
      && K.GoodStart(R.Current(e))
      && (e.muxer.Some? ==> K.GoodStart(K.Tags(R.FinishMux(e))))
  {
    hide R.Next, R.Run, DoAll, Do, AllEvents, Down, T.TimelineSound, T.Fitting, K.VideoOrdered, GentleCalls, EndsIn,
         K.GentleRun, K.GoodStart, R.Current, R.FinishMux, K.Tags, Inv, Events, BeforeLoss, AfterLoss;
    DownIsPump(s, c);
    var pre, more, rest := BeforeLoss(s, c), AfterLoss(s, c), AllEvents(Do(s, c), calls);
    var u := R.Run(w, pre);
    var d := R.Next(u, R.DetachEv);
    LossSound(w, s, c);
    LossTracks(w, s, c);
    AttemptGentle(d, s, c);
    LossSplits(s, c);
    RunSplit(w, pre, [R.DetachEv] + more);
    RunTwice(u, R.DetachEv, more);
    CallTracks(w, s, c);
    CallInv(s, c);
    var v := R.Run(d, more);
    RunGentle(v, Do(s, c), calls);
    GentleSplit(d, more, rest);
    RunSplit(d, more, rest);
    RunTracks(v, Do(s, c), calls);
    K.DetachEnds(u);
    K.ResumesOnKeyframe(u, more + rest);
  }
}
