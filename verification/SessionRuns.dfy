/** Whole runs of the session: its invariant, its dialing discipline, and the engine runs it drives. */
module SessionRuns {
  import opened Bytes
  import opened Media
  import opened Mux
  import opened Timeline
  import opened Engines
  import opened MuxRoom
  import R = EngineRuns
  import T = EngineTimeline
  import opened Sessions
  import B = Backoff

  // ---------------------------------------------------------------------------------
  // The invariant
  // ---------------------------------------------------------------------------------

  /** How many dials may fail in a row; none when there is no limit. */
  function Limit(p: B.Policy): Option<nat> {
    match p.maxAttempts
    case None => None
    case Some(max) => Some(if max < 1 then 1 else max)
  }

  predicate Below(n: nat, limit: Option<nat>) {
    limit.Some? ==> n < limit.value
  }

  /** Down means detached, and while attempts go on the budget is not used up. */
  predicate Inv(s: Session) {
    && (s.state == Reconnecting || s.state == Exhausted ==> s.engine.muxer.None?)
    && (s.state == Reconnecting ==> Below(s.attempt, Limit(s.policy)))
  }

  lemma DetachDrops(e: Engine)
    ensures Detach(e).muxer.None?
  {
  }

  /** The session in which a pump makes its attempt, when it gets that far. */
  function Down(s: Session, c: Call): Option<Session> {
    if !c.PumpCall? then None
    else if s.state == Reconnecting then Some(s)
    else if s.state == Connected then
      if Stalls(s, c.silent) then Some(Disconnect(s))
      else
        var (e, r) := Tick(s.engine, c.healthy, c.flushes);
        if r.Muxed? then None else Some(Disconnect(s.(engine := e)))
    else None
  }

  /** A pump either attempts a reconnect or leaves everything but a connected engine as it is. */
  lemma PumpShape(s: Session, c: Call)
    requires c.PumpCall?
    ensures Down(s, c).Some? ==> Do(s, c) == ReconnectPhase(Down(s, c).value, c.a).0
    ensures Down(s, c).None? ==> Do(s, c) == s.(engine := Do(s, c).engine)
  {
    hide Tick, Detach, Attach, B.Base;
  }

  lemma DownInv(s: Session, c: Call)
    requires Inv(s) && Down(s, c).Some?
    ensures var d := Down(s, c).value;
      && d.state == Reconnecting && d.engine.muxer.None? && Below(d.attempt, Limit(d.policy)) && d.policy == s.policy
      && (s.state == Reconnecting ==> d == s)
      && (s.state != Reconnecting ==> s.state == Connected && d.attempt == 0 && d.nextAttemptAt.None?)
  {
    hide Tick, Detach;
    DetachDrops(s.engine);
    DetachDrops(Tick(s.engine, c.healthy, c.flushes).0);
  }

  lemma ReconnectInv(s: Session, a: Attempt)
    requires s.state == Reconnecting && Inv(s)
    ensures Inv(ReconnectPhase(s, a).0)
  {
    hide Tick, Attach, B.Base;
  }

  lemma CallInv(s: Session, c: Call)
    requires Inv(s)
    ensures Inv(Do(s, c)) && Do(s, c).policy == s.policy
  {
    hide Tick, Attach, Detach, Finish, PushAll, ConfigureCodecs, ReconnectPhase, Pump;
    match c
    case StartCall(_) =>
    case PumpCall(_, _, _, a) =>
      PumpShape(s, c);
      if Down(s, c).Some? {
        DownInv(s, c);
        ReconnectInv(Down(s, c).value, a);
        ReconnectKeepsPolicy(Down(s, c).value, a);
      } else {
        Stays(s, c);
      }
    case RetryCall =>
    case PushCall(ps) => PushKeepsMuxer(s.engine, ps);
    case ConfigureCall(avcc, asc) => ConfigureKeepsDetached(s.engine, avcc, asc);
    case FinishCall(_, _) =>
  }

  lemma ReconnectKeepsPolicy(s: Session, a: Attempt)
    ensures ReconnectPhase(s, a).0.policy == s.policy
  {
    hide Tick, Attach, B.Base;
  }

  lemma Stays(s: Session, c: Call)
    requires c.PumpCall? && Down(s, c).None?
    ensures s.state != Connected ==> Do(s, c) == s
    ensures s.state != Reconnecting
  {
    hide Tick, Detach;
  }

  lemma PushKeepsMuxer(e: Engine, ps: seq<MediaPacket>)
    ensures PushAll(e, ps).muxer == e.muxer
  {
    hide PushSeq, EnforceDropPolicy;
  }

  lemma ConfigureKeepsDetached(e: Engine, avcc: Option<bytes>, asc: Option<bytes>)
    ensures e.muxer.None? ==> ConfigureCodecs(e, avcc, asc).0.muxer.None?
  {
    hide InitCodecs;
  }

  lemma {:induction false} RunInv(s: Session, calls: seq<Call>)
    requires Inv(s)
    ensures Inv(DoAll(s, calls)) && DoAll(s, calls).policy == s.policy
    decreases |calls|
  {
    hide Do, Inv;
    if calls != [] {
      CallInv(s, calls[0]);
      RunInv(Do(s, calls[0]), calls[1..]);
    }
  }

  /** In every reachable state, whatever was called in whatever order. */
  lemma SessionInvariant(policy: B.Policy, profile: LatencyProfile, meta: bytes, calls: seq<Call>)
    ensures var s := DoAll(NewSession(policy, profile, meta), calls);
      && (s.state == Reconnecting || s.state == Exhausted ==> s.engine.muxer.None?)
      && (s.state == Reconnecting && policy.maxAttempts.Some? ==>
            s.attempt < if policy.maxAttempts.value < 1 then 1 else policy.maxAttempts.value)
  {
    hide DoAll;
    RunInv(NewSession(policy, profile, meta), calls);
  }

  /** A finished session is left by one call only: a start whose connector answers. */
  lemma FinishedUntilStarted(s: Session, c: Call)
    requires s.state == Finished
    ensures Do(s, c).state != Finished <==> c.StartCall? && c.connects.Some?
  {
    hide Tick, Attach, Detach, Finish, PushAll, ConfigureCodecs, ReconnectPhase;
  }

  /**
    A finish whose transport fails its shutdown leaves the session connected with nothing attached. Said
    before the call, that is when the flush succeeds and every packet that waits is acceptable in its
    turn and finds room.
   */
  lemma FinishStrands(s: Session, flushes: bool, shuts: bool)
    requires s.state == Connected && s.engine.muxer.Some?
    ensures var f, m, batch := FinishSession(s, flushes, shuts).0, s.engine.muxer.value, Batch(s.engine);
      Stranded(f) <==> flushes && !shuts && Acceptable(m, batch) && BytesForAll(m, batch) <= Room(m.sink)
  {
    hide SendStrict, Batch, Drained, Acceptable, BytesForAll, Room;
    R.StrictSucceeds(s.engine.muxer.value, Batch(s.engine));
  }

  // ---------------------------------------------------------------------------------
  // Dialing
  // ---------------------------------------------------------------------------------

  /** Connected with nothing attached. */
  predicate Stranded(s: Session) {
    s.state == Connected && s.engine.muxer.None?
  }

  /** One use of the connector by a pump: when, whether it answered, and for a refusal its number. */
  datatype Dial = Dial(now: real, ok: bool, n: nat, at: real)

  function DialOf(s: Session, c: Call): seq<Dial> {
    match Down(s, c)
    case None => []
    case Some(d) => if MayDial(d, c.a.now) then [Dial(c.a.now, c.a.connects.Some?, d.attempt + 1, c.a.at)] else []
  }

  function Dials(s: Session, calls: seq<Call>): seq<Dial>
    decreases |calls|
  {
    if calls == [] then [] else DialOf(s, calls[0]) + Dials(Do(s, calls[0]), calls[1..])
  }

  /** Neither a new start nor a re-arm, and real draws. */
  predicate Unaided(c: Call) {
    !c.StartCall? && !c.RetryCall? && (c.PumpCall? ==> 0.0 <= c.a.draw < 1.0)
  }

  predicate AllUnaided(calls: seq<Call>) {
    forall i :: 0 <= i < |calls| ==> Unaided(calls[i])
  }

  lemma UnaidedRest(calls: seq<Call>)
    requires AllUnaided(calls) && calls != []
    ensures Unaided(calls[0]) && AllUnaided(calls[1..])
  {
  }

  /** What an unaided call does to the schedule. */
  lemma ScheduleStep(s: Session, c: Call)
    requires Inv(s) && Unaided(c) && B.Sane(s.policy)
    ensures var t, d := Do(s, c), DialOf(s, c);
      && t.policy == s.policy && |d| <= 1
      && (d == [] && s.state == Reconnecting && t.state == Reconnecting ==>
            t.attempt == s.attempt && t.nextAttemptAt == s.nextAttemptAt)
      && (d == [] && s.state == Reconnecting ==> t.state == Reconnecting || t.state == Finished)
      && (s.state == Idle || s.state == Exhausted || s.state == Finished ==>
            d == [] && (t.state == s.state || t.state == Finished))
      && (d == [] && s.state == Connected ==> t.state == Connected || t.state == Finished)
      && (d != [] && s.state == Reconnecting ==> MayDial(s, d[0].now) && d[0].n == s.attempt + 1)
      && (d != [] && s.state == Connected ==> d[0].n == 1)
      && (d != [] && d[0].ok ==> t.state == Connected)
      && (d != [] && !d[0].ok ==>
            || (t.state == Exhausted && Limit(s.policy) == Some(d[0].n))
            || (t.state == Reconnecting && t.attempt == d[0].n && Below(d[0].n, Limit(s.policy))
                && t.nextAttemptAt.Some? && t.nextAttemptAt.value >= d[0].at + B.Base(s.policy, d[0].n) / 2.0
                && t.nextAttemptAt.value <= d[0].at + B.Base(s.policy, d[0].n)))
  {
    hide Tick, Attach, Detach, Finish, PushAll, ConfigureCodecs, Pump, B.Base, B.Jittered, B.Sane, ReconnectPhase;
    CallInv(s, c);
    if c.PumpCall? {
      PumpShape(s, c);
      if Down(s, c).Some? {
        DownInv(s, c);
        PhaseStep(Down(s, c).value, c.a);
      } else {
        Stays(s, c);
      }
    }
  }

  lemma PhaseStep(s: Session, a: Attempt)
    requires s.state == Reconnecting && Below(s.attempt, Limit(s.policy)) && B.Sane(s.policy) && 0.0 <= a.draw < 1.0
    ensures var t := ReconnectPhase(s, a).0;
      && (!MayDial(s, a.now) ==> t == s)
      && (MayDial(s, a.now) && a.connects.Some? ==> t.state == Connected)
      && (MayDial(s, a.now) && a.connects.None? ==>
            || (t.state == Exhausted && Limit(s.policy) == Some(s.attempt + 1))
            || (t.state == Reconnecting && t.attempt == s.attempt + 1 && Below(t.attempt, Limit(s.policy))
                && t.nextAttemptAt.Some?
                && t.nextAttemptAt.value >= a.at + B.Base(s.policy, s.attempt + 1) / 2.0
                && t.nextAttemptAt.value <= a.at + B.Base(s.policy, s.attempt + 1)))
  {
    hide Tick, Attach, B.Base, B.Jittered;
    B.BaseMonotone(s.policy, s.attempt + 1, s.attempt + 1);
    B.JitterBand(B.Base(s.policy, s.attempt + 1), a.draw);
  }

  /** A session that is not connected and may not attempt stays quiet. */
  lemma {:induction false} Quiet(s: Session, calls: seq<Call>)
    requires Inv(s) && B.Sane(s.policy) && AllUnaided(calls)
    requires s.state == Idle || s.state == Exhausted || s.state == Finished
    ensures Dials(s, calls) == []
    decreases |calls|
  {
    hide Do, DialOf, Inv, AllUnaided, Unaided, B.Sane;
    if calls != [] {
      UnaidedRest(calls);
      ScheduleStep(s, calls[0]);
      CallInv(s, calls[0]);
      Quiet(Do(s, calls[0]), calls[1..]);
    }
  }

  lemma StrandedStep(s: Session, c: Call)
    requires Stranded(s) && !c.StartCall? && !c.FinishCall?
    ensures Stranded(Do(s, c)) && DialOf(s, c) == [] && Do(s, c).engine.muxed == s.engine.muxed
  {
    hide PushSeq, EnforceDropPolicy, InitCodecs, SendBatch, Batch, Drained;
  }

  /** Without a start or a finish a stranded session never dials again, attaches nothing and muxes nothing. */
  lemma {:induction false} StrandedForGood(s: Session, calls: seq<Call>)
    requires Stranded(s) && forall i :: 0 <= i < |calls| ==> !calls[i].StartCall? && !calls[i].FinishCall?
    ensures var t := DoAll(s, calls); Stranded(t) && Dials(s, calls) == [] && t.engine.muxed == s.engine.muxed
    decreases |calls|
  {
    hide Do, DialOf, Stranded;
    if calls != [] {
      StrandedStep(s, calls[0]);
      assert forall i :: 0 <= i < |calls[1..]| ==> calls[1..][i] == calls[i + 1];
      StrandedForGood(Do(s, calls[0]), calls[1..]);
    }
  }

  /** From a new session: a start, and a finish whose flush succeeds and whose shutdown fails. */
  lemma StrandedReached(policy: B.Policy, profile: LatencyProfile, meta: bytes, room: nat)
    ensures Stranded(DoAll(NewSession(policy, profile, meta), [StartCall(Some(room)), FinishCall(true, false)]))
  {
    var calls := [StartCall(Some(room)), FinishCall(true, false)];
    var s := Do(NewSession(policy, profile, meta), calls[0]);
    assert calls[1..] == [calls[1]] && calls[1..][1..] == [];
    assert Batch(s.engine) == [];
    FinishStrands(s, true, false);
    assert DoAll(s, [calls[1]]) == Do(s, calls[1]);
  }

  /** No dial comes before the scheduled time. */
  lemma {:induction false} NextDialWaits(s: Session, calls: seq<Call>, t: real)
    requires Inv(s) && B.Sane(s.policy) && AllUnaided(calls)
    requires s.state == Reconnecting && s.nextAttemptAt.Some? && s.nextAttemptAt.value >= t
    ensures Dials(s, calls) != [] ==> Dials(s, calls)[0].now >= t
    decreases |calls|
  {
    hide Do, DialOf, Inv, AllUnaided, Unaided, B.Sane, B.Base, Limit;
    if calls != [] {
      UnaidedRest(calls);
      ScheduleStep(s, calls[0]);
      CallInv(s, calls[0]);
      if DialOf(s, calls[0]) == [] {
        if Do(s, calls[0]).state == Finished {
          Quiet(Do(s, calls[0]), calls[1..]);
        } else {
          NextDialWaits(Do(s, calls[0]), calls[1..], t);
        }
      }
    }
  }

  /** Without a dial a session that stays down keeps its schedule. */
  lemma {:induction false} ScheduleKept(s: Session, calls: seq<Call>)
    requires Inv(s) && B.Sane(s.policy) && AllUnaided(calls) && s.state == Reconnecting
    requires Dials(s, calls) == [] && DoAll(s, calls).state == Reconnecting
    ensures var t := DoAll(s, calls); t.attempt == s.attempt && t.nextAttemptAt == s.nextAttemptAt
    decreases |calls|
  {
    hide Do, DialOf, Inv, AllUnaided, Unaided, B.Sane, B.Base, Limit;
    if calls != [] {
      UnaidedRest(calls);
      ScheduleStep(s, calls[0]);
      CallInv(s, calls[0]);
      if Do(s, calls[0]).state == Finished {
        FinishedRest(Do(s, calls[0]), calls[1..]);
      } else {
        ScheduleKept(Do(s, calls[0]), calls[1..]);
      }
    }
  }

  lemma {:induction false} FinishedRest(s: Session, calls: seq<Call>)
    requires s.state == Finished && Inv(s) && B.Sane(s.policy) && AllUnaided(calls)
    ensures DoAll(s, calls).state == Finished
    decreases |calls|
  {
    hide Do, DialOf, Inv, AllUnaided, Unaided, B.Sane, B.Base, Limit;
    if calls != [] {
      UnaidedRest(calls);
      ScheduleStep(s, calls[0]);
      CallInv(s, calls[0]);
      FinishedRest(Do(s, calls[0]), calls[1..]);
    }
  }

  /** After a refusal, a pump that comes once the base delay has passed dials again. */
  lemma {:induction false} DialsInTime(s: Session, calls: seq<Call>, c: Call)
    requires Inv(s) && B.Sane(s.policy) && AllUnaided(calls) && c.PumpCall?
    requires Dials(s, calls) != [] && !Dials(s, calls)[|Dials(s, calls)| - 1].ok
    requires DoAll(s, calls).state == Reconnecting
    ensures var d := Dials(s, calls)[|Dials(s, calls)| - 1];
      c.a.now >= d.at + B.Base(s.policy, d.n) ==>
        DialOf(DoAll(s, calls), c) == [Dial(c.a.now, c.a.connects.Some?, d.n + 1, c.a.at)]
    decreases |calls|
  {
    hide Do, Inv, AllUnaided, Unaided, B.Sane, B.Base, Limit, Tick;
    UnaidedRest(calls);
    ScheduleStep(s, calls[0]);
    CallInv(s, calls[0]);
    var t := Do(s, calls[0]);
    if Dials(t, calls[1..]) != [] {
      DialsInTime(t, calls[1..], c);
    } else {
      assert DialOf(s, calls[0]) + [] == DialOf(s, calls[0]);
      if t.state == Exhausted {
        ExhaustedRest(t, calls[1..]);
      } else {
        ScheduleKept(t, calls[1..]);
      }
    }
  }

  lemma {:induction false} ExhaustedRest(s: Session, calls: seq<Call>)
    requires s.state == Exhausted && Inv(s) && B.Sane(s.policy) && AllUnaided(calls)
    ensures DoAll(s, calls).state != Reconnecting
    decreases |calls|
  {
    hide Do, DialOf, Inv, AllUnaided, Unaided, B.Sane, B.Base, Limit;
    if calls != [] {
      UnaidedRest(calls);
      ScheduleStep(s, calls[0]);
      CallInv(s, calls[0]);
      if Do(s, calls[0]).state == Finished {
        FinishedRest(Do(s, calls[0]), calls[1..]);
      } else {
        ExhaustedRest(Do(s, calls[0]), calls[1..]);
      }
    }
  }

  /** Between a refusal and the next dial at least half the base delay passes. */
  lemma {:induction false} DialsAreSpaced(s: Session, calls: seq<Call>, i: nat)
    requires Inv(s) && B.Sane(s.policy) && AllUnaided(calls)
    requires i + 1 < |Dials(s, calls)| && !Dials(s, calls)[i].ok
    ensures var d := Dials(s, calls); d[i + 1].now >= d[i].at + B.Base(s.policy, d[i].n) / 2.0
    decreases |calls|
  {
    hide Do, DialOf, Inv, AllUnaided, Unaided, B.Sane, B.Base, Limit;
    UnaidedRest(calls);
    ScheduleStep(s, calls[0]);
    CallInv(s, calls[0]);
    var t, first, rest := Do(s, calls[0]), DialOf(s, calls[0]), Dials(Do(s, calls[0]), calls[1..]);
    if first == [] {
      DialsAreSpaced(t, calls[1..], i);
    } else if i > 0 {
      assert Dials(s, calls)[i] == rest[i - 1] && Dials(s, calls)[i + 1] == rest[i];
      DialsAreSpaced(t, calls[1..], i - 1);
    } else if t.state == Exhausted {
      Quiet(t, calls[1..]);
    } else {
      NextDialWaits(t, calls[1..], first[0].at + B.Base(s.policy, first[0].n) / 2.0);
    }
  }

  predicate AllRefused(dials: seq<Dial>, i: nat, j: nat) {
    i <= j <= |dials| && forall k :: i <= k < j ==> !dials[k].ok
  }

  function Spent(s: Session): nat {
    if s.state == Reconnecting then s.attempt else 0
  }

  /** Refusals at the head of a run fit what is left of the budget. */
  lemma {:induction false} FirstRefusals(s: Session, calls: seq<Call>, m: nat)
    requires Inv(s) && B.Sane(s.policy) && AllUnaided(calls) && Limit(s.policy).Some?
    requires AllRefused(Dials(s, calls), 0, m)
    ensures Spent(s) + m <= Limit(s.policy).value
    decreases |calls|
  {
    hide Do, DialOf, AllUnaided, Unaided, B.Sane, B.Base, Limit;
    LimitPositive(s.policy);
    if calls != [] && m > 0 {
      UnaidedRest(calls);
      ScheduleStep(s, calls[0]);
      CallInv(s, calls[0]);
      var t, first, rest := Do(s, calls[0]), DialOf(s, calls[0]), Dials(Do(s, calls[0]), calls[1..]);
      if t.state == Exhausted || t.state == Finished || t.state == Idle {
        Quiet(t, calls[1..]);
      }
      if first == [] {
        assert Dials(s, calls) == rest;
        FirstRefusals(t, calls[1..], m);
      } else {
        assert !Dials(s, calls)[0].ok;
        assert forall k :: 0 <= k < m - 1 ==> rest[k] == Dials(s, calls)[k + 1];
        FirstRefusals(t, calls[1..], m - 1);
      }
    }
  }

  lemma LimitPositive(p: B.Policy)
    ensures Limit(p).Some? ==> Limit(p).value >= 1
  {
  }

  /** Without a start or a re-arm, no more dials fail in a row than the policy allows, anywhere in the run. */
  lemma {:induction false} RefusalsBounded(s: Session, calls: seq<Call>, i: nat, j: nat)
    requires Inv(s) && B.Sane(s.policy) && AllUnaided(calls) && Limit(s.policy).Some?
    requires AllRefused(Dials(s, calls), i, j)
    ensures j - i <= Limit(s.policy).value
    decreases |calls|
  {
    hide Do, DialOf, Inv, AllUnaided, Unaided, B.Sane, B.Base, Limit;
    if i == 0 {
      FirstRefusals(s, calls, j);
    } else {
      UnaidedRest(calls);
      ScheduleStep(s, calls[0]);
      CallInv(s, calls[0]);
      var n := |DialOf(s, calls[0])|;
      var rest := Dials(Do(s, calls[0]), calls[1..]);
      forall k | i - n <= k < j - n ensures !rest[k].ok {
        assert rest[k] == Dials(s, calls)[k + n];
      }
      RefusalsBounded(Do(s, calls[0]), calls[1..], i - n, j - n);
    }
  }

  // ---------------------------------------------------------------------------------
  // Giving up and starting over
  // ---------------------------------------------------------------------------------

  /** Pumps that each come when the schedule allows a dial and are each refused. */
  predicate RefusedPumps(s: Session, calls: seq<Call>)
    decreases |calls|
  {
    calls != [] ==>
      && calls[0].PumpCall? && calls[0].a.connects.None? && MayDial(s, calls[0].a.now)
      && RefusedPumps(Do(s, calls[0]), calls[1..])
  }

  lemma RefusedPump(s: Session, c: Call)
    requires s.state == Reconnecting && c.PumpCall? && c.a.connects.None? && MayDial(s, c.a.now)
    requires Below(s.attempt, Limit(s.policy))
    ensures var t, n := Do(s, c), s.attempt + 1;
      && DialOf(s, c) == [Dial(c.a.now, false, n, c.a.at)] && t.policy == s.policy && t.attempt == n
      && t.state == if Below(n, Limit(s.policy)) then Reconnecting else Exhausted
  {
    hide Tick, Attach, Detach, B.Base, B.Jittered;
  }

  /** A reconnecting session takes refusals up to its limit, and gives up with the last of them. */
  lemma {:induction false} RefusalsFit(s: Session, calls: seq<Call>)
    requires s.state == Reconnecting && Below(s.attempt, Limit(s.policy)) && RefusedPumps(s, calls)
    requires Limit(s.policy).Some? ==> s.attempt + |calls| <= Limit(s.policy).value
    ensures var t := DoAll(s, calls);
      && |Dials(s, calls)| == |calls| && AllRefused(Dials(s, calls), 0, |calls|)
      && t.attempt == s.attempt + |calls|
      && t.state == if Below(t.attempt, Limit(s.policy)) then Reconnecting else Exhausted
    decreases |calls|
  {
    hide Do, DialOf, Limit;
    if calls != [] {
      RefusedPump(s, calls[0]);
      if |calls| > 1 {
        RefusalsFit(Do(s, calls[0]), calls[1..]);
      } else {
        assert calls[1..] == [];
      }
    }
  }

  /**
    A re-arm of a session that gave up: its next pump dials, whatever the time, and as many refusals as
    the policy allows fit again before it gives up anew.
   */
  lemma RearmStartsOver(s: Session, c: Call, calls: seq<Call>)
    requires s.state == Exhausted && c.PumpCall?
    requires RefusedPumps(Do(s, RetryCall), calls)
    requires Limit(s.policy).Some? ==> |calls| <= Limit(s.policy).value
    ensures DialOf(Do(s, RetryCall), c) == [Dial(c.a.now, c.a.connects.Some?, 1, c.a.at)]
    ensures var t, u := Do(s, RetryCall), DoAll(Do(s, RetryCall), calls);
      && |Dials(t, calls)| == |calls| && AllRefused(Dials(t, calls), 0, |calls|)
      && u.state == if Limit(s.policy) == Some(|calls|) then Exhausted else Reconnecting
  {
    hide DoAll, Dials, Pump;
    LimitPositive(s.policy);
    RefusalsFit(Do(s, RetryCall), calls);
  }

  // ---------------------------------------------------------------------------------
  // What a session reports
  // ---------------------------------------------------------------------------------

  function Answered(dials: seq<Dial>): nat {
    if dials == [] then 0 else (if dials[0].ok then 1 else 0) + Answered(dials[1..])
  }

  lemma {:induction false} AnsweredAppend(a: seq<Dial>, b: seq<Dial>)
    ensures Answered(a + b) == Answered(a) + Answered(b)
  {
    if a == [] {
      assert a + b == b;
    } else {
      assert (a + b)[1..] == a[1..] + b;
      AnsweredAppend(a[1..], b);
    }
  }

  lemma CallReconnects(s: Session, c: Call)
    requires Inv(s)
    ensures Do(s, c).reconnects == s.reconnects + Answered(DialOf(s, c))
  {
    hide Tick, Attach, Detach, Finish, PushAll, ConfigureCodecs, B.Base, B.Jittered, Pump;
    if c.PumpCall? {
      PumpShape(s, c);
      if Down(s, c).Some? {
        DownInv(s, c);
        DownReconnects(s, c);
      }
    }
  }

  lemma DownReconnects(s: Session, c: Call)
    requires Down(s, c).Some?
    ensures Down(s, c).value.reconnects == s.reconnects
  {
    hide Tick, Detach;
  }

  /** The reconnect counter is the number of dials of pumps that were answered. */
  lemma {:induction false} ReconnectsCounted(s: Session, calls: seq<Call>)
    requires Inv(s)
    ensures DoAll(s, calls).reconnects == s.reconnects + Answered(Dials(s, calls))
    decreases |calls|
  {
    hide Do, DialOf, Inv;
    if calls != [] {
      CallInv(s, calls[0]);
      CallReconnects(s, calls[0]);
      ReconnectsCounted(Do(s, calls[0]), calls[1..]);
      AnsweredAppend(DialOf(s, calls[0]), Dials(Do(s, calls[0]), calls[1..]));
    }
  }

  /** What an attempt answers. */
  lemma PhaseAnswers(s: Session, a: Attempt)
    requires s.state == Reconnecting
    ensures var (t, r) := ReconnectPhase(s, a);
      && (r.GiveUp? <==> t.state == Exhausted) && (r.GiveUp? ==> r.attempts == t.attempt)
      && (r.EngineFailed? ==> t.state == Connected && MayDial(s, a.now))
      && (r.Sent? ==> t.engine.muxed == s.engine.muxed + r.n)
      && (MayDial(s, a.now) && a.connects.Some? && r.Sent? ==> a.healthy && t.engine.buffer.queue == [])
      && !r.FinishFailed? && !r.NotStarted? && !r.AlreadyFinished? && t.state != Idle && t.state != Finished
  {
    hide Tick, B.Base, B.Jittered;
    if a.connects.Some? {
      R.TickReports(Attach(s.engine, FreshSink(a.connects.value)), a.healthy, a.flushes);
    }
  }

  /**
    What a pump answers: it says so when the session was never started, is finished or has given up, and
    on a connection that holds, or a new one on which everything went out, how many packets it muxed.
   */
  lemma PumpAnswers(s: Session, c: Call)
    requires c.PumpCall?
    ensures var (t, r) := Pump(s, c.silent, c.healthy, c.flushes, c.a);
      && t == Do(s, c)
      && (r.NotStarted? <==> s.state == Idle) && (r.AlreadyFinished? <==> s.state == Finished)
      && (r.GiveUp? <==> t.state == Exhausted) && (r.GiveUp? ==> r.attempts == t.attempt)
      && (s.state == Connected && Down(s, c).None? ==> r.Sent? && t.engine.muxed == s.engine.muxed + r.n)
      && (r.EngineFailed? ==> t.state == Connected && DialOf(s, c) != [])
      && (Down(s, c).Some? && r.Sent? ==> t.engine.muxed == Down(s, c).value.engine.muxed + r.n)
      && (DialOf(s, c) != [] && DialOf(s, c)[0].ok && r.Sent? ==> c.a.healthy && t.engine.buffer.queue == [])
      && !r.FinishFailed?
  {
    hide Tick, Attach, Detach, ReconnectPhase, B.Base, B.Jittered;
    R.TickReports(s.engine, c.healthy, c.flushes);
    if Down(s, c).Some? {
      PhaseAnswers(Down(s, c).value, c.a);
    }
  }

  // ---------------------------------------------------------------------------------
  // The engine under the session
  // ---------------------------------------------------------------------------------

  function AttemptEvents(s: Session, a: Attempt): seq<R.Event> {
    if MayDial(s, a.now) && a.connects.Some? then [R.AttachEv(a.connects.value), R.TickEv(a.healthy, a.flushes)] else []
  }

  /** The engine calls that one session call makes. */
  function Events(s: Session, c: Call): seq<R.Event> {
    match c
    case StartCall(connects) => if connects.Some? then [R.AttachEv(connects.value)] else []
    case PumpCall(silent, healthy, flushes, a) =>
      if s.state == Reconnecting then AttemptEvents(s, a)
      else if s.state != Connected then []
      else if Stalls(s, silent) then [R.DetachEv] + AttemptEvents(Disconnect(s), a)
      else
        [R.TickEv(healthy, flushes)] +
        if Down(s, c).None? then [] else [R.DetachEv] + AttemptEvents(Down(s, c).value, a)
    case PushCall(ps) => [R.PushEv(ps)]
    case ConfigureCall(avcc, asc) => [R.ConfigureEv(avcc, asc)]
    case FinishCall(flush, _) => if s.state == Connected then [R.FinishEv(flush)] else []
    case RetryCall => []
  }

  /** A world whose engine is the session's. */
  predicate Tracks(w: R.World, s: Session) {
    w.engine == s.engine
  }

  lemma RunTwice(w: R.World, a: R.Event, rest: seq<R.Event>)
    ensures R.Run(w, []) == w && R.Run(w, [a]) == R.Next(w, a) && R.Run(w, [a] + rest) == R.Run(R.Next(w, a), rest)
  {
    hide R.Next;
    assert ([a] + rest)[1..] == rest && [a][1..] == [];
  }

  lemma EngineSteps(w: R.World)
    ensures forall room: nat :: R.Next(w, R.AttachEv(room)).engine == Attach(w.engine, FreshSink(room))
    ensures forall h: bool, f: bool :: R.Next(w, R.TickEv(h, f)).engine == Tick(w.engine, h, f).0
    ensures R.Next(w, R.DetachEv).engine == Detach(w.engine)
  {
    hide Attach, Tick, Detach, R.Current, R.CutDrops, TickSent, Orphans;
  }

  lemma AttemptTracks(w: R.World, s: Session, a: Attempt)
    requires Tracks(w, s)
    ensures Tracks(R.Run(w, AttemptEvents(s, a)), ReconnectPhase(s, a).0)
  {
    hide R.Next, R.Run, Attach, Tick, B.Base, B.Jittered;
    var none: R.Event := R.DetachEv;
    RunTwice(w, none, []);
    if MayDial(s, a.now) && a.connects.Some? {
      var attach, tick := R.AttachEv(a.connects.value), R.TickEv(a.healthy, a.flushes);
      RunTwice(w, attach, [tick]);
      RunTwice(R.Next(w, attach), tick, []);
      EngineSteps(w);
      EngineSteps(R.Next(w, attach));
      assert [attach] + [tick] == [attach, tick];
    }
  }

  lemma DownTracks(w: R.World, s: Session, c: Call)
    requires Tracks(w, s) && Down(s, c).Some?
    ensures s.state == Reconnecting ==> Tracks(w, Down(s, c).value)
    ensures s.state == Connected && Stalls(s, c.silent) ==> Tracks(R.Next(w, R.DetachEv), Down(s, c).value)
    ensures s.state == Connected && !Stalls(s, c.silent) ==>
      Tracks(R.Next(R.Next(w, R.TickEv(c.healthy, c.flushes)), R.DetachEv), Down(s, c).value)
  {
    hide R.Next, Detach, Tick;
    EngineSteps(w);
    EngineSteps(R.Next(w, R.TickEv(c.healthy, c.flushes)));
  }

  lemma PumpTracks(w: R.World, s: Session, c: Call)
    requires Tracks(w, s) && c.PumpCall?
    ensures Tracks(R.Run(w, Events(s, c)), Do(s, c))
  {
    hide R.Next, R.Run, Attach, Detach, Tick, AttemptEvents, ReconnectPhase, Pump, Disconnect;
    var tick := R.TickEv(c.healthy, c.flushes);
    PumpShape(s, c);
    RunTwice(w, tick, []);
    if Down(s, c).Some? {
      var d := Down(s, c).value;
      var more := AttemptEvents(d, c.a);
      DownTracks(w, s, c);
      if s.state == Reconnecting {
        AttemptTracks(w, d, c.a);
      } else if Stalls(s, c.silent) {
        RunTwice(w, R.DetachEv, more);
        AttemptTracks(R.Next(w, R.DetachEv), d, c.a);
      } else {
        RunTwice(w, tick, [R.DetachEv] + more);
        RunTwice(R.Next(w, tick), R.DetachEv, more);
        AttemptTracks(R.Next(R.Next(w, tick), R.DetachEv), d, c.a);
      }
    } else {
      EngineSteps(w);
      QuietPump(s, c);
      assert [tick] + [] == [tick];
    }
  }

  lemma QuietPump(s: Session, c: Call)
    requires c.PumpCall? && Down(s, c).None?
    ensures s.state != Connected ==> Do(s, c).engine == s.engine
    ensures s.state == Connected ==> !Stalls(s, c.silent) && Do(s, c).engine == Tick(s.engine, c.healthy, c.flushes).0
    ensures s.state != Reconnecting
  {
    hide Tick, Detach;
  }

  /** One session call is a run of engine calls: the session never touches the engine in any other way. */
  lemma CallTracks(w: R.World, s: Session, c: Call)
    requires Tracks(w, s)
    ensures Tracks(R.Run(w, Events(s, c)), Do(s, c))
  {
    hide R.Next, R.Run, Attach, Detach, Tick, PushAll, ConfigureCodecs, AttemptEvents, Pump, Down, Finish;
    RunTwice(w, R.DetachEv, []);
    match c
    case StartCall(connects) =>
      if connects.Some? {
        RunTwice(w, R.AttachEv(connects.value), []);
        EngineSteps(w);
      }
    case PumpCall(_, _, _, _) => PumpTracks(w, s, c);
    case RetryCall =>
    case PushCall(ps) =>
      RunTwice(w, R.PushEv(ps), []);
      PushIs(w, ps);
    case ConfigureCall(avcc, asc) =>
      RunTwice(w, R.ConfigureEv(avcc, asc), []);
      ConfigureIs(w, avcc, asc);
    case FinishCall(flush, _) =>
      RunTwice(w, R.FinishEv(flush), []);
      FinishIs(w, flush);
  }

  lemma FinishIs(w: R.World, flushes: bool)
    ensures R.Next(w, R.FinishEv(flushes)).engine == Finish(w.engine, flushes).0
  {
    hide SendStrict, Batch, Drained, R.Current, R.TickDrops, R.FinishMux;
  }

  lemma PushIs(w: R.World, ps: seq<MediaPacket>)
    ensures R.Next(w, R.PushEv(ps)).engine == PushAll(w.engine, ps)
  {
    hide PushAll, R.PushDrops, R.PolicyDrops, PushSeq;
  }

  lemma ConfigureIs(w: R.World, avcc: Option<bytes>, asc: Option<bytes>)
    ensures R.Next(w, R.ConfigureEv(avcc, asc)).engine == ConfigureCodecs(w.engine, avcc, asc).0
  {
    hide ConfigureCodecs;
  }

  function AllEvents(s: Session, calls: seq<Call>): seq<R.Event>
    decreases |calls|
  {
    if calls == [] then [] else Events(s, calls[0]) + AllEvents(Do(s, calls[0]), calls[1..])
  }

  lemma {:induction false} RunSplit(w: R.World, a: seq<R.Event>, b: seq<R.Event>)
    ensures R.Run(w, a + b) == R.Run(R.Run(w, a), b)
    decreases |a|
  {
    hide R.Next;
    if a == [] {
      assert a + b == b;
    } else {
      assert (a + b)[1..] == a[1..] + b;
      RunSplit(R.Next(w, a[0]), a[1..], b);
    }
  }

  lemma {:induction false} RunTracks(w: R.World, s: Session, calls: seq<Call>)
    requires Tracks(w, s)
    ensures Tracks(R.Run(w, AllEvents(s, calls)), DoAll(s, calls))
    decreases |calls|
  {
    hide R.Run, Do, Events, Tracks;
    if calls == [] {
      NoEvents(w);
    } else {
      CallTracks(w, s, calls[0]);
      RunSplit(w, Events(s, calls[0]), AllEvents(Do(s, calls[0]), calls[1..]));
      RunTracks(R.Run(w, Events(s, calls[0])), Do(s, calls[0]), calls[1..]);
    }
  }

  lemma NoEvents(w: R.World)
    ensures R.Run(w, []) == w
  {
  }

  // ---------------------------------------------------------------------------------
  // What the engine promises, kept by every session
  // ---------------------------------------------------------------------------------

  /** Packets and configurations fit the format, and a start never replaces an attached transport. */
  ghost predicate Proper(s: Session, c: Call) {
    match c
    case PushCall(ps) => T.AllFit(ps)
    case ConfigureCall(avcc, asc) => FitsConfig(avcc) && FitsConfig(asc)
    case StartCall(_) => s.engine.muxer.None?
    case _ => true
  }

  ghost predicate ProperRun(s: Session, calls: seq<Call>)
    decreases |calls|
  {
    calls != [] ==> Proper(s, calls[0]) && ProperRun(Do(s, calls[0]), calls[1..])
  }

  lemma AttemptOrderly(w: R.World, s: Session, a: Attempt)
    requires Tracks(w, s) && s.engine.muxer.None?
    ensures T.OrderlyRun(w, AttemptEvents(s, a))
  {
    hide R.Next;
    if MayDial(s, a.now) && a.connects.Some? {
      var attach, tick := R.AttachEv(a.connects.value), R.TickEv(a.healthy, a.flushes);
      assert [attach, tick][1..] == [tick] && [tick][1..] == [];
      assert T.OrderlyRun(R.Next(w, attach), [tick]);
    }
  }

  lemma OrderlyCons(w: R.World, a: R.Event, rest: seq<R.Event>)
    requires T.Orderly(w, a) && T.OrderlyRun(R.Next(w, a), rest)
    ensures T.OrderlyRun(w, [a] + rest)
  {
    hide R.Next, T.Orderly;
    assert ([a] + rest)[1..] == rest;
  }

  lemma NothingOrderly(w: R.World)
    ensures T.OrderlyRun(w, [])
  {
  }

  lemma PumpOrderly(w: R.World, s: Session, c: Call)
    requires Tracks(w, s) && Inv(s) && c.PumpCall?
    ensures T.OrderlyRun(w, Events(s, c))
  {
    hide R.Next, T.OrderlyRun, AttemptEvents, Tick, Detach, Disconnect;
    var tick := R.TickEv(c.healthy, c.flushes);
    NothingOrderly(w);
    NothingOrderly(R.Next(w, tick));
    OrderlyCons(w, tick, []);
    assert [tick] + [] == [tick];
    if Down(s, c).Some? {
      var d := Down(s, c).value;
      var more := AttemptEvents(d, c.a);
      DownInv(s, c);
      DownTracks(w, s, c);
      if s.state == Reconnecting {
        AttemptOrderly(w, d, c.a);
      } else if Stalls(s, c.silent) {
        AttemptOrderly(R.Next(w, R.DetachEv), d, c.a);
        OrderlyCons(w, R.DetachEv, more);
      } else {
        AttemptOrderly(R.Next(R.Next(w, tick), R.DetachEv), d, c.a);
        OrderlyCons(R.Next(w, tick), R.DetachEv, more);
        OrderlyCons(w, tick, [R.DetachEv] + more);
      }
    } else {
      QuietPump(s, c);
    }
  }

  lemma CallOrderly(w: R.World, s: Session, c: Call)
    requires Tracks(w, s) && Inv(s) && Proper(s, c)
    ensures T.OrderlyRun(w, Events(s, c))
  {
    hide R.Next, T.OrderlyRun, AttemptEvents, Down, T.AllFit, FitsConfig;
    NothingOrderly(w);
    match c
    case PumpCall(_, _, _, _) => PumpOrderly(w, s, c);
    case StartCall(connects) =>
      if connects.Some? {
        OneOrderly(w, R.AttachEv(connects.value));
      }
    case PushCall(ps) => OneOrderly(w, R.PushEv(ps));
    case ConfigureCall(avcc, asc) => OneOrderly(w, R.ConfigureEv(avcc, asc));
    case FinishCall(flush, _) => OneOrderly(w, R.FinishEv(flush));
    case RetryCall =>
  }

  lemma OneOrderly(w: R.World, ev: R.Event)
    requires T.Orderly(w, ev)
    ensures T.OrderlyRun(w, [ev])
  {
    hide R.Next, T.Orderly, T.OrderlyRun;
    NothingOrderly(R.Next(w, ev));
    OrderlyCons(w, ev, []);
    assert [ev] + [] == [ev];
  }

  lemma {:induction false} OrderlySplit(w: R.World, a: seq<R.Event>, b: seq<R.Event>)
    requires T.OrderlyRun(w, a) && T.OrderlyRun(R.Run(w, a), b)
    ensures T.OrderlyRun(w, a + b)
    decreases |a|
  {
    hide R.Next, T.Orderly;
    if a == [] {
      assert a + b == b;
    } else {
      assert (a + b)[1..] == a[1..] + b;
      OrderlySplit(R.Next(w, a[0]), a[1..], b);
    }
  }

  lemma {:induction false} RunOrderly(w: R.World, s: Session, calls: seq<Call>)
    requires Tracks(w, s) && Inv(s) && ProperRun(s, calls)
    ensures T.OrderlyRun(w, AllEvents(s, calls))
    decreases |calls|
  {
    hide R.Run, Do, Events, Tracks, Inv, T.OrderlyRun;
    if calls == [] {
      NothingOrderly(w);
    } else {
      CallOrderly(w, s, calls[0]);
      CallTracks(w, s, calls[0]);
      CallInv(s, calls[0]);
      RunOrderly(R.Run(w, Events(s, calls[0])), Do(s, calls[0]), calls[1..]);
      OrderlySplit(w, Events(s, calls[0]), AllEvents(Do(s, calls[0]), calls[1..]));
    }
  }

  /**
    A session keeps the engine's side of the bargain: it only ever attaches to a detached engine. So
    over any run of it, through stalls, failing pumps, refused and successful reconnects, finishes and
    new starts, the tags of all connections of a stream one after the other never go back.
   */
  lemma SessionNeverGoesBack(policy: B.Policy, profile: LatencyProfile, meta: bytes, calls: seq<Call>)
    requires |meta| < TWO_24 && ProperRun(NewSession(policy, profile, meta), calls)
    ensures var s := NewSession(policy, profile, meta);
      var w := R.Run(R.NewWorld(profile, meta), AllEvents(s, calls));
      w.engine == DoAll(s, calls).engine && Ordered(R.Seen(w)) && T.AllOrdered(w.ended)
  {
    hide R.Run, DoAll, AllEvents, ProperRun, Ordered, R.Seen;
    var s := NewSession(policy, profile, meta);
    RunTracks(R.NewWorld(profile, meta), s, calls);
    RunOrderly(R.NewWorld(profile, meta), s, calls);
    T.TimestampsNeverGoBack(profile, meta, AllEvents(s, calls));
  }

  /** Every finish of a connected session meets the engine's condition for keeping its batch. */
  predicate FinishesKeep(s: Session, calls: seq<Call>)
    decreases |calls|
  {
    calls != [] ==>
      && (calls[0].FinishCall? && s.state == Connected ==> R.KeepsBatch(s.engine, calls[0].flush))
      && FinishesKeep(Do(s, calls[0]), calls[1..])
  }

  lemma {:induction false} KeepSplit(w: R.World, a: seq<R.Event>, b: seq<R.Event>)
    ensures R.FinishesKeep(w, a + b) <==> R.FinishesKeep(w, a) && R.FinishesKeep(R.Run(w, a), b)
    decreases |a|
  {
    hide R.Next, R.KeepsBatch;
    if a == [] {
      assert a + b == b;
    } else {
      assert (a + b)[1..] == a[1..] + b;
      KeepSplit(R.Next(w, a[0]), a[1..], b);
    }
  }

  lemma {:induction false} NoFinish(w: R.World, events: seq<R.Event>)
    requires forall i :: 0 <= i < |events| ==> !events[i].FinishEv?
    ensures R.FinishesKeep(w, events)
    decreases |events|
  {
    hide R.Next, R.KeepsBatch;
    if events != [] {
      NoFinish(R.Next(w, events[0]), events[1..]);
    }
  }

  lemma CallKeeps(w: R.World, s: Session, c: Call)
    requires Tracks(w, s)
    ensures R.FinishesKeep(w, Events(s, c)) <==>
      (c.FinishCall? && s.state == Connected ==> R.KeepsBatch(s.engine, c.flush))
  {
    hide R.Next, R.KeepsBatch, Down, Disconnect;
    if c.FinishCall? && s.state == Connected {
      assert [R.FinishEv(c.flush)][1..] == [];
      assert R.FinishesKeep(R.Next(w, R.FinishEv(c.flush)), []);
    } else {
      NoFinish(w, Events(s, c));
    }
  }

  lemma {:induction false} RunKeeps(w: R.World, s: Session, calls: seq<Call>)
    requires Tracks(w, s)
    ensures R.FinishesKeep(w, AllEvents(s, calls)) <==> FinishesKeep(s, calls)
    decreases |calls|
  {
    hide R.Run, Do, Events, Tracks, R.FinishesKeep, R.KeepsBatch;
    if calls == [] {
      NoFinish(w, []);
    } else {
      CallTracks(w, s, calls[0]);
      CallKeeps(w, s, calls[0]);
      KeepSplit(w, Events(s, calls[0]), AllEvents(Do(s, calls[0]), calls[1..]));
      RunKeeps(R.Run(w, Events(s, calls[0])), Do(s, calls[0]), calls[1..]);
    }
  }

  /**
    Whatever the session went through, finishes and new starts included: every pushed packet is muxed,
    dropped or still buffered exactly when each finish of a connected session could keep its batch, and
    otherwise the count falls short of what was pushed.
   */
  lemma SessionConserves(policy: B.Policy, profile: LatencyProfile, meta: bytes, calls: seq<Call>)
    ensures var s := NewSession(policy, profile, meta);
      var e := DoAll(s, calls).engine;
      && e.buffer.pushed >= e.muxed + e.buffer.dropped + |e.buffer.queue|
      && (e.buffer.pushed == e.muxed + e.buffer.dropped + |e.buffer.queue| <==> FinishesKeep(s, calls))
      && |e.buffer.queue| <= PacketBudget(profile)
  {
    hide R.Run, DoAll, AllEvents, FinishesKeep, R.FinishesKeep;
    var s := NewSession(policy, profile, meta);
    RunTracks(R.NewWorld(profile, meta), s, calls);
    RunKeeps(R.NewWorld(profile, meta), s, calls);
    R.PacketConservation(profile, meta, AllEvents(s, calls));
  }
}
