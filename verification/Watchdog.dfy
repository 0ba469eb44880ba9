/**
  The liveness watchdog of the publishing side, over integer time (nanoseconds, as the source's
  durations): only inbound traffic proves the peer alive, probes elicit it, and three unanswered
  ones in a full silent budget give up.
 */
module Watchdog {
  import opened Bytes

  const MAX_UNANSWERED_PINGS := 3

  /** When something last arrived, probes sent since, and the earliest time of the next one. */
  datatype Watch = Watch(lastInbound: int, pings: nat, nextProbeAt: int)

  datatype Verdict = Fine | Probed | Dead

  function Quarter(budget: nat): nat {
    budget / 4
  }

  function Heard(now: int, budget: nat): Watch {
    Watch(now, 0, now + Quarter(budget))
  }

  /** One health check at `now` with no inbound traffic before it. */
  function Check(w: Watch, budget: nat, now: int): (Watch, Verdict) {
    var silent := now - w.lastInbound;
    if silent < Quarter(budget) then (w, Fine)
    else if w.pings >= MAX_UNANSWERED_PINGS && silent >= budget then (w, Dead)
    else if w.pings < MAX_UNANSWERED_PINGS && now >= w.nextProbeAt then
      (Watch(w.lastInbound, w.pings + 1, now + Quarter(budget)), Probed)
    else (w, Fine)
  }

  /** A call: its time, and whether inbound traffic was drained first. */
  datatype Call = Call(now: int, heard: bool)

  function Step(w: Watch, budget: nat, c: Call): (Watch, Verdict) {
    Check(if c.heard then Heard(c.now, budget) else w, budget, c.now)
  }

  // ---------------------------------------------------------------------------------
  // Soundness
  // ---------------------------------------------------------------------------------

  /** The probes sent since the last inbound message, oldest first. */
  function ProbesAfter(probes: seq<int>, w: Watch, budget: nat, c: Call): seq<int> {
    var kept := if c.heard then [] else probes;
    if Step(w, budget, c).1 == Probed then kept + [c.now] else kept
  }

  /** Each probe came a quarter of the budget after the one before, the first after the last inbound message. */
  ghost predicate Spaced(probes: seq<int>, lastInbound: int, quarter: nat) {
    && (probes != [] ==> probes[0] >= lastInbound + quarter)
    && forall i :: 0 < i < |probes| ==> probes[i] >= probes[i - 1] + quarter
  }

  ghost predicate Honest(w: Watch, probes: seq<int>, budget: nat) {
    && w.pings == |probes| <= MAX_UNANSWERED_PINGS
    && Spaced(probes, w.lastInbound, budget / 4)
    && (probes != [] ==> w.nextProbeAt >= probes[|probes| - 1] + budget / 4)
  }

  lemma StepHonest(w: Watch, probes: seq<int>, budget: nat, c: Call)
    requires Honest(w, probes, budget)
    ensures Honest(Step(w, budget, c).0, ProbesAfter(probes, w, budget, c), budget)
  {
  }

  /** The run of a connection: the calls up to the first that trips, or all of them. */
  function Run(w: Watch, budget: nat, calls: seq<Call>): (Watch, Verdict)
    decreases |calls|
  {
    if calls == [] then (w, Fine)
    else
      var (next, v) := Step(w, budget, calls[0]);
      if v == Dead then (next, Dead) else Run(next, budget, calls[1..])
  }

  function RunProbes(probes: seq<int>, w: Watch, budget: nat, calls: seq<Call>): seq<int>
    decreases |calls|
  {
    if calls == [] then probes
    else
      var (next, v) := Step(w, budget, calls[0]);
      var more := ProbesAfter(probes, w, budget, calls[0]);
      if v == Dead then more else RunProbes(more, next, budget, calls[1..])
  }

  /** The time of the call that tripped. */
  function TripTime(w: Watch, budget: nat, calls: seq<Call>): int
    requires Run(w, budget, calls).1 == Dead
    decreases |calls|
  {
    var (next, v) := Step(w, budget, calls[0]);
    if v == Dead then calls[0].now else TripTime(next, budget, calls[1..])
  }

  /**
    The watchdog trips only when nothing arrived for the whole budget and three probes, a quarter of
    the budget apart or more, went out since the last inbound message.
   */
  lemma {:induction false} TripsOnlyWhenSilent(w: Watch, probes: seq<int>, budget: nat, calls: seq<Call>)
    requires Honest(w, probes, budget) && Run(w, budget, calls).1 == Dead
    ensures var (last, _) := Run(w, budget, calls);
      var sent := RunProbes(probes, w, budget, calls);
      && TripTime(w, budget, calls) - last.lastInbound >= budget
      && |sent| == 3 && Spaced(sent, last.lastInbound, budget / 4)
    decreases |calls|
  {
    StepHonest(w, probes, budget, calls[0]);
    var (next, v) := Step(w, budget, calls[0]);
    if v != Dead {
      TripsOnlyWhenSilent(next, ProbesAfter(probes, w, budget, calls[0]), budget, calls[1..]);
    }
  }

  // ---------------------------------------------------------------------------------
  // Latency
  // ---------------------------------------------------------------------------------

  /** Calls without inbound traffic, each at most `gap` after the one before. */
  predicate Regular(from: int, gap: nat, calls: seq<Call>)
    decreases |calls|
  {
    calls != [] ==>
      !calls[0].heard && from <= calls[0].now <= from + gap && Regular(calls[0].now, gap, calls[1..])
  }

  /** How long a silent peer can go unnoticed, one more call aside. */
  function Patience(budget: nat, gap: nat): nat {
    Max(budget, 3 * (budget / 4) + 3 * gap)
  }

  /** Where the watchdog stands after a call at `t` that did not trip. */
  predicate OnSchedule(w: Watch, budget: nat, gap: nat, t: int) {
    && w.pings <= MAX_UNANSWERED_PINGS
    && w.nextProbeAt <= w.lastInbound + (w.pings + 1) * Quarter(budget) + w.pings * gap
    && t <= w.lastInbound + Patience(budget, gap)
    && (w.pings < MAX_UNANSWERED_PINGS ==> t <= w.lastInbound + (w.pings + 1) * Quarter(budget) + w.pings * gap)
  }

  lemma StepOnSchedule(w: Watch, budget: nat, gap: nat, t: int, c: Call)
    requires OnSchedule(w, budget, gap, t) && !c.heard && t <= c.now <= t + gap
    requires Step(w, budget, c).1 != Dead
    ensures OnSchedule(Step(w, budget, c).0, budget, gap, c.now)
  {
    var q := Quarter(budget);
    match w.pings
    case 0 =>
      assert (w.pings + 1) * q == q && w.pings * gap == 0;
      assert (w.pings + 2) * q == 2 * q && (w.pings + 1) * gap == gap;
    case 1 =>
      assert (w.pings + 1) * q == 2 * q && w.pings * gap == gap;
      assert (w.pings + 2) * q == 3 * q && (w.pings + 1) * gap == 2 * gap;
    case 2 =>
      assert (w.pings + 1) * q == 3 * q && w.pings * gap == 2 * gap;
      assert (w.pings + 2) * q == 4 * q && (w.pings + 1) * gap == 3 * gap;
    case _ =>
  }

  lemma {:induction false} SilentRun(w: Watch, budget: nat, gap: nat, t: int, calls: seq<Call>)
    requires OnSchedule(w, budget, gap, t) && Regular(t, gap, calls)
    ensures var r := Run(w, budget, calls);
      && (r.1 == Dead ==> TripTime(w, budget, calls) <= w.lastInbound + Patience(budget, gap) + gap)
      && (r.1 != Dead && calls != [] ==> calls[|calls| - 1].now <= w.lastInbound + Patience(budget, gap))
    decreases |calls|
  {
    hide OnSchedule, Patience;
    if calls != [] {
      var (next, v) := Step(w, budget, calls[0]);
      Bounded(w, budget, gap, t);
      if v != Dead {
        StepOnSchedule(w, budget, gap, t, calls[0]);
        Bounded(next, budget, gap, calls[0].now);
        SilentRun(next, budget, gap, calls[0].now, calls[1..]);
      }
    }
  }

  lemma Bounded(w: Watch, budget: nat, gap: nat, t: int)
    requires OnSchedule(w, budget, gap, t)
    ensures t <= w.lastInbound + Patience(budget, gap)
  {
  }

  /**
    A peer silent since `heard`, checked at least every `gap`: once a call comes later than
    max(budget, 3/4 budget + 3 gap) the watchdog has tripped, at most one gap after that bound.
   */
  lemma SilenceIsNoticed(heard: int, budget: nat, gap: nat, calls: seq<Call>)
    requires Regular(heard, gap, calls) && calls != []
    requires calls[|calls| - 1].now > heard + Patience(budget, gap)
    ensures Run(Heard(heard, budget), budget, calls).1 == Dead
    ensures TripTime(Heard(heard, budget), budget, calls) <= heard + Patience(budget, gap) + gap
  {
    hide Run, Regular;
    SilentRun(Heard(heard, budget), budget, gap, heard, calls);
  }
}
