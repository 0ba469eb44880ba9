/**
  The session: it keeps an engine connected across transport failures on the backoff schedule.
  `Session` is its state as a value, `StreamSession` the object. Time, the connector's answers, the
  transport's health and the random draw are parameters of each call.
 */
module Sessions {
  import opened Bytes
  import opened Media
  import opened Mux
  import opened Engines
  import opened StreamEngines
  import B = Backoff

  datatype State = Idle | Connected | Reconnecting | Exhausted | Finished

  datatype Session = Session(
    policy: B.Policy, state: State, attempt: nat, nextAttemptAt: Option<real>, reconnects: nat, engine: Engine)

  function NewSession(policy: B.Policy, profile: LatencyProfile, meta: bytes): Session {
    Session(policy, Idle, 0, None, 0, NewEngine(profile, meta))
  }

  /**
    What a reconnect attempt meets: the time it looks at the schedule, a fresh transport with some
    room or a refusal, that transport's health, and the time and draw the next attempt is scheduled with.
   */
  datatype Attempt = Attempt(now: real, connects: Option<nat>, healthy: bool, flushes: bool, at: real, draw: real)

  datatype Answer =
    | Sent(n: nat) | EngineFailed(tick: TickResult) | FinishFailed(failure: Outcome)
    | GiveUp(attempts: nat) | NotStarted | AlreadyFinished

  function Disconnect(s: Session): Session {
    s.(engine := Detach(s.engine), state := Reconnecting, attempt := 0, nextAttemptAt := None)
  }

  predicate MayDial(s: Session, now: real) {
    s.nextAttemptAt.None? || now >= s.nextAttemptAt.value
  }

  function FreshSink(room: nat): Sink {
    Sink([], room, false)
  }

  function AnswerOf(r: TickResult): Answer {
    if r.Muxed? then Sent(r.n) else EngineFailed(r)
  }

  predicate OutOfAttempts(p: B.Policy, n: nat) {
    p.maxAttempts.Some? && n >= p.maxAttempts.value
  }

  function ReconnectPhase(s: Session, a: Attempt): (Session, Answer) {
    if !MayDial(s, a.now) then (s, Sent(0))
    else
      match a.connects
      case Some(room) =>
        var (e, r) := Tick(Attach(s.engine, FreshSink(room)), a.healthy, a.flushes);
        (s.(engine := e, state := Connected, attempt := 0, nextAttemptAt := None, reconnects := s.reconnects + 1),
         AnswerOf(r))
      case None =>
        var n := s.attempt + 1;
        if OutOfAttempts(s.policy, n) then (s.(attempt := n, state := Exhausted), GiveUp(n))
        else (s.(attempt := n, nextAttemptAt := Some(a.at + B.Jittered(B.Base(s.policy, n), a.draw))), Sent(0))
  }

  /** No progress for the stall timeout; with nothing attached there is no progress to miss. */
  predicate Stalls(s: Session, silent: bool) {
    silent && s.engine.muxer.Some?
  }

  function Pump(s: Session, silent: bool, healthy: bool, flushes: bool, a: Attempt): (Session, Answer) {
    match s.state
    case Idle => (s, NotStarted)
    case Finished => (s, AlreadyFinished)
    case Exhausted => (s, GiveUp(s.attempt))
    case Reconnecting => ReconnectPhase(s, a)
    case Connected =>
      if Stalls(s, silent) then ReconnectPhase(Disconnect(s), a)
      else
        var (e, r) := Tick(s.engine, healthy, flushes);
        if r.Muxed? then (s.(engine := e), Sent(r.n)) else ReconnectPhase(Disconnect(s.(engine := e)), a)
  }

  function Start(s: Session, connects: Option<nat>): Session {
    match connects
    case None => s
    case Some(room) => s.(engine := Attach(s.engine, FreshSink(room)), state := Connected)
  }

  function Retry(s: Session): Session {
    if s.state == Exhausted then s.(state := Reconnecting, attempt := 0, nextAttemptAt := None) else s
  }

  /** `shuts` is the transport's own shutdown after everything was flushed. */
  function FinishSession(s: Session, flushes: bool, shuts: bool): (Session, Answer) {
    if s.state != Connected then (s.(state := Finished), Sent(0))
    else
      var (e, r) := Finish(s.engine, flushes);
      if r != Done then (s.(engine := e), FinishFailed(r))
      else if s.engine.muxer.Some? && !shuts then (s.(engine := e), FinishFailed(Io))
      else (s.(engine := e, state := Finished), Sent(0))
  }

  datatype Call =
    | StartCall(connects: Option<nat>)
    | PumpCall(silent: bool, healthy: bool, flushes: bool, a: Attempt)
    | RetryCall
    | PushCall(ps: seq<MediaPacket>)
    | ConfigureCall(avcc: Option<bytes>, asc: Option<bytes>)
    | FinishCall(flush: bool, shuts: bool)

  function Do(s: Session, c: Call): Session {
    match c
    case StartCall(connects) => Start(s, connects)
    case PumpCall(silent, healthy, flushes, a) => Pump(s, silent, healthy, flushes, a).0
    case RetryCall => Retry(s)
    case PushCall(ps) => s.(engine := PushAll(s.engine, ps))
    case ConfigureCall(avcc, asc) => s.(engine := ConfigureCodecs(s.engine, avcc, asc).0)
    case FinishCall(flush, shuts) => FinishSession(s, flush, shuts).0
  }

  function DoAll(s: Session, calls: seq<Call>): Session
    decreases |calls|
  {
    if calls == [] then s else DoAll(Do(s, calls[0]), calls[1..])
  }

  class StreamSession {
    const policy: B.Policy
    const engine: StreamEngine
    var state: State
    var attempt: nat
    var nextAttemptAt: Option<real>
    var reconnects: nat

    function View(): Session
      reads this, engine, engine.buffer, engine.muxer, if engine.muxer == null then {} else {engine.muxer.sink}
    {
      Session(policy, state, attempt, nextAttemptAt, reconnects, engine.View())
    }

    constructor (policy: B.Policy, profile: LatencyProfile, meta: bytes)
      ensures View() == NewSession(policy, profile, meta) && fresh(engine) && fresh(engine.Repr())
    {
      this.policy := policy;
      engine := new StreamEngine(profile, meta);
      state, attempt, nextAttemptAt, reconnects := Idle, 0, None, 0;
    }

    /** A fresh transport, or null when the connector refused. */
    ghost predicate Dialed(sink: ByteSink?, connects: Option<nat>)
      reads sink
    {
      if sink == null then connects.None? else connects.Some? && sink.View() == FreshSink(connects.value)
    }

    method StartWith(sink: ByteSink?, ghost connects: Option<nat>) returns (ok: bool)
      requires Dialed(sink, connects)
      modifies this, engine
      ensures View() == Start(old(View()), connects) && ok == connects.Some?
    {
      hide Attach;
      if sink == null {
        return false;
      }
      engine.AttachTransport(sink);
      state := Connected;
      return true;
    }

    method DropTransport()
      modifies this, engine, engine.buffer
      ensures View() == Disconnect(old(View())) && engine.muxer == null
    {
      hide Detach;
      engine.DetachTransport();
      state, attempt, nextAttemptAt := Reconnecting, 0, None;
    }

    /** One attempt when the schedule allows it; a refusal schedules the next one or gives up. */
    method Reconnect(sink: ByteSink?, ghost a: Attempt, now: real, healthy: bool, flushes: bool, at: real, draw: real)
        returns (r: Answer)
      requires Dialed(sink, a.connects) && a == Attempt(now, a.connects, healthy, flushes, at, draw)
      requires B.Sane(policy)
      modifies this, engine.Repr(), sink
      ensures (View(), r) == ReconnectPhase(old(View()), a)
    {
      hide Attach, Tick, B.Base;
      if nextAttemptAt.Some? {
        if now < nextAttemptAt.value {
          return Sent(0);
        }
      }
      if sink != null {
        engine.AttachTransport(sink);
        state, attempt, nextAttemptAt, reconnects := Connected, 0, None, reconnects + 1;
        var t := engine.TickOnce(healthy, flushes);
        return if t.Muxed? then Sent(t.n) else EngineFailed(t);
      }
      attempt := attempt + 1;
      if policy.maxAttempts.Some? && attempt >= policy.maxAttempts.value {
        state := Exhausted;
        return GiveUp(attempt);
      }
      var delay := B.Delay(policy, attempt, draw);
      nextAttemptAt := Some(at + delay);
      return Sent(0);
    }

    method PumpOnce(silent: bool, healthy: bool, flushes: bool, sink: ByteSink?, ghost a: Attempt,
                    now: real, newHealthy: bool, newFlushes: bool, at: real, draw: real) returns (r: Answer)
      requires Dialed(sink, a.connects) && a == Attempt(now, a.connects, newHealthy, newFlushes, at, draw)
      requires B.Sane(policy) && sink !in engine.Repr()
      modifies this, engine.Repr(), sink
      ensures (View(), r) == Pump(old(View()), silent, healthy, flushes, a)
    {
      hide ReconnectPhase, Tick, Detach, B.Base;
      match state {
        case Idle => return NotStarted;
        case Finished => return AlreadyFinished;
        case Exhausted => return GiveUp(attempt);
        case Reconnecting =>
        case Connected =>
          if silent && engine.muxer != null {
            DropTransport();
          } else {
            var t := engine.TickOnce(healthy, flushes);
            if t.Muxed? {
              return Sent(t.n);
            }
            DropTransport();
          }
      }
      r := Reconnect(sink, a, now, newHealthy, newFlushes, at, draw);
    }

    method RetryNow()
      modifies this`state, this`attempt, this`nextAttemptAt
      ensures View() == Retry(old(View()))
    {
      if state == Exhausted {
        state, attempt, nextAttemptAt := Reconnecting, 0, None;
      }
    }

    method End(flushes: bool, shuts: bool) returns (r: Answer)
      modifies this`state, engine.Repr()
      ensures (View(), r) == FinishSession(old(View()), flushes, shuts)
    {
      hide Finish;
      if state == Connected {
        var attached := engine.muxer != null;
        var f := engine.FinishStream(flushes);
        if f != Done {
          return FinishFailed(f);
        }
        if attached && !shuts {
          return FinishFailed(Io);
        }
      }
      state := Finished;
      return Sent(0);
    }
  }
}
