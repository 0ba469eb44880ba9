/**
  The acknowledgements of a connection over whole runs: what the peer has been told of the bytes
  received, at the moment of each message it sent.
 */
module Acknowledgements {
  import opened Bytes
  import F = FlvTags
  import opened Mux
  import opened Chunks
  import opened Publish
  import opened Transports
  import opened TransportRuns
  import W = Watchdog

  /** The payloads of the acknowledgements among the messages sent. */
  function Acks(ms: seq<OutMessage>): seq<bytes> {
    if ms == [] then []
    else (if ms[0].msg.mtype == MSG_ACK then [ms[0].msg.payload] else []) + Acks(ms[1..])
  }

  /** A counter travels as its low 32 bits. */
  function Payloads(counters: seq<nat>): seq<bytes> {
    seq(|counters|, i requires 0 <= i < |counters| => Be32(counters[i] % TWO_32))
  }

  ghost predicate Increasing(counters: seq<nat>, above: nat) {
    && (forall i :: 0 <= i < |counters| ==> above < counters[i])
    && (forall i, j :: 0 <= i < j < |counters| ==> counters[i] < counters[j])
  }

  /** The highest counter the peer was told. */
  function Told(l: Link, counters: seq<nat>): nat {
    if counters == [] then l.lastAckAt else counters[|counters| - 1]
  }

  /** From `l` to `n` exactly these counters were acknowledged, each higher than all before it. */
  ghost predicate Trail(l: Link, n: Link, counters: seq<nat>) {
    && Acks(n.sent) == Acks(l.sent) + Payloads(counters) && Increasing(counters, l.lastAckAt)
    && n.lastAckAt == Told(l, counters) <= n.received && n.chunk == l.chunk
  }

  lemma {:induction false} AcksAppend(a: seq<OutMessage>, b: seq<OutMessage>)
    ensures Acks(a + b) == Acks(a) + Acks(b)
  {
    if a == [] {
      assert a + b == b;
    } else {
      assert (a + b)[1..] == a[1..] + b;
      AcksAppend(a[1..], b);
    }
  }

  lemma OneAck(m: OutMessage)
    ensures Acks([m]) == if m.msg.mtype == MSG_ACK then [m.msg.payload] else []
  {
    assert [m][1..] == [];
  }

  lemma TrailTwice(l: Link, n: Link, o: Link, a: seq<nat>, b: seq<nat>)
    requires Trail(l, n, a) && Trail(n, o, b)
    ensures Trail(l, o, a + b)
  {
    assert Payloads(a + b) == Payloads(a) + Payloads(b);
    assert Acks(l.sent) + Payloads(a) + Payloads(b) == Acks(l.sent) + (Payloads(a) + Payloads(b));
  }

  /** Nothing was acknowledged. */
  lemma TrailStays(l: Link, n: Link)
    requires Acks(n.sent) == Acks(l.sent) && n.lastAckAt == l.lastAckAt <= n.received && n.chunk == l.chunk
    ensures Trail(l, n, [])
  {
    assert Acks(l.sent) + Payloads([]) == Acks(l.sent);
  }

  /** Any other message leaves the trail as it is. */
  lemma SendTrail(l: Link, m: OutMessage)
    requires l.chunk > 0 && m.cid < 64 && m.msg.mtype != MSG_ACK && l.lastAckAt <= l.received
    ensures Trail(l, Send(l, m).0, [])
  {
    hide Frame, Put;
    OneAck(m);
    AcksAppend(l.sent, [m]);
    assert Acks(l.sent) + [] == Acks(l.sent);
    TrailStays(l, Send(l, m).0);
  }

  /** What the acknowledgement step did, if it did anything. */
  function Acked(l: Link): seq<nat> {
    if l.windowAck != 0 && l.received >= l.lastAckAt + l.windowAck then [l.received] else []
  }

  lemma AckTrail(l: Link)
    requires l.chunk > 0 && MaybeAck(l).1 && l.lastAckAt <= l.received
    ensures Trail(l, MaybeAck(l).0, Acked(l))
    ensures var n := MaybeAck(l).0; n.windowAck != 0 ==> n.received - n.lastAckAt < n.windowAck
  {
    hide Frame, Put;
    TrailStays(l, l);
    if Acked(l) != [] {
      var m := Control(MSG_ACK, Be32(l.received % TWO_32));
      OneAck(m);
      AcksAppend(l.sent, [m]);
      assert Payloads([l.received]) == [m.msg.payload];
    }
  }

  lemma ReactTrail(l: Link, m: Message)
    requires l.chunk > 0 && React(l, m).1 && l.lastAckAt <= l.received
    ensures Trail(l, React(l, m).0, [])
  {
    hide Send, HandleControl;
    TrailStays(l, React(l, m).0.(sent := l.sent, lastAckAt := l.lastAckAt, received := l.received, chunk := l.chunk));
    if |m.payload| >= 6 {
      SendTrail(l, Control(MSG_USER_CONTROL, Be16(UCM_PING_RESPONSE) + Be32(Rd32(m.payload[2..6]))));
    }
  }

  // ---------------------------------------------------------------------------------
  // Moments
  // ---------------------------------------------------------------------------------

  /** A message is counted and proves the peer alive. */
  function Arrived(l: Link, states: Streams, used: nat, now: int): Link {
    l.(reader := l.reader.(states := states), received := l.received + used, watch := W.Heard(now, BudgetOf(l)))
  }

  /** The connection at each message of a drain: after it was counted and the window looked at. */
  function Moments(l: Link, d: bytes, now: int): seq<Link>
    requires l.chunk > 0
    decreases |d|
  {
    match ReadMessage(l.reader.states, l.reader.size, d)
    case Starved => []
    case Got(states, used, m) =>
      var (n, ok) := Receive(l, l.reader.(states := states), used, m, now);
      ReceiveKeepsChunk(l, l.reader.(states := states), used, m, now);
      [MaybeAck(Arrived(l, states, used, now)).0] + if ok then Moments(n, d[used..], now) else []
  }

  /** Less than the window then in force has come in since the highest counter the peer was told. */
  ghost predicate Kept(l: Link, a: Link) {
    exists counters :: Trail(l, a, counters) && (a.windowAck != 0 ==> a.received - Told(l, counters) < a.windowAck)
  }

  ghost predicate AllKept(l: Link, moments: seq<Link>) {
    forall i :: 0 <= i < |moments| ==> Kept(l, moments[i])
  }

  lemma KeptLater(l: Link, n: Link, counters: seq<nat>, moments: seq<Link>)
    requires Trail(l, n, counters) && AllKept(n, moments)
    ensures AllKept(l, moments)
  {
    hide Trail;
    forall i | 0 <= i < |moments| ensures Kept(l, moments[i]) {
      var a := moments[i];
      assert Kept(n, a);
      var more :| Trail(n, a, more) && (a.windowAck != 0 ==> a.received - Told(n, more) < a.windowAck);
      TrailTwice(l, n, a, counters, more);
      ToldAt(l, n, counters);
      ToldAt(n, a, more);
      ToldAt(l, a, counters + more);
    }
  }

  lemma ToldAt(l: Link, n: Link, counters: seq<nat>)
    requires Trail(l, n, counters)
    ensures n.lastAckAt == Told(l, counters) <= n.received && n.chunk == l.chunk
  {
  }

  lemma AllKeptJoins(l: Link, a: seq<Link>, b: seq<Link>)
    requires AllKept(l, a) && AllKept(l, b)
    ensures AllKept(l, a + b)
  {
    hide Kept;
  }

  lemma ReceiveTrail(l: Link, states: Streams, used: nat, m: Message, now: int)
    requires l.chunk > 0 && l.lastAckAt <= l.received && Receive(l, l.reader.(states := states), used, m, now).1
    ensures var a := Arrived(l, states, used, now);
      && Trail(l, Receive(l, l.reader.(states := states), used, m, now).0, Acked(a))
      && Kept(l, MaybeAck(a).0)
  {
    hide MaybeAck, React, Trail, Acked;
    var a := Arrived(l, states, used, now);
    TrailStays(l, a);
    AckTrail(a);
    var b := MaybeAck(a).0;
    ToldAt(a, b, Acked(a));
    ReactTrail(b, m);
    TrailTwice(a, b, React(b, m).0, Acked(a), []);
    TrailTwice(l, a, b, [], Acked(a));
    TrailTwice(l, a, React(b, m).0, [], Acked(a) + []);
    assert [] + Acked(a) == Acked(a) && [] + (Acked(a) + []) == Acked(a);
    ToldAt(l, b, Acked(a));
  }

  lemma {:induction false} DrainTrail(l: Link, d: bytes, now: int, u: Cut) returns (counters: seq<nat>)
    requires l.chunk > 0 && l.lastAckAt <= l.received && DrainInbound(l, d, now, u).1
    ensures Trail(l, DrainInbound(l, d, now, u).0, counters) && AllKept(l, Moments(l, d, now))
    decreases |d|
  {
    hide ReadMessage, Receive, MaybeAck, Trail, Kept, Acked;
    match ReadMessage(l.reader.states, l.reader.size, d)
    case Starved =>
      counters := [];
      TrailStays(l, DrainInbound(l, d, now, u).0);
    case Got(states, used, m) =>
      var n := Receive(l, l.reader.(states := states), used, m, now).0;
      var a := Arrived(l, states, used, now);
      ReceiveKeepsChunk(l, l.reader.(states := states), used, m, now);
      ReceiveTrail(l, states, used, m, now);
      ToldAt(l, n, Acked(a));
      var rest := DrainTrail(n, d[used..], now, u);
      KeptLater(l, n, Acked(a), Moments(n, d[used..], now));
      TrailTwice(l, n, DrainInbound(n, d[used..], now, u).0, Acked(a), rest);
      AllKeptJoins(l, [MaybeAck(a).0], Moments(n, d[used..], now));
      counters := Acked(a) + rest;
  }

  // ---------------------------------------------------------------------------------
  // Runs
  // ---------------------------------------------------------------------------------

  lemma CheckTrail(l: Link, now: int, stamp: nat)
    requires l.chunk > 0 && l.lastAckAt <= l.received && CheckPeer(l, now, stamp).1
    ensures Trail(l, CheckPeer(l, now, stamp).0, [])
  {
    hide Send, W.Check;
    TrailStays(l, l);
    var counted := l.(watch := l.watch.(pings := l.watch.pings + 1));
    var m := Control(MSG_USER_CONTROL, Be16(UCM_PING_REQUEST) + Be32(stamp));
    SendTrail(counted, m);
    TrailStays(l, Send(counted, m).0.(sent := l.sent));
  }

  predicate NoAcks(ms: seq<OutMessage>) {
    forall i :: 0 <= i < |ms| ==> ms[i].cid < 64 && ms[i].msg.mtype != MSG_ACK
  }

  lemma {:induction false} NoAckEmitted(pid: nat, tags: seq<F.FlvTag>)
    ensures NoAcks(EmitTags(pid, tags))
  {
    if tags != [] {
      NoAckEmitted(pid, tags[1..]);
    }
  }

  lemma {:induction false} SendAllTrail(l: Link, ms: seq<OutMessage>)
    requires l.chunk > 0 && l.lastAckAt <= l.received && NoAcks(ms)
    ensures Trail(l, SendAll(l, ms).0, [])
    decreases |ms|
  {
    hide Send, Trail;
    if ms == [] {
      TrailStays(l, l);
    } else {
      var none: seq<nat> := [];
      SendTrail(l, ms[0]);
      var n := Send(l, ms[0]).0;
      ToldAt(l, n, []);
      if Send(l, ms[0]).1 {
        SendAllTrail(n, ms[1..]);
        TrailTwice(l, n, SendAll(n, ms[1..]).0, none, none);
        assert none + none == none;
      }
    }
  }

  function MomentsOf(l: Link, s: Step): seq<Link>
    requires l.chunk > 0
  {
    if s.MaintainStep? then Moments(l, s.input, s.now) else []
  }

  function AllMoments(l: Link, steps: seq<Step>): seq<Link>
    requires l.chunk > 0
    decreases |steps|
  {
    if steps == [] then []
    else
      KeepsChunk(l, steps[0]);
      MomentsOf(l, steps[0]) + AllMoments(Do(l, steps[0]).0, steps[1..])
  }

  lemma StepTrail(l: Link, s: Step) returns (counters: seq<nat>)
    requires l.chunk > 0 && l.lastAckAt <= l.received && Do(l, s).1
    ensures Trail(l, Do(l, s).0, counters) && AllKept(l, MomentsOf(l, s))
  {
    hide Trail, DrainInbound, CheckPeer, F.Feed, Moments, Kept, EmitTags;
    match s
    case WriteStep(data) =>
      var fed := F.Feed(l.parser, data);
      var n := l.(parser := fed.parser);
      var none: seq<nat> := [];
      EmittedIds(l.pid, fed.tags);
      NoAckEmitted(l.pid, fed.tags);
      TrailStays(l, n);
      SendAllTrail(n, EmitTags(l.pid, fed.tags));
      TrailTwice(l, n, Do(l, s).0, none, none);
      assert none + none == none;
      counters := [];
    case MaintainStep(input, closed, now, stamp, u) =>
      counters := DrainTrail(l, input, now, u);
      var a := DrainInbound(l, input, now, u).0;
      ToldAt(l, a, counters);
      CheckTrail(a, now, stamp);
      TrailTwice(l, a, CheckPeer(a, now, stamp).0, counters, []);
      assert counters + [] == counters;
  }

  lemma {:induction false} RunTrail(l: Link, steps: seq<Step>) returns (counters: seq<nat>)
    requires l.chunk > 0 && l.lastAckAt <= l.received && Succeeds(l, steps)
    ensures Trail(l, DoAll(l, steps), counters) && AllKept(l, AllMoments(l, steps))
    decreases |steps|
  {
    hide Do, Trail, Kept, MomentsOf;
    if steps == [] {
      counters := [];
      TrailStays(l, l);
    } else {
      KeepsChunk(l, steps[0]);
      var n := Do(l, steps[0]).0;
      var first := StepTrail(l, steps[0]);
      ToldAt(l, n, first);
      var rest := RunTrail(n, steps[1..]);
      KeptLater(l, n, first, AllMoments(n, steps[1..]));
      TrailTwice(l, n, DoAll(n, steps[1..]), first, rest);
      AllKeptJoins(l, MomentsOf(l, steps[0]), AllMoments(n, steps[1..]));
      counters := first + rest;
    }
  }

  /**
    Over every successful run of writes and health checks: the acknowledgements sent carry strictly
    increasing counters, the last of which is what the connection remembers, and at each message that
    arrived less than the window in force then had come in since the highest counter the peer was told.
   */
  lemma WindowKept(l: Link, steps: seq<Step>)
    requires l.chunk > 0 && l.lastAckAt <= l.received && Succeeds(l, steps)
    ensures exists counters :: Trail(l, DoAll(l, steps), counters)
    ensures forall i :: 0 <= i < |AllMoments(l, steps)| ==> Kept(l, AllMoments(l, steps)[i])
  {
    var counters := RunTrail(l, steps);
  }

  // ---------------------------------------------------------------------------------
  // What the peer announced
  // ---------------------------------------------------------------------------------

  /** The window once a message was heard: the last one announced, by either of two messages. */
  function WindowOf(window: nat, m: Message): nat {
    if (m.mtype == 5 || m.mtype == 6) && |m.payload| >= 4 then Rd32(m.payload[..4]) else window
  }

  function WindowAfter(window: nat, ms: seq<Message>): nat
    decreases |ms|
  {
    if ms == [] then window else WindowAfter(WindowOf(window, ms[0]), ms[1..])
  }

  /** How much the peer says it has received: the last of its user control acknowledgements. */
  function PeerAckOf(acked: nat, m: Message): nat {
    if m.mtype == 4 && |m.payload| >= 6 && m.payload[..2] == [0, 3] then Rd32(m.payload[2..6]) else acked
  }

  function PeerAckAfter(acked: nat, ms: seq<Message>): nat
    decreases |ms|
  {
    if ms == [] then acked else PeerAckAfter(PeerAckOf(acked, ms[0]), ms[1..])
  }

  /** One message: the window in force is still the one before it, and its own announcements hold from then on. */
  lemma ReceiveHears(l: Link, states: Streams, used: nat, m: Message, now: int)
    requires l.chunk > 0 && Receive(l, l.reader.(states := states), used, m, now).1
    ensures var n := Receive(l, l.reader.(states := states), used, m, now).0;
      && MaybeAck(Arrived(l, states, used, now)).0.windowAck == l.windowAck
      && n.windowAck == WindowOf(l.windowAck, m) && n.peerAcked == PeerAckOf(l.peerAcked, m)
      && HandleControl(l.reader.(states := states), m) == Some(n.reader)
  {
    hide Frame, Put;
  }

  lemma HeardHead(window: nat, acked: nat, m: Message, rest: seq<Message>)
    ensures WindowAfter(window, [m] + rest) == WindowAfter(WindowOf(window, m), rest)
    ensures PeerAckAfter(acked, [m] + rest) == PeerAckAfter(PeerAckOf(acked, m), rest)
  {
    assert ([m] + rest)[1..] == rest;
  }

  lemma {:induction false} DrainHears(l: Link, d: bytes, now: int, u: Cut)
    requires l.chunk > 0 && DrainInbound(l, d, now, u).1
    ensures var ms, n := Pump(l.reader, d).msgs, DrainInbound(l, d, now, u).0;
      && |Moments(l, d, now)| == |ms|
      && (forall i :: 0 <= i < |ms| ==> Moments(l, d, now)[i].windowAck == WindowAfter(l.windowAck, ms[..i]))
      && n.windowAck == WindowAfter(l.windowAck, ms) && n.peerAcked == PeerAckAfter(l.peerAcked, ms)
    decreases |d|
  {
    hide ReadMessage, Receive, MaybeAck, HandleControl, WindowOf, PeerAckOf;
    match ReadMessage(l.reader.states, l.reader.size, d)
    case Starved =>
    case Got(states, used, m) =>
      var n := Receive(l, l.reader.(states := states), used, m, now).0;
      var a := MaybeAck(Arrived(l, states, used, now)).0;
      ReceiveKeepsChunk(l, l.reader.(states := states), used, m, now);
      ReceiveHears(l, states, used, m, now);
      DrainHears(n, d[used..], now, u);
      var rest := Pump(n.reader, d[used..]).msgs;
      var ms := [m] + rest;
      assert Pump(l.reader, d).msgs == ms;
      HeardHead(l.windowAck, l.peerAcked, m, rest);
      forall i | 0 <= i < |ms|
        ensures ([a] + Moments(n, d[used..], now))[i].windowAck == WindowAfter(l.windowAck, ms[..i])
      {
        if i > 0 {
          assert ms[..i] == [m] + rest[..i - 1];
          HeardHead(l.windowAck, l.peerAcked, m, rest[..i - 1]);
        }
      }
  }

  /** The messages that the health checks of a run read, by a reader of their bytes alone. */
  function Heard(l: Link, steps: seq<Step>): seq<Message>
    requires l.chunk > 0
    decreases |steps|
  {
    if steps == [] then []
    else
      KeepsChunk(l, steps[0]);
      (if steps[0].MaintainStep? then Pump(l.reader, steps[0].input).msgs else [])
      + Heard(Do(l, steps[0]).0, steps[1..])
  }

  lemma {:induction false} HeardAppend(window: nat, acked: nat, a: seq<Message>, b: seq<Message>)
    ensures WindowAfter(window, a + b) == WindowAfter(WindowAfter(window, a), b)
    ensures PeerAckAfter(acked, a + b) == PeerAckAfter(PeerAckAfter(acked, a), b)
    decreases |a|
  {
    hide WindowOf, PeerAckOf;
    if a == [] {
      assert a + b == b;
    } else {
      assert (a + b)[1..] == a[1..] + b;
      HeardAppend(WindowOf(window, a[0]), PeerAckOf(acked, a[0]), a[1..], b);
    }
  }

  lemma StepHears(l: Link, s: Step)
    requires l.chunk > 0 && Do(l, s).1
    ensures var ms, n := if s.MaintainStep? then Pump(l.reader, s.input).msgs else [], Do(l, s).0;
      && |MomentsOf(l, s)| == |ms|
      && (forall i :: 0 <= i < |ms| ==> MomentsOf(l, s)[i].windowAck == WindowAfter(l.windowAck, ms[..i]))
      && n.windowAck == WindowAfter(l.windowAck, ms) && n.peerAcked == PeerAckAfter(l.peerAcked, ms)
  {
    hide DrainInbound, F.Feed, Moments, EmitTags, Send, W.Check, Pump;
    match s
    case WriteStep(data) =>
      var fed := F.Feed(l.parser, data);
      EmittedIds(l.pid, fed.tags);
      SendAllHears(l.(parser := fed.parser), EmitTags(l.pid, fed.tags));
    case MaintainStep(input, closed, now, stamp, u) =>
      DrainHears(l, input, now, u);
      DrainKeepsChunk(l, input, now, u);
      CheckHears(DrainInbound(l, input, now, u).0, now, stamp);
  }

  lemma CheckHears(l: Link, now: int, stamp: nat)
    requires l.chunk > 0
    ensures var n := CheckPeer(l, now, stamp).0; n.windowAck == l.windowAck && n.peerAcked == l.peerAcked
  {
    hide Frame, Put, W.Check;
  }

  lemma {:induction false} SendAllHears(l: Link, ms: seq<OutMessage>)
    requires l.chunk > 0 && forall i :: 0 <= i < |ms| ==> ms[i].cid < 64
    ensures var n := SendAll(l, ms).0; n.windowAck == l.windowAck && n.peerAcked == l.peerAcked
    decreases |ms|
  {
    hide Send;
    if ms != [] {
      SendHears(l, ms[0]);
      if Send(l, ms[0]).1 {
        SendAllHears(Send(l, ms[0]).0, ms[1..]);
      }
    }
  }

  lemma SendHears(l: Link, m: OutMessage)
    requires l.chunk > 0 && m.cid < 64
    ensures var n := Send(l, m).0; n.windowAck == l.windowAck && n.peerAcked == l.peerAcked && n.chunk == l.chunk
  {
    hide Frame, Put;
  }

  /**
    Over every successful run there is one moment for each message the peer sent, and the window in force
    there is the last one announced before it. In the end the window and the peer's count are the last ones.
   */
  lemma {:induction false} WindowIsAnnounced(l: Link, steps: seq<Step>)
    requires l.chunk > 0 && Succeeds(l, steps)
    ensures var ms, n := Heard(l, steps), DoAll(l, steps);
      && |AllMoments(l, steps)| == |ms|
      && (forall i :: 0 <= i < |ms| ==> AllMoments(l, steps)[i].windowAck == WindowAfter(l.windowAck, ms[..i]))
      && n.windowAck == WindowAfter(l.windowAck, ms) && n.peerAcked == PeerAckAfter(l.peerAcked, ms)
    decreases |steps|
  {
    hide Do, MomentsOf, Pump, WindowAfter, PeerAckAfter;
    if steps == [] {
      NothingHeard(l);
    } else {
      KeepsChunk(l, steps[0]);
      var n := Do(l, steps[0]).0;
      StepHears(l, steps[0]);
      WindowIsAnnounced(n, steps[1..]);
      var first := if steps[0].MaintainStep? then Pump(l.reader, steps[0].input).msgs else [];
      var rest := Heard(n, steps[1..]);
      HeardAppend(l.windowAck, l.peerAcked, first, rest);
      var ms := first + rest;
      forall i | 0 <= i < |ms| ensures AllMoments(l, steps)[i].windowAck == WindowAfter(l.windowAck, ms[..i]) {
        if i < |first| {
          assert ms[..i] == first[..i];
        } else {
          assert ms[..i] == first + rest[..i - |first|];
          HeardAppend(l.windowAck, l.peerAcked, first, rest[..i - |first|]);
        }
      }
    }
  }

  lemma NothingHeard(l: Link)
    ensures WindowAfter(l.windowAck, []) == l.windowAck && PeerAckAfter(l.peerAcked, []) == l.peerAcked
  {
  }
}
