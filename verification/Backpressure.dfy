/** The bounded packet buffer: what its calls do to the queue and its counters, and the buffer itself. */
module Backpressure {
  import opened Media

  datatype Buffer = Buffer(queue: seq<MediaPacket>, capacity: nat, dropped: nat, pushed: nat)

  /** The packet that a push evicts. */
  function Evicted(b: Buffer): seq<MediaPacket> {
    if b.queue != [] && |b.queue| >= b.capacity then [b.queue[0]] else []
  }

  function Push(b: Buffer, p: MediaPacket): Buffer {
    if |b.queue| >= b.capacity then
      Buffer((if b.queue == [] then [] else b.queue[1..]) + [p], b.capacity, b.dropped + 1, b.pushed + 1)
    else Buffer(b.queue + [p], b.capacity, b.dropped, b.pushed + 1)
  }

  /** How many packets lie before the newest keyframe; none when there is no keyframe. */
  function BeforeLastKey(q: seq<MediaPacket>): (n: nat)
    ensures n <= |q| && (n > 0 ==> n < |q| && IsKeyframe(q[n]))
    ensures forall k :: n < k < |q| ==> !IsKeyframe(q[k])
  {
    if q == [] then 0
    else if IsKeyframe(q[|q| - 1]) then |q| - 1
    else
      var n := BeforeLastKey(q[..|q| - 1]);
      assert forall k :: 0 <= k < |q| - 1 ==> q[k] == q[..|q| - 1][k];
      n
  }

  function Resync(b: Buffer): Buffer {
    var n := BeforeLastKey(b.queue);
    b.(queue := b.queue[n..], dropped := b.dropped + n)
  }

  function RestoreFront(b: Buffer, items: seq<MediaPacket>): Buffer {
    b.(queue := items + b.queue)
  }

  class BoundedBuffer {
    var queue: seq<MediaPacket>
    const capacity: nat
    var dropped: nat
    var pushed: nat

    function View(): Buffer
      reads this
    {
      Buffer(queue, capacity, dropped, pushed)
    }

    constructor (capacity: nat)
      ensures View() == Buffer([], capacity, 0, 0)
    {
      queue, this.capacity, dropped, pushed := [], capacity, 0, 0;
    }

    /** Inserts a packet; when full the oldest one is evicted and counted. */
    method PushBack(p: MediaPacket)
      modifies this
      ensures View() == Push(old(View()), p)
    {
      pushed := pushed + 1;
      if |queue| >= capacity {
        queue := if queue == [] then [] else queue[1..];
        dropped := dropped + 1;
      }
      queue := queue + [p];
    }

    method PopOldest() returns (p: MediaPacket)
      requires queue != []
      modifies this`queue
      ensures p == old(queue)[0] && queue == old(queue)[1..]
    {
      p := queue[0];
      queue := queue[1..];
    }

    /** Puts items back at the head of the line, one by one from the last. */
    method PushFrontAll(items: seq<MediaPacket>)
      modifies this
      ensures View() == RestoreFront(old(View()), items)
    {
      for i := |items| downto 0
        invariant View() == old(View()).(queue := items[i..] + old(queue))
      {
        queue := [items[i]] + queue;
      }
    }

    /** Discards everything before the newest keyframe; finds it from the back. */
    method CutToKeyframe() returns (n: nat)
      modifies this
      ensures View() == Resync(old(View())) && n == BeforeLastKey(old(queue))
    {
      var i: nat := |queue|;
      while i > 0 && !IsKeyframe(queue[i - 1])
        invariant i <= |queue|
        invariant BeforeLastKey(queue[..i]) == BeforeLastKey(queue)
      {
        assert queue[..i][..i - 1] == queue[..i - 1];
        i := i - 1;
      }
      if i == 0 {
        return 0;
      }
      n := i - 1;
      assert queue[..i][|queue[..i]| - 1] == queue[n];
      dropped := dropped + n;
      queue := queue[n..];
    }

    method RecordDrop()
      modifies this`dropped
      ensures dropped == old(dropped) + 1
    {
      dropped := dropped + 1;
    }
  }
}
