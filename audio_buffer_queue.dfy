/** A first-in first-out queue of audio chunks. */
module AudioBufferQueues {
  import opened Wrappers
  import opened Json

  class AudioBufferQueue {
    var queue: seq<Value>

    constructor ()
      ensures queue == []
    {
      queue := [];
    }

    method Enqueue(chunk: Value)
      modifies this
      ensures queue == old(queue) + [chunk]
      ensures Size() == old(Size()) + 1
    {
      queue := queue + [chunk];
    }

    /** The oldest chunk, removed; `None` (null) and no change when empty. */
    method Dequeue() returns (r: Option<Value>)
      modifies this
      ensures old(queue) == [] ==> r == None && queue == []
      ensures old(queue) != [] ==> r == Some(old(queue)[0]) && queue == old(queue)[1..]
    {
      if |queue| == 0 {
        return None;
      }
      r := Some(queue[0]);
      queue := queue[1..];
    }

    /** `queue[0] || null`: the head when there is one and it is truthy. */
    function Peek(): (r: Option<Value>)
      reads this
      ensures r.Some? <==> queue != [] && Truthy(queue[0])
      ensures r.Some? ==> r.value == queue[0]
    {
      if queue != [] && Truthy(queue[0]) then Some(queue[0]) else None
    }

    method Clear()
      modifies this
      ensures queue == [] && IsEmpty() && Size() == 0
    {
      queue := [];
    }

    function Size(): (n: nat)
      reads this
      ensures n == |queue|
    {
      |queue|
    }

    function IsEmpty(): (b: bool)
      reads this
      ensures b <==> Size() == 0
    {
      |queue| == 0
    }
  }

  /** Enqueues the chunks one by one, in order. */
  method EnqueueAll(q: AudioBufferQueue, cs: seq<Value>)
    modifies q
    ensures q.queue == old(q.queue) + cs
  {
    var k := 0;
    while k < |cs|
      invariant 0 <= k <= |cs|
      invariant q.queue == old(q.queue) + cs[..k]
    {
      q.Enqueue(cs[k]);
      assert cs[..k + 1] == cs[..k] + [cs[k]];
      k := k + 1;
    }
    assert cs[..|cs|] == cs;
  }

  /** Dequeues until the queue is empty, collecting the chunks. */
  method Drain(q: AudioBufferQueue) returns (out: seq<Value>)
    modifies q
    ensures out == old(q.queue) && q.IsEmpty()
  {
    out := [];
    while !q.IsEmpty()
      invariant out + q.queue == old(q.queue)
      decreases |q.queue|
    {
      ghost var before := q.queue;
      var r := q.Dequeue();
      assert before == [before[0]] + before[1..];
      out := out + [r.value];
    }
  }

  /** Chunks come out in the order they went in, behind what was already
      queued: whatever the queue held, enqueueing `cs` and then dequeueing
      until empty yields the old contents followed by `cs`. */
  method FifoOrder(q: AudioBufferQueue, cs: seq<Value>) returns (out: seq<Value>)
    modifies q
    ensures out == old(q.queue) + cs && q.IsEmpty()
  {
    EnqueueAll(q, cs);
    out := Drain(q);
  }
}
