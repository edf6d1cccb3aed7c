/** The circular buffer: head, tail and two flags that tell a full buffer from an empty one. */
module RingBuffer {

  datatype Ring = Ring(buffer: seq<int>, head: int, tail: int, full: bool, empty: bool)

  ghost predicate Valid(r: Ring) {
    && 0 <= r.head < |r.buffer| && 0 <= r.tail < |r.buffer|
    && !(r.full && r.empty)
    && (r.head == r.tail <==> r.full || r.empty)
  }

  /** What the buffer holds, oldest first. */
  ghost function Contents(r: Ring): (s: seq<int>)
    requires Valid(r)
    ensures r.empty <==> s == []
    ensures r.full <==> |s| == |r.buffer|
    ensures |s| <= |r.buffer|
  {
    if r.empty then []
    else if r.head < r.tail then r.buffer[r.head..r.tail]
    else r.buffer[r.head..] + r.buffer[..r.tail]
  }

  function Wrap(i: int, size: int): int {
    if i + 1 == size then 0 else i + 1
  }

  function Create(size: nat): (r: Ring)
    requires size >= 1
    ensures Valid(r) && |r.buffer| == size && Contents(r) == []
  {
    Ring(seq(size, _ => 0), 0, 0, false, true)
  }

  function Add(r: Ring, item: int): (r': Ring)
    requires Valid(r) && !r.full
    ensures Valid(r') && |r'.buffer| == |r.buffer| && Contents(r') == Contents(r) + [item]
  {
    var tail := Wrap(r.tail, |r.buffer|);
    Ring(r.buffer[r.tail := item], r.head, tail, r.full || tail == r.head, false)
  }

  function Remove(r: Ring): (p: (Ring, int))
    requires Valid(r) && !r.empty
    ensures Valid(p.0) && |p.0.buffer| == |r.buffer| && [p.1] + Contents(p.0) == Contents(r)
  {
    var head := Wrap(r.head, |r.buffer|);
    (Ring(r.buffer, head, r.tail, false, head == r.tail), r.buffer[r.head])
  }

  /** The queue the threads share, updated in place. */
  class Queue {
    const buffer: array<int>
    var head: int
    var tail: int
    var full: bool
    var empty: bool

    ghost function Snapshot(): Ring
      reads this, buffer
    {
      Ring(buffer[..], head, tail, full, empty)
    }

    constructor (size: nat)
      requires size >= 1
      ensures Valid(Snapshot()) && Contents(Snapshot()) == [] && buffer.Length == size
      ensures fresh(buffer)
    {
      buffer := new int[size];
      head, tail, full, empty := 0, 0, false, true;
    }

    method AddToQueue(item: int)
      requires Valid(Snapshot()) && !full
      modifies this, buffer
      ensures Snapshot() == Add(old(Snapshot()), item)
      ensures Valid(Snapshot()) && Contents(Snapshot()) == old(Contents(Snapshot())) + [item]
    {
      buffer[tail] := item;
      tail := tail + 1;
      if tail == buffer.Length {
        tail := 0;
      }
      if tail == head {
        full := true;
      }
      empty := false;
    }

    method RemoveFromQueue() returns (item: int)
      requires Valid(Snapshot()) && !empty
      modifies this
      ensures (Snapshot(), item) == Remove(old(Snapshot()))
      ensures Valid(Snapshot()) && [item] + Contents(Snapshot()) == old(Contents(Snapshot()))
    {
      item := buffer[head];
      head := head + 1;
      if head == buffer.Length {
        head := 0;
      }
      if head == tail {
        empty := true;
      }
      full := false;
    }
  }
}
