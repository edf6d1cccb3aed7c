/**
 The work list: a singly linked list with head, tail and a length. remove_item moves head and the
 length only, so tail goes stale when the list empties, and the worker frees the removed node.

 Freed nodes are tracked in a ghost set, and a node is read or written only through Next and
 SetNext, which demand that it has not been freed.
 */
module WorkQueue {

  class Item {
    const id: int
    const work: int
    var next: Item?

    constructor (id: int, work: int)
      ensures this.id == id && this.work == work && next == null
    {
      this.id, this.work, next := id, work, null;
    }
  }

  method Next(n: Item, ghost freed: set<Item>) returns (r: Item?)
    requires n !in freed
    ensures r == n.next
  {
    r := n.next;
  }

  method SetNext(n: Item, v: Item?, ghost freed: set<Item>)
    requires n !in freed
    modifies n
    ensures n.next == v
  {
    n.next := v;
  }

  function Ids(items: seq<Item>): (ids: seq<int>)
    ensures |ids| == |items| && forall k :: 0 <= k < |ids| ==> ids[k] == items[k].id
  {
    if items == [] then [] else [items[0].id] + Ids(items[1..])
  }

  class Queue {
    var head: Item?
    var tail: Item?
    var numItems: int
    ghost var nodes: seq<Item>   // the list, first to last
    ghost var freed: set<Item>   // nodes given back with free()

    ghost predicate Valid()
      reads this, nodes
    {
      && (forall i, j :: 0 <= i < j < |nodes| ==> nodes[i] != nodes[j])
      && (forall i :: 0 <= i < |nodes| ==> nodes[i] !in freed)
      && (forall i {:trigger nodes[i].next} :: 0 <= i < |nodes| - 1 ==> nodes[i].next == nodes[i + 1])
      && (if nodes == [] then head == null
          else head == nodes[0] && tail == nodes[|nodes| - 1] && tail.next == null)
      && numItems == |nodes|
    }

    constructor ()
      ensures Valid() && nodes == [] && freed == {}
    {
      head, tail, numItems := null, null, 0;
      nodes, freed := [], {};
    }

    method RemoveItem() returns (item: Item?)
      requires Valid()
      modifies this
      ensures Valid() && freed == old(freed)
      ensures if old(nodes) == [] then item == null && nodes == []
              else item == old(nodes)[0] && nodes == old(nodes)[1..]
    {
      if head != null {
        item := head;
        head := Next(head, freed);
        numItems := numItems - 1;
        nodes := nodes[1..];
        return;
      }
      item := null;
    }

    method AddItem(item: Item)
      requires Valid() && item !in nodes && item !in freed && item.next == null
      modifies this, nodes
      ensures Valid() && freed == old(freed) && nodes == old(nodes) + [item]
    {
      if head == null {
        head := item;
        tail := item;
      } else {
        SetNext(tail, item, freed);
        tail := Next(tail, freed);
      }
      numItems := numItems + 1;
      nodes := nodes + [item];
    }

    /** free(): the caller must have taken the node off the list, and frees it once. */
    ghost method Free(item: Item)
      requires Valid() && item !in nodes && item !in freed
      modifies this`freed
      ensures Valid() && freed == old(freed) + {item}
    {
      freed := freed + {item};
    }
  }

  lemma ListLength(q: Queue)
    requires q.Valid()
    ensures q.numItems == |q.nodes|
  {
  }

  datatype Op = Add(id: int) | Remove

  /** What a first-in first-out list holding q holds after ops. */
  function FifoLeft(ops: seq<Op>, q: seq<int>): seq<int> {
    if ops == [] then q
    else match ops[0]
      case Add(id) => FifoLeft(ops[1..], q + [id])
      case Remove => FifoLeft(ops[1..], if q == [] then [] else q[1..])
  }

  /** What it hands out during ops. */
  function FifoOut(ops: seq<Op>, q: seq<int>): seq<int> {
    if ops == [] then []
    else match ops[0]
      case Add(id) => FifoOut(ops[1..], q + [id])
      case Remove => if q == [] then FifoOut(ops[1..], []) else [q[0]] + FifoOut(ops[1..], q[1..])
  }

  function Added(ops: seq<Op>): seq<int> {
    if ops == [] then []
    else match ops[0]
      case Add(id) => [id] + Added(ops[1..])
      case Remove => Added(ops[1..])
  }

  /** Nothing is lost, invented or reordered: what came out, then what is left, is what went in. */
  lemma {:induction false} FirstInFirstOut(ops: seq<Op>, q: seq<int>)
    ensures q + Added(ops) == FifoOut(ops, q) + FifoLeft(ops, q)
  {
    if ops != [] {
      match ops[0]
      case Add(id) =>
        FirstInFirstOut(ops[1..], q + [id]);
        assert q + Added(ops) == (q + [id]) + Added(ops[1..]);
      case Remove =>
        if q == [] {
          FirstInFirstOut(ops[1..], []);
        } else {
          FirstInFirstOut(ops[1..], q[1..]);
          assert q + Added(ops) == [q[0]] + (q[1..] + Added(ops[1..]));
        }
    }
  }

  /** One operation on the list; a removed node is freed once its id has been read. */
  method Apply(q: Queue, op: Op) returns (out: seq<int>)
    requires q.Valid()
    modifies q, q.nodes
    ensures q.Valid() && fresh(set n | n in q.nodes && n !in old(q.nodes))
    ensures FifoLeft([op], old(Ids(q.nodes))) == Ids(q.nodes) && FifoOut([op], old(Ids(q.nodes))) == out
  {
    out := [];
    ghost var before := q.nodes;
    match op {
      case Add(id) =>
        var item := new Item(id, 0);
        q.AddItem(item);
        assert Ids(q.nodes) == Ids(before) + [id];
      case Remove =>
        var item := q.RemoveItem();
        if item != null {
          out := [item.id];
          q.Free(item);
          assert Ids(q.nodes) == Ids(before)[1..];
        }
    }
  }

  /** Any interleaving of additions and removals, freeing each node that is removed. */
  method Run(q: Queue, ops: seq<Op>) returns (out: seq<int>)
    requires q.Valid()
    modifies q, q.nodes
    ensures q.Valid() && Ids(q.nodes) == FifoLeft(ops, old(Ids(q.nodes)))
    ensures out == FifoOut(ops, old(Ids(q.nodes)))
    ensures old(Ids(q.nodes)) + Added(ops) == out + Ids(q.nodes)
    decreases |ops|
  {
    out := [];
    if ops != [] {
      FifoStep(ops, Ids(q.nodes));
      out := Apply(q, ops[0]);
      var more := Run(q, ops[1..]);
      out := out + more;
    }
    FirstInFirstOut(ops, old(Ids(q.nodes)));
  }

  lemma FifoStep(ops: seq<Op>, q: seq<int>)
    requires ops != []
    ensures FifoLeft(ops, q) == FifoLeft(ops[1..], FifoLeft([ops[0]], q))
    ensures FifoOut(ops, q) == FifoOut([ops[0]], q) + FifoOut(ops[1..], FifoLeft([ops[0]], q))
  {
    assert [ops[0]][1..] == [];
  }
}
