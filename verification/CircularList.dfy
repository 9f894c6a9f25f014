/**
  The intrusive, doubly linked, circular list behind the clearing driver's seq_file: `list_add_tail`, the
  empty-bodied `list_for_each_entry` loops that only position a pointer, and the start/next iterator.
 */
module CircularList {

  /** A list link with the node around it. The head is a bare link: its texts belong to no node. */
  class Link {
    var next: Link?
    var prev: Link?
    var info: string
    var info1: string

    constructor ()
      ensures next == this && prev == this && info == "" && info1 == ""
    {
      next, prev := this, this;
      info, info1 := "", "";
    }
  }

  /** Links `ring[0]`, `ring[1]`, ... point to each other in a circle. */
  ghost predicate Circular(ring: seq<Link>)
    reads ring`next, ring`prev
  {
    && ring != []
    && (forall i, j :: 0 <= i < j < |ring| ==> ring[i] != ring[j])
    && (forall i {:trigger ring[i].next} :: 0 <= i < |ring| ==> ring[i].next == ring[After(|ring|, i)])
    && (forall i {:trigger ring[i].prev} :: 0 <= i < |ring| ==> ring[i].prev == ring[Before(|ring|, i)])
  }

  function After(n: nat, i: nat): (j: nat)
    requires i < n
    ensures j < n
  {
    if i + 1 < n then i + 1 else 0
  }

  function Before(n: nat, i: nat): (j: nat)
    requires i < n
    ensures j < n
  {
    if i == 0 then n - 1 else i - 1
  }

  class List {
    const head: Link
    ghost var nodes: seq<Link>

    ghost function Ring(): seq<Link>
      reads this
    {
      [head] + nodes
    }

    ghost predicate Valid()
      reads this, Ring()`next, Ring()`prev
    {
      Circular(Ring())
    }

    /** `LIST_HEAD`. */
    constructor ()
      ensures Valid() && nodes == [] && fresh(head)
    {
      head := new Link();
      nodes := [];
    }

    /** `list_add_tail`. */
    method AddTail(node: Link)
      requires Valid() && node !in Ring()
      modifies this`nodes, Ring()`next, Ring()`prev, node`next, node`prev
      ensures Valid() && nodes == old(nodes) + [node]
    {
      ghost var ring := Ring();
      ghost var last := |ring| - 1;
      assert ring[0] == head && ring[0].prev == ring[Before(|ring|, 0)];
      var prev := head.prev;
      assert prev == ring[last];
      head.prev := node;
      node.next := head;
      node.prev := prev;
      prev.next := node;
      nodes := nodes + [node];
      ghost var ring' := Ring();
      assert ring' == ring + [node];
      forall i | 0 <= i < |ring'|
        ensures ring'[i].next == ring'[After(|ring'|, i)] && ring'[i].prev == ring'[Before(|ring'|, i)]
      {
        assert i < |ring| ==> ring'[i] == ring[i] && old(ring[i].next) == ring[After(|ring|, i)]
                              && old(ring[i].prev) == ring[Before(|ring|, i)];
      }
    }

    /** `list_for_each_entry(p, start, list);` with its empty body: where it leaves `p`. */
    method Traverse(start: Link) returns (p: Link)
      requires Valid() && start in Ring()
      ensures p == start
    {
      ghost var ring := Ring();
      ghost var s :| 0 <= s < |ring| && ring[s] == start;
      ghost var i := After(|ring|, s);
      p := start.next;
      while p != start
        invariant 0 <= i < |ring| && p == ring[i]
        decreases if i <= s then s - i else s + |ring| - i
      {
        p := p.next;
        i := After(|ring|, i);
      }
    }

    lemma HeadNext()
      requires Valid()
      ensures head.next == if nodes == [] then head else nodes[0]
    {
      var ring := Ring();
      assert ring[0] == head && ring[0].next == ring[After(|ring|, 0)];
    }

    lemma NodeNext(i: nat)
      requires Valid() && i < |nodes|
      ensures nodes[i] != head && nodes[i].next == if i + 1 < |nodes| then nodes[i + 1] else head
    {
      var ring := Ring();
      assert ring[0] == head && ring[i + 1] == nodes[i];
      assert ring[i + 1].next == ring[After(|ring|, i + 1)];
    }

    /** The two traversals of `scull_write`: `p` comes to the head, `q` to the first node. */
    method FirstNode() returns (q: Link)
      requires Valid()
      ensures q == if nodes == [] then head else nodes[0]
    {
      var p := Traverse(head);
      HeadNext();
      q := Traverse(p.next);
    }

    /** `mydrv_seq_start`. On an empty list it answers the head itself, which is not a node. */
    method SeqStart(pos: int) returns (v: Link?)
      requires Valid()
      ensures v == if pos != 0 then null else if nodes == [] then head else nodes[0]
    {
      var p := Traverse(head);
      HeadNext();
      v := if pos == 0 then p.next else null;
    }

    /** `mydrv_seq_next`. */
    method SeqNext(v: Link, ghost i: nat) returns (w: Link?)
      requires Valid() && i < |nodes| && v == nodes[i]
      ensures w == if i + 1 < |nodes| then nodes[i + 1] else null
    {
      NodeNext(i);
      if i + 1 < |nodes| { NodeNext(i + 1); }
      w := if v.next != head then v.next else null;
    }

    /**
      The iteration start, show, next, show, ... until null, with what each show prints. On a non-empty list it
      shows every node exactly once, in list order.
     */
    method Iterate() returns (shown: seq<string>, ghost visited: seq<Link>)
      requires Valid() && nodes != []
      ensures visited == nodes
      ensures |shown| == |nodes|
      ensures forall i :: 0 <= i < |nodes| ==> shown[i] == "info:" + nodes[i].info + nodes[i].info1
    {
      var v := SeqStart(0);
      shown, visited := [], [];
      while v != null
        invariant |visited| <= |nodes| && visited == nodes[..|visited|]
        invariant v == if |visited| < |nodes| then nodes[|visited|] else null
        invariant |shown| == |visited|
        invariant forall i :: 0 <= i < |shown| ==> shown[i] == "info:" + nodes[i].info + nodes[i].info1
        decreases |nodes| - |visited|
      {
        shown := shown + ["info:" + v.info + v.info1];
        visited := visited + [v];
        v := SeqNext(v, |visited| - 1);
      }
    }

    /** Following `next` pointers from the head: `k` hops away. */
    ghost function Hop(start: Link?, k: nat): Link?
      reads this, Ring()`next
    {
      if k == 0 then start
      else
        var p := Hop(start, k - 1);
        if p != null && p in Ring() then p.next else null
    }

    /** The `k`-th hop from the head is the `k`-th node, and one more than there are nodes is the head again. */
    lemma {:induction false} HopsAreNodes(k: nat)
      requires Valid() && k <= |nodes| + 1
      ensures Hop(head, k) == if k == 0 || k == |nodes| + 1 then head else nodes[k - 1]
    {
      if k > 0 {
        HopsAreNodes(k - 1);
        if k == 1 { HeadNext(); } else { NodeNext(k - 2); }
      }
    }
  }
}
