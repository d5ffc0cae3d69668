/**
 utils/list.h: the intrusive circular list under every other list. A ring is a sequence of distinct
 nodes, each linked to the next and the last to the first; a list is a ring that starts at its head.
 */
module DlList {
  import opened Wrappers

  /** struct dl_list, with the entry that embeds it (none for a head). */
  class Node<T> {
    const entry: Option<T>
    var next: Node?<T>
    var prev: Node?<T>

    constructor (e: Option<T>)
      ensures entry == e && next == null && prev == null
    {
      entry, next, prev := e, null, null;
    }
  }

  function Succ(n: nat, i: nat): nat { if i + 1 < n then i + 1 else 0 }

  ghost predicate Linked<T>(a: Node<T>, b: Node<T>)
    reads a, b
  {
    a.next == b && b.prev == a
  }

  ghost predicate Ring<T>(r: seq<Node<T>>)
    reads r
  {
    && |r| > 0 && Distinct(r)
    && forall i | 0 <= i < |r| :: Linked(r[i], r[Succ(|r|, i)])
  }

  function Nodes<T>(head: Node<T>, items: seq<Node<T>>): set<Node<T>> { {head} + set x | x in items }

  ghost predicate List<T>(head: Node<T>, items: seq<Node<T>>)
    reads Nodes(head, items)
  {
    Ring([head] + items)
  }

  /** The neighbours of a node of a ring are nodes of the ring. */
  lemma Neighbours<T>(r: seq<Node<T>>, k: nat)
    requires Ring(r) && k < |r|
    ensures r[k].next == r[Succ(|r|, k)] && r[k].prev == r[if k > 0 then k - 1 else |r| - 1]
  {
    var p := if k > 0 then k - 1 else |r| - 1;
    assert Succ(|r|, p) == k;
    assert Linked(r[p], r[Succ(|r|, p)]);
    assert Linked(r[k], r[Succ(|r|, k)]);
  }

  function Insert<T>(r: seq<T>, k: nat, x: T): (s: seq<T>)
    requires k < |r|
    ensures |s| == |r| + 1
  {
    r[..k + 1] + [x] + r[k + 1..]
  }

  function Without<T>(r: seq<T>, k: nat): (s: seq<T>)
    requires k < |r|
    ensures |s| == |r| - 1
  {
    r[..k] + r[k + 1..]
  }

  /** dl_list_init */
  method Init<T>(list: Node<T>)
    modifies list
    ensures Ring([list])
  {
    list.next := list;
    list.prev := list;
    assert [list][0] == list;
  }

  /** dl_list_add, after any node of a ring. */
  method Add<T>(list: Node<T>, item: Node<T>, ghost r: seq<Node<T>>, ghost k: nat)
    requires Ring(r) && k < |r| && r[k] == list && item !in r
    modifies {list, list.next, item}
    ensures Ring(Insert(r, k, item))
  {
    Neighbours(r, k);
    item.next := list.next;
    item.prev := list;
    list.next.prev := item;
    list.next := item;
    ghost var s := Insert(r, k, item);
    forall i | 0 <= i < |s|
      ensures Linked(s[i], s[Succ(|s|, i)])
    {
      if i < k {
        assert old(Linked(r[i], r[Succ(|r|, i)]));
      } else if i > k + 1 {
        assert old(Linked(r[i - 1], r[Succ(|r|, i - 1)]));
      }
    }
  }

  /** dl_list_del, of any node of a ring. */
  method Del<T>(item: Node<T>, ghost r: seq<Node<T>>, ghost k: nat)
    requires Ring(r) && k < |r| && r[k] == item
    modifies item, item.next, item.prev
    ensures item.next == null && item.prev == null
    ensures |r| > 1 ==> Ring(Without(r, k))
  {
    Neighbours(r, k);
    item.next.prev := item.prev;
    item.prev.next := item.next;
    item.next := null;
    item.prev := null;
    if |r| > 1 {
      ghost var s := Without(r, k);
      forall i | 0 <= i < |s|
        ensures Linked(s[i], s[Succ(|s|, i)])
      {
        ghost var j := if i < k then i else i + 1;
        assert old(Linked(r[j], r[Succ(|r|, j)]));
      }
    }
  }

  // ---- whole lists

  /** dl_list_add: at the front. */
  method AddFront<T>(head: Node<T>, item: Node<T>, ghost items: seq<Node<T>>)
    requires List(head, items) && item != head && item !in items
    modifies head, head.next, item
    ensures List(head, [item] + items)
  {
    ghost var r := [head] + items;
    Add(head, item, r, 0);
    assert Insert(r, 0, item) == [head] + ([item] + items);
  }

  /** dl_list_add_tail */
  method AddTail<T>(head: Node<T>, item: Node<T>, ghost items: seq<Node<T>>)
    requires List(head, items) && item != head && item !in items
    modifies head, head.prev, item
    ensures List(head, items + [item])
  {
    ghost var r := [head] + items;
    Neighbours(r, 0);
    Neighbours(r, |r| - 1);
    Add(head.prev, item, r, |items|);
    assert Insert(r, |items|, item) == [head] + (items + [item]);
  }

  method Remove<T>(head: Node<T>, item: Node<T>, ghost items: seq<Node<T>>, ghost k: nat)
    requires List(head, items) && k < |items| && items[k] == item
    modifies item, item.next, item.prev
    ensures List(head, Without(items, k)) && item.next == null && item.prev == null
  {
    ghost var r := [head] + items;
    Del(item, r, k + 1);
    assert Without(r, k + 1) == [head] + Without(items, k);
  }

  /** dl_list_empty */
  method Empty<T>(head: Node<T>, ghost items: seq<Node<T>>) returns (b: bool)
    requires List(head, items)
    ensures b <==> items == []
  {
    Neighbours([head] + items, 0);
    b := head.next == head;
  }

  /** dl_list_len */
  method Len<T>(head: Node<T>, ghost items: seq<Node<T>>) returns (count: nat)
    requires List(head, items)
    ensures count == |items|
  {
    ghost var r := [head] + items;
    Neighbours(r, 0);
    var item := head.next;
    count := 0;
    while item != head
      invariant count <= |items| && item == r[Succ(|r|, count)]
      decreases |items| - count
    {
      Neighbours(r, count + 1);
      item := item.next;
      count := count + 1;
    }
  }

  function Kept<T>(items: seq<T>, doomed: T -> bool): seq<T> {
    if items == [] then [] else (if doomed(items[0]) then [] else [items[0]]) + Kept(items[1..], doomed)
  }

  lemma {:induction false} KeptExtends<T>(a: seq<T>, x: T, doomed: T -> bool)
    ensures Kept(a + [x], doomed) == Kept(a, doomed) + (if doomed(x) then [] else [x])
  {
    if a == [] {
      assert Kept([] + [x], doomed) == (if doomed(x) then [] else [x]) + Kept([], doomed) by {
        assert ([] + [x])[1..] == [];
      }
    } else {
      KeptExtends(a[1..], x, doomed);
      assert (a + [x])[1..] == a[1..] + [x];
    }
  }

  function At<T>(head: Node<T>, items: seq<Node<T>>, k: nat): Node<T> { if k < |items| then items[k] else head }

  /** Where a list stands between what was kept and what is still to visit. */
  lemma StepAt<T>(head: Node<T>, kept: seq<Node<T>>, rest: seq<Node<T>>)
    requires List(head, kept + rest)
    ensures (At(head, rest, 0) == head) == (rest == [])
    ensures (if kept == [] then head else kept[|kept| - 1]).next == At(head, rest, 0)
    ensures rest != [] ==> && rest[0].next == At(head, rest, 1)
                           && rest[0].prev == if kept == [] then head else kept[|kept| - 1]
    ensures head.next != null
  {
    var r := [head] + (kept + rest);
    Neighbours(r, 0);
    Neighbours(r, |kept|);
    if rest != [] {
      assert r[|kept| + 1] == rest[0] && r[0] == head;
      Neighbours(r, |kept| + 1);
    }
  }

  /** One turn of a safe iteration. */
  method Visit<T>(head: Node<T>, item: Node<T>, del: bool, ghost kept: seq<Node<T>>, ghost rest: seq<Node<T>>)
    requires List(head, kept + rest) && rest != [] && rest[0] == item
    modifies item, item.next, item.prev
    ensures List(head, (if del then kept else kept + [item]) + rest[1..])
  {
    StepAt(head, kept, rest);
    if del {
      assert Without(kept + rest, |kept|) == kept + rest[1..];
      Remove(head, item, kept + rest, |kept|);
    } else {
      assert kept + [item] + rest[1..] == kept + rest;
    }
  }

  /** dl_list_for_each_safe with a body that may delete the current node: every node is visited once,
      in order, and the others stay linked in order. */
  method Sweep<T>(head: Node<T>, doomed: Node<T> -> bool, ghost items: seq<Node<T>>) returns (visited: seq<Node<T>>)
    requires List(head, items)
    modifies {head}, items
    ensures visited == items
    ensures List(head, Kept(items, doomed))
  {
    assert Kept<Node<T>>([], doomed) == [];
    hide List, Kept;
    assert [] + items == items;
    StepAt(head, [], items);
    ghost var kept: seq<Node<T>>, rest := [], items;
    var item := head.next;
    var n := item.next;
    visited := [];
    while item != head
      invariant visited + rest == items && kept == Kept(visited, doomed)
      invariant forall x | x in kept :: x in items
      invariant forall x | x in rest :: x in items
      invariant List(head, kept + rest)
      invariant item == At(head, rest, 0) && (item == head <==> rest == [])
      invariant rest != [] ==> n == At(head, rest, 1)
      decreases |rest|
    {
      StepAt(head, kept, rest);
      KeptExtends<Node<T>>(visited, item, doomed);
      assert item in items;
      assert item.next == head || item.next in items;
      assert item.prev == head || item.prev in items;
      Visit(head, item, doomed(item), kept, rest);
      visited := visited + [item];
      kept := if doomed(item) then kept else kept + [item];
      rest := rest[1..];
      item := n;
      StepAt(head, kept, rest);
      n := n.next;
    }
    assert kept + rest == kept;
  }
}
