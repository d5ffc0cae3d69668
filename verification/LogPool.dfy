/**
 The buffer pool of log.c: two free lists, one of buffers of the configured size and one of buffers twice
 as large. A buffer is the list node embedded in it; one that is out of the pool is a list of its own.
 */
module LogPool {
  import opened Wrappers
  import opened DlList

  const MAX_BUFFER_COUNT := 10

  /** struct log_buffer */
  datatype LogBuffer = LogBuffer(size: int)

  type Buffer = Node<LogBuffer>

  ghost predicate Alone(b: Buffer)
    reads b
  {
    Ring([b])
  }

  predicate Sized(b: Buffer, size: int) { size > 0 && b.entry == Some(LogBuffer(size)) }

  lemma ApartFirst(a: seq<Buffer>, items: seq<Buffer>)
    requires Distinct(a + items) && items != []
    ensures items[0] !in a + items[1..]
  {
    var r := a + items;
    assert r[|a|] == items[0];
    forall i | 0 <= i < |a + items[1..]|
      ensures (a + items[1..])[i] != items[0]
    {
      assert (a + items[1..])[i] == r[if i < |a| then i else i + 1];
    }
  }

  /** __pv_log_get_buffer */
  method TakeFirst(head: Buffer, ghost items: seq<Buffer>) returns (b: Node?<LogBuffer>)
    requires List(head, items)
    modifies Nodes(head, items)
    ensures items == [] ==> b == null && List(head, [])
    ensures items != [] ==> b == items[0] && Alone(items[0]) && List(head, items[1..])
  {
    StepAt(head, [], items) by { assert [] + items == items; }
    var empty := Empty(head, items);
    if empty {
      return null;
    }
    var first := head.next;
    ApartFirst([head], items);
    Remove(head, first, items, 0);
    assert Without(items, 0) == items[1..];
    Init(first);
    b := first;
  }

  method PutFront(head: Buffer, b: Buffer, ghost items: seq<Buffer>)
    requires List(head, items) && b !in Nodes(head, items)
    modifies Nodes(head, items), b
    ensures List(head, [b] + items)
  {
    StepAt(head, [], items) by { assert [] + items == items; }
    assert head.next in Nodes(head, items);
    AddFront(head, b, items);
  }

  lemma {:induction false} NothingKept(items: seq<Buffer>, doomed: Buffer -> bool)
    requires forall x | x in items :: doomed(x)
    ensures Kept(items, doomed) == []
  {
    if items == [] {
    } else {
      NothingKept(items[1..], doomed);
    }
  }

  /** pv_log_alloc_buffer, when memory lasts: nothing for a size that is not positive. */
  method Alloc(size: int) returns (b: Node?<LogBuffer>)
    ensures b == null <==> size <= 0
    ensures b != null ==> fresh(b) && Sized(b, size)
  {
    if size <= 0 {
      return null;
    }
    b := new Node(Some(LogBuffer(size)));
  }

  /** pv_log_init_buf_cache: the old buffers of the list go, and at most ten new ones come. */
  method InitCache(count: int, size: int, head: Buffer, ghost items: seq<Buffer>)
    returns (added: nat, ghost cached: seq<Buffer>)
    requires List(head, items)
    modifies Nodes(head, items)
    ensures List(head, cached) && |cached| == added
    ensures added == if size <= 0 || count <= 0 then 0 else if count < MAX_BUFFER_COUNT then count else MAX_BUFFER_COUNT
    ensures forall b | b in cached :: fresh(b) && Sized(b, size)
  {
    var empty := Empty(head, items);
    if !empty {
      var _ := Sweep(head, _ => true, items);
      NothingKept(items, _ => true);
    }
    added, cached := 0, [];
    assert List(head, cached);
    hide List;
    var left := count;
    while left > 0
      invariant List(head, cached) && |cached| == added <= MAX_BUFFER_COUNT
      invariant size <= 0 ==> added == 0
      invariant size > 0 ==> added == (if count < 0 then 0 else count) - (if left < 0 then 0 else left)
      invariant forall b | b in cached :: fresh(b) && Sized(b, size)
      decreases left
    {
      if added >= MAX_BUFFER_COUNT {
        break;
      }
      var b := Alloc(size);
      if b != null {
        PutFront(head, b, cached);
        cached := [b] + cached;
        added := added + 1;
      }
      left := left - 1;
    }
  }

  /** What does not depend on the links: every buffer is in one place and of the size of its place. */
  ghost predicate Placed(small: Buffer, smalls: seq<Buffer>, large: Buffer, larges: seq<Buffer>, held: set<Buffer>, logsize: int) {
    && small != large && small !in larges && large !in smalls && small !in held && large !in held
    && (forall b | b in smalls :: b !in larges && b !in held && Sized(b, logsize))
    && (forall b | b in larges :: b !in held && Sized(b, 2 * logsize))
    && (forall b | b in held :: Sized(b, logsize) || Sized(b, 2 * logsize))
  }

  lemma Separate(small: Buffer, smalls: seq<Buffer>, large: Buffer, larges: seq<Buffer>, held: set<Buffer>, logsize: int)
    requires Placed(small, smalls, large, larges, held, logsize)
    ensures Nodes(small, smalls) !! Nodes(large, larges)
    ensures held !! Nodes(small, smalls) && held !! Nodes(large, larges)
  {
    hide Sized;
  }

  lemma MoveOut(small: Buffer, smalls: seq<Buffer>, large: Buffer, larges: seq<Buffer>, held: set<Buffer>, logsize: int)
    requires Placed(small, smalls, large, larges, held, logsize)
    requires List(small, smalls) && List(large, larges)
    ensures smalls != [] ==> Placed(small, smalls[1..], large, larges, held + {smalls[0]}, logsize)
    ensures larges != [] ==> Placed(small, smalls, large, larges[1..], held + {larges[0]}, logsize)
  {
    hide Linked;
    if smalls != [] {
      ApartFirst([small], smalls);
      assert smalls[0] in smalls;
    }
    if larges != [] {
      ApartFirst([large], larges);
      assert larges[0] in larges;
    }
  }

  lemma MoveIn(small: Buffer, smalls: seq<Buffer>, large: Buffer, larges: seq<Buffer>, held: set<Buffer>, logsize: int, b: Buffer)
    requires Placed(small, smalls, large, larges, held, logsize) && b in held
    ensures if Sized(b, logsize) then Placed(small, [b] + smalls, large, larges, held - {b}, logsize)
            else Placed(small, smalls, large, [b] + larges, held - {b}, logsize)
  {
  }

  function First(s: seq<Buffer>): Node?<LogBuffer> { if s == [] then null else s[0] }

  function Rest<T>(s: seq<T>): seq<T> { if s == [] then [] else s[1..] }

  lemma RestOf(head: Buffer, items: seq<Buffer>)
    ensures Nodes(head, Rest(items)) <= Nodes(head, items)
    ensures items != [] ==> items[0] in Nodes(head, items) && [items[0]] + Rest(items) == items
  {
  }

  class Pool {
    const logsize: int
    const small: Buffer
    const large: Buffer
    ghost var smalls: seq<Buffer>
    ghost var larges: seq<Buffer>
    ghost var held: set<Buffer>

    ghost predicate Valid()
      reads this, Nodes(small, smalls), Nodes(large, larges), held
    {
      && Placed(small, smalls, large, larges, held, logsize)
      && List(small, smalls) && List(large, larges)
      && forall b | b in held :: Alone(b)
    }

    constructor (logsize: int)
      ensures Valid() && this.logsize == logsize && smalls == [] && larges == [] && held == {}
      ensures fresh(small) && fresh(large)
    {
      this.logsize := logsize;
      small := new Node(None);
      large := new Node(None);
      smalls, larges, held := [], [], {};
      new;
      Init(small);
      Init(large);
    }

    /** The caches of pv_log_init; buffers that are out at that time stay out. */
    method Fill() returns (cache: nat, double: nat)
      requires Valid()
      modifies this, Nodes(small, smalls), Nodes(large, larges)
      ensures Valid() && held == old(held)
      ensures cache == |smalls| && double == |larges|
      ensures cache == double == if logsize > 0 then 10 else 0
      ensures forall b | b in smalls + larges :: fresh(b)
    {
      hide List, Alone;
      Separate(small, smalls, large, larges, held, logsize);
      ghost var ss, ls, h := smalls, larges, held;
      smalls, larges := [], [];
      ghost var newSmalls: seq<Buffer>, newLarges: seq<Buffer>;
      cache, newSmalls := InitCache(MAX_BUFFER_COUNT, logsize, small, ss);
      assert List(large, ls) && forall x | x in h :: Alone(x);
      assert forall x | x in Nodes(large, ls) :: old(allocated(x));
      assert Nodes(small, newSmalls) !! Nodes(large, ls);
      double, newLarges := InitCache(MAX_BUFFER_COUNT, logsize * 2, large, ls);
      assert List(small, newSmalls) && forall x | x in h :: Alone(x);
      assert forall x | x in Nodes(large, newLarges) :: x as object != this;
      smalls, larges := newSmalls, newLarges;
    }

    /** pv_log_get_buffer */
    method Get(big: bool) returns (b: Node?<LogBuffer>)
      requires Valid()
      modifies this, Nodes(small, smalls), Nodes(large, larges)
      ensures Valid()
      ensures b == First(if big then old(larges) else old(smalls))
      ensures smalls == (if big then old(smalls) else Rest(old(smalls)))
      ensures larges == (if big then Rest(old(larges)) else old(larges))
      ensures held == if b == null then old(held) else old(held) + {b}
    {
      hide List, Alone;
      Separate(small, smalls, large, larges, held, logsize);
      MoveOut(small, smalls, large, larges, held, logsize);
      hide Placed;
      ghost var ss, ls := smalls, larges;
      if big {
        held := held + if ls == [] then {} else {ls[0]};
        larges := Rest(ls);
        b := TakeFirst(large, ls);
        assert List(small, ss) && forall x | x in old(held) :: Alone(x);
      } else {
        held := held + if ss == [] then {} else {ss[0]};
        smalls := Rest(ss);
        b := TakeFirst(small, ss);
        assert List(large, ls) && forall x | x in old(held) :: Alone(x);
      }
    }

    /** pv_log_put_buffer: a buffer that is in the pool already stays where it is. */
    method Put(b: Node?<LogBuffer>)
      requires Valid()
      requires b == null || b in held || b in smalls || b in larges
      modifies this, Nodes(small, smalls), Nodes(large, larges), b
      ensures Valid()
      ensures b == null || b !in old(held) ==> smalls == old(smalls) && larges == old(larges) && held == old(held)
      ensures b != null && b in old(held) ==> held == old(held) - {b}
      ensures b != null && b in old(held) ==> smalls == (if Sized(b, logsize) then [b] else []) + old(smalls)
      ensures b != null && b in old(held) ==> larges == (if Sized(b, logsize) then [] else [b]) + old(larges)
    {
      hide List, Alone;
      if b == null {
        return;
      }
      Lonely(b);
      if b.next != b {
        return;
      }
      Separate(small, smalls, large, larges, held, logsize);
      assert Sized(b, logsize) <==> b.entry.value.size == logsize;
      MoveIn(small, smalls, large, larges, held, logsize, b);
      hide Placed, Sized;
      ghost var ss, ls := smalls, larges;
      assert b in held;
      assert b !in Nodes(small, ss) && b !in Nodes(large, ls);
      held := held - {b};
      if b.entry.value.size == logsize {
        smalls := [b] + smalls;
        PutFront(small, b, ss);
        assert List(large, ls) && forall x | x in held :: Alone(x);
      } else {
        larges := [b] + larges;
        PutFront(large, b, ls);
        assert List(small, ss) && forall x | x in held :: Alone(x);
      }
    }

    /** How a caller borrows (ph_logger.c): whichever of the two buffers it got it puts back, and the pool
        is as it was, down to the order of both lists. It can work exactly when both lists have a buffer. */
    method Borrow() returns (both: bool)
      requires Valid()
      modifies this, Nodes(small, smalls), Nodes(large, larges)
      ensures Valid() && smalls == old(smalls) && larges == old(larges) && held == old(held)
      ensures both <==> old(smalls) != [] && old(larges) != []
    {
      hide Valid, Nodes, Sized;
      RestOf(small, smalls);
      RestOf(large, larges);
      OwnSizes();
      var big := Get(true);
      var buf: Node?<LogBuffer> := null;
      if big != null {
        buf := Get(false);
      }
      both := buf != null;
      Put(buf);
      assert smalls == old(smalls) && larges == Rest(old(larges));
      Put(big);
    }

    lemma OwnSizes()
      requires Valid()
      ensures smalls != [] ==> smalls[0] !in held && Sized(smalls[0], logsize)
      ensures larges != [] ==> larges[0] !in held && !Sized(larges[0], logsize)
      ensures smalls != [] && larges != [] ==> smalls[0] != larges[0]
    {
      hide List, Alone;
      if smalls != [] {
        assert smalls[0] in smalls;
      }
      if larges != [] {
        assert larges[0] in larges;
      }
    }

    /** Both classes in bytes. */
    lemma Sizes()
      requires Valid()
      ensures forall b | b in smalls :: b.entry == Some(LogBuffer(logsize))
      ensures forall b | b in larges :: b.entry == Some(LogBuffer(2 * logsize))
    {
      hide List, Alone;
    }

    /** The test of dl_list_empty on a buffer tells whether it is out of the pool. */
    lemma Lonely(b: Buffer)
      requires Valid() && (b in held || b in smalls || b in larges)
      ensures b.next == b <==> b in held
      ensures b.entry.Some?
    {
      if b in smalls {
        var k :| 0 <= k < |smalls| && smalls[k] == b;
        assert ([small] + smalls)[k + 1] == b;
        Neighbours([small] + smalls, k + 1);
      } else if b in larges {
        var k :| 0 <= k < |larges| && larges[k] == b;
        assert ([large] + larges)[k + 1] == b;
        Neighbours([large] + larges, k + 1);
      } else {
        Neighbours([b], 0);
      }
    }
  }
}
