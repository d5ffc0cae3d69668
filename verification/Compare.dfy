/**
 How deep an update cuts (pv_state_compare_states, state.c): the smallest runlevel touched by the
 difference between two states, and which running platforms the difference marks as updated.
 */
module Compare {
  import opened States

  // ---------------------------------------------------------------- the difference between two lists

  predicate Changed(it: Item, cur: seq<Item>) {
    var c := ItemNamed(cur, it.name); c == null || c.payload != it.payload
  }

  predicate Gone(it: Item, pend: seq<Item>) { ItemNamed(pend, it.name) == null }

  /** An item without platform changed, appeared or vanished. */
  ghost predicate BaseTouched(pend: seq<Item>, cur: seq<Item>) {
    NewBase(pend, cur) || GoneBase(cur, pend)
  }

  ghost predicate NewBase(pend: seq<Item>, cur: seq<Item>) {
    exists it :: it in pend && Changed(it, cur) && it.plat == null
  }

  ghost predicate GoneBase(cur: seq<Item>, pend: seq<Item>) {
    exists it :: it in cur && Gone(it, pend) && it.plat == null
  }

  /** Runlevels of the platforms of changed, new and deleted items. */
  ghost function ChangedLevels(pend: seq<Item>, cur: seq<Item>): set<int> {
    set it | it in pend && Changed(it, cur) && it.plat != null :: it.plat.runlevel
  }

  ghost function GoneLevels(cur: seq<Item>, pend: seq<Item>): set<int> {
    set it | it in cur && Gone(it, pend) && it.plat != null :: it.plat.runlevel
  }

  /** Running platforms that own the old version of a changed item, or a deleted item. */
  ghost function ChangedOwners(pend: seq<Item>, cur: seq<Item>): set<Platform> {
    set it | it in pend && Changed(it, cur) && it.plat != null && ItemNamed(cur, it.name) != null
             && ItemNamed(cur, it.name).plat != null :: ItemNamed(cur, it.name).plat
  }

  ghost function GoneOwners(cur: seq<Item>, pend: seq<Item>): set<Platform> {
    set it | it in cur && Gone(it, pend) && it.plat != null :: it.plat
  }

  ghost function ItemLevels(pend: seq<Item>, cur: seq<Item>): set<int> {
    ChangedLevels(pend, cur) + GoneLevels(cur, pend)
  }

  ghost function ItemOwners(pend: seq<Item>, cur: seq<Item>): set<Platform> {
    ChangedOwners(pend, cur) + GoneOwners(cur, pend)
  }

  ghost predicate LevelMoved(pend: seq<Platform>, cur: seq<Platform>) {
    exists p :: p in cur && PlatformNamed(pend, p.name) != null && PlatformNamed(pend, p.name).runlevel != p.runlevel
  }

  ghost function Deleted(pend: seq<Platform>, cur: seq<Platform>): set<Platform> {
    set p | p in cur && PlatformNamed(pend, p.name) == null
  }

  ghost function DeletedLevels(pend: seq<Platform>, cur: seq<Platform>): set<int> {
    set p | p in Deleted(pend, cur) :: p.runlevel
  }

  // ---------------------------------------------------------------- the difference between two states

  ghost predicate Rebuilds(pend: State, cur: State)
    reads pend, cur
  {
    || LevelMoved(pend.platforms, cur.platforms)
    || BaseTouched(pend.objects, cur.objects)
    || BaseTouched(pend.jsons, cur.jsons)
  }

  ghost function Levels(pend: State, cur: State): set<int>
    reads pend, cur
  {
    DeletedLevels(pend.platforms, cur.platforms)
    + ItemLevels(pend.objects, cur.objects) + ItemLevels(pend.jsons, cur.jsons)
  }

  ghost function Flagged(pend: State, cur: State): set<Platform>
    reads pend, cur
  {
    Deleted(pend.platforms, cur.platforms)
    + ItemOwners(pend.objects, cur.objects) + ItemOwners(pend.jsons, cur.jsons)
  }

  /** r is the least of m and the members of s. */
  ghost predicate IsLeast(r: int, m: int, s: set<int>) {
    r <= m && (forall x | x in s :: r <= x) && (r == m || r in s)
  }

  /** An item that changes and is linked in the pending state is linked in the current one, or the code
      would follow a null platform. */
  predicate SafeChange(it: Item, cur: seq<Item>) {
    var c := ItemNamed(cur, it.name);
    it.plat != null && c != null && c.payload != it.payload ==> c.plat != null
  }

  ghost predicate SafeChanges(pend: seq<Item>, cur: seq<Item>) { forall it | it in pend :: SafeChange(it, cur) }

  /** The loop over the pending items returns before it comes to an item that is not safe. */
  ghost predicate SafeUntilBase(pend: seq<Item>, cur: seq<Item>) {
    forall k | 0 <= k < |pend| && !SafeChange(pend[k], cur) :: NewBase(pend[..k], cur)
  }

  /** The comparison never follows a null platform: every loop that could is safe or not reached. */
  ghost predicate Comparable(pend: State, cur: State)
    reads pend, cur
  {
    || LevelMoved(pend.platforms, cur.platforms)
    || (SafeUntilBase(pend.objects, cur.objects)
        && (BaseTouched(pend.objects, cur.objects) || SafeUntilBase(pend.jsons, cur.jsons)))
  }

  /** Where the comparison does not end in a rebuild, that means that every change is safe. */
  lemma ComparableIsSafe(pend: State, cur: State)
    requires !Rebuilds(pend, cur)
    ensures Comparable(pend, cur) <==> SafeChanges(pend.objects, cur.objects) && SafeChanges(pend.jsons, cur.jsons)
  {
    SafeWithoutBase(pend.objects, cur.objects);
    SafeWithoutBase(pend.jsons, cur.jsons);
    hide LevelMoved, SafeUntilBase, SafeChanges;
  }

  lemma SafeIsComparable(pend: State, cur: State)
    requires SafeChanges(pend.objects, cur.objects) && SafeChanges(pend.jsons, cur.jsons)
    ensures Comparable(pend, cur)
  {
    assert SafeUntilBase(pend.objects, cur.objects) && SafeUntilBase(pend.jsons, cur.jsons);
  }

  lemma SafeWithoutBase(pend: seq<Item>, cur: seq<Item>)
    requires !BaseTouched(pend, cur)
    ensures SafeUntilBase(pend, cur) <==> SafeChanges(pend, cur)
  {
    hide Changed, SafeChange;
    forall k | 0 <= k <= |pend|
      ensures !NewBase(pend[..k], cur)
    {
      assert forall it | it in pend[..k] :: it in pend;
    }
    hide NewBase;
    if SafeUntilBase(pend, cur) {
      forall it | it in pend
        ensures SafeChange(it, cur)
      {
        var k :| 0 <= k < |pend| && pend[k] == it;
      }
    }
  }

  /** Safety is a matter of names: an item that changes under a platform of the pending state must have been under
      a platform of the current one. */
  lemma SafeExactly(pend: seq<Item>, cur: seq<Item>, pendPs: seq<Platform>, curPs: seq<Platform>)
    requires LinkedItems(pend, pendPs) && LinkedItems(cur, curPs) && UniqueItems(cur)
    ensures SafeChanges(pend, cur) <==>
      forall it, c | it in pend && c in cur && it.name == c.name && it.payload != c.payload && Owner(it.name) in Names(pendPs) ::
        Owner(it.name) in Names(curPs)
  {
    hide Owner, ItemNamed, Names;
    forall it | it in pend
      ensures SafeChange(it, cur) <==>
        forall c | c in cur && it.name == c.name && it.payload != c.payload && Owner(it.name) in Names(pendPs) ::
          Owner(it.name) in Names(curPs)
    {
      SafeItem(it, cur, pendPs, curPs);
    }
    hide SafeChange;
  }

  lemma SafeItem(it: Item, cur: seq<Item>, pendPs: seq<Platform>, curPs: seq<Platform>)
    requires LinkedItems(cur, curPs) && UniqueItems(cur)
    requires if it.plat == null then Owner(it.name) !in Names(pendPs) else it.plat in pendPs && it.plat.name == Owner(it.name)
    ensures SafeChange(it, cur) <==>
      forall c | c in cur && it.name == c.name && it.payload != c.payload && Owner(it.name) in Names(pendPs) ::
        Owner(it.name) in Names(curPs)
  {
    hide Owner;
    var t := ItemNamed(cur, it.name);
    assert forall c | c in cur && c.name == it.name :: c == t;
    hide ItemNamed;
  }

  /** The platforms marked as updated. */
  ghost function Marks(ps: seq<Platform>): set<Platform>
    reads ps
  {
    set p | p in ps && p.updated
  }

  /** One platform touched by the difference: mark it (if it is a running one) and lower the runlevel. */
  method Touch(mark: Platform?, level: int, r: int, ps: seq<Platform>) returns (r': int)
    requires mark != null ==> mark in ps
    modifies ps`updated
    ensures r' == if level < r then level else r
    ensures Marks(ps) == if mark == null then old(Marks(ps)) else old(Marks(ps)) + {mark}
  {
    if mark != null {
      mark.updated := true;
    }
    r' := if level < r then level else r;
  }

  lemma OneMore(a: set<Platform>, b: set<Platform>, p: Platform)
    ensures a + b + {p} == a + (b + {p})
  {
  }

  lemma LeastMore(r: int, m: int, s: set<int>, x: int)
    requires IsLeast(r, m, s)
    ensures IsLeast(if x < r then x else r, m, s + {x})
  {
  }

  lemma ExtendDeleted(pend: seq<Platform>, cur: seq<Platform>, i: nat)
    requires i < |cur|
    ensures var p := cur[i]; var d, l := Deleted(pend, cur[..i]), DeletedLevels(pend, cur[..i]);
      if PlatformNamed(pend, p.name) == null then
        Deleted(pend, cur[..i + 1]) == d + {p} && DeletedLevels(pend, cur[..i + 1]) == l + {p.runlevel}
      else
        Deleted(pend, cur[..i + 1]) == d && DeletedLevels(pend, cur[..i + 1]) == l
  {
    hide PlatformNamed;
    assert cur[..i + 1] == cur[..i] + [cur[i]];
  }

  lemma ExtendMoved(pend: seq<Platform>, cur: seq<Platform>, i: nat)
    requires i < |cur|
    ensures var q := PlatformNamed(pend, cur[i].name); var moved := q != null && q.runlevel != cur[i].runlevel;
      && (LevelMoved(pend, cur[..i + 1]) <==> LevelMoved(pend, cur[..i]) || moved)
      && (moved ==> LevelMoved(pend, cur))
  {
    hide PlatformNamed;
    assert cur[..i + 1] == cur[..i] + [cur[i]];
    assert cur[i] in cur && cur[i] in cur[..i + 1];
    assert forall p | p in cur[..i] :: p in cur[..i + 1];
  }

  lemma ExtendBase(items: seq<Item>, i: nat, other: seq<Item>)
    requires i < |items|
    ensures var it := items[i];
      && (NewBase(items[..i + 1], other) <==> NewBase(items[..i], other) || (Changed(it, other) && it.plat == null))
      && (GoneBase(items[..i + 1], other) <==> GoneBase(items[..i], other) || (Gone(it, other) && it.plat == null))
      && (Changed(it, other) && it.plat == null ==> NewBase(items, other))
      && (Gone(it, other) && it.plat == null ==> GoneBase(items, other))
  {
    assert items[..i + 1] == items[..i] + [items[i]];
    assert items[i] in items && items[i] in items[..i + 1];
    assert forall it | it in items[..i] :: it in items[..i + 1];
  }

  lemma ExtendChanged(pend: seq<Item>, i: nat, cur: seq<Item>)
    requires i < |pend|
    ensures var it := pend[i]; var c := ItemNamed(cur, it.name);
      var l, w := ChangedLevels(pend[..i], cur), ChangedOwners(pend[..i], cur);
      if Changed(it, cur) && it.plat != null then
        && ChangedLevels(pend[..i + 1], cur) == l + {it.plat.runlevel}
        && ChangedOwners(pend[..i + 1], cur) == (if c != null && c.plat != null then w + {c.plat} else w)
      else
        ChangedLevels(pend[..i + 1], cur) == l && ChangedOwners(pend[..i + 1], cur) == w
  {
    assert pend[..i + 1] == pend[..i] + [pend[i]];
  }

  lemma ExtendGone(cur: seq<Item>, i: nat, pend: seq<Item>)
    requires i < |cur|
    ensures var it := cur[i]; var l, w := GoneLevels(cur[..i], pend), GoneOwners(cur[..i], pend);
      if Gone(it, pend) && it.plat != null then
        GoneLevels(cur[..i + 1], pend) == l + {it.plat.runlevel} && GoneOwners(cur[..i + 1], pend) == w + {it.plat}
      else
        GoneLevels(cur[..i + 1], pend) == l && GoneOwners(cur[..i + 1], pend) == w
  {
    assert cur[..i + 1] == cur[..i] + [cur[i]];
  }

  // ---------------------------------------------------------------- the loops

  /** The loop over changed and new items; `zero` is the early return. */
  method CompareChanged(pend: seq<Item>, cur: seq<Item>, level: int, ps: seq<Platform>)
    returns (zero: bool, r: int)
    requires SafeUntilBase(pend, cur) && ClosedItems(cur, ps)
    modifies ps`updated
    ensures zero <==> NewBase(pend, cur)
    ensures !zero ==> IsLeast(r, level, ChangedLevels(pend, cur)) && Marks(ps) == old(Marks(ps)) + ChangedOwners(pend, cur)
  {
    hide ItemNamed;
    r := level;
    for i := 0 to |pend|
      invariant !NewBase(pend[..i], cur)
      invariant IsLeast(r, level, ChangedLevels(pend[..i], cur))
      invariant Marks(ps) == old(Marks(ps)) + ChangedOwners(pend[..i], cur)
    {
      var o := pend[i];
      var c := ItemNamed(cur, o.name);
      ExtendChanged(pend, i, cur);
      ExtendBase(pend, i, cur);
      assert SafeChange(o, cur) && (c != null && c.plat != null ==> c.plat in ps);
      assert Changed(o, cur) <==> c == null || o.payload != c.payload;
      hide ChangedLevels, ChangedOwners, IsLeast, NewBase, Marks, SafeUntilBase, ClosedItems, Changed;
      if c == null || o.payload != c.payload {
        if o.plat == null {
          return true, 0;
        }
        LeastMore(r, level, ChangedLevels(pend[..i], cur), o.plat.runlevel);
        r := Touch(if c == null then null else c.plat, o.plat.runlevel, r, ps);
        if c != null {
          OneMore(old(Marks(ps)), ChangedOwners(pend[..i], cur), c.plat);
        }
      }
    }
    assert pend[..|pend|] == pend;
    zero := false;
  }

  /** The loop over deleted items. */
  method CompareGone(cur: seq<Item>, pend: seq<Item>, level: int, ps: seq<Platform>)
    returns (zero: bool, r: int)
    requires ClosedItems(cur, ps)
    modifies ps`updated
    ensures zero <==> GoneBase(cur, pend)
    ensures !zero ==> IsLeast(r, level, GoneLevels(cur, pend)) && Marks(ps) == old(Marks(ps)) + GoneOwners(cur, pend)
  {
    hide ItemNamed;
    r := level;
    for i := 0 to |cur|
      invariant !GoneBase(cur[..i], pend)
      invariant IsLeast(r, level, GoneLevels(cur[..i], pend))
      invariant Marks(ps) == old(Marks(ps)) + GoneOwners(cur[..i], pend)
    {
      var o := cur[i];
      ExtendGone(cur, i, pend);
      ExtendBase(cur, i, pend);
      hide GoneLevels, GoneOwners, IsLeast, GoneBase, Marks;
      if ItemNamed(pend, o.name) == null {
        if o.plat == null {
          return true, 0;
        }
        LeastMore(r, level, GoneLevels(cur[..i], pend), o.plat.runlevel);
        r := Touch(o.plat, o.plat.runlevel, r, ps);
        OneMore(old(Marks(ps)), GoneOwners(cur[..i], pend), o.plat);
      }
    }
    assert cur[..|cur|] == cur;
    zero := false;
  }

  /** The loop over the running platforms. */
  method ComparePlatforms(pend: seq<Platform>, cur: seq<Platform>, level: int) returns (zero: bool, r: int)
    modifies cur`updated
    ensures zero <==> LevelMoved(pend, cur)
    ensures !zero ==> IsLeast(r, level, DeletedLevels(pend, cur)) && Marks(cur) == old(Marks(cur)) + Deleted(pend, cur)
  {
    hide PlatformNamed;
    r := level;
    for i := 0 to |cur|
      invariant !LevelMoved(pend, cur[..i])
      invariant IsLeast(r, level, DeletedLevels(pend, cur[..i]))
      invariant Marks(cur) == old(Marks(cur)) + Deleted(pend, cur[..i])
    {
      var p := cur[i];
      ExtendDeleted(pend, cur, i);
      ExtendMoved(pend, cur, i);
      hide Deleted, DeletedLevels, IsLeast, Marks, LevelMoved;
      var q := PlatformNamed(pend, p.name);
      if q != null && q.runlevel != p.runlevel {
        return true, 0;
      } else if q == null {
        LeastMore(r, level, DeletedLevels(pend, cur[..i]), p.runlevel);
        r := Touch(p, p.runlevel, r, cur);
        OneMore(old(Marks(cur)), Deleted(pend, cur[..i]), p);
      }
    }
    assert cur[..|cur|] == cur;
    zero := false;
  }

  lemma LeastUnion(r: int, k: int, m: int, s: set<int>, t: set<int>)
    requires IsLeast(k, m, s) && IsLeast(r, k, t)
    ensures IsLeast(r, m, s + t)
  {
  }

  /** Both loops over one kind of item. */
  method CompareItems(pend: seq<Item>, cur: seq<Item>, level: int, ps: seq<Platform>) returns (zero: bool, r: int)
    requires SafeUntilBase(pend, cur) && ClosedItems(cur, ps)
    modifies ps`updated
    ensures zero <==> BaseTouched(pend, cur)
    ensures !zero ==> IsLeast(r, level, ItemLevels(pend, cur)) && Marks(ps) == old(Marks(ps)) + ItemOwners(pend, cur)
  {
    hide Marks, IsLeast, ChangedLevels, ChangedOwners, GoneLevels, GoneOwners, NewBase, GoneBase;
    var k;
    zero, k := CompareChanged(pend, cur, level, ps);
    if zero {
      return true, 0;
    }
    zero, r := CompareGone(cur, pend, k, ps);
    if !zero {
      LeastUnion(r, k, level, ChangedLevels(pend, cur), GoneLevels(cur, pend));
    }
  }

  /** pv_state_compare_states: 0 when the device must be rebuilt from a reboot, else the least runlevel the
      update touches (3 if none), with every touched running platform marked. */
  method CompareStates(pending: State?, current: State?) returns (runlevel: int)
    requires pending != null && current != null ==>
      && Comparable(pending, current)
      && ClosedItems(current.objects, current.platforms) && ClosedItems(current.jsons, current.platforms)
    modifies (if current == null then [] else current.platforms)`updated
    ensures pending == null || current == null || Rebuilds(pending, current) ==> runlevel == 0
    ensures pending != null && current != null && !Rebuilds(pending, current) ==>
      && IsLeast(runlevel, MAX_RUNLEVEL, Levels(pending, current))
      && Marks(current.platforms) == old(Marks(current.platforms)) + Flagged(pending, current)
  {
    if pending == null || current == null {
      return 0;
    }
    hide IsLeast, Marks, ItemLevels, ItemOwners, BaseTouched, Deleted, DeletedLevels, LevelMoved;
    hide SafeUntilBase, ClosedItems;
    var ps := current.platforms;
    var zero, r0, r1;
    zero, r0 := ComparePlatforms(pending.platforms, ps, MAX_RUNLEVEL);
    if zero {
      return 0;
    }
    ghost var levels := DeletedLevels(pending.platforms, ps);
    zero, r1 := CompareItems(pending.objects, current.objects, r0, ps);
    if zero {
      return 0;
    }
    LeastUnion(r1, r0, MAX_RUNLEVEL, levels, ItemLevels(pending.objects, current.objects));
    levels := levels + ItemLevels(pending.objects, current.objects);
    zero, runlevel := CompareItems(pending.jsons, current.jsons, r1, ps);
    if zero {
      return 0;
    }
    LeastUnion(runlevel, r1, MAX_RUNLEVEL, levels, ItemLevels(pending.jsons, current.jsons));
  }

  // ---------------------------------------------------------------- what the result means

  /** The runlevel asks for a rebuild from scratch exactly when the base changed, a platform moved, or the
      difference reaches a platform of the lowest runlevel. */
  lemma ZeroExactly(pend: State, cur: State, r: int)
    requires Parsed(pend) && Parsed(cur)
    requires if Rebuilds(pend, cur) then r == 0 else IsLeast(r, MAX_RUNLEVEL, Levels(pend, cur))
    ensures r == 0 <==> Rebuilds(pend, cur) || DATA in Levels(pend, cur)
    ensures DATA <= r <= APP
  {
    AllLevelsInRange(pend, cur);
    hide Parsed, Levels, Rebuilds;
  }

  lemma AllLevelsInRange(pend: State, cur: State)
    requires Parsed(pend) && Parsed(cur)
    ensures forall x | x in Levels(pend, cur) :: DATA <= x <= APP
  {
    LevelsInRange(pend.objects, cur.objects, pend.platforms, cur.platforms);
    LevelsInRange(pend.jsons, cur.jsons, pend.platforms, cur.platforms);
    assert Runlevels(cur.platforms);
    hide ItemLevels, PlatformNamed, Parsed;
    assert forall x | x in DeletedLevels(pend.platforms, cur.platforms) :: DATA <= x <= APP;
  }

  lemma LevelsInRange(pend: seq<Item>, cur: seq<Item>, pendPs: seq<Platform>, curPs: seq<Platform>)
    requires ClosedItems(pend, pendPs) && ClosedItems(cur, curPs) && Runlevels(pendPs) && Runlevels(curPs)
    ensures forall x | x in ItemLevels(pend, cur) :: DATA <= x <= APP
  {
    hide Changed, Gone;
  }

  /** Two lists with the same members give the same lookups when names are unique. */
  lemma SameLookup(a: seq<Item>, b: seq<Item>, name: string)
    requires UniqueItems(a) && forall it :: it in a <==> it in b
    ensures ItemNamed(a, name) == ItemNamed(b, name)
  {
    var x, y := ItemNamed(a, name), ItemNamed(b, name);
    assert x != null ==> x in b;
    assert y != null ==> y in a;
  }

  /** The depth and the marks of an item list depend on its members only, not on their order. */
  lemma ItemOrderIrrelevant(pend: seq<Item>, cur: seq<Item>, pend': seq<Item>, cur': seq<Item>)
    requires UniqueItems(pend) && UniqueItems(cur)
    requires (forall it :: it in pend <==> it in pend') && (forall it :: it in cur <==> it in cur')
    ensures BaseTouched(pend, cur) <==> BaseTouched(pend', cur')
    ensures ItemLevels(pend, cur) == ItemLevels(pend', cur') && ItemOwners(pend, cur) == ItemOwners(pend', cur')
  {
    forall name
      ensures ItemNamed(pend, name) == ItemNamed(pend', name) && ItemNamed(cur, name) == ItemNamed(cur', name)
    {
      SameLookup(pend, pend', name);
      SameLookup(cur, cur', name);
    }
    hide ItemNamed;
  }

  lemma PlatformOrderIrrelevant(pend: seq<Platform>, cur: seq<Platform>, pend': seq<Platform>, cur': seq<Platform>)
    requires UniquePlatforms(pend)
    requires (forall p :: p in pend <==> p in pend') && (forall p :: p in cur <==> p in cur')
    ensures LevelMoved(pend, cur) <==> LevelMoved(pend', cur')
    ensures Deleted(pend, cur) == Deleted(pend', cur') && DeletedLevels(pend, cur) == DeletedLevels(pend', cur')
  {
    assert Names(pend) == Names(pend');
    forall name
      ensures PlatformNamed(pend, name) == PlatformNamed(pend', name)
    {
      var x, y := PlatformNamed(pend, name), PlatformNamed(pend', name);
      assert (x != null ==> x in pend') && (y != null ==> y in pend);
    }
    hide PlatformNamed;
  }

  /** Neither the result nor the marks depend on the order of any list. */
  lemma OrderIrrelevant(pend: State, cur: State, pend': State, cur': State)
    requires Parsed(pend) && Parsed(cur)
    requires forall p :: (p in pend.platforms <==> p in pend'.platforms) && (p in cur.platforms <==> p in cur'.platforms)
    requires forall it :: (it in pend.objects <==> it in pend'.objects) && (it in cur.objects <==> it in cur'.objects)
    requires forall it :: (it in pend.jsons <==> it in pend'.jsons) && (it in cur.jsons <==> it in cur'.jsons)
    ensures Rebuilds(pend, cur) <==> Rebuilds(pend', cur')
    ensures Levels(pend, cur) == Levels(pend', cur') && Flagged(pend, cur) == Flagged(pend', cur')
  {
    PlatformOrderIrrelevant(pend.platforms, cur.platforms, pend'.platforms, cur'.platforms);
    ItemOrderIrrelevant(pend.objects, cur.objects, pend'.objects, cur'.objects);
    ItemOrderIrrelevant(pend.jsons, cur.jsons, pend'.jsons, cur'.jsons);
  }

  /** Comparing a state with itself finds nothing. */
  lemma SelfIsUnchanged(s: State, r: int)
    requires Parsed(s) && IsLeast(r, MAX_RUNLEVEL, Levels(s, s))
    ensures !Rebuilds(s, s) && r == MAX_RUNLEVEL && Flagged(s, s) == {}
  {
    SelfItems(s.objects);
    SelfItems(s.jsons);
    forall p | p in s.platforms
      ensures PlatformNamed(s.platforms, p.name) == p
    {
    }
    hide BaseTouched, ItemLevels, ItemOwners, PlatformNamed;
  }

  lemma SelfItems(items: seq<Item>)
    requires UniqueItems(items)
    ensures !BaseTouched(items, items) && ItemLevels(items, items) == {} && ItemOwners(items, items) == {}
  {
    hide ItemNamed;
    forall it | it in items
      ensures !Changed(it, items) && !Gone(it, items)
    {
    }
    hide Changed, Gone;
  }
}
