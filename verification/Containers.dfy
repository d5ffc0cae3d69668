/**
 Starting and stopping platforms (platforms.c) and mounting and unmounting their volumes (volumes.c):
 nested loops over runlevels and lists. Kept throughout: a started platform has all its volumes
 mounted.
 */
module Containers {
  import opened Wrappers
  import opened States

  /** A started platform has all its volumes mounted. */
  ghost predicate Served(ps: seq<Platform>, vs: seq<Item>)
    reads ps, vs
  {
    forall v | v in vs && v.plat != null && v.plat in ps && v.plat.status == Started :: v.mounted
  }

  // ---------------------------------------------------------------- orders of visits

  predicate NonIncreasing(order: seq<Platform>) {
    forall i, j | 0 <= i < j < |order| :: order[i].runlevel >= order[j].runlevel
  }

  predicate NonDecreasing(order: seq<Platform>) {
    forall i, j | 0 <= i < j < |order| :: order[i].runlevel <= order[j].runlevel
  }

  /** The runlevel a volume is mounted in: its platform's, or ROOT for firmware and modules. */
  function Level(v: Item): int { if v.plat == null then ROOT else v.plat.runlevel }

  // ---------------------------------------------------------------- stop

  /** The platforms a stop from `runlevel` reaches: for APP, only those the update marked. */
  predicate Stops(p: Platform, runlevel: int)
    reads p`updated
  {
    runlevel <= p.runlevel <= MAX_RUNLEVEL && (runlevel == APP ==> p.updated)
  }

  /** One turn of the outer loop: the platforms of runlevel i. */
  method StopLevel(ps: seq<Platform>, i: int, runlevel: int) returns (ghost order: seq<Platform>)
    requires Distinct(ps) && runlevel <= i <= MAX_RUNLEVEL
    modifies ps`status
    ensures forall p | p in ps ::
      p.status == if p.runlevel == i && Stops(p, runlevel) && old(p.status) == Started then Stopped else old(p.status)
    ensures forall p | p in order :: p in ps && p.runlevel == i
    ensures forall p | p in ps ::
      p in order <==> p.runlevel == i && Stops(p, runlevel) && old(p.status) == Started
    ensures Distinct(order)
  {
    order := [];
    for k := 0 to |ps|
      invariant forall j | 0 <= j < |ps| ::
        ps[j].status == if j < k && ps[j].runlevel == i && Stops(ps[j], runlevel) && old(ps[j].status) == Started then Stopped
                        else old(ps[j].status)
      invariant forall j | 0 <= j < |ps| ::
        ps[j] in order <==> j < k && ps[j].runlevel == i && Stops(ps[j], runlevel) && old(ps[j].status) == Started
      invariant forall p | p in order :: p in ps && p.runlevel == i
      invariant Distinct(order)
    {
      var p := ps[k];
      if p.runlevel != i {
        continue;
      }
      if runlevel == APP && p.runlevel == APP && !p.updated {
        continue;
      }
      if p.status == Started {
        p.status := Stopped;
        order := order + [p];
      }
    }
  }

  /** pv_platforms_stop: exactly the started platforms it reaches are stopped, each once, highest runlevel
      first. */
  method Stop(ps: seq<Platform>, runlevel: int) returns (ghost order: seq<Platform>)
    requires Distinct(ps)
    modifies ps`status
    ensures forall p | p in ps ::
      p.status == if old(p.status) == Started && runlevel <= p.runlevel <= APP && (runlevel != APP || p.updated)
                  then Stopped else old(p.status)
    ensures forall p | p in ps ::
      p in order <==> old(p.status) == Started && runlevel <= p.runlevel <= APP && (runlevel != APP || p.updated)
    ensures forall p | p in order :: p in ps
    ensures Distinct(order) && NonIncreasing(order)
  {
    order := [];
    var i := MAX_RUNLEVEL;
    while i >= runlevel
      invariant i <= MAX_RUNLEVEL
      invariant forall p | p in ps ::
        p.status == if p.runlevel > i && Stops(p, runlevel) && old(p.status) == Started then Stopped else old(p.status)
      invariant forall p | p in ps :: p in order <==> p.runlevel > i && Stops(p, runlevel) && old(p.status) == Started
      invariant forall p | p in order :: p in ps && p.runlevel > i
      invariant Distinct(order) && NonIncreasing(order)
    {
      ghost var more := StopLevel(ps, i, runlevel);
      order := order + more;
      i := i - 1;
    }
  }

  // ---------------------------------------------------------------- start

  /** One turn of the outer loop; `bad` are the platforms whose container cannot be started. */
  method StartLevel(ps: seq<Platform>, i: int, bad: set<Platform>) returns (ok: bool, ghost order: seq<Platform>)
    requires Distinct(ps)
    modifies ps`status
    ensures forall p | p in ps :: p.status == if p in order then Started else old(p.status)
    ensures forall p | p in order :: p in ps && p.runlevel == i && old(p.status) != Started && p !in bad
    ensures ok ==> forall p | p in ps && p.runlevel == i :: p.status == Started
    ensures !ok ==> exists p :: p in ps && p.runlevel == i && p.status != Started && p in bad
    ensures Distinct(order)
  {
    order := [];
    for k := 0 to |ps|
      invariant forall j | 0 <= j < |ps| :: ps[j].status == if ps[j] in order then Started else old(ps[j].status)
      invariant forall p | p in order :: p in ps && p.runlevel == i && old(p.status) != Started && p !in bad
      invariant forall j | 0 <= j < k && ps[j].runlevel == i :: ps[j].status == Started
      invariant forall j | k <= j < |ps| :: ps[j] !in order
      invariant Distinct(order)
    {
      var p := ps[k];
      if p.runlevel != i || p.status == Started {
        continue;
      }
      if p in bad {
        return false, order;
      }
      p.status := Started;
      order := order + [p];
    }
    ok := true;
  }

  /** pv_platforms_start: lowest runlevel first, each once, nothing already started, up to the first
      failure. */
  method Start(ps: seq<Platform>, vs: seq<Item>, runlevel: int, bad: set<Platform>)
    returns (ok: bool, ghost order: seq<Platform>)
    requires Distinct(ps) && Served(ps, vs)
    requires forall v | v in vs && v.plat != null && v.plat in ps && runlevel <= v.plat.runlevel && ROOT <= v.plat.runlevel <= APP :: v.mounted
    modifies ps`status
    ensures forall p | p in ps :: p.status == if p in order then Started else old(p.status)
    ensures forall p | p in order :: p in ps && runlevel <= p.runlevel && ROOT <= p.runlevel <= APP && old(p.status) != Started && p !in bad
    ensures ok ==> forall p | p in ps && runlevel <= p.runlevel && ROOT <= p.runlevel <= APP :: p.status == Started
    ensures forall p | p in ps && p.runlevel == DATA :: p.status == old(p.status)
    ensures !ok ==> exists p :: p in ps && runlevel <= p.runlevel && ROOT <= p.runlevel <= APP && p.status != Started && p in bad
    ensures Distinct(order) && NonDecreasing(order)
    ensures Served(ps, vs)
  {
    order := [];
    var i := runlevel;
    while i <= MAX_RUNLEVEL
      invariant runlevel <= i
      invariant forall p | p in ps :: p.status == if p in order then Started else old(p.status)
      invariant forall p | p in order ::
        p in ps && runlevel <= p.runlevel && ROOT <= p.runlevel <= APP && p.runlevel < i && old(p.status) != Started && p !in bad
      invariant forall p | p in ps && runlevel <= p.runlevel && ROOT <= p.runlevel <= APP && p.runlevel < i :: p.status == Started
      invariant Distinct(order) && NonDecreasing(order)
    {
      if i > DATA {
        ghost var more;
        ok, more := StartLevel(ps, i, bad);
        order := order + more;
        if !ok {
          return false, order;
        }
      }
      i := i + 1;
    }
    ok := true;
  }

  // ---------------------------------------------------------------- mount and unmount

  /** The volumes a mount or unmount from `runlevel` reaches. */
  predicate Reached(v: Item, runlevel: int)
    reads if v.plat == null then {} else {v.plat}
  {
    runlevel <= Level(v) <= MAX_RUNLEVEL && (v.plat != null ==> v.plat.status != Started)
  }

  predicate RisingLevels(order: seq<Item>) {
    forall i, j | 0 <= i < j < |order| :: Level(order[i]) <= Level(order[j])
  }

  predicate FallingLevels(order: seq<Item>) {
    forall i, j | 0 <= i < j < |order| :: Level(order[i]) >= Level(order[j])
  }

  /** One turn of the outer loop: mount (or unmount) the volumes of runlevel i; `bad` are the volumes for
      which the system call fails. */
  method VisitLevel(vs: seq<Item>, i: int, mount: bool, bad: set<Item>) returns (ok: bool, ghost order: seq<Item>)
    requires Distinct(vs)
    modifies vs`mounted
    ensures forall v | v in vs :: v.mounted == if v in order then mount else old(v.mounted)
    ensures forall v | v in order :: v in vs && Level(v) == i && Reached(v, i) && v !in bad
    ensures ok ==> forall v | v in vs && Level(v) == i && Reached(v, i) :: v in order
    ensures !ok ==> exists v :: v in vs && Level(v) == i && Reached(v, i) && v in bad
    ensures Distinct(order)
  {
    order := [];
    if i > MAX_RUNLEVEL {
      return true, order;
    }
    for k := 0 to |vs|
      invariant forall j | 0 <= j < |vs| :: vs[j].mounted == if vs[j] in order then mount else old(vs[j].mounted)
      invariant forall v | v in order :: v in vs && Level(v) == i && Reached(v, i) && v !in bad
      invariant forall j | 0 <= j < k && Level(vs[j]) == i && Reached(vs[j], i) :: vs[j] in order
      invariant forall j | k <= j < |vs| :: vs[j] !in order
      invariant Distinct(order)
    {
      var v := vs[k];
      if (v.plat == null && i != ROOT) || (v.plat != null && i != v.plat.runlevel) {
        continue;
      }
      if v.plat != null && v.plat.status == Started {
        continue;
      }
      if v in bad {
        return false, order;
      }
      v.mounted := mount;
      order := order + [v];
    }
    ok := true;
  }

  /** pv_volumes_mount: every eligible volume is mounted exactly once, lowest runlevel first. */
  method Mount(ps: seq<Platform>, vs: seq<Item>, runlevel: int, bad: set<Item>) returns (ok: bool, ghost order: seq<Item>)
    requires Distinct(vs) && ClosedItems(vs, ps) && Served(ps, vs)
    modifies vs`mounted
    ensures forall v | v in vs :: v.mounted == (v in order || old(v.mounted))
    ensures forall v | v in order :: v in vs && v !in bad
    ensures forall v | v in order ::
      if v.plat == null then runlevel <= ROOT else runlevel <= v.plat.runlevel <= APP && v.plat.status != Started
    ensures ok ==> forall v | v in vs && v.plat == null && runlevel <= ROOT :: v in order
    ensures ok ==> forall v | v in vs && v.plat != null && runlevel <= v.plat.runlevel <= APP && v.plat.status != Started :: v in order
    ensures !ok ==> exists v :: v in vs && Reached(v, runlevel) && v in bad
    ensures Distinct(order) && RisingLevels(order)
    ensures Served(ps, vs)
  {
    order := [];
    var i := runlevel;
    while i <= MAX_RUNLEVEL
      invariant runlevel <= i
      invariant forall v | v in vs :: v.mounted == (v in order || old(v.mounted))
      invariant forall v | v in order :: v in vs && Level(v) < i && Reached(v, runlevel) && v !in bad
      invariant forall v | v in vs && Reached(v, runlevel) && Level(v) < i :: v in order
      invariant Distinct(order) && RisingLevels(order)
    {
      ghost var more;
      ok, more := VisitLevel(vs, i, true, bad);
      order := order + more;
      if !ok {
        return false, order;
      }
      i := i + 1;
    }
    ok := true;
  }

  /** pv_volumes_unmount: every eligible volume is unmounted once, highest runlevel first, and only volumes of
      platforms that are not running are touched. */
  method Unmount(ps: seq<Platform>, vs: seq<Item>, runlevel: int, bad: set<Item>) returns (ok: bool, ghost order: seq<Item>)
    requires Distinct(vs) && ClosedItems(vs, ps) && Served(ps, vs)
    modifies vs`mounted
    ensures forall v | v in vs :: v.mounted == (v !in order && old(v.mounted))
    ensures forall v | v in order :: v in vs && v !in bad
    ensures forall v | v in order ::
      if v.plat == null then runlevel <= ROOT else runlevel <= v.plat.runlevel <= APP && v.plat.status != Started
    ensures ok ==> forall v | v in vs && v.plat == null && runlevel <= ROOT :: v in order
    ensures ok ==> forall v | v in vs && v.plat != null && runlevel <= v.plat.runlevel <= APP && v.plat.status != Started :: v in order
    ensures !ok ==> exists v :: v in vs && Reached(v, runlevel) && v in bad
    ensures Distinct(order) && FallingLevels(order)
    ensures Served(ps, vs)
  {
    order := [];
    var i := MAX_RUNLEVEL;
    while i >= runlevel
      invariant i <= MAX_RUNLEVEL
      invariant forall v | v in vs :: v.mounted == (v !in order && old(v.mounted))
      invariant forall v | v in order :: v in vs && Reached(v, runlevel) && Level(v) > i && v !in bad
      invariant Distinct(order) && FallingLevels(order)
      invariant forall v | v in vs && Reached(v, runlevel) && Level(v) > i :: v in order
    {
      ghost var more;
      ok, more := VisitLevel(vs, i, false, bad);
      order := order + more;
      if !ok {
        return false, order;
      }
      i := i - 1;
    }
    ok := true;
  }

  // ---------------------------------------------------------------- default runlevels

  /** pv_platforms_default_runlevel, on the runlevels in list order: unconfigured platforms (-1) get
      PLATFORM, except that the first of them gets ROOT if nobody has it. */
  method DefaultRunlevels(levels: array<int>)
    requires forall k | 0 <= k < levels.Length :: -1 <= levels[k] <= APP
    modifies levels
    ensures forall k | 0 <= k < levels.Length :: DATA <= levels[k] <= APP
    ensures forall k | 0 <= k < levels.Length && old(levels[k]) != -1 :: levels[k] == old(levels[k])
    ensures forall k | 0 <= k < levels.Length && old(levels[k]) == -1 ::
      levels[k] == if ROOT !in old(levels[..]) && (forall j | 0 <= j < k :: old(levels[j]) != -1) then ROOT else PLATFORM
  {
    if levels.Length == 0 {
      return;
    }
    var configured, first := false, -1;
    for k := 0 to levels.Length
      invariant configured <==> ROOT in levels[..k]
      invariant -1 <= first < k && (first == -1 ==> forall j | 0 <= j < k :: levels[j] != -1)
      invariant first >= 0 ==> levels[first] == -1 && forall j | 0 <= j < first :: levels[j] != -1
    {
      if levels[k] == ROOT {
        configured := true;
      }
      if first == -1 && levels[k] == -1 {
        first := k;
      }
      assert levels[..k + 1] == levels[..k] + [levels[k]];
    }
    assert levels[..levels.Length] == levels[..];
    if !configured && first != -1 {
      levels[first] := ROOT;
    }
    for k := 0 to levels.Length
      invariant forall j | 0 <= j < k :: levels[j] == if old(levels[j]) != -1 then old(levels[j]) else if !configured && j == first then ROOT else PLATFORM
      invariant forall j | k <= j < levels.Length :: levels[j] == if !configured && j == first then ROOT else old(levels[j])
    {
      if levels[k] < DATA {
        levels[k] := PLATFORM;
      }
    }
  }
}
