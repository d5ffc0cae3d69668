/**
 The whole non-reboot path of an update (_pv_update followed by _pv_run): compare, stop, unmount,
 transfer, mount, start. Its contract is the incremental transition against loading the new state from
 scratch.
 */
module HotUpdate {
  import opened Wrappers
  import opened States
  import opened Compare
  import opened Transfer
  import opened Transition
  import opened Containers
  import P = UpdateProtocol
  import S = UpdateSafety
  import W = UpdateSteps

  datatype Outcome = NeedsReboot | RollsBack | Running

  /** Two states with no node in common. */
  ghost predicate Apart(a: State, b: State)
    reads a, b
  {
    && a != b
    && (forall p | p in a.platforms :: p !in b.platforms)
    && (forall it | it in a.objects :: it !in b.objects)
    && (forall it | it in a.jsons :: it !in b.jsons)
    && (forall it | it in a.volumes :: it !in b.volumes)
  }

  /** Nothing of a freshly parsed state runs. */
  ghost predicate Unstarted(ps: seq<Platform>)
    reads ps
  {
    forall p | p in ps :: p.status != Started
  }

  /** The exact conditions under which the transition equals a load from scratch. */
  ghost predicate Faithful(pend: seq<Item>, cur: seq<Item>, pendPs: seq<Platform>, curPs: seq<Platform>, alive: set<Platform>) {
    NoOrphan(pend, curPs, pendPs) && NoNewcomer(pend, cur, alive)
  }

  /** The platforms that keep running through the update. */
  ghost function Survivors(pend: State, cur: State): set<Platform>
    reads pend, cur, cur.platforms
  {
    set p | p in cur.platforms && p.status == Started && !(p.runlevel == APP && p in Flagged(pend, cur))
  }

  /** The four lists of a state. */
  datatype Lists = Lists(ps: seq<Platform>, objects: seq<Item>, jsons: seq<Item>, volumes: seq<Item>)

  ghost function ListsOf(s: State): Lists
    reads s
  {
    Lists(s.platforms, s.objects, s.jsons, s.volumes)
  }

  /** The lists of the running and the pending state after the transfer of p into c. */
  ghost function Taken(c: Lists, p: Lists, alive: set<Platform>): Lists {
    Lists(MergedPlatforms(c.ps, p.ps, alive), Merged(c.objects, p.objects, alive),
          Merged(c.jsons, p.jsons, alive), Merged(c.volumes, p.volumes, alive))
  }

  ghost function Left(p: Lists, alive: set<Platform>): Lists {
    var names := NamesOf(alive);
    Lists(LeftPlatforms(p.ps, alive), Select(p.objects, Stay(names)), Select(p.jsons, Stay(names)),
          Select(p.volumes, Stay(names)))
  }

  lemma NamesAlive(ps: seq<Platform>, alive: set<Platform>)
    requires forall p | p in alive :: p in ps
    ensures Names(SelectPlatforms(ps, alive)) == NamesOf(alive)
  {
    SelectPlatformsMembers(ps, alive);
    forall p | p in alive
      ensures p in SelectPlatforms(ps, alive)
    {
      var k :| 0 <= k < |ps| && ps[k] == p;
    }
    hide SelectPlatforms;
  }

  // ---------------------------------------------------------------- the transfer keeps what runs

  /** After the transfer the started platforms are the survivors, and they are still served. */
  lemma StillServed(c: Lists, p: Lists, alive: set<Platform>)
    requires ClosedItems(c.volumes, c.ps) && ClosedItems(p.volumes, p.ps)
    requires Served(c.ps, c.volumes) && Unstarted(p.ps) && alive == Alive(c.ps)
    ensures Served(Taken(c, p, alive).ps, Taken(c, p, alive).volumes)
  {
    var t := Taken(c, p, alive);
    forall k | 0 <= k < |t.volumes| && t.volumes[k].plat != null && t.volumes[k].plat.status == Started
      ensures t.volumes[k].mounted
    {
      InMerged(c.volumes, p.volumes, alive, t.volumes[k]);
    }
  }

  lemma MergedDistinct(cur: seq<Item>, pend: seq<Item>, alive: set<Platform>)
    requires Distinct(cur) && Distinct(pend) && forall x | x in cur :: x !in pend
    ensures Distinct(Merged(cur, pend, alive))
  {
    var names := NamesOf(alive);
    SelectDistinct(cur, Keep(alive));
    SelectDistinct(pend, Move(names));
    SelectMembers(cur, Keep(alive));
    SelectMembers(pend, Move(names));
    hide Select, Picks, Distinct;
    DistinctConcat(Select(cur, Keep(alive)), Select(pend, Move(names)));
  }

  lemma TakenDistinct(c: Lists, p: Lists, alive: set<Platform>)
    requires Distinct(c.ps) && Distinct(p.ps) && Distinct(c.volumes) && Distinct(p.volumes)
    requires (forall q | q in c.ps :: q !in p.ps) && (forall v | v in c.volumes :: v !in p.volumes)
    ensures Distinct(Taken(c, p, alive).ps) && Distinct(Taken(c, p, alive).volumes)
  {
    var names := NamesOf(alive);
    MergedDistinct(c.volumes, p.volumes, alive);
    SelectPlatformsDistinct(c.ps, alive);
    SelectPlatformsDistinct(p.ps, NewPlatforms(p.ps, names));
    SelectPlatformsMembers(c.ps, alive);
    SelectPlatformsMembers(p.ps, NewPlatforms(p.ps, names));
    hide Merged, SelectPlatforms, NewPlatforms, Distinct;
    DistinctConcat(SelectPlatforms(c.ps, alive), SelectPlatforms(p.ps, NewPlatforms(p.ps, names)));
  }

  lemma DistinctConcat<T>(a: seq<T>, b: seq<T>)
    requires Distinct(a) && Distinct(b) && forall i, j | 0 <= i < |a| && 0 <= j < |b| :: a[i] != b[j]
    ensures Distinct(a + b)
  {
  }

  /** Ownership of one kind of item after the transfer. */
  lemma ItemsApart(cur: seq<Item>, pend: seq<Item>, c: Lists, p: Lists, alive: set<Platform>)
    requires ClosedItems(cur, c.ps) && ClosedItems(pend, p.ps) && UniquePlatforms(p.ps)
    requires (forall x | x in cur :: x !in pend) && (forall q | q in c.ps :: q !in p.ps)
    requires forall q | q in alive :: q in c.ps
    ensures var m, left := Merged(cur, pend, alive), Select(pend, Stay(NamesOf(alive)));
      && ClosedItems(m, MergedPlatforms(c.ps, p.ps, alive)) && ClosedItems(left, LeftPlatforms(p.ps, alive))
      && forall x | x in left :: x !in m
  {
    var m, left := Merged(cur, pend, alive), Select(pend, Stay(NamesOf(alive)));
    forall k | 0 <= k < |m|
      ensures m[k].plat != null ==> m[k].plat in MergedPlatforms(c.ps, p.ps, alive)
    {
      OwnershipSeparated(cur, pend, c.ps, p.ps, alive, m[k]);
    }
    forall k | 0 <= k < |left|
      ensures left[k] !in m && (left[k].plat != null ==> left[k].plat in LeftPlatforms(p.ps, alive))
    {
      OwnershipSeparated(cur, pend, c.ps, p.ps, alive, left[k]);
    }
    hide Merged, MergedPlatforms, Select, LeftPlatforms;
  }

  lemma PlatformsApart(c: Lists, p: Lists, alive: set<Platform>)
    requires forall q | q in c.ps :: q !in p.ps
    ensures forall q | q in LeftPlatforms(p.ps, alive) :: q !in MergedPlatforms(c.ps, p.ps, alive)
  {
    var left := LeftPlatforms(p.ps, alive);
    forall k | 0 <= k < |left|
      ensures left[k] !in MergedPlatforms(c.ps, p.ps, alive)
    {
      InMergedPlatforms(c.ps, p.ps, alive, left[k]);
    }
    hide LeftPlatforms, MergedPlatforms;
  }

  /** Stop the platforms marked as updated and unmount what they used. */
  method StopUpdated(ps: seq<Platform>, vs: seq<Item>, badUnmount: set<Item>) returns (ok: bool)
    requires Distinct(ps) && Distinct(vs) && ClosedItems(vs, ps) && Served(ps, vs)
    modifies ps`status, vs`mounted
    ensures Served(ps, vs)
    ensures forall p | p in ps ::
      p.status == if old(p.status) == Started && p.runlevel == APP && p.updated then Stopped else old(p.status)
    ensures !ok ==> exists v :: v in vs && v in badUnmount
    ensures forall v | v in vs && (v.plat == null || v.plat.runlevel != APP) :: v.mounted == old(v.mounted)
    ensures ok ==> forall v | v in vs && v.plat != null && v.plat.runlevel == APP && v.plat.status != Started :: !v.mounted
  {
    ghost var order := Stop(ps, APP);
    var unmounted, _ := Unmount(ps, vs, APP, badUnmount);
    ok := unmounted;
  }

  /** TransferState in terms of whole states. */
  method TakeOver(pending: State, running: State)
    requires pending != running && Distinct(pending.platforms) && UniquePlatforms(pending.platforms)
    requires ClosedItems(running.objects, running.platforms) && ClosedItems(running.jsons, running.platforms)
    requires ClosedItems(running.volumes, running.platforms) && ClosedItems(pending.volumes, pending.platforms)
    requires Served(running.platforms, running.volumes) && Unstarted(pending.platforms)
    modifies pending, running
    ensures var c, p, alive := old(ListsOf(running)), old(ListsOf(pending)), Alive(old(running.platforms));
      ListsOf(running) == Taken(c, p, alive) && ListsOf(pending) == Left(p, alive)
    ensures running.rev == old(pending.rev) && Served(running.platforms, running.volumes)
  {
    ghost var c, p, alive := ListsOf(running), ListsOf(pending), Alive(running.platforms);
    NamesAlive(c.ps, alive);
    TransferState(pending, running);
    StillServed(c, p, alive);
    hide Served, Alive, Select, SelectPlatforms, NewPlatforms, OldPlatforms;
  }

  /** The platforms that a stop from APP leaves running. */
  ghost function Unstopped(ps: seq<Platform>): set<Platform>
    reads ps
  {
    set p | p in ps && p.status == Started && !(p.runlevel == APP && p.updated)
  }

  /** Nothing runs of the platforms that the lists c lose, and no volume of an app among them is mounted. */
  ghost predicate Cleared(c: Lists, alive: set<Platform>)
    reads c.ps, c.volumes
  {
    && (forall q | q in c.ps && q !in alive :: q.status != Started)
    && forall v | v in c.volumes && v.plat != null && v.plat.runlevel == APP && v.plat !in alive :: !v.mounted
  }

  /** Stop, unmount and transfer. */
  method Replace(pending: State, running: State, badUnmount: set<Item>) returns (ok: bool)
    requires pending != running && Distinct(pending.platforms) && UniquePlatforms(pending.platforms)
    requires Distinct(running.platforms) && Distinct(running.volumes)
    requires ClosedItems(running.objects, running.platforms) && ClosedItems(running.jsons, running.platforms)
    requires ClosedItems(running.volumes, running.platforms) && ClosedItems(pending.volumes, pending.platforms)
    requires Served(running.platforms, running.volumes) && Unstarted(pending.platforms)
    requires forall p | p in pending.platforms :: p !in running.platforms
    modifies pending, running, running.platforms`status, running.volumes`mounted
    ensures forall q | q in old(Unstopped(running.platforms)) :: q.status == Started
    ensures Served(running.platforms, running.volumes)
    ensures ok ==>
      var c, p, alive := old(ListsOf(running)), old(ListsOf(pending)), old(Unstopped(running.platforms));
      && alive == Alive(c.ps) && ListsOf(running) == Taken(c, p, alive) && ListsOf(pending) == Left(p, alive)
      && running.rev == old(pending.rev)
    ensures !ok ==> exists v :: v in old(running.volumes) && v in badUnmount
    ensures forall q | q in old(running.platforms) && q.runlevel != APP :: q.status == old(q.status)
    ensures forall v | v in old(running.volumes) && (v.plat == null || v.plat.runlevel != APP) :: v.mounted == old(v.mounted)
    ensures ok ==> Cleared(old(ListsOf(running)), old(Unstopped(running.platforms)))
  {
    hide Taken, Left, Distinct, UniquePlatforms, Served;
    ghost var c, p, alive := ListsOf(running), ListsOf(pending), Unstopped(running.platforms);
    ok := StopUpdated(running.platforms, running.volumes, badUnmount);
    assert alive == Alive(c.ps) && Unstarted(pending.platforms);
    assert ok ==> Cleared(c, alive);
    hide Alive, Cleared, Unstarted, Unstopped, ClosedItems;
    if ok {
      TakeOver(pending, running);
    }
  }

  lemma SurvivorsAreUnstopped(pend: State, cur: State)
    requires Marks(cur.platforms) == Flagged(pend, cur)
    ensures Survivors(pend, cur) == Unstopped(cur.platforms)
  {
    assert forall q | q in cur.platforms :: q in Marks(cur.platforms) <==> q.updated;
    hide Flagged;
  }

  // ---------------------------------------------------------------- the whole update

  /** What the transfer of p into c amounts to: the pending platforms, nothing but pending contents, and all of
      them exactly when faithful. */
  ghost predicate Exact(c: Lists, p: Lists, alive: set<Platform>) {
    var t := Taken(c, p, alive);
    && Names(t.ps) == Names(p.ps)
    && Contents(t.objects) <= Contents(p.objects) && Contents(t.jsons) <= Contents(p.jsons)
    && (Contents(t.objects) == Contents(p.objects) <==> Faithful(p.objects, c.objects, p.ps, c.ps, alive))
    && (Contents(t.jsons) == Contents(p.jsons) <==> Faithful(p.jsons, c.jsons, p.ps, c.ps, alive))
  }

  ghost predicate Separate(t: Lists, l: Lists) {
    && (forall q | q in l.ps :: q !in t.ps)
    && (forall x | x in l.objects :: x !in t.objects) && ClosedItems(t.objects, t.ps) && ClosedItems(l.objects, l.ps)
    && (forall x | x in l.jsons :: x !in t.jsons) && ClosedItems(t.jsons, t.ps) && ClosedItems(l.jsons, l.ps)
    && (forall x | x in l.volumes :: x !in t.volumes) && ClosedItems(t.volumes, t.ps) && ClosedItems(l.volumes, l.ps)
  }

  /** The running lists consist of old nodes of either state. */
  ghost predicate MadeOf(t: Lists, c: Lists, p: Lists) {
    && Distinct(t.ps) && Distinct(t.volumes)
    && (forall k | 0 <= k < |t.ps| :: t.ps[k] in c.ps || t.ps[k] in p.ps)
    && (forall k | 0 <= k < |t.volumes| :: t.volumes[k] in c.volumes || t.volumes[k] in p.volumes)
  }

  lemma TakenIsMadeOf(c: Lists, p: Lists, alive: set<Platform>)
    requires Distinct(c.ps) && Distinct(p.ps) && Distinct(c.volumes) && Distinct(p.volumes)
    requires (forall q | q in c.ps :: q !in p.ps) && (forall v | v in c.volumes :: v !in p.volumes)
    ensures MadeOf(Taken(c, p, alive), c, p)
    ensures forall q | q in alive && q in c.ps :: q in Taken(c, p, alive).ps
  {
    TakenDistinct(c, p, alive);
    forall q | q in alive && q in c.ps
      ensures q in Taken(c, p, alive).ps
    {
      InMergedPlatforms(c.ps, p.ps, alive, q);
    }
    var t := Taken(c, p, alive);
    forall k | 0 <= k < |t.ps|
      ensures t.ps[k] in c.ps || t.ps[k] in p.ps
    {
      InMergedPlatforms(c.ps, p.ps, alive, t.ps[k]);
    }
    forall k | 0 <= k < |t.volumes|
      ensures t.volumes[k] in c.volumes || t.volumes[k] in p.volumes
    {
      InMerged(c.volumes, p.volumes, alive, t.volumes[k]);
    }
    hide Merged, MergedPlatforms;
  }

  lemma TakenIsExact(pend: State, cur: State, alive: set<Platform>)
    requires Parsed(pend) && Parsed(cur) && !Rebuilds(pend, cur)
    requires SafeChanges(pend.objects, cur.objects) && SafeChanges(pend.jsons, cur.jsons)
    requires forall x | x in Levels(pend, cur) :: x >= APP
    requires alive == Survivors(pend, cur)
    ensures Exact(ListsOf(cur), ListsOf(pend), alive)
  {
    SurvivorsAreHot(pend, cur, alive);
    PlatformsExact(cur.platforms, pend.platforms, alive);
    hide Hot, Merged, MergedPlatforms;
    ItemsExact(cur.objects, pend.objects, cur.platforms, pend.platforms, alive);
    ItemsExact(cur.jsons, pend.jsons, cur.platforms, pend.platforms, alive);
    hide Parsed, Rebuilds, Levels, SafeChanges, Survivors, NoOrphan, NoNewcomer, Contents;
  }

  lemma TakenIsSeparate(c: Lists, p: Lists, alive: set<Platform>)
    requires ClosedItems(c.objects, c.ps) && ClosedItems(c.jsons, c.ps) && ClosedItems(c.volumes, c.ps)
    requires ClosedItems(p.objects, p.ps) && ClosedItems(p.jsons, p.ps) && ClosedItems(p.volumes, p.ps)
    requires UniquePlatforms(p.ps) && (forall q | q in c.ps :: q !in p.ps) && (forall q | q in alive :: q in c.ps)
    requires (forall x | x in c.objects :: x !in p.objects) && (forall x | x in c.jsons :: x !in p.jsons)
    requires forall x | x in c.volumes :: x !in p.volumes
    ensures Separate(Taken(c, p, alive), Left(p, alive))
  {
    ItemsApart(c.objects, p.objects, c, p, alive);
    ItemsApart(c.jsons, p.jsons, c, p, alive);
    ItemsApart(c.volumes, p.volumes, c, p, alive);
    PlatformsApart(c, p, alive);
    hide Merged, MergedPlatforms, Select, LeftPlatforms, ClosedItems;
  }

  // ---------------------------------------------------------------- ready for the next update

  /** A state whose lists are as a parser leaves them. */
  ghost predicate ParsedLists(l: Lists) {
    && Distinct(l.ps) && UniquePlatforms(l.ps) && Runlevels(l.ps)
    && Distinct(l.objects) && UniqueItems(l.objects) && LinkedItems(l.objects, l.ps)
    && Distinct(l.jsons) && UniqueItems(l.jsons) && LinkedItems(l.jsons, l.ps)
    && Distinct(l.volumes) && ClosedItems(l.volumes, l.ps)
  }

  /** No item that no platform owned is adopted by a platform of the update. */
  ghost predicate AdoptsNothing(c: Lists, p: Lists) {
    NoAdoption(c.objects, c.ps, p.ps) && NoAdoption(c.jsons, c.ps, p.ps)
  }

  lemma ItemsParsed(cur: seq<Item>, pend: seq<Item>, c: Lists, p: Lists, alive: set<Platform>)
    requires Hot(cur, pend, c.ps, p.ps, alive) && UniquePlatforms(p.ps) && Distinct(cur) && Distinct(pend)
    requires forall x | x in cur :: x !in pend
    ensures var m := Merged(cur, pend, alive);
      Distinct(m) && (UniqueItems(m) && LinkedItems(m, MergedPlatforms(c.ps, p.ps, alive)) <==> NoAdoption(cur, c.ps, p.ps))
  {
    hide Hot, Merged, MergedPlatforms, NoAdoption, UniqueItems, LinkedItems, UniquePlatforms, Distinct;
    MergedDistinct(cur, pend, alive);
    NamesStayUnique(cur, pend, c.ps, p.ps, alive);
    if NoAdoption(cur, c.ps, p.ps) {
      MergedIsLinked(cur, pend, c.ps, p.ps, alive);
    }
  }

  lemma TakenRunlevels(c: Lists, p: Lists, alive: set<Platform>)
    requires Runlevels(c.ps) && Runlevels(p.ps)
    ensures Runlevels(MergedPlatforms(c.ps, p.ps, alive))
  {
    var m := MergedPlatforms(c.ps, p.ps, alive);
    forall k | 0 <= k < |m|
      ensures DATA <= m[k].runlevel <= APP
    {
      InMergedPlatforms(c.ps, p.ps, alive, m[k]);
    }
    hide MergedPlatforms;
  }

  /** After an update the running state is as freshly parsed exactly when the update adopts nothing. */
  lemma TakenIsParsed(pend: State, cur: State, alive: set<Platform>)
    requires Parsed(pend) && Parsed(cur) && Apart(pend, cur) && !Rebuilds(pend, cur)
    requires SafeChanges(pend.objects, cur.objects) && SafeChanges(pend.jsons, cur.jsons)
    requires forall x | x in Levels(pend, cur) :: x >= APP
    requires alive == Survivors(pend, cur)
    ensures var c, p := ListsOf(cur), ListsOf(pend); ParsedLists(Taken(c, p, alive)) <==> AdoptsNothing(c, p)
  {
    var c, p := ListsOf(cur), ListsOf(pend);
    SurvivorsAreHot(pend, cur, alive);
    PlatformsExact(c.ps, p.ps, alive);
    TakenRunlevels(c, p, alive);
    LinkedIsClosed(c.objects, c.ps);
    LinkedIsClosed(c.jsons, c.ps);
    hide Hot, Merged, MergedPlatforms, Survivors, Rebuilds, Levels, SafeChanges;
    hide Distinct, UniquePlatforms, UniqueItems, LinkedItems, Runlevels, ClosedItems, NoAdoption;
    ItemsParsed(c.objects, p.objects, c, p, alive);
    ItemsParsed(c.jsons, p.jsons, c, p, alive);
    TakenDistinct(c, p, alive);
    ItemsApart(c.volumes, p.volumes, c, p, alive);
  }

  /** The survivors are not marked, so an unmarked pending state leaves an unmarked running one. */
  lemma TakenIsUnmarked(pend: State, cur: State, alive: set<Platform>)
    requires Parsed(pend) && Parsed(cur) && !Rebuilds(pend, cur) && forall x | x in Levels(pend, cur) :: x >= APP
    requires Marks(cur.platforms) == Flagged(pend, cur) && alive == Survivors(pend, cur) && Marks(pend.platforms) == {}
    ensures Marks(Taken(ListsOf(cur), ListsOf(pend), alive).ps) == {}
  {
    var m := MergedPlatforms(cur.platforms, pend.platforms, alive);
    forall p | p in Flagged(pend, cur)
      ensures p.runlevel >= APP
    {
      FlaggedIsApp(pend, cur, p);
    }
    assert forall p | p in cur.platforms :: p.runlevel <= APP;
    assert forall p | p in alive :: p !in Marks(cur.platforms);
    hide Flagged, Levels, Rebuilds, Survivors, Parsed;
    forall k | 0 <= k < |m|
      ensures !m[k].updated
    {
      InMergedPlatforms(cur.platforms, pend.platforms, alive, m[k]);
      assert m[k] in pend.platforms ==> m[k] !in Marks(pend.platforms);
    }
    hide MergedPlatforms;
  }

  /** Mount and start what is not running yet, from a runlevel up: APP after a transfer, DATA after a boot. */
  method BringUp(running: State, runlevel: int, badMount: set<Item>, badStart: set<Platform>) returns (ok: bool)
    requires Distinct(running.platforms) && Distinct(running.volumes)
    requires ClosedItems(running.volumes, running.platforms) && Served(running.platforms, running.volumes)
    modifies running.platforms`status, running.volumes`mounted
    ensures Served(running.platforms, running.volumes)
    ensures forall q | q in running.platforms && old(q.status) == Started :: q.status == Started
    ensures !ok ==> (exists v :: v in running.volumes && v in badMount) || (exists q :: q in running.platforms && q in badStart)
    ensures forall q | q in running.platforms && (q.runlevel == DATA || q.runlevel < runlevel) :: q.status == old(q.status)
    ensures forall v | v in running.volumes && (if v.plat == null then ROOT else v.plat.runlevel) < runlevel :: v.mounted == old(v.mounted)
    ensures ok ==> forall q | q in running.platforms && runlevel <= q.runlevel && ROOT <= q.runlevel <= APP :: q.status == Started
  {
    var mounted, order := Mount(running.platforms, running.volumes, runlevel, badMount);
    ok := mounted;
    if ok {
      var started, _ := Start(running.platforms, running.volumes, runlevel, badStart);
      ok := started;
    }
  }

  /** Two states ready to be switched. */
  ghost predicate Ready(pending: State, running: State)
    reads pending, running, pending.platforms, running.platforms, running.volumes
  {
    && pending != running && Distinct(pending.platforms) && UniquePlatforms(pending.platforms)
    && Distinct(running.platforms) && Distinct(running.volumes)
    && ClosedItems(running.objects, running.platforms) && ClosedItems(running.jsons, running.platforms)
    && ClosedItems(running.volumes, running.platforms) && ClosedItems(pending.volumes, pending.platforms)
    && Served(running.platforms, running.volumes) && Unstarted(pending.platforms)
    && (forall p | p in pending.platforms :: p !in running.platforms)
    && (forall v | v in pending.volumes :: v !in running.volumes)
    && var c, p, alive := ListsOf(running), ListsOf(pending), Unstopped(running.platforms);
       && Separate(Taken(c, p, alive), Left(p, alive)) && MadeOf(Taken(c, p, alive), c, p)
       && forall q | q in alive :: q in Taken(c, p, alive).ps
  }

  /** Something fails for a node of these lists. */
  ghost predicate Faulty(c: Lists, p: Lists, badUnmount: set<Item>, badMount: set<Item>, badStart: set<Platform>) {
    || (exists v :: v in c.volumes && v in badUnmount)
    || (exists v :: (v in c.volumes || v in p.volumes) && v in badMount)
    || (exists q :: (q in c.ps || q in p.ps) && q in badStart)
  }

  /** Bring up what the transfer of p into c left. */
  method Raise(running: State, ghost c: Lists, ghost p: Lists, ghost alive: set<Platform>, badMount: set<Item>, badStart: set<Platform>)
    returns (ok: bool)
    requires ListsOf(running) == Taken(c, p, alive) && MadeOf(Taken(c, p, alive), c, p)
    requires ClosedItems(running.volumes, running.platforms) && Served(running.platforms, running.volumes)
    requires (forall q | q in p.ps :: q !in c.ps) && (forall v | v in p.volumes :: v !in c.volumes)
    modifies running.platforms`status, running.volumes`mounted
    ensures Served(running.platforms, running.volumes)
    ensures forall q | q in running.platforms && old(q.status) == Started :: q.status == Started
    ensures ok ==> forall q | q in running.platforms && q.runlevel == APP :: q.status == Started
    ensures !ok ==> forall bad :: Faulty(c, p, bad, badMount, badStart)
    ensures forall q | (q in c.ps || q in p.ps) && q.runlevel < APP :: q.status == old(q.status)
    ensures forall v | (v in c.volumes || v in p.volumes) && (v.plat == null || v.plat.runlevel < APP) :: v.mounted == old(v.mounted)
    ensures old(Cleared(c, alive)) ==> Cleared(c, alive)
  {
    TakenDrops(c, p, alive);
    hide Taken, Served;
    ok := BringUp(running, APP, badMount, badStart);
  }

  /** Replace and bring up. */
  method Switch(pending: State, running: State, badUnmount: set<Item>, badMount: set<Item>, badStart: set<Platform>)
    returns (ok: bool)
    requires Ready(pending, running)
    modifies pending, running, running.platforms`status, running.volumes`mounted
    modifies pending.platforms`status, pending.volumes`mounted
    ensures forall q | q in old(Unstopped(running.platforms)) :: q.status == Started
    ensures Served(running.platforms, running.volumes)
    ensures ok ==>
      var c, p, alive := old(ListsOf(running)), old(ListsOf(pending)), old(Unstopped(running.platforms));
      && ListsOf(running) == Taken(c, p, alive) && ListsOf(pending) == Left(p, alive)
      && running.rev == old(pending.rev)
      && forall q | q in running.platforms && q.runlevel == APP :: q.status == Started
    ensures ok && old(Unmarked(Taken(ListsOf(running), ListsOf(pending), Unstopped(running.platforms)).ps)) ==>
      Unmarked(running.platforms)
    ensures !ok ==> Faulty(old(ListsOf(running)), old(ListsOf(pending)), badUnmount, badMount, badStart)
    ensures forall q | (q in old(running.platforms) || q in old(pending.platforms)) && q.runlevel < APP :: q.status == old(q.status)
    ensures forall v | (v in old(running.volumes) || v in old(pending.volumes)) && (v.plat == null || v.plat.runlevel < APP) ::
      v.mounted == old(v.mounted)
    ensures ok ==> Cleared(old(ListsOf(running)), old(Unstopped(running.platforms)))
  {
    ghost var c, p, alive := ListsOf(running), ListsOf(pending), Unstopped(running.platforms);
    ghost var t := Taken(c, p, alive);
    ReadyTells(pending, running, badUnmount, badMount, badStart);
    hide Ready, Taken, Left, Separate, Unstopped, Served, ClosedItems, Distinct, Cleared, Faulty, MadeOf, UniquePlatforms, Unmarked, Unstarted;
    ok := Replace(pending, running, badUnmount);
    if ok {
      assert ListsOf(running) == t;
      ok := Raise(running, c, p, alive, badMount, badStart);
    }
  }

  /** What the transfer drops is not in the running lists any more. */
  lemma TakenDrops(c: Lists, p: Lists, alive: set<Platform>)
    requires (forall q | q in p.ps :: q !in c.ps) && (forall v | v in p.volumes :: v !in c.volumes)
    ensures var t := Taken(c, p, alive);
      && (forall q | q in c.ps && q !in alive :: q !in t.ps)
      && forall v | v in c.volumes && v.plat != null && v.plat !in alive :: v !in t.volumes
  {
    var t := Taken(c, p, alive);
    forall k | 0 <= k < |t.ps|
      ensures t.ps[k] in c.ps ==> t.ps[k] in alive
    {
      InMergedPlatforms(c.ps, p.ps, alive, t.ps[k]);
    }
    forall k | 0 <= k < |t.volumes|
      ensures t.volumes[k] in c.volumes && t.volumes[k].plat != null ==> t.volumes[k].plat in alive
    {
      InMerged(c.volumes, p.volumes, alive, t.volumes[k]);
    }
    hide Merged, MergedPlatforms;
  }

  /** What the switch needs of two states that are ready. */
  lemma ReadyTells(pending: State, running: State, badUnmount: set<Item>, badMount: set<Item>, badStart: set<Platform>)
    requires Ready(pending, running)
    ensures pending != running && Distinct(pending.platforms) && UniquePlatforms(pending.platforms)
    ensures Distinct(running.platforms) && Distinct(running.volumes)
    ensures ClosedItems(running.objects, running.platforms) && ClosedItems(running.jsons, running.platforms)
    ensures ClosedItems(running.volumes, running.platforms) && ClosedItems(pending.volumes, pending.platforms)
    ensures Served(running.platforms, running.volumes) && Unstarted(pending.platforms)
    ensures var c, p := ListsOf(running), ListsOf(pending); var t := Taken(c, p, Unstopped(running.platforms));
      && (forall q | q in p.ps :: q !in c.ps) && (forall v | v in p.volumes :: v !in c.volumes)
      && MadeOf(t, c, p) && ClosedItems(t.volumes, t.ps)
      && (forall q | q in t.ps :: q in c.ps || q in p.ps) && (forall v | v in t.volumes :: v in c.volumes || v in p.volumes)
      && (forall q | q in Unstopped(running.platforms) :: q in t.ps)
      && ((exists v :: v in c.volumes && v in badUnmount) ==> Faulty(c, p, badUnmount, badMount, badStart))
  {
    hide Taken, Left, Distinct, UniquePlatforms, Served, Unstopped;
  }

  /** The comparison asks for a reboot. */
  ghost predicate CutsDeep(pend: State, cur: State)
    reads pend, cur
  {
    Rebuilds(pend, cur) || exists x :: x in Levels(pend, cur) && x < APP
  }

  /** That is so exactly when the base or a runlevel moved, or the difference reaches one of the three levels
      below APP. */
  lemma CutsDeepExactly(pend: State, cur: State)
    requires Parsed(pend) && Parsed(cur)
    ensures CutsDeep(pend, cur) <==>
      || Rebuilds(pend, cur)
      || DATA in Levels(pend, cur) || ROOT in Levels(pend, cur) || PLATFORM in Levels(pend, cur)
  {
    hide Levels, Rebuilds, Parsed;
    AllLevelsInRange(pend, cur);
    var levels := Levels(pend, cur);
    assert CutsDeep(pend, cur) <==> Rebuilds(pend, cur) || exists x :: x in levels && x < APP;
    hide CutsDeep;
  }

  /** And the update step of the controller, which reboots by the same comparison, agrees. */
  lemma ControllerAgrees(pend: State, cur: State, v: P.Vol, inp: P.Inputs, limit: int)
    requires if Rebuilds(pend, cur) then inp.runlevel == 0 else IsLeast(inp.runlevel, MAX_RUNLEVEL, Levels(pend, cur))
    requires v.ctl == P.UPDATE && S.UpdateInv(v, limit) && W.Fetches(v.update.value, inp, limit) && W.InstallsIt(inp)
    ensures P.Handler(v, inp, limit).v.ctl == P.REBOOT <==> CutsDeep(pend, cur)
  {
    LevelMeans(pend, cur, inp.runlevel);
    W.UpdateInstalls(v, inp, limit);
    hide P.Handler, CutsDeep, Levels, Rebuilds;
  }

  /** The non-reboot path of an update. `badUnmount`, `badMount` and `badStart` are the nodes for which
      the system or the container runtime reports a failure. */
  method Update(pending: State, running: State, badUnmount: set<Item>, badMount: set<Item>, badStart: set<Platform>)
    returns (outcome: Outcome)
    requires Parsed(pending) && Parsed(running) && Apart(pending, running) && Unstarted(pending.platforms)
    requires Comparable(pending, running)
    requires Marks(running.platforms) == {} && Served(running.platforms, running.volumes)
    modifies pending, running, running.platforms, running.volumes, pending.platforms, pending.volumes
    // an update that cuts deeper than APP touches nothing but the marks
    ensures outcome == NeedsReboot <==> old(CutsDeep(pending, running))
    ensures outcome == NeedsReboot ==>
      && ListsOf(running) == old(ListsOf(running)) && ListsOf(pending) == old(ListsOf(pending)) && CutsDeep(pending, running)
      && forall p | p in running.platforms :: p.status == old(p.status)
    // below APP nothing is started, stopped, mounted or unmounted, and what the running state loses is cleared
    ensures forall q | (q in old(running.platforms) || q in old(pending.platforms)) && q.runlevel < APP :: q.status == old(q.status)
    ensures forall v | (v in old(running.volumes) || v in old(pending.volumes)) && (v.plat == null || v.plat.runlevel < APP) ::
      v.mounted == old(v.mounted)
    ensures outcome == Running ==> Cleared(old(ListsOf(running)), old(Survivors(pending, running)))
    // it rolls back only for a failure of a node that it touches
    ensures outcome == RollsBack ==>
      Faulty(old(ListsOf(running)), old(ListsOf(pending)), badUnmount, badMount, badStart)
    // whatever happens, no survivor is stopped and every started platform has its volumes
    ensures forall p | p in old(Survivors(pending, running)) :: p.status == Started
    ensures Served(running.platforms, running.volumes)
    // the running state becomes the pending one, in contents exactly when the update is faithful
    ensures outcome == Running ==>
      && running.rev == old(pending.rev)
      && ListsOf(running) == Taken(old(ListsOf(running)), old(ListsOf(pending)), old(Survivors(pending, running)))
      && Exact(old(ListsOf(running)), old(ListsOf(pending)), old(Survivors(pending, running)))
      && forall p | p in running.platforms && p.runlevel == APP :: p.status == Started
    // and the pending state that is freed next has nothing in common with it
    ensures outcome == Running ==> Separate(ListsOf(running), ListsOf(pending))
    // and the next update finds it as freshly parsed, unless an item was adopted
    ensures outcome == Running ==> (Parsed(running) <==> AdoptsNothing(old(ListsOf(running)), old(ListsOf(pending))))
    ensures outcome == Running && old(Marks(pending.platforms)) == {} ==> Marks(running.platforms) == {}
  {
    assert forall p | p in Survivors(pending, running) :: p.status == Started;
    hide CutsDeep, Exact, Unstopped, Ready, Separate, Taken, Left, Flagged, Levels, Rebuilds;
    hide Survivors, Served, Comparable, ParsedLists, AdoptsNothing, Parsed, Unmarked, Unstarted, Marks, Faulty, Cleared;
    var level := Assess(pending, running);
    if level <= PLATFORM {
      return NeedsReboot;
    }
    Prepare(pending, running);
    hide Apart;
    var ok := Switch(pending, running, badUnmount, badMount, badStart);
    ParsedMeans(running);
    UnmarkedMeans(running.platforms);
    return if ok then Running else RollsBack;
  }

  /** The comparison, as far as it concerns an update: how deep it cuts, and marks on nothing but the running
      platforms that it touches. */
  method Assess(pending: State, running: State) returns (level: int)
    requires Parsed(running) && Apart(pending, running) && Comparable(pending, running) && Marks(running.platforms) == {}
    modifies running.platforms`updated
    ensures level <= PLATFORM <==> CutsDeep(pending, running)
    ensures level > PLATFORM ==> Marks(running.platforms) == Flagged(pending, running)
    ensures Survivors(pending, running) == old(Survivors(pending, running))
    ensures Marks(pending.platforms) == old(Marks(pending.platforms))
    ensures Served(running.platforms, running.volumes) == old(Served(running.platforms, running.volumes))
    ensures Unstarted(pending.platforms) == old(Unstarted(pending.platforms))
  {
    hide CutsDeep, Flagged, Levels, Rebuilds, IsLeast, Distinct, UniquePlatforms, UniqueItems, Runlevels, LinkedItems;
    hide Comparable;
    LinkedIsClosed(running.objects, running.platforms);
    LinkedIsClosed(running.jsons, running.platforms);
    level := CompareStates(pending, running);
    LevelMeans(pending, running, level);
  }

  /** A marked running state and a pending state whose difference cuts no deeper than APP are ready. */
  lemma Prepare(pend: State, cur: State)
    requires Parsed(pend) && Parsed(cur) && Apart(pend, cur) && Unstarted(pend.platforms)
    requires Comparable(pend, cur)
    requires Marks(cur.platforms) == Flagged(pend, cur) && Served(cur.platforms, cur.volumes)
    requires !CutsDeep(pend, cur)
    ensures var c, p, alive := ListsOf(cur), ListsOf(pend), Survivors(pend, cur);
      && Ready(pend, cur) && alive == Unstopped(cur.platforms) && Exact(c, p, alive)
      && Separate(Taken(c, p, alive), Left(p, alive))
      && (ParsedLists(Taken(c, p, alive)) <==> AdoptsNothing(c, p))
      && (Marks(pend.platforms) == {} ==> Unmarked(Taken(c, p, alive).ps))
  {
    var c, p, alive := ListsOf(cur), ListsOf(pend), Survivors(pend, cur);
    ComparableIsSafe(pend, cur);
    TakenIsExact(pend, cur, alive);
    TakenIsParsed(pend, cur, alive);
    if Marks(pend.platforms) == {} {
      TakenIsUnmarked(pend, cur, alive);
      UnmarkedMeans(Taken(c, p, alive).ps);
    }
    hide ParsedLists, AdoptsNothing, Unmarked;
    SurvivorsAreUnstopped(pend, cur);
    LinkedIsClosed(c.objects, c.ps);
    LinkedIsClosed(c.jsons, c.ps);
    LinkedIsClosed(p.objects, p.ps);
    LinkedIsClosed(p.jsons, p.ps);
    hide LinkedItems, SafeChanges, Taken, Left, Exact, Flagged, Marks, Levels, Rebuilds;
    TakenIsMadeOf(c, p, alive);
    TakenIsSeparate(c, p, alive);
    hide Separate, MadeOf, ClosedItems, Distinct, Served;
  }

  ghost predicate Unmarked(ps: seq<Platform>)
    reads ps`updated
  {
    forall p | p in ps :: !p.updated
  }

  lemma UnmarkedMeans(ps: seq<Platform>)
    ensures Unmarked(ps) <==> Marks(ps) == {}
  {
    assert forall p | p in ps && p.updated :: p in Marks(ps);
  }

  lemma ParsedMeans(s: State)
    ensures Parsed(s) <==> ParsedLists(ListsOf(s))
  {
  }

  lemma LinkedIsClosed(items: seq<Item>, ps: seq<Platform>)
    requires LinkedItems(items, ps)
    ensures ClosedItems(items, ps)
  {
  }

  lemma LevelMeans(pend: State, cur: State, r: int)
    requires if Rebuilds(pend, cur) then r == 0 else IsLeast(r, MAX_RUNLEVEL, Levels(pend, cur))
    ensures r <= PLATFORM <==> CutsDeep(pend, cur)
    ensures r <= MAX_RUNLEVEL && (r > PLATFORM ==> forall x | x in Levels(pend, cur) :: x >= APP)
  {
    hide Rebuilds, Levels;
  }

  /** Equality with a load from scratch does fail: a new file for an app that keeps running cuts no deeper
      than APP, marks nothing, and never reaches the running state. */
  method NewcomerExample() returns (pending: State, running: State)
    ensures Parsed(pending) && Parsed(running) && Apart(pending, running) && Unstarted(pending.platforms)
    ensures !CutsDeep(pending, running) && Flagged(pending, running) == {}
    ensures !Faithful(pending.objects, running.objects, pending.platforms, running.platforms, Survivors(pending, running))
  {
    running := new State("1");
    var a := new Platform("a", APP);
    a.status := Started;
    running.platforms := [a];
    pending := new State("2");
    var a' := new Platform("a", APP);
    var o := new Item("a/n", "id", a');
    pending.platforms := [a'];
    pending.objects := [o];
    assert running.objects == running.jsons == running.volumes == [] && pending.jsons == pending.volumes == [];
    ExampleIsParsed(pending, running, a, a', o);
    ExampleFails(pending, running, a, a', o);
    hide Parsed, CutsDeep, Flagged, Faithful, Survivors;
  }

  /** The comparison can be led to a null platform: a file that no platform owned changes in the update that
      adds its platform. */
  method AdoptionExample() returns (pending: State, running: State)
    ensures Parsed(pending) && Parsed(running) && Apart(pending, running) && Unstarted(pending.platforms)
    ensures !Comparable(pending, running)
  {
    running := new State("1");
    var c := new Item("a/n", "1", null);
    running.objects := [c];
    pending := new State("2");
    var a := new Platform("a", APP);
    var o := new Item("a/n", "2", a);
    pending.platforms := [a];
    pending.objects := [o];
    assert running.platforms == [] && running.jsons == running.volumes == pending.jsons == pending.volumes == [];
    OwnerOfExample();
    hide Owner;
    assert ItemNamed([c], o.name) == c;
    assert pending.objects[0] == o && !SafeChange(o, [c]);
    assert !SafeUntilBase([o], [c]);
  }

  lemma OwnerOfExample()
    ensures Owner("a/n") == "a"
  {
    assert Word("/n") == "" && Word("a/n") == "a" && Token("a/n") == "a";
  }

  ghost predicate Example(pending: State, running: State, a: Platform, a': Platform, o: Item)
    reads pending, running, a
  {
    && running.platforms == [a] && running.objects == running.jsons == running.volumes == []
    && pending.platforms == [a'] && pending.objects == [o] && pending.jsons == pending.volumes == []
    && a.name == a'.name == "a" && a.runlevel == a'.runlevel == APP && a.status == Started
    && o.name == "a/n" && o.plat == a'
  }

  lemma ExampleIsParsed(pending: State, running: State, a: Platform, a': Platform, o: Item)
    requires Example(pending, running, a, a', o)
    ensures Parsed(pending) && Parsed(running)
  {
    OwnerOfExample();
    hide Owner;
  }

  lemma ExampleFails(pending: State, running: State, a: Platform, a': Platform, o: Item)
    requires Example(pending, running, a, a', o)
    ensures !CutsDeep(pending, running) && Flagged(pending, running) == {}
    ensures !Faithful(pending.objects, running.objects, pending.platforms, running.platforms, Survivors(pending, running))
  {
    OwnerOfExample();
    hide Owner;
    assert PlatformNamed([a'], "a") == a';
    assert ItemNamed([], o.name) == null;
    assert Changed(o, []) && o in [o];
    assert ChangedLevels([o], []) == {APP} && ChangedOwners([o], []) == {};
    assert Deleted([a'], [a]) == {} && DeletedLevels([a'], [a]) == {};
    assert Flagged(pending, running) == {};
    assert a in Survivors(pending, running);
    assert "a" in NamesOf(Survivors(pending, running));
    hide Flagged, Survivors;
  }
}
