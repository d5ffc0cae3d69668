/**
 The incremental transition against loading the new state from scratch: what the running state holds
 after an update that cuts no deeper than APP, and who owns which node afterwards.
 */
module Transition {
  import opened States
  import opened Compare
  import opened Transfer

  /** What a list of items says: names with their ids or values. */
  ghost function Contents(items: seq<Item>): set<(string, string)> {
    set k | 0 <= k < |items| :: (items[k].name, items[k].payload)
  }

  /** The item list of the running state after the transfer. */
  ghost function Merged(cur: seq<Item>, pend: seq<Item>, alive: set<Platform>): seq<Item> {
    Select(cur, Keep(alive)) + Select(pend, Move(NamesOf(alive)))
  }

  ghost function NamesOf(alive: set<Platform>): set<string> { set p | p in alive :: p.name }

  /** The hypotheses of a hot transition on one kind of item: parsed lists, an untouched base, and
      survivors that no difference touches. */
  ghost predicate Hot(cur: seq<Item>, pend: seq<Item>, curPs: seq<Platform>, pendPs: seq<Platform>, alive: set<Platform>) {
    && UniqueItems(cur) && UniqueItems(pend) && UniquePlatforms(curPs)
    && LinkedItems(cur, curPs) && LinkedItems(pend, pendPs)
    && SafeChanges(pend, cur) && !BaseTouched(pend, cur)
    && (forall p | p in alive :: p in curPs && p.name in Names(pendPs) && p !in ItemOwners(pend, cur))
  }

  /** No pending item is owned by a platform that the update deletes. */
  ghost predicate NoOrphan(pend: seq<Item>, curPs: seq<Platform>, pendPs: seq<Platform>) {
    forall it | it in pend && Owner(it.name) in Names(curPs) :: Owner(it.name) in Names(pendPs)
  }

  /** No brand-new pending item is owned by a surviving platform. */
  ghost predicate NoNewcomer(pend: seq<Item>, cur: seq<Item>, alive: set<Platform>) {
    forall it | it in pend && ItemNamed(cur, it.name) == null :: Owner(it.name) !in NamesOf(alive)
  }

  /** Which pending items reach the running state. */
  ghost predicate Arrives(it: Item, cur: seq<Item>, curPs: seq<Platform>, pendPs: seq<Platform>, alive: set<Platform>) {
    && !(Owner(it.name) in Names(curPs) && Owner(it.name) !in Names(pendPs))
    && !(ItemNamed(cur, it.name) == null && Owner(it.name) in NamesOf(alive))
  }

  lemma InContents(items: seq<Item>, it: Item)
    requires it in items
    ensures (it.name, it.payload) in Contents(items)
  {
    var k :| 0 <= k < |items| && items[k] == it;
  }

  /** Membership in the merged list. */
  lemma InMerged(cur: seq<Item>, pend: seq<Item>, alive: set<Platform>, it: Item)
    ensures it in Merged(cur, pend, alive) <==>
      || (it in cur && (it.plat == null || it.plat in alive))
      || (it in pend && it.plat != null && it.plat.name !in NamesOf(alive))
  {
    SelectMembers(cur, Keep(alive));
    SelectMembers(pend, Move(NamesOf(alive)));
    hide Select;
  }

  lemma OwnerListed(items: seq<Item>, ps: seq<Platform>, it: Item)
    requires LinkedItems(items, ps) && it in items
    ensures it.plat != null ==> it.plat in ps && Owner(it.name) in Names(ps)
  {
  }

  /** Changing an item marks the platform that runs the old version. */
  lemma ChangedOwner(pend: seq<Item>, cur: seq<Item>, it: Item)
    requires it in pend && it.plat != null
    requires ItemNamed(cur, it.name) != null && ItemNamed(cur, it.name).plat != null
    ensures Changed(it, cur) ==> ItemNamed(cur, it.name).plat in ItemOwners(pend, cur)
  {
  }

  /** A pending item that arrives: it is moved, or the same item is already there and is kept. */
  lemma ArrivingItem(cur: seq<Item>, pend: seq<Item>, curPs: seq<Platform>, pendPs: seq<Platform>, alive: set<Platform>, it: Item)
    requires Hot(cur, pend, curPs, pendPs, alive) && it in pend && Arrives(it, cur, curPs, pendPs, alive)
    ensures (it.name, it.payload) in Contents(Merged(cur, pend, alive))
  {
    var c := ItemNamed(cur, it.name);
    InMerged(cur, pend, alive, it);
    hide Merged, ItemNamed;
    if it.plat != null && it.plat.name !in NamesOf(alive) {
      InContents(Merged(cur, pend, alive), it);
    } else {
      KeptTwin(cur, pend, curPs, pendPs, alive, it);
      InMerged(cur, pend, alive, c);
      InContents(Merged(cur, pend, alive), c);
    }
  }

  lemma KeptTwin(cur: seq<Item>, pend: seq<Item>, curPs: seq<Platform>, pendPs: seq<Platform>, alive: set<Platform>, it: Item)
    requires Hot(cur, pend, curPs, pendPs, alive) && it in pend && Arrives(it, cur, curPs, pendPs, alive)
    requires it.plat == null || it.plat.name in NamesOf(alive)
    ensures var c := ItemNamed(cur, it.name);
      c != null && c.payload == it.payload && (c.plat == null || c.plat in alive)
  {
    hide ItemNamed;
    var c := ItemNamed(cur, it.name);
    if it.plat == null {
      assert !NewBase(pend, cur) && !Changed(it, cur);
      OwnerListed(cur, curPs, c);
    } else {
      var p :| p in alive && p.name == it.plat.name;
      assert p.name == Owner(it.name);
      assert c.plat != null by { assert p.name in Names(curPs); }
      assert c.plat == p;
      ChangedOwner(pend, cur, it);
    }
  }

  /** A pending item that does not arrive leaves no trace of its contents. */
  lemma LostItem(cur: seq<Item>, pend: seq<Item>, curPs: seq<Platform>, pendPs: seq<Platform>, alive: set<Platform>, it: Item)
    requires Hot(cur, pend, curPs, pendPs, alive) && it in pend && !Arrives(it, cur, curPs, pendPs, alive)
    ensures (it.name, it.payload) !in Contents(Merged(cur, pend, alive))
  {
    hide ItemNamed;
    var m := Merged(cur, pend, alive);
    forall k | 0 <= k < |m|
      ensures m[k].name != it.name
    {
      InMerged(cur, pend, alive, m[k]);
      if m[k].name == it.name {
        NotMerged(cur, pend, curPs, pendPs, alive, it, m[k]);
      }
    }
  }

  lemma NotMerged(cur: seq<Item>, pend: seq<Item>, curPs: seq<Platform>, pendPs: seq<Platform>, alive: set<Platform>, it: Item, x: Item)
    requires Hot(cur, pend, curPs, pendPs, alive) && it in pend && !Arrives(it, cur, curPs, pendPs, alive)
    requires x.name == it.name
    ensures !(x in cur && (x.plat == null || x.plat in alive))
    ensures !(x in pend && x.plat != null && x.plat.name !in NamesOf(alive))
  {
    hide ItemNamed;
    if x in pend {
      assert x == it;
    }
    if x in cur {
      assert ItemNamed(cur, it.name) == x;
      assert x.plat != null;
    }
  }

  /** Nothing but pending contents is in the merged list. */
  lemma OnlyPending(cur: seq<Item>, pend: seq<Item>, curPs: seq<Platform>, pendPs: seq<Platform>, alive: set<Platform>, x: Item)
    requires Hot(cur, pend, curPs, pendPs, alive) && x in Merged(cur, pend, alive)
    ensures (x.name, x.payload) in Contents(pend)
  {
    InMerged(cur, pend, alive, x);
    hide Merged, ItemNamed;
    if x in pend {
      InContents(pend, x);
    } else {
      var o := ItemNamed(pend, x.name);
      assert Gone(x, pend) ==> x.plat != null && x.plat in GoneOwners(cur, pend);
      assert ItemNamed(cur, o.name) == x;
      assert SafeChange(o, cur);
      if o.plat != null && x.plat != null {
        ChangedOwner(pend, cur, o);
      }
      InContents(pend, o);
    }
  }

  /** The transition of one kind of item leaves exactly the pending contents if and only if no pending
      item is owned by a deleted platform and no brand-new one by a surviving platform. */
  lemma ItemsExact(cur: seq<Item>, pend: seq<Item>, curPs: seq<Platform>, pendPs: seq<Platform>, alive: set<Platform>)
    requires Hot(cur, pend, curPs, pendPs, alive)
    ensures Contents(Merged(cur, pend, alive)) <= Contents(pend)
    ensures Contents(Merged(cur, pend, alive)) == Contents(pend) <==>
      NoOrphan(pend, curPs, pendPs) && NoNewcomer(pend, cur, alive)
  {
    var m := Merged(cur, pend, alive);
    forall k | 0 <= k < |m|
      ensures (m[k].name, m[k].payload) in Contents(pend)
    {
      OnlyPending(cur, pend, curPs, pendPs, alive, m[k]);
    }
    hide Merged, ItemNamed, Hot;
    forall k | 0 <= k < |pend|
      ensures (pend[k].name, pend[k].payload) in Contents(m) <==> Arrives(pend[k], cur, curPs, pendPs, alive)
    {
      if Arrives(pend[k], cur, curPs, pendPs, alive) {
        ArrivingItem(cur, pend, curPs, pendPs, alive, pend[k]);
      } else {
        LostItem(cur, pend, curPs, pendPs, alive, pend[k]);
      }
    }
    if Contents(m) == Contents(pend) {
      forall it | it in pend
        ensures Arrives(it, cur, curPs, pendPs, alive)
      {
        InContents(pend, it);
      }
    }
  }

  // ---------------------------------------------------------------- names and ownership

  /** The platform list of the running state after the transfer, and the one left in the pending state. */
  ghost function MergedPlatforms(cur: seq<Platform>, pend: seq<Platform>, alive: set<Platform>): seq<Platform> {
    SelectPlatforms(cur, alive) + SelectPlatforms(pend, NewPlatforms(pend, NamesOf(alive)))
  }

  ghost function LeftPlatforms(pend: seq<Platform>, alive: set<Platform>): seq<Platform> {
    SelectPlatforms(pend, OldPlatforms(pend, NamesOf(alive)))
  }

  lemma InMergedPlatforms(cur: seq<Platform>, pend: seq<Platform>, alive: set<Platform>, p: Platform)
    ensures p in MergedPlatforms(cur, pend, alive) <==>
      (p in cur && p in alive) || (p in pend && p.name !in NamesOf(alive))
    ensures p in LeftPlatforms(pend, alive) <==> p in pend && p.name in NamesOf(alive)
  {
    SelectPlatformsMembers(cur, alive);
    SelectPlatformsMembers(pend, NewPlatforms(pend, NamesOf(alive)));
    SelectPlatformsMembers(pend, OldPlatforms(pend, NamesOf(alive)));
    hide SelectPlatforms;
  }

  /** The running state ends with exactly the pending platform names, each once, when every survivor is
      still wanted. */
  lemma PlatformsExact(cur: seq<Platform>, pend: seq<Platform>, alive: set<Platform>)
    requires UniquePlatforms(cur) && UniquePlatforms(pend)
    requires forall p | p in alive :: p in cur && p.name in Names(pend)
    ensures Names(MergedPlatforms(cur, pend, alive)) == Names(pend)
    ensures UniquePlatforms(MergedPlatforms(cur, pend, alive))
  {
    var m := MergedPlatforms(cur, pend, alive);
    forall p | p in cur || p in pend
      ensures p in m <==> (p in cur && p in alive) || (p in pend && p.name !in NamesOf(alive))
    {
      InMergedPlatforms(cur, pend, alive, p);
    }
    forall k | 0 <= k < |m|
      ensures m[k] in cur || m[k] in pend
    {
      InMergedPlatforms(cur, pend, alive, m[k]);
    }
    hide MergedPlatforms;
    forall n | n in Names(pend)
      ensures n in Names(m)
    {
      var q :| q in pend && q.name == n;
      if n in NamesOf(alive) {
        var p :| p in alive && p.name == n;
        assert p in m;
      } else {
        assert q in m;
      }
    }
  }

  /** Every node ends in exactly one of the two states, and every item's platform ends in the state that
      holds the item: freeing the pending state afterwards cannot reach the running one. */
  lemma OwnershipSeparated(cur: seq<Item>, pend: seq<Item>, curPs: seq<Platform>, pendPs: seq<Platform>, alive: set<Platform>, it: Item)
    requires ClosedItems(cur, curPs) && ClosedItems(pend, pendPs) && UniquePlatforms(pendPs)
    requires (forall x | x in cur :: x !in pend) && (forall p | p in curPs :: p !in pendPs)
    requires forall p | p in alive :: p in curPs
    ensures var m, left := Merged(cur, pend, alive), Select(pend, Stay(NamesOf(alive)));
      && !(it in m && it in left)
      && (it in pend ==> it in m || it in left)
      && (it in m && it.plat != null ==> it.plat in MergedPlatforms(curPs, pendPs, alive))
      && (it in left && it.plat != null ==>
            it.plat in LeftPlatforms(pendPs, alive) && it.plat !in MergedPlatforms(curPs, pendPs, alive))
  {
    InMerged(cur, pend, alive, it);
    SelectMembers(pend, Stay(NamesOf(alive)));
    if it.plat != null {
      InMergedPlatforms(curPs, pendPs, alive, it.plat);
    }
    hide Merged, MergedPlatforms, Select, LeftPlatforms;
  }

  /** No current item without platform is owned by a platform that the update adds. */
  ghost predicate NoAdoption(cur: seq<Item>, curPs: seq<Platform>, pendPs: seq<Platform>) {
    forall it | it in cur && Owner(it.name) in Names(pendPs) :: Owner(it.name) in Names(curPs)
  }

  /** Item names stay unique if and only if no unowned item is adopted by an added platform; otherwise the
      running state keeps the item twice. */
  lemma NamesStayUnique(cur: seq<Item>, pend: seq<Item>, curPs: seq<Platform>, pendPs: seq<Platform>, alive: set<Platform>)
    requires Hot(cur, pend, curPs, pendPs, alive)
    requires forall x | x in cur :: x !in pend
    ensures UniqueItems(Merged(cur, pend, alive)) <==> NoAdoption(cur, curPs, pendPs)
  {
    var m := Merged(cur, pend, alive);
    forall x | x in cur || x in pend
      ensures x in m <==>
        || (x in cur && (x.plat == null || x.plat in alive))
        || (x in pend && x.plat != null && x.plat.name !in NamesOf(alive))
    {
      InMerged(cur, pend, alive, x);
    }
    forall k | 0 <= k < |m|
      ensures m[k] in cur || m[k] in pend
    {
      InMerged(cur, pend, alive, m[k]);
    }
    hide Merged, ItemNamed;
    forall it | it in cur && Owner(it.name) in Names(pendPs) && Owner(it.name) !in Names(curPs)
      ensures !UniqueItems(m)
    {
      Adopted(cur, pend, curPs, pendPs, alive, it);
      assert it in m && ItemNamed(pend, it.name) in m;
    }
  }

  lemma Adopted(cur: seq<Item>, pend: seq<Item>, curPs: seq<Platform>, pendPs: seq<Platform>, alive: set<Platform>, it: Item)
    requires Hot(cur, pend, curPs, pendPs, alive)
    requires it in cur && Owner(it.name) in Names(pendPs) && Owner(it.name) !in Names(curPs)
    ensures it.plat == null
    ensures var o := ItemNamed(pend, it.name); o != null && o.plat != null && o.plat.name !in NamesOf(alive)
  {
    OwnerListed(cur, curPs, it);
    assert !GoneBase(cur, pend) && !Gone(it, pend);
    hide ItemNamed;
  }

  /** ... and then the merged list is linked as a freshly parsed one would be. */
  lemma MergedIsLinked(cur: seq<Item>, pend: seq<Item>, curPs: seq<Platform>, pendPs: seq<Platform>, alive: set<Platform>)
    requires Hot(cur, pend, curPs, pendPs, alive) && UniquePlatforms(pendPs) && NoAdoption(cur, curPs, pendPs)
    ensures LinkedItems(Merged(cur, pend, alive), MergedPlatforms(curPs, pendPs, alive))
  {
    var m, ps := Merged(cur, pend, alive), MergedPlatforms(curPs, pendPs, alive);
    PlatformsExact(curPs, pendPs, alive);
    forall k | 0 <= k < |m|
      ensures if m[k].plat == null then Owner(m[k].name) !in Names(ps) else m[k].plat in ps && m[k].plat.name == Owner(m[k].name)
    {
      InMerged(cur, pend, alive, m[k]);
      if m[k].plat != null {
        InMergedPlatforms(curPs, pendPs, alive, m[k].plat);
      }
      hide Merged, MergedPlatforms, ItemNamed;
    }
    hide Merged, MergedPlatforms, Hot;
  }

  // ---------------------------------------------------------------- from the comparison to the transition

  /** When the comparison says APP, a survivor that was not stopped as updated is touched by nothing. */
  lemma SurvivorsAreHot(pend: State, cur: State, alive: set<Platform>)
    requires Parsed(pend) && Parsed(cur) && !Rebuilds(pend, cur)
    requires SafeChanges(pend.objects, cur.objects) && SafeChanges(pend.jsons, cur.jsons)
    requires forall x | x in Levels(pend, cur) :: x >= APP
    requires forall p | p in alive :: p in cur.platforms && !(p.runlevel == APP && p in Flagged(pend, cur))
    ensures Hot(cur.objects, pend.objects, cur.platforms, pend.platforms, alive)
    ensures Hot(cur.jsons, pend.jsons, cur.platforms, pend.platforms, alive)
    ensures forall p | p in alive :: p.name in Names(pend.platforms)
  {
    forall p | p in Flagged(pend, cur)
      ensures p.runlevel >= APP && p in cur.platforms
    {
      FlaggedIsApp(pend, cur, p);
    }
    assert forall p | p in alive :: p.runlevel <= APP;
    assert forall p | p in alive :: p !in Flagged(pend, cur);
    hide ItemNamed, PlatformNamed, ItemOwners, Levels;
  }

  lemma FlaggedIsApp(pend: State, cur: State, p: Platform)
    requires Parsed(pend) && Parsed(cur) && !Rebuilds(pend, cur) && p in Flagged(pend, cur)
    requires forall x | x in Levels(pend, cur) :: x >= APP
    ensures p.runlevel >= APP && p in cur.platforms
  {
    hide PlatformNamed, BaseTouched;
    if p in Deleted(pend.platforms, cur.platforms) {
      hide Parsed, ItemLevels, ItemOwners, LevelMoved;
      assert p.runlevel in DeletedLevels(pend.platforms, cur.platforms);
      assert p.runlevel in Levels(pend, cur);
    } else if p in ItemOwners(pend.objects, cur.objects) {
      OwnerLevel(pend.objects, cur.objects, pend.platforms, cur.platforms, p);
      hide Parsed, ItemLevels, ItemOwners, LevelMoved;
      assert p.runlevel in Levels(pend, cur);
    } else {
      OwnerLevel(pend.jsons, cur.jsons, pend.platforms, cur.platforms, p);
      hide Parsed, ItemLevels, ItemOwners, LevelMoved;
      assert p.runlevel in Levels(pend, cur);
    }
  }

  /** A platform marked for an item contributes its own runlevel to the result. */
  lemma OwnerLevel(pend: seq<Item>, cur: seq<Item>, pendPs: seq<Platform>, curPs: seq<Platform>, p: Platform)
    requires LinkedItems(pend, pendPs) && LinkedItems(cur, curPs) && UniquePlatforms(pendPs)
    requires !LevelMoved(pendPs, curPs) && p in ItemOwners(pend, cur)
    ensures p in curPs && p.runlevel in ItemLevels(pend, cur)
  {
    hide ItemNamed, PlatformNamed;
    if p in GoneOwners(cur, pend) {
      var it :| it in cur && Gone(it, pend) && it.plat == p;
      assert it.plat.runlevel in GoneLevels(cur, pend);
    } else {
      var it :| it in pend && Changed(it, cur) && it.plat != null && ItemNamed(cur, it.name) != null
                && ItemNamed(cur, it.name).plat == p;
      assert it.plat.runlevel in ChangedLevels(pend, cur);
      assert PlatformNamed(pendPs, p.name) == it.plat;
    }
  }
}
