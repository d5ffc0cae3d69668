/**
 The garbage collector (storage.c): remove every revision that is not protected, then every pool object
 that nothing links to. Objects are files; a revision holds hard links to them, so a pool object is in
 use exactly when its link count exceeds one.
 */
module GarbageCollector {
  import opened Wrappers
  import P = UpdateProtocol
  import S = UpdateSafety
  import R = UpdateRecovery
  import T = UpdateGuard

  type Inode = nat

  /** Paths of a revision with the files they link to. */
  type Trail = map<string, Inode>

  /** What the collector must not touch. */
  datatype Guard = Guard(running: Option<string>, pending: Option<string>, done: string, keepFactory: bool, ids: set<string>)

  predicate Reserved(name: string) {
    name == ".." || name == "." || name == "current" || name == "locals" || name == "locals/.." || name == "locals/."
  }

  predicate Protected(name: string, g: Guard) {
    || Reserved(name) || g.running == Some(name) || g.pending == Some(name) || name == g.done
    || (g.keepFactory && name == "0")
  }

  /** The names that the collector passes over: the directory itself, the links, and the revisions in use. */
  lemma ProtectedExactly(g: Guard)
    ensures forall r: string :: Protected(r, g) <==>
      r in {"..", ".", "current", "locals", "locals/..", "locals/."}
      || g.running == Some(r) || g.pending == Some(r) || r == g.done || (g.keepFactory && r == "0")
  {
  }

  function Links(trails: map<string, Trail>, ino: Inode): set<(string, string)> {
    set r, p | r in trails && p in trails[r] && trails[r][p] == ino :: (r, p)
  }

  function PoolNames(pool: map<string, Inode>, ino: Inode): set<string> { set o | o in pool && pool[o] == ino }

  /** st_nlink */
  function LinkCount(trails: map<string, Trail>, pool: map<string, Inode>, ino: Inode): nat {
    |Links(trails, ino)| + |PoolNames(pool, ino)|
  }

  /** Some revision that satisfies keep links to the object. */
  predicate LinkedFrom(trails: map<string, Trail>, ino: Inode) {
    exists r, p :: r in trails && p in trails[r] && trails[r][p] == ino
  }

  function Kept(trails: map<string, Trail>, g: Guard): map<string, Trail> {
    map r | r in trails && Protected(r, g) :: trails[r]
  }

  /** The pool objects that must survive, given the revisions that stay. */
  predicate Wanted(o: string, ino: Inode, kept: map<string, Trail>, g: Guard) {
    o == ".." || o == "." || LinkedFrom(kept, ino) || o in g.ids
  }

  /** Distinct pool objects are distinct files. */
  predicate Injective(pool: map<string, Inode>) {
    forall a, b | a in pool && b in pool && pool[a] == pool[b] :: a == b
  }

  /** The test the collector makes is the question it should ask. */
  lemma LinkCountTells(trails: map<string, Trail>, pool: map<string, Inode>, o: string)
    requires Injective(pool) && o in pool
    ensures LinkCount(trails, pool, pool[o]) > 1 <==> LinkedFrom(trails, pool[o])
  {
    assert PoolNames(pool, pool[o]) == {o};
    if LinkedFrom(trails, pool[o]) {
      var r, p :| r in trails && p in trails[r] && trails[r][p] == pool[o];
      assert (r, p) in Links(trails, pool[o]);
    } else {
      assert Links(trails, pool[o]) == {};
    }
  }

  /** Every object of a revision is hard-linked to its pool file. */
  predicate Complete(t: Trail, objects: seq<(string, string)>, pool: map<string, Inode>) {
    forall k | 0 <= k < |objects| :: Linked(t, objects[k], pool)
  }

  predicate Linked(t: Trail, o: (string, string), pool: map<string, Inode>) {
    o.0 in t && o.1 in pool && t[o.0] == pool[o.1]
  }

  /** An installed revision that stays protected never loses an object, whatever is removed with it. */
  lemma InstalledSurvives(trails: map<string, Trail>, pool: map<string, Inode>, g: Guard, rev: string, objects: seq<(string, string)>)
    requires rev in trails && Protected(rev, g) && Complete(trails[rev], objects, pool)
    ensures var kept := Kept(trails, g);
      var pool' := map o | o in pool && Wanted(o, pool[o], kept, g) :: pool[o];
      rev in kept && Complete(kept[rev], objects, pool')
  {
    var kept := Kept(trails, g);
    forall k | 0 <= k < |objects|
      ensures Wanted(objects[k].1, pool[objects[k].1], kept, g)
    {
      assert Linked(trails[rev], objects[k], pool);
      assert objects[k].0 in kept[rev] && kept[rev][objects[k].0] == pool[objects[k].1];
    }
  }

  class Storage {
    var trails: map<string, Trail>
    var pool: map<string, Inode>

    /** Nothing the guard protects has been lost, and nothing has been made up. */
    twostate predicate Safe(g: Guard)
      reads this
    {
      && trails.Keys <= old(trails).Keys && pool.Keys <= old(pool).Keys
      && (forall r | r in trails :: trails[r] == old(trails)[r])
      && (forall o | o in pool :: pool[o] == old(pool)[o])
      && (forall r | r in old(trails) && Protected(r, g) :: r in trails)
      && (forall o | o in old(pool) && Wanted(o, old(pool)[o], Kept(old(trails), g), g) :: o in pool)
    }

    /** trail_link_objects: hard-link the objects (path, id) of a revision. An object missing from the pool is
        an error; a path that exists already is left as it is, so the links are right exactly when those that
        were there were. */
    method LinkObjects(rev: string, objects: seq<(string, string)>) returns (ok: bool)
      requires forall i, j | 0 <= i < j < |objects| :: objects[i].0 != objects[j].0
      modifies this`trails
      ensures rev in trails && trails - {rev} == old(trails) - {rev}
      ensures ok <==> forall i | 0 <= i < |objects| :: objects[i].1 in pool
      ensures var before := if rev in old(trails) then old(trails)[rev] else map[];
        && (forall p | p in before :: p in trails[rev] && trails[rev][p] == before[p])
        && (ok ==> forall k | 0 <= k < |objects| && objects[k].0 !in before :: Linked(trails[rev], objects[k], pool))
        && (ok ==> (Complete(trails[rev], objects, pool) <==>
                    forall k | 0 <= k < |objects| && objects[k].0 in before :: Linked(before, objects[k], pool)))
    {
      ghost var before: Trail := if rev in trails then trails[rev] else map[];
      if rev !in trails {
        trails := trails[rev := map[]];
      }
      assert trails - {rev} == old(trails) - {rev};
      for i := 0 to |objects|
        invariant rev in trails && trails - {rev} == old(trails) - {rev}
        invariant forall k | 0 <= k < i :: objects[k].1 in pool
        invariant forall p | p in before :: p in trails[rev] && trails[rev][p] == before[p]
        invariant forall k | 0 <= k < i && objects[k].0 !in before :: Linked(trails[rev], objects[k], pool)
        invariant forall p | p in trails[rev] :: p in before || exists k :: 0 <= k < i && objects[k].0 == p
      {
        var (path, id) := objects[i];
        if id !in pool {
          return false;
        }
        if path in trails[rev] {
          continue;
        }
        trails := trails[rev := trails[rev][path := pool[id]]];
        assert trails - {rev} == old(trails) - {rev};
      }
      assert forall k | 0 <= k < |objects| && objects[k].0 in before ::
        Linked(trails[rev], objects[k], pool) <==> Linked(before, objects[k], pool);
      ok := true;
    }

    /** pv_storage_rm_rev */
    method RemoveRevision(r: string)
      modifies this`trails
      ensures trails == old(trails) - {r}
    {
      trails := trails - {r};
    }

    /** pv_storage_gc_run: the loop over revisions. `power` is how many removals happen before the device
        loses power. */
    method CollectRevisions(listing: seq<string>, g: Guard, power: nat) returns (left: nat, finished: bool)
      requires forall r | r in trails :: r in listing
      modifies this`trails
      ensures Safe(g) && left <= power
      ensures finished ==> trails == Kept(old(trails), g)
      // it finishes exactly when the power lasts for every name that is not kept, and else goes as far as it can
      ensures var u := Unneeded(listing, g);
        && (finished <==> |u| <= power) && left == (if finished then power - |u| else 0)
        && trails == old(trails) - Elems(u[..if finished then |u| else power])
      // that is: whatever the power, these stay, and when the loop finishes nothing else does
      ensures forall r: string | r in old(trails) && (r in {"..", ".", "current", "locals", "locals/..", "locals/."}
        || g.running == Some(r) || g.pending == Some(r) || r == g.done || (g.keepFactory && r == "0")) :: r in trails
      ensures finished ==> forall r: string | r in trails ::
        || r in {"..", ".", "current", "locals", "locals/..", "locals/."}
        || g.running == Some(r) || g.pending == Some(r) || r == g.done || (g.keepFactory && r == "0")
    {
      ghost var trails0, u := trails, Unneeded(listing, g);
      left, finished := RemoveUnneeded(listing, g, power);
      CollectedAll(trails0, listing, g);
      CollectedSome(trails0, listing, g, if finished then |u| else power);
      ProtectedExactly(g);
      assert u[..|u|] == u;
      hide Unneeded, Elems, Protected, Reserved;
    }

    /** The loop over the listing: the names that are not kept go in order, while the power lasts. */
    method RemoveUnneeded(listing: seq<string>, g: Guard, power: nat) returns (left: nat, finished: bool)
      modifies this`trails
      ensures var u := Unneeded(listing, g);
        && (finished <==> |u| <= power) && left == (if finished then power - |u| else 0)
        && trails == old(trails) - Elems(u[..if finished then |u| else power])
    {
      left := power;
      ghost var trails0, u := trails, Unneeded(listing, g);
      assert trails == trails - Elems([]) && Unneeded(listing[..0], g) == [];
      hide Unneeded, Elems, Protected;
      for i := 0 to |listing|
        invariant Unneeded(listing[..i], g) <= u
        invariant trails == trails0 - Elems(Unneeded(listing[..i], g)) && left == power - |Unneeded(listing[..i], g)|
      {
        var r := listing[i];
        UnneededMore(listing, i, g);
        if Protected(r, g) {
          continue;
        }
        if left == 0 {
          return 0, false;
        }
        RemoveRevision(r);
        left := left - 1;
      }
      assert listing[..|listing|] == listing && u[..|u|] == u;
      finished := true;
    }

    /** pv_storage_gc_objects; `size` is the size of a file. */
    method CollectObjects(listing: seq<string>, g: Guard, power: nat, size: Inode -> nat)
      returns (reclaimed: nat, ghost removed: seq<string>, finished: bool)
      requires Injective(pool) && trails == Kept(trails, g) && forall o | o in pool :: o in listing
      modifies this`pool
      ensures Safe(g)
      ensures finished ==> pool == map o | o in old(pool) && Wanted(o, old(pool)[o], trails, g) :: old(pool)[o]
      ensures (forall k | 0 <= k < |removed| :: removed[k] in old(pool))
      ensures pool == old(pool) - Elems(removed) && Distinct(removed)
      ensures reclaimed == Total(removed, old(pool), size)
      ensures |removed| <= power && (!finished ==> |removed| == power)
    {
      reclaimed, removed, finished := 0, [], true;
      ghost var pool0 := pool;
      var left := power;
      assert pool == pool - Elems([]);
      assert Useless([], pool, trails, g) && Distinct<string>([]);
      hide LinkCount, LinkedFrom, Wanted, Injective, Useless, Elems, Total, Done, Distinct;
      for i := 0 to |listing|
        invariant pool == pool0 - Elems(removed) && Injective(pool) && Useless(removed, pool0, trails, g) && Distinct(removed)
        invariant reclaimed == Total(removed, pool0, size) && Done(listing[..i], pool, trails, g)
        invariant left == power - |removed| && finished
      {
        var o := listing[i];
        DoneMore(listing, i, o, pool, trails, g);
        if o == ".." || o == "." || o !in pool {
          continue;
        }
        if LinkCount(trails, pool, pool[o]) > 1 || o in g.ids {
          continue;
        }
        if left == 0 {
          finished := false;
          Left(removed, pool0, trails, g);
          return;
        }
        left := left - 1;
        Removed(removed, o, pool0, trails, g, size);
        StillDistinct(removed, o, pool0);
        reclaimed := reclaimed + size(pool[o]);
        removed := removed + [o];
        pool := pool - {o};
      }
      assert listing[..|listing|] == listing;
      Left(removed, pool0, trails, g);
      AllDone(listing, removed, pool0, trails, g);
    }

    /** pv_storage_gc_run: exactly the protected revisions stay, and exactly the objects they link to or
        the pending update needs; cut anywhere, nothing of that is lost. */
    method Run(revisions: seq<string>, objects: seq<string>, g: Guard, power: nat, size: Inode -> nat)
      returns (reclaimed: nat, finished: bool, ghost removed: seq<string>)
      requires Injective(pool)
      requires (forall r | r in trails :: r in revisions) && (forall o | o in pool :: o in objects)
      modifies this
      ensures Safe(g)
      ensures finished ==>
        && trails == Kept(old(trails), g)
        && pool == map o | o in old(pool) && Wanted(o, old(pool)[o], Kept(old(trails), g), g) :: old(pool)[o]
      // that is: of the revisions these stay, whatever the power
      ensures forall r: string | r in old(trails) && (r in {"..", ".", "current", "locals", "locals/..", "locals/."}
        || g.running == Some(r) || g.pending == Some(r) || r == g.done || (g.keepFactory && r == "0")) :: r in trails && trails[r] == old(trails)[r]
      ensures finished ==> forall r: string | r in trails ::
        || r in {"..", ".", "current", "locals", "locals/..", "locals/."}
        || g.running == Some(r) || g.pending == Some(r) || r == g.done || (g.keepFactory && r == "0")
      // and of the objects those that a revision that stays links to, or the pending update needs
      ensures finished ==> forall o: string :: o in pool <==>
        o in old(pool) && (o in {"..", "."} || o in g.ids || LinkedFrom(trails, old(pool)[o]))
      // it ends early only when the power does
      ensures !finished ==> power <= |Unneeded(revisions, g)| + |removed|
      // and what is reported are the sizes of the objects that are gone
      ensures Distinct(removed) && (forall k | 0 <= k < |removed| :: removed[k] in old(pool))
      ensures pool == old(pool) - Elems(removed) && reclaimed == Total(removed, old(pool), size)
    {
      reclaimed, removed := 0, [];
      assert pool == pool - Elems([]);
      ProtectedExactly(g);
      ghost var trails0 := trails;
      var left;
      left, finished := CollectRevisions(revisions, g, power);
      if finished {
        assert Kept(trails, g) == trails;
        reclaimed, removed, finished := CollectObjects(objects, g, left, size);
      }
    }
  }

  function Total(os: seq<string>, pool: map<string, Inode>, size: Inode -> nat): nat
    requires forall k | 0 <= k < |os| :: os[k] in pool
  {
    if os == [] then 0 else Total(os[..|os| - 1], pool, size) + size(pool[os[|os| - 1]])
  }

  function Elems(s: seq<string>): set<string> { set o | o in s }

  /** The names of a listing that the collector does not pass over, in order. */
  function Unneeded(listing: seq<string>, g: Guard): seq<string> {
    if listing == [] then []
    else Unneeded(listing[..|listing| - 1], g) + if Protected(listing[|listing| - 1], g) then [] else [listing[|listing| - 1]]
  }

  lemma UnneededMore(listing: seq<string>, i: nat, g: Guard)
    requires i < |listing|
    ensures var u, u' := Unneeded(listing[..i], g), Unneeded(listing[..i + 1], g);
      && u' == (if Protected(listing[i], g) then u else u + [listing[i]])
      && Elems(u') == Elems(u) + (if Protected(listing[i], g) then {} else {listing[i]})
      && u' <= Unneeded(listing, g)
  {
    assert listing[..i + 1][..i] == listing[..i];
    UnneededPrefix(listing, i + 1, g);
    hide Protected;
  }

  lemma {:induction false} UnneededAre(listing: seq<string>, g: Guard)
    ensures forall r: string :: r in Unneeded(listing, g) <==> r in listing && !Protected(r, g)
  {
    hide Protected;
    if listing == [] {
    } else {
      UnneededAre(listing[..|listing| - 1], g);
      assert listing == listing[..|listing| - 1] + [listing[|listing| - 1]];
    }
  }

  /** With the first n of them removed, whatever n, nothing protected is lost. */
  lemma CollectedSome(trails: map<string, Trail>, listing: seq<string>, g: Guard, n: nat)
    requires n <= |Unneeded(listing, g)|
    ensures var t := trails - Elems(Unneeded(listing, g)[..n]);
      && t.Keys <= trails.Keys && (forall r | r in t :: t[r] == trails[r])
      && forall r | r in trails && Protected(r, g) :: r in t
  {
    UnneededAre(listing, g);
    hide Protected, Unneeded;
  }

  /** With all of them removed nothing else is left. */
  lemma CollectedAll(trails: map<string, Trail>, listing: seq<string>, g: Guard)
    requires forall r | r in trails :: r in listing
    ensures trails - Elems(Unneeded(listing, g)) == Kept(trails, g)
  {
    UnneededAre(listing, g);
    hide Protected, Unneeded;
  }

  lemma {:induction false} UnneededPrefix(listing: seq<string>, i: nat, g: Guard)
    requires i <= |listing|
    ensures Unneeded(listing[..i], g) <= Unneeded(listing, g)
  {
    hide Protected;
    if i == |listing| {
      assert listing[..i] == listing;
    } else {
      UnneededPrefix(listing[..|listing| - 1], i, g);
      assert listing[..|listing| - 1][..i] == listing[..i];
    }
  }

  /** Nothing wanted is among the objects os. */
  ghost predicate Useless(os: seq<string>, pool: map<string, Inode>, kept: map<string, Trail>, g: Guard) {
    forall k | 0 <= k < |os| :: os[k] in pool && !Wanted(os[k], pool[os[k]], kept, g)
  }

  /** What is left of the objects os is wanted. */
  ghost predicate Done(os: seq<string>, pool: map<string, Inode>, kept: map<string, Trail>, g: Guard) {
    forall k | 0 <= k < |os| && os[k] in pool :: Wanted(os[k], pool[os[k]], kept, g)
  }

  /** The tests of the collector tell whether an object is wanted; if it is not, it is removed. */
  lemma DoneMore(listing: seq<string>, i: nat, o: string, pool: map<string, Inode>, kept: map<string, Trail>, g: Guard)
    requires i < |listing| && o == listing[i] && Done(listing[..i], pool, kept, g) && Injective(pool)
    ensures o in pool ==>
      (Wanted(o, pool[o], kept, g) <==> o == ".." || o == "." || LinkCount(kept, pool, pool[o]) > 1 || o in g.ids)
    ensures (o in pool ==> Wanted(o, pool[o], kept, g)) ==> Done(listing[..i + 1], pool, kept, g)
    ensures Done(listing[..i + 1], pool - {o}, kept, g) && Injective(pool - {o})
  {
    if o in pool {
      LinkCountTells(kept, pool, o);
    }
    assert forall k | 0 <= k < i :: listing[..i + 1][k] == listing[..i][k];
    hide LinkCount, LinkedFrom;
  }

  /** One more object removed. */
  lemma Removed(os: seq<string>, o: string, pool: map<string, Inode>, kept: map<string, Trail>, g: Guard, size: Inode -> nat)
    requires Useless(os, pool, kept, g) && o in pool && !Wanted(o, pool[o], kept, g)
    ensures Total(os + [o], pool, size) == Total(os, pool, size) + size(pool[o])
    ensures Useless(os + [o], pool, kept, g) && pool - Elems(os + [o]) == pool - Elems(os) - {o}
  {
    assert (os + [o])[..|os + [o]| - 1] == os;
    assert Elems(os + [o]) == Elems(os) + {o};
    hide Wanted;
  }

  lemma StillDistinct(os: seq<string>, o: string, pool: map<string, Inode>)
    requires Distinct(os) && o in pool - Elems(os)
    ensures Distinct(os + [o])
  {
  }

  lemma Left(os: seq<string>, pool: map<string, Inode>, kept: map<string, Trail>, g: Guard)
    requires Useless(os, pool, kept, g)
    ensures forall o | o in pool && Wanted(o, pool[o], kept, g) :: o in pool - Elems(os)
  {
    hide Wanted;
  }

  lemma AllDone(listing: seq<string>, os: seq<string>, pool: map<string, Inode>, kept: map<string, Trail>, g: Guard)
    requires Useless(os, pool, kept, g) && Done(listing, pool - Elems(os), kept, g) && forall o | o in pool :: o in listing
    ensures pool - Elems(os) == map o | o in pool && Wanted(o, pool[o], kept, g) :: pool[o]
  {
    Left(os, pool, kept, g);
    hide Wanted;
  }

  /** Collecting again finds nothing: the result is a fixed point. */
  lemma CollectionIsStable(trails: map<string, Trail>, pool: map<string, Inode>, g: Guard)
    ensures var t := Kept(trails, g);
      var p := map o | o in pool && Wanted(o, pool[o], t, g) :: pool[o];
      && Kept(t, g) == t && (map o | o in p && Wanted(o, p[o], Kept(t, g), g) :: p[o]) == p
  {
    assert Kept(Kept(trails, g), g) == Kept(trails, g);
  }

  // ---------------------------------------------------------------- the collector in the update protocol

  /** The guard of a collection in the middle of a session. */
  function GuardOf(v: P.Vol, keepFactory: bool, ids: set<string>): Guard {
    Guard(v.state, if v.update.Some? then v.update.value.pending else None, v.done, keepFactory, ids)
  }

  /** In every run, until the controller is on its way to a reboot, the revision that a boot without pv_try runs
      is protected if and only if one of these holds: a pv_rev is stored and no commit has failed in this
      session; none is stored and the session was booted as the factory revision; it is the one whose platforms
      run, or the pending one; or its name or the configuration keeps it. */
  lemma RollbackPointIsProtected(ss: seq<P.Sys>, es: seq<P.Event>, limit: int, n: nat, keepFactory: bool, ids: set<string>)
    requires P.IsRun(ss, es, limit) && n <= |es| && ss[n].On? && !S.Doomed(ss[n].v.ctl)
    ensures var env, u, g := ss[n].env, ss[n].v.update, GuardOf(ss[n].v, keepFactory, ids); var r := P.Booted(env, false);
      Protected(r, g) <==>
        || (if env.rev.Some? then !R.Ahead(ss, es, n) else R.BootedAs(ss, es, n, "0"))
        || T.Serves(ss, es, limit, n, r) || (u.Some? && u.value.pending == Some(r)) || (keepFactory && r == "0")
        || r in {"..", ".", "current", "locals", "locals/..", "locals/."}
  {
    var r, v := P.Booted(ss[n].env, false), ss[n].v;
    S.InvHolds(ss, es, limit, n);
    R.RollbackPointIsStored(ss, es, limit, n);
    R.BootIsKnown(ss, es, limit, n, r);
    hide P.IsRun, R.Ahead, R.BootedAs;
    if v.ctl == P.INIT || (v.ctl == P.RUN && v.update.None?) {
      T.SubjectIsAim(ss, es, limit, n, r);
      hide T.Aims;
    } else {
      T.RunningIsServed(ss, es, limit, n, r);
      hide T.Serves;
    }
  }

  /** On a device that never stored pv_rev the first trial is such a case: with the default configuration the
      collector may remove the factory revision, which a failed trial would need. */
  lemma FactoryIsUnprotected(i0: P.Inputs, i1: P.Inputs, limit: int, ids: set<string>) returns (ss: seq<P.Sys>, es: seq<P.Event>)
    requires i0.initOk && S.PassedRun(i1)
    ensures |ss| == |es| + 1 && P.IsRun(ss, es, limit) && ss[0] == P.Off(P.Env(None, Some("5")))
    ensures var s := ss[|es|];
      && s.On? && s.v.ctl == P.WAIT && S.Has(s.v, P.Try)
      && P.Booted(s.env, false) == "0" && !Protected("0", GuardOf(s.v, false, ids))
  {
    ss, es := R.TrialBegins(P.Env(None, Some("5")), i0, i1, limit);
    hide P.IsRun;
  }

  /** A commit whose first write is lost is another one, on a device that has stored its revision: the collector
      may remove revision 1, which every boot that follows runs. */
  lemma LostCommitIsUnprotected(i0: P.Inputs, i1: P.Inputs, i2: P.Inputs, i3: P.Inputs, limit: int, keepFactory: bool, ids: set<string>)
    returns (ss: seq<P.Sys>, es: seq<P.Event>)
    requires i0.initOk && S.PassedRun(i1) && !i1.remoteMode && !i2.exited && !i2.commitFin && i2.cmd.None?
    requires !i3.exited && i3.commitFin && i3.cmd.None? && i3.write1.Lost? && i3.write2.Stored?
    ensures |ss| == |es| + 1 && P.IsRun(ss, es, limit) && ss[0] == P.Off(P.Env(Some("1"), Some("2")))
    ensures var s := ss[|es|];
      s.On? && s.v.ctl == P.WAIT && (forall p :: P.Booted(s.env, p) == "1") && !Protected("1", GuardOf(s.v, keepFactory, ids))
  {
    ss, es := R.FailedCommitRunsAhead(i0, i1, i2, i3, limit);
    hide P.IsRun, P.Booted;
  }

  /** In every run, wherever the collector may run, the stored pv_try, which a boot may prefer, is protected if
      and only if one of these holds: the last boot or installation of the session did not miss it; it is what
      the session falls back to, or the pending one; or its name or the configuration keeps it. */
  lemma TryIsProtected(ss: seq<P.Sys>, es: seq<P.Event>, limit: int, n: nat, keepFactory: bool, ids: set<string>)
    requires P.IsRun(ss, es, limit) && n <= |es| && ss[n].On? && T.Working(ss[n].v.ctl) && T.Named(ss[n].env.tryRev)
    ensures var r, u, g := ss[n].env.tryRev.value, ss[n].v.update, GuardOf(ss[n].v, keepFactory, ids);
      Protected(r, g) <==>
        || !T.Stale(ss, es, limit, n) || R.FallsBackTo(ss, es, n, r)
        || (u.Some? && u.value.pending == Some(r)) || (keepFactory && r == "0")
        || r in {"..", ".", "current", "locals", "locals/..", "locals/."}
  {
    T.TryIsHeld(ss, es, limit, n);
    R.RollbackPointIs(ss, es, limit, n, ss[n].env.tryRev.value);
    hide P.IsRun, T.Stale, R.FallsBackTo;
  }

  /** A fall-back whose removal of pv_try is refused or lost leaves it unprotected. */
  lemma TryIsUnprotected(i0: P.Inputs, i1: P.Inputs, i2: P.Inputs, limit: int, keepFactory: bool, ids: set<string>)
    returns (ss: seq<P.Sys>, es: seq<P.Event>)
    requires i0.initOk && S.PassedRun(i1) && !i1.remoteMode && !i2.exited && !i2.write1.Stored? && i2.cmd.None?
    ensures |ss| == |es| + 1 && P.IsRun(ss, es, limit) && ss[|es|].On? && ss[|es|].v.ctl == P.WAIT
    ensures ss[|es|].env.tryRev == Some("2") && !Protected("2", GuardOf(ss[|es|].v, keepFactory, ids))
  {
    ss, es := T.TryIsLeftOver(i0, i1, i2, limit);
    hide P.IsRun;
  }
}
