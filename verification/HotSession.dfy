/**
 One boot session of the containers: mount and start from scratch (_pv_run after a reboot), then any
 number of hot updates, each into a state that the one before left behind.
 */
module HotSession {
  import opened Wrappers
  import opened States
  import opened Compare
  import opened Transition
  import opened Containers
  import opened HotUpdate

  /** The nodes for which the system or the container runtime fails during one step. */
  datatype Faults = Faults(unmount: set<Item>, mount: set<Item>, start: set<Platform>)

  /** A parsed state that has not been touched yet. */
  ghost predicate Waits(s: State, l: Lists)
    reads s, s.platforms
  {
    ListsOf(s) == l && ParsedLists(l) && Unstarted(s.platforms) && Unmarked(s.platforms)
  }

  /** Two sets of lists with no node in common. */
  ghost predicate ApartLists(a: Lists, b: Lists) {
    && (forall p | p in a.ps :: p !in b.ps) && (forall x | x in a.objects :: x !in b.objects)
    && (forall x | x in a.jsons :: x !in b.jsons) && (forall x | x in a.volumes :: x !in b.volumes)
  }

  /** A name prefix that is a platform in the next revision and is used in this one is a platform here too. */
  ghost predicate Settled(a: Lists, b: Lists) { SettledItems(a.objects, a.ps, b.ps) && SettledItems(a.jsons, a.ps, b.ps) }

  ghost predicate SettledItems(items: seq<Item>, ps: seq<Platform>, next: seq<Platform>) {
    forall it | it in items && Owner(it.name) in Names(next) :: Owner(it.name) in Names(ps)
  }

  /** What the lists of the running state keep of the revision they stand for. */
  ghost predicate StandsFor(c: Lists, l: Lists) {
    Names(c.ps) == Names(l.ps) && Contents(c.objects) <= Contents(l.objects) && Contents(c.jsons) <= Contents(l.jsons)
  }

  lemma NamesOfContents(cur: seq<Item>, items: seq<Item>, c: Item) returns (it: Item)
    requires Contents(cur) <= Contents(items) && c in cur
    ensures it in items && it.name == c.name
  {
    InContents(cur, c);
    assert (c.name, c.payload) in Contents(items);
    it :| it in items && (it.name, it.payload) == (c.name, c.payload);
  }

  /** Then the next update adopts nothing and changes nothing unsafely. */
  lemma NextItems(cur: seq<Item>, now: seq<Item>, next: seq<Item>, curPs: seq<Platform>, nowPs: seq<Platform>, nextPs: seq<Platform>)
    requires SettledItems(now, nowPs, nextPs) && Names(curPs) == Names(nowPs) && Contents(cur) <= Contents(now)
    requires LinkedItems(next, nextPs) && LinkedItems(cur, curPs) && UniqueItems(cur)
    ensures NoAdoption(cur, curPs, nextPs) && SafeChanges(next, cur)
  {
    hide Owner, Contents, Names, SafeChanges;
    forall c | c in cur && Owner(c.name) in Names(nextPs)
      ensures Owner(c.name) in Names(curPs)
    {
      var it := NamesOfContents(cur, now, c);
    }
    SafeExactly(next, cur, nextPs, curPs);
  }

  lemma TakenApart(l: Lists, c: Lists, p: Lists, alive: set<Platform>)
    requires ApartLists(l, c) && ApartLists(l, p)
    ensures ApartLists(l, Taken(c, p, alive))
  {
    var t := Taken(c, p, alive);
    ItemsOfEither(c.objects, p.objects, alive);
    ItemsOfEither(c.jsons, p.jsons, alive);
    ItemsOfEither(c.volumes, p.volumes, alive);
    PlatformsOfEither(c.ps, p.ps, alive);
    hide Merged, MergedPlatforms;
  }

  ghost predicate Within(l: Lists, ps: set<Platform>, vs: set<Item>) {
    (forall p | p in l.ps :: p in ps) && (forall v | v in l.volumes :: v in vs)
  }

  lemma TakenWithin(c: Lists, p: Lists, alive: set<Platform>, ps: set<Platform>, vs: set<Item>)
    requires Within(c, ps, vs) && Within(p, ps, vs)
    ensures Within(Taken(c, p, alive), ps, vs)
  {
    ItemsOfEither(c.volumes, p.volumes, alive);
    PlatformsOfEither(c.ps, p.ps, alive);
    hide Merged, MergedPlatforms;
  }

  lemma PlatformsOfEither(cur: seq<Platform>, pend: seq<Platform>, alive: set<Platform>)
    ensures forall k | 0 <= k < |MergedPlatforms(cur, pend, alive)| ::
      MergedPlatforms(cur, pend, alive)[k] in cur || MergedPlatforms(cur, pend, alive)[k] in pend
  {
    var m := MergedPlatforms(cur, pend, alive);
    forall k | 0 <= k < |m|
      ensures m[k] in cur || m[k] in pend
    {
      InMergedPlatforms(cur, pend, alive, m[k]);
    }
  }

  lemma ItemsOfEither(cur: seq<Item>, pend: seq<Item>, alive: set<Platform>)
    ensures forall k | 0 <= k < |Merged(cur, pend, alive)| :: Merged(cur, pend, alive)[k] in cur || Merged(cur, pend, alive)[k] in pend
  {
    var m := Merged(cur, pend, alive);
    forall k | 0 <= k < |m|
      ensures m[k] in cur || m[k] in pend
    {
      InMerged(cur, pend, alive, m[k]);
    }
  }

  lemma Ready(c: Lists, now: Lists, pending: State, running: State)
    requires c == ListsOf(running) && ParsedLists(c) && Parsed(pending)
    requires Settled(now, ListsOf(pending)) && StandsFor(c, now)
    ensures Parsed(running) && Comparable(pending, running) && AdoptsNothing(c, ListsOf(pending))
  {
    var p := ListsOf(pending);
    NextItems(c.objects, now.objects, p.objects, c.ps, now.ps, p.ps);
    NextItems(c.jsons, now.jsons, p.jsons, c.ps, now.ps, p.ps);
    hide SafeChanges, NoAdoption, SettledItems, Contents;
    SafeIsComparable(pending, running);
  }

  /** Mount and start of _pv_run after a reboot. */
  method Boot(state: State, f: Faults) returns (ok: bool)
    requires ParsedLists(ListsOf(state)) && Unstarted(state.platforms)
    modifies state.platforms`status, state.volumes`mounted
    ensures Served(state.platforms, state.volumes)
    ensures ok ==> forall q | q in state.platforms && q.runlevel != DATA :: q.status == Started
    ensures !ok ==> (exists v :: v in state.volumes && v in f.mount) || (exists q :: q in state.platforms && q in f.start)
    ensures forall q | q in state.platforms && q.runlevel == DATA :: q.status == old(q.status)
  {
    ok := BringUp(state, DATA, f.mount, f.start);
  }

  /** One link of a session: the running lists after an update, and how exact they are. */
  ghost predicate Follows(c: Lists, p: Lists, alive: set<Platform>, t: Lists) {
    t == Taken(c, p, alive) && Exact(c, p, alive) && ParsedLists(t) && StandsFor(t, p)
  }

  /** One hot update of a session, into a state that settles on the one before. */
  method UpdateNext(running: State, pending: State, f: Faults, ghost now: Lists) returns (outcome: Outcome)
    requires ParsedLists(ListsOf(running)) && Unmarked(running.platforms) && Served(running.platforms, running.volumes)
    requires Waits(pending, ListsOf(pending)) && Apart(pending, running)
    requires Settled(now, ListsOf(pending)) && StandsFor(ListsOf(running), now)
    modifies running, pending, running.platforms, running.volumes, pending.platforms, pending.volumes
    ensures Served(running.platforms, running.volumes)
    ensures forall p | p in old(Survivors(pending, running)) :: p.status == Started
    ensures outcome == NeedsReboot <==> old(CutsDeep(pending, running))
    ensures outcome == RollsBack ==> Faulty(old(ListsOf(running)), old(ListsOf(pending)), f.unmount, f.mount, f.start)
    ensures outcome == NeedsReboot ==> ListsOf(running) == old(ListsOf(running)) && CutsDeep(pending, running)
    ensures outcome == Running ==>
      && Follows(old(ListsOf(running)), old(ListsOf(pending)), old(Survivors(pending, running)), ListsOf(running))
      && Unmarked(running.platforms)
  {
    ghost var c, p, alive := ListsOf(running), ListsOf(pending), Survivors(pending, running);
    ParsedMeans(pending);
    Ready(c, now, pending, running);
    UnmarkedMeans(running.platforms);
    UnmarkedMeans(pending.platforms);
    ExactStands(c, p, alive);
    hide ParsedLists, Parsed, Unmarked, Served, Settled, StandsFor, Unstarted, AdoptsNothing, Comparable, CutsDeep;
    hide Exact, Taken, Separate, Survivors, Faulty;
    outcome := Update(pending, running, f.unmount, f.mount, f.start);
    ParsedMeans(running);
    UnmarkedMeans(running.platforms);
  }

  lemma ExactStands(c: Lists, p: Lists, alive: set<Platform>)
    ensures Exact(c, p, alive) ==> StandsFor(Taken(c, p, alive), p)
  {
    hide Taken;
  }

  // ---------------------------------------------------------------- a whole session

  /** The states of a session: ls[0] are the lists that are booted, ls[j + 1] those of the j-th update. They are
      parsed, have no node in common, and each settles on the one before; ps and vs are their platforms and
      volumes. */
  ghost predicate Lined(running: State, pendings: seq<State>, ls: seq<Lists>, ps: set<Platform>, vs: set<Item>) {
    && |ls| == |pendings| + 1 && Distinct(pendings) && running !in pendings
    && (forall j, k | 0 <= j < k < |ls| :: ApartLists(ls[k], ls[j]))
    && (forall j | 0 <= j < |pendings| :: Settled(ls[j], ls[j + 1]))
    && (forall j | 0 <= j < |ls| :: Within(ls[j], ps, vs) && ParsedLists(ls[j]))
  }

  function Far(ls: seq<Lists>, k: nat): set<Platform> { set j, q | k <= j < |ls| && q in ls[j].ps :: q }

  function Others(pendings: seq<State>, k: nat): set<State> { set j | k <= j < |pendings| :: pendings[j] }

  predicate NoFaults(f: Faults) { f == Faults({}, {}, {}) }

  /** A session ends early only for a reboot that the n-th update asks for, or for some failure. */
  ghost predicate Justified(outcome: Outcome, running: State, pendings: seq<State>, faults: seq<Faults>, n: nat)
    reads running, pendings
  {
    && (outcome == NeedsReboot ==> 0 < n <= |pendings| && CutsDeep(pendings[n - 1], running))
    && (outcome == RollsBack ==> exists k :: 0 <= k < |faults| && !NoFaults(faults[k]))
  }

  lemma Justifies(outcome: Outcome, running: State, pendings: seq<State>, faults: seq<Faults>, n: nat, k: nat)
    requires k < |faults|
    requires outcome == NeedsReboot ==> 0 < n <= |pendings| && CutsDeep(pendings[n - 1], running)
    requires outcome == RollsBack ==> !NoFaults(faults[k])
    ensures Justified(outcome, running, pendings, faults, n)
  {
    hide CutsDeep, NoFaults;
  }

  /** The platforms that are started. */
  ghost function Up(ps: set<Platform>): set<Platform>
    reads ps
  {
    set q | q in ps && q.status == Started
  }

  lemma SurvivorsAreUp(pending: State, running: State, ps: set<Platform>, vs: set<Item>)
    requires Within(ListsOf(running), ps, vs)
    ensures Survivors(pending, running) <= Up(ps)
  {
  }

  ghost predicate Idle(ps: set<Platform>)
    reads ps
  {
    forall q | q in ps :: q.status != Started && !q.updated
  }

  /** The updates from i on wait untouched. */
  ghost predicate Later(pendings: seq<State>, ls: seq<Lists>, i: nat)
    reads pendings, Far(ls, i + 1)
  {
    && |ls| == |pendings| + 1 && Idle(Far(ls, i + 1))
    && forall j | i <= j < |pendings| :: ListsOf(pendings[j]) == ls[j + 1]
  }

  /** They are apart from what runs. */
  ghost predicate Beyond(ls: seq<Lists>, i: nat, c: Lists) { forall j | i < j < |ls| :: ApartLists(ls[j], c) }

  lemma BeyondNext(ls: seq<Lists>, i: nat, c: Lists, alive: set<Platform>)
    requires i + 1 < |ls| && Beyond(ls, i, c) && forall j, k | 0 <= j < k < |ls| :: ApartLists(ls[k], ls[j])
    ensures Beyond(ls, i + 1, Taken(c, ls[i + 1], alive))
  {
    forall j | i + 1 < j < |ls|
      ensures ApartLists(ls[j], Taken(c, ls[i + 1], alive))
    {
      TakenApart(ls[j], c, ls[i + 1], alive);
    }
  }

  /** What the update does not touch. */
  method UpdateApart(running: State, pending: State, f: Faults, ghost now: Lists, ghost far: set<Platform>,
                     ghost others: set<State>)
    returns (outcome: Outcome)
    requires ParsedLists(ListsOf(running)) && Unmarked(running.platforms) && Served(running.platforms, running.volumes)
    requires Waits(pending, ListsOf(pending)) && Apart(pending, running)
    requires Settled(now, ListsOf(pending)) && StandsFor(ListsOf(running), now)
    requires running !in others && pending !in others
    requires forall q | q in far :: q !in running.platforms && q !in pending.platforms
    modifies running, pending, running.platforms, running.volumes, pending.platforms, pending.volumes
    ensures Served(running.platforms, running.volumes)
    ensures forall q | q in old(Survivors(pending, running)) :: q.status == Started
    ensures outcome == NeedsReboot ==> ListsOf(running) == old(ListsOf(running)) && CutsDeep(pending, running)
    ensures outcome == RollsBack ==> !NoFaults(f)
    ensures outcome == Running ==>
      && Follows(old(ListsOf(running)), old(ListsOf(pending)), old(Survivors(pending, running)), ListsOf(running))
      && Unmarked(running.platforms)
    ensures old(Idle(far)) ==> Idle(far)
    ensures forall s | s in others :: ListsOf(s) == old(ListsOf(s))
  {
    hide Follows, Served, Unmarked, Waits, Apart, Settled, StandsFor, ParsedLists, CutsDeep, Survivors;
    outcome := UpdateNext(running, pending, f, now);
  }

  /** Between two steps of a session: the running state stands for revision i, ready for the next update, and
      the later ones wait. */
  ghost predicate Ongoing(running: State, pendings: seq<State>, i: nat, ls: seq<Lists>, ps: set<Platform>, vs: set<Item>)
    reads running, running.platforms, pendings, Far(ls, i + 1)
  {
    && i <= |pendings| && Lined(running, pendings, ls, ps, vs)
    && Later(pendings, ls, i) && Beyond(ls, i, ListsOf(running))
    && ParsedLists(ListsOf(running)) && Unmarked(running.platforms)
    && StandsFor(ListsOf(running), ls[i]) && Within(ListsOf(running), ps, vs)
  }

  /** The i-th update of a session. */
  method UpdateAmong(running: State, pendings: seq<State>, i: nat, f: Faults, ghost ls: seq<Lists>,
                     ghost ps: set<Platform>, ghost vs: set<Item>)
    returns (outcome: Outcome, ghost alive: set<Platform>)
    requires i < |pendings| && Ongoing(running, pendings, i, ls, ps, vs) && Served(running.platforms, running.volumes)
    modifies running, pendings, ps, vs
    ensures Served(running.platforms, running.volumes)
    ensures alive == old(Survivors(pendings[i], running)) && alive <= old(Up(ps)) && alive <= Up(ps)
    ensures outcome == NeedsReboot ==> ListsOf(running) == old(ListsOf(running)) && CutsDeep(pendings[i], running)
    ensures outcome == RollsBack ==> !NoFaults(f)
    ensures outcome == Running ==> Ongoing(running, pendings, i + 1, ls, ps, vs)
    ensures outcome == Running ==> |ls| == |pendings| + 1 && Follows(old(ListsOf(running)), ls[i + 1], alive, ListsOf(running))
  {
    var pending := pendings[i];
    ghost var c, p := ListsOf(running), ls[i + 1];
    Facing(running, pendings, i, ls, ps, vs);
    hide Waits, Apart, Unmarked, Beyond, Distinct, ApartLists, Lined, Follows, Settled, Exact, StandsFor, ParsedLists;
    hide Served, Taken, Survivors, Far, Others, Idle;
    alive := Survivors(pending, running);
    SurvivorsAreUp(pending, running, ps, vs);
    TakenWithin(c, p, alive, ps, vs);
    BeyondNext(ls, i, c, alive);
    outcome := UpdateApart(running, pending, f, ls[i], Far(ls, i + 2), Others(pendings, i + 1));
    FollowsMeans(c, p, alive, ListsOf(running));
    InOthers(pendings, i + 1);
    hide Within;
  }

  lemma InOthers(pendings: seq<State>, k: nat)
    ensures forall j | k <= j < |pendings| :: pendings[j] in Others(pendings, k)
  {
  }

  lemma Facing(running: State, pendings: seq<State>, i: nat, ls: seq<Lists>, ps: set<Platform>, vs: set<Item>)
    requires i < |pendings| && Lined(running, pendings, ls, ps, vs)
    requires Later(pendings, ls, i) && Beyond(ls, i, ListsOf(running))
    ensures var pending, c, p := pendings[i], ListsOf(running), ls[i + 1];
      && ListsOf(pending) == p && Waits(pending, p) && Apart(pending, running) && Settled(ls[i], p) && Within(p, ps, vs)
      && running !in Others(pendings, i + 1) && pending !in Others(pendings, i + 1)
      && (forall q | q in Far(ls, i + 2) :: q !in c.ps && q !in p.ps && q.status != Started && !q.updated)
      && forall j, k | 0 <= j < k < |ls| :: ApartLists(ls[k], ls[j])
  {
    hide Settled, ParsedLists;
    LaterApart(ls, i, ListsOf(running));
    forall q | q in ls[i + 1].ps
      ensures q.status != Started && !q.updated
    {
      assert q in Far(ls, i + 1);
    }
    assert Far(ls, i + 2) <= Far(ls, i + 1);
    assert ApartLists(ls[i + 1], ListsOf(running));
  }

  lemma FollowsMeans(c: Lists, p: Lists, alive: set<Platform>, t: Lists)
    ensures Follows(c, p, alive, t) ==> t == Taken(c, p, alive) && ParsedLists(t) && StandsFor(t, p)
  {
  }

  lemma LaterApart(ls: seq<Lists>, i: nat, c: Lists)
    requires i + 1 < |ls| && Beyond(ls, i, c) && forall j, k | 0 <= j < k < |ls| :: ApartLists(ls[k], ls[j])
    ensures forall q | q in Far(ls, i + 2) :: q !in c.ps && q !in ls[i + 1].ps
  {
    forall j | i + 1 < j < |ls|
      ensures forall q | q in ls[j].ps :: q !in c.ps && q !in ls[i + 1].ps
    {
      assert ApartLists(ls[j], c) && ApartLists(ls[j], ls[i + 1]);
    }
  }

  lemma Opening(running: State, pendings: seq<State>, ls: seq<Lists>, ps: set<Platform>, vs: set<Item>)
    requires Lined(running, pendings, ls, ps, vs)
    requires Waits(running, ls[0]) && forall j | 0 <= j < |pendings| :: Waits(pendings[j], ls[j + 1])
    ensures ListsOf(running) == ls[0] && Unstarted(running.platforms) && Ongoing(running, pendings, 0, ls, ps, vs)
  {
    hide ParsedLists, Settled;
    forall j | 0 < j < |ls|
      ensures ApartLists(ls[j], ls[0]) && forall q | q in ls[j].ps :: q.status != Started && !q.updated
    {
      assert Waits(pendings[j - 1], ls[j]);
    }
  }

  lemma FarFromRunning(ls: seq<Lists>, c: Lists)
    requires Beyond(ls, 0, c)
    ensures forall q | q in Far(ls, 1) :: q !in c.ps
  {
    forall j | 0 < j < |ls|
      ensures forall q | q in ls[j].ps :: q !in c.ps
    {
      assert ApartLists(ls[j], c);
    }
  }

  /** The boot leaves the states of later updates alone. */
  method BootAmong(running: State, pendings: seq<State>, f: Faults, ghost ls: seq<Lists>, ghost ps: set<Platform>, ghost vs: set<Item>)
    returns (ok: bool)
    requires Ongoing(running, pendings, 0, ls, ps, vs) && Unstarted(running.platforms)
    modifies ps`status, vs`mounted
    ensures Served(running.platforms, running.volumes) && Ongoing(running, pendings, 0, ls, ps, vs)
    ensures ListsOf(running) == old(ListsOf(running)) && (!ok ==> !NoFaults(f))
    ensures ok ==> forall q | q in running.platforms && q.runlevel != DATA :: q.status == Started
  {
    ghost var far := Far(ls, 1);
    FarFromRunning(ls, ListsOf(running));
    hide Served, ParsedLists, Lined, StandsFor, Beyond, Far;
    ok := Boot(running, f);
    assert forall q | q in far :: q.status == old(q.status) && q.updated == old(q.updated);
  }

  /** The running lists after the boot and after each update that succeeded. */
  ghost predicate Chain(ls: seq<Lists>, cs: seq<Lists>, alives: seq<set<Platform>>) {
    && 0 < |cs| <= |alives| + 1 && |cs| <= |ls| && cs[0] == ls[0]
    && forall k | 0 <= k < |cs| - 1 :: Follows(cs[k], ls[k + 1], alives[k], cs[k + 1])
  }

  /** The survivors of each update were started before it, and are started after it: ups[k] are the platforms
      that are started after k updates. */
  ghost predicate Spared(alives: seq<set<Platform>>, ups: seq<set<Platform>>) {
    |ups| == |alives| + 1 && forall k | 0 <= k < |alives| :: alives[k] <= ups[k] && alives[k] <= ups[k + 1]
  }

  /** Both, up to now: after the last update up are the platforms that are started. */
  ghost predicate Tale(ls: seq<Lists>, cs: seq<Lists>, alives: seq<set<Platform>>, ups: seq<set<Platform>>, up: set<Platform>) {
    Chain(ls, cs, alives) && Spared(alives, ups) && ups[|alives|] == up
  }

  lemma TaleBegins(ls: seq<Lists>, up: set<Platform>)
    requires |ls| > 0
    ensures Tale(ls, [ls[0]], [], [up], up)
  {
  }

  /** One more update, which ends in the lists t if it succeeds. */
  lemma TaleGoesOn(ls: seq<Lists>, cs: seq<Lists>, alives: seq<set<Platform>>, ups: seq<set<Platform>>, was: set<Platform>,
                   alive: set<Platform>, up: set<Platform>, ok: bool, t: Lists)
    returns (cs': seq<Lists>, alives': seq<set<Platform>>, ups': seq<set<Platform>>)
    requires Tale(ls, cs, alives, ups, was) && |cs| == |alives| + 1 && alive <= was && alive <= up
    requires ok ==> |cs| < |ls| && Follows(cs[|alives|], ls[|cs|], alive, t)
    ensures Tale(ls, cs', alives', ups', up) && |alives'| == |alives| + 1 && |cs'| == |cs| + (if ok then 1 else 0)
    ensures cs'[|cs'| - 1] == if ok then t else cs[|cs| - 1]
  {
    hide Follows;
    cs', alives', ups' := if ok then cs + [t] else cs, alives + [alive], ups + [up];
  }

  // ---------------------------------------------------------------- when a whole session is exact

  /** The lists say the same. */
  ghost predicate SameContents(a: Lists, b: Lists) {
    Contents(a.objects) == Contents(b.objects) && Contents(a.jsons) == Contents(b.jsons)
  }

  /** The update from revision c to revision p is faithful, if alive are the platforms it spares. */
  ghost predicate FaithfulLists(c: Lists, p: Lists, alive: set<Platform>) {
    Faithful(p.objects, c.objects, p.ps, c.ps, alive) && Faithful(p.jsons, c.jsons, p.ps, c.ps, alive)
  }

  /** Whether an update is faithful depends on the running lists by what they say only. */
  lemma FaithfulByContents(pend: seq<Item>, a: seq<Item>, b: seq<Item>, pendPs: seq<Platform>, aPs: seq<Platform>, bPs: seq<Platform>,
                           alive: set<Platform>)
    requires Contents(a) == Contents(b) && Names(aPs) == Names(bPs)
    ensures Faithful(pend, a, pendPs, aPs, alive) <==> Faithful(pend, b, pendPs, bPs, alive)
  {
    hide Owner, Names;
    forall name
      ensures ItemNamed(a, name) == null <==> ItemNamed(b, name) == null
    {
      if c :| c in a && c.name == name {
        var _ := NamesOfContents(a, b, c);
      }
      if c :| c in b && c.name == name {
        var _ := NamesOfContents(b, a, c);
      }
    }
    hide Contents, ItemNamed;
  }

  /** One update of a revision that is complete: the result is complete if and only if the update is faithful
      between the revisions. */
  lemma LinkIsExact(c: Lists, now: Lists, p: Lists, alive: set<Platform>, t: Lists)
    requires Follows(c, p, alive, t) && SameContents(c, now) && Names(c.ps) == Names(now.ps)
    ensures SameContents(t, p) <==> FaithfulLists(now, p, alive)
  {
    hide Contents, Names, Faithful, Taken, ParsedLists;
    FaithfulByContents(p.objects, c.objects, now.objects, p.ps, c.ps, now.ps, alive);
    FaithfulByContents(p.jsons, c.jsons, now.jsons, p.ps, c.ps, now.ps, alive);
  }

  lemma SessionNames(ls: seq<Lists>, cs: seq<Lists>, alives: seq<set<Platform>>, k: nat)
    requires Chain(ls, cs, alives) && k < |cs|
    ensures Names(cs[k].ps) == Names(ls[k].ps)
  {
    if k > 0 {
      assert Follows(cs[k - 1], ls[k - 1 + 1], alives[k - 1], cs[k - 1 + 1]);
      hide Taken, ParsedLists, Names, Contents, Faithful;
    }
  }

  /** Up to the n-th update the running state was always what a load from scratch gives if and only if every
      update so far was faithful between the revisions as they were written. */
  lemma {:induction false} SessionIsExact(ls: seq<Lists>, cs: seq<Lists>, alives: seq<set<Platform>>, n: nat)
    requires Chain(ls, cs, alives) && n < |cs|
    ensures (forall k | 0 <= k <= n :: SameContents(cs[k], ls[k]) && Names(cs[k].ps) == Names(ls[k].ps))
      <==> (forall k | 0 < k <= n :: FaithfulLists(ls[k - 1], ls[k], alives[k - 1]))
  {
    forall k | 0 <= k <= n
      ensures Names(cs[k].ps) == Names(ls[k].ps)
    {
      SessionNames(ls, cs, alives, k);
    }
    if n == 0 {
    } else {
      SessionIsExact(ls, cs, alives, n - 1);
      assert Follows(cs[n - 1], ls[n - 1 + 1], alives[n - 1], cs[n - 1 + 1]);
      hide Chain, Follows, FaithfulLists, SameContents, Names;
      if SameContents(cs[n - 1], ls[n - 1]) {
        LinkIsExact(cs[n - 1], ls[n - 1], ls[n], alives[n - 1], cs[n]);
      }
    }
  }

  /** Where a session stands after the boot and i updates. */
  ghost predicate Story(outcome: Outcome, running: State, pendings: seq<State>, faults: seq<Faults>, i: nat, ls: seq<Lists>,
                        ps: set<Platform>, vs: set<Item>, cs: seq<Lists>, alives: seq<set<Platform>>, ups: seq<set<Platform>>)
    reads running, running.platforms, running.volumes, pendings, ps, Far(ls, i + 1)
  {
    && i <= |pendings| && |faults| == |pendings| + 1 && Served(running.platforms, running.volumes)
    && Tale(ls, cs, alives, ups, Up(ps)) && |cs| > 0
    && (outcome != RollsBack ==> ListsOf(running) == cs[|cs| - 1])
    && (outcome == Running ==> |alives| == i == |cs| - 1 && Ongoing(running, pendings, i, ls, ps, vs))
    && Justified(outcome, running, pendings, faults, |cs|)
  }

  /** The boot of a session. */
  method Begin(running: State, pendings: seq<State>, faults: seq<Faults>, ghost ls: seq<Lists>, ghost ps: set<Platform>, ghost vs: set<Item>)
    returns (outcome: Outcome, ghost cs: seq<Lists>, ghost alives: seq<set<Platform>>, ghost ups: seq<set<Platform>>)
    requires |faults| == |pendings| + 1 && Lined(running, pendings, ls, ps, vs)
    requires Waits(running, ls[0]) && forall j | 0 <= j < |pendings| :: Waits(pendings[j], ls[j + 1])
    modifies ps`status, vs`mounted
    ensures Story(outcome, running, pendings, faults, 0, ls, ps, vs, cs, alives, ups) && outcome != NeedsReboot
  {
    assert |ls| == |pendings| + 1;
    hide Waits, Lined, Ongoing, Unstarted, Follows, Chain, Served, Spared, Tale, Up, CutsDeep, NoFaults, Justified;
    Opening(running, pendings, ls, ps, vs);
    var ok := BootAmong(running, pendings, faults[0], ls, ps, vs);
    outcome := if ok then Running else RollsBack;
    cs, alives, ups := [ls[0]], [], [Up(ps)];
    Justifies(outcome, running, pendings, faults, |cs|, 0);
    TaleBegins(ls, Up(ps));
  }

  /** One more update of a session. */
  method GoOn(running: State, pendings: seq<State>, faults: seq<Faults>, i: nat, ghost ls: seq<Lists>, ghost ps: set<Platform>,
              ghost vs: set<Item>, ghost cs0: seq<Lists>, ghost alives0: seq<set<Platform>>, ghost ups0: seq<set<Platform>>)
    returns (outcome: Outcome, ghost cs: seq<Lists>, ghost alives: seq<set<Platform>>, ghost ups: seq<set<Platform>>)
    requires i < |pendings| && Story(Running, running, pendings, faults, i, ls, ps, vs, cs0, alives0, ups0)
    modifies running, pendings, ps, vs
    ensures Story(outcome, running, pendings, faults, i + 1, ls, ps, vs, cs, alives, ups)
  {
    hide Ongoing, Follows, Served, Tale, Up, CutsDeep, NoFaults, Justified;
    ghost var alive, was := {}, Up(ps);
    outcome, alive := UpdateAmong(running, pendings, i, faults[i + 1], ls, ps, vs);
    cs, alives, ups := TaleGoesOn(ls, cs0, alives0, ups0, was, alive, Up(ps), outcome == Running, ListsOf(running));
    Justifies(outcome, running, pendings, faults, |cs|, i + 1);
  }

  /** A session: boot, and then one hot update after the other as long as they succeed. Started platforms have
      their volumes throughout, and no platform an update spares is stopped, whatever fails; each update that
      succeeds leaves the running state as its revision asks, under the condition of `Exact`, and ready for
      the next one. */
  method Session(running: State, pendings: seq<State>, faults: seq<Faults>, ghost ls: seq<Lists>, ghost ps: set<Platform>, ghost vs: set<Item>)
    returns (outcome: Outcome, ghost cs: seq<Lists>, ghost alives: seq<set<Platform>>, ghost ups: seq<set<Platform>>)
    requires |faults| == |pendings| + 1 && Lined(running, pendings, ls, ps, vs)
    requires Waits(running, ls[0]) && forall j | 0 <= j < |pendings| :: Waits(pendings[j], ls[j + 1])
    modifies running, pendings, ps, vs
    ensures Served(running.platforms, running.volumes)
    ensures Tale(ls, cs, alives, ups, Up(ps))
    ensures outcome != RollsBack ==> ListsOf(running) == cs[|cs| - 1]
    ensures outcome == Running ==> |alives| == |pendings| == |cs| - 1
    ensures Justified(outcome, running, pendings, faults, |cs|)
  {
    outcome, cs, alives, ups := Begin(running, pendings, faults, ls, ps, vs);
    hide Story;
    var i := 0;
    while i < |pendings| && outcome == Running
      invariant 0 <= i <= |pendings| && Story(outcome, running, pendings, faults, i, ls, ps, vs, cs, alives, ups)
    {
      outcome, cs, alives, ups := GoOn(running, pendings, faults, i, ls, ps, vs, cs, alives, ups);
      i := i + 1;
    }
    StoryTells(outcome, running, pendings, faults, i, ls, ps, vs, cs, alives, ups);
  }

  lemma StoryTells(outcome: Outcome, running: State, pendings: seq<State>, faults: seq<Faults>, i: nat, ls: seq<Lists>,
                   ps: set<Platform>, vs: set<Item>, cs: seq<Lists>, alives: seq<set<Platform>>, ups: seq<set<Platform>>)
    requires Story(outcome, running, pendings, faults, i, ls, ps, vs, cs, alives, ups) && (outcome == Running ==> i == |pendings|)
    ensures Served(running.platforms, running.volumes) && Tale(ls, cs, alives, ups, Up(ps)) && |cs| > 0
    ensures outcome != RollsBack ==> ListsOf(running) == cs[|cs| - 1]
    ensures outcome == Running ==> |alives| == |pendings| == |cs| - 1
    ensures Justified(outcome, running, pendings, faults, |cs|)
  {
    hide Ongoing, Served, Tale, Up, Justified;
  }
}
