/**
 Moving the nodes of a pending state into the running one (pv_state_transfer, state.c): first the
 running state drops every platform that is not started, with its items, then it takes over the
 pending platforms it does not have, with theirs.
 */
module Transfer {
  import opened Wrappers
  import opened States

  // ---------------------------------------------------------------- which nodes move

  /** What the loops select: the items of running platforms and of none, the items of platforms to be
      taken over, and the items left behind. */
  datatype Choice = Keep(alive: set<Platform>) | Move(names: set<string>) | Stay(names: set<string>)

  predicate Picks(c: Choice, it: Item) {
    match c
    case Keep(alive) => it.plat == null || it.plat in alive
    case Move(names) => it.plat != null && it.plat.name !in names
    case Stay(names) => it.plat == null || it.plat.name in names
  }

  function Select(items: seq<Item>, c: Choice): seq<Item> {
    if items == [] then []
    else
      (if Picks(c, items[0]) then [items[0]] else []) + Select(items[1..], c)
  }

  function SelectPlatforms(ps: seq<Platform>, alive: set<Platform>): seq<Platform> {
    if ps == [] then []
    else
      (if ps[0] in alive then [ps[0]] else []) + SelectPlatforms(ps[1..], alive)
  }

  /** The pending platforms whose names are (not) among those given. */
  function NewPlatforms(ps: seq<Platform>, names: set<string>): set<Platform> { set p | p in ps && p.name !in names }

  function OldPlatforms(ps: seq<Platform>, names: set<string>): set<Platform> { set p | p in ps && p.name in names }

  ghost function Alive(ps: seq<Platform>): set<Platform>
    reads ps
  {
    set p | p in ps && p.status == Started
  }

  // ---------------------------------------------------------------- the loops

  lemma {:induction false} SelectMembers(items: seq<Item>, c: Choice)
    ensures forall k | 0 <= k < |Select(items, c)| :: Select(items, c)[k] in items && Picks(c, Select(items, c)[k])
    ensures forall k | 0 <= k < |items| && Picks(c, items[k]) :: items[k] in Select(items, c)
  {
    hide Picks;
    if items == [] {
    } else {
      SelectMembers(items[1..], c);
      var r, t := Select(items, c), Select(items[1..], c);
      var n := |r| - |t|;
      forall k | 0 <= k < |r|
        ensures r[k] in items && Picks(c, r[k])
      {
        assert r[k] == if k < n then items[0] else t[k - n];
        assert k >= n ==> t[k - n] in items[1..];
      }
      assert forall k | 0 < k < |items| :: items[k] == items[1..][k - 1];
    }
  }

  lemma {:induction false} SelectPlatformsMembers(ps: seq<Platform>, alive: set<Platform>)
    ensures forall k | 0 <= k < |SelectPlatforms(ps, alive)| ::
      SelectPlatforms(ps, alive)[k] in ps && SelectPlatforms(ps, alive)[k] in alive
    ensures forall k | 0 <= k < |ps| && ps[k] in alive :: ps[k] in SelectPlatforms(ps, alive)
  {
    if ps == [] {
    } else {
      SelectPlatformsMembers(ps[1..], alive);
      var r, t := SelectPlatforms(ps, alive), SelectPlatforms(ps[1..], alive);
      var n := |r| - |t|;
      forall k | 0 <= k < |r|
        ensures r[k] in ps && r[k] in alive
      {
        assert r[k] == if k < n then ps[0] else t[k - n];
        assert k >= n ==> t[k - n] in ps[1..];
      }
      assert forall k | 0 < k < |ps| :: ps[k] == ps[1..][k - 1];
    }
  }

  lemma {:induction false} SelectDistinct(items: seq<Item>, c: Choice)
    requires Distinct(items)
    ensures Distinct(Select(items, c))
  {
    if items == [] {
    } else {
      assert forall j | 0 <= j < |items| - 1 :: items[1..][j] == items[j + 1];
      SelectDistinct(items[1..], c);
      SelectMembers(items[1..], c);
    }
  }

  lemma {:induction false} SelectPlatformsDistinct(ps: seq<Platform>, alive: set<Platform>)
    requires Distinct(ps)
    ensures Distinct(SelectPlatforms(ps, alive))
  {
    if ps == [] {
    } else {
      assert forall j | 0 <= j < |ps| - 1 :: ps[1..][j] == ps[j + 1];
      SelectPlatformsDistinct(ps[1..], alive);
      SelectPlatformsMembers(ps[1..], alive);
    }
  }

  lemma {:induction false} SelectSnoc(items: seq<Item>, i: nat, c: Choice)
    requires i < |items|
    ensures Select(items[..i + 1], c) == Select(items[..i], c) + (if Picks(c, items[i]) then [items[i]] else [])
  {
    hide Picks;
    if i == 0 {
      assert items[..1][1..] == [] && items[..0] == [];
    } else {
      assert items[..i + 1][1..] == items[1..][..i] && items[..i][1..] == items[1..][..i - 1];
      SelectSnoc(items[1..], i - 1, c);
    }
  }

  lemma {:induction false} SelectPlatformsSnoc(ps: seq<Platform>, i: nat, alive: set<Platform>)
    requires i < |ps|
    ensures SelectPlatforms(ps[..i + 1], alive) == SelectPlatforms(ps[..i], alive) + (if ps[i] in alive then [ps[i]] else [])
  {
    if i == 0 {
      assert ps[..1][1..] == [] && ps[..0] == [];
    } else {
      assert ps[..i + 1][1..] == ps[1..][..i] && ps[..i][1..] == ps[1..][..i - 1];
      SelectPlatformsSnoc(ps[1..], i - 1, alive);
    }
  }

  /** The loop that frees the items of platforms that are not started. */
  method RemoveItems(items: seq<Item>, ps: seq<Platform>) returns (kept: seq<Item>)
    requires ClosedItems(items, ps)
    ensures kept == Select(items, Keep(Alive(ps)))
  {
    kept := [];
    for i := 0 to |items|
      invariant kept == Select(items[..i], Keep(Alive(ps)))
    {
      var it := items[i];
      SelectSnoc(items, i, Keep(Alive(ps)));
      if it.plat == null || it.plat.status == Started {
        kept := kept + [it];
      }
    }
    assert items[..|items|] == items;
  }

  method RemoveUnstarted(ps: seq<Platform>) returns (kept: seq<Platform>)
    ensures kept == SelectPlatforms(ps, Alive(ps))
  {
    kept := [];
    for i := 0 to |ps|
      invariant kept == SelectPlatforms(ps[..i], Alive(ps))
    {
      SelectPlatformsSnoc(ps, i, Alive(ps));
      if ps[i].status == Started {
        kept := kept + [ps[i]];
      }
    }
    assert ps[..|ps|] == ps;
  }

  /** pv_state_remove_platforms */
  method RemovePlatforms(out: State)
    requires ClosedItems(out.objects, out.platforms) && ClosedItems(out.jsons, out.platforms)
    requires ClosedItems(out.volumes, out.platforms)
    modifies out
    ensures var alive := old(Alive(out.platforms));
      && out.platforms == SelectPlatforms(old(out.platforms), alive)
      && out.objects == Select(old(out.objects), Keep(alive))
      && out.jsons == Select(old(out.jsons), Keep(alive))
      && out.volumes == Select(old(out.volumes), Keep(alive))
    ensures out.rev == old(out.rev)
  {
    var ps := out.platforms;
    out.jsons := RemoveItems(out.jsons, ps);
    out.objects := RemoveItems(out.objects, ps);
    out.volumes := RemoveItems(out.volumes, ps);
    out.platforms := RemoveUnstarted(ps);
  }

  /** The loop that takes over items of platforms the running state does not have. */
  method TransferItems(from: seq<Item>, to: seq<Item>, ps: seq<Platform>) returns (left: seq<Item>, res: seq<Item>)
    ensures res == to + Select(from, Move(Names(ps))) && left == Select(from, Stay(Names(ps)))
  {
    left, res := [], to;
    for i := 0 to |from|
      invariant res == to + Select(from[..i], Move(Names(ps))) && left == Select(from[..i], Stay(Names(ps)))
    {
      var it := from[i];
      SelectSnoc(from, i, Move(Names(ps)));
      SelectSnoc(from, i, Stay(Names(ps)));
      hide Select, PlatformNamed;
      if it.plat == null || PlatformNamed(ps, it.plat.name) != null {
        left := left + [it];
      } else {
        res := res + [it];
      }
    }
    assert from[..|from|] == from;
  }

  /** The loop over platforms; the running list grows while it is searched, which makes no difference
      when pending names are unique. */
  method TransferPlatforms(from: seq<Platform>, to: seq<Platform>) returns (left: seq<Platform>, res: seq<Platform>)
    requires Distinct(from) && UniquePlatforms(from)
    ensures res == to + SelectPlatforms(from, NewPlatforms(from, Names(to)))
    ensures left == SelectPlatforms(from, OldPlatforms(from, Names(to)))
  {
    left, res := [], to;
    ghost var fresh', stale := NewPlatforms(from, Names(to)), OldPlatforms(from, Names(to));
    assert SelectPlatforms(from[..0], fresh') == [] == SelectPlatforms(from[..0], stale);
    hide SelectPlatforms, NewPlatforms, OldPlatforms, UniquePlatforms, Distinct;
    for i := 0 to |from|
      invariant res == to + SelectPlatforms(from[..i], fresh') && left == SelectPlatforms(from[..i], stale)
    {
      var p := from[i];
      SelectPlatformsSnoc(from, i, fresh');
      SelectPlatformsSnoc(from, i, stale);
      GrowingNames(from, to, i);
      hide PlatformNamed;
      if PlatformNamed(res, p.name) != null {
        left := left + [p];
      } else {
        res := res + [p];
      }
    }
    assert from[..|from|] == from;
  }

  lemma GrowingNames(from: seq<Platform>, to: seq<Platform>, i: nat)
    requires i < |from| && Distinct(from) && UniquePlatforms(from)
    ensures var fresh' := NewPlatforms(from, Names(to));
      from[i].name in Names(to + SelectPlatforms(from[..i], fresh')) <==> from[i].name in Names(to)
    ensures from[i] in NewPlatforms(from, Names(to)) <==> from[i].name !in Names(to)
    ensures from[i] in OldPlatforms(from, Names(to)) <==> from[i].name in Names(to)
  {
    var nw := NewPlatforms(from, Names(to));
    SelectPlatformsMembers(from[..i], nw);
    forall q | q in SelectPlatforms(from[..i], nw)
      ensures q.name != from[i].name
    {
      assert q in from[..i] && q in nw;
      var j :| 0 <= j < i && from[j] == q;
      assert from[j] != from[i] && from[j] in from && from[i] in from;
    }
  }

  /** pv_state_transfer */
  method TransferState(from: State, out: State)
    requires from != out && Distinct(from.platforms) && UniquePlatforms(from.platforms)
    requires ClosedItems(out.objects, out.platforms) && ClosedItems(out.jsons, out.platforms)
    requires ClosedItems(out.volumes, out.platforms)
    modifies from, out
    ensures var alive := old(Alive(out.platforms));
      var ps := SelectPlatforms(old(out.platforms), alive);
      && out.platforms == ps + SelectPlatforms(old(from.platforms), NewPlatforms(old(from.platforms), Names(ps)))
      && out.objects == Select(old(out.objects), Keep(alive)) + Select(old(from.objects), Move(Names(ps)))
      && out.jsons == Select(old(out.jsons), Keep(alive)) + Select(old(from.jsons), Move(Names(ps)))
      && out.volumes == Select(old(out.volumes), Keep(alive)) + Select(old(from.volumes), Move(Names(ps)))
      && from.platforms == SelectPlatforms(old(from.platforms), OldPlatforms(old(from.platforms), Names(ps)))
      && from.objects == Select(old(from.objects), Stay(Names(ps)))
      && from.jsons == Select(old(from.jsons), Stay(Names(ps)))
      && from.volumes == Select(old(from.volumes), Stay(Names(ps)))
    ensures out.rev == from.rev == old(from.rev)
  {
    hide Select, SelectPlatforms;
    RemovePlatforms(out);
    from.jsons, out.jsons := TransferItems(from.jsons, out.jsons, out.platforms);
    from.objects, out.objects := TransferItems(from.objects, out.objects, out.platforms);
    from.volumes, out.volumes := TransferItems(from.volumes, out.volumes, out.platforms);
    from.platforms, out.platforms := TransferPlatforms(from.platforms, out.platforms);
    out.rev := from.rev;
  }
}
