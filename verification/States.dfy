/**
 States as the parser leaves them (state.h, platforms.h, objects.h, jsons.h, volumes.h): lists of
 nodes in memory. Names, payloads, runlevels and links never change after parsing; a platform's
 status and its `updated` flag do.
 */
module States {
  import opened Wrappers

  const DATA := 0
  const ROOT := 1
  const PLATFORM := 2
  const APP := 3
  const MAX_RUNLEVEL := 3

  datatype PlatStatus = NotLoaded | Installed | Started | Stopped

  class Platform {
    const name: string
    const runlevel: int
    var status: PlatStatus
    var updated: bool

    constructor (name: string, runlevel: int)
      ensures this.name == name && this.runlevel == runlevel && status == Installed && !updated
    {
      this.name, this.runlevel, status, updated := name, runlevel, Installed, false;
    }
  }

  /** A list node that a platform may own: an object (payload: its id), a json (payload: its value) or a
      volume (payload: its type). `mounted` is used by volumes only. */
  class Item {
    const name: string
    const payload: string
    const plat: Platform?
    var mounted: bool

    constructor (name: string, payload: string, plat: Platform?)
      ensures this.name == name && this.payload == payload && this.plat == plat && !mounted
    {
      this.name, this.payload, this.plat, mounted := name, payload, plat, false;
    }
  }

  class State {
    var rev: string
    var platforms: seq<Platform>
    var objects: seq<Item>
    var jsons: seq<Item>
    var volumes: seq<Item>

    constructor (rev: string)
      ensures this.rev == rev && platforms == [] && objects == jsons == volumes == []
    {
      this.rev := rev;
      platforms, objects, jsons, volumes := [], [], [], [];
    }
  }

  // ---------------------------------------------------------------- well-formed states

  predicate UniquePlatforms(ps: seq<Platform>) {
    forall p, q | p in ps && q in ps && p.name == q.name :: p == q
  }

  predicate UniqueItems(items: seq<Item>) {
    forall a, b | a in items && b in items && a.name == b.name :: a == b
  }

  function Names(ps: seq<Platform>): set<string> { set p | p in ps :: p.name }

  /** The first token of a '/'-separated path, as strtok finds it. */
  function Token(s: string): string {
    if s == "" then ""
    else if s[0] == '/' then Token(s[1..])
    else Word(s)
  }

  function Word(s: string): (w: string)
    ensures |w| <= |s|
  {
    if s == "" || s[0] == '/' then "" else [s[0]] + Word(s[1..])
  }

  /** What is left after the first token. */
  function AfterToken(s: string): string
    decreases |s|
  {
    if s == "" then ""
    else if s[0] == '/' then AfterToken(s[1..])
    else s[|Word(s)|..]
  }

  /** The name of the platform an item belongs to (system1_link_object_json_platforms): the first path
      component, or the second one below _config. */
  function Owner(name: string): string {
    if Token(name) == "_config" then Token(AfterToken(name)) else Token(name)
  }

  predicate NoSlash(s: string) { s != "" && '/' !in s }

  lemma {:induction false} WordIs(w: string, rest: string)
    requires NoSlash(w) && (rest != "" ==> rest[0] == '/')
    ensures Word(w + rest) == w
  {
    assert (w + rest)[1..] == w[1..] + rest;
    if |w| == 1 {
      assert Word(rest) == "";
      assert w[1..] + rest == rest;
    } else {
      WordIs(w[1..], rest);
    }
    assert w == [w[0]] + w[1..];
  }

  lemma FirstToken(w: string, rest: string)
    requires NoSlash(w) && (rest != "" ==> rest[0] == '/')
    ensures Token(w + rest) == w && Token("/" + w + rest) == w && AfterToken(w + rest) == rest
  {
    WordIs(w, rest);
    assert (w + rest)[0] == w[0] != '/';
    assert ("/" + w + rest)[1..] == w + rest;
  }

  /** The owner of an item's name: the folder it starts with, or the one below "_config" there. */
  lemma OwnerIs(w: string, rest: string, c: string)
    requires NoSlash(w) && (rest != "" ==> rest[0] == '/') && NoSlash(c)
    ensures w != "_config" ==> Owner(w + rest) == w
    ensures Owner("_config/" + c + rest) == c
  {
    FirstToken(w, rest);
    var tail := "/" + c + rest;
    FirstToken("_config", tail);
    assert "_config/" + c + rest == "_config" + tail;
    FirstToken(c, rest);
    hide Token, AfterToken;
  }

  /** Slashes before a name do not count, and a name without a folder has no owner. */
  lemma OwnerSkips(name: string)
    ensures Owner("/" + name) == Owner(name) && Owner("") == "" && Owner("_config") == ""
  {
    assert ("/" + name)[1..] == name;
    FirstToken("_config", "");
    assert "_config" + "" == "_config";
    hide Word;
  }

  /** Items are linked to the platform of their owner's name, when the state has one. */
  ghost predicate LinkedItems(items: seq<Item>, ps: seq<Platform>) {
    forall it | it in items ::
      if it.plat == null then Owner(it.name) !in Names(ps)
      else it.plat in ps && it.plat.name == Owner(it.name)
  }

  /** Items only need to stay inside their own state for memory safety. */
  ghost predicate ClosedItems(items: seq<Item>, ps: seq<Platform>) {
    forall it | it in items && it.plat != null :: it.plat in ps
  }

  ghost predicate Runlevels(ps: seq<Platform>) {
    forall p | p in ps :: DATA <= p.runlevel <= APP
  }

  /** A parsed system1 state: unique names, valid runlevels, linked by owner. */
  ghost predicate Parsed(s: State)
    reads s
  {
    && Distinct(s.platforms) && UniquePlatforms(s.platforms) && Runlevels(s.platforms)
    && Distinct(s.objects) && UniqueItems(s.objects) && LinkedItems(s.objects, s.platforms)
    && Distinct(s.jsons) && UniqueItems(s.jsons) && LinkedItems(s.jsons, s.platforms)
    && Distinct(s.volumes) && ClosedItems(s.volumes, s.platforms)
  }

  // ---------------------------------------------------------------- lookups

  /** pv_platform_get_by_name */
  function PlatformNamed(ps: seq<Platform>, name: string): (r: Platform?)
    ensures r == null <==> name !in Names(ps)
    ensures r != null ==> r in ps && r.name == name
  {
    if ps == [] then null
    else if ps[0].name == name then ps[0]
    else
      assert Names(ps) == {ps[0].name} + Names(ps[1..]);
      PlatformNamed(ps[1..], name)
  }

  /** pv_objects_get_by_name, pv_jsons_get_by_name */
  function ItemNamed(items: seq<Item>, name: string): (r: Item?)
    ensures r == null <==> forall it | it in items :: it.name != name
    ensures r != null ==> r in items && r.name == name
  {
    if items == [] then null
    else if items[0].name == name then items[0]
    else ItemNamed(items[1..], name)
  }
}
