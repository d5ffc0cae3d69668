/**
 User metadata (metadata.c) and its files (storage.c): a list of key-value entries that local writes and
 cloud syncs change, swept after each sync of what neither wrote since the sync before.
 */
module UserMeta {
  import opened Wrappers

  /** struct pv_meta */
  datatype Meta = Meta(key: string, value: string, updated: bool)

  predicate Unique(list: seq<Meta>) { forall i, j | 0 <= i < j < |list| :: list[i].key != list[j].key }

  function View(list: seq<Meta>): map<string, string> {
    if list == [] then map[] else View(list[1..])[list[0].key := list[0].value]
  }

  function Flagged(list: seq<Meta>): set<string> {
    if list == [] then {} else (if list[0].updated then {list[0].key} else {}) + Flagged(list[1..])
  }

  lemma {:induction false} ViewHas(list: seq<Meta>, k: string)
    ensures k in View(list) <==> exists i | 0 <= i < |list| :: list[i].key == k
  {
    if list == [] {
    } else {
      ViewHas(list[1..], k);
      assert k in View(list[1..]) ==> exists i | 1 <= i < |list| :: list[i].key == k by {
        if k in View(list[1..]) {
          var i :| 0 <= i < |list| - 1 && list[1..][i].key == k;
          assert list[i + 1].key == k;
        }
      }
      if i :| 0 <= i < |list| && list[i].key == k {
        assert i > 0 ==> list[1..][i - 1].key == k;
      }
    }
  }

  lemma {:induction false} ViewAt(list: seq<Meta>, i: nat)
    requires Unique(list) && i < |list|
    ensures list[i].key in View(list) && View(list)[list[i].key] == list[i].value
    ensures list[i].key in Flagged(list) <==> list[i].updated
  {
    if i > 0 {
      assert list[1..][i - 1] == list[i];
      ViewAt(list[1..], i - 1);
    } else {
      FlaggedIn(list[1..]);
      ViewHas(list[1..], list[0].key);
    }
  }

  lemma {:induction false} FlaggedIn(list: seq<Meta>)
    ensures Flagged(list) <= View(list).Keys
  {
    if list == [] {
    } else {
      FlaggedIn(list[1..]);
    }
  }

  lemma {:induction false} ViewUpdate(list: seq<Meta>, i: nat, m: Meta)
    requires Unique(list) && i < |list| && m.key == list[i].key
    ensures Unique(list[i := m])
    ensures View(list[i := m]) == View(list)[m.key := m.value]
    ensures Flagged(list[i := m]) == if m.updated then Flagged(list) + {m.key} else Flagged(list) - {m.key}
  {
    if i == 0 {
      assert list[0 := m][1..] == list[1..];
      FlaggedIn(list[1..]);
      ViewHas(list[1..], m.key);
    } else {
      assert list[1..][i - 1] == list[i];
      assert list[i := m][1..] == list[1..][i - 1 := m];
      ViewUpdate(list[1..], i - 1, m);
    }
  }

  lemma {:induction false} ViewRemove(list: seq<Meta>, i: nat)
    requires Unique(list) && i < |list|
    ensures var l := list[..i] + list[i + 1..]; var k := list[i].key;
      Unique(l) && View(l) == View(list) - {k} && Flagged(l) == Flagged(list) - {k}
  {
    var h, t, k := list[0], list[1..], list[i].key;
    UniqueRemove(list, i);
    assert list == [h] + t && Unique(t);
    assert i > 0 ==> t[i - 1] == list[i] && h.key != k;
    if i == 0 {
      hide Unique;
      assert list[..0] + list[1..] == t;
      RemoveFirst(h, t);
      hide View, Flagged;
    } else {
      hide View, Flagged, Unique;
      ViewRemove(t, i - 1);
      RemoveUnder(h, t, t[..i - 1] + t[i..], k);
      RemoveBehind(h, t, i);
    }
  }

  lemma RemoveFirst(h: Meta, t: seq<Meta>)
    requires Unique([h] + t)
    ensures View(t) == View([h] + t) - {h.key} && Flagged(t) == Flagged([h] + t) - {h.key}
  {
    assert forall i | 0 <= i < |t| :: t[i] == ([h] + t)[i + 1] && t[i].key != ([h] + t)[0].key;
    hide View, Flagged;
    Cons(h, t);
    FlaggedIn(t);
    ViewHas(t, h.key);
  }

  lemma RemoveUnder(h: Meta, t: seq<Meta>, rest: seq<Meta>, k: string)
    requires h.key != k && View(rest) == View(t) - {k} && Flagged(rest) == Flagged(t) - {k}
    ensures View([h] + rest) == View([h] + t) - {k} && Flagged([h] + rest) == Flagged([h] + t) - {k}
  {
    Cons(h, t);
    Cons(h, rest);
    hide View, Flagged;
  }

  lemma UniqueRemove(list: seq<Meta>, i: nat)
    requires Unique(list) && i < |list|
    ensures Unique(list[..i] + list[i + 1..])
  {
  }

  lemma RemoveBehind(h: Meta, t: seq<Meta>, i: nat)
    requires 0 < i <= |t|
    ensures var list := [h] + t; list[..i] + list[i + 1..] == [h] + (t[..i - 1] + t[i..])
  {
  }

  lemma Cons(h: Meta, t: seq<Meta>)
    ensures View([h] + t) == View(t)[h.key := h.value]
    ensures Flagged([h] + t) == (if h.updated then {h.key} else {}) + Flagged(t)
  {
    assert ([h] + t)[1..] == t;
  }

  // ---- files

  predicate Plain(name: string) { name != "" && '/' !in name && name != "." && name != ".." }

  /** Keys that are file names which a later boot loads again. */
  predicate Tracked(k: string) { Plain(k) && k[0] != '.' }

  /** strchr(key, '.') */
  function Dot(k: string): (d: nat)
    ensures d <= |k| && (d < |k| ==> k[d] == '.')
  {
    if k == "" || k[0] == '.' then 0 else 1 + Dot(k[1..])
  }

  /** The part behind the first dot is a file name in the directory of the platform before it. */
  predicate HasPlat(k: string) { Dot(k) < |k| && '/' !in k && Plain(k[Dot(k) + 1..]) }

  function MainPath(k: string): string { "/pv/user-meta/" + k }

  function PlatPath(k: string): string
    requires HasPlat(k)
  {
    "/pv/user-meta." + k[Dot(k) := '/']
  }

  lemma {:induction false} DotIs(p: string, n: string)
    requires '.' !in p
    ensures Dot(p + "." + n) == |p|
  {
    var k := p + "." + n;
    if p == "" {
      assert k[0] == '.';
    } else {
      assert k[0] == p[0] && k[1..] == p[1..] + "." + n;
      DotIs(p[1..], n);
    }
  }

  /** The files of a key: its own, and for a key "p.n" with a name n behind its first dot that of n in the
      folder of platform p. Saving writes them, removing removes them, and neither touches another. */
  lemma FilesOfKey(files: Files, k: string, v: string, p: string, n: string)
    requires k != "" && '/' !in k && k != "." && k != ".."
    ensures '.' !in k || (k == p + "." + n && '.' !in p && (n == "" || n == "." || n == "..")) ==>
      && SaveFiles(files, k, v) == files["/pv/user-meta/" + k := v]
      && RemoveFiles(files, k) == files - {"/pv/user-meta/" + k}
    ensures k == p + "." + n && '.' !in p && n != "" && n != "." && n != ".." ==>
      && SaveFiles(files, k, v) == files["/pv/user-meta/" + k := v]["/pv/user-meta." + p + "/" + n := v]
      && RemoveFiles(files, k) == files - {"/pv/user-meta/" + k, "/pv/user-meta." + p + "/" + n}
  {
    if k == p + "." + n && '.' !in p {
      DotIs(p, n);
      assert k[Dot(k) + 1..] == n && forall i | 0 <= i < |n| :: n[i] == k[|p| + 1 + i];
      assert k[Dot(k) := '/'] == p + "/" + n;
      assert HasPlat(k) ==> PlatPath(k) == "/pv/user-meta." + p + "/" + n;
    } else if '.' !in k {
      assert Dot(k) == |k|;
    }
    hide Dot;
  }

  /** Any other key names no file. */
  lemma NoFilesOfKey(files: Files, k: string, v: string)
    requires k == "" || k == "." || k == ".." || '/' in k
    ensures SaveFiles(files, k, v) == files && RemoveFiles(files, k) == files - {"/pv/user-meta/" + k}
  {
    if '/' !in k {
      assert k == ".." ==> k[1..] == ".";
      assert k == "." ==> k[1..] == "";
    }
  }

  /** No two files of two keys are the same. */
  lemma PathsDiffer(a: string, b: string)
    ensures MainPath(a) == MainPath(b) ==> a == b
    ensures HasPlat(b) ==> MainPath(a) != PlatPath(b)
    ensures HasPlat(a) && HasPlat(b) && PlatPath(a) == PlatPath(b) ==> a == b
  {
    if MainPath(a) == MainPath(b) {
      assert MainPath(a)[14..] == a && MainPath(b)[14..] == b;
    }
    if HasPlat(b) {
      assert MainPath(a)[13] == '/' && PlatPath(b)[13] == '.';
    }
    if HasPlat(a) && HasPlat(b) && PlatPath(a) == PlatPath(b) {
      var s, t := a[Dot(a) := '/'], b[Dot(b) := '/'];
      assert s == PlatPath(a)[14..] == PlatPath(b)[14..] == t;
      assert t[Dot(a)] == '/';
      assert Dot(a) == Dot(b);
      assert a == s[Dot(a) := '.'] && b == t[Dot(b) := '.'];
    }
  }

  type Files = map<string, string>

  /** A file holds the value of a key, or neither is there. */
  predicate Mirrors(files: Files, path: string, view: map<string, string>, k: string) {
    if k in view then path in files && files[path] == view[k] else path !in files
  }

  predicate AgreeOn(view: map<string, string>, files: Files, k: string) {
    Mirrors(files, MainPath(k), view, k) && (HasPlat(k) ==> Mirrors(files, PlatPath(k), view, k))
  }

  ghost predicate Agree(view: map<string, string>, files: Files) {
    forall k | Tracked(k) :: AgreeOn(view, files, k)
  }

  /** pv_storage_save_usermeta */
  function SaveFiles(files: Files, k: string, v: string): Files {
    var f := if Plain(k) then files[MainPath(k) := v] else files;
    if HasPlat(k) then f[PlatPath(k) := v] else f
  }

  /** pv_storage_rm_usermeta */
  function RemoveFiles(files: Files, k: string): Files {
    files - {MainPath(k)} - if HasPlat(k) then {PlatPath(k)} else {}
  }

  lemma SaveAgrees(view: map<string, string>, files: Files, k: string, v: string)
    requires Agree(view, files)
    ensures Agree(view[k := v], SaveFiles(files, k, v))
  {
    forall x | Tracked(x)
      ensures AgreeOn(view[k := v], SaveFiles(files, k, v), x)
    {
      assert AgreeOn(view, files, x);
      PathsDiffer(x, k);
      PathsDiffer(k, x);
      hide MainPath, PlatPath, HasPlat;
    }
  }

  lemma RemoveAgrees(view: map<string, string>, files: Files, k: string)
    requires Agree(view, files)
    ensures Agree(view - {k}, RemoveFiles(files, k))
  {
    forall x | Tracked(x)
      ensures AgreeOn(view - {k}, RemoveFiles(files, k), x)
    {
      assert AgreeOn(view, files, x);
      PathsDiffer(x, k);
      PathsDiffer(k, x);
      hide MainPath, PlatPath, HasPlat;
    }
  }

  // ---- a run on the values

  /** The user metadata, with the keys that the next sweep spares. */
  datatype Abs = Abs(view: map<string, string>, flagged: set<string>)

  /** An answer of the cloud: the pairs of its object in order (null values have no value), or no object. */
  datatype Body = Malformed | Pairs(pairs: seq<(string, Option<string>)>)

  function CloudOf(pairs: seq<(string, Option<string>)>): map<string, string> {
    if pairs == [] then map[]
    else
      var p := pairs[|pairs| - 1];
      var m := CloudOf(pairs[..|pairs| - 1]);
      if p.1.Some? then m[p.0 := p.1.value] else m
  }

  /** The keys of an answer are those with a value, and the last value of a key counts. */
  lemma {:induction false} CloudIs(pairs: seq<(string, Option<string>)>, k: string)
    ensures k in CloudOf(pairs) <==> exists i | 0 <= i < |pairs| :: pairs[i].0 == k && pairs[i].1.Some?
    ensures forall i | 0 <= i < |pairs| && pairs[i].0 == k && pairs[i].1.Some?
                       && (forall j | i < j < |pairs| :: pairs[j].0 != k || pairs[j].1.None?) ::
      k in CloudOf(pairs) && CloudOf(pairs)[k] == pairs[i].1.value
  {
    if pairs == [] {
    } else {
      var last := |pairs| - 1;
      CloudIs(pairs[..last], k);
      if i :| 0 <= i < |pairs| && pairs[i].0 == k && pairs[i].1.Some? {
        assert i < last ==> pairs[..last][i] == pairs[i];
      }
      forall i | 0 <= i < last && pairs[i].0 == k && pairs[i].1.Some?
                 && (forall j | i < j < |pairs| :: pairs[j].0 != k || pairs[j].1.None?)
        ensures k in CloudOf(pairs) && CloudOf(pairs)[k] == pairs[i].1.value
      {
        assert pairs[..last][i] == pairs[i];
        assert pairs[last].0 != k || pairs[last].1.None?;
        assert forall j | i < j < last :: pairs[..last][j] == pairs[j];
      }
    }
  }

  function Cloud(body: Body): map<string, string> {
    match body
    case Malformed => map[]
    case Pairs(pairs) => CloudOf(pairs)
  }

  function Restrict(m: map<string, string>, keys: set<string>): map<string, string> {
    map k | k in m && k in keys :: m[k]
  }

  /** A sync: what the cloud says, and of the rest what was written since the last sync. */
  function Synced(a: Abs, cloud: map<string, string>): Abs { Abs(Restrict(a.view, a.flagged) + cloud, {}) }

  datatype Op = Write(key: string, value: string) | Drop(key: string) | Sync(body: Body)

  function Step(a: Abs, op: Op): Abs {
    match op
    case Write(k, v) => Abs(a.view[k := v], a.flagged + {k})
    case Drop(k) => Abs(a.view - {k}, a.flagged - {k})
    case Sync(b) => Synced(a, Cloud(b))
  }

  function Run(a: Abs, ops: seq<Op>): Abs {
    if ops == [] then a else Step(Run(a, ops[..|ops| - 1]), ops[|ops| - 1])
  }

  predicate Local(ops: seq<Op>) { forall i | 0 <= i < |ops| :: !ops[i].Sync? }

  /** What a run of local operations writes and does not drop again. */
  function Written(ops: seq<Op>): map<string, string> {
    if ops == [] then map[]
    else
      var m := Written(ops[..|ops| - 1]);
      match ops[|ops| - 1]
      case Write(k, v) => m[k := v]
      case Drop(k) => m - {k}
      case Sync(_) => m
  }

  lemma {:induction false} LocalRun(a: Abs, ops: seq<Op>)
    requires Local(ops) && a.flagged == {}
    ensures Run(a, ops).flagged == Written(ops).Keys
    ensures Restrict(Run(a, ops).view, Run(a, ops).flagged) == Written(ops)
  {
    if ops == [] {
    } else {
      LocalRun(a, ops[..|ops| - 1]);
    }
  }

  /** From one sync to the next, over any local operations between them: the result is the cloud's pairs
      over what was written in between, whatever was there before. */
  lemma {:induction false} BetweenSyncs(a: Abs, first: Body, ops: seq<Op>, second: Body)
    requires Local(ops)
    ensures Step(Run(Step(a, Sync(first)), ops), Sync(second)).view == Written(ops) + Cloud(second)
  {
    LocalRun(Step(a, Sync(first)), ops);
  }

  /** So a sync leaves exactly the cloud's map when and only when every key written since the sync before is
      one of the cloud's. */
  lemma {:induction false} ExactlyCloud(a: Abs, cloud: map<string, string>)
    requires a.flagged <= a.view.Keys
    ensures Synced(a, cloud).view == cloud <==> a.flagged <= cloud.Keys
  {
    var s := Synced(a, cloud).view;
    if a.flagged <= cloud.Keys {
      assert s == cloud;
    } else {
      var k :| k in a.flagged && k !in cloud;
      assert k in s;
    }
  }

  /** Two syncs with nothing written in between. */
  lemma {:induction false} SecondSync(a: Abs, first: Body, second: Body)
    ensures Step(Step(a, Sync(first)), Sync(second)).view == Cloud(second)
  {
    BetweenSyncs(a, first, [], second);
    assert Run(Step(a, Sync(first)), []) == Step(a, Sync(first));
  }

  // ---- the list in place

  /** pv_metadata_get_by_key: the index of the entry, or the length. */
  function Find(list: seq<Meta>, key: string): (n: nat)
    ensures n <= |list| && (n < |list| ==> list[n].key == key)
    ensures forall i | 0 <= i < n :: list[i].key != key
  {
    if list == [] || list[0].key == key then 0 else 1 + Find(list[1..], key)
  }

  lemma FindTells(list: seq<Meta>, key: string)
    requires Unique(list)
    ensures key in View(list) <==> Find(list, key) < |list|
    ensures forall i | 0 <= i < |list| && list[i].key == key :: Find(list, key) == i
  {
    ViewHas(list, key);
    hide View, Find;
    if key in View(list) {
      var i :| 0 <= i < |list| && list[i].key == key;
      assert Find(list, key) == i;
    }
  }

  /** What the sweep leaves, unflagged. */
  function Swept(list: seq<Meta>): seq<Meta> {
    if list == [] then []
    else (if list[0].updated then [list[0].(updated := false)] else []) + Swept(list[1..])
  }

  lemma {:induction false} SweptIsRestricted(list: seq<Meta>)
    requires Unique(list)
    ensures Unique(Swept(list)) && Flagged(Swept(list)) == {}
    ensures View(Swept(list)) == Restrict(View(list), Flagged(list))
  {
    if list == [] {
    } else {
      var h, t := list[0], list[1..];
      SweptIsRestricted(t);
      ViewHas(t, h.key);
      FlaggedIn(t);
      SweptHead(h, t);
    }
  }

  lemma SweptHead(h: Meta, t: seq<Meta>)
    requires Unique([h] + t) && Unique(Swept(t)) && Flagged(Swept(t)) == {}
    requires View(Swept(t)) == Restrict(View(t), Flagged(t)) && h.key !in View(t) && Flagged(t) <= View(t).Keys
    ensures Unique(Swept([h] + t)) && Flagged(Swept([h] + t)) == {}
    ensures View(Swept([h] + t)) == Restrict(View([h] + t), Flagged([h] + t))
  {
    Cons(h, t);
    SweptCons(h, t);
    if h.updated {
      var m := h.(updated := false);
      ViewHas(Swept(t), h.key);
      UniqueCons(m, Swept(t));
      Cons(m, Swept(t));
      hide View, Flagged, Swept, Unique;
      SpareOne(View(t), Flagged(t), h.key, h.value);
    } else {
      assert [] + Swept(t) == Swept(t);
      hide View, Flagged, Swept, Unique;
      assert Restrict(View(t)[h.key := h.value], {} + Flagged(t)) == Restrict(View(t), Flagged(t));
    }
  }

  lemma SweptCons(h: Meta, t: seq<Meta>)
    ensures Swept([h] + t) == (if h.updated then [h.(updated := false)] else []) + Swept(t)
  {
    assert ([h] + t)[1..] == t;
  }

  lemma UniqueCons(h: Meta, t: seq<Meta>)
    requires Unique(t) && forall j | 0 <= j < |t| :: t[j].key != h.key
    ensures Unique([h] + t)
  {
  }

  lemma SpareOne(view: map<string, string>, flagged: set<string>, k: string, v: string)
    ensures Restrict(view[k := v], {k} + flagged) == Restrict(view, flagged)[k := v]
  {
  }

  /** What the files of one key say while the files of the keys in todo are still to be loaded. */
  predicate LoadingOn(view: map<string, string>, files: Files, todo: seq<string>, k: string) {
    && (k in view ==> AgreeOn(view, files, k))
    && (k !in view && HasPlat(k) && PlatPath(k) in files ==> MainPath(k) in files)
    && (k !in view && MainPath(k) in files ==> k in todo)
  }

  ghost predicate Loading(view: map<string, string>, files: Files, todo: seq<string>) {
    forall k | Tracked(k) :: LoadingOn(view, files, todo, k)
  }

  lemma LoadedOne(view: map<string, string>, files: Files, todo: seq<string>)
    requires todo != [] && Loading(view, files, todo)
    ensures !Tracked(todo[0]) || MainPath(todo[0]) !in files ==> Loading(view, files, todo[1..])
    ensures Tracked(todo[0]) && MainPath(todo[0]) in files ==>
      (var k := todo[0];
       var v := files[MainPath(k)];
       && Loading(view[k := v], SaveFiles(files, k, v), todo[1..])
       && (k in view ==> Loading(view, files, todo[1..]) && view[k] == v))
  {
    var k, path := todo[0], MainPath(todo[0]);
    forall x | Tracked(x)
      ensures !Tracked(k) || path !in files || k in view ==> LoadingOn(view, files, todo[1..], x)
      ensures Tracked(k) && path in files ==> LoadingOn(view[k := files[path]], SaveFiles(files, k, files[path]), todo[1..], x)
    {
      assert LoadingOn(view, files, todo, x);
      PathsDiffer(x, k);
      PathsDiffer(k, x);
      hide MainPath, PlatPath, HasPlat, Plain;
      assert x in todo ==> x == k || x in todo[1..];
    }
    if Tracked(k) && k in view {
      assert LoadingOn(view, files, todo, k);
    }
  }

  predicate SameAt(a: Files, b: Files, path: string) {
    (path in a <==> path in b) && (path in a ==> a[path] == b[path])
  }

  ghost predicate SameMain(a: Files, b: Files) { forall k | Plain(k) :: SameAt(a, b, MainPath(k)) }

  lemma SaveKeepsMain(a: Files, b: Files, n: string)
    requires SameMain(a, b) && MainPath(n) in b
    ensures SameMain(a, SaveFiles(b, n, b[MainPath(n)]))
  {
    forall k | Plain(k)
      ensures SameAt(a, SaveFiles(b, n, b[MainPath(n)]), MainPath(k))
    {
      assert SameAt(a, b, MainPath(k));
      PathsDiffer(k, n);
      hide MainPath, PlatPath, HasPlat;
    }
  }

  lemma LoadedAll(view: map<string, string>, before: Files, files: Files, todo: seq<string>)
    requires todo == [] && Loading(view, files, todo) && SameMain(before, files)
    requires forall k | k in view :: Tracked(k)
    ensures Agree(view, files)
    ensures forall k | Plain(k) :: Mirrors(files, MainPath(k), view, k) <==> (k[0] != '.' || MainPath(k) !in before)
    ensures forall k | Tracked(k) :: Mirrors(before, MainPath(k), view, k)
  {
    forall k | Plain(k)
      ensures Tracked(k) ==> AgreeOn(view, files, k) && Mirrors(before, MainPath(k), view, k)
      ensures Mirrors(files, MainPath(k), view, k) <==> (k[0] != '.' || MainPath(k) !in before)
    {
      assert SameAt(before, files, MainPath(k));
      assert Tracked(k) ==> LoadingOn(view, files, todo, k);
    }
  }

  class Metadata {
    var list: seq<Meta>
    var files: Files

    constructor (disk: Files)
      ensures list == [] && files == disk
    {
      list, files := [], disk;
    }

    method LoadFile(name: string, ghost todo: seq<string>, ghost before: Files)
      requires name != "" && '/' !in name && todo != [] && todo[0] == name
      requires Unique(list) && Flagged(list) == View(list).Keys && SameMain(before, files)
      requires Loading(View(list), files, todo) && forall k | k in View(list) :: Tracked(k)
      modifies this
      ensures Unique(list) && Flagged(list) == View(list).Keys && SameMain(before, files)
      ensures Loading(View(list), files, todo[1..]) && forall k | k in View(list) :: Tracked(k)
    {
      LoadedOne(View(list), files, todo);
      assert Tracked(name) <==> name[0] != '.';
      hide Loading, SameMain, View, Flagged, HasPlat, PlatPath, SaveFiles, MainPath, Agree;
      if name[0] != '.' && MainPath(name) in files {
        SaveKeepsMain(before, files, name);
        var _ := AddUsermeta(name, files[MainPath(name)]);
      }
    }

    /** pv_metadata_load_usermeta at boot, over a listing of the directory: every tracked key that had a
        file is there again, flagged, and the files agree with the list, but for the file of a key that
        begins with a dot: it is never loaded and stays behind. */
    method Load(names: seq<string>)
      requires list == []
      requires forall i | 0 <= i < |names| :: names[i] != "" && '/' !in names[i]
      requires forall k | Tracked(k) :: k in names <==> MainPath(k) in files
      requires forall k | Tracked(k) && HasPlat(k) && PlatPath(k) in files :: MainPath(k) in files
      modifies this
      ensures Valid() && Flagged(list) == View(list).Keys
      ensures forall k | Plain(k) :: Mirrors(files, MainPath(k), View(list), k) <==> (k[0] != '.' || MainPath(k) !in old(files))
      ensures forall k | Tracked(k) :: Mirrors(old(files), MainPath(k), View(list), k)
    {
      assert Loading(View(list), files, names[0..]);
      hide Loading, SameMain, Agree, View, Flagged, HasPlat;
      var i := 0;
      while i < |names|
        invariant 0 <= i <= |names| && Unique(list) && Flagged(list) == View(list).Keys
        invariant Loading(View(list), files, names[i..]) && SameMain(old(files), files)
        invariant forall k | k in View(list) :: Tracked(k)
      {
        assert names[i..][1..] == names[i + 1..];
        LoadFile(names[i], names[i..], old(files));
        i := i + 1;
      }
      LoadedAll(View(list), old(files), files, names[i..]);
    }

    ghost predicate Valid()
      reads this
    {
      Unique(list) && Agree(View(list), files)
    }

    function Value(): Abs
      reads this
    {
      Abs(View(list), Flagged(list))
    }

    /** pv_metadata_add, on the user metadata: 1 when the value is new, 0 when it was there. */
    method Add(key: string, value: string) returns (ret: int)
      requires Unique(list)
      modifies this`list
      ensures Unique(list) && View(list) == old(View(list))[key := value]
      ensures Flagged(list) == old(Flagged(list))
      ensures ret == if old(key in View(list) && View(list)[key] == value) then 0 else 1
    {
      FindTells(list, key);
      var i := Find(list, key);
      if i < |list| {
        ViewAt(list, i);
        if list[i].value == value {
          return 0;
        }
        ViewUpdate(list, i, list[i].(value := value));
        list := list[i := list[i].(value := value)];
        return 1;
      }
      FlaggedIn(list);
      assert ([Meta(key, value, false)] + list)[1..] == list;
      list := [Meta(key, value, false)] + list;
      return 1;
    }

    /** pv_metadata_add_usermeta: it reports success for a changed value only, and saves that one only. */
    method AddUsermeta(key: string, value: string) returns (ret: int)
      requires Unique(list)
      modifies this
      ensures Unique(list) && Value() == Step(old(Value()), Write(key, value))
      ensures ret == if old(key in View(list) && View(list)[key] == value) then -1 else 0
      ensures files == if ret == 0 then SaveFiles(old(files), key, value) else old(files)
      ensures old(Valid()) ==> Valid()
    {
      if Valid() {
        SaveAgrees(View(list), files, key, value);
      }
      var added := Add(key, value);
      FindTells(list, key);
      var i := Find(list, key);
      ViewUpdate(list, i, list[i].(updated := true));
      ViewAt(list, i);
      list := list[i := list[i].(updated := true)];
      assert View(list) == old(View(list))[key := value];
      if added > 0 {
        files := SaveFiles(files, key, value);
        return 0;
      }
      assert View(list) == old(View(list));
      return -1;
    }

    /** pv_metadata_rm_usermeta */
    method RmUsermeta(key: string) returns (ret: int)
      requires Valid()
      modifies this
      ensures Valid() && Value() == Step(old(Value()), Drop(key))
      ensures ret == if old(key in View(list)) then 0 else -1
      ensures forall i | 0 <= i < |old(list)| && old(list)[i].key == key :: list == old(list)[..i] + old(list)[i + 1..]
    {
      FindTells(list, key);
      FlaggedIn(list);
      var i := Find(list, key);
      if i < |list| {
        ViewRemove(list, i);
        RemoveAgrees(View(list), files, key);
        list := list[..i] + list[i + 1..];
        files := RemoveFiles(files, key);
        return 0;
      }
      return -1;
    }

    /** One turn of the loop in usermeta_clear: the entry at i is kept without its flag, or removed. */
    method ClearOne(i: nat) returns (next: nat)
      requires Valid() && i < |list|
      modifies this
      ensures Valid() && next <= |list| && |list| - next < old(|list|) - i
      ensures list[..next] + Swept(list[next..]) == old(list[..i] + Swept(list[i..]))
    {
      var m := list[i];
      ghost var was := list;
      SweptTurn(was, i);
      if m.updated {
        ViewUpdate(list, i, m.(updated := false));
        ViewAt(list, i);
        list := list[i := m.(updated := false)];
        assert View(list) == View(was);
        return i + 1;
      }
      var _ := RmUsermeta(m.key);
      return i;
    }

    /** usermeta_clear */
    method Clear()
      requires Valid()
      modifies this
      ensures Valid() && Value() == Abs(Restrict(old(View(list)), old(Flagged(list))), {})
    {
      SweptIsRestricted(list);
      var i := 0;
      assert list[..0] + Swept(list[0..]) == Swept(list);
      hide View, Unique, Agree;
      while i < |list|
        invariant 0 <= i <= |list| && Valid()
        invariant list[..i] + Swept(list[i..]) == old(Swept(list))
        decreases |list| - i
      {
        i := ClearOne(i);
      }
      assert list[..i] + Swept(list[i..]) == list;
    }

    /** pv_usermeta_parse: nothing happens when there is no object. */
    method Parse(body: Body) returns (ret: int)
      requires Valid()
      modifies this
      ensures Valid() && ret == if body.Malformed? then -1 else 0
      ensures Value() == Abs(old(View(list)) + Cloud(body), old(Flagged(list)) + Cloud(body).Keys)
    {
      hide View, Flagged, Unique, Agree;
      if body.Malformed? {
        return -1;
      }
      var i := 0;
      while i < |body.pairs|
        invariant 0 <= i <= |body.pairs| && Valid()
        invariant View(list) == old(View(list)) + CloudOf(body.pairs[..i])
        invariant Flagged(list) == old(Flagged(list)) + CloudOf(body.pairs[..i]).Keys
      {
        assert body.pairs[..i + 1][..i] == body.pairs[..i];
        if body.pairs[i].1.Some? {
          var _ := AddUsermeta(body.pairs[i].0, body.pairs[i].1.value);
        }
        i := i + 1;
      }
      assert body.pairs[..i] == body.pairs;
      return 0;
    }

    /** pv_metadata_parse_usermeta: a body that is malformed is swept after all the same. */
    method ParseUsermeta(body: Body)
      requires Valid()
      modifies this
      ensures Valid() && Value() == Step(old(Value()), Sync(body))
    {
      var _ := Parse(body);
      Clear();
      SyncIs(old(Value()), Cloud(body));
    }
  }

  lemma SyncIs(a: Abs, cloud: map<string, string>)
    ensures Restrict(a.view + cloud, a.flagged + cloud.Keys) == Restrict(a.view, a.flagged) + cloud
  {
  }

  lemma SweptTurn(list: seq<Meta>, i: nat)
    requires i < |list|
    ensures var m := list[i].(updated := false); list[i].updated ==>
      list[i := m][..i + 1] + Swept(list[i := m][i + 1..]) == list[..i] + Swept(list[i..])
    ensures var l := list[..i] + list[i + 1..]; !list[i].updated ==> l[..i] + Swept(l[i..]) == list[..i] + Swept(list[i..])
  {
    assert list[i..][1..] == list[i + 1..];
    var m := list[i].(updated := false);
    assert list[i := m][..i + 1] == list[..i] + [m];
    assert list[i := m][i + 1..] == list[i + 1..];
    var l := list[..i] + list[i + 1..];
    assert l[..i] == list[..i] && l[i..] == list[i + 1..];
  }
}
