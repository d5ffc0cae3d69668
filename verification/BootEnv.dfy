/**
 The boot environment as its two back ends keep it (uboot.c, grub.c): a list of "key=value" entries
 laid out one after the other in a flat buffer. This module is the abstract store both refine, and
 its laws; bytes are `char`s.
 */
module BootEnv {
  import opened CStrings
  import opened Wrappers
  import P = UpdateProtocol

  const EQ: char := '='

  /** Keys are plain words; entries are "key=value" texts. */
  predicate GoodKey(k: string) { k != "" && FreeOf(k, EQ) }

  predicate GoodEntry(e: string, sep: char) { EQ in e && FreeOf(e, sep) }

  function Entry(k: string, v: string): string { k + [EQ] + v }

  // ---------------------------------------------------------------- the abstract store

  /** The entries that do not start with k, in order. */
  function Others(es: seq<string>, k: string): seq<string> {
    if es == [] then []
    else (if k <= es[0] then [] else [es[0]]) + Others(es[1..], k)
  }

  function SetKey(es: seq<string>, k: string, v: string): seq<string> { Others(es, k) + [Entry(k, v)] }

  /** The value of the first entry that starts with k: the text after k and one more character. */
  function Get(es: seq<string>, k: string): Option<string> {
    if es == [] then None
    else if k <= es[0] && |k| < |es[0]| then Some(es[0][|k| + 1..])
    else Get(es[1..], k)
  }

  datatype Op = Set(k: string, v: string) | Unset(k: string)

  function RunOp(es: seq<string>, o: Op): seq<string> {
    match o
    case Set(k, v) => SetKey(es, k, v)
    case Unset(k) => Others(es, k)
  }

  function RunOps(es: seq<string>, ops: seq<Op>): seq<string>
    decreases |ops|
  {
    if ops == [] then es else RunOp(RunOps(es, ops[..|ops| - 1]), ops[|ops| - 1])
  }

  /** What the operations mean: the last one on a key decides its value. */
  function Meaning(initial: Option<string>, k: string, ops: seq<Op>): Option<string>
    decreases |ops|
  {
    if ops == [] then initial
    else
      var o := ops[|ops| - 1];
      if o.k != k then Meaning(initial, k, ops[..|ops| - 1])
      else if o.Set? then Some(o.v) else None
  }

  /** No key is the beginning of another one. */
  predicate PrefixFree(a: string, b: string) { a == b || (!(a <= b) && !(b <= a)) }

  // ---------------------------------------------------------------- laws

  lemma {:induction false} GetConcat(a: seq<string>, b: seq<string>, k: string)
    ensures Get(a + b, k) == if Get(a, k).Some? then Get(a, k) else Get(b, k)
  {
    if a == [] {
      assert a + b == b;
    } else {
      assert (a + b)[1..] == a[1..] + b;
      GetConcat(a[1..], b, k);
    }
  }

  /** Removing the entries that start with k removes k and leaves every key apart from k alone. */
  lemma {:induction false} GetOthers(es: seq<string>, k: string, q: string)
    requires PrefixFree(k, q)
    ensures Get(Others(es, k), q) == if q == k then None else Get(es, q)
  {
    if es == [] {
    } else {
      GetOthers(es[1..], k, q);
      GetConcat(if k <= es[0] then [] else [es[0]], Others(es[1..], k), q);
      if k <= es[0] && q <= es[0] {
        SamePrefix(k, q, es[0]);
      }
    }
  }

  lemma SamePrefix(a: string, b: string, s: string)
    requires a <= s && b <= s
    ensures a <= b || b <= a
  {
    if |a| <= |b| {
      assert b[..|a|] == s[..|a|] == a;
    } else {
      assert a[..|b|] == s[..|b|] == b;
    }
  }

  lemma GetEntry(k: string, v: string, q: string)
    requires GoodKey(k) && GoodKey(q) && PrefixFree(k, q)
    ensures Get([Entry(k, v)], q) == if q == k then Some(v) else None
  {
    var e := Entry(k, v);
    assert k <= e && e[|k|] == EQ && e[|k| + 1..] == v;
    if q != k && q <= e {
      SamePrefix(k, q, e);
    }
    assert Get([e][1..], q) == None;
  }

  /** One operation changes exactly its own key. */
  lemma GetAfterOp(es: seq<string>, o: Op, q: string)
    requires GoodKey(o.k) && GoodKey(q) && PrefixFree(o.k, q)
    ensures Get(RunOp(es, o), q) == Meaning(Get(es, q), q, [o])
  {
    GetOthers(es, o.k, q);
    assert [o][..0] == [];
    assert Meaning(Get(es, q), q, [o]) == if o.k != q then Get(es, q) else if o.Set? then Some(o.v) else None;
    if o.Set? {
      GetConcat(Others(es, o.k), [Entry(o.k, o.v)], q);
      GetEntry(o.k, o.v, q);
    }
  }

  /** Over any sequence of operations on a prefix-free set of keys, every key reads as the last
      operation on it says. */
  lemma {:induction false} StoreIsAMap(es: seq<string>, ops: seq<Op>, q: string)
    requires GoodKey(q) && forall o | o in ops :: GoodKey(o.k) && PrefixFree(o.k, q)
    ensures Get(RunOps(es, ops), q) == Meaning(Get(es, q), q, ops)
    decreases |ops|
  {
    if ops == [] {
    } else {
      var before := ops[..|ops| - 1];
      StoreIsAMap(es, before, q);
      GetAfterOp(RunOps(es, before), ops[|ops| - 1], q);
      assert [ops[|ops| - 1]][..0] == [];
    }
  }

  /** An operation on k leaves q alone, whatever is stored, exactly when neither is the beginning of the other. */
  lemma OthersKeepExactly(k: string, q: string)
    requires GoodKey(k) && GoodKey(q) && k != q
    ensures (forall es :: Get(Others(es, k), q) == Get(es, q)) <==> PrefixFree(k, q)
  {
    if PrefixFree(k, q) {
      forall es ensures Get(Others(es, k), q) == Get(es, q) { GetOthers(es, k, q); }
    } else {
      var es := [Entry(if k <= q then q else k, "")];
      PrefixLoses(k, q, es[0]);
      assert Get(Others(es, k), q) != Get(es, q);
    }
  }

  /** An entry that starts with both keys is lost to q when k goes. */
  lemma PrefixLoses(k: string, q: string, e: string)
    requires k <= e && q <= e && |q| < |e|
    ensures Get([e], q).Some? && Get(Others([e], k), q).None?
  {
    assert Others([e][1..], k) == [];
  }

  /** Without prefix-freedom the law fails: removing pv_try also removes pv_trying. */
  lemma UnsetTryRemovesTrying(v: string)
    ensures Get([Entry("pv_trying", v)], "pv_trying") == Some(v)
    ensures Get(RunOp([Entry("pv_trying", v)], Unset("pv_try")), "pv_trying") == None
  {
    var e := Entry("pv_trying", v);
    assert "pv_try" == "pv_trying"[..6] == e[..6];
    assert "pv_try" <= e && "pv_trying" <= e && e[10..] == v;
    assert Others([e][1..], "pv_try") == [];
  }

  // ---------------------------------------------------------------- the environment of the update protocol

  function AsEnv(es: seq<string>): P.Env { P.Env(Get(es, "pv_rev"), Get(es, "pv_try")) }

  function OpOf(w: P.Write): Op {
    match w
    case SetRev(r) => Set("pv_rev", r)
    case SetTry(r) => Set("pv_try", r)
    case UnsetTry => Unset("pv_try")
  }

  /** What an operation leaves behind, by its result. */
  function After(es: seq<string>, o: Op, res: P.WriteResult): seq<string> { if res.Stored? then RunOp(es, o) else es }

  /** The store implements the writes of the update protocol. */
  lemma StoreImplementsEnv(es: seq<string>, w: P.Write, res: P.WriteResult)
    ensures AsEnv(After(es, OpOf(w), res)) == P.Stores(w, res).Apply(AsEnv(es))
  {
    assert P.One(w).Apply(AsEnv(es)) == P.ApplyWrite(AsEnv(es), w);
    var r, t := "pv_rev", "pv_try";
    assert r[3] != t[3];
    assert GoodKey(r) && GoodKey(t) && PrefixFree(r, t) && PrefixFree(t, r);
    assert [OpOf(w)][..0] == [];
    GetAfterOp(es, OpOf(w), r);
    GetAfterOp(es, OpOf(w), t);
  }

  // ---------------------------------------------------------------- flat layout

  /** The entries one after the other, each followed by the separator. */
  function Flat(es: seq<string>, sep: char): string {
    if es == [] then "" else es[0] + [sep] + Flat(es[1..], sep)
  }

  lemma {:induction false} FlatConcat(a: seq<string>, b: seq<string>, sep: char)
    ensures Flat(a + b, sep) == Flat(a, sep) + Flat(b, sep)
  {
    if a == [] {
      assert a + b == b;
    } else {
      assert (a + b)[1..] == a[1..] + b;
      FlatConcat(a[1..], b, sep);
    }
  }

  /** Where entry j sits in the flat layout. */
  lemma FlatAt(es: seq<string>, j: nat, sep: char)
    requires j < |es|
    ensures Flat(es, sep) == Flat(es[..j], sep) + (es[j] + [sep]) + Flat(es[j + 1..], sep)
    ensures Flat(es[..j + 1], sep) == Flat(es[..j], sep) + (es[j] + [sep])
  {
    assert es == es[..j] + es[j..];
    FlatConcat(es[..j], es[j..], sep);
    assert es[..j + 1] == es[..j] + [es[j]];
    FlatConcat(es[..j], [es[j]], sep);
    assert Flat([es[j]], sep) == es[j] + [sep] + Flat([es[j]][1..], sep);
  }

  lemma {:induction false} OthersConcat(a: seq<string>, b: seq<string>, k: string)
    ensures Others(a + b, k) == Others(a, k) + Others(b, k)
  {
    if a == [] {
      assert a + b == b;
    } else {
      assert (a + b)[1..] == a[1..] + b;
      OthersConcat(a[1..], b, k);
    }
  }

  /** What one more entry adds to the copy. */
  lemma OthersSnoc(es: seq<string>, j: nat, k: string, sep: char)
    requires j < |es|
    ensures Flat(Others(es[..j + 1], k), sep) ==
      Flat(Others(es[..j], k), sep) + (if k <= es[j] then "" else es[j] + [sep])
  {
    var e := es[j];
    assert es[..j + 1] == es[..j] + [e];
    OthersConcat(es[..j], [e], k);
    assert Others([e][1..], k) == [];
    var last := if k <= e then [] else [e];
    assert Others([e], k) == last;
    FlatConcat(Others(es[..j], k), last, sep);
    assert [e][1..] == [];
    assert Flat([e], sep) == e + [sep] + "" == e + [sep];
  }

  lemma {:induction false} OthersShorter(es: seq<string>, k: string, sep: char)
    ensures |Flat(Others(es, k), sep)| <= |Flat(es, sep)|
    ensures forall e | e in Others(es, k) :: e in es
  {
    if es == [] {
    } else {
      OthersShorter(es[1..], k, sep);
      var first := if k <= es[0] then [] else [es[0]];
      FlatConcat(first, Others(es[1..], k), sep);
      assert Flat([es[0]][1..], sep) == "";
    }
  }

  /** The read-side search up to entry j: no earlier entry matches. */
  lemma {:induction false} GetAt(es: seq<string>, j: nat, k: string)
    requires j <= |es| && forall i | 0 <= i < j :: !(k <= es[i])
    ensures Get(es, k) == Get(es[j..], k)
  {
    if j == 0 {
    } else {
      assert es[1..][j - 1..] == es[j..];
      GetAt(es[1..], j - 1, k);
    }
  }
}
