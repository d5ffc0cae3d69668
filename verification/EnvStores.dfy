/**
 Both boot environment back ends implement one interface (bl_ops): replaying any sequence of
 operations on a U-Boot file and on a GRUB block leaves the same entries, so every key of a
 prefix-free set reads the same from both and as the operations say.
 */
module EnvStores {
  import opened Wrappers
  import opened BootEnv
  import opened CStrings
  import U = UbootEnv
  import G = GrubEnv
  import P = UpdateProtocol

  /** An operation both back ends have room for, on entries es. */
  predicate Admissible(es: seq<string>, o: Op) {
    && U.UbootKey(o.k) && G.GrubKey(o.k)
    && (o.Set? ==>
          && FreeOf(o.v, NUL) && U.UbootEntry(Entry(o.k, o.v)) && G.GrubEntry(Entry(o.k, o.v))
          && |Entry(o.k, o.v)| + 1 < 128
          && U.Fits(SetKey(es, o.k, o.v)) && G.Fits(SetKey(es, o.k, o.v)))
  }

  predicate AllAdmissible(es: seq<string>, ops: seq<Op>) {
    forall i | 0 <= i < |ops| :: Admissible(RunOps(es, ops[..i]), ops[i])
  }

  method Replay(u: U.Store, g: G.Store, ops: seq<Op>, q: string) returns (fromUboot: Option<string>, fromGrub: Option<string>)
    requires u.Valid() && g.Valid() && g.Readable() && u.es == g.es
    requires AllAdmissible(u.es, ops) && U.UbootKey(q) && G.GrubKey(q)
    requires forall o | o in ops :: PrefixFree(o.k, q)
    modifies u, g
    ensures u.Valid() && g.Valid() && u.es == g.es == RunOps(old(u.es), ops)
    ensures fromUboot == fromGrub == Meaning(Get(old(u.es), q), q, ops)
  {
    ghost var es := u.es;
    assert ops[..0] == [];
    for i := 0 to |ops|
      invariant u.Valid() && g.Valid() && g.Readable() && u.es == g.es == RunOps(es, ops[..i])
    {
      var o := ops[i];
      assert ops[..i + 1][..i] == ops[..i];
      assert Admissible(RunOps(es, ops[..i]), ops[i]);
      match o {
        case Set(k, v) =>
          var _ := u.SetEnvKey(k, v, P.Stored);
          var _ := g.SetEnvKey(k, v, true);
        case Unset(k) =>
          var _ := u.UnsetEnvKey(k, P.Stored);
          var _ := g.UnsetEnvKey(k, true);
      }
    }
    assert ops[..|ops|] == ops;
    fromUboot := u.GetEnvKey(q);
    fromGrub := g.GetEnvKey(q);
    StoreIsAMap(es, ops, q);
  }
}
