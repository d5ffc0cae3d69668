/**
 uboot.c: the boot environment as NUL-terminated entries in a 64 KiB buffer. The loops run over a
 16-bit index and stop at a double NUL (or at erased flash); that they stop at all, and compute the
 abstract operations of BootEnv, is what is proved here.
 */
module UbootEnv {
  import opened Wrappers
  import opened BootEnv
  import opened CStrings
  import P = UpdateProtocol

  const SIZE := 65536
  const ERASED: char := '\U{FF}'

  predicate UbootKey(k: string) { GoodKey(k) && FreeOf(k, NUL) }

  predicate UbootEntry(e: string) {
    GoodEntry(e, NUL) && !(|e| >= 2 && e[0] == ERASED && e[1] == ERASED)
  }

  /** A buffer holding the entries es: at most one leading NUL, the entries, then only NULs, with room
      for the double NUL that ends them. */
  ghost predicate Laid(buf: string, lead: nat, es: seq<string>) {
    var f := Flat(es, NUL);
    && |buf| == SIZE && lead <= 1 && lead + |f| + 2 <= SIZE
    && (forall e | e in es :: UbootEntry(e))
    && buf[lead..lead + |f|] == f
    && (forall k | 0 <= k < lead || lead + |f| <= k < SIZE :: buf[k] == NUL)
  }

  function Zeros(n: nat): string { seq(n, _ => NUL) }

  /** Room for one more operation: the result still ends in a double NUL. */
  predicate Fits(es: seq<string>) { |Flat(es, NUL)| + 2 <= SIZE }

  lemma EntryAt(buf: string, lead: nat, es: seq<string>, j: nat)
    requires Laid(buf, lead, es) && j < |es|
    ensures var p := lead + |Flat(es[..j], NUL)|; var e := es[j];
      && p + |e| + 1 == lead + |Flat(es[..j + 1], NUL)| <= lead + |Flat(es, NUL)|
      && (forall q | 0 <= q < |e| :: buf[p + q] == e[q] != NUL) && buf[p + |e|] == NUL
      && e != "" && UbootEntry(e) && buf[p] == e[0] && (|e| >= 2 ==> buf[p + 1] == e[1])
  {
    FlatAt(es, j, NUL);
    var a, e, f := Flat(es[..j], NUL), es[j], Flat(es, NUL);
    var c := Flat(es[j + 1..], NUL);
    hide Flat;
    assert e in es;
    forall q | 0 <= q <= |e|
      ensures buf[lead + |a| + q] == (e + [NUL])[q]
    {
      Nested(a, e + [NUL], c, q);
      assert buf[lead + |a| + q] == buf[lead..lead + |f|][|a| + q];
    }
    assert buf[lead + |a| + 0] == (e + [NUL])[0];
    assert |e| >= 2 ==> buf[lead + |a| + 1] == (e + [NUL])[1];
    assert buf[lead + |a| + |e|] == (e + [NUL])[|e|];
    assert forall q | 0 <= q < |e| :: buf[lead + |a| + q] == (e + [NUL])[q] == e[q];
  }

  lemma Nested(a: string, b: string, c: string, q: nat)
    requires q < |b|
    ensures (a + b + c)[|a| + q] == b[q]
  {
  }

  lemma AllEntries(es: seq<string>)
    ensures es[..|es|] == es
  {
  }

  /** memcmp of the entry at p with a key: the key does not reach past the terminator. */
  lemma KeyMatch(buf: string, p: nat, e: string, key: string)
    requires p + |e| < |buf| && (forall q | 0 <= q < |e| :: buf[p + q] == e[q]) && buf[p + |e|] == NUL
    requires FreeOf(key, NUL)
    ensures (p + |key| <= |buf| && buf[p..p + |key|] == key) <==> key <= e
  {
    if p + |key| <= |buf| && buf[p..p + |key|] == key {
      assert forall q | 0 <= q < |key| :: key[q] == buf[p..p + |key|][q] == buf[p + q];
    }
  }

  /** strlen of a text whose terminator is known. */
  method TextLen(buf: array<char>, p: nat, ghost len: nat) returns (n: nat)
    requires p + len < buf.Length && buf[p + len] == NUL
    requires forall k | p <= k < p + len :: buf[k] != NUL
    ensures n == len
  {
    ghost var s := buf[p..p + len + 1];
    assert forall k | 0 <= k < len :: s[..len][k] == buf[p + k];
    LenIs(s, len);
    n := StrLen(buf, p, p + len + 1);
  }

  /** Position of a loop that has passed `base` of the leading NULs and j entries. */
  function Pos(base: nat, es: seq<string>, j: nat): nat
    requires j <= |es|
  {
    base + |Flat(es[..j], NUL)|
  }

  /** The loop stands at i: it has passed `base` of the leading NULs and j entries. */
  ghost predicate At(buf: string, lead: nat, base: nat, es: seq<string>, j: nat, i: nat) {
    Laid(buf, lead, es) && j <= |es| && base <= lead && (j > 0 ==> base == lead) && i == Pos(base, es, j)
  }

  lemma SeesEnd(buf: string, lead: nat, es: seq<string>)
    requires Laid(buf, lead, es)
    ensures Pos(lead, es, |es|) == lead + |Flat(es, NUL)| && Pos(lead, es, |es|) + 1 < SIZE
    ensures buf[Pos(lead, es, |es|)] == NUL == buf[Pos(lead, es, |es|) + 1]
    ensures es == [] ==> Pos(0, es, 0) == 0 && buf[0] == NUL == buf[1]
  {
    AllEntries(es);
  }

  /** What the loops see there: the end exactly after the last entry, a single NUL exactly at the
      leading one, and otherwise the next entry. */
  lemma Sees(buf: string, lead: nat, base: nat, es: seq<string>, j: nat, i: nat)
    requires At(buf, lead, base, es, j, i)
    ensures i <= lead + |Flat(es, NUL)| && i + 1 < SIZE == |buf| && j <= |es|
    ensures (buf[i] == ERASED && buf[i + 1] == ERASED) || (buf[i] == NUL && buf[i + 1] == NUL) <==> j == |es|
    ensures j < |es| ==> i < lead + |Flat(es, NUL)| && (buf[i] == NUL <==> base < lead)
  {
    if j == |es| {
      SeesEnd(buf, lead, es);
      hide Laid, At, Flat;
    } else {
      assert base < lead ==> buf[0] == NUL && Pos(base, es, j) == 0 && i == 0;
      assert |buf| == SIZE;
      EntryAt(buf, lead, es, j);
      hide Laid, At, Flat;
    }
  }

  lemma PassLead(buf: string, lead: nat, base: nat, es: seq<string>, j: nat, i: nat)
    requires At(buf, lead, base, es, j, i) && base < lead
    ensures At(buf, lead, lead, es, j, i + 1)
  {
  }

  lemma PassEntry(buf: string, lead: nat, es: seq<string>, j: nat, i: nat)
    requires At(buf, lead, lead, es, j, i) && j < |es|
    ensures At(buf, lead, lead, es, j + 1, i + |es[j]| + 1) && i + |es[j]| + 1 < SIZE == |buf|
    ensures (forall q | 0 <= q < |es[j]| :: buf[i + q] == es[j][q] != NUL) && buf[i + |es[j]|] == NUL
  {
    EntryAt(buf, lead, es, j);
    hide Flat;
  }

  lemma CopiedIsLaid(buf: string, d: nat, es: seq<string>)
    requires Copied(buf, d, es) && Fits(es) && forall e | e in es :: UbootEntry(e)
    ensures Laid(buf + Zeros(SIZE - |buf|), 0, es)
  {
    assert buf + Zeros(0) == buf;
  }

  /** The copy so far: the kept entries, then zeros. */
  ghost predicate Copied(dst: string, d: nat, es: seq<string>) {
    && |dst| == SIZE && d == |Flat(es, NUL)| <= SIZE && dst[..d] == Flat(es, NUL)
    && forall k | d <= k < SIZE :: dst[k] == NUL
  }

  lemma CopiedMore(was: string, now: string, d: nat, es: seq<string>, e: string, es': seq<string>)
    requires Copied(was, d, es) && |now| == SIZE && d + |e| + 1 <= SIZE
    requires Flat(es', NUL) == Flat(es, NUL) + (e + [NUL])
    requires forall k | 0 <= k < SIZE ::
      now[k] == if d <= k < d + |e| then e[k - d] else if k == d + |e| then NUL else was[k]
    ensures Copied(now, d + |e| + 1, es')
  {
    hide Flat;
    assert now[..d] == was[..d];
    assert now[d..d + |e|] == e;
    assert now[..d + |e| + 1] == now[..d] + (now[d..d + |e|] + [now[d + |e|]]);
  }

  /** Copy the entry e at i behind the entries copied so far. */
  method AppendEntry(buf: array<char>, i: nat, dst: array<char>, d: nat, len: nat, ghost kept: seq<string>, ghost e: string,
                     ghost kept': seq<string>)
    requires dst.Length == SIZE && buf != dst && len == |e| && i + len < buf.Length && d + len + 1 <= SIZE
    requires (forall q | 0 <= q < |e| :: buf[i + q] == e[q]) && buf[i + |e|] == NUL
    requires Copied(dst[..], d, kept) && Flat(kept', NUL) == Flat(kept, NUL) + (e + [NUL])
    modifies dst
    ensures Copied(dst[..], d + len + 1, kept')
  {
    hide Flat, Copied;
    ghost var was := dst[..];
    CopyRange(buf, i, dst, d, len + 1);
    assert |was| == SIZE;
    CopiedMore(was, dst[..], d, kept, e, kept');
  }

  /** One turn of the loop: copy the entry at i unless it starts with key. */
  method KeepOrSkip(buf: array<char>, i: nat, key: string, dst: array<char>, d: nat, ghost es: seq<string>, ghost j: nat)
    returns (len: nat, d': nat)
    requires buf.Length == SIZE == dst.Length && buf != dst && FreeOf(key, NUL)
    requires j < |es| && Fits(es) && i + |es[j]| + 1 < SIZE
    requires forall q | 0 <= q < |es[j]| :: buf[i + q] == es[j][q] != NUL
    requires buf[i + |es[j]|] == NUL && Copied(dst[..], d, Others(es[..j], key))
    modifies dst
    ensures len == |es[j]| && Copied(dst[..], d', Others(es[..j + 1], key))
  {
    assert d == |Flat(Others(es[..j], key), NUL)|;
    PrefixShorter(es, j, key);
    OthersSnoc(es, j, key, NUL);
    hide Flat, Others, FreeOf, Copied, Fits;
    ghost var e := es[j];
    assert forall k | i <= k < i + |e| :: buf[k] == e[k - i];
    len := TextLen(buf, i, |e|);
    d' := d;
    KeyMatch(buf[..], i, e, key);
    assert i + |key| <= SIZE ==> buf[..][i..i + |key|] == buf[i..i + |key|];
    if !(i + |key| <= SIZE && buf[i..i + |key|] == key) {
      AppendEntry(buf, i, dst, d, len, Others(es[..j], key), e, Others(es[..j + 1], key));
      d' := d + len + 1;
    }
  }

  /** The loop that set and unset share: copy every entry that does not start with key. */
  method CopyOthers(buf: array<char>, ret: nat, key: string, dst: array<char>, ghost lead: nat, ghost es: seq<string>)
    returns (d: nat)
    requires buf.Length == SIZE == dst.Length && buf != dst && ret <= SIZE
    requires Laid(buf[..], lead, es) && lead + |Flat(es, NUL)| <= ret
    requires UbootKey(key) && forall k | 0 <= k < SIZE :: dst[k] == NUL
    modifies dst
    ensures Copied(dst[..], d, Others(es, key))
  {
    assert Copied(dst[..], 0, Others(es[..0], key)) && Fits(es);
    ghost var b := buf[..];
    assert At(b, lead, 0, es, 0, 0);
    hide Flat, Others, Copied, Laid, FreeOf, GoodKey, At, Fits, Pos;
    d := 0;
    var i: nat := 0;
    ghost var base: nat, j: nat := 0, 0;
    while i < ret
      invariant At(b, lead, base, es, j, i) && base <= lead && j <= |es|
      invariant Copied(dst[..], d, Others(es[..j], key)) && buf[..] == b
      decreases |es| - j, lead - base
    {
      Sees(b, lead, base, es, j, i);
      if (buf[i] == ERASED && buf[i + 1] == ERASED) || (buf[i] == NUL && buf[i + 1] == NUL) {
        break;
      }
      if buf[i] == NUL {
        PassLead(b, lead, base, es, j, i);
        base := lead;
        i := (i + 1) % 0x1_0000;
        continue;
      }
      PassEntry(b, lead, es, j, i);
      var len: nat;
      len, d := KeepOrSkip(buf, i, key, dst, d, es, j);
      i := (i + len) % 0x1_0000;
      i := (i + 1) % 0x1_0000;
      j := j + 1;
    }
    Sees(b, lead, base, es, j, i);
    AllEntries(es);
  }

  lemma PrefixShorter(es: seq<string>, j: nat, key: string)
    requires j < |es| && Fits(es)
    ensures |Flat(Others(es[..j], key), NUL)| + |es[j]| + 1 <= SIZE
  {
    OthersShorter(es[..j], key, NUL);
    FlatAt(es, j, NUL);
  }

  class Store {
    var file: string
    ghost var lead: nat
    ghost var es: seq<string>

    ghost predicate Valid()
      reads this
    {
      && |file| <= SIZE && lead + |Flat(es, NUL)| <= |file|
      && Laid(file + Zeros(SIZE - |file|), lead, es)
    }

    /** read into a zeroed 64 KiB buffer */
    method Load() returns (buf: array<char>, ret: nat)
      requires |file| <= SIZE
      ensures fresh(buf) && buf.Length == SIZE && ret == |file|
      ensures buf[..] == file + Zeros(SIZE - |file|)
    {
      buf := new char[SIZE](_ => NUL);
      ret := |file|;
      forall k | 0 <= k < ret {
        buf[k] := file[k];
      }
    }

    /** uboot_unset_env_key: refused when the file cannot be opened; the result of the last write() is not
        looked at, so a lost write is reported as done. */
    method UnsetEnvKey(key: string, res: P.WriteResult) returns (ret: int)
      requires Valid() && UbootKey(key)
      modifies this
      ensures Valid() && ret == (if res.Refused? then -1 else 0)
      ensures es == After(old(es), Unset(key), res) && (!res.Stored? ==> file == old(file))
    {
      if res.Refused? {
        return -1;
      }
      var buf, n := Load();
      var dst := new char[SIZE](_ => NUL);
      var d := CopyOthers(buf, n, key, dst, lead, es);
      OthersShorter(es, key, NUL);
      if res.Stored? {
        file := dst[..];
        lead, es := 0, Others(es, key);
        CopiedIsLaid(file, d, es);
      }
      return 0;
    }

    /** uboot_set_env_key; the 128-byte text and the 64 KiB buffer must have room. */
    method SetEnvKey(key: string, value: string, res: P.WriteResult) returns (ret: int)
      requires Valid() && UbootKey(key) && FreeOf(value, NUL)
      requires |Entry(key, value)| < 128 && Fits(SetKey(es, key, value))
      requires UbootEntry(Entry(key, value))
      modifies this
      ensures Valid() && ret == (if res.Refused? then -1 else 0)
      ensures es == After(old(es), Set(key, value), res) && (!res.Stored? ==> file == old(file))
    {
      if res.Refused? {
        return -1;
      }
      var buf, n := Load();
      var dst := new char[SIZE](_ => NUL);
      var d := CopyOthers(buf, n, key, dst, lead, es);
      OthersShorter(es, key, NUL);
      var v := Entry(key, value) + [NUL];
      FlatConcat(Others(es, key), [Entry(key, value)], NUL);
      assert [Entry(key, value)][1..] == [];
      assert Flat([Entry(key, value)], NUL) == v;
      ghost var was := dst[..];
      forall k | 0 <= k < |v| {
        dst[d + k] := v[k];
      }
      CopiedMore(was, dst[..], d, Others(es, key), Entry(key, value), SetKey(es, key, value));
      if res.Stored? {
        file := dst[..];
        lead, es := 0, SetKey(es, key, value);
        CopiedIsLaid(file, d + |v|, es);
      }
      return 0;
    }

    /** uboot_get_env_key */
    method GetEnvKey(key: string) returns (value: Option<string>)
      requires Valid() && UbootKey(key)
      ensures value == Get(es, key)
    {
      var buf, ret := Load();
      ghost var b := buf[..];
      value := None;
      var k, i := 0, 0;
      ghost var base: nat, j: nat := 0, 0;
      while i < ret
        invariant Scan(b, lead, base, es, j, k, i) && i <= ret
        invariant buf[..] == b && value == None
        invariant forall q | 0 <= q < j :: !(key <= es[q])
      {
        hide Laid, Flat, UbootKey;
        ScanFacts(b, lead, base, es, j, k, i);
        if buf[i] != NUL {
          i := i + 1;
          continue;
        }
        if k + |key| <= SIZE && buf[k..k + |key|] == key {
          assert b[k..k + |key|] == buf[k..k + |key|];
          ScanMatch(b, lead, base, es, j, k, i, key);
          var p := k + |key| + 1;
          value := ReadText(buf, p, es[j][|key| + 1..]);
          GetAt(es, j, key);
          return;
        }
        assert k + |key| <= SIZE ==> b[k..k + |key|] == buf[k..k + |key|];
        ScanMatch(b, lead, base, es, j, k, i, key);
        if base < lead {
          base := lead;
        } else if j < |es| {
          j := j + 1;
        }
        i := i + 1;
        k := i;
      }
      ScanEnd(b, lead, base, es, j, k, i);
      GetAt(es, |es|, key);
    }
  }

  /** Copy out a NUL-terminated text. */
  method ReadText(buf: array<char>, p: nat, ghost t: string) returns (value: Option<string>)
    requires p + |t| < buf.Length && buf[p + |t|] == NUL
    requires forall q | 0 <= q < |t| :: buf[p + q] == t[q] != NUL
    ensures value == Some(t)
  {
    assert forall q | p <= q < p + |t| :: buf[q] == t[q - p];
    var len := TextLen(buf, p, |t|);
    assert buf[p..p + len] == t;
    value := Some(buf[p..p + len]);
  }

  /** The state of the read loop: it has passed j entries and stands in the next one, which starts at k;
      or at the leading NUL; or in the padding. */
  ghost predicate Scan(b: string, lead: nat, base: nat, es: seq<string>, j: nat, k: nat, i: nat) {
    && Laid(b, lead, es) && j <= |es| && base <= lead && (j > 0 ==> base == lead) && k <= i <= SIZE
    && (forall q | k <= q < i :: b[q] != NUL)
    && (if j < |es| then k == Pos(base, es, j) else k == i && i >= Pos(base, es, j))
  }

  /** One turn of the read loop keeps its state. */
  lemma ScanFacts(b: string, lead: nat, base: nat, es: seq<string>, j: nat, k: nat, i: nat)
    requires Scan(b, lead, base, es, j, k, i) && i < SIZE
    ensures b[i] != NUL ==> j < |es| && base == lead && Scan(b, lead, base, es, j, k, i + 1)
    ensures b[i] == NUL && base < lead ==> Scan(b, lead, lead, es, j, i + 1, i + 1)
    ensures b[i] == NUL && base == lead && j < |es| ==>
      i == k + |es[j]| && Scan(b, lead, lead, es, j + 1, i + 1, i + 1)
    ensures j == |es| ==> Scan(b, lead, lead, es, j, i + 1, i + 1)
  {
    AllEntries(es);
    assert k < i ==> b[k] != NUL;
    if j < |es| {
      EntryAt(b, lead, es, j);
      var e := es[j];
      if base == lead {
        assert forall q | k <= q < k + |e| :: b[q] == e[q - k];
      }
    }
    hide Flat;
  }

  /** strncmp of the current text with a key matches exactly when it is an entry that starts with it. */
  lemma ScanMatch(b: string, lead: nat, base: nat, es: seq<string>, j: nat, k: nat, i: nat, key: string)
    requires Scan(b, lead, base, es, j, k, i) && i < SIZE && b[i] == NUL && UbootKey(key)
    ensures (k + |key| <= SIZE && b[k..k + |key|] == key) <==> base == lead && j < |es| && key <= es[j]
    ensures base == lead && j < |es| && key <= es[j] ==>
      && |key| < |es[j]| && k + |es[j]| < SIZE && b[k + |es[j]|] == NUL
      && forall q | 0 <= q < |es[j]| :: b[k + q] == es[j][q] != NUL
  {
    AllEntries(es);
    if base == lead && j < |es| {
      EntryAt(b, lead, es, j);
      KeyMatch(b, k, es[j], key);
    } else {
      assert b[k..][0] == b[k];
      assert k + |key| <= SIZE ==> b[k..k + |key|][0] == b[k];
      if j < |es| {
        EntryAt(b, lead, es, j);
      }
    }
    hide Flat;
  }

  lemma ScanEnd(b: string, lead: nat, base: nat, es: seq<string>, j: nat, k: nat, i: nat)
    requires Scan(b, lead, base, es, j, k, i) && i >= lead + |Flat(es, NUL)|
    ensures j == |es|
  {
    if j < |es| {
      EntryAt(b, lead, es, j);
    }
    hide Flat;
  }
}
