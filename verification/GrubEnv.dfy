/**
 grub.c: the boot environment as newline-terminated entries in a 1024-byte block with a fixed header
 and '#' padding, implementing the same abstract operations as UbootEnv.

 HDR_SIZE is an unparenthesised macro, sizeof(GRUB_HDR)-1, so the loop bound sizeof(old)-HDR_SIZE is
 1024 - 26 - 1: a newline at index 997 or later is never seen.
 */
module GrubEnv {
  import opened Wrappers
  import opened BootEnv
  import opened CStrings

  const BLOCK := 1024
  const HDR := "# GRUB Environment Block\n"
  const HDR_SIZE := 25
  const SEEN := 997
  const NL: char := '\n'
  const PAD: char := '#'

  predicate GrubKey(k: string) { GoodKey(k) && FreeOf(k, NL) && FreeOf(k, NUL) }

  predicate GrubEntry(e: string) { GoodEntry(e, NL) && FreeOf(e, NUL) }

  /** A block in the making: header, entries, padding; d is where the next entry goes. */
  ghost predicate Copied(buf: string, d: nat, es: seq<string>) {
    && |buf| == BLOCK && d == HDR_SIZE + |Flat(es, NL)| <= BLOCK
    && buf[..HDR_SIZE] == HDR && buf[HDR_SIZE..d] == Flat(es, NL)
    && forall k | d <= k < BLOCK :: buf[k] == PAD
  }

  /** A block that begins with the header and the entries es, with no newline behind them as far as the loops
      look. */
  ghost predicate Begins(buf: string, es: seq<string>) {
    var d := HDR_SIZE + |Flat(es, NL)|;
    && |buf| == BLOCK && d <= BLOCK && buf[..HDR_SIZE] == HDR && buf[HDR_SIZE..d] == Flat(es, NL)
    && forall k | d <= k < SEEN :: buf[k] != NL
  }

  /** The entries that the loops see. */
  ghost predicate Laid(buf: string, es: seq<string>) {
    Begins(buf, es) && Fits(es) && forall e | e in es :: GrubEntry(e)
  }

  predicate Fits(es: seq<string>) { HDR_SIZE + |Flat(es, NL)| <= SEEN }

  /** Of the entries of a block, those that end before index 997. */
  function Visible(es: seq<string>): seq<string> { if Fits(es) then es else Visible(es[..|es| - 1]) }

  lemma {:induction false} VisibleIsLongest(es: seq<string>)
    ensures Visible(es) <= es && Fits(Visible(es))
    ensures forall n | |Visible(es)| < n <= |es| :: !Fits(es[..n])
  {
    if Fits(es) {
    } else {
      var t := es[..|es| - 1];
      VisibleIsLongest(t);
      hide Fits;
      forall n | |Visible(es)| < n <= |es|
        ensures !Fits(es[..n])
      {
        assert n < |es| ==> es[..n] == t[..n];
        assert n == |es| ==> es[..n] == es;
      }
    }
  }

  /** So the 25 characters of the header and the visible entries end before index 997, and with one more entry
      they would not. */
  lemma VisibleEnds(es: seq<string>)
    ensures 25 + |Flat(Visible(es), NL)| <= 997
    ensures Visible(es) != es ==> |Visible(es)| < |es| && 25 + |Flat(es[..|Visible(es)| + 1], NL)| > 997
  {
    VisibleIsLongest(es);
    hide Visible;
    assert |Visible(es)| == |es| ==> Visible(es) == es;
  }

  /** An entry that ends at index 997 or later is not seen. */
  lemma LastIsUnseen(buf: string, es: seq<string>)
    requires Begins(buf, es) && !Fits(es) && FreeOf(es[|es| - 1], NL)
    ensures Begins(buf, es[..|es| - 1])
  {
    var t, e := es[..|es| - 1], es[|es| - 1];
    assert es == t + [e];
    FlatConcat(t, [e], NL);
    assert [e][1..] == [];
    assert Flat([e], NL) == e + [NL];
    var f, all := Flat(t, NL), Flat(es, NL);
    hide Flat, FreeOf;
    assert buf[HDR_SIZE..HDR_SIZE + |f|] == buf[HDR_SIZE..HDR_SIZE + |all|][..|f|] == f;
    forall k | HDR_SIZE + |f| <= k < SEEN
      ensures buf[k] != NL
    {
      TextFree(f, e, k - HDR_SIZE);
      assert buf[k] == buf[HDR_SIZE..HDR_SIZE + |all|][k - HDR_SIZE];
    }
  }

  lemma TextFree(f: string, e: string, x: nat)
    requires FreeOf(e, NL) && |f| <= x < |f| + |e|
    ensures (f + (e + [NL]))[x] != NL
  {
    assert (f + (e + [NL]))[x] == e[x - |f|];
  }

  /** So of an overfull block the operations see, and keep, exactly the entries that end before index 997. */
  lemma {:induction false} OverfullIsLost(buf: string, es: seq<string>)
    requires Begins(buf, es) && forall e | e in es :: GrubEntry(e)
    ensures Laid(buf, Visible(es))
  {
    if Fits(es) {
    } else {
      assert es[|es| - 1] in es;
      LastIsUnseen(buf, es);
      OverfullIsLost(buf, es[..|es| - 1]);
    }
  }

  lemma CopiedBegins(buf: string, d: nat, es: seq<string>)
    requires Copied(buf, d, es)
    ensures Begins(buf, es)
  {
    hide Flat;
  }

  /** The state of all three loops: j entries passed, the next text starts at s, and no newline has been
      seen since. */
  ghost predicate Scan(b: string, es: seq<string>, j: nat, s: nat, i: nat) {
    && Laid(b, es) && j <= |es| && s == HDR_SIZE + |Flat(es[..j], NL)| <= i <= SEEN
    && forall k | s <= k < i :: b[k] != NL
  }

  lemma EntryAt(b: string, es: seq<string>, j: nat)
    requires Laid(b, es) && j < |es|
    ensures var s := HDR_SIZE + |Flat(es[..j], NL)|; var e := es[j];
      && s + |e| + 1 == HDR_SIZE + |Flat(es[..j + 1], NL)| <= SEEN
      && (forall q | 0 <= q < |e| :: b[s + q] == e[q] != NL) && b[s + |e|] == NL && GrubEntry(e)
  {
    FlatAt(es, j, NL);
    var a, e, f := Flat(es[..j], NL), es[j], Flat(es, NL);
    var c := Flat(es[j + 1..], NL);
    hide Flat;
    assert e in es;
    forall q | 0 <= q <= |e|
      ensures b[HDR_SIZE + |a| + q] == (e + [NL])[q]
    {
      assert b[HDR_SIZE + |a| + q] == b[HDR_SIZE..HDR_SIZE + |f|][|a| + q];
      assert (a + (e + [NL]) + c)[|a| + q] == (e + [NL])[q];
    }
    assert b[HDR_SIZE + |a| + |e|] == (e + [NL])[|e|];
    assert forall q | 0 <= q < |e| :: b[HDR_SIZE + |a| + q] == (e + [NL])[q] == e[q];
  }

  /** One turn of a loop: not a newline, or the end of entry j. */
  lemma ScanStep(b: string, es: seq<string>, j: nat, s: nat, i: nat)
    requires Scan(b, es, j, s, i) && i < SEEN
    ensures b[i] != NL ==> Scan(b, es, j, s, i + 1)
    ensures b[i] == NL ==>
      && j < |es| && i == s + |es[j]| && Scan(b, es, j + 1, i + 1, i + 1) && GrubEntry(es[j])
      && forall q | 0 <= q < |es[j]| :: b[s + q] == es[j][q]
  {
    if j < |es| {
      EntryAt(b, es, j);
      assert forall q | s <= q < s + |es[j]| :: b[q] == es[j][q - s];
    } else {
      assert es[..j] == es;
    }
    hide Flat;
  }

  lemma ScanEnd(b: string, es: seq<string>, j: nat, s: nat)
    requires Scan(b, es, j, s, SEEN)
    ensures j == |es| && es[..j] == es
  {
    if j < |es| {
      EntryAt(b, es, j);
    }
    hide Flat;
  }

  /** memcmp or strncmp of a newline-terminated text with a key */
  lemma KeyMatch(b: string, s: nat, e: string, key: string)
    requires s + |e| < |b| && (forall q | 0 <= q < |e| :: b[s + q] == e[q]) && b[s + |e|] == NL
    requires FreeOf(key, NL)
    ensures (s + |key| <= |b| && b[s..s + |key|] == key) <==> key <= e
  {
    if s + |key| <= |b| && b[s..s + |key|] == key {
      assert forall q | 0 <= q < |key| :: key[q] == b[s..s + |key|][q] == b[s + q];
    }
  }

  lemma MatchValue(b: string, s: nat, e: string, key: string)
    requires s + |e| < |b| && (forall q | 0 <= q < |e| :: b[s + q] == e[q])
    requires key <= e && GoodKey(key) && GrubEntry(e)
    ensures |key| < |e| && b[s + |key| + 1..s + |e|] == e[|key| + 1..]
  {
    assert |key| == |e| ==> key == e;
    assert forall q | |key| < q < |e| :: b[s + |key| + 1..s + |e|][q - |key| - 1] == e[q];
  }

  lemma CopiedMore(was: string, now: string, d: nat, es: seq<string>, e: string, es': seq<string>)
    requires Copied(was, d, es) && |now| == BLOCK && d + |e| + 1 <= BLOCK
    requires Flat(es', NL) == Flat(es, NL) + (e + [NL])
    requires forall k | 0 <= k < BLOCK ::
      now[k] == if d <= k < d + |e| then e[k - d] else if k == d + |e| then NL else was[k]
    ensures Copied(now, d + |e| + 1, es')
  {
    hide Flat;
    assert now[..HDR_SIZE] == was[..HDR_SIZE];
    assert now[HDR_SIZE..d] == was[HDR_SIZE..d];
    assert now[d..d + |e|] == e;
    assert now[HDR_SIZE..d + |e| + 1] == now[HDR_SIZE..d] + (now[d..d + |e|] + [now[d + |e|]]);
  }

  lemma PrefixShorter(es: seq<string>, j: nat, key: string)
    requires j < |es| && Fits(es)
    ensures HDR_SIZE + |Flat(Others(es[..j], key), NL)| + |es[j]| + 1 <= SEEN
  {
    OthersShorter(es[..j], key, NL);
    FlatAt(es, j, NL);
  }

  /** One complete text of the copying loop: keep it unless it starts with key. */
  method KeepOrSkip(src: array<char>, s: nat, len: nat, key: string, dst: array<char>, d: nat,
                    ghost es: seq<string>, ghost j: nat)
    returns (d': nat)
    requires src.Length == BLOCK == dst.Length && src != dst && GrubKey(key)
    requires Laid(src[..], es) && j < |es| && s == HDR_SIZE + |Flat(es[..j], NL)| && len == |es[j]|
    requires Copied(dst[..], d, Others(es[..j], key))
    modifies dst
    ensures Copied(dst[..], d', Others(es[..j + 1], key))
  {
    hide Flat, Others;
    EntryAt(src[..], es, j);
    KeyMatch(src[..], s, es[j], key);
    OthersSnoc(es, j, key, NL);
    d' := d;
    assert s + |key| <= BLOCK ==> src[..][s..s + |key|] == src[s..s + |key|];
    if !(s + |key| <= BLOCK && src[s..s + |key|] == key) {
      PrefixShorter(es, j, key);
      ghost var was := dst[..];
      CopyRange(src, s, dst, d, len + 1);
      CopiedMore(was, dst[..], d, Others(es[..j], key), es[j], Others(es[..j + 1], key));
      d' := d + len + 1;
    }
  }

  /** The loop that set and unset share: a fresh block with every entry that does not start with key. */
  method CopyOthers(src: array<char>, key: string, ghost es: seq<string>) returns (dst: array<char>, d: nat)
    requires src.Length == BLOCK && Laid(src[..], es) && GrubKey(key)
    ensures fresh(dst) && dst.Length == BLOCK && Copied(dst[..], d, Others(es, key))
  {
    dst := new char[BLOCK](k => if 0 <= k < HDR_SIZE then HDR[k] else PAD);
    assert dst[..HDR_SIZE] == HDR;
    assert Copied(dst[..], HDR_SIZE, Others(es[..0], key));
    d := HDR_SIZE;
    var len: nat, s: nat, i: nat := 0, HDR_SIZE, HDR_SIZE;
    ghost var j: nat := 0;
    ghost var b := src[..];
    assert Scan(b, es, 0, s, i);
    while i < SEEN
      invariant Scan(b, es, j, s, i) && len == i - s && src[..] == b
      invariant Copied(dst[..], d, Others(es[..j], key))
    {
      hide Flat, Others, Laid, Copied, GrubKey;
      ScanStep(b, es, j, s, i);
      if src[i] != NL {
        len := len + 1;
        i := i + 1;
        continue;
      }
      d := KeepOrSkip(src, s, len, key, dst, d, es, j);
      len := 0;
      s := i + 1;
      i := i + 1;
      j := j + 1;
    }
    ScanEnd(b, es, j, s);
  }

  /** The new entry goes behind the ones that were kept. */
  method AddEntry(dst: array<char>, d: nat, key: string, value: string, ghost es: seq<string>)
    requires dst.Length == BLOCK && Copied(dst[..], d, Others(es, key)) && HDR_SIZE + |Flat(SetKey(es, key, value), NL)| <= BLOCK
    requires (forall e | e in es :: GrubEntry(e)) && GrubEntry(Entry(key, value))
    modifies dst
    ensures Laid(dst[..], Visible(SetKey(es, key, value))) && dst[..HDR_SIZE] == HDR
  {
    ghost var e, kept, all := Entry(key, value), Others(es, key), SetKey(es, key, value);
    var v := Entry(key, value) + [NL];
    OthersShorter(es, key, NL);
    FlatConcat(kept, [e], NL);
    assert [e][1..] == [];
    assert Flat([e], NL) == v;
    hide Flat, Others, GrubEntry, Laid, Visible;
    ghost var was := dst[..];
    forall k | 0 <= k < |v| {
      dst[d + k] := v[k];
    }
    CopiedMore(was, dst[..], d, kept, e, all);
    CopiedBegins(dst[..], d + |v|, all);
    OverfullIsLost(dst[..], all);
  }

  class Store {
    var file: string
    ghost var es: seq<string>

    /** A block read_grubenv accepts holds well-formed entries. */
    ghost predicate Valid()
      reads this
    {
      Readable() ==> Laid(file, es)
    }

    /** read_grubenv: the file has a whole block with the right header. */
    predicate Readable()
      reads this
    {
      |file| >= BLOCK && file[..HDR_SIZE] == HDR
    }

    method Load() returns (buf: array<char>)
      requires Valid() && Readable()
      ensures fresh(buf) && buf.Length == BLOCK && buf[..] == file
    {
      buf := new char[BLOCK](k requires 0 <= k < BLOCK reads this requires |file| >= BLOCK => file[k]);
    }

    /** grub_unset_env_key: a write that fails is reported. */
    method UnsetEnvKey(key: string, writeOk: bool) returns (ret: int)
      requires Valid() && GrubKey(key)
      modifies this
      ensures Valid() && ret == (if old(Readable()) && writeOk then 0 else -1)
      ensures ret == if |old(file)| >= 1024 && old(file)[..25] == "# GRUB Environment Block\n" && writeOk then 0 else -1
      ensures if ret == 0 then Readable() && es == Others(old(es), key) else es == old(es) && file == old(file)
    {
      if !Readable() {
        return -1;
      }
      var buf := Load();
      var dst, d := CopyOthers(buf, key, es);
      OthersShorter(es, key, NL);
      CopiedBegins(dst[..], d, Others(es, key));
      if !writeOk {
        return -1;
      }
      file := dst[..];
      es := Others(es, key);
      return 0;
    }

    /** grub_set_env_key; the 128-byte text and the block must have room. What does not end before index 997
        is not seen afterwards. */
    method SetEnvKey(key: string, value: string, writeOk: bool) returns (ret: int)
      requires Valid() && GrubKey(key) && GrubEntry(Entry(key, value))
      requires |Entry(key, value)| + 1 < 128 && HDR_SIZE + |Flat(SetKey(es, key, value), NL)| <= BLOCK
      modifies this
      ensures Valid() && ret == (if old(Readable()) && writeOk then 0 else -1)
      ensures ret == if |old(file)| >= 1024 && old(file)[..25] == "# GRUB Environment Block\n" && writeOk then 0 else -1
      ensures if ret == 0 then Readable() && es == Visible(SetKey(old(es), key, value)) else es == old(es) && file == old(file)
    {
      if !Readable() {
        return -1;
      }
      var buf := Load();
      var dst, d := CopyOthers(buf, key, es);
      AddEntry(dst, d, key, value, es);
      if !writeOk {
        return -1;
      }
      hide Laid, Visible, SetKey, Flat;
      file := dst[..];
      es := Visible(SetKey(es, key, value));
      return 0;
    }

    /** grub_get_env_key */
    method GetEnvKey(key: string) returns (value: Option<string>)
      requires Valid() && GrubKey(key)
      ensures value == if Readable() then Get(es, key) else None
      ensures |file| < 1024 || file[..25] != "# GRUB Environment Block\n" ==> value == None
    {
      if !Readable() {
        return None;
      }
      var buf := Load();
      value := Search(buf, key, es);
    }
  }

  /** The loop of grub_get_env_key: the value of the first entry that starts with key. */
  method Search(buf: array<char>, key: string, ghost es: seq<string>) returns (value: Option<string>)
    requires buf.Length == BLOCK && Laid(buf[..], es) && GrubKey(key)
    ensures value == Get(es, key)
  {
    ghost var b := buf[..];
    var next: nat, i: nat := HDR_SIZE, HDR_SIZE;
    ghost var j: nat := 0;
    assert Scan(b, es, 0, next, i);
    hide Flat, Laid, Copied, GrubEntry, FreeOf;
    while i < SEEN
      invariant Scan(b, es, j, next, i)
      invariant forall q | 0 <= q < j :: !(key <= es[q])
    {
      ScanStep(b, es, j, next, i);
      if buf[i] != NL {
        i := i + 1;
        continue;
      }
      KeyMatch(b, next, es[j], key);
      assert next + |key| <= BLOCK ==> b[next..next + |key|] == buf[next..next + |key|];
      if next + |key| <= BLOCK && buf[next..next + |key|] == key {
        GetAt(es, j, key);
        MatchValue(b, next, es[j], key);
        assert b[next + |key| + 1..i] == buf[next + |key| + 1..i];
        return Some(buf[next + |key| + 1..i]);
      }
      next := i + 1;
      i := i + 1;
      j := j + 1;
    }
    ScanEnd(b, es, j, next);
    GetAt(es, |es|, key);
    return None;
  }
}
