/**
 The log pusher of ph_logger/ph_logger.c: it sends a growing file piece by piece and keeps its position in
 an attribute of the file. A call reads one block and cuts it into chunks: lines with their newline, or
 a whole block without one. The count of bytes left is lowered by the running offset, not by the last
 length, so a call may stop early; what it leaves the next call reads again.
 */
module LogPusher {
  import opened CStrings
  import opened JsonEscape
  import opened Wrappers

  /** pv_str_replace_char(buf, n, '\0', ' ') */
  function Clean(s: string): (r: string)
    ensures |r| == |s| && Free(r) && (Bytes(s) ==> Bytes(r))
  {
    seq(|s|, k requires 0 <= k < |s| => if s[k] == NUL then ' ' else s[k])
  }

  /** The first newline. */
  function Newline(s: string): (r: Option<nat>)
    ensures r.Some? ==> r.value < |s| && s[r.value] == '\n' && '\n' !in s[..r.value]
    ensures r.None? ==> '\n' !in s
  {
    if s == "" then None
    else if s[0] == '\n' then Some(0)
    else
      match Newline(s[1..])
      case None => None
      case Some(i) => Some(i + 1)
  }

  /** The chunks that a call takes from rest, which starts at offset off of its block, while it believes
      that left bytes are unread; size is the size of the buffer. */
  function Chunks(rest: string, off: nat, left: int, size: nat): seq<string>
    requires left <= |rest|
    decreases |rest|
  {
    if left <= 0 then []
    else
      match Newline(rest[..left])
      case Some(i) =>
        var n := i + 1;
        [rest[..n]] + Chunks(rest[n..], off + n, left - (off + n), size)
      case None => if left == size then [rest[..left]] else []
  }

  function Concat(chunks: seq<string>): string {
    if chunks == [] then "" else chunks[0] + Concat(chunks[1..])
  }

  function TextOf(chunk: string): string {
    if chunk != "" && chunk[|chunk| - 1] == '\n' then chunk[..|chunk| - 1] else chunk
  }

  predicate Blank(chunk: string) { chunk == "\n" }

  predicate IsChunk(c: string, size: nat) {
    || (c != "" && c[|c| - 1] == '\n' && '\n' !in c[..|c| - 1])
    || (c != "" && |c| == size && '\n' !in c)
  }

  /** The texts that are sent. */
  function Sent(chunks: seq<string>): seq<string> {
    if chunks == [] then []
    else (if Blank(chunks[0]) then [] else [TextOf(chunks[0])]) + Sent(chunks[1..])
  }

  /** The chunks up to the last blank one. */
  function UpToBlank(chunks: seq<string>): (n: nat)
    ensures n <= |chunks|
  {
    if chunks == [] then 0
    else if Blank(chunks[|chunks| - 1]) then |chunks|
    else UpToBlank(chunks[..|chunks| - 1])
  }

  // ---- one call

  function Base(content: string, saved: nat): nat { if |content| < saved then 0 else saved }

  function Block(content: string, base: nat, size: nat): string
    requires base <= |content|
  {
    Clean(content[base..if base + size < |content| then base + size else |content|])
  }

  function Taken(content: string, saved: nat, size: nat): seq<string> {
    var block := Block(content, Base(content, saved), size);
    Chunks(block, 0, |block|, size)
  }

  /** The position behind the chunks done. */
  function SavedBy(done: seq<string>, base: nat, saved: nat): nat {
    if done == [] then saved else base + |Concat(done)|
  }

  /** What a call leaves and answers, given whether an upload succeeds. */
  datatype Outcome = Outcome(saved: nat, ret: int, sent: seq<string>)

  function Push(content: string, saved: nat, size: nat, ok: bool): Outcome
  {
    var chunks, base := Taken(content, saved, size), Base(content, saved);
    var frags := Sent(chunks);
    var done := if frags == [] || ok then |chunks| else UpToBlank(chunks);
    Outcome(SavedBy(chunks[..done], base, saved),
            if frags == [] then 0 else if ok then 1 else -1,
            if ok then frags else [])
  }

  // ---- properties of the chunks

  lemma ChunksStep(rest: string, off: nat, left: int, size: nat)
    requires left <= |rest|
    ensures var cs := Chunks(rest, off, left, size);
      if left <= 0 then cs == [] else match Newline(rest[..left])
      case None => cs == if left == size then [rest[..left]] else []
      case Some(i) => cs == [rest[..i + 1]] + Chunks(rest[i + 1..], off + i + 1, left - (off + i + 1), size)
  {
    hide Newline;
  }

  predicate Tiles(chunks: seq<string>, rest: string) { Concat(chunks) <= rest }

  /** The chunks of a call follow each other from the start of what it reads. */
  lemma {:induction false} ChunksTile(rest: string, off: nat, left: int, size: nat)
    requires left <= |rest|
    ensures Tiles(Chunks(rest, off, left, size), rest)
    decreases |rest|
  {
    hide Newline, Concat, Tiles, Chunks;
    TilesFew(rest, if left > 0 then left else 0);
    ChunksStep(rest, off, left, size);
    if left <= 0 {
    } else {
      match Newline(rest[..left])
      case None =>
      case Some(i) =>
        ChunksTile(rest[i + 1..], off + i + 1, left - (off + i + 1), size);
        TileStep(rest, i + 1, Chunks(rest[i + 1..], off + i + 1, left - (off + i + 1), size));
    }
  }

  lemma TilesFew(rest: string, n: nat)
    requires n <= |rest|
    ensures Tiles([], rest) && Tiles([rest[..n]], rest)
  {
    ConcatFew(rest[..n]);
  }

  lemma TileStep(rest: string, n: nat, cs: seq<string>)
    requires n <= |rest| && Tiles(cs, rest[n..])
    ensures Tiles([rest[..n]] + cs, rest)
  {
    hide Concat;
    ConcatCons(rest[..n], cs);
    PrefixJoin(rest, n, Concat(cs));
  }

  lemma ConcatFew(c: string)
    ensures Concat([]) == "" && Concat([c]) == c
  {
    assert Concat([c]) == c + "";
  }

  lemma ConcatCons(c: string, cs: seq<string>)
    ensures Concat([c] + cs) == c + Concat(cs)
  {
    assert ([c] + cs)[1..] == cs;
  }

  lemma PrefixJoin(s: string, n: nat, t: string)
    requires n <= |s| && t <= s[n..]
    ensures s[..n] + t <= s
  {
    assert s == s[..n] + s[n..];
  }

  lemma {:induction false} ChunksAreChunks(rest: string, off: nat, left: int, size: nat)
    requires left <= |rest|
    ensures forall i | 0 <= i < |Chunks(rest, off, left, size)| :: IsChunk(Chunks(rest, off, left, size)[i], size)
    decreases |rest|
  {
    hide Chunks, Newline;
    ChunksStep(rest, off, left, size);
    if left <= 0 {
    } else {
      match Newline(rest[..left])
      case None =>
      case Some(i) =>
        var n := i + 1;
        assert rest[..n][..i] == rest[..left][..i];
        ChunksAreChunks(rest[n..], off + n, left - (off + n), size);
    }
  }

  /** A call gets on exactly when its block has a newline or is full. */
  lemma TakesSomething(rest: string, size: nat)
    ensures Chunks(rest, 0, |rest|, size) != [] <==> rest != "" && ('\n' in rest || |rest| == size)
  {
    assert rest[..|rest|] == rest;
  }

  lemma {:induction false} ConcatJoin(a: seq<string>, b: seq<string>)
    ensures Concat(a + b) == Concat(a) + Concat(b)
  {
    if a == [] {
      assert a + b == b;
    } else {
      ConcatJoin(a[1..], b);
      assert (a + b)[1..] == a[1..] + b;
    }
  }

  lemma {:induction false} SentJoin(a: seq<string>, b: seq<string>)
    ensures Sent(a + b) == Sent(a) + Sent(b)
  {
    hide Blank, TextOf;
    if a == [] {
      assert a + b == b;
    } else {
      SentJoin(a[1..], b);
      assert (a + b)[1..] == a[1..] + b && (a + b)[0] == a[0];
      var first := if Blank(a[0]) then [] else [TextOf(a[0])];
      assert (first + Sent(a[1..])) + Sent(b) == first + (Sent(a[1..]) + Sent(b));
    }
  }

  // ---- a call and a run of calls

  lemma CleanSlice(s: string, a: nat, b: nat, n: nat)
    requires a + n <= b <= |s|
    ensures Clean(s[a..b])[..n] == Clean(s[a..a + n])
  {
  }

  lemma CleanJoin(s: string, a: nat, b: nat, c: nat)
    requires a <= b <= c <= |s|
    ensures Clean(s[a..b]) + Clean(s[b..c]) == Clean(s[a..c])
  {
  }

  lemma CleanIs(s: string, a: nat, b: nat)
    requires a <= b <= |s|
    ensures |Clean(s[a..b])| == b - a
    ensures forall k | 0 <= k < b - a :: Clean(s[a..b])[k] == if s[a + k] == NUL then ' ' else s[a + k]
    ensures Free(s[a..b]) ==> Clean(s[a..b]) == s[a..b]
  {
  }

  /** The position behind the first n chunks is behind exactly their bytes. */
  lemma PrefixTakes(content: string, saved: nat, size: nat, n: nat)
    requires saved <= |content| && n <= |Taken(content, saved, size)|
    ensures var done := Taken(content, saved, size)[..n]; var x := SavedBy(done, saved, saved);
      saved <= x <= |content| && Clean(content[saved..x]) == Concat(done)
  {
    var cs := Taken(content, saved, size);
    var e := if saved + size < |content| then saved + size else |content|;
    var block := Clean(content[saved..e]);
    ChunksTile(block, 0, |block|, size);
    hide Chunks, Concat, Taken, SavedBy, Clean;
    ConcatPrefix(cs, n, block);
    SavedIs(cs[..n], saved);
    CleanSlice(content, saved, e, |Concat(cs[..n])|);
  }

  lemma ConcatPrefix(cs: seq<string>, n: nat, block: string)
    requires n <= |cs| && Concat(cs) <= block
    ensures var m := |Concat(cs[..n])|; m <= |block| && Concat(cs[..n]) == block[..m]
  {
    hide Concat;
    ConcatJoin(cs[..n], cs[n..]);
    assert cs[..n] + cs[n..] == cs;
  }

  lemma SavedIs(done: seq<string>, base: nat)
    ensures SavedBy(done, base, base) == base + |Concat(done)|
  {
    ConcatFew("");
  }

  /** A call that succeeds consumes exactly the bytes from the old position to the new one. */
  lemma PushTakes(content: string, saved: nat, size: nat)
    requires saved <= |content|
    ensures var cs, o := Taken(content, saved, size), Push(content, saved, size, true);
      && saved <= o.saved <= |content| && Concat(cs) == Clean(content[saved..o.saved]) && o.sent == Sent(cs)
      && |Concat(cs)| == o.saved - saved
      && forall k | 0 <= k < |Concat(cs)| :: Concat(cs)[k] == if content[saved + k] == NUL then ' ' else content[saved + k]
  {
    hide Concat, Sent, SavedBy, Taken;
    var cs := Taken(content, saved, size);
    PrefixTakes(content, saved, size, |cs|);
    assert cs[..|cs|] == cs;
  }

  /** Each chunk but a blank line is sent as one text: a line without its newline, or the whole of a full
      buffer. A blank line is not sent. */
  lemma SentOne(c: string, size: nat)
    requires IsChunk(c, size)
    ensures c == "\n" ==> Sent([c]) == []
    ensures c != "\n" ==> |Sent([c])| == 1 && '\n' !in Sent([c])[0]
    ensures c != "\n" ==> c == Sent([c])[0] + "\n" || (c == Sent([c])[0] && |c| == size)
  {
    assert Sent([c]) == (if Blank(c) then [] else [TextOf(c)]) + Sent([]);
    if c[|c| - 1] == '\n' {
      assert c == c[..|c| - 1] + "\n";
    }
  }

  /** A position beyond the end, after the file was cut short, makes a call begin again at the start; only if it
      passes over nothing the position stays where it was. */
  lemma TruncationRestarts(content: string, saved: nat, size: nat, ok: bool)
    requires |content| < saved && size > 0
    ensures var o, o0 := Push(content, saved, size, ok), Push(content, 0, size, ok);
      o.sent == o0.sent && o.ret == o0.ret && o.saved == if o0.saved == 0 then saved else o0.saved
  {
    var cs := Taken(content, 0, size);
    assert Taken(content, saved, size) == cs;
    TakenAreChunks(content, 0, size);
    hide Taken, Sent, UpToBlank;
    forall n | 0 < n <= |cs|
      ensures |Concat(cs[..n])| > 0
    {
      assert IsChunk(cs[0], size) && cs[..n][0] == cs[0];
    }
  }

  /** The count of unread bytes falls by the running offset: of three short lines a call takes two. */
  lemma StopsEarly(size: nat)
    requires size > 6
    ensures Taken("a\nb\nc\n", 0, size) == ["a\n", "b\n"]
  {
    var t := "a\nb\nc\n";
    var u, w := t[2..], t[2..][2..];
    assert t[..6] == t && Clean(t) == t;
    FirstNewline(t[..6], 1);
    FirstNewline(u[..4], 1);
    ChunksStep(t, 0, 6, size);
    ChunksStep(u, 2, 4, size);
    ChunksStep(w, 4, 0, size);
    assert t[..2] == "a\n" && u[..2] == "b\n";
    hide Chunks;
  }

  /** It gets on exactly when its block has a newline or a whole buffer is unread. */
  lemma PushAdvances(content: string, saved: nat, size: nat)
    requires saved <= |content| && size > 0
    ensures var e := if saved + size < |content| then saved + size else |content|;
      Push(content, saved, size, true).saved > saved <==> ('\n' in content[saved..e] || saved + size <= |content|)
  {
    var e := if saved + size < |content| then saved + size else |content|;
    var block, cs := Clean(content[saved..e]), Taken(content, saved, size);
    TakesSomething(block, size);
    NewlineKept(content[saved..e]);
    ChunksAreChunks(block, 0, |block|, size);
    hide Chunks, Clean, Sent;
    assert cs[..|cs|] == cs;
    if cs != [] {
      assert IsChunk(cs[0], size);
    }
  }

  lemma NewlineKept(s: string)
    ensures '\n' in Clean(s) <==> '\n' in s
  {
    if i :| 0 <= i < |s| && s[i] == '\n' {
      assert Clean(s)[i] == '\n';
    }
    if i :| 0 <= i < |s| && Clean(s)[i] == '\n' {
      assert s[i] == '\n';
    }
  }

  /** A failed upload sends nothing, yet a blank line has its position saved at once: the bytes up to the last
      blank line are passed over. There is a text among them exactly when one precedes a blank line. */
  lemma FailureLoses(content: string, saved: nat, size: nat)
    requires saved <= |content| && Sent(Taken(content, saved, size)) != []
    ensures var cs, o := Taken(content, saved, size), Push(content, saved, size, false);
      && o.ret == -1 && o.sent == [] && saved <= o.saved <= |content|
      && Clean(content[saved..o.saved]) == Concat(cs[..UpToBlank(cs)])
      && (Sent(cs[..UpToBlank(cs)]) == [] <==> forall a, b | 0 <= a < b < |cs| && Blank(cs[b]) :: Blank(cs[a]))
  {
    hide Clean, Concat, Sent, SavedBy, Taken, UpToBlank, Blank;
    var cs := Taken(content, saved, size);
    TextsBeforeBlank(cs);
    PrefixTakes(content, saved, size, UpToBlank(cs));
  }

  lemma {:induction false} TextsBeforeBlank(cs: seq<string>)
    ensures Sent(cs[..UpToBlank(cs)]) == [] <==> forall a, b | 0 <= a < b < |cs| && Blank(cs[b]) :: Blank(cs[a])
  {
    var n := UpToBlank(cs);
    LastBlank(cs);
    AllBlank(cs[..n]);
    hide UpToBlank, Sent, Blank;
    if forall a, b | 0 <= a < b < |cs| && Blank(cs[b]) :: Blank(cs[a]) {
      forall a | 0 <= a < n
        ensures Blank(cs[..n][a])
      {
        assert Blank(cs[n - 1]);
      }
    } else {
      var a, b :| 0 <= a < b < |cs| && Blank(cs[b]) && !Blank(cs[a]);
      assert !Blank(cs[..n][a]);
    }
  }

  lemma {:induction false} LastBlank(cs: seq<string>)
    ensures UpToBlank(cs) > 0 ==> Blank(cs[UpToBlank(cs) - 1])
    ensures forall b | UpToBlank(cs) <= b < |cs| :: !Blank(cs[b])
  {
    if cs == [] {
    } else {
      LastBlank(cs[..|cs| - 1]);
    }
  }

  lemma {:induction false} AllBlank(cs: seq<string>)
    ensures Sent(cs) == [] <==> forall a | 0 <= a < |cs| :: Blank(cs[a])
  {
    if cs == [] {
    } else {
      AllBlank(cs[1..]);
      assert forall a | 0 < a < |cs| :: cs[a] == cs[1..][a - 1];
    }
  }

  datatype State = State(content: string, saved: nat, sent: seq<string>)

  /** The file grows, or a call of the pusher succeeds. */
  datatype Event = Grow(more: string) | Call

  function Step(s: State, e: Event, size: nat): State {
    match e
    case Grow(more) => s.(content := s.content + more)
    case Call =>
      var o := Push(s.content, s.saved, size, true);
      s.(saved := o.saved, sent := s.sent + o.sent)
  }

  function Run(s: State, es: seq<Event>, size: nat): State {
    if es == [] then s else Step(Run(s, es[..|es| - 1], size), es[|es| - 1], size)
  }

  /** The chunks that the calls of a run took. */
  function History(s: State, es: seq<Event>, size: nat): seq<string> {
    if es == [] then []
    else
      var t := Run(s, es[..|es| - 1], size);
      History(s, es[..|es| - 1], size) + if es[|es| - 1].Call? then Taken(t.content, t.saved, size) else []
  }

  ghost predicate Kept(s: State, t: State, h: seq<string>, size: nat) {
    && s.saved <= t.saved <= |t.content| && s.content <= t.content
    && Concat(h) == Clean(t.content[s.saved..t.saved]) && |Concat(h)| == t.saved - s.saved
    && (forall k | 0 <= k < |Concat(h)| ::
          Concat(h)[k] == if t.content[s.saved + k] == NUL then ' ' else t.content[s.saved + k])
    && t.sent == s.sent + Sent(h)
    && forall i | 0 <= i < |h| :: IsChunk(h[i], size)
  }

  lemma KeptAtStart(s: State, size: nat)
    requires s.saved <= |s.content|
    ensures Kept(s, s, [], size)
  {
    assert s.sent + Sent([]) == s.sent;
    assert Clean(s.content[s.saved..s.saved]) == "";
  }

  lemma KeptByGrowth(s: State, t: State, h: seq<string>, more: string, size: nat)
    requires Kept(s, t, h, size)
    ensures Kept(s, Step(t, Grow(more), size), h, size)
  {
    hide Clean, Concat, Sent;
    var u := t.content + more;
    assert u[s.saved..t.saved] == t.content[s.saved..t.saved];
    assert forall k | s.saved <= k < t.saved :: u[k] == t.content[k];
  }

  lemma KeptByCall(s: State, t: State, h: seq<string>, size: nat)
    requires Kept(s, t, h, size)
    ensures Kept(s, Step(t, Call, size), h + Taken(t.content, t.saved, size), size)
  {
    hide Clean, Concat, Sent, Push, Taken, IsChunk;
    var cs, u := Taken(t.content, t.saved, size), Step(t, Call, size);
    PushTakes(t.content, t.saved, size);
    TakenAreChunks(t.content, t.saved, size);
    ConcatJoin(h, cs);
    SentJoin(h, cs);
    CleanJoin(t.content, s.saved, t.saved, u.saved);
    CleanIs(t.content, s.saved, u.saved);
    Regroup(s.sent, Sent(h), Sent(cs));
  }

  lemma Regroup(a: seq<string>, b: seq<string>, c: seq<string>)
    ensures (a + b) + c == a + (b + c)
  {
  }

  lemma TakenAreChunks(content: string, saved: nat, size: nat)
    ensures forall i | 0 <= i < |Taken(content, saved, size)| :: IsChunk(Taken(content, saved, size)[i], size)
  {
    var block := Block(content, Base(content, saved), size);
    ChunksAreChunks(block, 0, |block|, size);
  }

  lemma RunStep(s: State, es: seq<Event>, size: nat)
    requires es != []
    ensures var t, h, e := Run(s, es[..|es| - 1], size), History(s, es[..|es| - 1], size), es[|es| - 1];
      && Run(s, es, size) == Step(t, e, size)
      && History(s, es, size) == if e.Call? then h + Taken(t.content, t.saved, size) else h
  {
    hide Step, Taken;
  }

  /** Over any run, however the file grows between the calls: what was taken are consecutive chunks of the
      file from the first position to the last, no byte missing or twice, and their texts were sent in
      order, the blank lines left out. */
  lemma {:induction false} RunConserves(s: State, es: seq<Event>, size: nat)
    requires s.saved <= |s.content|
    ensures Kept(s, Run(s, es, size), History(s, es, size), size)
  {
    hide Kept, Step, Taken;
    if es == [] {
      KeptAtStart(s, size);
    } else {
      var t, h := Run(s, es[..|es| - 1], size), History(s, es[..|es| - 1], size);
      RunConserves(s, es[..|es| - 1], size);
      RunStep(s, es, size);
      match es[|es| - 1]
      case Grow(more) => KeptByGrowth(s, t, h, more, size);
      case Call => KeptByCall(s, t, h, size);
    }
  }

  /** So of a file without NULs it was the very text. */
  lemma RunKeepsText(s: State, es: seq<Event>, size: nat)
    requires s.saved <= |s.content| && Free(Run(s, es, size).content)
    ensures var t := Run(s, es, size);
      s.saved <= t.saved <= |t.content| && Concat(History(s, es, size)) == t.content[s.saved..t.saved]
  {
    RunConserves(s, es, size);
    var t := Run(s, es, size);
    CleanIs(t.content, s.saved, t.saved);
    hide Run, History, Concat, Clean;
  }

  /** The position after n successful calls on a file that does not grow. */
  function After(content: string, saved: nat, size: nat, n: nat): nat
    decreases n
  {
    if n == 0 then saved else After(content, Push(content, saved, size, true).saved, size, n - 1)
  }

  /** A file that ends in a newline is sent to its end, in at most one call a byte. */
  lemma {:induction false} Drains(content: string, saved: nat, size: nat, n: nat)
    requires size > 0 && saved <= |content| <= saved + n
    requires content != "" && content[|content| - 1] == '\n'
    ensures After(content, saved, size, n) == |content|
    decreases n
  {
    hide Push, Taken, Concat, Clean, Sent, Newline;
    if n == 0 {
    } else {
      PushTakes(content, saved, size);
      PushAdvances(content, saved, size);
      var e := if saved + size < |content| then saved + size else |content|;
      if saved < |content| < saved + size {
        assert content[saved..e][|content| - 1 - saved] == '\n';
      }
      if saved == |content| {
        AtEnd(content, size, n);
      } else {
        Drains(content, Push(content, saved, size, true).saved, size, n - 1);
      }
    }
  }

  lemma {:induction false} AtEnd(content: string, size: nat, n: nat)
    ensures After(content, |content|, size, n) == |content|
  {
    hide Push;
    if n == 0 {
    } else {
      PushTakes(content, |content|, size);
      AtEnd(content, size, n - 1);
    }
  }

  // ---- the code

  /** strnchr, on text without NUL: the first newline among the first len characters. */
  method Strnchr(s: string, off: nat, len: nat) returns (at: Option<nat>)
    requires off + len <= |s| && Free(s)
    ensures at == Newline(s[off..][..len])
  {
    ghost var t := s[off..][..len];
    var idx := 0;
    while idx < len && s[off + idx] != NUL
      invariant 0 <= idx <= len && '\n' !in t[..idx]
    {
      assert t[idx] == s[off + idx];
      if s[off + idx] == '\n' {
        FirstNewline(t, idx);
        return Some(idx);
      }
      idx := idx + 1;
    }
    assert t[..idx] == t;
    return None;
  }

  lemma {:induction false} FirstNewline(t: string, i: nat)
    requires i < |t| && t[i] == '\n' && '\n' !in t[..i]
    ensures Newline(t) == Some(i)
  {
    if i == 0 {
    } else {
      assert t[..i][0] == t[0];
      assert t[..i][1..] == t[1..][..i - 1];
      FirstNewline(t[1..], i - 1);
    }
  }

  /** One turn of the loop: the next chunk's text, if there is a chunk. */
  method TakeChunk(buf: string, offset: nat, left: int, size: nat)
    returns (took: bool, holder: string, offset': nat, left': int, ghost chunk: string)
    requires offset <= |buf| && 0 < left <= |buf| - offset && Free(buf)
    ensures offset <= offset' <= |buf| && left' <= |buf| - offset'
    ensures took ==> offset < offset' && chunk == buf[offset..offset'] && holder == TextOf(chunk)
                     && (holder == "" <==> Blank(chunk))
    ensures Chunks(buf[offset..], offset, left, size) == if took then [chunk] + Chunks(buf[offset'..], offset', left', size) else []
  {
    hide Newline, Chunks;
    ghost var rest := buf[offset..];
    ChunksStep(rest, offset, left, size);
    var at := Strnchr(buf, offset, left);
    if at.Some? {
      var len := at.value + 1;
      holder := buf[offset..offset + len - 1];
      offset' := offset + len;
      left' := left - offset';
      took, chunk := true, rest[..len];
      assert chunk == buf[offset..offset'] && rest[len..] == buf[offset'..];
      assert chunk[len - 1] == rest[..left][at.value] && chunk[..len - 1] == holder;
    } else if left == size {
      holder := buf[offset..offset + left];
      offset' := offset + left;
      left' := 0;
      took, chunk := true, rest[..left];
      assert chunk == holder;
      ChunksStep(buf[offset'..], offset', 0, size);
    } else {
      took, holder, offset', left', chunk := false, "", offset, 0, "";
    }
  }

  /** The log file with its position attribute. */
  class LogFile {
    var content: string
    var saved: Option<nat>

    constructor (content: string)
      ensures this.content == content && saved == None
    {
      this.content, saved := content, None;
    }
  }

  /** The messages made of the texts: wrap builds the JSON object around an escaped text. */
  predicate Wrapped(frags: seq<string>, texts: seq<string>, wrap: string -> string) {
    |frags| == |texts| && forall i | 0 <= i < |texts| :: Bytes(texts[i]) && frags[i] == wrap(Escape(texts[i]))
  }

  lemma DoneMore(done: seq<string>, c: string, base: nat, saved: nat)
    ensures SavedBy(done + [c], base, saved) == base + |Concat(done)| + |c|
    ensures Sent(done + [c]) == Sent(done) + if Blank(c) then [] else [TextOf(c)]
    ensures UpToBlank(done + [c]) == if Blank(c) then |done| + 1 else UpToBlank(done)
  {
    ConcatJoin(done, [c]);
    ConcatFew(c);
    SentJoin(done, [c]);
    assert (done + [c])[..|done|] == done;
    assert Sent([c]) == (if Blank(c) then [] else [TextOf(c)]) + Sent([]);
  }

  lemma BlankSaved(done: seq<string>, c: string, base: nat, saved: nat)
    ensures var d := done + [c]; var n := UpToBlank(d);
      SavedBy(d[..n], base, saved)
      == if Blank(c) then SavedBy(d, base, saved) else SavedBy(done[..UpToBlank(done)], base, saved)
  {
    DoneMore(done, c, base, saved);
    var d := done + [c];
    assert d[..|d|] == d;
    assert d[..UpToBlank(done)] == done[..UpToBlank(done)];
  }

  lemma BytesBetween(s: string, a: nat, b: nat)
    requires a <= b <= |s| && Bytes(s)
    ensures Bytes(s[a..b]) && Bytes(TextOf(s[a..b]))
  {
  }

  lemma CutStart(base: nat, saved: nat)
    ensures SavedBy([], base, saved) == SavedBy([][..UpToBlank([])], base, saved) == saved
    ensures Sent([]) == [] && Concat([]) == ""
  {
  }

  lemma CutMore(done: seq<string>, c: string, more: seq<string>, base: nat, saved: nat)
    ensures done + ([c] + more) == (done + [c]) + more
    ensures |Concat(done + [c])| == |Concat(done)| + |c|
    ensures SavedBy(done + [c], base, saved) == base + |Concat(done)| + |c|
    ensures Sent(done + [c]) == if Blank(c) then Sent(done) else Sent(done) + [TextOf(c)]
    ensures SavedBy((done + [c])[..UpToBlank(done + [c])], base, saved)
         == if Blank(c) then SavedBy(done + [c], base, saved) else SavedBy(done[..UpToBlank(done)], base, saved)
  {
    ConcatJoin(done, [c]);
    ConcatFew(c);
    DoneMore(done, c, base, saved);
    BlankSaved(done, c, base, saved);
    hide Concat, Sent, UpToBlank, SavedBy, Blank, TextOf;
  }

  /** The loop of ph_logger_push_from_file: the fragments to send and the position behind them. A blank line
      has its position saved on the spot. */
  method Cut(f: LogFile, buf: string, base: nat, size: nat, wrap: string -> string) returns (frags: seq<string>, pos: nat)
    requires f.saved.Some? && Free(buf) && Bytes(buf)
    modifies f`saved
    ensures var cs, saved := Chunks(buf, 0, |buf|, size), old(f.saved.value);
      Wrapped(frags, Sent(cs), wrap) && pos == SavedBy(cs, base, saved)
      && f.saved == Some(SavedBy(cs[..UpToBlank(cs)], base, saved))
  {
    hide Chunks, Concat, Sent, UpToBlank, Blank, TextOf, SavedBy;
    ghost var saved, all := f.saved.value, Chunks(buf, 0, |buf|, size);
    ghost var done: seq<string> := [];
    CutStart(base, saved);
    assert buf[0..] == buf && done + all == all;
    pos := f.saved.value;
    frags := [];
    var offset, left := 0, |buf|;
    while left > 0
      invariant offset <= |buf| && left <= |buf| - offset
      invariant done + Chunks(buf[offset..], offset, left, size) == all && offset == |Concat(done)|
      invariant Wrapped(frags, Sent(done), wrap) && pos == SavedBy(done, base, saved)
      invariant f.saved == Some(SavedBy(done[..UpToBlank(done)], base, saved))
      decreases |buf| - offset, left
    {
      var took, holder, next, rest, chunk := TakeChunk(buf, offset, left, size);
      if !took {
        left := 0;
        assert done == all;
        break;
      }
      CutMore(done, chunk, Chunks(buf[next..], next, rest, size), base, saved);
      BytesBetween(buf, offset, next);
      offset, left := next, rest;
      var json := Format(holder, |holder|);
      assert holder[..|holder|] == holder;
      pos := base + offset;
      if json.Some? {
        frags := frags + [wrap(json.value)];
      } else {
        f.saved := Some(pos);
      }
      done := done + [chunk];
    }
    ChunksStep(buf[offset..], offset, left, size);
    assert done == all;
  }

  function SumLengths(parts: seq<string>): nat {
    if parts == [] then 0 else SumLengths(parts[..|parts| - 1]) + |parts[|parts| - 1]|
  }

  /** The bundle of the fragments: the space set aside for it is used to the last byte, and no snprintf is
      cut short. */
  method Bundle(frags: seq<string>) returns (json: string)
    requires frags != []
    ensures json == "[" + Commas(frags) + "]"
  {
    var avail := |frags| + SumLengths(frags) + 2;
    json := "[";
    avail := avail - 1;
    var i := 0;
    while i < |frags|
      invariant 0 <= i <= |frags|
      invariant json == "[" + Commas(frags[..i]) + if 0 < i < |frags| then "," else ""
      invariant avail == |frags| + SumLengths(frags) + 2 - |json|
      invariant |json| == 1 + SumLengths(frags[..i]) + if i < |frags| then i else i - 1
    {
      assert frags[..i + 1][..i] == frags[..i];
      LengthsGrow(frags, i + 1);
      assert |frags[i]| < avail;
      json := json + frags[i];
      avail := avail - |frags[i]|;
      i := i + 1;
      if i < |frags| {
        assert 1 < avail;
        json := json + ",";
        avail := avail - 1;
      }
    }
    assert frags[..i] == frags;
    assert avail == 2;
    json := json + "]";
  }

  lemma {:induction false} LengthsGrow(parts: seq<string>, n: nat)
    requires n <= |parts|
    ensures SumLengths(parts[..n]) <= SumLengths(parts)
  {
    if n < |parts| {
      LengthsGrow(parts[..|parts| - 1], n);
      assert parts[..|parts| - 1][..n] == parts[..n];
    } else {
      assert parts[..n] == parts;
    }
  }

  /** Seeking, reading and replacing the NULs. */
  method ReadBlock(content: string, pos: nat, size: nat) returns (readPos: nat, buf: string)
    requires Bytes(content)
    ensures readPos == Base(content, pos) && buf == Block(content, readPos, size) && Free(buf) && Bytes(buf)
    ensures readPos == if pos > |content| then 0 else pos
    ensures |buf| == if size <= |content| - readPos then size else |content| - readPos
    ensures forall k | 0 <= k < |buf| :: buf[k] == if content[readPos + k] == NUL then ' ' else content[readPos + k]
  {
    readPos := pos;
    if |content| < readPos {
      readPos := 0;
    }
    var end := if readPos + size < |content| then readPos + size else |content|;
    BytesBetween(content, readPos, end);
    buf := Clean(content[readPos..end]);
  }

  /** ph_logger_push_from_file, when the file opens and the pool has its two buffers: the position that it
      leaves and its answer are those of Push, and what it posts is the bundle of the escaped texts. */
  method PushFromFile(f: LogFile, size: nat, wrap: string -> string, ok: bool)
    returns (ret: int, posted: Option<string>, ghost frags: seq<string>)
    requires Bytes(f.content)
    modifies f`saved
    ensures var saved := old(f.saved).GetOr(0);
      && f.saved == Some(Push(f.content, saved, size, ok).saved) && ret == Push(f.content, saved, size, ok).ret
      && Wrapped(frags, Sent(Taken(f.content, saved, size)), wrap)
    ensures posted == if frags == [] then None else Some("[" + Commas(frags) + "]")
    ensures ret == if posted.None? then 0 else if ok then 1 else -1
    ensures var texts := Sent(Taken(f.content, old(f.saved).GetOr(0), size));
      |frags| == |texts| && forall i | 0 <= i < |texts| :: Bytes(texts[i]) && frags[i] == wrap(Escape(texts[i]))
  {
    if f.saved.None? {
      f.saved := Some(0);
    }
    hide Clean, Chunks, Concat, Sent, UpToBlank, Commas, SavedBy, Base, Block, Bytes, Blank, TextOf;
    var pos := f.saved.value;
    ghost var saved := pos;
    var readPos, buf := ReadBlock(f.content, pos, size);
    var list;
    list, pos := Cut(f, buf, readPos, size, wrap);
    frags := list;
    ghost var cs := Chunks(buf, 0, |buf|, size);
    assert cs == Taken(f.content, saved, size) && cs[..|cs|] == cs;
    hide Taken;
    ret, posted := 0, None;
    AllBlankSaved(cs);
    if list != [] {
      var body := Bundle(list);
      posted := Some(body);
      if ok {
        f.saved := Some(pos);
      }
      ret := if ok then 1 else -1;
    }
  }

  /** With nothing to send the last blank line is the last chunk. */
  lemma AllBlankSaved(cs: seq<string>)
    ensures Sent(cs) == [] ==> UpToBlank(cs) == |cs|
  {
    AllBlank(cs);
    hide Sent;
  }
}
