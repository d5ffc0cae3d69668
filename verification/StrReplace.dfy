/**
 Substring replacement: the two-pass pv_str_replace_str of utils/strrep.c, and pv_str_unescape_to_ascii of
 utils/str.c, which appends the pattern to its input so that the last piece ends at a match too.
 */
module StrReplace {
  import opened CStrings
  import opened Wrappers

  predicate Occurs(s: string, p: string, j: nat) { j + |p| <= |s| && s[j..j + |p|] == p }

  /** strstr */
  function IndexOf(s: string, p: string): (r: Option<nat>)
    ensures r.Some? ==> r.value + |p| <= |s|
  {
    if p <= s then Some(0)
    else if s == "" then None
    else
      match IndexOf(s[1..], p)
      case None => None
      case Some(i) => Some(i + 1)
  }

  lemma OccursHere(s: string, p: string)
    ensures Occurs(s, p, 0) <==> p <= s
  {
    if |p| <= |s| {
      assert s[0..0 + |p|] == s[..|p|];
    }
  }

  lemma OccursLater(s: string, p: string, j: nat)
    requires 0 < j <= |s|
    ensures Occurs(s, p, j) <==> Occurs(s[1..], p, j - 1)
  {
    if j + |p| <= |s| {
      assert s[1..][j - 1..j - 1 + |p|] == s[j..j + |p|];
    }
  }

  lemma {:induction false} IndexOfIsFirst(s: string, p: string)
    ensures match IndexOf(s, p)
            case Some(i) => Occurs(s, p, i) && forall j | 0 <= j < i :: !Occurs(s, p, j)
            case None => forall j | 0 <= j <= |s| :: !Occurs(s, p, j)
  {
    hide Occurs;
    OccursHere(s, p);
    if s == "" || p <= s {
    } else {
      IndexOfIsFirst(s[1..], p);
      forall j: nat | 0 < j <= |s|
        ensures Occurs(s, p, j) <==> Occurs(s[1..], p, j - 1)
      {
        OccursLater(s, p, j);
      }
    }
  }

  /** The first occurrence decides. */
  lemma FirstDecides(s: string, p: string, i: nat)
    requires Occurs(s, p, i) && forall j | 0 <= j < i :: !Occurs(s, p, j)
    ensures IndexOf(s, p) == Some(i)
  {
    IndexOfIsFirst(s, p);
  }

  /** Leftmost, non-overlapping replacement. */
  function Replace(s: string, p: string, q: string): string
    requires p != ""
    decreases |s|
  {
    match IndexOf(s, p)
    case None => s
    case Some(i) => s[..i] + q + Replace(s[i + |p|..], p, q)
  }

  function Matches(s: string, p: string): nat
    requires p != ""
    decreases |s|
  {
    match IndexOf(s, p)
    case None => 0
    case Some(i) => 1 + Matches(s[i + |p|..], p)
  }

  /** The first match of p cuts s into what stands before it and behind it. */
  predicate Cut(s: string, p: string, a: string, b: string) { s == a + p + b && IndexOf(s, p) == Some(|a|) }

  lemma CutOf(s: string, p: string) returns (a: string, b: string)
    requires IndexOf(s, p).Some?
    ensures Cut(s, p, a, b)
  {
    hide IndexOf;
    IndexOfIsFirst(s, p);
    var i := IndexOf(s, p).value;
    Around(s, i, i + |p|);
    a, b := s[..i], s[i + |p|..];
  }

  lemma Around(s: string, i: nat, j: nat)
    requires i <= j <= |s|
    ensures s == s[..i] + s[i..j] + s[j..]
  {
  }

  lemma ReplaceCut(s: string, p: string, q: string, a: string, b: string)
    requires p != "" && Cut(s, p, a, b)
    ensures Replace(s, p, q) == a + q + Replace(b, p, q) && Matches(s, p) == 1 + Matches(b, p)
  {
    assert s[..|a|] == a && s[|a| + |p|..] == b;
    hide IndexOf;
  }

  lemma ReplaceNothing(s: string, p: string, q: string)
    requires p != "" && IndexOf(s, p).None?
    ensures Replace(s, p, q) == s && Matches(s, p) == 0
  {
    hide IndexOf;
  }

  /** The same by reading one character at a time: at a match replace and go on behind it, else keep the
      character. */
  function Scan(s: string, p: string, q: string): string
    requires p != ""
    decreases |s|
  {
    if p <= s then q + Scan(s[|p|..], p, q)
    else if s == "" then ""
    else [s[0]] + Scan(s[1..], p, q)
  }

  lemma {:induction false} ReplaceIsScan(s: string, p: string, q: string)
    requires p != ""
    ensures Replace(s, p, q) == Scan(s, p, q)
    decreases |s|
  {
    if p <= s {
      assert IndexOf(s, p) == Some(0) && s == "" + p + s[|p|..];
      ReplaceCut(s, p, q, "", s[|p|..]);
      ReplaceIsScan(s[|p|..], p, q);
      hide IndexOf, Replace, Matches;
      assert "" + q == q;
    } else if s == "" {
    } else {
      ReplaceIsScan(s[1..], p, q);
      ReplaceTail(s, p, q);
      hide IndexOf, Replace, Matches;
    }
  }

  lemma ReplaceTail(s: string, p: string, q: string)
    requires p != "" && s != "" && !(p <= s)
    ensures Replace(s, p, q) == [s[0]] + Replace(s[1..], p, q)
  {
    var t := s[1..];
    assert IndexOf(s, p) == if IndexOf(t, p).None? then None else Some(IndexOf(t, p).value + 1);
    hide IndexOf, Replace, Matches, Cut;
    if IndexOf(t, p).None? {
      assert s == [s[0]] + t;
      ReplaceNothing(s, p, q);
      ReplaceNothing(t, p, q);
    } else {
      var a, b := CutOf(t, p);
      CutLater(s, p, a, b);
      ReplaceCut(t, p, q, a, b);
      ReplaceCut(s, p, q, [s[0]] + a, b);
      Concat3([s[0]], a, q, Replace(b, p, q));
    }
  }

  lemma CutLater(s: string, p: string, a: string, b: string)
    requires s != "" && !(p <= s) && Cut(s[1..], p, a, b)
    ensures Cut(s, p, [s[0]] + a, b)
  {
    assert s == [s[0]] + s[1..];
    assert [s[0]] + (a + p + b) == ([s[0]] + a) + p + b;
  }

  lemma Concat2(a: string, b: string, c: string)
    ensures (a + b) + c == a + (b + c)
  {
  }

  lemma Concat3(a: string, b: string, c: string, d: string)
    ensures (a + b) + c + d == a + (b + c + d)
  {
  }

  /** Replacing the pattern by itself changes nothing. */
  lemma {:induction false} ReplaceBySelf(s: string, p: string)
    requires p != ""
    ensures Replace(s, p, p) == s
    decreases |s|
  {
    hide IndexOf, Replace, Matches;
    if IndexOf(s, p).None? {
      ReplaceNothing(s, p, p);
    } else {
      var a, b := CutOf(s, p);
      ReplaceCut(s, p, p, a, b);
      ReplaceBySelf(b, p);
    }
  }

  lemma LengthStep(m: nat, a: nat, p: nat, q: nat, b: nat, r: int)
    requires m * p <= b && r == b - m * p + m * q
    ensures (1 + m) * p <= a + p + b && a + q + r == (a + p + b) - (1 + m) * p + (1 + m) * q
  {
  }

  /** The size that the first pass computes. */
  lemma {:induction false} ExactLength(s: string, p: string, q: string)
    requires p != ""
    ensures Matches(s, p) * |p| <= |s|
    ensures |Replace(s, p, q)| == |s| - Matches(s, p) * |p| + Matches(s, p) * |q|
    decreases |s|
  {
    hide IndexOf, Replace, Matches;
    if IndexOf(s, p).None? {
      ReplaceNothing(s, p, q);
    } else {
      var a, b := CutOf(s, p);
      ReplaceCut(s, p, q, a, b);
      ExactLength(b, p, q);
      LengthStep(Matches(b, p), |a|, |p|, |q|, |b|, |Replace(b, p, q)|);
    }
  }

  lemma {:induction false} ReplaceIsFree(s: string, p: string, q: string)
    requires p != "" && Free(s) && Free(q)
    ensures Free(Replace(s, p, q))
    decreases |s|
  {
    hide IndexOf, Replace, Matches;
    if IndexOf(s, p).None? {
      ReplaceNothing(s, p, q);
    } else {
      var a, b := CutOf(s, p);
      ReplaceCut(s, p, q, a, b);
      assert s[..|a|] == a && s[|a| + |p|..] == b;
      ReplaceIsFree(b, p, q);
    }
  }

  /** pv_str_replace_str, over sizes that do not overflow; an argument that is NULL makes it fail. The
      asserts are those of the source. */
  method ReplaceStr(a1: Option<string>, a2: Option<string>, a3: Option<string>) returns (r: Option<string>)
    requires a1.Some? ==> Free(a1.value)
    requires a3.Some? ==> Free(a3.value)
    ensures r == if a1.None? || a2.None? || a3.None? then None
                 else if a2.value == "" then a1
                 else Some(Replace(a1.value, a2.value, a3.value))
  {
    if a1.None? || a2.None? || a3.None? {
      return None;
    }
    var s1, s2, s3 := a1.value, a2.value, a3.value;
    if s1 == "" {
      return Some(s1);
    }
    if s2 == "" {
      return Some(s1);
    }
    var count := CountMatches(s1, s2);
    if count == 0 {
      return Some(s1);
    }
    ExactLength(s1, s2, s3);
    assert |s1| >= count * |s2|;
    assert count > 0;
    var without := |s1| - count * |s2|;
    var total := without + count * |s3|;
    var dst := new char[total + 1];
    FillMatches(dst, s1, s2, s3, count);
    ReplaceIsFree(s1, s2, s3);
    assert dst[0..dst.Length][..total] == dst[..total];
    LenIs(dst[0..dst.Length], total);
    assert Len(dst[0..dst.Length]) == total;
    var n := StrLen(dst, 0, dst.Length);
    r := Some(dst[..n]);
  }

  /** The first pass. */
  method CountMatches(s1: string, s2: string) returns (count: nat)
    requires s2 != ""
    ensures count == Matches(s1, s2)
  {
    count := 0;
    var p := Some(0);
    assert s1[0..] == s1;
    hide IndexOf, Matches, Replace;
    while p.Some?
      invariant p.Some? ==> p.value <= |s1| && Matches(s1, s2) == count + Matches(s1[p.value..], s2)
      invariant p.None? ==> Matches(s1, s2) == count
      decreases if p.Some? then |s1| - p.value + 1 else 0
    {
      p := NextMatch(s1, p.value, s2);
      if p.Some? {
        count := count + 1;
      }
    }
  }

  /** strstr and the step over what it found. */
  method NextMatch(s1: string, at: nat, s2: string) returns (p: Option<nat>)
    requires at <= |s1| && s2 != ""
    ensures p.None? ==> Matches(s1[at..], s2) == 0
    ensures p.Some? ==> at < p.value <= |s1| && Matches(s1[at..], s2) == 1 + Matches(s1[p.value..], s2)
  {
    hide IndexOf, Matches, Replace;
    p := IndexOf(s1[at..], s2);
    if p.Some? {
      ghost var a, b := CutOf(s1[at..], s2);
      ReplaceCut(s1[at..], s2, "", a, b);
      Behind(s1, at, a, s2, b);
      p := Some(at + p.value + |s2|);
    } else {
      ReplaceNothing(s1[at..], s2, "");
    }
  }

  lemma Behind(s: string, at: nat, a: string, p: string, b: string)
    requires at <= |s| && s[at..] == a + p + b
    ensures s[at + |a| + |p|..] == b && s[at..][..|a|] == a
  {
    assert s[at..][|a| + |p|..] == s[at + |a| + |p|..];
  }

  /** The second pass: it finds the matches that the first one counted, and fills the buffer exactly. */
  method FillMatches(dst: array<char>, s1: string, s2: string, s3: string, count: nat)
    requires s2 != "" && count == Matches(s1, s2) && dst.Length == |Replace(s1, s2, s3)| + 1
    modifies dst
    ensures dst[..dst.Length - 1] == Replace(s1, s2, s3) && dst[dst.Length - 1] == NUL
  {
    var d: nat, start: nat := 0, 0;
    assert s1[0..] == s1;
    for i := 0 to count
      invariant start <= |s1| && d < dst.Length && count - i == Matches(s1[start..], s2)
      invariant d + |Replace(s1[start..], s2, s3)| == dst.Length - 1
      invariant dst[..d] + Replace(s1[start..], s2, s3) == Replace(s1, s2, s3)
    {
      d, start := FillOne(dst, d, s1, start, s2, s3);
    }
    IndexOfIsFirst(s1[start..], s2);
    assert Replace(s1[start..], s2, s3) == s1[start..];
    var remains := |s1| - start + 1;
    assert d + remains == dst.Length;
    Copy(dst, d, s1[start..] + [NUL], remains);
    assert dst[..d + remains][..dst.Length - 1] == dst[..dst.Length - 1];
  }

  /** One turn of the second pass. */
  method FillOne(dst: array<char>, d: nat, s1: string, start: nat, s2: string, s3: string) returns (d': nat, start': nat)
    requires s2 != "" && start <= |s1| && Matches(s1[start..], s2) > 0
    requires d + |Replace(s1[start..], s2, s3)| < dst.Length
    modifies dst
    ensures start' <= |s1| && Matches(s1[start'..], s2) == Matches(s1[start..], s2) - 1
    ensures d' + |Replace(s1[start'..], s2, s3)| == d + |Replace(s1[start..], s2, s3)|
    ensures dst[..d'] + Replace(s1[start'..], s2, s3) == old(dst[..d]) + Replace(s1[start..], s2, s3)
  {
    hide Matches, IndexOf, Replace;
    var found := IndexOf(s1[start..], s2);
    if found.None? {
      ReplaceNothing(s1[start..], s2, s3);
    }
    assert found.Some?;
    ghost var a, b := CutOf(s1[start..], s2);
    ReplaceCut(s1[start..], s2, s3, a, b);
    Behind(s1, start, a, s2, b);
    var n := found.value;
    Copy(dst, d, s1[start..], n);
    Copy(dst, d + n, s3, |s3|);
    assert s3[..|s3|] == s3;
    d', start' := d + n + |s3|, start + n + |s2|;
    Concat3(old(dst[..d]), a, s3, Replace(b, s2, s3));
  }

  // ---- pv_str_unescape_to_ascii

  /** What is gathered: each piece that ends at a match, with c behind it. What follows the last match is
      not gathered. */
  function Gathered(t: string, code: string, c: char): string
    requires code != ""
    decreases |t|
  {
    match IndexOf(t, code)
    case None => ""
    case Some(i) => t[..i] + [c] + Gathered(t[i + |code|..], code, c)
  }

  function Unescape(s: string, code: string, c: char): string
    requires code != ""
  {
    var g := Gathered(s + code, code, c);
    if g != "" && g[|g| - 1] == c then g[..|g| - 1] else g
  }

  /** No proper end of the code is also its beginning. */
  predicate Unbordered(code: string) { forall k | 0 < k < |code| :: code[k..] != code[..|code| - k] }

  lemma OccursLocal(s: string, more: string, p: string, j: nat)
    requires j + |p| <= |s|
    ensures Occurs(s + more, p, j) <==> Occurs(s, p, j)
  {
    assert (s + more)[j..j + |p|] == s[j..j + |p|];
  }

  lemma Overlap(s: string, code: string, j: nat)
    requires j < |s| < j + |code| && Occurs(s + code, code, j)
    ensures var k := |s| - j; code[k..] == code[..|code| - k]
  {
    var t, k := s + code, |s| - j;
    forall q | 0 <= q < |code| - k
      ensures code[k..][q] == code[..|code| - k][q]
    {
      assert t[j..j + |code|][k + q] == t[|s| + q] == code[q];
    }
  }

  /** Behind a text without a match the appended code is matched at its own place. */
  lemma SentinelFound(s: string, code: string)
    requires code != "" && Unbordered(code) && IndexOf(s, code).None?
    ensures IndexOf(s + code, code) == Some(|s|)
  {
    IndexOfIsFirst(s, code);
    var t := s + code;
    assert t[|s|..|s| + |code|] == code;
    forall j: nat | j < |s|
      ensures !Occurs(t, code, j)
    {
      if j + |code| <= |s| {
        OccursLocal(s, code, code, j);
      } else if Occurs(t, code, j) {
        Overlap(s, code, j);
      }
    }
    FirstDecides(t, code, |s|);
  }

  lemma MatchKept(s: string, code: string, more: string)
    requires IndexOf(s, code).Some?
    ensures IndexOf(s + more, code) == IndexOf(s, code)
  {
    IndexOfIsFirst(s, code);
    var i := IndexOf(s, code).value;
    forall j: nat | j <= i
      ensures Occurs(s + more, code, j) <==> Occurs(s, code, j)
    {
      OccursLocal(s, more, code, j);
    }
    FirstDecides(s + more, code, i);
  }

  lemma {:induction false} GatheredIsReplaced(s: string, code: string, c: char)
    requires code != "" && Unbordered(code)
    ensures Gathered(s + code, code, c) == Replace(s, code, [c]) + [c]
    decreases |s|
  {
    hide Gathered, Replace, Matches, IndexOf, Occurs, Unbordered;
    if IndexOf(s, code).None? {
      ReplaceNothing(s, code, [c]);
      SentinelFound(s, code);
      assert s + code == s + code + "";
      GatheredCut(s + code, code, c, s, "");
      TooShort("", code);
      GatheredNothing("", code, c);
      assert s + [c] + "" == s + [c];
    } else {
      var a, b := CutOf(s, code);
      ReplaceCut(s, code, [c], a, b);
      MatchKept(s, code, code);
      Concat2(a + code, b, code);
      GatheredCut(s + code, code, c, a, b + code);
      GatheredIsReplaced(b, code, c);
      Concat2(a + [c], Replace(b, code, [c]), [c]);
    }
  }

  lemma GatheredCut(s: string, code: string, c: char, a: string, b: string)
    requires code != "" && Cut(s, code, a, b)
    ensures Gathered(s, code, c) == a + [c] + Gathered(b, code, c)
  {
    assert s[..|a|] == a && s[|a| + |code|..] == b;
    hide IndexOf;
  }

  lemma GatheredNothing(s: string, code: string, c: char)
    requires code != "" && IndexOf(s, code).None?
    ensures Gathered(s, code, c) == ""
  {
    hide IndexOf;
  }

  lemma TooShort(s: string, p: string)
    requires |s| < |p|
    ensures IndexOf(s, p).None?
  {
    IndexOfIsFirst(s, p);
  }

  /** A code with a border loses text: what precedes the overlap of two codes. */
  lemma BorderLoses(code: string, c: char, k: nat)
    requires 0 < k < |code| && code[k..] == code[..|code| - k]
    ensures Unescape(code[..k], code, c) == "" != Replace(code[..k], code, [c])
  {
    hide Gathered, Replace, Matches, IndexOf, Cut;
    var s, e := code[..k], code[|code| - k..];
    BorderedCut(code, k);
    GatheredCut(s + code, code, c, "", e);
    TooShort(e, code);
    GatheredNothing(e, code, c);
    TooShort(s, code);
    ReplaceNothing(s, code, [c]);
    assert "" + [c] + "" == [c];
  }

  lemma BorderedCut(code: string, k: nat)
    requires 0 < k < |code| && code[k..] == code[..|code| - k]
    ensures Cut(code[..k] + code, code, "", code[|code| - k..])
  {
    var s, e := code[..k], code[|code| - k..];
    assert code == s + code[k..];
    assert code == code[k..] + e;
    Concat2(s, code[k..], e);
    assert "" + code == code;
    assert code <= code + e;
  }

  /** The sentinel version is a replacement for every text exactly when its code has no border. */
  lemma UnescapeIsReplace(code: string, c: char)
    requires code != ""
    ensures (forall s :: Unescape(s, code, c) == Replace(s, code, [c])) <==> Unbordered(code)
  {
    if Unbordered(code) {
      forall s
        ensures Unescape(s, code, c) == Replace(s, code, [c])
      {
        GatheredIsReplaced(s, code, c);
      }
    } else {
      var k :| 0 < k < |code| && code[k..] == code[..|code| - k];
      BorderLoses(code, c, k);
    }
  }

  /** The code that metadata.c unescapes is of the good kind. */
  lemma NewlineEscape(s: string)
    ensures Unescape(s, "\\n", '\n') == Replace(s, "\\n", "\n")
  {
    var code := "\\n";
    assert code[1..] != code[..1] by { assert code[1..][0] != code[..1][0]; }
    UnescapeIsReplace(code, '\n');
  }

  lemma GatheredTurn(g: string, t: string, code: string, c: char)
    requires code != "" && IndexOf(t, code).Some?
    ensures var i := IndexOf(t, code).value;
      g + Gathered(t, code, c) == g + t[..i] + [c] + Gathered(t[i + |code|..], code, c)
  {
    hide IndexOf, Gathered;
    var a, b := CutOf(t, code);
    GatheredCut(t, code, c, a, b);
    assert t[..|a|] == a && t[|a| + |code|..] == b;
    Concat3(g, a, [c], Gathered(b, code, c));
  }

  /** pv_str_unescape_to_ascii; an empty code would never stop it. */
  method UnescapeToAscii(buf: string, code: string, c: char) returns (r: string)
    requires code != "" && Free(buf) && Free(code) && c != NUL
    ensures r == Unescape(buf, code, c)
    ensures Unbordered(code) ==> r == Replace(buf, code, [c])
  {
    hide Unbordered, Occurs, Replace, Matches, IndexOf, Gathered;
    var tmp := buf + code;
    var gathered := "";
    assert gathered + Gathered(tmp, code, c) == Gathered(buf + code, code, c);
    var p := IndexOf(tmp, code);
    while p.Some?
      invariant p == IndexOf(tmp, code)
      invariant gathered + Gathered(tmp, code, c) == Gathered(buf + code, code, c)
      decreases |tmp|
    {
      GatheredTurn(gathered, tmp, code, c);
      gathered := gathered + tmp[..p.value] + [c];
      tmp := tmp[p.value + |code|..];
      p := IndexOf(tmp, code);
    }
    GatheredNothing(tmp, code, c);
    assert gathered + "" == gathered;
    if gathered != "" && gathered[|gathered| - 1] == c {
      gathered := gathered[..|gathered| - 1];
    }
    r := gathered;
    if Unbordered(code) {
      GatheredIsReplaced(buf, code, c);
    }
  }
}
