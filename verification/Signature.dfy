/**
 State signatures (signature.c): which pairs of the state JSON a signature's filter selects, the payload
 that is printed from them, and what a state that passes verification satisfies. Parsing, fnmatch and
 the cryptographic check are parameters.
 */
module Signature {
  import opened CStrings
  import opened Wrappers

  /** struct pv_signature_pair */
  datatype Pair = Pair(key: string, value: string, included: bool, covered: bool)

  /** The two filters of a signature: lists of patterns, or text that is no list. */
  datatype Filter = Filter(including: Option<seq<string>>, excluding: Option<seq<string>>)

  /** A signature entry; usable when its header and certificates parse and its algorithm is known. */
  datatype Sig = Sig(filter: Filter, usable: bool)

  type Fnmatch = (string, string, bool) -> bool

  // ---- patterns

  /** pv_str_endswith: a proper ending. */
  predicate EndsWith(s: string, t: string) { |s| > |t| && s[|s| - |t|..] == t }

  /** dirname of a path that ends in a component: what precedes the last slash, without slashes at its end. */
  function Dirname(s: string): string {
    if s == "" then "/" else if s[|s| - 1] == '/' then Dirname(s[..|s| - 1]) else s
  }

  /** The path that a pattern stands for, and whether it matches what is below it too. */
  function Glob(pattern: string): (string, bool) {
    if pattern == "**" then ("", true)
    else if EndsWith(pattern, "/**") then (Dirname(pattern[..|pattern| - 3]), true)
    else (pattern, false)
  }

  predicate Match(fn: Fnmatch, pattern: string, key: string) {
    var g := Glob(pattern);
    fn(g.0, key, g.1)
  }

  predicate MatchesAny(fn: Fnmatch, patterns: seq<string>, key: string) {
    exists i | 0 <= i < |patterns| :: Match(fn, patterns[i], key)
  }

  predicate Matched(fn: Fnmatch, patterns: Option<seq<string>>, key: string) {
    patterns.Some? && MatchesAny(fn, patterns.value, key)
  }

  /** What a signature with filter f signs. */
  predicate Selects(fn: Fnmatch, f: Filter, key: string) { Matched(fn, f.including, key) && !Matched(fn, f.excluding, key) }

  /** What it counts as covered: what it excludes too. */
  predicate Covers(fn: Fnmatch, f: Filter, key: string) { Matched(fn, f.including, key) || Matched(fn, f.excluding, key) }

  predicate Slashes(s: string) { forall k | 0 <= k < |s| :: s[k] == '/' }

  lemma {:induction false} DirnameIs(d: string, slashes: string)
    requires Slashes(slashes) && (d != "" ==> d[|d| - 1] != '/')
    ensures Dirname(d + slashes) == if d == "" then "/" else d
  {
    if slashes == "" {
      assert d + slashes == d;
    } else {
      var s := d + slashes;
      assert s[..|s| - 1] == d + slashes[..|slashes| - 1];
      DirnameIs(d, slashes[..|slashes| - 1]);
    }
  }

  /** What one pattern of a filter selects: two stars everything that fnmatch finds below the root; a folder
      followed by a slash and two stars, with any slashes between, what it finds below the folder; any other
      pattern, with a slash and two stars alone among them, what it finds at exactly that path. */
  lemma PatternSelects(fn: Fnmatch, d: string, slashes: string, pattern: string, key: string)
    requires Slashes(slashes) && (d != "" ==> d[|d| - 1] != '/')
    ensures Selects(fn, Filter(Some(["**"]), None), key) <==> fn("", key, true)
    ensures d != "" ==> (Selects(fn, Filter(Some([d + slashes + "/**"]), None), key) <==> fn(d, key, true))
    ensures slashes != "" ==> (Selects(fn, Filter(Some([slashes + "/**"]), None), key) <==> fn("/", key, true))
    ensures pattern != "**" && (|pattern| <= 3 || pattern[|pattern| - 3..] != "/**") ==>
      (Selects(fn, Filter(Some([pattern]), None), key) <==> fn(pattern, key, false))
  {
    var p, q := d + slashes + "/**", slashes + "/**";
    OnePattern(fn, "**", key);
    OnePattern(fn, p, key);
    OnePattern(fn, q, key);
    OnePattern(fn, pattern, key);
    if d != "" {
      FolderGlob(d, slashes);
    }
    if slashes != "" {
      assert "" + slashes == slashes;
      FolderGlob("", slashes);
    }
    hide Selects, Dirname;
  }

  lemma FolderGlob(d: string, slashes: string)
    requires Slashes(slashes) && (d != "" ==> d[|d| - 1] != '/') && d + slashes != ""
    ensures Glob(d + slashes + "/**") == (if d == "" then "/" else d, true)
  {
    var p := d + slashes + "/**";
    assert p[..|p| - 3] == d + slashes && p[|p| - 3..] == "/**" && p[|p| - 3] == '/';
    DirnameIs(d, slashes);
    hide Dirname;
  }

  lemma OnePattern(fn: Fnmatch, pattern: string, key: string)
    ensures Selects(fn, Filter(Some([pattern]), None), key) <==> Match(fn, pattern, key)
    ensures !Selects(fn, Filter(None, Some([pattern])), key)
    ensures Covers(fn, Filter(None, Some([pattern])), key) <==> Match(fn, pattern, key)
  {
    assert [pattern][0] == pattern;
    hide Match;
  }

  function Marked(fn: Fnmatch, p: Pair, patterns: seq<string>, including: bool): Pair {
    if MatchesAny(fn, patterns, p.key) then p.(included := including, covered := true) else p
  }

  lemma MarkedMore(fn: Fnmatch, p: Pair, patterns: seq<string>, k: nat, including: bool)
    requires k < |patterns|
    ensures var q := Marked(fn, p, patterns[..k], including);
      Marked(fn, p, patterns[..k + 1], including)
      == if Match(fn, patterns[k], q.key) then q.(included := including, covered := true) else q
  {
    var a, b := patterns[..k], patterns[..k + 1];
    if MatchesAny(fn, a, p.key) {
      var i :| 0 <= i < |a| && Match(fn, a[i], p.key);
      assert b[i] == a[i];
    }
    if MatchesAny(fn, b, p.key) {
      var i :| 0 <= i < |b| && Match(fn, b[i], p.key);
      assert i < k ==> a[i] == b[i];
    }
    assert b[k] == patterns[k];
  }

  // ---- the payload

  function Quote(s: string): string { "\"" + s + "\"" }

  /** An object is printed as it is, anything else between quotes. */
  function Print(p: Pair): string {
    Quote(p.key) + ":" + if p.value != "" && p.value[0] == '{' then p.value else Quote(p.value)
  }

  /** An entry of the payload: an object as its text stands, anything else as a string. */
  lemma PrintIs(p: Pair)
    ensures p.value != "" && p.value[0] == '{' ==> Print(p) == "\"" + p.key + "\":" + p.value
    ensures p.value == "" || p.value[0] != '{' ==> Print(p) == "\"" + p.key + "\":\"" + p.value + "\""
  {
    if p.value != "" && p.value[0] == '{' {
      PlainPieces("", p);
      assert "" + Print(p) == Print(p) && "" + "\"" == "\"";
    } else {
      QuotedPieces("", p);
      assert "" + Print(p) == Print(p) && "" + "\"" == "\"";
    }
  }

  /** The payload of the first pairs, and how it goes on. */
  lemma PayloadGrows(fn: Fnmatch, pairs: seq<Pair>, p: Pair, f: Filter)
    ensures Payload(fn, [], f) == "{}"
    ensures !Selects(fn, f, p.key) ==> Payload(fn, pairs + [p], f) == Payload(fn, pairs, f)
    ensures Selects(fn, f, p.key) && Chosen(fn, pairs, f) == [] ==>
      Payload(fn, pairs + [p], f) == "{" + Print(p) + "}"
    ensures Selects(fn, f, p.key) && Chosen(fn, pairs, f) != [] ==>
      Payload(fn, pairs + [p], f) == Payload(fn, pairs, f)[..|Payload(fn, pairs, f)| - 1] + "," + Print(p) + "}"
  {
    var all := pairs + [p];
    assert all[..|all| - 1] == pairs;
    var cs := Chosen(fn, pairs, f);
    assert "{" + "" + "}" == "{}";
    assert (cs + [Print(p)])[..|cs + [Print(p)]| - 1] == cs;
    assert [] + [Print(p)] == [Print(p)] && cs + [] == cs;
    hide Selects, Print;
    if Selects(fn, f, p.key) && cs != [] {
      assert Commas(cs + [Print(p)]) == Commas(cs) + "," + Print(p);
      assert "{" + (Commas(cs) + "," + Print(p)) + "}" == ("{" + Commas(cs)) + "," + Print(p) + "}";
      assert ("{" + Commas(cs) + "}")[..|"{" + Commas(cs) + "}"| - 1] == "{" + Commas(cs);
    }
  }

  function Object(parts: seq<string>): string { "{" + Commas(parts) + "}" }

  /** The printed pairs, in state order. */
  function Printed(pairs: seq<Pair>): seq<string> {
    if pairs == [] then []
    else Printed(pairs[..|pairs| - 1])
         + if pairs[|pairs| - 1].included then [Print(pairs[|pairs| - 1])] else []
  }

  function Chosen(fn: Fnmatch, pairs: seq<Pair>, f: Filter): seq<string> {
    if pairs == [] then []
    else Chosen(fn, pairs[..|pairs| - 1], f)
         + if Selects(fn, f, pairs[|pairs| - 1].key) then [Print(pairs[|pairs| - 1])] else []
  }

  /** The text that a signature with filter f is about. */
  function Payload(fn: Fnmatch, pairs: seq<Pair>, f: Filter): string { Object(Chosen(fn, pairs, f)) }

  predicate SameText(a: Pair, b: Pair) { a.key == b.key && a.value == b.value }

  lemma {:induction false} PrintedIsChosen(fn: Fnmatch, before: seq<Pair>, pairs: seq<Pair>, f: Filter)
    requires |before| == |pairs|
    requires forall i | 0 <= i < |pairs| :: SameText(before[i], pairs[i]) && (pairs[i].included <==> Selects(fn, f, pairs[i].key))
    ensures Printed(pairs) == Chosen(fn, before, f)
  {
    if pairs == [] {
    } else {
      PrintedIsChosen(fn, before[..|before| - 1], pairs[..|pairs| - 1], f);
      hide Selects;
      assert SameText(before[|before| - 1], pairs[|pairs| - 1]);
    }
  }

  /** Which filter a payload comes from matters only through what it selects: the order of the patterns
      and how often one is named do not. */
  lemma {:induction false} PayloadBySelection(fn: Fnmatch, pairs: seq<Pair>, f: Filter, g: Filter)
    requires forall i | 0 <= i < |pairs| :: Selects(fn, f, pairs[i].key) <==> Selects(fn, g, pairs[i].key)
    ensures Payload(fn, pairs, f) == Payload(fn, pairs, g)
  {
    ChosenBySelection(fn, pairs, f, g);
  }

  lemma {:induction false} ChosenBySelection(fn: Fnmatch, pairs: seq<Pair>, f: Filter, g: Filter)
    requires forall i | 0 <= i < |pairs| :: Selects(fn, f, pairs[i].key) <==> Selects(fn, g, pairs[i].key)
    ensures Chosen(fn, pairs, f) == Chosen(fn, pairs, g)
  {
    if pairs == [] {
    } else {
      ChosenBySelection(fn, pairs[..|pairs| - 1], f, g);
    }
  }

  lemma PatternOrder(fn: Fnmatch, a: seq<string>, b: seq<string>, key: string)
    requires forall x :: x in a <==> x in b
    ensures MatchesAny(fn, a, key) <==> MatchesAny(fn, b, key)
  {
    if i :| 0 <= i < |a| && Match(fn, a[i], key) {
      assert a[i] in b;
    }
    if i :| 0 <= i < |b| && Match(fn, b[i], key) {
      assert b[i] in a;
    }
  }

  // ---- the code

  /** pv_signature_include_files */
  method IncludeFiles(fn: Fnmatch, patterns: Option<seq<string>>, including: bool, a: array<Pair>)
    modifies a
    ensures forall i | 0 <= i < a.Length :: a[i] == if patterns.None? then old(a[i]) else Marked(fn, old(a[i]), patterns.value, including)
  {
    if patterns.None? || patterns.value == [] {
      return;
    }
    var list := patterns.value;
    var k := 0;
    assert forall i | 0 <= i < a.Length :: a[i] == Marked(fn, old(a[i]), list[..0], including);
    while k < |list|
      invariant 0 <= k <= |list|
      invariant forall i | 0 <= i < a.Length :: a[i] == Marked(fn, old(a[i]), list[..k], including)
    {
      var g := Glob(list[k]);
      var j := 0;
      while j < a.Length
        invariant 0 <= j <= a.Length
        invariant forall i | 0 <= i < j :: a[i] == Marked(fn, old(a[i]), list[..k + 1], including)
        invariant forall i | j <= i < a.Length :: a[i] == Marked(fn, old(a[i]), list[..k], including)
      {
        MarkedMore(fn, old(a[j]), list, k, including);
        if fn(g.0, a[j].key, g.1) {
          a[j] := a[j].(included := including, covered := true);
        }
        j := j + 1;
      }
      k := k + 1;
    }
    assert list[..k] == list;
  }

  /** pv_signature_reset_included and pv_signature_filter_files: whatever the flags were, a pair is included
      exactly when the filter selects it. */
  method FilterFiles(fn: Fnmatch, f: Filter, a: array<Pair>)
    modifies a
    ensures forall i | 0 <= i < a.Length :: SameText(a[i], old(a[i]))
    ensures forall i | 0 <= i < a.Length :: a[i].included <==> Selects(fn, f, a[i].key)
    ensures forall i | 0 <= i < a.Length :: a[i].covered <==> old(a[i].covered) || Covers(fn, f, a[i].key)
  {
    hide MatchesAny;
    var j := 0;
    while j < a.Length
      invariant 0 <= j <= a.Length
      invariant forall i | 0 <= i < j :: a[i] == old(a[i]).(included := false)
      invariant forall i | j <= i < a.Length :: a[i] == old(a[i])
    {
      a[j] := a[j].(included := false);
      j := j + 1;
    }
    IncludeFiles(fn, f.including, true, a);
    IncludeFiles(fn, f.excluding, false, a);
  }

  function Trailing(parts: seq<string>): string {
    if parts == [] then "" else Trailing(parts[..|parts| - 1]) + parts[|parts| - 1] + ","
  }

  lemma {:induction false} TrailingIsCommas(parts: seq<string>)
    requires parts != []
    ensures Trailing(parts) == Commas(parts) + ","
  {
    if |parts| <= 1 {
    } else {
      TrailingIsCommas(parts[..|parts| - 1]);
    }
  }

  /** pv_signature_get_json_files: len counts the terminator, so the last comma is at len - 2. */
  method GetJsonFiles(a: array<Pair>) returns (out: string)
    ensures out == Object(Printed(a[..]))
  {
    var len := 2;
    out := "{";
    ghost var parts: seq<string> := [];
    var i := 0;
    while i < a.Length
      invariant 0 <= i <= a.Length && len == |out| + 1
      invariant parts == Printed(a[..i]) && out == "{" + Trailing(parts)
    {
      assert a[..i + 1][..i] == a[..i];
      if a[i].included {
        len, out := Append(a[i], len, out);
        assert (parts + [Print(a[i])])[..|parts|] == parts;
        parts := parts + [Print(a[i])];
      }
      i := i + 1;
    }
    assert a[..i] == a[..];
    if len > 2 {
      TrailingIsCommas(parts);
      out := out[len - 2 := '}'];
    } else {
      out := "{}";
    }
  }

  /** One pair and its comma, by the source's pieces and sizes. */
  method Append(p: Pair, len0: nat, out0: string) returns (len: nat, out: string)
    requires len0 == |out0| + 1
    ensures len == |out| + 1 && out == out0 + Print(p) + ","
  {
    var quoted := p.value == "" || p.value[0] != '{';
    len := len0 + 1 + |p.key|;
    out := out0 + "\"" + p.key;
    if quoted {
      len := len + 4 + |p.value|;
      out := out + "\":\"" + p.value + "\"";
      QuotedPieces(out0, p);
    } else {
      len := len + 2 + |p.value|;
      out := out + "\":" + p.value;
      PlainPieces(out0, p);
    }
    hide Print;
    len := len + 1;
    out := out + ",";
  }

  lemma QuotedPieces(s: string, p: Pair)
    requires p.value == "" || p.value[0] != '{'
    ensures s + "\"" + p.key + "\":\"" + p.value + "\"" == s + Print(p)
  {
    assert Print(p) == "\"" + p.key + ("\"" + ":" + "\"" + p.value + "\"");
    assert "\"" + ":" + "\"" == "\":\"";
  }

  lemma PlainPieces(s: string, p: Pair)
    requires p.value != "" && p.value[0] == '{'
    ensures s + "\"" + p.key + "\":" + p.value == s + Print(p)
  {
    assert Print(p) == "\"" + p.key + ("\"" + ":" + p.value);
    assert "\"" + ":" == "\":";
  }

  // ---- verifying a state

  type Parse = string -> Option<Sig>
  type Check = (Sig, string) -> bool

  datatype Mode = Disabled | Lenient | Strict

  /** Every signature entry of the state is usable, and its check accepts what its filter selects. */
  predicate Good(fn: Fnmatch, parse: Parse, check: Check, pairs: seq<Pair>, k: nat)
    requires k < |pairs|
  {
    var s := parse(pairs[k].value);
    s.Some? ==> s.value.usable && check(s.value, Payload(fn, pairs, s.value.filter))
  }

  predicate CoveredBy(fn: Fnmatch, parse: Parse, pairs: seq<Pair>, k: nat, key: string)
    requires k < |pairs|
  {
    var s := parse(pairs[k].value);
    s.Some? && Covers(fn, s.value.filter, key)
  }

  predicate CoveredUpTo(fn: Fnmatch, parse: Parse, pairs: seq<Pair>, n: nat, key: string)
    requires n <= |pairs|
  {
    exists k | 0 <= k < n :: CoveredBy(fn, parse, pairs, k, key)
  }

  predicate InSigs(key: string) { "_sigs/" <= key }

  /** What verification promises of a state. */
  predicate Accepted(fn: Fnmatch, parse: Parse, check: Check, pairs: seq<Pair>, strict: bool) {
    && (forall k | 0 <= k < |pairs| :: Good(fn, parse, check, pairs, k))
    && (strict ==> forall i | 0 <= i < |pairs| && !InSigs(pairs[i].key) :: CoveredUpTo(fn, parse, pairs, |pairs|, pairs[i].key))
  }

  predicate SameTexts(a: seq<Pair>, b: seq<Pair>) { |a| == |b| && forall i | 0 <= i < |a| :: SameText(a[i], b[i]) }

  lemma {:induction false} ChosenByText(fn: Fnmatch, a: seq<Pair>, b: seq<Pair>, f: Filter)
    requires SameTexts(a, b)
    ensures Chosen(fn, a, f) == Chosen(fn, b, f)
  {
    if a == [] {
    } else {
      ChosenByText(fn, a[..|a| - 1], b[..|b| - 1], f);
      assert SameText(a[|a| - 1], b[|b| - 1]);
    }
  }

  /** pv_signature_verify_pvs */
  method VerifyPvs(fn: Fnmatch, check: Check, s: Sig, a: array<Pair>) returns (ok: bool)
    modifies a
    ensures ok == (s.usable && check(s, Payload(fn, old(a[..]), s.filter)))
    ensures SameTexts(old(a[..]), a[..])
    ensures ok ==> forall i | 0 <= i < a.Length :: a[i].covered <==> old(a[i].covered) || Covers(fn, s.filter, a[i].key)
  {
    if !s.usable {
      return false;
    }
    ghost var before := a[..];
    hide Selects, Covers;
    FilterFiles(fn, s.filter, a);
    assert SameTexts(before, a[..]);
    var payload := GetJsonFiles(a);
    PrintedIsChosen(fn, before, a[..], s.filter);
    ok := check(s, payload);
  }

  lemma CoveredMore(fn: Fnmatch, parse: Parse, pairs: seq<Pair>, k: nat, key: string)
    requires k < |pairs|
    ensures CoveredUpTo(fn, parse, pairs, k + 1, key)
      <==> CoveredUpTo(fn, parse, pairs, k, key) || CoveredBy(fn, parse, pairs, k, key)
  {
    hide CoveredBy;
  }

  lemma PayloadByText(fn: Fnmatch, a: seq<Pair>, b: seq<Pair>, f: Filter)
    requires SameTexts(a, b)
    ensures Payload(fn, a, f) == Payload(fn, b, f)
  {
    ChosenByText(fn, a, b, f);
  }

  /** One pair of the loop in pv_signature_verify_pairs. */
  method VerifyPair(fn: Fnmatch, parse: Parse, check: Check, a: array<Pair>, k: nat, ghost before: seq<Pair>) returns (ok: bool)
    requires k < a.Length && SameTexts(before, a[..])
    modifies a
    ensures SameTexts(before, a[..]) && ok == Good(fn, parse, check, before, k)
    ensures ok ==> forall i | 0 <= i < a.Length ::
      (a[i].covered <==> old(a[i].covered) || CoveredBy(fn, parse, before, k, a[i].key))
  {
    assert SameText(before[k], a[k]);
    hide Covers, Payload;
    var s := parse(a[k].value);
    if s.None? {
      return true;
    }
    PayloadByText(fn, before, a[..], s.value.filter);
    ok := VerifyPvs(fn, check, s.value, a);
  }

  /** pv_signature_verify_pairs */
  method VerifyPairs(fn: Fnmatch, parse: Parse, check: Check, a: array<Pair>) returns (ok: bool)
    requires forall i | 0 <= i < a.Length :: !a[i].covered
    modifies a
    ensures SameTexts(old(a[..]), a[..])
    ensures ok <==> forall k | 0 <= k < a.Length :: Good(fn, parse, check, old(a[..]), k)
    ensures ok ==> forall i | 0 <= i < a.Length :: a[i].covered <==> CoveredUpTo(fn, parse, old(a[..]), a.Length, a[i].key)
  {
    hide Good, CoveredBy, CoveredUpTo;
    ghost var before := a[..];
    ok := true;
    var k := 0;
    NothingCovered(fn, parse, before);
    while k < a.Length
      invariant 0 <= k <= a.Length && SameTexts(before, a[..])
      invariant forall j | 0 <= j < k :: Good(fn, parse, check, before, j)
      invariant forall i | 0 <= i < a.Length :: a[i].covered <==> CoveredUpTo(fn, parse, before, k, a[i].key)
    {
      ghost var was := a[..];
      ok := VerifyPair(fn, parse, check, a, k, before);
      if !ok {
        return;
      }
      forall i | 0 <= i < a.Length
        ensures a[i].covered <==> CoveredUpTo(fn, parse, before, k + 1, a[i].key)
      {
        assert SameText(before[i], was[i]) && SameText(before[i], a[i]);
        CoveredMore(fn, parse, before, k, a[i].key);
      }
      k := k + 1;
    }
  }

  lemma NothingCovered(fn: Fnmatch, parse: Parse, pairs: seq<Pair>)
    ensures forall key :: !CoveredUpTo(fn, parse, pairs, 0, key)
  {
  }

  /** pv_signature_all_covered */
  method AllCovered(a: array<Pair>) returns (ok: bool)
    ensures ok <==> forall i | 0 <= i < a.Length && !InSigs(a[i].key) :: a[i].covered
    ensures ok <==> forall i | 0 <= i < a.Length && (|a[i].key| < 6 || a[i].key[..6] != "_sigs/") :: a[i].covered
  {
    ok := true;
    var i := 0;
    while i < a.Length
      invariant 0 <= i <= a.Length
      invariant ok <==> forall j | 0 <= j < i && !InSigs(a[j].key) :: a[j].covered
    {
      if !InSigs(a[i].key) && !a[i].covered {
        ok := false;
      }
      i := i + 1;
    }
  }

  /** pv_signature_verify, on freshly parsed pairs. */
  method Verify(fn: Fnmatch, parse: Parse, check: Check, mode: Mode, a: array<Pair>) returns (ok: bool)
    requires forall i | 0 <= i < a.Length :: !a[i].covered
    modifies a
    ensures ok <==> mode.Disabled? || Accepted(fn, parse, check, old(a[..]), mode.Strict?)
  {
    if mode.Disabled? {
      return true;
    }
    hide Good, CoveredUpTo;
    ghost var before := a[..];
    ok := VerifyPairs(fn, parse, check, a);
    assert forall i | 0 <= i < |before| :: SameText(before[i], a[i]);
    if ok && mode.Strict? {
      ok := AllCovered(a);
    }
  }

  lemma {:induction false} SelectedIsPrinted(fn: Fnmatch, pairs: seq<Pair>, f: Filter, i: nat)
    requires i < |pairs|
    ensures Selects(fn, f, pairs[i].key) ==> Print(pairs[i]) in Chosen(fn, pairs, f)
  {
    if i == |pairs| - 1 {
    } else {
      SelectedIsPrinted(fn, pairs[..|pairs| - 1], f, i);
    }
  }

  /** Entry k is a signature that selects pair i. */
  predicate Signs(fn: Fnmatch, parse: Parse, pairs: seq<Pair>, i: nat, k: nat)
    requires i < |pairs| && k < |pairs|
  {
    var s := parse(pairs[k].value);
    s.Some? && Selects(fn, s.value.filter, pairs[i].key)
  }

  /** Entry k is a signature with pair i among what it includes. */
  predicate Includes(fn: Fnmatch, parse: Parse, pairs: seq<Pair>, i: nat, k: nat)
    requires i < |pairs| && k < |pairs|
  {
    var s := parse(pairs[k].value);
    s.Some? && Matched(fn, s.value.filter.including, pairs[i].key)
  }

  predicate Excludes(fn: Fnmatch, parse: Parse, pairs: seq<Pair>, i: nat, k: nat)
    requires i < |pairs| && k < |pairs|
  {
    var s := parse(pairs[k].value);
    s.Some? && Matched(fn, s.value.filter.excluding, pairs[i].key)
  }

  /** The text of entry k, which its check accepts, holds pair i. */
  predicate SignedBy(fn: Fnmatch, parse: Parse, check: Check, pairs: seq<Pair>, i: nat, k: nat)
    requires i < |pairs| && k < |pairs|
  {
    var s := parse(pairs[k].value);
    && s.Some? && check(s.value, Payload(fn, pairs, s.value.filter))
    && Print(pairs[i]) in Chosen(fn, pairs, s.value.filter)
  }

  /** Pair i gets by unsigned: some signature excludes it, and every one that includes it excludes it too. */
  predicate Escapes(fn: Fnmatch, parse: Parse, pairs: seq<Pair>, i: nat)
    requires i < |pairs|
  {
    && (exists k | 0 <= k < |pairs| :: Excludes(fn, parse, pairs, i, k))
    && (forall k | 0 <= k < |pairs| && Includes(fn, parse, pairs, i, k) :: Excludes(fn, parse, pairs, i, k))
  }

  /** What strict mode gives for a pair outside _sigs: a signature selects it if and only if it does not escape,
      and then it stands in the text that this signature's check accepted. */
  lemma StrictMeans(fn: Fnmatch, parse: Parse, check: Check, pairs: seq<Pair>, i: nat)
    requires Accepted(fn, parse, check, pairs, true) && i < |pairs| && !InSigs(pairs[i].key)
    ensures (exists k | 0 <= k < |pairs| :: Signs(fn, parse, pairs, i, k)) <==> !Escapes(fn, parse, pairs, i)
    ensures forall k | 0 <= k < |pairs| && Signs(fn, parse, pairs, i, k) :: SignedBy(fn, parse, check, pairs, i, k)
  {
    forall k | 0 <= k < |pairs| && Signs(fn, parse, pairs, i, k)
      ensures SignedBy(fn, parse, check, pairs, i, k)
    {
      assert Good(fn, parse, check, pairs, k);
      SelectedIsPrinted(fn, pairs, parse(pairs[k].value).value.filter, i);
    }
    assert CoveredUpTo(fn, parse, pairs, |pairs|, pairs[i].key);
    var k :| 0 <= k < |pairs| && CoveredBy(fn, parse, pairs, k, pairs[i].key);
    hide Matched, Chosen, Payload, Good;
    SignsIs(fn, parse, pairs, i);
    hide Signs;
    assert Includes(fn, parse, pairs, i, k) || Excludes(fn, parse, pairs, i, k);
  }

  lemma SignsIs(fn: Fnmatch, parse: Parse, pairs: seq<Pair>, i: nat)
    requires i < |pairs|
    ensures forall k | 0 <= k < |pairs| ::
      Signs(fn, parse, pairs, i, k) <==> Includes(fn, parse, pairs, i, k) && !Excludes(fn, parse, pairs, i, k)
  {
    hide Matched;
  }

  /** Strict mode does accept such a pair: the configuration of an app, a signature of nothing that excludes the
      app's folder, and no other. */
  lemma UnsignedIsAccepted(fn: Fnmatch, check: Check, s: Sig) returns (parse: Parse, pairs: seq<Pair>)
    requires s.usable && s.filter == Filter(None, Some(["app/**"])) && check(s, "{}")
    requires fn("app", "app/run.json", true)
    ensures pairs == [Pair("app/run.json", "{}", false, false), Pair("_sigs/app.json", "sig", false, false)]
    ensures parse == ((v: string) => if v == "sig" then Some(s) else None)
    ensures Accepted(fn, parse, check, pairs, true) && Escapes(fn, parse, pairs, 0)
    ensures forall k | 0 <= k < |pairs| :: !Signs(fn, parse, pairs, 0, k)
  {
    pairs := [Pair("app/run.json", "{}", false, false), Pair("_sigs/app.json", "sig", false, false)];
    parse := (v: string) => if v == "sig" then Some(s) else None;
    ExampleGlob();
    assert Match(fn, "app/**", "app/run.json");
    assert Matched(fn, s.filter.excluding, "app/run.json") by { assert ["app/**"][0] == "app/**"; }
    hide Glob, Match, MatchesAny;
    assert pairs[..1][..0] == [] && pairs[..1] == [pairs[0]] && pairs[..2] == pairs;
    assert Chosen(fn, pairs[..1], s.filter) == [];
    assert Chosen(fn, pairs, s.filter) == [];
    assert Payload(fn, pairs, s.filter) == "{}" by { assert "{" + "" + "}" == "{}"; }
    assert CoveredBy(fn, parse, pairs, 1, pairs[0].key) && Excludes(fn, parse, pairs, 0, 1);
    assert InSigs(pairs[1].key);
  }

  lemma ExampleGlob()
    ensures Glob("app/**") == ("app", true)
  {
    assert "app/**"[3..] == "/**" && "app/**"[..3] == "app" && "app/**"[0] != "**"[0];
    assert Dirname("app") == "app";
  }
}
