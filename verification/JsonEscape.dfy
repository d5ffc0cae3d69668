/**
 utils/json.c: escaping a buffer for use between the quotes of a JSON string, and a decoder for the
 string grammar of section 7 of RFC 7159 that undoes it. Bytes are characters below 256.
 */
module JsonEscape {
  import opened CStrings
  import opened Wrappers

  predicate Bytes(s: string) { forall k | 0 <= k < |s| :: s[k] < '\U{100}' }

  /** char_is_json_special; a byte of 0x80 or more is negative as a C char and so never special. */
  predicate Special(c: char) { c <= '\U{1F}' || c == '\\' || c == '\"' }

  /** nibble_to_hexchar */
  function HexChar(n: nat): (c: char)
    requires n < 16
    ensures HexValue(c) == Some(n) && ('0' <= c <= '9' || 'A' <= c <= 'F')
  {
    if n <= 9 then '0' + n as char else 'A' + (n - 10) as char
  }

  function HexValue(c: char): Option<nat> {
    if '0' <= c <= '9' then Some((c - '0') as nat)
    else if 'A' <= c <= 'F' then Some((c - 'A') as nat + 10)
    else if 'a' <= c <= 'f' then Some((c - 'a') as nat + 10)
    else None
  }

  function EscapeChar(c: char): (e: string)
    requires c < '\U{100}'
    ensures |e| == if Special(c) then 6 else 1
  {
    if Special(c) then ['\\', 'u', '0', '0', HexChar(c as nat / 16), HexChar(c as nat % 16)] else [c]
  }

  function Escape(s: string): (r: string)
    requires Bytes(s)
  {
    if s == [] then [] else EscapeChar(s[0]) + Escape(s[1..])
  }

  // ---- the decoder of section 7

  /** The character after a reverse solidus, other than u. */
  function Simple(c: char): Option<nat> {
    match c
    case '\"' => Some(0x22)
    case '\\' => Some(0x5C)
    case '/' => Some(0x2F)
    case 'b' => Some(0x08)
    case 'f' => Some(0x0C)
    case 'n' => Some(0x0A)
    case 'r' => Some(0x0D)
    case 't' => Some(0x09)
    case _ => None
  }

  function Hex4(s: string): Option<nat>
    requires |s| >= 4
  {
    var a, b, c, d := HexValue(s[0]), HexValue(s[1]), HexValue(s[2]), HexValue(s[3]);
    if a.Some? && b.Some? && c.Some? && d.Some? then
      Some(a.value * 4096 + b.value * 256 + c.value * 16 + d.value)
    else None
  }

  function Prepend(v: Option<nat>, rest: Option<seq<nat>>): Option<seq<nat>> {
    if v.Some? && rest.Some? then Some([v.value] + rest.value) else None
  }

  /** The code units that the inside of a JSON string stands for, if it is one. */
  function Decode(s: string): Option<seq<nat>> {
    if s == [] then Some([])
    else if s[0] == '\\' then
      if |s| >= 6 && s[1] == 'u' then Prepend(Hex4(s[2..6]), Decode(s[6..]))
      else if |s| >= 2 then Prepend(Simple(s[1]), Decode(s[2..]))
      else None
    else if s[0] < ' ' || s[0] == '\"' then None
    else Prepend(Some(s[0] as nat), Decode(s[1..]))
  }

  function Codes(s: string): seq<nat> { seq(|s|, k requires 0 <= k < |s| => s[k] as nat) }

  // ---- properties

  lemma DecodeOne(c: char, rest: string)
    requires c < '\U{100}'
    ensures Decode(EscapeChar(c) + rest) == Prepend(Some(c as nat), Decode(rest))
  {
    var e := EscapeChar(c) + rest;
    if Special(c) {
      assert e[6..] == rest;
      assert e[2..6] == ['0', '0', HexChar(c as nat / 16), HexChar(c as nat % 16)];
    } else {
      assert e[1..] == rest;
    }
  }

  /** What was escaped is read back. */
  lemma {:induction false} RoundTrip(s: string)
    requires Bytes(s)
    ensures Decode(Escape(s)) == Some(Codes(s))
  {
    if s == [] {
    } else {
      RoundTrip(s[1..]);
      DecodeOne(s[0], Escape(s[1..]));
      assert Codes(s) == [s[0] as nat] + Codes(s[1..]);
    }
  }

  lemma Injective(s: string, t: string)
    requires Bytes(s) && Bytes(t) && Escape(s) == Escape(t)
    ensures s == t
  {
    RoundTrip(s);
    RoundTrip(t);
    assert |s| == |Codes(s)| == |Codes(t)| == |t|;
    forall k | 0 <= k < |s|
      ensures s[k] == t[k]
    {
      assert Codes(s)[k] == Codes(t)[k];
    }
  }

  /** Safe between quotes wherever it is looked at: no quote and no control character, and a reverse
      solidus only where six characters of an escape begin. */
  predicate Clean(e: string) {
    forall k | 0 <= k < |e| :: ' ' <= e[k] != '\"' && (e[k] == '\\' ==> EscapeAt(e, k))
  }

  predicate EscapeAt(e: string, k: nat) {
    k + 6 <= |e| && e[k] == '\\' && e[k + 1] == 'u' && forall d | k + 2 <= d < k + 6 :: HexValue(e[d]).Some?
  }

  lemma CleanJoin(a: string, b: string)
    requires Clean(a) && Clean(b)
    ensures Clean(a + b)
  {
    var e := a + b;
    forall k | 0 <= k < |e|
      ensures ' ' <= e[k] != '\"' && (e[k] == '\\' ==> EscapeAt(e, k))
    {
      if k < |a| {
        assert a[k] == e[k];
      } else {
        assert b[k - |a|] == e[k];
        assert e[k] == '\\' ==> EscapeAt(b, k - |a|);
      }
    }
  }

  lemma CleanOne(c: char)
    requires c < '\U{100}'
    ensures Clean(EscapeChar(c))
  {
    var e := EscapeChar(c);
    if Special(c) {
      assert EscapeAt(e, 0);
      forall k | 0 < k < 6
        ensures ' ' <= e[k] != '\"' && e[k] != '\\'
      {
        assert k == 1 || k == 2 || k == 3 || HexValue(e[k]).Some?;
      }
    }
  }

  lemma {:induction false} EscapedIsClean(s: string)
    requires Bytes(s)
    ensures Clean(Escape(s))
  {
    if s == [] {
    } else {
      EscapedIsClean(s[1..]);
      CleanOne(s[0]);
      CleanJoin(EscapeChar(s[0]), Escape(s[1..]));
    }
  }

  function Specials(s: string): nat { if s == [] then 0 else (if Special(s[0]) then 1 else 0) + Specials(s[1..]) }

  /** Nothing more is escaped than a control character, a reverse solidus and a quote. */
  lemma EscapedIsMinimal(c: char)
    requires c < '\U{100}'
    ensures Escape([c]) == [c] <==> ' ' <= c && c != '\\' && c != '\"'
    ensures Escape([c]) != [c] ==>
      |Escape([c])| == 6 && Escape([c])[..4] == "\\u00" && Hex4(Escape([c])[2..6]) == Some(c as nat)
  {
    assert Escape([c]) == EscapeChar(c) + Escape([]) == EscapeChar(c);
    if Special(c) {
      var e := EscapeChar(c);
      assert e[2..6] == ['0', '0', HexChar(c as nat / 16), HexChar(c as nat % 16)];
    }
  }

  /** The worst case that the source makes room for is the right one. */
  lemma {:induction false} ExactLength(s: string)
    requires Bytes(s)
    ensures |Escape(s)| == |s| + 5 * Specials(s) <= 6 * |s|
  {
    if s == [] {
    } else {
      ExactLength(s[1..]);
    }
  }

  lemma {:induction false} EscapeJoin(s: string, t: string)
    requires Bytes(s) && Bytes(t) && Bytes(s + t)
    ensures Escape(s + t) == Escape(s) + Escape(t)
  {
    if s == [] {
      assert s + t == t;
    } else {
      EscapeJoin(s[1..], t);
      assert (s + t)[1..] == s[1..] + t;
      assert EscapeChar(s[0]) + (Escape(s[1..]) + Escape(t)) == Escape(s) + Escape(t);
    }
  }

  lemma EscapeSnoc(s: string, i: nat)
    requires Bytes(s) && i < |s|
    ensures Escape(s[..i + 1]) == Escape(s[..i]) + EscapeChar(s[i])
  {
    assert s[..i + 1] == s[..i] + [s[i]];
    EscapeJoin(s[..i], [s[i]]);
    assert Escape([s[i]]) == EscapeChar(s[i]) + Escape([]);
  }

  lemma EscapeNothing()
    ensures Escape("") == ""
  {
  }

  // ---- the code

  /** modify_to_json */
  method ModifyToJson(dst: array<char>, off: nat, ch: char) returns (end: nat)
    requires ch < '\U{100}' && Special(ch) && off + 6 <= dst.Length
    modifies dst
    ensures end == off + 6
    ensures dst[..end] == old(dst[..off]) + EscapeChar(ch)
    ensures forall k | end <= k < dst.Length :: dst[k] == old(dst[k])
  {
    end := off;
    dst[end], end := '\\', end + 1;
    dst[end], end := 'u', end + 1;
    dst[end], end := '0', end + 1;
    dst[end], end := '0', end + 1;
    dst[end], end := HexChar(ch as nat / 16), end + 1;
    dst[end], end := HexChar(ch as nat % 16), end + 1;
  }

  /** pv_json_format: nothing for an empty buffer. */
  method Format(buf: string, len: int) returns (json: Option<string>)
    requires len <= |buf| && Bytes(buf)
    ensures json == if len <= 0 then None else Some(Escape(buf[..len]))
  {
    if len <= 0 {
      return None;
    }
    hide Escape, Clean, HexChar;
    EscapeNothing();
    var dst := new char[len * 6 + 1](_ => '\0');
    var idx, off := 0, 0;
    while len > idx
      invariant 0 <= idx <= len && off <= 6 * idx
      invariant dst[..off] == Escape(buf[..idx])
      invariant forall k | off <= k < dst.Length :: dst[k] == '\0'
    {
      EscapeSnoc(buf, idx);
      if Special(buf[idx]) {
        off := ModifyToJson(dst, off, buf[idx]);
      } else {
        dst[off], off := buf[idx], off + 1;
      }
      idx := idx + 1;
    }
    EscapedIsClean(buf[..len]);
    json := DupText(dst, off, Escape(buf[..len]));
  }

  /** strdup of the text at the start of a buffer. */
  method DupText(dst: array<char>, off: nat, ghost t: string) returns (json: Option<string>)
    requires off < dst.Length && dst[off] == NUL && dst[..off] == t && Free(t)
    ensures json == Some(t)
  {
    LenIs(dst[0..dst.Length], off) by { assert dst[0..dst.Length][..off] == dst[..off]; }
    var n := StrLen(dst, 0, dst.Length);
    json := Some(dst[..n]);
  }
}
