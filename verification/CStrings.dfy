/** Zero-terminated strings inside character buffers, and what the C library does with them. */
module CStrings {
  const NUL: char := '\0'

  predicate FreeOf(s: string, c: char) { forall k | 0 <= k < |s| :: s[k] != c }

  predicate Free(s: string) { FreeOf(s, NUL) }

  /** How many characters stand before the first NUL. */
  function Len(s: string): (n: nat)
    ensures n <= |s| && (n < |s| ==> s[n] == NUL) && Free(s[..n])
  {
    if s == "" || s[0] == NUL then 0 else 1 + Len(s[1..])
  }

  lemma {:induction false} LenAt(s: string, t: string)
    requires Free(s)
    ensures Len(s + [NUL] + t) == |s|
  {
    if s == "" {
    } else {
      LenAt(s[1..], t);
      assert (s + [NUL] + t)[1..] == s[1..] + [NUL] + t;
    }
  }

  /** The length is fixed by where the first NUL is. */
  lemma {:induction false} LenIs(s: string, n: nat)
    requires n < |s| && s[n] == NUL && Free(s[..n])
    ensures Len(s) == n
  {
    assert s == s[..n] + [NUL] + s[n + 1..];
    LenAt(s[..n], s[n + 1..]);
  }

  /** strlen, from an offset, of a string that ends before some bound. */
  method StrLen(buf: array<char>, off: nat, ghost end: nat) returns (n: nat)
    requires off <= end <= buf.Length && Len(buf[off..end]) < end - off
    ensures n == Len(buf[off..end])
  {
    n := 0;
    ghost var s := buf[off..end];
    while buf[off + n] != NUL
      invariant n <= Len(s) && off + n < end && Free(s[..n])
      decreases end - n
    {
      assert s[n] == buf[off + n];
      n := n + 1;
    }
    assert s[n] == NUL;
    LenIs(s, n);
  }

  /** memcpy between buffers. */
  method CopyRange(src: array<char>, s: nat, dst: array<char>, d: nat, n: nat)
    requires src != dst && s + n <= src.Length && d + n <= dst.Length
    modifies dst
    ensures forall k | 0 <= k < dst.Length :: dst[k] == if d <= k < d + n then src[s + (k - d)] else old(dst[k])
  {
    forall k | 0 <= k < n {
      dst[d + k] := src[s + k];
    }
  }

  /** memcpy of a text into a buffer. */
  method Copy(dst: array<char>, off: nat, src: string, n: nat)
    requires n <= |src| && off + n <= dst.Length
    modifies dst
    ensures dst[..off + n] == old(dst[..off]) + src[..n]
    ensures forall k | off + n <= k < dst.Length :: dst[k] == old(dst[k])
  {
    for k := 0 to n
      invariant dst[..off + k] == old(dst[..off]) + src[..k]
      invariant forall q | off + n <= q < dst.Length :: dst[q] == old(dst[q])
    {
      dst[off + k] := src[k];
    }
  }

  /** Texts separated by commas. */
  function Commas(parts: seq<string>): string {
    if parts == [] then "" else if |parts| == 1 then parts[0]
    else Commas(parts[..|parts| - 1]) + "," + parts[|parts| - 1]
  }
}
