/**
 The framing of log messages (ph_logger/ph_logger_v1.c) and the loop of pvlogger.c that cuts a long
 line into frames. The encoder takes the running total off the space left each time, so it leaves
 more room unused than it needs to; how much decides whether a long line arrives.
 */
module LogFrame {
  import opened CStrings
  import opened Decimal
  import opened Wrappers

  datatype Message = Message(level: int, platform: string, source: string, data: string)

  /** Some terminator is there; First stands before it and Rest after it. */
  predicate Ended(m: string) { Len(m) < |m| }

  function First(m: string): string { m[..Len(m)] }

  function Rest(m: string): string { if Ended(m) then m[Len(m) + 1..] else "" }

  /** What a frame says, when it holds its three terminators. */
  function Parse(m: string): Option<Message> {
    if !Ended(m) || !Ended(Rest(m)) || !Ended(Rest(Rest(m))) then None
    else Some(Message(Atoi(First(m)), First(Rest(m)), First(Rest(Rest(m))), Rest(Rest(Rest(m)))))
  }

  function LevelField(level: int): string { Text(level) + [NUL] }

  function Field(s: string): string { s + [NUL] }

  function Head(level: int, platform: string, source: string): string {
    LevelField(level) + Field(platform) + Field(source)
  }

  /** The layout on the wire: level, platform, source, each with its terminator, and the data. */
  lemma HeadIs(level: int, platform: string, source: string, data: string)
    ensures Head(level, platform, source) + data == Text(level) + [NUL] + platform + [NUL] + source + [NUL] + data
    ensures |LevelField(level)| == |Text(level)| + 1 && |Field(platform)| == |platform| + 1 && |Field(source)| == |source| + 1
  {
    hide Text;
  }

  /** The room that the encoder sees for data in a buffer of len bytes. */
  function Room(len: int, level: int, platform: string, source: string): int {
    len - 3 * |LevelField(level)| - 2 * |Field(platform)| - |Field(source)|
  }

  lemma LevelIsFree(level: int)
    ensures Free(Text(level))
  {
  }

  lemma Nul(a: string, t: string)
    requires Free(a)
    ensures var m := Field(a) + t; Ended(m) && First(m) == a && Rest(m) == t
  {
    LenAt(a, t);
  }

  /** Decoding undoes encoding. */
  lemma RoundTrip(level: int, platform: string, source: string, data: string)
    requires Free(platform) && Free(source)
    ensures Parse(Head(level, platform, source) + data) == Some(Message(level, platform, source, data))
  {
    LevelIsFree(level);
    var m2 := Field(source) + data;
    var m1 := Field(platform) + m2;
    assert Head(level, platform, source) + data == Field(Text(level)) + m1;
    Nul(source, data);
    Nul(platform, m2);
    Nul(Text(level), m1);
    Decimal.RoundTrip(level, "");
    assert Text(level) + "" == Text(level);
    hide Ended, First, Rest, Text, Atoi;
  }

  /** Where snprintf ends when it prints n characters at off: a size below zero is no limit to it. */
  function PrintEnd(off: nat, avail: int, n: nat): nat {
    if 0 <= avail <= n then off + avail else off + n + 1
  }

  /** snprintf(dst + off, avail, "%s", s) */
  method Print(dst: array<char>, off: nat, avail: nat, s: string) returns (written: nat)
    requires off + avail <= dst.Length
    modifies dst
    ensures written == |s|
    ensures avail > 0 ==> var n := if |s| < avail then |s| else avail - 1;
      dst[off..off + n] == s[..n] && dst[off + n] == NUL
    ensures forall k | 0 <= k < off || off + avail <= k < dst.Length :: dst[k] == old(dst[k])
    ensures forall k | PrintEnd(off, avail, |s|) <= k < dst.Length :: dst[k] == old(dst[k])
    ensures avail > 0 ==> off < PrintEnd(off, avail, |s|) <= dst.Length && dst[PrintEnd(off, avail, |s|) - 1] == NUL
  {
    if avail > 0 {
      var n := if |s| < avail then |s| else avail - 1;
      for k := 0 to n
        invariant dst[off..off + k] == s[..k]
        invariant forall q | 0 <= q < off || off + k <= q < dst.Length :: dst[q] == old(dst[q])
      {
        dst[off + k] := s[k];
      }
      dst[off + n] := NUL;
    }
    written := |s|;
  }

  predicate Terminated(s: string) { s != "" && s[|s| - 1] == NUL }

  /** The buffer begins with the text. */
  ghost predicate Shows(dst: array<char>, text: string)
    reads dst
  {
    |text| <= dst.Length && dst[..|text|] == text
  }

  /** A field that fits: it and everything before it stand in the buffer. */
  method PrintField(dst: array<char>, off: nat, avail: nat, s: string, ghost before: string) returns (written: nat)
    requires Terminated(s) && |s| <= avail && off + avail <= dst.Length
    requires off == |before| && Shows(dst, before)
    modifies dst
    ensures written == |s| && Shows(dst, before + s)
    ensures forall k | off + avail <= k < dst.Length :: dst[k] == old(dst[k])
  {
    written := Print(dst, off, avail, s);
    assert dst[..off] == old(dst[..off]);
    if |s| < avail {
      assert s[..|s|] == s;
      assert dst[..off + |s|] == dst[..off] + dst[off..off + |s|];
    } else {
      assert dst[..off + |s|] == dst[..off] + dst[off..off + |s| - 1] + [dst[off + |s| - 1]];
      assert s == s[..|s| - 1] + [NUL];
    }
  }

  /** One strlen and the step over its terminator. */
  method TakeField(buf: array<char>, at: nat, ghost end: nat) returns (s: string, next: nat)
    requires at <= end <= buf.Length && Ended(buf[at..end])
    ensures next <= end && s == First(buf[at..end]) && buf[next..end] == Rest(buf[at..end])
  {
    var k := StrLen(buf, at, end);
    s := buf[at..at + k];
    next := at + k + 1;
    assert buf[at..end][..k] == s;
    assert buf[at..end][k + 1..] == buf[next..end];
  }

  /** All four writes of the encoder end inside len: three fields, each printed into what the running
      subtraction leaves, and a copy whose size is not below zero. */
  predicate StaysInside(len: nat, level: int, platform: string, source: string, dataLen: nat) {
    var a, b, c := |LevelField(level)|, |Field(platform)|, |Field(source)|;
    var avail1 := len - a;
    var avail2 := avail1 - (a + b);
    var avail3 := avail2 - (a + b + c);
    var copied := if dataLen <= avail3 then dataLen else avail3;
    && PrintEnd(0, len, a) <= len && PrintEnd(a, avail1, b) <= len && PrintEnd(a + b, avail2, c) <= len
    && 0 <= copied && a + b + c + copied <= len
  }

  /** Whatever the data, the encoder stays inside the given length exactly when the room is not below zero. */
  lemma InsideExactly(len: nat, level: int, platform: string, source: string, dataLen: nat)
    ensures StaysInside(len, level, platform, source, dataLen) <==> Room(len, level, platform, source) >= 0
  {
    hide Text;
  }

  /** struct ph_logger_msg */
  class Msg {
    var len: int
    const buffer: array<char>

    constructor (capacity: nat)
      ensures len == buffer.Length == capacity && fresh(buffer)
    {
      len := capacity;
      buffer := new char[capacity](_ => NUL);
    }

    /** The three fields, and the space that is left by then. */
    method WriteHead(level: int, platform: string, source: string) returns (avail: int, written: nat)
      requires len <= buffer.Length && Room(len, level, platform, source) >= 0
      modifies buffer
      ensures avail == Room(len, level, platform, source) && written == |Head(level, platform, source)|
      ensures written + avail <= len && Shows(buffer, Head(level, platform, source))
      ensures forall k | len <= k < buffer.Length :: buffer[k] == old(buffer[k])
    {
      var a, b, c := LevelField(level), Field(platform), Field(source);
      assert Terminated(a) && Terminated(b) && Terminated(c);
      assert Room(len, level, platform, source) == len - 3 * |a| - 2 * |b| - |c| && Head(level, platform, source) == a + b + c;
      avail, written := len, 0;
      assert Shows(buffer, "");
      assert ("" + a) + b + c == a + b + c;
      hide Text, LevelField, Field, Room, Head, Terminated, Shows;
      var w := PrintField(buffer, written, avail, a, "");
      written := written + w;
      avail := avail - written;
      w := PrintField(buffer, written, avail, b, "" + a);
      written := written + w;
      avail := avail - written;
      w := PrintField(buffer, written, avail, c, "" + a + b);
      written := written + w;
      avail := avail - written;
    }

    /** ph_logger_write_handler_v1, for fields that fit: space below zero would let the C code write
        without a bound. */
    method Write(level: int, platform: string, source: string, data: string, dataLen: nat) returns (copied: nat)
      requires Free(platform) && Free(source) && dataLen <= |data|
      requires len <= buffer.Length && Room(len, level, platform, source) >= 0
      modifies this`len, buffer
      ensures copied == var room := old(Room(len, level, platform, source)); if dataLen <= room then dataLen else room
      ensures len == |Head(level, platform, source)| + copied <= old(len)
      ensures buffer[..len] == Head(level, platform, source) + data[..copied]
      ensures buffer[..len] == Text(level) + [NUL] + platform + [NUL] + source + [NUL] + data[..copied]
      ensures var room := old(len) - 3 * (|Text(level)| + 1) - 2 * (|platform| + 1) - (|source| + 1);
        copied == if dataLen <= room then dataLen else room
      ensures forall k | old(len) <= k < buffer.Length :: buffer[k] == old(buffer[k])
    {
      var avail, written := WriteHead(level, platform, source);
      HeadIs(level, platform, source, data[..if dataLen <= avail then dataLen else avail]);
      copied := if dataLen <= avail then dataLen else avail;
      Copy(buffer, written, data, copied);
      len := written + copied;
    }

    /** ph_logger_read_handler_v1, for a frame with its three terminators. */
    method Read() returns (level: int, platform: string, source: string, data: string)
      requires 0 <= len <= buffer.Length && Parse(buffer[..len]).Some?
      modifies this`len
      ensures Parse(old(buffer[..len])) == Some(Message(level, platform, source, data))
      ensures len == |data|
    {
      hide Ended, First, Rest, Atoi;
      ghost var m := buffer[..len];
      assert m == buffer[0..len];
      var text, at := TakeField(buffer, 0, len);
      level := Atoi(text);
      platform, at := TakeField(buffer, at, len);
      source, at := TakeField(buffer, at, len);
      len := len - at;
      data := buffer[at..at + len];
    }
  }

  // ---- one line, in as many frames as it takes

  function DataOf(frame: string): string { if Parse(frame).Some? then Parse(frame).value.data else "" }

  /** What a reader of the frames puts together. */
  function Payload(sent: seq<string>): string {
    if sent == [] then "" else Payload(sent[..|sent| - 1]) + DataOf(sent[|sent| - 1])
  }

  predicate From(frame: string, level: int, platform: string, source: string) {
    Parse(frame) == Some(Message(level, platform, source, DataOf(frame)))
  }

  lemma OneMoreFrame(sent: seq<string>, level: int, platform: string, source: string, data: string)
    requires Free(platform) && Free(source)
    ensures var f := Head(level, platform, source) + data;
      From(f, level, platform, source) && Payload(sent + [f]) == Payload(sent) + data
  {
    RoundTrip(level, platform, source, data);
    var f := Head(level, platform, source) + data;
    hide Parse, Head;
    assert (sent + [f])[..|sent|] == sent;
  }

  /** The chunking loop of pv_log: the whole line with its terminator arrives, or nothing of it does,
      and the reader's side decides which by the room that the encoder sees. */
  method SendLine(msg: Msg, level: int, platform: string, source: string, text: string) returns (sent: seq<string>)
    requires Free(platform) && Free(source)
    requires Room(msg.buffer.Length, level, platform, source) >= 0
    modifies msg, msg.buffer
    ensures forall k | 0 <= k < |sent| :: From(sent[k], level, platform, source)
    ensures Payload(sent) == if Room(msg.buffer.Length, level, platform, source) > 0 then Field(text) else ""
    ensures Payload(sent) == Field(text) <==> Room(msg.buffer.Length, level, platform, source) > 0
  {
    hide Head, Parse, Payload, Text, From;
    ghost var room := Room(msg.buffer.Length, level, platform, source);
    var line := Field(text);
    var offset, toWrite := 0, |line|;
    sent := [];
    PayloadOfNothing();
    while toWrite > 0
      invariant 0 <= offset <= |line| && toWrite == |line| - offset && (room == 0 ==> offset == 0)
      invariant forall k | 0 <= k < |sent| :: From(sent[k], level, platform, source)
      invariant Payload(sent) == line[..offset]
      decreases toWrite
    {
      msg.len := msg.buffer.Length;
      var written := msg.Write(level, platform, source, line[offset..], toWrite);
      OneMoreFrame(sent, level, platform, source, line[offset..][..written]);
      assert line[..offset] + line[offset..][..written] == line[..offset + written];
      sent := sent + [msg.buffer[..msg.len]];
      offset := offset + written;
      toWrite := toWrite - written;
      if written == 0 {
        break;
      }
    }
    assert room > 0 ==> line[..offset] == line;
  }

  lemma PayloadOfNothing()
    ensures Payload([]) == ""
  {
  }
}
