/** Intel-HEX records: printing, parsing line by line, and splitting into shorter lines. */
module Hexfile {
  import opened Basics

  // ---------- hexadecimal text ----------

  function HexDigit(d: int): char
    requires 0 <= d < 16
  {
    if d < 10 then '0' + d as char else 'A' + (d - 10) as char
  }

  /** The value of a hexadecimal digit of either case, or -1. */
  function HexValue(c: char): (v: int)
    ensures -1 <= v < 16
  {
    if '0' <= c <= '9' then c as int - '0' as int
    else if 'A' <= c <= 'F' then c as int - 'A' as int + 10
    else if 'a' <= c <= 'f' then c as int - 'a' as int + 10
    else -1
  }

  function Hex2(b: Byte): (s: string)
    ensures |s| == 2
  {
    [HexDigit(b / 16), HexDigit(b % 16)]
  }

  function Hex4(w: Word): (s: string)
    ensures |s| == 4
  {
    Hex2(w / 256) + Hex2(w % 256)
  }

  /** The byte printed at position `p`, or -1. */
  function ByteAt(s: string, p: nat): (v: int)
    ensures -1 <= v < 256
  {
    if p + 1 >= |s| || HexValue(s[p]) < 0 || HexValue(s[p + 1]) < 0 then -1
    else 16 * HexValue(s[p]) + HexValue(s[p + 1])
  }

  lemma {:induction false} HexDigitRoundTrip(d: int)
    requires 0 <= d < 16
    ensures HexValue(HexDigit(d)) == d
  {
  }

  lemma {:induction false} Hex2RoundTrip(pre: string, b: Byte, post: string)
    ensures ByteAt(pre + Hex2(b) + post, |pre|) == b
  {
    var s := pre + Hex2(b) + post;
    HexDigitRoundTrip(b / 16);
    HexDigitRoundTrip(b % 16);
    assert s[|pre|] == HexDigit(b / 16) && s[|pre| + 1] == HexDigit(b % 16);
  }

  // ---------- records ----------

  const TT_DATA := 0
  const TT_EOF := 1
  const TT_EXT_SEG := 2
  const TT_START_SEG := 3
  const TT_EXT_LIN := 4
  const TT_START_LIN := 5

  /** A record in memory, its checksum byte included. */
  datatype Record = Record(offset: Word, tt: Byte, data: seq<Byte>, chksum: Byte)

  function Sum(bytes: seq<Byte>): nat {
    if bytes == [] then 0 else Sum(bytes[..|bytes| - 1]) + bytes[|bytes| - 1]
  }

  /** hexline_checksum: the sum of all bytes of the record, modulo 256. */
  function Checksum(r: Record): Byte {
    (|r.data| + r.offset / 256 + r.offset % 256 + r.tt + Sum(r.data) + r.chksum) % 256
  }

  /** The checksum byte that dump_hexline computes for a record. */
  function NewChecksum(r: Record): Byte {
    (0xFF - Checksum(r.(chksum := 0)) + 1) % 256
  }

  function Fixed(r: Record): Record {
    r.(chksum := NewChecksum(r))
  }

  lemma {:induction false} FixedSumsToZero(r: Record)
    ensures Checksum(Fixed(r)) == 0
    ensures Checksum(r) == 0 ==> Fixed(r) == r
  {
  }

  /** The lengths and offsets that the parser allows for each record type. */
  predicate ShapeOk(tt: int, ll: int, offset: int) {
    || tt == TT_DATA
    || (tt == TT_EOF && ll == 0 && offset == 0)
    || (tt == TT_EXT_SEG && ll == 2 && offset == 0)
    || (tt == TT_START_SEG && ll == 4 && offset == 0)
    || (tt == TT_EXT_LIN && ll == 2 && offset == 0)
    || (tt == TT_START_LIN && ll == 4 && offset == 0)
  }

  predicate RecordOk(r: Record) {
    |r.data| < 256 && ShapeOk(r.tt, |r.data|, r.offset)
  }

  // ---------- printing ----------

  function HexBytes(data: seq<Byte>): (s: string)
    ensures |s| == 2 * |data|
  {
    if data == [] then "" else HexBytes(data[..|data| - 1]) + Hex2(data[|data| - 1])
  }

  /** The text of a record after the colon, without the line end, checksum recomputed. */
  function Body(r: Record): (s: string)
    requires |r.data| < 256
    ensures |s| == 10 + 2 * |r.data|
  {
    Hex2(|r.data|) + Hex4(r.offset) + Hex2(r.tt) + HexBytes(r.data) + Hex2(NewChecksum(r))
  }

  /** dump_hexline: the printed line. */
  function Line(r: Record): string
    requires |r.data| < 256
  {
    ":" + Body(r) + "\n"
  }

  // ---------- parsing one line ----------

  /** What append_hexline reports: -EINVAL, -ENOMEM, 0 for the end record, 1 for any other. */
  datatype Status = Einval | Enomem | AtEof | Appended

  datatype Header = BadHeader | Header(ll: Byte, offset: Word, tt: Byte)

  /** The exact-width header fields at the start of the text. */
  function ParseHeader(buf: string): Header {
    var ll, hi, lo, tt := ByteAt(buf, 0), ByteAt(buf, 2), ByteAt(buf, 4), ByteAt(buf, 6);
    if ll < 0 || hi < 0 || lo < 0 || tt < 0 then BadHeader else Header(ll, 256 * hi + lo, tt)
  }

  datatype Bytes = BadBytes | Bytes(data: seq<Byte>)

  /** The first `n` bytes printed from position `p` on. */
  function ParseBytes(buf: string, p: nat, n: nat): (r: Bytes)
    ensures r.Bytes? ==> |r.data| == n
  {
    if n == 0 then Bytes([])
    else
      var before := ParseBytes(buf, p, n - 1);
      var b := ByteAt(buf, p + 2 * (n - 1));
      if before.BadBytes? || b < 0 then BadBytes else Bytes(before.data + [b])
  }

  datatype Parsed = Bad | Good(record: Record)

  /** A whole record, its checksum verified. */
  function ParseRecord(buf: string): Parsed {
    var h := ParseHeader(buf);
    if h.BadHeader? || !ShapeOk(h.tt, h.ll, h.offset) then Bad
    else
      var b := ParseBytes(buf, 8, h.ll + 1);
      if b.BadBytes? then Bad
      else
        var r := Record(h.offset, h.tt, b.data[..h.ll], b.data[h.ll]);
        if Checksum(r) != 0 then Bad else Good(r)
  }

  lemma {:induction false} Regroup(pre: string, a: string, x: string, b: string, post: string)
    ensures pre + (a + x + b) + post == (pre + a) + x + (b + post)
  {
  }

  lemma {:induction false} ParseHexBytes(pre: string, data: seq<Byte>, post: string, n: nat)
    requires n <= |data|
    ensures ParseBytes(pre + HexBytes(data) + post, |pre|, n) == Bytes(data[..n])
  {
    hide Hex2, ByteAt, HexBytes;
    var s := pre + HexBytes(data) + post;
    if n > 0 {
      ParseHexBytes(pre, data, post, n - 1);
      HexBytesSplit(data, n);
      var before, after := pre + HexBytes(data[..n - 1]), HexBytes(data[n..]) + post;
      Regroup(pre, HexBytes(data[..n - 1]), Hex2(data[n - 1]), HexBytes(data[n..]), post);
      Hex2RoundTrip(before, data[n - 1], after);
      assert data[..n] == data[..n - 1] + [data[n - 1]];
    }
  }

  lemma {:induction false} HexBytesConcat(a: seq<Byte>, b: seq<Byte>)
    ensures HexBytes(a + b) == HexBytes(a) + HexBytes(b)
  {
    if b == [] {
      assert a + b == a;
    } else {
      assert (a + b)[..|a + b| - 1] == a + b[..|b| - 1];
      HexBytesConcat(a, b[..|b| - 1]);
    }
  }

  lemma {:induction false} HexBytesSplit(data: seq<Byte>, n: nat)
    requires 0 < n <= |data|
    ensures HexBytes(data) == HexBytes(data[..n - 1]) + Hex2(data[n - 1]) + HexBytes(data[n..])
  {
    hide Hex2;
    var a, b := data[..n], data[n..];
    assert data == a + b;
    HexBytesConcat(a, b);
    assert a[..n - 1] == data[..n - 1];
    assert HexBytes(a) == HexBytes(a[..n - 1]) + Hex2(a[n - 1]);
    hide HexBytes;
  }

  lemma {:induction false} ParsePrintedHeader(r: Record, post: string)
    requires |r.data| < 256
    ensures ParseHeader(Hex2(|r.data|) + Hex4(r.offset) + Hex2(r.tt) + post) == Header(|r.data|, r.offset, r.tt)
  {
    var a, b, c, d := Hex2(|r.data|), Hex2(r.offset / 256), Hex2(r.offset % 256), Hex2(r.tt);
    var s := a + Hex4(r.offset) + d + post;
    assert s == "" + a + (b + c + d + post);
    Hex2RoundTrip("", |r.data|, b + c + d + post);
    assert s == a + b + (c + d + post);
    Hex2RoundTrip(a, r.offset / 256, c + d + post);
    assert s == (a + b) + c + (d + post);
    Hex2RoundTrip(a + b, r.offset % 256, d + post);
    assert s == (a + b + c) + d + post;
    Hex2RoundTrip(a + b + c, r.tt, post);
  }

  /** Parsing what dump_hexline prints gives the record back, and its bytes sum to zero. */
  lemma {:induction false} PrintedParses(r: Record)
    requires RecordOk(r)
    ensures ParseRecord(Body(r)) == Good(Fixed(r)) && Checksum(Fixed(r)) == 0
  {
    BodyParses(r);
    FixedSumsToZero(r);
    hide Checksum, NewChecksum, Body, ParseHeader, ParseBytes;
    var all := r.data + [NewChecksum(r)];
    assert all[..|r.data|] == r.data && all[|r.data|] == NewChecksum(r);
  }

  /** The header fields and the bytes of a printed record, the check last. */
  lemma {:induction false} BodyParses(r: Record)
    requires |r.data| < 256
    ensures ParseHeader(Body(r)) == Header(|r.data|, r.offset, r.tt)
    ensures ParseBytes(Body(r), 8, |r.data| + 1) == Bytes(r.data + [NewChecksum(r)])
  {
    var head := Hex2(|r.data|) + Hex4(r.offset) + Hex2(r.tt);
    var all := r.data + [NewChecksum(r)];
    assert |head| == 8;
    hide NewChecksum, Hex2, Hex4, ParseHeader, ParseBytes;
    assert HexBytes(all) == HexBytes(r.data) + Hex2(NewChecksum(r)) by {
      assert all[..|all| - 1] == r.data;
    }
    hide HexBytes;
    assert Body(r) == head + HexBytes(all);
    ParsePrintedHeader(r, HexBytes(all));
    ParseHexBytes(head, all, "", |all|);
    assert head + HexBytes(all) + "" == Body(r) && all[..|all|] == all;
  }

  // ---------- splitting a record ----------

  /** A record cut into records of at most `w` bytes, checksums recomputed; an empty one vanishes. */
  function Split(r: Record, w: nat, done: nat): (p: seq<Record>)
    requires w > 0 && done <= |r.data|
    decreases |r.data| - done
  {
    if done == |r.data| then []
    else
      var n := if |r.data| - done >= w then w else |r.data| - done;
      [Fixed(Record((r.offset + done) % 65536, r.tt, r.data[done..done + n], 0))] + Split(r, w, done + n)
  }

  /** What a file says: data bytes at 16-bit addresses, and the base and start records between them. */
  datatype Event = Put(address: Word, value: Byte) | Control(tt: Byte, bytes: seq<Byte>)

  function Puts(offset: int, data: seq<Byte>): seq<Event>
    requires offset >= 0
    decreases |data|
  {
    if data == [] then [] else [Put(offset % 65536, data[0])] + Puts(offset + 1, data[1..])
  }

  function RecordEvents(r: Record): seq<Event> {
    if r.tt == TT_DATA then Puts(r.offset, r.data) else [Control(r.tt, r.data)]
  }

  function Events(recs: seq<Record>): seq<Event> {
    if recs == [] then [] else RecordEvents(recs[0]) + Events(recs[1..])
  }

  lemma {:induction false} PutsWrap(offset: int, data: seq<Byte>)
    requires offset >= 0
    ensures Puts(offset, data) == Puts(offset % 65536, data)
    decreases |data|
  {
    if data != [] {
      PutsWrap(offset + 1, data[1..]);
      PutsWrap(offset % 65536 + 1, data[1..]);
      assert (offset % 65536 + 1) % 65536 == (offset + 1) % 65536;
    }
  }

  lemma {:induction false} PutsConcat(offset: int, a: seq<Byte>, b: seq<Byte>)
    requires offset >= 0
    ensures Puts(offset, a + b) == Puts(offset, a) + Puts(offset + |a|, b)
    decreases |a|
  {
    if a == [] {
      assert a + b == b;
    } else {
      assert (a + b)[1..] == a[1..] + b;
      PutsConcat(offset + 1, a[1..], b);
    }
  }

  lemma {:induction false} NoPuts(offset: int)
    requires offset >= 0
    ensures Puts(offset, []) == []
  {
  }

  /** The pieces of a data record put the same bytes at the same addresses, in the same order. */
  lemma {:induction false} SplitKeepsEvents(r: Record, w: nat, done: nat)
    requires w > 0 && done <= |r.data| && r.tt == TT_DATA
    ensures Events(Split(r, w, done)) == Puts(r.offset + done, r.data[done..])
    decreases |r.data| - done
  {
    hide NewChecksum, Puts;
    if done < |r.data| {
      var n := if |r.data| - done >= w then w else |r.data| - done;
      var a, b := r.data[done..done + n], r.data[done + n..];
      var first := Fixed(Record((r.offset + done) % 65536, r.tt, a, 0));
      SplitKeepsEvents(r, w, done + n);
      PutsConcat(r.offset + done, a, b);
      PutsWrap(r.offset + done, a);
      assert Split(r, w, done) == [first] + Split(r, w, done + n);
      assert RecordEvents(first) == Puts((r.offset + done) % 65536, a);
      hide Split, RecordEvents;
      assert Events([first] + Split(r, w, done + n)) == RecordEvents(first) + Events(Split(r, w, done + n)) by {
        assert ([first] + Split(r, w, done + n))[1..] == Split(r, w, done + n);
      }
      assert r.data[done..] == a + b;
    } else {
      assert r.data[done..] == [];
      assert Puts(r.offset + done, []) == [] by {
        NoPuts(r.offset + done);
      }
    }
  }

  lemma {:induction false} EventsConcat(a: seq<Record>, b: seq<Record>)
    ensures Events(a + b) == Events(a) + Events(b)
  {
    if a == [] {
      assert a + b == b;
    } else {
      assert (a + b)[1..] == a[1..] + b;
      EventsConcat(a[1..], b);
    }
  }

  // ---------- a file in memory ----------

  /** The records in order, the end record included once it has been accepted. */
  datatype Hex = Hex(maxlines: nat, lines: seq<Record>, gotEof: bool)

  /** append_hexline: the new contents and what it reports. */
  function Append(h: Hex, buf: string): (Hex, Status) {
    if h.gotEof then (h, Einval)
    else if |h.lines| >= h.maxlines then (h, Enomem)
    else
      var head := ParseHeader(buf);
      if head.BadHeader? || !ShapeOk(head.tt, head.ll, head.offset) then (h, Einval)
      else
        var h1 := if head.tt == TT_EOF then h.(gotEof := true) else h;
        match ParseRecord(buf)
        case Bad => (h1, Einval)
        case Good(r) => (h1.(lines := h.lines + [r]), if h1.gotEof then AtEof else Appended)
  }

  const DOS_EOF: string := [26 as char]

  datatype Outcome = Failed | Loaded(hex: Hex)

  /** The line loop of parse_hexfile; `dosEof` remembers a DOS end-of-file character. */
  function ParseLines(h: Hex, lines: seq<string>, dosEof: bool): Outcome
    decreases |lines|
  {
    if lines == [] then Loaded(h)
    else if dosEof then Failed
    else if lines[0] == DOS_EOF then ParseLines(h, lines[1..], true)
    else
      var buf := Chomp(lines[0]);
      if buf == "" then Failed
      else if buf[0] == '#' then ParseLines(h, lines[1..], false)
      else if buf[0] != ':' then Failed
      else
        var (h', status) := Append(h, buf[1..]);
        if status.Einval? || status.Enomem? then Failed else ParseLines(h', lines[1..], false)
  }

  function ParseFile(lines: seq<string>, maxlines: nat): Outcome {
    ParseLines(Hex(maxlines, [], false), lines, false)
  }

  // ---------- the format, read off the text ----------

  /** The digits, in either case, and nothing else. */
  lemma {:induction false} DigitsAre(d: nat, c: char)
    requires d < 16
    ensures HexDigit(d) == "0123456789ABCDEF"[d]
    ensures HexValue("0123456789ABCDEF"[d]) == d == HexValue("0123456789abcdef"[d])
    ensures HexValue(c) >= 0 ==> c == "0123456789ABCDEF"[HexValue(c)] || c == "0123456789abcdef"[HexValue(c)]
  {
  }

  lemma {:induction false} SumConcat(a: seq<Byte>, b: seq<Byte>)
    ensures Sum(a + b) == Sum(a) + Sum(b)
  {
    if b == [] {
      assert a + b == a;
    } else {
      assert (a + b)[..|a + b| - 1] == a + b[..|b| - 1];
      SumConcat(a, b[..|b| - 1]);
    }
  }

  lemma {:induction false} SumOfFour(a: Byte, b: Byte, c: Byte, d: Byte)
    ensures Sum([a, b, c, d]) == a + b + c + d
  {
    SumOne(a);
    SumOne(b);
    SumOne(c);
    SumOne(d);
    SumConcat([a], [b]);
    SumConcat([a, b], [c]);
    SumConcat([a, b, c], [d]);
    hide Sum;
    assert [a] + [b] == [a, b] && [a, b] + [c] == [a, b, c] && [a, b, c] + [d] == [a, b, c, d];
  }

  lemma {:induction false} SumOne(b: Byte)
    ensures Sum([b]) == b
  {
    assert Sum([b]) == Sum([]) + b;
  }

  /** The bytes of a record in the order in which they are printed. */
  function Raw(r: Record): (s: seq<Byte>)
    requires |r.data| < 256
    ensures |s| == |r.data| + 5
  {
    [|r.data|, r.offset / 256, r.offset % 256, r.tt] + r.data + [r.chksum]
  }

  /** The checksum is that of the bytes on the line. */
  lemma {:induction false} ChecksumIs(r: Record)
    requires |r.data| < 256
    ensures Checksum(r) == Sum(Raw(r)) % 256
  {
    var head := [|r.data|, r.offset / 256, r.offset % 256, r.tt];
    SumOfFour(|r.data|, r.offset / 256, r.offset % 256, r.tt);
    SumConcat(head, r.data);
    SumConcat(head + r.data, [r.chksum]);
    SumOne(r.chksum);
    hide Sum;
  }

  lemma {:induction false} HeaderBytes(buf: string)
    ensures ParseBytes(buf, 0, 4) == match ParseHeader(buf)
      case BadHeader => BadBytes
      case Header(ll, offset, tt) => Bytes([ll, offset / 256, offset % 256, tt])
  {
    hide ByteAt;
    var ll, hi, lo, tt := ByteAt(buf, 0), ByteAt(buf, 2), ByteAt(buf, 4), ByteAt(buf, 6);
    assert ParseBytes(buf, 0, 1) == if ll < 0 then BadBytes else Bytes([ll]);
    assert ParseBytes(buf, 0, 2) == if ll < 0 || hi < 0 then BadBytes else Bytes([ll, hi]);
    assert ParseBytes(buf, 0, 3) == if ll < 0 || hi < 0 || lo < 0 then BadBytes else Bytes([ll, hi, lo]);
  }

  /** The header and the rest together are the whole line. */
  lemma {:induction false} ParseBytesOf(buf: string, n: nat)
    ensures ParseBytes(buf, 0, n + 4) == match ParseBytes(buf, 0, 4)
      case BadBytes => BadBytes
      case Bytes(head) =>
        match ParseBytes(buf, 8, n)
        case BadBytes => BadBytes
        case Bytes(rest) => Bytes(head + rest)
  {
    hide ByteAt;
    if n > 0 {
      ParseBytesOf(buf, n - 1);
      var rest := ParseBytes(buf, 8, n - 1);
      var b := ByteAt(buf, 8 + 2 * (n - 1));
      assert 0 + 2 * (n + 3) == 8 + 2 * (n - 1);
      assert ParseBytes(buf, 0, n + 4) ==
        if ParseBytes(buf, 0, n + 3).BadBytes? || b < 0 then BadBytes else Bytes(ParseBytes(buf, 0, n + 3).data + [b]);
    } else {
      assert ParseBytes(buf, 8, 0) == Bytes([]);
    }
  }

  /** The bytes of every printed line sum to zero. */
  lemma {:induction false} PrintedSumsToZero(r: Record)
    requires |r.data| < 256
    ensures var line := ParseBytes(Body(r), 0, |r.data| + 5);
      && line.Bytes? && Sum(line.data) % 256 == 0
      && line.data[..|r.data| + 4] == [|r.data|, r.offset / 256, r.offset % 256, r.tt] + r.data
  {
    BodyParses(r);
    HeaderBytes(Body(r));
    ParseBytesOf(Body(r), |r.data| + 1);
    FixedSumsToZero(r);
    ChecksumIs(Fixed(r));
    hide Body, ParseBytes, ParseHeader, Checksum, NewChecksum, Sum;
    var head := [|r.data|, r.offset / 256, r.offset % 256, r.tt];
    assert head + (r.data + [NewChecksum(r)]) == Raw(Fixed(r));
  }

  /** The lengths and offsets that go with the six record types. */
  predicate Legal(line: seq<Byte>)
    requires |line| >= 4
  {
    var ll, hi, lo, tt := line[0], line[1], line[2], line[3];
    || tt == 0
    || (tt == 1 && ll == 0 && hi == 0 && lo == 0)
    || ((tt == 2 || tt == 4) && ll == 2 && hi == 0 && lo == 0)
    || ((tt == 3 || tt == 5) && ll == 4 && hi == 0 && lo == 0)
  }

  lemma {:induction false} LegalIs(r: Record)
    requires |r.data| < 256
    ensures Legal(Raw(r)) <==> ShapeOk(r.tt, |r.data|, r.offset)
  {
    assert Raw(r)[..4] == [|r.data|, r.offset / 256, r.offset % 256, r.tt];
    assert r.offset == 0 <==> r.offset / 256 == 0 && r.offset % 256 == 0;
  }

  lemma {:induction false} AppendWhole(h: Hex, buf: string, r: Record)
    requires !h.gotEof && |h.lines| < h.maxlines && |r.data| < 256
    requires ParseHeader(buf) == Header(|r.data|, r.offset, r.tt)
    requires ParseBytes(buf, 8, |r.data| + 1) == Bytes(r.data + [r.chksum])
    ensures Append(h, buf) ==
      if !ShapeOk(r.tt, |r.data|, r.offset) then (h, Einval)
      else if Checksum(r) != 0 then (h.(gotEof := r.tt == 1), Einval)
      else (Hex(h.maxlines, h.lines + [r], r.tt == 1), if r.tt == 1 then AtEof else Appended)
  {
    hide Checksum, ParseHeader, ParseBytes, ShapeOk;
    var data := r.data + [r.chksum];
    assert data[..|r.data|] == r.data && data[|r.data|] == r.chksum;
  }

  lemma {:induction false} AppendGood(h: Hex, buf: string, r: Record)
    requires !h.gotEof && |h.lines| < h.maxlines && |r.data| < 256
    requires ParseHeader(buf) == Header(|r.data|, r.offset, r.tt)
    requires ParseBytes(buf, 8, |r.data| + 1) == Bytes(r.data + [r.chksum])
    ensures Append(h, buf) ==
      if !Legal(Raw(r)) then (h, Einval)
      else if Sum(Raw(r)) % 256 != 0 then (h.(gotEof := r.tt == 1), Einval)
      else (Hex(h.maxlines, h.lines + [r], r.tt == 1), if r.tt == 1 then AtEof else Appended)
  {
    hide Checksum, Sum, ParseHeader, ParseBytes, Raw, Legal, ShapeOk, Append;
    AppendWhole(h, buf, r);
    ChecksumIs(r);
    LegalIs(r);
  }

  lemma {:induction false} AppendBad(h: Hex, buf: string)
    requires !h.gotEof && |h.lines| < h.maxlines
    requires ParseHeader(buf).BadHeader? || ParseBytes(buf, 8, ParseHeader(buf).ll + 1).BadBytes?
    ensures Append(h, buf).0.lines == h.lines && Append(h, buf).1 == Einval
  {
    hide ParseHeader, ParseBytes;
  }

  /** A line is accepted exactly when it holds as many bytes as its first one announces, has one of
      the legal forms, and its bytes sum to zero modulo 256; the record is what the bytes say, and
      the end record is the one of type 1. */
  lemma {:induction false} AcceptedIff(h: Hex, buf: string)
    requires !h.gotEof && |h.lines| < h.maxlines
    ensures var ll := ByteAt(buf, 0);
      var line := if ll < 0 then BadBytes else ParseBytes(buf, 0, ll + 5);
      var (h', status) := Append(h, buf);
      && (status == Appended || status == AtEof <==> line.Bytes? && Legal(line.data) && Sum(line.data) % 256 == 0)
      && (status == Appended || status == AtEof ==>
            && |h'.lines| == |h.lines| + 1 && h.lines <= h'.lines
            && |h'.lines[|h.lines|].data| == ll && Raw(h'.lines[|h.lines|]) == line.data
            && h'.gotEof == (status == AtEof) == (line.data[3] == 1))
      && (status != Appended && status != AtEof ==> status == Einval && h'.lines == h.lines)
  {
    var ll := ByteAt(buf, 0);
    var head := ParseHeader(buf);
    HeaderBytes(buf);
    if ll >= 0 {
      ParseBytesOf(buf, ll + 1);
    }
    assert head.Header? ==> head.ll == ll;
    hide ByteAt, ParseBytes, ParseHeader, Sum, Append, Legal;
    if head.BadHeader? || ParseBytes(buf, 8, ll + 1).BadBytes? {
      AppendBad(h, buf);
    } else {
      var b := ParseBytes(buf, 8, ll + 1).data;
      var r := Record(head.offset, head.tt, b[..ll], b[ll]);
      assert b == r.data + [r.chksum];
      AppendGood(h, buf, r);
      assert ParseBytes(buf, 0, ll + 5).data == Raw(r);
    }
  }

  /** Comment lines make no difference, wherever they are, nor does a DOS end of file at the end;
      any other line that does not start with a colon makes the parser refuse the file. */
  lemma {:induction false} OtherLines(h: Hex, a: seq<string>, c: string, b: seq<string>)
    requires [26 as char] !in a && c != [26 as char]
    ensures ParseLines(h, a + [[26 as char]], false) == ParseLines(h, a, false)
    ensures Chomp(c) != "" && Chomp(c)[0] == '#' ==>
      ParseLines(h, a + [c] + b, false) == ParseLines(h, a + b, false)
    ensures Chomp(c) == "" || Chomp(c)[0] !in "#:" ==> ParseLines(h, a + [c] + b, false) == Failed
    decreases |a|
  {
    hide Append, Chomp;
    if a == [] {
      assert a + [c] + b == [c] + b && ([c] + b)[1..] == b && a + b == b;
      assert a + [[26 as char]] == [[26 as char]] && [[26 as char]][1..] == [];
    } else {
      var rest := a[1..];
      assert (a + [[26 as char]])[1..] == rest + [[26 as char]];
      assert (a + [c] + b)[1..] == rest + [c] + b && (a + b)[1..] == rest + b;
      assert a[0] in a && forall x :: x in rest ==> x in a;
      var buf := Chomp(a[0]);
      OtherLines(h, rest, c, b);
      if buf != "" {
        OtherLines(Append(h, buf[1..]).0, rest, c, b);
      }
    }
  }

  // ---------- what a parsed file is ----------

  /** What parsing guarantees of its records: well-formed, summing to zero, and the end record last. */
  ghost predicate HexOk(h: Hex) {
    && |h.lines| <= h.maxlines
    && (forall k :: 0 <= k < |h.lines| ==> RecordOk(h.lines[k]) && Checksum(h.lines[k]) == 0)
    && (forall k :: 0 <= k < |h.lines| - 1 ==> h.lines[k].tt != TT_EOF)
    && (!h.gotEof ==> forall k :: 0 <= k < |h.lines| ==> h.lines[k].tt != TT_EOF)
  }

  lemma {:induction false} AppendKeepsOk(h: Hex, buf: string)
    requires HexOk(h)
    ensures var (h', status) := Append(h, buf);
      && HexOk(h') && h.lines <= h'.lines && (h.gotEof ==> status == Einval && h' == h)
      && (status == AtEof ==> h'.gotEof && h'.lines != [] && h'.lines[|h'.lines| - 1].tt == TT_EOF)
      && (h'.lines != h.lines <==> status == AtEof || status == Appended)
  {
    hide Checksum;
  }

  /** Every file that parses is well-formed. */
  lemma {:induction false} ParsedIsOk(h: Hex, lines: seq<string>, dosEof: bool)
    requires HexOk(h)
    ensures ParseLines(h, lines, dosEof).Loaded? ==>
      HexOk(ParseLines(h, lines, dosEof).hex) && h.lines <= ParseLines(h, lines, dosEof).hex.lines
    decreases |lines|
  {
    hide HexOk, Append, Chomp;
    if lines != [] && !dosEof {
      if lines[0] == DOS_EOF {
        ParsedIsOk(h, lines[1..], true);
      } else {
        var buf := Chomp(lines[0]);
        if buf != "" && buf[0] == '#' {
          ParsedIsOk(h, lines[1..], false);
        } else if buf != "" {
          AppendKeepsOk(h, buf[1..]);
          ParsedIsOk(Append(h, buf[1..]).0, lines[1..], false);
        }
      }
    }
  }

  /** After the end record no further record is accepted: the file must end, but for comments and a DOS end of file. */
  lemma {:induction false} NothingAfterEof(h: Hex, lines: seq<string>, dosEof: bool)
    requires h.gotEof
    ensures ParseLines(h, lines, dosEof).Loaded? ==> ParseLines(h, lines, dosEof).hex == h
    decreases |lines|
  {
    hide Chomp;
    if lines != [] && !dosEof {
      if lines[0] == DOS_EOF {
        NothingAfterEof(h, lines[1..], true);
      } else if Chomp(lines[0]) != "" {
        NothingAfterEof(h, lines[1..], false);
      }
    }
  }

  // ---------- re-splitting a file ----------

  /** All records cut to width `w`. */
  function SplitAll(recs: seq<Record>, w: nat): seq<Record>
    requires w > 0
  {
    if recs == [] then [] else SplitAll(recs[..|recs| - 1], w) + Split(recs[|recs| - 1], w, 0)
  }

  function Width(maxwidth: Byte): nat { if maxwidth == 0 then 255 else maxwidth }

  /** The end record is there. */
  predicate Complete(h: Hex) {
    h.lines != [] && h.lines[|h.lines| - 1].tt == TT_EOF
  }

  /** The records that dump_hexfile2 prints for a complete file. */
  function Dumped(h: Hex, maxwidth: Byte): seq<Record>
    requires Complete(h)
  {
    SplitAll(h.lines, Width(maxwidth)) + [Fixed(h.lines[|h.lines| - 1])]
  }

  function Printed(recs: seq<Record>): (t: seq<string>)
    requires forall k :: 0 <= k < |recs| ==> |recs[k].data| < 256
    ensures |t| == |recs|
  {
    seq(|recs|, k requires 0 <= k < |recs| => Line(recs[k]))
  }

  lemma {:induction false} SplitShort(r: Record, w: nat, done: nat)
    requires 0 < w && |r.data| < 256 && done <= |r.data|
    ensures forall k :: 0 <= k < |Split(r, w, done)| ==>
      0 < |Split(r, w, done)[k].data| < 256 && Split(r, w, done)[k].tt == r.tt && Checksum(Split(r, w, done)[k]) == 0
    decreases |r.data| - done
  {
    hide Checksum, NewChecksum;
    if done < |r.data| {
      var n := if |r.data| - done >= w then w else |r.data| - done;
      SplitShort(r, w, done + n);
      FixedSumsToZero(Record((r.offset + done) % 65536, r.tt, r.data[done..done + n], 0));
    }
  }

  lemma {:induction false} SplitAllShort(recs: seq<Record>, w: nat)
    requires 0 < w && forall k :: 0 <= k < |recs| ==> |recs[k].data| < 256
    ensures forall k :: 0 <= k < |SplitAll(recs, w)| ==>
      0 < |SplitAll(recs, w)[k].data| < 256 && Checksum(SplitAll(recs, w)[k]) == 0
  {
    hide Checksum, Split;
    if recs != [] {
      SplitAllShort(recs[..|recs| - 1], w);
      SplitShort(recs[|recs| - 1], w, 0);
    }
  }

  /** Every control record is short enough not to be cut. */
  ghost predicate ControlsFit(recs: seq<Record>, w: nat) {
    forall k :: 0 <= k < |recs| ==> recs[k].tt != TT_DATA ==> |recs[k].data| <= w
  }

  lemma {:induction false} SplitDataIsOk(r: Record, w: nat, done: nat)
    requires 0 < w && |r.data| < 256 && done <= |r.data| && r.tt == TT_DATA
    ensures forall k :: 0 <= k < |Split(r, w, done)| ==>
      RecordOk(Split(r, w, done)[k]) && Split(r, w, done)[k].tt == TT_DATA
    decreases |r.data| - done
  {
    hide NewChecksum;
    if done < |r.data| {
      SplitDataIsOk(r, w, done + (if |r.data| - done >= w then w else |r.data| - done));
    }
  }

  /** A control record that fits is printed as it is; one that does not starts with a piece the parser refuses. */
  lemma {:induction false} SplitControl(r: Record, w: nat)
    requires 0 < w && RecordOk(r) && Checksum(r) == 0 && r.tt != TT_DATA && r.tt != TT_EOF
    ensures |r.data| <= w ==> Split(r, w, 0) == [r]
    ensures |r.data| > w ==> Split(r, w, 0) != [] && !RecordOk(Split(r, w, 0)[0])
  {
    hide Checksum, NewChecksum;
    FixedSumsToZero(r);
    var n := if |r.data| >= w then w else |r.data|;
    assert Split(r, w, 0) == [Fixed(Record(r.offset, r.tt, r.data[..n], 0))] + Split(r, w, n);
    if |r.data| <= w {
      assert r.data[..n] == r.data;
      assert Fixed(Record(r.offset, r.tt, r.data, 0)) == Fixed(r) by {
        SameFixed(Record(r.offset, r.tt, r.data, 0), r);
      }
    }
  }

  lemma {:induction false} SameFixed(a: Record, b: Record)
    requires a.(chksum := 0) == b.(chksum := 0)
    ensures Fixed(a) == Fixed(b)
  {
  }

  lemma {:induction false} DigitIsNoSpace(d: int)
    requires 0 <= d < 16
    ensures !Space(HexDigit(d))
  {
  }

  lemma {:induction false} EndsInDigit(r: Record)
    requires |r.data| < 256
    ensures Body(r) != "" && !Space(Body(r)[|Body(r)| - 1])
  {
    var c := NewChecksum(r);
    DigitIsNoSpace(c % 16);
    hide NewChecksum, Space, HexDigit, HexBytes, Hex4;
    assert Hex2(c)[1] == HexDigit(c % 16);
  }

  lemma {:induction false} ChompEnd(t: string)
    requires t != "" && !Space(t[|t| - 1])
    ensures Chomp(t + "\n") == t
  {
    assert (t + "\n")[..|t|] == t;
    assert Chomp(t) == t;
  }

  lemma {:induction false} ChompLine(r: Record)
    requires |r.data| < 256
    ensures Chomp(Line(r)) == ":" + Body(r)
  {
    EndsInDigit(r);
    hide Body, Chomp, Space;
    ChompEnd(":" + Body(r));
  }

  // ---------- parsing what was printed ----------

  lemma {:induction false} AppendPrinted(h: Hex, r: Record)
    requires |r.data| < 256 && Checksum(r) == 0 && !h.gotEof && |h.lines| < h.maxlines
    ensures RecordOk(r) ==>
      Append(h, Body(r)) == (Hex(h.maxlines, h.lines + [r], r.tt == TT_EOF), if r.tt == TT_EOF then AtEof else Appended)
    ensures !RecordOk(r) ==> Append(h, Body(r)) == (h, Einval)
  {
    hide Checksum, ParseBytes, ByteAt, NewChecksum, Hex2, Hex4, HexBytes;
    var post := HexBytes(r.data) + Hex2(NewChecksum(r));
    assert Body(r) == Hex2(|r.data|) + Hex4(r.offset) + Hex2(r.tt) + post;
    ParsePrintedHeader(r, post);
    if RecordOk(r) {
      PrintedParses(r);
      FixedSumsToZero(r);
    }
  }

  lemma {:induction false} ParsePrintedLine(h: Hex, r: Record, rest: seq<string>)
    requires |r.data| < 256
    ensures ParseLines(h, [Line(r)] + rest, false) ==
      (var (h', status) := Append(h, Body(r));
       if status.Einval? || status.Enomem? then Failed else ParseLines(h', rest, false))
  {
    hide Append, Chomp, Body;
    ChompLine(r);
    assert ([Line(r)] + rest)[1..] == rest;
    assert |Line(r)| > 1 by {
      assert |Body(r)| >= 0;
    }
    assert (":" + Body(r))[1..] == Body(r);
  }

  ghost predicate Short(recs: seq<Record>) {
    forall k :: 0 <= k < |recs| ==> |recs[k].data| < 256 && Checksum(recs[k]) == 0
  }

  /** Well-formed records, printed and parsed, are the records again. */
  lemma {:induction false} ParsePrinted(h: Hex, recs: seq<Record>)
    requires Short(recs) && !h.gotEof && |h.lines| + |recs| <= h.maxlines
    requires forall k :: 0 <= k < |recs| ==> RecordOk(recs[k])
    requires forall k :: 0 <= k < |recs| - 1 ==> recs[k].tt != TT_EOF
    ensures ParseLines(h, Printed(recs), false) ==
      Loaded(Hex(h.maxlines, h.lines + recs, recs != [] && recs[|recs| - 1].tt == TT_EOF))
    decreases |recs|
  {
    hide Append, RecordOk, Checksum, Line;
    if recs == [] {
      assert h.lines + recs == h.lines;
    } else {
      var rest := recs[1..];
      assert Printed(recs) == [Line(recs[0])] + Printed(rest);
      ParsePrintedLine(h, recs[0], Printed(rest));
      AppendPrinted(h, recs[0]);
      var h1 := Hex(h.maxlines, h.lines + [recs[0]], recs[0].tt == TT_EOF);
      assert (h.lines + [recs[0]]) + rest == h.lines + recs;
      if rest != [] {
        ParsePrinted(h1, rest);
      } else {
        assert h.lines + [recs[0]] == h.lines + recs;
        assert Printed(rest) == [];
      }
    }
  }

  /** One malformed record makes the parser refuse the whole file. */
  lemma {:induction false} MalformedIsRefused(h: Hex, recs: seq<Record>, k: nat)
    requires Short(recs) && k < |recs| && !RecordOk(recs[k])
    ensures ParseLines(h, Printed(recs), false) == Failed
    decreases k
  {
    hide Append, RecordOk, Checksum, Line;
    var rest := recs[1..];
    assert Printed(recs) == [Line(recs[0])] + Printed(rest);
    ParsePrintedLine(h, recs[0], Printed(rest));
    if k == 0 {
      AppendRefuses(h, recs[0]);
    } else {
      MalformedIsRefused(Append(h, Body(recs[0])).0, rest, k - 1);
    }
  }

  lemma {:induction false} AppendRefuses(h: Hex, r: Record)
    requires |r.data| < 256 && Checksum(r) == 0 && !RecordOk(r)
    ensures Append(h, Body(r)).1 in {Einval, Enomem}
  {
    hide Checksum, RecordOk, Body;
    if !h.gotEof && |h.lines| < h.maxlines {
      AppendPrinted(h, r);
    }
  }

  // ---------- what survives re-splitting ----------

  function AllBytes(recs: seq<Record>): seq<Byte> {
    if recs == [] then []
    else AllBytes(recs[..|recs| - 1]) + (if recs[|recs| - 1].tt == TT_EOF then [] else recs[|recs| - 1].data)
  }

  /** One step of the BSD checksum. */
  function BsdStep(ck: Word, b: Byte): Word {
    (ck / 2 + ck % 2 * 32768 + b) % 65536
  }

  function BsdFold(ck: Word, data: seq<Byte>): Word {
    if data == [] then ck else BsdStep(BsdFold(ck, data[..|data| - 1]), data[|data| - 1])
  }

  lemma {:induction false} BsdStepIs(ck: Word, b: Byte)
    ensures 0 <= (ck / 2 + ck % 2 * 32768 + b) % 65536 < 65536
    ensures (ck / 2 + ck % 2 * 32768 + b) % 65536 == BsdStep(ck, b)
  {
  }

  lemma {:induction false} Rotated(ck: Word)
    ensures var r := ck / 2 + ck % 2 * 32768; 0 <= r < 65536 && r * 2 % 65536 + r / 32768 == ck
  {
    var q, b := ck / 2, ck % 2;
    assert ck == 2 * q + b && 0 <= q < 32768;
    if b == 0 {
      assert (q + 0 * 32768) / 32768 == 0;
    } else {
      assert b == 1 && (q + 32768) * 2 == 2 * q + 65536;
      assert (2 * q + 65536) % 65536 == 2 * q;
    }
  }

  lemma {:induction false} AddedBack(r: Word, b: Byte)
    ensures ((r + b) % 65536 + 65536 - b) % 65536 == r
  {
    if r + b < 65536 {
      assert (r + b) % 65536 == r + b;
      assert (r + 65536) % 65536 == r;
    } else {
      assert (r + b) % 65536 == r + b - 65536;
    }
  }

  /** Taking the byte off again and rotating left by one bit gives the checksum before the step. */
  lemma {:induction false} BsdStepUndone(ck: Word, b: Byte)
    ensures var r := (BsdStep(ck, b) + 65536 - b) % 65536;
      r * 2 % 65536 + r / 32768 == ck
  {
    BsdStepIs(ck, b);
    Rotated(ck);
    var x := ck / 2 + ck % 2 * 32768;
    AddedBack(x, b);
    hide BsdStep;
    assert BsdStep(ck, b) as int == (x + b) % 65536;
  }

  /** Files that differ in one data byte have different checksums. */
  lemma {:induction false} BsdDetectsOneByte(ck: Word, a: seq<Byte>, b: Byte, b': Byte, c: seq<Byte>)
    requires b != b'
    ensures BsdFold(ck, a + [b] + c) != BsdFold(ck, a + [b'] + c)
    decreases |c|
  {
    hide BsdStep;
    var s, t := a + [b] + c, a + [b'] + c;
    if c == [] {
      assert s[..|s| - 1] == a == t[..|t| - 1];
      BsdOneByte(BsdFold(ck, a), b, b');
    } else {
      var d := c[..|c| - 1];
      BsdDetectsOneByte(ck, a, b, b', d);
      assert s[..|s| - 1] == a + [b] + d && t[..|t| - 1] == a + [b'] + d;
      BsdStepUndone(BsdFold(ck, a + [b] + d), c[|c| - 1]);
      BsdStepUndone(BsdFold(ck, a + [b'] + d), c[|c| - 1]);
    }
  }

  lemma {:induction false} BsdOneByte(ck: Word, b: Byte, b': Byte)
    requires b != b'
    ensures BsdStep(ck, b) != BsdStep(ck, b')
  {
    BsdStepIs(ck, b);
    BsdStepIs(ck, b');
    Rotated(ck);
    var x := ck / 2 + ck % 2 * 32768;
    Wraps(x, b);
    Wraps(x, b');
    hide BsdStep;
    assert BsdStep(ck, b) as int == (x + b) % 65536;
  }

  lemma {:induction false} Wraps(x: Word, b: Byte)
    ensures (x + b) % 65536 == if x + b < 65536 then x + b else x + b - 65536
  {
  }

  lemma {:induction false} BsdOneMore(ck: Word, data: seq<Byte>, p: nat)
    ensures BsdFold(ck, data[..0]) == ck
    ensures p < |data| ==> BsdFold(ck, data[..p + 1]) == BsdStep(BsdFold(ck, data[..p]), data[p])
  {
    hide BsdStep;
    if p < |data| {
      assert data[..p + 1][..p] == data[..p];
    }
  }

  lemma {:induction false} AllBytesConcat(a: seq<Record>, b: seq<Record>)
    ensures AllBytes(a + b) == AllBytes(a) + AllBytes(b)
  {
    if b == [] {
      assert a + b == a;
    } else {
      assert (a + b)[..|a + b| - 1] == a + b[..|b| - 1];
      AllBytesConcat(a, b[..|b| - 1]);
    }
  }

  lemma {:induction false} AllBytesOne(r: Record)
    requires r.tt != TT_EOF
    ensures AllBytes([r]) == r.data
  {
    assert AllBytes([r]) == AllBytes([]) + r.data;
  }

  /** The first piece of a split, and the rest. */
  lemma {:induction false} SplitTurn(r: Record, w: nat, done: nat, n: nat)
    requires 0 < w && done < |r.data| && n == (if |r.data| - done >= w then w else |r.data| - done)
    ensures var p := Split(r, w, done);
      p != [] && p == [p[0]] + Split(r, w, done + n) && p[0].tt == r.tt && p[0].data == r.data[done..done + n]
  {
    hide NewChecksum;
  }

  lemma {:induction false} FirstPieceBytes(first: Record, rest: seq<Record>, data: seq<Byte>, a: nat, b: nat)
    requires a <= b <= |data| && first.tt != TT_EOF && first.data == data[a..b]
    requires AllBytes(rest) == data[b..]
    ensures AllBytes([first] + rest) == data[a..]
  {
    AllBytesOne(first);
    AllBytesConcat([first], rest);
    hide AllBytes;
    assert data[a..b] + data[b..] == data[a..];
  }

  lemma {:induction false} SplitDone(r: Record, w: nat)
    requires 0 < w
    ensures Split(r, w, |r.data|) == [] && AllBytes(Split(r, w, |r.data|)) == r.data[|r.data|..]
  {
  }

  lemma {:induction false} SplitKeepsBytes(r: Record, w: nat, done: nat)
    requires 0 < w && done <= |r.data| && r.tt != TT_EOF
    ensures AllBytes(Split(r, w, done)) == r.data[done..]
    decreases |r.data| - done
  {
    hide Split, AllBytes, Fixed;
    if done == |r.data| {
      SplitDone(r, w);
    } else {
      var n := if |r.data| - done >= w then w else |r.data| - done;
      SplitTurn(r, w, done, n);
      SplitKeepsBytes(r, w, done + n);
      FirstPieceBytes(Split(r, w, done)[0], Split(r, w, done + n), r.data, done, done + n);
    }
  }

  lemma {:induction false} SplitAllKeeps(recs: seq<Record>, w: nat)
    requires 0 < w
    requires forall k :: 0 <= k < |recs| ==> RecordOk(recs[k]) && Checksum(recs[k]) == 0 && recs[k].tt != TT_EOF
    ensures AllBytes(SplitAll(recs, w)) == AllBytes(recs)
    ensures ControlsFit(recs, w) ==> Events(SplitAll(recs, w)) == Events(recs)
    ensures ControlsFit(recs, w) ==> forall k :: 0 <= k < |SplitAll(recs, w)| ==>
      RecordOk(SplitAll(recs, w)[k]) && SplitAll(recs, w)[k].tt != TT_EOF
    ensures !ControlsFit(recs, w) ==> exists k :: 0 <= k < |SplitAll(recs, w)| && !RecordOk(SplitAll(recs, w)[k])
  {
    hide Checksum, Split, Events, AllBytes;
    if recs == [] {
      assert AllBytes([]) == [] && Events([]) == [] by {
        NothingInNothing();
      }
    } else {
      var init, r := recs[..|recs| - 1], recs[|recs| - 1];
      assert recs == init + [r];
      SplitAllKeeps(init, w);
      SplitRecord(r, w);
      AllBytesConcat(SplitAll(init, w), Split(r, w, 0));
      AllBytesConcat(init, [r]);
      EventsConcat(SplitAll(init, w), Split(r, w, 0));
      EventsConcat(init, [r]);
      if !ControlsFit(recs, w) {
        if !ControlsFit(init, w) {
          var k :| 0 <= k < |SplitAll(init, w)| && !RecordOk(SplitAll(init, w)[k]);
          assert SplitAll(recs, w)[k] == SplitAll(init, w)[k];
        } else {
          assert SplitAll(recs, w)[|SplitAll(init, w)|] == Split(r, w, 0)[0];
        }
      }
    }
  }

  lemma {:induction false} NothingInNothing()
    ensures AllBytes([]) == [] && Events([]) == []
  {
  }

  /** What becomes of one record. */
  lemma {:induction false} SplitRecord(r: Record, w: nat)
    requires 0 < w && RecordOk(r) && Checksum(r) == 0 && r.tt != TT_EOF
    ensures var p := Split(r, w, 0);
      && AllBytes(p) == AllBytes([r])
      && (r.tt != TT_DATA && |r.data| > w ==> p != [] && !RecordOk(p[0]))
      && (r.tt == TT_DATA || |r.data| <= w ==>
           Events(p) == Events([r]) && forall k :: 0 <= k < |p| ==> RecordOk(p[k]) && p[k].tt != TT_EOF)
  {
    hide Checksum, Split;
    SplitKeepsBytes(r, w, 0);
    assert AllBytes([r]) == AllBytes([]) + r.data;
    assert r.data[0..] == r.data;
    if r.tt == TT_DATA {
      SplitKeepsEvents(r, w, 0);
      SplitDataIsOk(r, w, 0);
      assert Events([r]) == Puts(r.offset, r.data) + Events([]);
    } else {
      SplitControl(r, w);
    }
  }

  lemma {:induction false} DumpedShort(h: Hex, maxwidth: Byte)
    requires HexOk(h) && Complete(h)
    ensures Short(Dumped(h, maxwidth))
  {
    var last := h.lines[|h.lines| - 1];
    assert RecordOk(last) && |last.data| < 256;
    hide Checksum, SplitAll, RecordOk;
    DumpedForm(h, maxwidth);
    SplitAllShort(h.lines[..|h.lines| - 1], Width(maxwidth));
  }

  lemma {:induction false} FittingParses(h: Hex, maxwidth: Byte, maxlines: nat)
    requires HexOk(h) && Complete(h) && |Dumped(h, maxwidth)| <= maxlines && ControlsFit(h.lines, Width(maxwidth))
    ensures Short(Dumped(h, maxwidth))
    ensures ParseFile(Printed(Dumped(h, maxwidth)), maxlines) == Loaded(Hex(maxlines, Dumped(h, maxwidth), true))
  {
    hide Checksum, SplitAll, RecordOk, ParseLines, Line, Dumped;
    var init := h.lines[..|h.lines| - 1];
    DumpedForm(h, maxwidth);
    DumpedShort(h, maxwidth);
    SplitAllKeeps(init, Width(maxwidth));
    ParsePrinted(Hex(maxlines, [], false), Dumped(h, maxwidth));
    assert [] + Dumped(h, maxwidth) == Dumped(h, maxwidth);
  }

  lemma {:induction false} CutControlIsRefused(h: Hex, maxwidth: Byte, maxlines: nat)
    requires HexOk(h) && Complete(h) && !ControlsFit(h.lines, Width(maxwidth))
    ensures Short(Dumped(h, maxwidth))
    ensures ParseFile(Printed(Dumped(h, maxwidth)), maxlines).Failed?
  {
    var init := h.lines[..|h.lines| - 1];
    assert !ControlsFit(init, Width(maxwidth)) by {
      assert RecordOk(h.lines[|h.lines| - 1]);
    }
    hide Checksum, SplitAll, ParseLines, Line, RecordOk, Dumped;
    DumpedForm(h, maxwidth);
    DumpedShort(h, maxwidth);
    SplitAllKeeps(init, Width(maxwidth));
    var k :| 0 <= k < |SplitAll(init, Width(maxwidth))| && !RecordOk(SplitAll(init, Width(maxwidth))[k]);
    MalformedIsRefused(Hex(maxlines, [], false), Dumped(h, maxwidth), k);
  }

  /** Dumping a parsed, complete file at any width and parsing the text again succeeds
      exactly when no base or start record had to be cut; always from width 4 on. */
  lemma {:induction false} ResplitParses(h: Hex, maxwidth: Byte, maxlines: nat)
    requires HexOk(h) && Complete(h) && |Dumped(h, maxwidth)| <= maxlines
    ensures Short(Dumped(h, maxwidth))
    ensures var out := ParseFile(Printed(Dumped(h, maxwidth)), maxlines);
      && (out.Loaded? <==> ControlsFit(h.lines, Width(maxwidth)))
      && (out.Loaded? ==> out.hex == Hex(maxlines, Dumped(h, maxwidth), true))
    ensures maxwidth == 0 || maxwidth >= 4 ==> ControlsFit(h.lines, Width(maxwidth))
  {
    hide Checksum, Dumped, ParseFile;
    if ControlsFit(h.lines, Width(maxwidth)) {
      FittingParses(h, maxwidth, maxlines);
    } else {
      CutControlIsRefused(h, maxwidth, maxlines);
    }
  }

  lemma {:induction false} DumpedForm(h: Hex, maxwidth: Byte)
    requires HexOk(h) && Complete(h)
    ensures Dumped(h, maxwidth) == SplitAll(h.lines[..|h.lines| - 1], Width(maxwidth)) + [h.lines[|h.lines| - 1]]
  {
    var last := h.lines[|h.lines| - 1];
    FixedSumsToZero(last);
    assert Split(last, Width(maxwidth), 0) == [];
  }

  /** The file read back says the same: the same bytes at the same 16-bit addresses
      between the same base records, and the same BSD checksum. */
  lemma {:induction false} ResplitPreserves(h: Hex, maxwidth: Byte)
    requires HexOk(h) && Complete(h)
    ensures BsdFold(0, AllBytes(Dumped(h, maxwidth))) == BsdFold(0, AllBytes(h.lines))
    ensures ControlsFit(h.lines, Width(maxwidth)) ==> Events(Dumped(h, maxwidth)) == Events(h.lines)
  {
    hide Checksum, SplitAll, Events, AllBytes;
    var w := Width(maxwidth);
    var init, last := h.lines[..|h.lines| - 1], h.lines[|h.lines| - 1];
    assert h.lines == init + [last];
    DumpedForm(h, maxwidth);
    SplitAllKeeps(init, w);
    assert ControlsFit(h.lines, w) ==> ControlsFit(init, w);
    AllBytesConcat(SplitAll(init, w), [last]);
    AllBytesConcat(init, [last]);
    EventsConcat(SplitAll(init, w), [last]);
    EventsConcat(init, [last]);
  }

  // ---------- the file in place ----------

  lemma {:induction false} SumSnoc(data: seq<Byte>, b: Byte)
    ensures Sum(data + [b]) == Sum(data) + b
  {
    assert (data + [b])[..|data|] == data;
  }

  lemma {:induction false} PiecesShort(line: Record, w: nat)
    requires 0 < w && |line.data| < 256
    ensures Short(Split(line, w, 0)) && Split(line, w, 0)[0..] == Split(line, w, 0)
    ensures forall k :: 0 <= k < |Split(line, w, 0)| ==> |Split(line, w, 0)[k].data| < 256
  {
    hide Checksum, NewChecksum;
    SplitShort(line, w, 0);
  }

  lemma {:induction false} PrintedNone(all: seq<Record>)
    requires forall k :: 0 <= k < |all| ==> |all[k].data| < 256
    ensures Printed(all[..0]) == [] && all[0..] == all
  {
  }

  lemma {:induction false} NoPieces(line: Record, w: nat)
    requires 0 < w
    ensures Split(line, w, |line.data|) == []
  {
  }

  lemma {:induction false} FirstPiece(line: Record, w: nat, done: nat, n: nat, first: Record)
    requires 0 < w && done < |line.data| && n == (if |line.data| - done >= w then w else |line.data| - done)
    requires first == Fixed(Record((line.offset + done) % 65536, line.tt, line.data[done..done + n], 0))
    ensures Split(line, w, done) == [first] + Split(line, w, done + n)
  {
    hide NewChecksum;
  }

  /** One more line of the text, in the shape the loop keeps. */
  lemma {:induction false} PrintedMore(all: seq<Record>, i: nat, first: Record, rest: seq<Record>)
    requires forall k :: 0 <= k < |all| ==> |all[k].data| < 256
    requires i <= |all| && all[i..] == [first] + rest
    ensures i < |all| && all[i + 1..] == rest && |first.data| < 256
    ensures Printed(all[..i + 1]) == Printed(all[..i]) + [Line(first)]
  {
    hide Line;
    assert all[i] == all[i..][0] == first;
    assert all[i + 1..] == all[i..][1..];
  }

  lemma {:induction false} LinesShort(h: Hex)
    requires HexOk(h)
    ensures forall k :: 0 <= k < |h.lines| ==> |h.lines[k].data| < 256
  {
    hide Checksum;
  }

  lemma {:induction false} TextStart(w: nat)
    requires 0 < w
    ensures SplitAll([], w) == [] && Short([]) && Printed([]) == []
  {
  }

  lemma {:induction false} PrintedConcat(a: seq<Record>, b: seq<Record>)
    requires Short(a) && Short(b)
    ensures Short(a + b) && Printed(a + b) == Printed(a) + Printed(b)
  {
    hide Checksum, Line;
  }

  lemma {:induction false} TextTurn(lines: seq<Record>, w: nat, i: nat)
    requires 0 < w && i < |lines| && forall k :: 0 <= k < |lines| ==> |lines[k].data| < 256
    requires Short(SplitAll(lines[..i], w))
    ensures Short(Split(lines[i], w, 0)) && Short(SplitAll(lines[..i + 1], w))
    ensures Printed(SplitAll(lines[..i + 1], w)) == Printed(SplitAll(lines[..i], w)) + Printed(Split(lines[i], w, 0))
  {
    PiecesShort(lines[i], w);
    assert lines[..i + 1][..i] == lines[..i];
    assert SplitAll(lines[..i + 1], w) == SplitAll(lines[..i], w) + Split(lines[i], w, 0);
    hide Split, SplitAll, Printed, Short;
    PrintedConcat(SplitAll(lines[..i], w), Split(lines[i], w, 0));
  }

  lemma {:induction false} TextEnd(recs: seq<Record>, last: Record)
    requires Short(recs) && |last.data| < 256
    ensures Short(recs + [Fixed(last)]) && Printed(recs + [Fixed(last)]) == Printed(recs) + [Line(Fixed(last))]
  {
    FixedSumsToZero(last);
    hide Checksum, NewChecksum, Printed;
    assert Short([Fixed(last)]);
    PrintedConcat(recs, [Fixed(last)]);
    PrintedOne(Fixed(last));
  }

  lemma {:induction false} PrintedOne(r: Record)
    requires |r.data| < 256
    ensures Printed([r]) == [Line(r)]
  {
    hide Line;
  }

  class HexData {
    const maxlines: nat
    var lines: seq<Record>
    var gotEof: bool

    ghost function State(): Hex
      reads this
    {
      Hex(maxlines, lines, gotEof)
    }

    constructor (maxlines: nat)
      ensures State() == Hex(maxlines, [], false)
    {
      this.maxlines := maxlines;
      lines, gotEof := [], false;
    }

    /** hexline_checksum as the loop over the raw bytes of a record. */
    static method HexlineChecksum(r: Record) returns (sum: Byte)
      ensures sum == Checksum(r)
    {
      var chksm := |r.data| + r.offset / 256 + r.offset % 256 + r.tt;
      for i := 0 to |r.data|
        invariant chksm == |r.data| + r.offset / 256 + r.offset % 256 + r.tt + Sum(r.data[..i])
      {
        SumSnoc(r.data[..i], r.data[i]);
        assert r.data[..i + 1] == r.data[..i] + [r.data[i]];
        chksm := chksm + r.data[i];
      }
      assert r.data[..|r.data|] == r.data;
      sum := (chksm + r.chksum) % 256;
    }

    /** The data bytes and the checksum byte of a line, two digits at a time. */
    static method ReadBytes(buf: string, n: nat) returns (b: Bytes)
      ensures b == ParseBytes(buf, 8, n)
    {
      hide HexValue;
      var data: seq<Byte> := [];
      var p := 8;
      for i := 0 to n
        invariant p == 8 + 2 * i && ParseBytes(buf, 8, i) == Bytes(data)
      {
        if p + 1 >= |buf| || HexValue(buf[p]) < 0 || HexValue(buf[p + 1]) < 0 {
          BadByteStays(buf, 8, i, n);
          return BadBytes;
        }
        data := data + [16 * HexValue(buf[p]) + HexValue(buf[p + 1])];
        p := p + 2;
      }
      b := Bytes(data);
    }

    /** append_hexline: one line of hexadecimal text, the colon removed. */
    method AppendHexline(buf: string) returns (status: Status)
      modifies this
      ensures (State(), status) == Append(old(State()), buf)
    {
      hide ParseHeader, ParseBytes, Checksum;
      if gotEof {
        return Einval;
      }
      if |lines| >= maxlines {
        return Enomem;
      }
      var head := ParseHeader(buf);
      if head.BadHeader? {
        return Einval;
      }
      var ll, offset, tt := head.ll, head.offset, head.tt;
      if tt == TT_EOF {
        if ll != 0 || offset != 0 {
          return Einval;
        }
        gotEof := true;
      } else if tt == TT_EXT_SEG || tt == TT_EXT_LIN {
        if ll != 2 || offset != 0 {
          return Einval;
        }
      } else if tt == TT_START_SEG || tt == TT_START_LIN {
        if ll != 4 || offset != 0 {
          return Einval;
        }
      } else if tt != TT_DATA {
        return Einval;
      }
      var b := ReadBytes(buf, ll as int + 1);
      if b.BadBytes? {
        return Einval;
      }
      var hexline := Record(offset, tt, b.data[..ll], b.data[ll]);
      var sum := HexlineChecksum(hexline);
      if sum != 0 {
        return Einval;
      }
      lines := lines + [hexline];
      status := if gotEof then AtEof else Appended;
    }

    /** The inner loop of dump_hexfile2: one record cut to the width. */
    static method DumpPieces(line: Record, w: nat) returns (out: seq<string>)
      requires 0 < w && |line.data| < 256
      ensures Short(Split(line, w, 0)) && out == Printed(Split(line, w, 0))
    {
      hide Checksum, NewChecksum, Line, Split, Short;
      PiecesShort(line, w);
      var bytesleft := |line.data|;
      var extraOffset := 0;
      out := [];
      ghost var all := Split(line, w, 0);
      PrintedNone(all);
      while bytesleft > 0
        invariant 0 <= bytesleft && extraOffset + bytesleft == |line.data| && |out| <= |all|
        invariant out == Printed(all[..|out|]) && all[|out|..] == Split(line, w, extraOffset)
      {
        var currBytes := if bytesleft >= w then w else bytesleft;
        var extraline := Record(
          (line.offset + extraOffset) % 65536, line.tt, line.data[extraOffset..extraOffset + currBytes], 0);
        extraline := extraline.(chksum := NewChecksum(extraline));
        FirstPiece(line, w, extraOffset, currBytes, extraline);
        PrintedMore(all, |out|, extraline, Split(line, w, extraOffset + currBytes));
        out := out + [Line(extraline)];
        extraOffset := extraOffset + currBytes;
        bytesleft := bytesleft - currBytes;
      }
      NoPieces(line, w);
      assert |all[|out|..]| == 0;
      assert all[..|out|] == all;
    }

    /** dump_hexfile2: every record cut to the width, then the end record, as text. */
    method DumpHexfile2(maxwidth: Byte) returns (ok: bool, out: seq<string>)
      requires HexOk(State())
      ensures ok <==> Complete(State())
      ensures forall k :: 0 <= k < |lines| ==> |lines[k].data| < 256
      ensures Short(SplitAll(lines, Width(maxwidth)))
      ensures ok ==> Short(Dumped(State(), maxwidth)) && out == Printed(Dumped(State(), maxwidth))
      ensures !ok ==> out == Printed(SplitAll(lines, Width(maxwidth)))
    {
      hide Checksum, NewChecksum, Line, Split, SplitAll, Printed, RecordOk;
      var w := Width(maxwidth);
      out := [];
      TextStart(w);
      assert forall k :: 0 <= k < |lines| ==> |lines[k].data| < 256 by {
        LinesShort(State());
      }
      for i := 0 to |lines|
        invariant Short(SplitAll(lines[..i], w)) && out == Printed(SplitAll(lines[..i], w))
      {
        TextTurn(lines, w, i);
        var pieces := DumpPieces(lines[i], w);
        out := out + pieces;
      }
      assert lines[..|lines|] == lines;
      if lines == [] || lines[|lines| - 1].tt != TT_EOF {
        return false, out;
      }
      TextEnd(SplitAll(lines, w), lines[|lines| - 1]);
      out := out + [Line(Fixed(lines[|lines| - 1]))];
      ok := true;
    }

    /** The inner loop of bsd_checksum: rotate right by one bit and add, for every byte. */
    static method BsdBytes(start: Word, data: seq<Byte>) returns (ck: Word)
      ensures ck == BsdFold(start, data)
    {
      ck := start;
      BsdOneMore(start, data, 0);
      hide BsdFold, BsdStep;
      for p := 0 to |data|
        invariant ck == BsdFold(start, data[..p])
      {
        BsdOneMore(start, data, p);
        BsdStepIs(ck, data[p]);
        var rotated := ck / 2 + ck % 2 * 32768;
        ck := (rotated + data[p]) % 65536;
      }
      assert data[..|data|] == data;
    }

    /** bsd_checksum over the data of every record but the end record. */
    method BsdChecksum() returns (ck: Word)
      ensures ck == BsdFold(0, AllBytes(lines))
    {
      hide BsdFold;
      BsdNothing();
      ck := 0;
      for i := 0 to |lines|
        invariant ck == BsdFold(0, AllBytes(lines[..i]))
      {
        assert lines[..i + 1][..i] == lines[..i];
        if lines[i].tt != TT_EOF {
          BsdConcat(0, AllBytes(lines[..i]), lines[i].data);
          ck := BsdBytes(ck, lines[i].data);
        } else {
          assert AllBytes(lines[..i]) + [] == AllBytes(lines[..i]);
        }
      }
      assert lines[..|lines|] == lines;
    }
  }

  lemma {:induction false} BsdNothing()
    ensures AllBytes([]) == [] && BsdFold(0, []) == 0
  {
  }

  lemma {:induction false} BsdConcat(ck: Word, a: seq<Byte>, b: seq<Byte>)
    ensures BsdFold(ck, a + b) == BsdFold(BsdFold(ck, a), b)
  {
    hide BsdStep;
    if b == [] {
      assert a + b == a;
    } else {
      assert (a + b)[..|a + b| - 1] == a + b[..|b| - 1];
      BsdConcat(ck, a, b[..|b| - 1]);
    }
  }

  lemma {:induction false} BadByteStays(buf: string, p: nat, i: nat, n: nat)
    requires i < n && ByteAt(buf, p + 2 * i) < 0
    ensures ParseBytes(buf, p, n) == BadBytes
    decreases n
  {
    if n > i + 1 {
      BadByteStays(buf, p, i, n - 1);
    }
  }

  /** parse_hexfile: the text line by line; nothing when any line is refused. */
  method ParseHexfile(text: seq<string>, maxlines: nat) returns (h: HexData?)
    ensures h == null <==> ParseFile(text, maxlines).Failed?
    ensures h != null ==> h.State() == ParseFile(text, maxlines).hex && HexOk(h.State())
  {
    hide Append, Chomp;
    var hexdata := new HexData(maxlines);
    ghost var start := hexdata.State();
    var dosEof := false;
    for line := 0 to |text|
      invariant ParseLines(start, text, false) == ParseLines(hexdata.State(), text[line..], dosEof)
    {
      assert text[line..][1..] == text[line + 1..];
      if dosEof {
        return null;
      }
      if text[line] == DOS_EOF {
        dosEof := true;
      } else {
        var buf := Chomp(text[line]);
        if buf == "" {
          return null;
        }
        if buf[0] != '#' {
          if buf[0] != ':' {
            return null;
          }
          var ret := hexdata.AppendHexline(buf[1..]);
          if ret.Einval? || ret.Enomem? {
            return null;
          }
        }
      }
    }
    ParsedIsOk(start, text, false);
    h := hexdata;
  }
}
