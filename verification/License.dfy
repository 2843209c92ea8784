/** Astribank licence files: the eeprom table, capabilities and key as lines of text with a
    hex dump, written piece by piece and read back by a state machine over lines. */
module License {
  import opened Basics

  const EEPROM_SIZE := 16
  const LABEL_AT := 8
  const CAPS_SIZE := 12
  const KEYSIZE := 16
  const TABLE_SIZE := EEPROM_SIZE + CAPS_SIZE + KEYSIZE
  const MAX_LINE := 255
  const BYTES_PER_LINE := 16

  const BEGIN := "-----BEGIN XORCOM LICENSE BLOCK-----"
  const END := "-----END XORCOM LICENSE BLOCK-----"

  // ---------- writing ----------

  function HexChar(d: int): char
    requires 0 <= d < 16
  {
    if d < 10 then ('0' as int + d) as char else ('a' as int + d - 10) as char
  }

  function Hex2(b: Byte): (s: string)
    ensures |s| == 2
  {
    [HexChar(b / 16), HexChar(b % 16)]
  }

  function Hex(bytes: seq<Byte>): (s: string)
    ensures |s| == 2 * |bytes|
  {
    if bytes == [] then "" else Hex2(bytes[0]) + Hex(bytes[1..])
  }

  /** What bin_to_file prints for `bytes` when `onLine` bytes are on the line already. */
  function Printed(onLine: nat, bytes: seq<Byte>): string
    requires onLine < BYTES_PER_LINE
    decreases |bytes|
  {
    if bytes == [] then ""
    else if onLine + 1 == BYTES_PER_LINE then Hex2(bytes[0]) + "\n" + Printed(0, bytes[1..])
    else Hex2(bytes[0]) + Printed(onLine + 1, bytes[1..])
  }

  function OnLine(onLine: nat, n: nat): (k: nat)
    ensures k < BYTES_PER_LINE
  {
    (onLine + n) % BYTES_PER_LINE
  }

  /** The dump of all the bytes: sixteen to a line, and a last shorter line if there are some left. */
  function Dump(bytes: seq<Byte>): string
    decreases |bytes|
  {
    if bytes == [] then ""
    else if |bytes| <= BYTES_PER_LINE then Hex(bytes) + "\n"
    else Hex(bytes[..BYTES_PER_LINE]) + "\n" + Dump(bytes[BYTES_PER_LINE..])
  }

  lemma {:induction false} Assoc(a: string, b: string, c: string)
    ensures a + b + c == a + (b + c)
  {
  }

  function NextOnLine(onLine: nat): nat {
    if onLine + 1 == BYTES_PER_LINE then 0 else onLine + 1
  }

  function OneByte(onLine: nat, b: Byte): string {
    if onLine + 1 == BYTES_PER_LINE then Hex2(b) + "\n" else Hex2(b)
  }

  lemma {:induction false} PrintedTurn(onLine: nat, bytes: seq<Byte>)
    requires onLine < BYTES_PER_LINE && bytes != []
    ensures Printed(onLine, bytes) == OneByte(onLine, bytes[0]) + Printed(NextOnLine(onLine), bytes[1..])
  {
  }

  lemma {:induction false} OnLineTurn(onLine: nat, n: nat)
    requires onLine < BYTES_PER_LINE
    ensures OnLine(onLine, n + 1) == OnLine(NextOnLine(onLine), n) && OnLine(onLine, 0) == onLine
    ensures OnLine(onLine, n + BYTES_PER_LINE) == OnLine(onLine, n)
  {
    OneLineMore(onLine + n);
    OneLineMore(n);
  }

  lemma {:induction false} OneLineMore(n: nat)
    ensures (n + BYTES_PER_LINE) % BYTES_PER_LINE == n % BYTES_PER_LINE
  {
    assert (n + BYTES_PER_LINE) / BYTES_PER_LINE == n / BYTES_PER_LINE + 1;
  }

  lemma {:induction false} NextOnLineIs(k: nat)
    ensures (k + 1) % BYTES_PER_LINE == NextOnLine(k % BYTES_PER_LINE)
  {
    assert k == k / BYTES_PER_LINE * BYTES_PER_LINE + k % BYTES_PER_LINE;
  }

  lemma {:induction false} ShortOnLine(n: nat)
    requires n < BYTES_PER_LINE
    ensures OnLine(0, n) == n
  {
  }

  /** Printing in two pieces is printing at once. */
  lemma {:induction false} PrintedInPieces(onLine: nat, a: seq<Byte>, b: seq<Byte>)
    requires onLine < BYTES_PER_LINE
    ensures Printed(onLine, a + b) == Printed(onLine, a) + Printed(OnLine(onLine, |a|), b)
    decreases |a|
  {
    if a == [] {
      OnLineTurn(onLine, 0);
      assert a + b == b;
      assert "" + Printed(onLine, b) == Printed(onLine, b);
    } else {
      PrintedTurn(onLine, a + b);
      PrintedTurn(onLine, a);
      OnLineTurn(onLine, |a| - 1);
      hide Printed, OnLine, OneByte;
      assert (a + b)[1..] == a[1..] + b;
      PrintedInPieces(NextOnLine(onLine), a[1..], b);
      Assoc(OneByte(onLine, a[0]), Printed(NextOnLine(onLine), a[1..]), Printed(OnLine(onLine, |a|), b));
    }
  }

  /** Less than a line. */
  lemma {:induction false} PrintedShort(onLine: nat, bytes: seq<Byte>)
    requires onLine + |bytes| < BYTES_PER_LINE
    ensures Printed(onLine, bytes) == Hex(bytes)
    decreases |bytes|
  {
    if bytes != [] {
      PrintedShort(onLine + 1, bytes[1..]);
    }
  }

  lemma {:induction false} HexSnoc(bytes: seq<Byte>, b: Byte)
    ensures Hex(bytes + [b]) == Hex(bytes) + Hex2(b)
    decreases |bytes|
  {
    if bytes == [] {
      assert [b][1..] == [];
      assert Hex2(b) + "" == "" + Hex2(b);
    } else {
      assert (bytes + [b])[1..] == bytes[1..] + [b];
      HexSnoc(bytes[1..], b);
    }
  }

  /** A full line. */
  lemma {:induction false} PrintedLine(bytes: seq<Byte>)
    requires |bytes| == BYTES_PER_LINE
    ensures Printed(0, bytes) == Hex(bytes) + "\n"
  {
    var init, last := bytes[..BYTES_PER_LINE - 1], bytes[BYTES_PER_LINE - 1];
    assert bytes == init + [last];
    ShortOnLine(|init|);
    hide Printed, OnLine, Hex, Hex2;
    PrintedInPieces(0, init, [last]);
    PrintedShort(0, init);
    HexSnoc(init, last);
    LastOfLine(last);
    Assoc(Hex(init), Hex2(last), "\n");
  }

  lemma {:induction false} LastOfLine(b: Byte)
    ensures Printed(BYTES_PER_LINE - 1, [b]) == Hex2(b) + "\n"
  {
    assert [b][1..] == [];
    assert Hex2(b) + "\n" + "" == Hex2(b) + "\n";
  }

  /** Whatever the pieces, printing them and then flushing gives the dump of all the bytes. */
  lemma {:induction false} PrintedIsDump(bytes: seq<Byte>)
    ensures Printed(0, bytes) + (if OnLine(0, |bytes|) != 0 then "\n" else "") == Dump(bytes)
    decreases |bytes|
  {
    if bytes == [] {
    } else if |bytes| < BYTES_PER_LINE {
      PrintedShort(0, bytes);
    } else if |bytes| == BYTES_PER_LINE {
      PrintedLine(bytes);
      assert Hex(bytes) + "\n" + "" == Hex(bytes) + "\n";
    } else {
      var a, b := bytes[..BYTES_PER_LINE], bytes[BYTES_PER_LINE..];
      assert bytes == a + b;
      PrintedInPieces(0, a, b);
      PrintedLine(a);
      PrintedIsDump(b);
      OnLineTurn(0, |b|);
      OnLineTurn(0, 0);
      hide Printed, OnLine, Hex;
      Assoc(Hex(a) + "\n", Printed(0, b), if OnLine(0, |b|) != 0 then "\n" else "");
    }
  }

  function Dec(n: nat): string
    decreases n
  {
    if n < 10 then [('0' as int + n) as char] else Dec(n / 10) + [('0' as int + n % 10) as char]
  }

  /** The label: the bytes before the first zero. */
  function LabelFrom(eeprom: seq<Byte>, i: nat): (s: string)
    requires |eeprom| == EEPROM_SIZE && i <= EEPROM_SIZE
    ensures |s| <= EEPROM_SIZE - i
    decreases EEPROM_SIZE - i
  {
    if i == EEPROM_SIZE || eeprom[i] == 0 then "" else [eeprom[i] as char] + LabelFrom(eeprom, i + 1)
  }

  function Label(eeprom: seq<Byte>): string
    requires |eeprom| == EEPROM_SIZE
  {
    LabelFrom(eeprom, LABEL_AT)
  }

  function Timestamp(caps: seq<Byte>): nat
    requires |caps| == CAPS_SIZE
  {
    var (b0: int, b1: int, b2: int, b3: int) := (caps[8], caps[9], caps[10], caps[11]);
    b0 + 256 * b1 + 65536 * b2 + 16777216 * b3
  }

  function Field(name: string, value: string): string {
    name + ": " + value
  }

  /** The lines before the dump. */
  function Line(eeprom: seq<Byte>, caps: seq<Byte>, i: nat): string
    requires |eeprom| == EEPROM_SIZE && |caps| == CAPS_SIZE && i < 10
  {
    match i
    case 0 => BEGIN
    case 1 => "Version: 1.0"
    case 2 => Field("Timestamp", Dec(Timestamp(caps)))
    case 3 => Field("Serial", Label(eeprom))
    case 4 => Field("Capabilities.Port.FXS", Dec(caps[0]))
    case 5 => Field("Capabilities.Port.FXO", Dec(caps[1]))
    case 6 => Field("Capabilities.Port.BRI", Dec(caps[2]))
    case 7 => Field("Capabilities.Port.PRI", Dec(caps[3]))
    case 8 => Field("Capabilities.Twinstar", Dec(caps[4] % 2))
    case _ => "Data:"
  }

  /** A file from line `i` on, with the given bytes dumped. */
  function FileWith(eeprom: seq<Byte>, caps: seq<Byte>, dumped: seq<Byte>, i: nat): string
    requires |eeprom| == EEPROM_SIZE && |caps| == CAPS_SIZE && i <= 10
    decreases 10 - i
  {
    if i == 10 then Dump(dumped) + (END + "\n")
    else Line(eeprom, caps, i) + "\n" + FileWith(eeprom, caps, dumped, i + 1)
  }

  /** The file of write_to_file from line `i` on. */
  function From(eeprom: seq<Byte>, caps: seq<Byte>, key: seq<Byte>, i: nat): string
    requires |eeprom| == EEPROM_SIZE && |caps| == CAPS_SIZE && i <= 10
  {
    FileWith(eeprom, caps, eeprom + caps + key, i)
  }

  // ---------- reading ----------

  function TrimStart(s: string): (t: string)
    ensures |t| <= |s| && (t != "" ==> !Space(t[0]))
  {
    if s != "" && Space(s[0]) then TrimStart(s[1..]) else s
  }

  /** trim: without white space at either end; "" stands for the null pointer. */
  function Trim(s: string): string {
    TrimStart(Chomp(s))
  }

  /** The place of the first `c`, or the length. */
  function Find(s: string, c: char): (k: nat)
    ensures k <= |s| && c !in s[..k] && (k < |s| ==> s[k] == c)
  {
    if s == "" || s[0] == c then 0 else 1 + Find(s[1..], c)
  }

  function HexValue(c: char): (v: int)
    ensures -1 <= v < 16
  {
    if '0' <= c <= '9' then c as int - '0' as int else if 'a' <= c <= 'f' then c as int - 'a' as int + 10 else -1
  }

  /** The reader between two lines; `offset` counts the data bytes since the program started. */
  datatype Reader = Broken | Reader(state: nat, table: seq<Byte>, offset: nat)

  /** str_to_bin on a line of even length. */
  function Bin(line: string, table: seq<Byte>, offset: nat): Reader
    decreases |line|
  {
    if line == "" then Reader(3, table, offset)
    else if offset >= |table| || HexValue(line[0]) < 0 || |line| < 2 || HexValue(line[1]) < 0 then Broken
    else Bin(line[2..], table[offset := 16 * HexValue(line[0]) + HexValue(line[1])], offset + 1)
  }

  /** The key of a "key: value" line; "" when there is none. */
  function Key(line: string): string {
    if Find(line, ':') == |line| then "" else Trim(line[..Find(line, ':')])
  }

  function Value(line: string): string {
    if Find(line, ':') == |line| then "" else Trim(line[Find(line, ':') + 1..])
  }

  /** One line, trimmed, in the reader's state. A blank line, or one without a key, makes the
      program follow a null pointer: the reader breaks. */
  function Step(r: Reader, line: string): Reader {
    if r.Broken? || line == "" then Broken
    else if r.state == 0 then if line == BEGIN then r.(state := 1) else Broken
    else if r.state == 1 then if Key(line) == "Version" && Value(line) == "1.0" then r.(state := 2) else Broken
    else if r.state == 2 then
      if Key(line) == "" then Broken else if Key(line) == "Data" then r.(state := 3) else r
    else if r.state == 3 then
      if line == END then r.(state := 4)
      else if |line| % 2 != 0 then Broken
      else Bin(line, r.table, r.offset)
    else Broken
  }

  /** How much fgets takes: up to and with the newline, at most 255 characters. */
  function Fgets(text: string): (n: nat)
    requires text != ""
    ensures 0 < n <= |text|
  {
    var k := Find(text, '\n');
    var n := if k < |text| then k + 1 else k;
    if n > MAX_LINE then MAX_LINE else n
  }

  function ReadAll(r: Reader, text: string): Reader
    decreases |text|
  {
    if r.Broken? || text == "" then r
    else
      var n := Fgets(text);
      if text[n - 1] != '\n' then Broken else ReadAll(Step(r, Trim(text[..n])), text[n..])
  }

  datatype Outcome = Failed | Loaded(table: seq<Byte>)

  /** read_from_file, `offset` being what an earlier call has left behind. */
  function ReadFile(offset: nat, text: string): Outcome {
    var r := ReadAll(Reader(0, seq(TABLE_SIZE, i => 0), offset), text);
    if r.Broken? || r.state != 4 then Failed else Loaded(r.table)
  }

  // ---------- lines ----------

  lemma {:induction false} FindIn(a: string, c: char, b: string)
    requires c !in a
    ensures Find(a + [c] + b, c) == |a|
    decreases |a|
  {
    if a == "" {
      assert a + [c] + b == [c] + b;
    } else {
      assert (a + [c] + b)[1..] == a[1..] + [c] + b;
      assert c !in a[1..] by {
        assert forall x :: x in a[1..] ==> x in a;
      }
      FindIn(a[1..], c, b);
    }
  }

  /** A line ends where its newline is. */
  lemma {:induction false} ReadLine(r: Reader, l: string, rest: string)
    requires r.Reader? && '\n' !in l && |l| < MAX_LINE
    ensures ReadAll(r, l + "\n" + rest) == ReadAll(Step(r, Trim(l)), rest)
  {
    var text := l + "\n" + rest;
    FindIn(l, '\n', rest);
    assert l + ['\n'] + rest == text;
    assert text[..|l| + 1] == l + "\n" && text[|l| + 1..] == rest;
    TrimNewline(l);
    hide Step, Trim;
  }

  lemma {:induction false} TrimNewline(l: string)
    ensures Trim(l + "\n") == Trim(l)
  {
    assert (l + "\n")[..|l|] == l;
  }

  lemma {:induction false} TrimNothing(s: string)
    requires s != "" && !Space(s[0]) && !Space(s[|s| - 1])
    ensures Trim(s) == s
  {
  }

  lemma {:induction false} ChompKeeps(p: string, v: string)
    requires p != "" && !Space(p[|p| - 1])
    ensures p <= Chomp(p + v)
    decreases |v|
  {
    if v == "" {
      assert p + v == p;
    } else if Space(v[|v| - 1]) {
      assert (p + v)[..|p + v| - 1] == p + v[..|v| - 1];
      ChompKeeps(p, v[..|v| - 1]);
    }
  }

  /** A line of the header: it has a key, and the key is not "Data". */
  predicate FieldOk(l: string) {
    Trim(l) != "" && Key(Trim(l)) != "" && Key(Trim(l)) != "Data"
  }

  lemma {:induction false} NamedKey(name: string, t: string)
    requires name != "" && ':' !in name && !Space(name[0]) && !Space(name[|name| - 1])
    requires name + ":" <= t
    ensures Key(t) == name
  {
    TrimNothing(name);
    hide Trim;
    var rest := t[|name| + 1..];
    assert t == name + [':'] + rest;
    FindIn(name, ':', rest);
    assert t[..|name|] == name;
  }

  lemma {:induction false} NamedField(name: string, value: string)
    requires name != "" && ':' !in name && !Space(name[0]) && !Space(name[|name| - 1])
    ensures Key(Trim(Field(name, value))) == name
  {
    var l, p := Field(name, value), name + ":";
    assert l == p + (" " + value);
    ChompKeeps(p, " " + value);
    var t := Chomp(l);
    NamedKey(name, t);
    hide Key, Field, Chomp, Find;
    assert t[0] == p[0] == name[0];
  }

  /** Every line of `x` is a line of the header. */
  predicate FieldsOk(x: string)
    decreases |x|
  {
    var k := Find(x, '\n');
    FieldOk(x[..k]) && (k < |x| ==> FieldsOk(x[k + 1..]))
  }

  lemma {:induction false} FieldsOkTurn(x: string)
    ensures var k := Find(x, '\n');
      FieldsOk(x) <==> FieldOk(x[..k]) && (k < |x| ==> FieldsOk(x[k + 1..]))
  {
    hide FieldOk, Find;
  }

  lemma {:induction false} FieldStep(r: Reader, l: string)
    requires r.Reader? && r.state == 2 && FieldOk(l)
    ensures Step(r, Trim(l)) == r
  {
    hide Trim, Key;
  }

  lemma {:induction false} FieldsRead(r: Reader, x: string, rest: string)
    requires r.Reader? && r.state == 2 && |x| < MAX_LINE && FieldsOk(x)
    ensures ReadAll(r, x + "\n" + rest) == ReadAll(r, rest)
    decreases |x|
  {
    hide Trim, Step, FieldOk, FieldsOk, ReadAll;
    var k := Find(x, '\n');
    var l := x[..k];
    FieldsOkTurn(x);
    FieldStep(r, l);
    if k == |x| {
      assert l == x;
      ReadLine(r, x, rest);
    } else {
      var y := x[k + 1..];
      assert x + "\n" + rest == l + "\n" + (y + "\n" + rest);
      ReadLine(r, l, y + "\n" + rest);
      FieldsRead(r, y, rest);
    }
  }

  /** Once the data has begun, or the end line was seen, a line that starts with a capital letter breaks the reader. */
  lemma {:induction false} CapitalBreaks(r: Reader, l: string)
    requires r.Reader? && r.state >= 3 && l != "" && 'A' <= l[0] <= 'Z'
    ensures Step(r, Trim(l)) == Broken
  {
    ChompKeeps([l[0]], l[1..]);
    assert l == [l[0]] + l[1..];
    assert Trim(l) != "" && Trim(l)[0] == l[0];
    assert END[0] == '-';
  }

  lemma {:induction false} BinStays(line: string, table: seq<Byte>, offset: nat)
    ensures Bin(line, table, offset).Reader? ==> Bin(line, table, offset).state == 3
    decreases |line|
  {
    if line != "" && offset < |table| && HexValue(line[0]) >= 0 && |line| >= 2 && HexValue(line[1]) >= 0 {
      BinStays(line[2..], table[offset := 16 * HexValue(line[0]) + HexValue(line[1])], offset + 1);
    }
  }

  lemma {:induction false} StepPastData(r: Reader, line: string)
    requires r.Reader? && r.state >= 3
    ensures Step(r, line).Reader? ==> Step(r, line).state >= 3
  {
    if r.state == 3 {
      BinStays(line, r.table, r.offset);
    }
  }

  /** Whatever lines come between, the reader does not survive a capital letter after the data line. */
  lemma {:induction false} PastDataBreaks(r: Reader, x: string, l: string, rest: string)
    requires r.Reader? && r.state >= 3 && |x| < MAX_LINE
    requires l != "" && 'A' <= l[0] <= 'Z' && '\n' !in l && |l| < MAX_LINE
    ensures ReadAll(r, x + "\n" + (l + "\n" + rest)) == Broken
    decreases |x|
  {
    var k := Find(x, '\n');
    var a, tail := x[..k], l + "\n" + rest;
    hide Trim, Step;
    StepPastData(r, Trim(a));
    var r' := Step(r, Trim(a));
    if k == |x| {
      assert a == x;
      ReadLine(r, x, tail);
      if r'.Reader? {
        ReadLine(r', l, rest);
        CapitalBreaks(r', l);
      }
    } else {
      var y := x[k + 1..];
      assert x + "\n" + tail == a + "\n" + (y + "\n" + tail);
      ReadLine(r, a, y + "\n" + tail);
      if r'.Reader? {
        PastDataBreaks(r', y, l, rest);
      }
    }
  }

  lemma {:induction false} BadFieldStep(r: Reader, l: string)
    requires r.Reader? && r.state == 2
    ensures !FieldOk(l) && Step(r, Trim(l)).Reader? ==> Step(r, Trim(l)).state == 3
  {
    hide Trim, Key, Value;
  }

  /** A line that is no header line, among the header lines, breaks the reader in the end. */
  lemma {:induction false} BadFieldsBreak(r: Reader, x: string, l: string, rest: string)
    requires r.Reader? && r.state == 2 && |x| < MAX_LINE && !FieldsOk(x)
    requires l != "" && 'A' <= l[0] <= 'Z' && '\n' !in l && |l| < MAX_LINE
    ensures ReadAll(r, x + "\n" + (l + "\n" + rest)) == Broken
    decreases |x|
  {
    var k := Find(x, '\n');
    var a, tail := x[..k], l + "\n" + rest;
    FieldsOkTurn(x);
    BadFieldStep(r, a);
    hide Trim, Step, FieldOk, FieldsOk, ReadAll;
    var r' := Step(r, Trim(a));
    if k == |x| {
      assert a == x;
      ReadLine(r, x, tail);
      if r'.Reader? {
        ReadLine(r', l, rest);
        CapitalBreaks(r', l);
      }
    } else {
      var y := x[k + 1..];
      assert x + "\n" + tail == a + "\n" + (y + "\n" + tail);
      ReadLine(r, a, y + "\n" + tail);
      if FieldOk(a) {
        FieldStep(r, a);
        BadFieldsBreak(r, y, l, rest);
      } else if r'.Reader? {
        PastDataBreaks(r', y, l, rest);
      }
    }
  }

  // ---------- the data ----------

  lemma {:induction false} HexBack(b: Byte)
    ensures HexValue(Hex2(b)[0]) == b / 16 && HexValue(Hex2(b)[1]) == b % 16
    ensures 16 * HexValue(Hex2(b)[0]) + HexValue(Hex2(b)[1]) == b
  {
  }

  /** The table with `bytes` put in from `offset` on. */
  function Filled(table: seq<Byte>, offset: nat, bytes: seq<Byte>): (t: seq<Byte>)
    requires offset + |bytes| <= |table|
    ensures |t| == |table|
  {
    table[..offset] + bytes + table[offset + |bytes|..]
  }

  lemma {:induction false} FilledOneMore(table: seq<Byte>, offset: nat, bytes: seq<Byte>)
    requires bytes != [] && offset + |bytes| <= |table|
    ensures Filled(table[offset := bytes[0]], offset + 1, bytes[1..]) == Filled(table, offset, bytes)
  {
  }

  lemma {:induction false} BinTurn(bytes: seq<Byte>, table: seq<Byte>, offset: nat)
    requires bytes != [] && offset < |table|
    ensures Bin(Hex(bytes), table, offset) == Bin(Hex(bytes[1..]), table[offset := bytes[0]], offset + 1)
  {
    HexBack(bytes[0]);
    assert Hex(bytes)[2..] == Hex(bytes[1..]);
  }

  lemma {:induction false} HexReads(bytes: seq<Byte>, table: seq<Byte>, offset: nat)
    requires offset + |bytes| <= |table|
    ensures Bin(Hex(bytes), table, offset) == Reader(3, Filled(table, offset, bytes), offset + |bytes|)
    decreases |bytes|
  {
    if bytes == [] {
      assert Filled(table, offset, bytes) == table;
    } else {
      BinTurn(bytes, table, offset);
      FilledOneMore(table, offset, bytes);
      hide Bin, Hex, Filled;
      HexReads(bytes[1..], table[offset := bytes[0]], offset + 1);
    }
  }

  lemma {:induction false} HexIsClean(bytes: seq<Byte>)
    ensures forall k :: 0 <= k < |Hex(bytes)| ==> '0' <= Hex(bytes)[k] <= 'f'
    decreases |bytes|
  {
    if bytes != [] {
      HexIsClean(bytes[1..]);
    }
  }

  /** A dump line is read as data. */
  lemma {:induction false} DumpLine(r: Reader, bytes: seq<Byte>, rest: string)
    requires r.Reader? && r.state == 3 && 0 < |bytes| <= BYTES_PER_LINE && r.offset + |bytes| <= |r.table|
    ensures (ReadAll(r, Hex(bytes) + "\n" + rest) ==
      ReadAll(Reader(3, Filled(r.table, r.offset, bytes), r.offset + |bytes|), rest))
  {
    hide Hex, Step, Trim, ReadAll;
    HexIsClean(bytes);
    DumpStep(r, bytes);
    ReadLine(r, Hex(bytes), rest);
  }

  lemma {:induction false} DumpStep(r: Reader, bytes: seq<Byte>)
    requires r.Reader? && r.state == 3 && bytes != [] && r.offset + |bytes| <= |r.table|
    ensures Step(r, Trim(Hex(bytes))) == Reader(3, Filled(r.table, r.offset, bytes), r.offset + |bytes|)
  {
    hide Hex, Bin, Trim, Step, Filled;
    var h := Hex(bytes);
    HexEnds(bytes);
    TrimNothing(h);
    HexReads(bytes, r.table, r.offset);
    StepData(r, h);
  }

  lemma {:induction false} StepData(r: Reader, line: string)
    requires r.Reader? && r.state == 3 && line != "" && line != END && |line| % 2 == 0
    ensures Step(r, line) == Bin(line, r.table, r.offset)
  {
    hide Bin, Key, Value;
  }

  lemma {:induction false} HexEnds(bytes: seq<Byte>)
    requires bytes != []
    ensures var h := Hex(bytes);
      h != END && |h| % 2 == 0 && !Space(h[0]) && !Space(h[|h| - 1])
  {
    var h := Hex(bytes);
    HexIsClean(bytes);
    hide Hex;
    assert '0' <= h[0] <= 'f' && '0' <= h[|h| - 1] <= 'f' && END[0] == '-';
  }

  lemma {:induction false} DumpReads(r: Reader, bytes: seq<Byte>, rest: string)
    requires r.Reader? && r.state == 3 && r.offset + |bytes| <= |r.table|
    ensures (ReadAll(r, Dump(bytes) + rest) ==
      ReadAll(Reader(3, Filled(r.table, r.offset, bytes), r.offset + |bytes|), rest))
    decreases |bytes|
  {
    hide Hex, ReadAll;
    if bytes == [] {
      assert Filled(r.table, r.offset, bytes) == r.table;
      assert "" + rest == rest;
    } else if |bytes| <= BYTES_PER_LINE {
      DumpLine(r, bytes, rest);
    } else {
      var a, b := bytes[..BYTES_PER_LINE], bytes[BYTES_PER_LINE..];
      var r' := Reader(3, Filled(r.table, r.offset, a), r.offset + |a|);
      assert Hex(a) + "\n" + Dump(b) + rest == Hex(a) + "\n" + (Dump(b) + rest);
      DumpLine(r, a, Dump(b) + rest);
      DumpReads(r', b, rest);
      assert Filled(r'.table, r'.offset, b) == Filled(r.table, r.offset, bytes);
    }
  }

  lemma {:induction false} EndRead(r: Reader)
    requires r.Reader? && r.state == 3
    ensures ReadAll(r, END + "\n") == r.(state := 4)
  {
    assert '\n' !in END && |END| == 34 && END[0] == '-' && END[33] == '-';
    TrimNothing(END);
    assert END + "\n" + "" == END + "\n";
    ReadLine(r, END, "");
  }

  // ---------- the whole file ----------

  lemma {:induction false} DecIsShort(n: nat, digits: nat)
    requires digits > 0 && n < Pow10(digits)
    ensures 0 < |Dec(n)| <= digits && '\n' !in Dec(n)
    decreases digits
  {
    if n >= 10 {
      DecIsShort(n / 10, digits - 1);
    }
  }

  function Pow10(k: nat): nat {
    if k == 0 then 1 else 10 * Pow10(k - 1)
  }

  lemma {:induction false} LabelIsClean(eeprom: seq<Byte>, i: nat)
    requires |eeprom| == EEPROM_SIZE && i <= EEPROM_SIZE
    ensures '\n' in LabelFrom(eeprom, i) ==> exists k :: i <= k < EEPROM_SIZE && eeprom[k] == 10
    decreases EEPROM_SIZE - i
  {
    if i < EEPROM_SIZE && eeprom[i] != 0 {
      LabelIsClean(eeprom, i + 1);
    }
  }

  /** A named line without a newline in its value is a line of the header. */
  lemma {:induction false} PlainField(name: string, value: string)
    requires name != "" && ':' !in name && !Space(name[0]) && !Space(name[|name| - 1])
    requires '\n' !in name && '\n' !in value && name != "Data"
    ensures FieldsOk(Field(name, value)) && '\n' !in Field(name, value)
  {
    var l := Field(name, value);
    assert '\n' !in l;
    assert Find(l, '\n') == |l|;
    assert l[..|l|] == l;
    NamedField(name, value);
    NoEmptyKey();
  }

  lemma {:induction false} NoEmptyKey()
    ensures Key("") == ""
  {
  }

  lemma {:induction false} Powers()
    ensures Pow10(3) == 1000 && Pow10(10) == 10000000000
  {
    assert Pow10(5) == 100000;
    assert Pow10(8) == 100000000;
  }

  /** A name that starts a header line. */
  predicate NameOk(name: string) {
    && name != "" && |name| < 30 && 'A' <= name[0] <= 'Z' && !Space(name[|name| - 1])
    && ':' !in name && '\n' !in name && name != "Data"
  }

  ghost predicate HeaderOk(l: string) {
    FieldsOk(l) && '\n' !in l && |l| < MAX_LINE && l != "" && 'A' <= l[0] <= 'Z'
  }

  lemma {:induction false} NumberField(name: string, n: nat, digits: nat)
    requires NameOk(name) && 0 < digits <= 10 && n < Pow10(digits)
    ensures HeaderOk(Field(name, Dec(n)))
  {
    DecIsShort(n, digits);
    hide FieldsOk, Dec, Pow10;
    PlainField(name, Dec(n));
  }

  /** Every header line but the serial is as it should be. */
  lemma {:induction false} HeaderLine(eeprom: seq<Byte>, caps: seq<Byte>, i: nat)
    requires |eeprom| == EEPROM_SIZE && |caps| == CAPS_SIZE && 2 <= i < 9 && i != 3
    ensures HeaderOk(Line(eeprom, caps, i))
  {
    hide HeaderOk, Dec, Field, Pow10;
    Powers();
    match i {
      case 2 => NumberField("Timestamp", Timestamp(caps), 10);
      case 4 => NumberField("Capabilities.Port.FXS", caps[0], 3);
      case 5 => NumberField("Capabilities.Port.FXO", caps[1], 3);
      case 6 => NumberField("Capabilities.Port.BRI", caps[2], 3);
      case 7 => NumberField("Capabilities.Port.PRI", caps[3], 3);
      case _ => NumberField("Capabilities.Twinstar", caps[4] % 2, 3);
    }
  }

  /** From line `i` of the header on, up to the dump. */
  lemma {:induction false} HeaderReads(r: Reader, eeprom: seq<Byte>, caps: seq<Byte>, dumped: seq<Byte>, i: nat)
    requires |eeprom| == EEPROM_SIZE && |caps| == CAPS_SIZE && 4 <= i <= 9 && r.Reader? && r.state == 2
    ensures ReadAll(r, FileWith(eeprom, caps, dumped, i)) == ReadAll(r, FileWith(eeprom, caps, dumped, 9))
    decreases 9 - i
  {
    if i < 9 {
      FileTurn(eeprom, caps, dumped, i);
      hide FileWith, Line, ReadAll, FieldsOk;
      HeaderLine(eeprom, caps, i);
      FieldsRead(r, Line(eeprom, caps, i), FileWith(eeprom, caps, dumped, i + 1));
      HeaderReads(r, eeprom, caps, dumped, i + 1);
    }
  }

  lemma {:induction false} FileTurn(eeprom: seq<Byte>, caps: seq<Byte>, dumped: seq<Byte>, i: nat)
    requires |eeprom| == EEPROM_SIZE && |caps| == CAPS_SIZE && i < 10
    ensures FileWith(eeprom, caps, dumped, i) == Line(eeprom, caps, i) + "\n" + FileWith(eeprom, caps, dumped, i + 1)
  {
  }

  /** The first two lines and the time stamp. */
  lemma {:induction false} StartReads(r: Reader, eeprom: seq<Byte>, caps: seq<Byte>, dumped: seq<Byte>)
    requires |eeprom| == EEPROM_SIZE && |caps| == CAPS_SIZE && r.Reader? && r.state == 0
    ensures ReadAll(r, FileWith(eeprom, caps, dumped, 0)) == ReadAll(r.(state := 2), FileWith(eeprom, caps, dumped, 3))
  {
    FileTurn(eeprom, caps, dumped, 0);
    FileTurn(eeprom, caps, dumped, 1);
    FileTurn(eeprom, caps, dumped, 2);
    BeginStep(r);
    VersionStep(r.(state := 1));
    HeaderLine(eeprom, caps, 2);
    hide FileWith, ReadAll, FieldsOk, Step, Trim;
    ReadLine(r, BEGIN, FileWith(eeprom, caps, dumped, 1));
    ReadLine(r.(state := 1), "Version: 1.0", FileWith(eeprom, caps, dumped, 2));
    FieldsRead(r.(state := 2), Line(eeprom, caps, 2), FileWith(eeprom, caps, dumped, 3));
  }

  lemma {:induction false} BeginStep(r: Reader)
    requires r.Reader? && r.state == 0
    ensures Step(r, Trim(BEGIN)) == r.(state := 1) && '\n' !in BEGIN && |BEGIN| < MAX_LINE
  {
    assert BEGIN[0] == '-' && BEGIN[|BEGIN| - 1] == '-';
    TrimNothing(BEGIN);
  }

  lemma {:induction false} KeyValue(name: string, v: string)
    requires ':' !in name
    ensures Key(name + ":" + v) == Trim(name) && Value(name + ":" + v) == Trim(v)
  {
    var l := name + ":" + v;
    FindIn(name, ':', v);
    assert l == name + [':'] + v;
    assert l[..|name|] == name && l[|name| + 1..] == v;
    hide Trim;
  }

  lemma {:induction false} TrimSpace(s: string)
    requires s != "" && !Space(s[0]) && !Space(s[|s| - 1])
    ensures Trim(" " + s) == s
  {
    var l := " " + s;
    assert l[|l| - 1] == s[|s| - 1];
    assert Chomp(l) == l && l[1..] == s;
    assert TrimStart(s) == s;
  }

  // ---------- the dump, by its characters ----------

  lemma {:induction false} HexCharsAre(d: nat, c: char)
    requires d < 16
    ensures HexChar(d) == "0123456789abcdef"[d] && HexValue(HexChar(d)) == d
    ensures HexValue(c) >= 0 ==> c == "0123456789abcdef"[HexValue(c)]
  {
  }

  lemma {:induction false} DumpShifts(bytes: seq<Byte>, q: nat)
    requires |bytes| > 16
    ensures |Dump(bytes)| == 33 + |Dump(bytes[16..])|
    ensures q < |Dump(bytes[16..])| ==> Dump(bytes)[33 + q] == Dump(bytes[16..])[q]
  {
    var a, rest := Hex(bytes[..16]) + "\n", Dump(bytes[16..]);
    assert Dump(bytes) == a + rest && |a| == 33;
    hide Dump, Hex;
  }

  lemma {:induction false} FirstLine(bytes: seq<Byte>, i: nat)
    requires i < |bytes| && i < 16
    ensures var d := Dump(bytes);
      && 2 * i + 2 < |d|
      && d[2 * i] == HexChar(bytes[i] / 16) && d[2 * i + 1] == HexChar(bytes[i] % 16)
      && (i == 15 || i == |bytes| - 1 ==> d[2 * i + 2] == '\n')
  {
    hide HexChar;
    var a := if |bytes| <= 16 then bytes else bytes[..16];
    HexAt(a, i);
    var h := Hex(a) + "\n";
    assert h <= Dump(bytes);
    hide Dump, Hex;
    assert a[i] == bytes[i];
  }

  lemma {:induction false} NextLine(i: nat)
    requires i >= 16
    ensures (i - 16) / 16 == i / 16 - 1 && (i - 16) % 16 == i % 16
  {
  }

  /** Where the two digits of byte `i` are, and what ends the lines. */
  lemma {:induction false} DumpAt(bytes: seq<Byte>, i: nat)
    requires i < |bytes|
    ensures var d, p := Dump(bytes), 2 * i + i / 16;
      && p + 2 < |d|
      && d[p] == "0123456789abcdef"[bytes[i] / 16] && d[p + 1] == "0123456789abcdef"[bytes[i] % 16]
      && (i % 16 == 15 || i == |bytes| - 1 ==> d[p + 2] == '\n')
    decreases |bytes|
  {
    hide Dump, HexChar, HexValue;
    if i < 16 {
      FirstLine(bytes, i);
      HexCharsAre(bytes[i] / 16, 'x');
      HexCharsAre(bytes[i] % 16, 'x');
    } else {
      DumpAt(bytes[16..], i - 16);
      NextLine(i);
      var q := 2 * (i - 16) + (i - 16) / 16;
      DumpShifts(bytes, q);
      DumpShifts(bytes, q + 1);
      DumpShifts(bytes, q + 2);
    }
  }

  lemma {:induction false} HexAt(bytes: seq<Byte>, i: nat)
    requires i < |bytes|
    ensures Hex(bytes)[2 * i] == HexChar(bytes[i] / 16) && Hex(bytes)[2 * i + 1] == HexChar(bytes[i] % 16)
    decreases |bytes|
  {
    hide HexChar;
    if i > 0 {
      HexAt(bytes[1..], i - 1);
    }
  }

  // ---------- the header, read back ----------

  /** The value of a string of decimal digits. */
  function Number(s: string): int {
    if s == "" then 0 else 10 * Number(s[..|s| - 1]) + (s[|s| - 1] as int - '0' as int)
  }

  lemma {:induction false} DecIs(n: nat)
    ensures Number(Dec(n)) == n && Dec(n) != "" && (n > 0 ==> Dec(n)[0] != '0')
    ensures forall k :: 0 <= k < |Dec(n)| ==> '0' <= Dec(n)[k] <= '9'
    decreases n
  {
    if n >= 10 {
      DecIs(n / 10);
      assert Dec(n)[..|Dec(n)| - 1] == Dec(n / 10);
    } else {
      assert Number(Dec(n)[..0]) == 0;
    }
  }

  /** Line `l` gives the number `n` under the name `name`. */
  predicate Says(l: string, name: string, n: int) {
    Key(l) == name && Number(Value(l)) == n
  }

  lemma {:induction false} NumberReadsBack(name: string, n: nat)
    requires NameOk(name)
    ensures Says(Field(name, Dec(n)), name, n)
  {
    var v := Dec(n);
    DecIs(n);
    assert !Space(v[0]) && !Space(v[|v| - 1]);
    assert ':' !in name && !Space(name[0]) && !Space(name[|name| - 1]);
    hide Key, Value, Trim, Dec, Number, Space, NameOk;
    TrimNothing(name);
    FieldParts(name, v);
    KeyValue(name, " " + v);
    TrimSpace(v);
  }

  lemma {:induction false} FieldParts(name: string, v: string)
    ensures Field(name, v) == name + ":" + (" " + v)
  {
  }

  /** The header says, in decimal, when the licence was made, and how many ports of each kind and
      whether a second machine the capabilities allow. */
  lemma {:induction false} HeaderSays(eeprom: seq<Byte>, caps: seq<Byte>)
    requires |eeprom| == EEPROM_SIZE && |caps| == CAPS_SIZE
    ensures |caps| == 12
    ensures var (b8: int, b9: int, b10: int, b11: int) := (caps[8], caps[9], caps[10], caps[11]);
      Says(Line(eeprom, caps, 2), "Timestamp", b8 + 256 * (b9 + 256 * (b10 + 256 * b11)))
    ensures Says(Line(eeprom, caps, 4), "Capabilities.Port.FXS", caps[0])
    ensures Says(Line(eeprom, caps, 5), "Capabilities.Port.FXO", caps[1])
    ensures Says(Line(eeprom, caps, 6), "Capabilities.Port.BRI", caps[2])
    ensures Says(Line(eeprom, caps, 7), "Capabilities.Port.PRI", caps[3])
    ensures Says(Line(eeprom, caps, 8), "Capabilities.Twinstar", caps[4] % 2)
  {
    hide Says, Dec, Field;
    NumberReadsBack("Timestamp", Timestamp(caps));
    NumberReadsBack("Capabilities.Port.FXS", caps[0]);
    NumberReadsBack("Capabilities.Port.FXO", caps[1]);
    NumberReadsBack("Capabilities.Port.BRI", caps[2]);
    NumberReadsBack("Capabilities.Port.PRI", caps[3]);
    NumberReadsBack("Capabilities.Twinstar", caps[4] % 2);
  }

  /** A label is the bytes from its place on, up to a zero or the end of the table. */
  lemma {:induction false} LabelIs(eeprom: seq<Byte>, p: nat)
    requires |eeprom| == 16 && p <= 16
    ensures var s := LabelFrom(eeprom, p);
      && p + |s| <= 16 && (p + |s| < 16 ==> eeprom[p + |s|] == 0)
      && forall j :: p <= j < p + |s| ==> eeprom[j] != 0 && s[j - p] == eeprom[j] as char
    decreases 16 - p
  {
    if p < 16 && eeprom[p] != 0 {
      LabelIs(eeprom, p + 1);
      var s, t := LabelFrom(eeprom, p), LabelFrom(eeprom, p + 1);
      assert s == [eeprom[p] as char] + t;
      hide LabelFrom;
      forall j | p <= j < p + |s| ensures eeprom[j] != 0 && s[j - p] == eeprom[j] as char {
        assert j > p ==> s[j - p] == t[j - (p + 1)];
      }
    }
  }

  /** The serial number is the label in the last eight bytes of the eeprom table. */
  lemma {:induction false} SerialIs(eeprom: seq<Byte>, caps: seq<Byte>)
    requires |eeprom| == EEPROM_SIZE && |caps| == CAPS_SIZE
    ensures |eeprom| == 16 && Line(eeprom, caps, 3) == "Serial" + ": " + LabelFrom(eeprom, 8)
  {
  }

  lemma {:induction false} VersionStep(r: Reader)
    requires r.Reader? && r.state == 1
    ensures Step(r, Trim("Version: 1.0")) == r.(state := 2) && '\n' !in "Version: 1.0"
  {
    hide Key, Value, Trim;
    var l := "Version: 1.0";
    TrimNothing(l);
    TrimNothing("Version");
    TrimSpace("1.0");
    assert l == "Version" + ":" + (" " + "1.0");
    KeyValue("Version", " " + "1.0");
  }

  lemma {:induction false} DataLineReads(r: Reader, eeprom: seq<Byte>, caps: seq<Byte>, dumped: seq<Byte>)
    requires |eeprom| == EEPROM_SIZE && |caps| == CAPS_SIZE && r.Reader? && r.state == 2
    ensures ReadAll(r, FileWith(eeprom, caps, dumped, 9)) == ReadAll(r.(state := 3), Dump(dumped) + (END + "\n"))
  {
    hide ReadAll, Step, Trim, Dump;
    FileTurn(eeprom, caps, dumped, 9);
    DataStep(r);
    ReadLine(r, "Data:", FileWith(eeprom, caps, dumped, 10));
  }

  lemma {:induction false} DataReads(r: Reader, all: seq<Byte>)
    requires r.Reader? && r.state == 3 && r.offset + |all| <= |r.table|
    ensures (ReadAll(r, Dump(all) + (END + "\n")) ==
      Reader(4, Filled(r.table, r.offset, all), r.offset + |all|))
  {
    hide ReadAll, Dump, Filled;
    DumpReads(r, all, END + "\n");
    EndRead(Reader(3, Filled(r.table, r.offset, all), r.offset + |all|));
  }

  lemma {:induction false} DataStep(r: Reader)
    requires r.Reader? && r.state == 2
    ensures Step(r, Trim("Data:")) == r.(state := 3) && '\n' !in "Data:"
  {
    hide Key, Value, Trim;
    TrimNothing("Data:");
    TrimNothing("Data");
    assert "Data:" == "Data" + ":" + "";
    KeyValue("Data", "");
  }

  /** The line of the serial number does no harm: none of its lines lacks a key or has the key "Data". */
  predicate SerialOk(eeprom: seq<Byte>)
    requires |eeprom| == EEPROM_SIZE
  {
    FieldsOk(Field("Serial", Label(eeprom)))
  }

  /** From the serial number to the data line, or nowhere. */
  lemma {:induction false} SerialReads(s: Reader, eeprom: seq<Byte>, caps: seq<Byte>, dumped: seq<Byte>)
    requires |eeprom| == EEPROM_SIZE && |caps| == CAPS_SIZE && s.Reader? && s.state == 2
    ensures (ReadAll(s, FileWith(eeprom, caps, dumped, 3)) ==
      if SerialOk(eeprom) then ReadAll(s, FileWith(eeprom, caps, dumped, 9)) else Broken)
  {
    hide FileWith, ReadAll, FieldsOk, Label;
    FileTurn(eeprom, caps, dumped, 3);
    SerialLength(eeprom);
    var l, rest := Line(eeprom, caps, 3), FileWith(eeprom, caps, dumped, 4);
    if SerialOk(eeprom) {
      FieldsRead(s, l, rest);
      HeaderReads(s, eeprom, caps, dumped, 4);
    } else {
      FileTurn(eeprom, caps, dumped, 4);
      HeaderLine(eeprom, caps, 4);
      hide Field, Line;
      BadFieldsBreak(s, l, Line(eeprom, caps, 4), FileWith(eeprom, caps, dumped, 5));
    }
  }

  lemma {:induction false} HexTooLong(bytes: seq<Byte>, table: seq<Byte>, offset: nat)
    requires bytes != [] && offset + |bytes| > |table|
    ensures Bin(Hex(bytes), table, offset) == Broken
    decreases |bytes|
  {
    if offset < |table| {
      BinTurn(bytes, table, offset);
      hide Bin, Hex;
      HexTooLong(bytes[1..], table[offset := bytes[0]], offset + 1);
    }
  }

  lemma {:induction false} LineTooLong(r: Reader, bytes: seq<Byte>, rest: string)
    requires r.Reader? && r.state == 3 && 0 < |bytes| <= BYTES_PER_LINE && r.offset + |bytes| > |r.table|
    ensures ReadAll(r, Hex(bytes) + "\n" + rest) == Broken
  {
    HexTooLong(bytes, r.table, r.offset);
    HexEnds(bytes);
    HexIsClean(bytes);
    hide Hex, Trim, Step, Bin, ReadAll;
    TrimNothing(Hex(bytes));
    StepData(r, Hex(bytes));
    ReadLine(r, Hex(bytes), rest);
  }

  /** A dump with more bytes than there is room for breaks the reader. */
  lemma {:induction false} NoRoom(r: Reader, bytes: seq<Byte>, rest: string)
    requires r.Reader? && r.state == 3 && bytes != [] && r.offset + |bytes| > |r.table|
    ensures ReadAll(r, Dump(bytes) + rest) == Broken
    decreases |bytes|
  {
    hide Hex, ReadAll, Filled;
    if |bytes| <= BYTES_PER_LINE {
      LineTooLong(r, bytes, rest);
    } else {
      var a, b := bytes[..BYTES_PER_LINE], bytes[BYTES_PER_LINE..];
      assert Dump(bytes) == Hex(a) + "\n" + Dump(b);
      hide Dump;
      assert Hex(a) + "\n" + Dump(b) + rest == Hex(a) + "\n" + (Dump(b) + rest);
      if r.offset + |a| > |r.table| {
        LineTooLong(r, a, Dump(b) + rest);
      } else {
        DumpLine(r, a, Dump(b) + rest);
        NoRoom(Reader(3, Filled(r.table, r.offset, a), r.offset + |a|), b, rest);
      }
    }
  }

  /** A file with any bytes dumped: it is accepted if and only if they fit the table and the serial
      number's line does no harm, with zeros for what is missing. */
  lemma {:induction false} AnyDumpIsRead(eeprom: seq<Byte>, caps: seq<Byte>, dumped: seq<Byte>)
    requires |eeprom| == EEPROM_SIZE && |caps| == CAPS_SIZE
    ensures ReadFile(0, FileWith(eeprom, caps, dumped, 0)) ==
      if SerialOk(eeprom) && |dumped| <= TABLE_SIZE then Loaded(dumped + seq(TABLE_SIZE - |dumped|, i => 0)) else Failed
  {
    hide FileWith, ReadAll, SerialOk, Dump;
    var r := Reader(0, seq(TABLE_SIZE, i => 0), 0);
    var s := r.(state := 2);
    StartReads(r, eeprom, caps, dumped);
    SerialReads(s, eeprom, caps, dumped);
    DataLineReads(s, eeprom, caps, dumped);
    if |dumped| <= TABLE_SIZE {
      DataReads(s.(state := 3), dumped);
      assert Filled(r.table, 0, dumped) == dumped + seq(TABLE_SIZE - |dumped|, i => 0);
    } else {
      NoRoom(s.(state := 3), dumped, END + "\n");
    }
  }

  /** Reading a written file in a fresh program gives back exactly what was written, if and
      only if the serial number's line does no harm. */
  lemma {:induction false} WrittenIsRead(eeprom: seq<Byte>, caps: seq<Byte>, key: seq<Byte>)
    requires |eeprom| == EEPROM_SIZE && |caps| == CAPS_SIZE && |key| == KEYSIZE
    ensures (ReadFile(0, From(eeprom, caps, key, 0)) ==
      if SerialOk(eeprom) then Loaded(eeprom + caps + key) else Failed)
  {
    hide FileWith, ReadFile, SerialOk;
    var all := eeprom + caps + key;
    AnyDumpIsRead(eeprom, caps, all);
    assert all + seq(0, i => 0) == all;
  }

  lemma {:induction false} SerialLength(eeprom: seq<Byte>)
    requires |eeprom| == EEPROM_SIZE
    ensures |Field("Serial", Label(eeprom))| < MAX_LINE
  {
  }

  /** So it is for every label without a newline. */
  lemma {:induction false} PlainLabelIsOk(eeprom: seq<Byte>)
    requires |eeprom| == EEPROM_SIZE && forall k :: LABEL_AT <= k < EEPROM_SIZE ==> eeprom[k] != 10
    ensures SerialOk(eeprom)
  {
    LabelIsClean(eeprom, LABEL_AT);
    PlainField("Serial", Label(eeprom));
  }

  /** A written file cut off at any place of its dump loads the part that is left, padded with zeros. */
  lemma {:induction false} TruncatedIsPadded(eeprom: seq<Byte>, caps: seq<Byte>, key: seq<Byte>, n: nat)
    requires |eeprom| == EEPROM_SIZE && |caps| == CAPS_SIZE && |key| == KEYSIZE && n <= TABLE_SIZE && SerialOk(eeprom)
    ensures ReadFile(0, FileWith(eeprom, caps, (eeprom + caps + key)[..n], 0)) ==
      Loaded((eeprom + caps + key)[..n] + seq(TABLE_SIZE - n, i => 0))
  {
    hide FileWith, ReadFile, SerialOk;
    AnyDumpIsRead(eeprom, caps, (eeprom + caps + key)[..n]);
  }

  /** The offset into the table is never set back, so a second reading in the same program fails. */
  lemma {:induction false} SecondReadingFails(offset: nat, eeprom: seq<Byte>, caps: seq<Byte>, key: seq<Byte>)
    requires |eeprom| == EEPROM_SIZE && |caps| == CAPS_SIZE && |key| == KEYSIZE && offset >= TABLE_SIZE
    ensures ReadFile(offset, From(eeprom, caps, key, 0)) == Failed
  {
    hide FileWith, ReadAll, SerialOk, Dump;
    var r := Reader(0, seq(TABLE_SIZE, i => 0), offset);
    var s := r.(state := 2);
    StartReads(r, eeprom, caps, eeprom + caps + key);
    SerialReads(s, eeprom, caps, eeprom + caps + key);
    DataLineReads(s, eeprom, caps, eeprom + caps + key);
    NoRoom(s.(state := 3), eeprom + caps + key, END + "\n");
  }

  /** Reading a good file leaves the offset at the end of the table; the program reads only once. */
  lemma {:induction false} ReadingTwiceFails(eeprom: seq<Byte>, caps: seq<Byte>, key: seq<Byte>,
      eeprom2: seq<Byte>, caps2: seq<Byte>, key2: seq<Byte>)
    requires |eeprom| == |eeprom2| == EEPROM_SIZE && |caps| == |caps2| == CAPS_SIZE && |key| == |key2| == KEYSIZE
    requires SerialOk(eeprom)
    ensures var r := ReadAll(Reader(0, seq(TABLE_SIZE, i => 0), 0), From(eeprom, caps, key, 0));
      r.Reader? && r.offset == TABLE_SIZE && ReadFile(r.offset, From(eeprom2, caps2, key2, 0)) == Failed
  {
    hide FileWith, ReadAll, SerialOk, Dump, ReadFile;
    var r := Reader(0, seq(TABLE_SIZE, i => 0), 0);
    var s := r.(state := 2);
    StartReads(r, eeprom, caps, eeprom + caps + key);
    SerialReads(s, eeprom, caps, eeprom + caps + key);
    DataLineReads(s, eeprom, caps, eeprom + caps + key);
    DataReads(s.(state := 3), eeprom + caps + key);
    SecondReadingFails(TABLE_SIZE, eeprom2, caps2, key2);
  }

  // ---------- the program ----------

  lemma {:induction false} OnLineNext(onLine: nat)
    requires onLine < BYTES_PER_LINE
    ensures OnLine(onLine, 0) == onLine
  {
  }

  lemma {:induction false} PrintMore(onLine: nat, buf: seq<Byte>, i: nat)
    requires onLine < BYTES_PER_LINE && i < |buf|
    ensures Printed(onLine, buf[..i + 1]) == Printed(onLine, buf[..i]) + OneByte(OnLine(onLine, i), buf[i])
    ensures OnLine(onLine, i + 1) == NextOnLine(OnLine(onLine, i))
  {
    NextOnLineIs(onLine + i);
    assert OnLine(onLine, i + 1) == NextOnLine(OnLine(onLine, i));
    hide Printed, OnLine, NextOnLine, OneByte;
    assert buf[..i + 1] == buf[..i] + [buf[i]] && [buf[i]][1..] == [];
    PrintedInPieces(onLine, buf[..i], [buf[i]]);
    PrintedTurn(OnLine(onLine, i), [buf[i]]);
    PrintedNothing(NextOnLine(OnLine(onLine, i)));
  }

  lemma {:induction false} PrintedNothing(onLine: nat)
    requires onLine < BYTES_PER_LINE
    ensures Printed(onLine, []) == ""
  {
  }

  lemma {:induction false} BinStep(line: string, table: seq<Byte>, offset: nat)
    ensures line == "" ==> Bin(line, table, offset) == Reader(3, table, offset)
    ensures (line != "" && offset < |table| && |line| >= 2 && HexValue(line[0]) >= 0 && HexValue(line[1]) >= 0 ==>
      Bin(line, table, offset) ==
        Bin(line[2..], table[offset := 16 * HexValue(line[0]) + HexValue(line[1])], offset + 1))
    ensures (line != "" && (offset >= |table| || |line| < 2 || HexValue(line[0]) < 0 || HexValue(line[1]) < 0) ==>
      Bin(line, table, offset) == Broken)
  {
  }

  /** trim. */
  method TrimLine(s: string) returns (t: string)
    ensures t == Trim(s)
  {
    t := s;
    while t != "" && Space(t[|t| - 1])
      invariant Chomp(t) == Chomp(s)
      decreases |t|
    {
      t := t[..|t| - 1];
    }
    while t != "" && Space(t[0])
      invariant TrimStart(t) == Trim(s)
      decreases |t|
    {
      t := t[1..];
    }
  }

  /** One run of the program, with the two variables that outlive a call. */
  class Program {
    var bytesOnLine: nat
    var offset: nat
    var out: string

    constructor ()
      ensures bytesOnLine == 0 && offset == 0 && out == ""
    {
      bytesOnLine, offset, out := 0, 0, "";
    }

    /** bin_to_file with a buffer. */
    method BinToFile(buf: seq<Byte>)
      requires bytesOnLine < BYTES_PER_LINE
      modifies this
      ensures bytesOnLine == OnLine(old(bytesOnLine), |buf|) && offset == old(offset)
      ensures out == old(out) + Printed(old(bytesOnLine), buf)
    {
      ghost var k0, before := bytesOnLine, out;
      OnLineNext(bytesOnLine);
      assert before + "" == before && buf[..0] == [];
      for i := 0 to |buf|
        invariant bytesOnLine == OnLine(k0, i) && offset == old(offset)
        invariant out == before + Printed(k0, buf[..i])
      {
        PrintMore(k0, buf, i);
        Assoc(before, Printed(k0, buf[..i]), OneByte(bytesOnLine, buf[i]));
        hide Printed, OnLine;
        Assoc(out, Hex2(buf[i]), "\n");
        out := out + Hex2(buf[i]);
        bytesOnLine := bytesOnLine + 1;
        if bytesOnLine >= BYTES_PER_LINE {
          out := out + "\n";
          bytesOnLine := 0;
        }
      }
      assert buf[..|buf|] == buf;
    }

    /** bin_to_file without a buffer: the line begun is ended. */
    method Flush()
      modifies this
      ensures bytesOnLine == 0 && offset == old(offset)
      ensures out == old(out) + if old(bytesOnLine) != 0 then "\n" else ""
    {
      if bytesOnLine != 0 {
        out := out + "\n";
        bytesOnLine := 0;
      }
    }

    method PutLine(line: string)
      modifies this
      ensures out == old(out) + (line + "\n") && bytesOnLine == old(bytesOnLine) && offset == old(offset)
    {
      Assoc(out, line, "\n");
      out := out + line + "\n";
    }

    /** The dump: three pieces and a flush. */
    method PutDump(eeprom: seq<Byte>, caps: seq<Byte>, key: seq<Byte>)
      requires bytesOnLine == 0
      modifies this
      ensures out == old(out) + Dump(eeprom + caps + key) && bytesOnLine == 0 && offset == old(offset)
    {
      hide Printed, Dump, OnLine;
      ghost var before, all := out, eeprom + caps + key;
      BinToFile(eeprom);
      BinToFile(caps);
      PrintedInPieces(0, eeprom, caps);
      BinToFile(key);
      PrintedInPieces(0, eeprom + caps, key);
      OnLineAdds(|eeprom|, |caps|);
      OnLineAdds(|eeprom| + |caps|, |key|);
      PrintedIsDump(all);
      Flush();
      FourPieces(before, Printed(0, eeprom), Printed(OnLine(0, |eeprom|), caps),
                 Printed(OnLine(0, |eeprom + caps|), key),
        if OnLine(0, |all|) != 0 then "\n" else "");
    }

    /** Line `i` of the header. */
    method PutHeaderLine(line: string, ghost i: nat, ghost eeprom: seq<Byte>, ghost caps: seq<Byte>,
        ghost key: seq<Byte>, ghost goal: string)
      requires |eeprom| == EEPROM_SIZE && |caps| == CAPS_SIZE && i < 10
      requires line == Line(eeprom, caps, i) && out + From(eeprom, caps, key, i) == goal
      modifies this
      ensures out + From(eeprom, caps, key, i + 1) == goal && bytesOnLine == old(bytesOnLine) && offset == old(offset)
    {
      FileTurn(eeprom, caps, eeprom + caps + key, i);
      Assoc(out, Line(eeprom, caps, i) + "\n", From(eeprom, caps, key, i + 1));
      hide Line, From;
      PutLine(line);
    }

    /** write_to_file. */
    method WriteToFile(eeprom: seq<Byte>, caps: seq<Byte>, key: seq<Byte>)
      requires |eeprom| == EEPROM_SIZE && |caps| == CAPS_SIZE && bytesOnLine == 0
      modifies this
      ensures out == old(out) + From(eeprom, caps, key, 0) && bytesOnLine == 0 && offset == old(offset)
    {
      ghost var goal := out + From(eeprom, caps, key, 0);
      hide From, Dec, Label, Dump;
      PutHeaderLine(BEGIN, 0, eeprom, caps, key, goal);
      PutHeaderLine("Version: 1.0", 1, eeprom, caps, key, goal);
      PutHeaderLine(Field("Timestamp", Dec(Timestamp(caps))), 2, eeprom, caps, key, goal);
      PutHeaderLine(Field("Serial", Label(eeprom)), 3, eeprom, caps, key, goal);
      PutHeaderLine(Field("Capabilities.Port.FXS", Dec(caps[0])), 4, eeprom, caps, key, goal);
      PutHeaderLine(Field("Capabilities.Port.FXO", Dec(caps[1])), 5, eeprom, caps, key, goal);
      PutHeaderLine(Field("Capabilities.Port.BRI", Dec(caps[2])), 6, eeprom, caps, key, goal);
      PutHeaderLine(Field("Capabilities.Port.PRI", Dec(caps[3])), 7, eeprom, caps, key, goal);
      PutHeaderLine(Field("Capabilities.Twinstar", Dec(caps[4] % 2)), 8, eeprom, caps, key, goal);
      PutHeaderLine("Data:", 9, eeprom, caps, key, goal);
      LastPart(eeprom, caps, key);
      Assoc(out, Dump(eeprom + caps + key), END + "\n");
      PutDump(eeprom, caps, key);
      PutLine(END);
    }

    /** str_to_bin: false on a bad line. */
    method StrToBin(line: string, table: array<Byte>) returns (ok: bool)
      modifies this, table
      ensures bytesOnLine == old(bytesOnLine) && out == old(out)
      ensures (|line| % 2 != 0 || Bin(line, old(table[..]), old(offset)).Broken?) ==> !ok
      ensures (|line| % 2 == 0 && Bin(line, old(table[..]), old(offset)).Reader? ==>
        ok && Bin(line, old(table[..]), old(offset)) == Reader(3, table[..], offset))
    {
      if |line| % 2 != 0 {
        return false;
      }
      ghost var goal := Bin(line, table[..], offset);
      hide Bin, HexValue;
      var i := 0;
      assert line[0..] == line;
      while offset < table.Length && i < |line|
        invariant 0 <= i <= |line| && Bin(line[i..], table[..], offset) == goal
        invariant bytesOnLine == old(bytesOnLine) && out == old(out)
        decreases |line| - i
      {
        BinStep(line[i..], table[..], offset);
        var hi := HexValue(line[i]);
        if hi < 0 || i + 1 == |line| {
          return false;
        }
        var lo := HexValue(line[i + 1]);
        if lo < 0 {
          return false;
        }
        ghost var t := table[..];
        var value: Byte := 16 * hi + lo;
        table[offset] := value;
        assert table[..] == t[offset := value];
        assert line[i..][2..] == line[i + 2..];
        offset := offset + 1;
        i := i + 2;
      }
      BinStep(line[i..], table[..], offset);
      ok := i == |line|;
    }

    /** One line in the reader's state; -1 stands for an error. */
    method TakeLine(line: string, state: int, table: array<Byte>) returns (next: int)
      requires 0 <= state
      modifies this, table
      ensures bytesOnLine == old(bytesOnLine) && out == old(out) && -1 <= next
      ensures (Step(Reader(state, old(table[..]), old(offset)), line) ==
        if next < 0 then Broken else Reader(next, table[..], offset))
    {
      hide Key, Value, Bin;
      next := -1;
      if line != "" {
        if state == 0 {
          if line == BEGIN {
            next := 1;
          }
        } else if state == 1 {
          if Key(line) == "Version" && Value(line) == "1.0" {
            next := 2;
          }
        } else if state == 2 {
          if Key(line) != "" {
            next := if Key(line) == "Data" then 3 else 2;
          }
        } else if state == 3 {
          if line == END {
            next := 4;
          } else {
            BinStays(line, table[..], offset);
            var ok := StrToBin(line, table);
            if ok {
              next := 3;
            }
          }
        }
      }
    }

    /** read_from_file. */
    method ReadFromFile(text: string) returns (result: Outcome)
      modifies this
      ensures bytesOnLine == old(bytesOnLine) && out == old(out)
      ensures result == ReadFile(old(offset), text)
    {
      var table := new Byte[TABLE_SIZE](i => 0);
      var state := 0;
      var rest := text;
      ghost var goal := ReadAll(Reader(0, table[..], offset), text);
      assert table[..] == seq(TABLE_SIZE, i => 0);
      hide Step, Trim, Fgets;
      while rest != ""
        invariant 0 <= state && fresh(table) && bytesOnLine == old(bytesOnLine) && out == old(out)
        invariant ReadAll(Reader(state, table[..], offset), rest) == goal
        decreases |rest|
      {
        var n := Fgets(rest);
        if rest[n - 1] != '\n' {
          return Failed;
        }
        var line := TrimLine(rest[..n]);
        state := TakeLine(line, state, table);
        if state < 0 {
          return Failed;
        }
        rest := rest[n..];
      }
      result := if state != 4 then Failed else Loaded(table[..]);
    }
  }

  lemma {:induction false} LastPart(eeprom: seq<Byte>, caps: seq<Byte>, key: seq<Byte>)
    requires |eeprom| == EEPROM_SIZE && |caps| == CAPS_SIZE
    ensures From(eeprom, caps, key, 10) == Dump(eeprom + caps + key) + (END + "\n")
  {
  }

  lemma {:induction false} OnLineAdds(a: nat, b: nat)
    ensures OnLine(OnLine(0, a), b) == OnLine(0, a + b)
  {
  }

  lemma {:induction false} FourPieces(before: string, a: string, b: string, c: string, d: string)
    ensures before + a + b + c + d == before + (a + b + c + d)
  {
  }
}
