/** Sending a parsed hex file to the device: whole lines over USB 2, lines cut to 60
    bytes over USB 1, every data line in a numbered packet. */
module FpgaLoad {
  import opened Basics
  import opened Hexfile

  const USB1_WIDTH := 60

  datatype Packet = Packet(seqNo: Word, data: seq<Byte>)

  /** What send_hexline sends for line number `j`: nothing unless it is a data line. */
  function One(line: Record, j: nat): seq<Packet> {
    if line.tt == TT_DATA then [Packet(j % 65536, line.data)] else []
  }

  /** The packets of a list of lines numbered from `j` on; only data lines are sent, but every line counts. */
  function PacketsOf(lines: seq<Record>, j: nat): seq<Packet> {
    if lines == [] then [] else One(lines[0], j) + PacketsOf(lines[1..], j + 1)
  }

  function AllData(packets: seq<Packet>): seq<Byte> {
    if packets == [] then [] else packets[0].data + AllData(packets[1..])
  }

  ghost predicate OnlyData(lines: seq<Record>) {
    forall k :: 0 <= k < |lines| ==> lines[k].tt == TT_DATA
  }

  function Controls(lines: seq<Record>): nat {
    if lines == [] then 0 else (if lines[0].tt == TT_DATA then 0 else 1) + Controls(lines[1..])
  }

  lemma {:induction false} PacketsSnoc(a: seq<Record>, x: Record, j: nat)
    ensures PacketsOf(a + [x], j) == PacketsOf(a, j) + One(x, j + |a|)
    decreases |a|
  {
    hide One;
    if a == [] {
      assert [x][1..] == [];
    } else {
      assert (a + [x])[1..] == a[1..] + [x];
      PacketsSnoc(a[1..], x, j + 1);
    }
  }

  lemma {:induction false} PacketsConcat(a: seq<Record>, b: seq<Record>, j: nat)
    ensures PacketsOf(a + b, j) == PacketsOf(a, j) + PacketsOf(b, j + |a|)
    decreases |b|
  {
    hide One;
    if b == [] {
      assert a + b == a;
    } else {
      assert a + b == (a + [b[0]]) + b[1..];
      PacketsConcat(a + [b[0]], b[1..], j);
      PacketsSnoc(a, b[0], j);
    }
  }

  /** The packets carry consecutive numbers from `n` on. */
  ghost predicate Numbered(p: seq<Packet>, n: nat) {
    forall k :: 0 <= k < |p| ==> p[k].seqNo == (n + k) % 65536
  }

  /** Every data line is preceded by a multiple of 65536 control lines, `skipped` of them already passed. */
  ghost predicate InStep(lines: seq<Record>, skipped: nat) {
    forall k :: 0 <= k < |lines| ==> InStepAt(lines, skipped, k)
  }

  predicate InStepAt(lines: seq<Record>, skipped: nat, k: nat)
    requires k < |lines|
  {
    lines[k].tt == TT_DATA ==> (skipped + Controls(lines[..k])) % 65536 == 0
  }

  lemma {:induction false} InStepShift(lines: seq<Record>, skipped: nat, k: nat)
    requires 0 < k < |lines|
    ensures InStepAt(lines, skipped, k) <==>
      InStepAt(lines[1..], if lines[0].tt == TT_DATA then skipped else skipped + 1, k - 1)
  {
    assert lines[..k][1..] == lines[1..][..k - 1];
    var one := if lines[0].tt == TT_DATA then 0 else 1;
    assert Controls(lines[..k]) == one + Controls(lines[1..][..k - 1]);
    hide Controls;
    assert skipped + Controls(lines[..k]) == skipped + one + Controls(lines[1..][..k - 1]);
  }

  lemma {:induction false} NumberedCons(x: Packet, q: seq<Packet>, n: nat)
    ensures Numbered([x] + q, n) <==> x.seqNo == n % 65536 && Numbered(q, n + 1)
  {
    var p := [x] + q;
    assert p[0] == x;
    assert forall k :: 0 <= k < |q| ==> p[k + 1] == q[k];
    if Numbered(p, n) {
      forall k | 0 <= k < |q| ensures q[k].seqNo == (n + 1 + k) % 65536 {
        assert p[k + 1].seqNo == (n + (k + 1)) % 65536;
      }
    }
    if x.seqNo == n % 65536 && Numbered(q, n + 1) {
      forall k | 0 <= k < |p| ensures p[k].seqNo == (n + k) % 65536 {
        if k > 0 {
          assert q[k - 1].seqNo == (n + 1 + (k - 1)) % 65536;
        }
      }
    }
  }

  lemma {:induction false} InStepCons(lines: seq<Record>, skipped: nat)
    requires lines != []
    ensures (InStep(lines, skipped) <==>
      if lines[0].tt == TT_DATA then skipped % 65536 == 0 && InStep(lines[1..], skipped)
      else InStep(lines[1..], skipped + 1))
  {
    var rest := lines[1..];
    var next := if lines[0].tt == TT_DATA then skipped else skipped + 1;
    assert lines[..0] == [] && Controls([]) == 0;
    assert InStepAt(lines, skipped, 0) <==> (lines[0].tt == TT_DATA ==> skipped % 65536 == 0);
    hide InStepAt;
    forall k | 0 < k < |lines| ensures InStepAt(lines, skipped, k) <==> InStepAt(rest, next, k - 1) {
      InStepShift(lines, skipped, k);
    }
    if InStep(lines, skipped) {
      forall k | 0 <= k < |rest| ensures InStepAt(rest, next, k) {
        assert InStepAt(lines, skipped, k + 1);
      }
    }
  }

  /** The lines are numbered by their place in the file, so the packets carry consecutive
      numbers exactly when every data line has a multiple of 65536 control lines before it:
      a base record before data shows as a gap. */
  lemma {:induction false} NumbersConsecutive(lines: seq<Record>, n: nat, skipped: nat)
    ensures Numbered(PacketsOf(lines, n + skipped), n) <==> InStep(lines, skipped)
    decreases |lines|
  {
    if lines != [] {
      hide Numbered, InStep;
      var rest := lines[1..];
      InStepCons(lines, skipped);
      if lines[0].tt == TT_DATA {
        NumbersConsecutive(rest, n + 1, skipped);
        NumberedCons(Packet((n + skipped) % 65536, lines[0].data), PacketsOf(rest, n + 1 + skipped), n);
        SameNumber(n, skipped);
      } else {
        NumbersConsecutive(rest, n, skipped + 1);
        assert PacketsOf(lines, n + skipped) == PacketsOf(rest, n + skipped + 1);
      }
    }
  }

  lemma {:induction false} SameNumber(n: nat, s: nat)
    ensures (n + s) % 65536 == n % 65536 <==> s % 65536 == 0
  {
  }

  lemma {:induction false} DataPackets(lines: seq<Record>, j: nat)
    requires OnlyData(lines)
    ensures |PacketsOf(lines, j)| == |lines| && Controls(lines) == 0
    ensures forall k :: 0 <= k < |lines| ==> PacketsOf(lines, j)[k] == Packet((j + k) % 65536, lines[k].data)
    decreases |lines|
  {
    if lines != [] {
      var rest := lines[1..];
      assert OnlyData(rest);
      assert PacketsOf(lines, j) == [Packet(j % 65536, lines[0].data)] + PacketsOf(rest, j + 1);
      assert Controls(lines) == Controls(rest);
      hide PacketsOf, Controls, OnlyData;
      DataPackets(rest, j + 1);
      forall k | 0 < k < |lines| ensures PacketsOf(lines, j)[k] == Packet((j + k) % 65536, lines[k].data) {
        assert PacketsOf(lines, j)[k] == PacketsOf(rest, j + 1)[k - 1] && j + 1 + (k - 1) == j + k;
      }
    }
  }

  lemma {:induction false} DataIsSent(lines: seq<Record>, j: nat)
    requires OnlyData(lines)
    ensures AllData(PacketsOf(lines, j)) == AllBytes(lines)
    decreases |lines|
  {
    if lines != [] {
      var rest := lines[1..];
      DataIsSent(rest, j + 1);
      var p, q := PacketsOf(lines, j), PacketsOf(rest, j + 1);
      assert p == [Packet(j % 65536, lines[0].data)] + q && p[1..] == q;
      assert lines == [lines[0]] + rest;
      AllBytesOne(lines[0]);
      AllBytesConcat([lines[0]], rest);
    }
  }

  lemma {:induction false} SplitAllOnlyData(recs: seq<Record>, w: nat)
    requires 0 < w && OnlyData(recs) && forall k :: 0 <= k < |recs| ==> RecordOk(recs[k])
    ensures OnlyData(SplitAll(recs, w)) && AllBytes(SplitAll(recs, w)) == AllBytes(recs)
    ensures forall k :: 0 <= k < |SplitAll(recs, w)| ==> 0 < |SplitAll(recs, w)[k].data| <= w
  {
    hide Split, AllBytes, Checksum;
    if recs == [] {
      NothingInNothing();
    } else {
      var init, r := recs[..|recs| - 1], recs[|recs| - 1];
      assert recs == init + [r];
      SplitAllOnlyData(init, w);
      SplitDataIsOk(r, w, 0);
      SplitKeepsBytes(r, w, 0);
      SplitWidth(r, w, 0);
      assert r.data[0..] == r.data;
      AllBytesOne(r);
      AllBytesConcat(SplitAll(init, w), Split(r, w, 0));
      AllBytesConcat(init, [r]);
    }
  }

  lemma {:induction false} SplitWidth(r: Record, w: nat, done: nat)
    requires 0 < w && done <= |r.data|
    ensures forall k :: 0 <= k < |Split(r, w, done)| ==> 0 < |Split(r, w, done)[k].data| <= w
    decreases |r.data| - done
  {
    if done < |r.data| {
      var n := if |r.data| - done >= w then w else |r.data| - done;
      SplitTurn(r, w, done, n);
      SplitWidth(r, w, done + n);
    }
  }

  /** What fpga_load sends for records `recs`: one by one over USB 2, cut over USB 1. */
  function Transfer(recs: seq<Record>, isUsb2: bool): seq<Packet> {
    PacketsOf(if isUsb2 then recs else SplitAll(recs, USB1_WIDTH), 0)
  }

  /** For a file of data records, over either bus the packets are numbered consecutively
      from zero and joined together are the file's bytes; over USB 1 they hold 1 to 60. */
  lemma {:induction false} DataFileIsSent(recs: seq<Record>, isUsb2: bool)
    requires OnlyData(recs) && forall k :: 0 <= k < |recs| ==> RecordOk(recs[k])
    ensures AllData(Transfer(recs, isUsb2)) == AllBytes(recs) && Numbered(Transfer(recs, isUsb2), 0)
    ensures !isUsb2 ==> Narrow(Transfer(recs, isUsb2))
  {
    hide SplitAll, AllBytes, Checksum;
    SplitAllOnlyData(recs, USB1_WIDTH);
    var cut := if isUsb2 then recs else SplitAll(recs, USB1_WIDTH);
    DataPackets(cut, 0);
    DataIsSent(cut, 0);
  }

  ghost predicate Narrow(p: seq<Packet>) {
    forall k :: 0 <= k < |p| ==> 0 < |p[k].data| <= 60
  }

  /** The contents of the data lines, other lines left out. */
  function DataBytes(lines: seq<Record>): seq<Byte> {
    if lines == [] then [] else (if lines[0].tt == 0 then lines[0].data else []) + DataBytes(lines[1..])
  }

  lemma {:induction false} DataBytesConcat(a: seq<Record>, b: seq<Record>)
    ensures DataBytes(a + b) == DataBytes(a) + DataBytes(b)
    decreases |a|
  {
    if a == [] {
      assert a + b == b;
    } else {
      assert (a + b)[1..] == a[1..] + b;
      DataBytesConcat(a[1..], b);
    }
  }

  lemma {:induction false} PacketsHold(lines: seq<Record>, j: nat)
    ensures AllData(PacketsOf(lines, j)) == DataBytes(lines)
    decreases |lines|
  {
    if lines != [] {
      PacketsHold(lines[1..], j + 1);
      var p, q := PacketsOf(lines, j), PacketsOf(lines[1..], j + 1);
      if lines[0].tt == 0 {
        assert p == [Packet(j % 65536, lines[0].data)] + q && p[1..] == q;
      } else {
        assert p == q;
      }
    }
  }

  lemma {:induction false} DataBytesCons(x: Record, q: seq<Record>)
    ensures DataBytes([x] + q) == (if x.tt == 0 then x.data else []) + DataBytes(q)
  {
    assert ([x] + q)[1..] == q;
  }

  lemma {:induction false} PiecesHold(r: Record, w: nat, done: nat)
    requires 0 < w && done <= |r.data|
    ensures DataBytes(Split(r, w, done)) == if r.tt == 0 then r.data[done..] else []
    decreases |r.data| - done
  {
    hide Split, DataBytes;
    if done < |r.data| {
      var n := if |r.data| - done >= w then w else |r.data| - done;
      SplitTurn(r, w, done, n);
      PiecesHold(r, w, done + n);
      var first, rest := Split(r, w, done)[0], Split(r, w, done + n);
      DataBytesCons(first, rest);
      assert r.data[done..] == r.data[done..done + n] + r.data[done + n..];
    } else {
      NoPieces(r, w);
      DataBytesNone();
    }
  }

  lemma {:induction false} DataBytesNone()
    ensures DataBytes([]) == []
  {
  }

  /** Cutting a line: every piece but the last has the full width. */
  lemma {:induction false} PiecesAre(r: Record, w: nat, done: nat)
    requires 0 < w && done <= |r.data|
    ensures var p := Split(r, w, done);
      && (p == [] <==> done == |r.data|)
      && forall k :: 0 <= k < |p| ==> p[k].tt == r.tt && 0 < |p[k].data| <= w && (k < |p| - 1 ==> |p[k].data| == w)
    decreases |r.data| - done
  {
    if done < |r.data| {
      var n := if |r.data| - done >= w then w else |r.data| - done;
      SplitTurn(r, w, done, n);
      PiecesAre(r, w, done + n);
      hide Split;
      var p, q := Split(r, w, done), Split(r, w, done + n);
      assert |p| == 1 + |q| && |p[0].data| == n;
      forall k | 0 < k < |p| ensures p[k] == q[k - 1] {
      }
    }
  }

  lemma {:induction false} CutHolds(recs: seq<Record>, w: nat)
    requires 0 < w
    ensures DataBytes(SplitAll(recs, w)) == DataBytes(recs)
  {
    hide Split;
    if recs != [] {
      var init, r := recs[..|recs| - 1], recs[|recs| - 1];
      assert recs == init + [r];
      CutHolds(init, w);
      PiecesHold(r, w, 0);
      assert r.data[0..] == r.data;
      DataBytesConcat(SplitAll(init, w), Split(r, w, 0));
      DataBytesConcat(init, [r]);
      assert DataBytes([r]) == (if r.tt == 0 then r.data else []) + DataBytes([]);
    }
  }

  /** Over either bus the packets of any file, joined together, are the contents of its data lines. */
  lemma {:induction false} AllDataIsSent(recs: seq<Record>, isUsb2: bool)
    ensures AllData(Transfer(recs, isUsb2)) == DataBytes(recs)
  {
    hide SplitAll, PacketsOf;
    CutHolds(recs, USB1_WIDTH);
    PacketsHold(recs, 0);
    PacketsHold(SplitAll(recs, USB1_WIDTH), 0);
  }

  /** Of a file of data lines, a packet over USB 2 is a line; over USB 1 each line takes as many packets
      as it has begun blocks of 60 bytes, all but the last of them full. */
  lemma {:induction false} PacketSizes(recs: seq<Record>, r: Record)
    requires OnlyData(recs + [r])
    ensures var p, q := Transfer(recs, true), Transfer(recs + [r], true);
      |q| == |p| + 1 && q[..|p|] == p && q[|p|].data == r.data
    ensures var p, q := Transfer(recs, false), Transfer(recs + [r], false);
      && |p| <= |q| && q[..|p|] == p
      && forall k :: |p| <= k < |q| ==> 0 < |q[k].data| <= 60 && (k < |q| - 1 ==> |q[k].data| == 60)
  {
    assert forall k :: 0 <= k < |recs| ==> (recs + [r])[k] == recs[k];
    assert (recs + [r])[|recs|] == r;
    TransferSnoc(recs, r);
    PiecesAre(r, USB1_WIDTH, 0);
    hide Split, SplitAll, Transfer;
    assert One(r, |recs|) == [Packet(|recs| % 65536, r.data)];
    DataPackets(Split(r, USB1_WIDTH, 0), |SplitAll(recs, USB1_WIDTH)|);
    var p, q := Transfer(recs, false), Transfer(recs + [r], false);
    var more := PacketsOf(Split(r, USB1_WIDTH, 0), |SplitAll(recs, USB1_WIDTH)|);
    assert q == p + more;
  }

  /** The place of the first end record, or the number of lines. */
  function EofAt(lines: seq<Record>): (e: nat)
    ensures e <= |lines| && forall k :: 0 <= k < e ==> lines[k].tt != TT_EOF
    ensures e < |lines| ==> lines[e].tt == TT_EOF
  {
    if lines == [] || lines[0].tt == TT_EOF then 0 else 1 + EofAt(lines[1..])
  }

  lemma {:induction false} TransferSnoc(recs: seq<Record>, r: Record)
    ensures Transfer(recs + [r], true) == Transfer(recs, true) + One(r, |recs|)
    ensures (Transfer(recs + [r], false) ==
      Transfer(recs, false) + PacketsOf(Split(r, USB1_WIDTH, 0), |SplitAll(recs, USB1_WIDTH)|))
  {
    hide Split, PacketsOf, One;
    PacketsSnoc(recs, r, 0);
    var all := recs + [r];
    assert all[..|all| - 1] == recs;
    PacketsConcat(SplitAll(recs, USB1_WIDTH), Split(r, USB1_WIDTH, 0), 0);
  }

  // ---------- the loops ----------

  class Device {
    const isUsb2: bool
    /** The packets sent so far; the device acknowledges every one. */
    var sent: seq<Packet>

    constructor (isUsb2: bool)
      ensures this.isUsb2 == isUsb2 && sent == []
    {
      this.isUsb2, sent := isUsb2, [];
    }

    /** send_hexline: anything but data is passed over. */
    method SendHexline(line: Record, number: nat)
      modifies this
      ensures sent == old(sent) + One(line, number)
    {
      if line.tt == TT_DATA {
        sent := sent + [Packet(number % 65536, line.data)];
      }
    }

    /** send_splited_hexline: the number of lines it counted. The pieces carry no
        check sum, which is never sent. */
    method SendSplitedHexline(line: Record, number: nat, maxwidth: Byte) returns (linessent: nat)
      requires maxwidth > 0
      modifies this
      ensures linessent == |Split(line, maxwidth, 0)|
      ensures sent == old(sent) + PacketsOf(Split(line, maxwidth, 0), number)
    {
      hide NewChecksum, Checksum, PacketsOf, One, Split;
      linessent := 0;
      var extraOffset := 0;
      var bytesleft := |line.data|;
      ghost var all := Split(line, maxwidth, 0);
      ghost var before := sent;
      NothingYet(all, number);
      WholeLine(line, maxwidth);
      while bytesleft > 0
        invariant 0 <= bytesleft && extraOffset + bytesleft == |line.data| && linessent <= |all|
        invariant all[linessent..] == Split(line, maxwidth, extraOffset)
        invariant sent == before + PacketsOf(all[..linessent], number)
      {
        var thisLine := if bytesleft >= maxwidth then maxwidth else bytesleft;
        SplitTurn(line, maxwidth, extraOffset, thisLine);
        var extraline := Record(
          (line.offset + extraOffset) % 65536, line.tt, line.data[extraOffset..extraOffset + thisLine], 0);
        NextPiece(all, linessent, extraline, Split(line, maxwidth, extraOffset + thisLine), number);
        SendHexline(extraline, number + linessent);
        extraOffset := extraOffset + thisLine;
        bytesleft := bytesleft - thisLine;
        linessent := linessent + 1;
      }
      NoPieces(line, maxwidth);
      assert |all[linessent..]| == 0;
      assert all[..linessent] == all;
    }

    /** fpga_load: true when nothing follows the end record; what precedes it is sent
        either way. */
    method Load(lines: seq<Record>) returns (ok: bool)
      modifies this
      ensures ok <==> EofAt(lines) + 1 >= |lines|
      ensures sent == old(sent) + Transfer(lines[..EofAt(lines)], isUsb2)
    {
      hide Split, SplitAll, PacketsOf, Transfer, One, EofAt;
      var j: nat := 0;
      var finished := false;
      ghost var e := EofAt(lines);
      ghost var before := sent;
      assert lines[..0] == [];
      NothingToTransfer(isUsb2);
      for i := 0 to |lines|
        invariant finished <==> i > e
        invariant !isUsb2 && !finished ==> j == |SplitAll(lines[..i], USB1_WIDTH)|
        invariant finished ==> i == e + 1
        invariant sent == before + Transfer(lines[..if finished then e else i], isUsb2)
      {
        if finished {
          return false;
        }
        if lines[i].tt == TT_EOF {
          finished := true;
        } else {
          assert lines[..i + 1] == lines[..i] + [lines[i]];
          TransferSnoc(lines[..i], lines[i]);
          SplitAllSnoc(lines[..i], lines[i]);
          if isUsb2 {
            SendHexline(lines[i], i);
          } else {
            var ret := SendSplitedHexline(lines[i], j, USB1_WIDTH);
            j := j + ret;
          }
        }
      }
      ok := true;
    }
  }

  lemma {:induction false} NothingToTransfer(isUsb2: bool)
    ensures Transfer([], isUsb2) == [] && |SplitAll([], USB1_WIDTH)| == 0
  {
  }

  lemma {:induction false} SplitAllSnoc(recs: seq<Record>, r: Record)
    ensures |SplitAll(recs + [r], USB1_WIDTH)| == |SplitAll(recs, USB1_WIDTH)| + |Split(r, USB1_WIDTH, 0)|
  {
    var all := recs + [r];
    assert all[..|all| - 1] == recs;
  }

  lemma {:induction false} NothingYet(all: seq<Record>, number: nat)
    ensures all[0..] == all && PacketsOf(all[..0], number) == []
  {
  }

  lemma {:induction false} WholeLine(line: Record, w: nat)
    requires w > 0
    ensures Split(line, w, 0)[0..] == Split(line, w, 0)
  {
  }

  /** One more piece of a line, in the shape the loop keeps. */
  lemma {:induction false} NextPiece(all: seq<Record>, i: nat, sent: Record, rest: seq<Record>, number: nat)
    requires i <= |all| && all[i..] != [] && all[i..] == [all[i..][0]] + rest
    requires all[i..][0].tt == sent.tt && all[i..][0].data == sent.data
    ensures i < |all| && all[i + 1..] == rest
    ensures PacketsOf(all[..i + 1], number) == PacketsOf(all[..i], number) + One(sent, number + i)
  {
    assert all[i + 1..] == all[i..][1..];
    assert all[..i + 1] == all[..i] + [all[i]];
    PacketsSnoc(all[..i], all[i], number);
  }

  /** A file that parse_hexfile accepted is always sent to its end: its end record, if
      it has one, is its last line. */
  lemma {:induction false} ParsedFileIsLoaded(h: Hex)
    requires HexOk(h)
    ensures EofAt(h.lines) + 1 >= |h.lines|
  {
    var e := EofAt(h.lines);
    if e < |h.lines| {
      assert h.lines[e].tt == TT_EOF;
    }
  }
}
