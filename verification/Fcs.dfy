/** The frame check sequence: the table-driven step used by the driver and by the
    hdlc test tools, the bit-serial register of RFC 1662 section C.2 it stands for,
    and what the two-byte check detects. */
module Fcs {

  // ---------- the table, sixteen rows of sixteen entries ----------

  function Row0(i: bv8): bv16 {
    match i
    case 0 => 0x0000 case 1 => 0x1189 case 2 => 0x2312 case 3 => 0x329b
    case 4 => 0x4624 case 5 => 0x57ad case 6 => 0x6536 case 7 => 0x74bf
    case 8 => 0x8c48 case 9 => 0x9dc1 case 10 => 0xaf5a case 11 => 0xbed3
    case 12 => 0xca6c case 13 => 0xdbe5 case 14 => 0xe97e case _ => 0xf8f7
  }

  function Row1(i: bv8): bv16 {
    match i
    case 0 => 0x1081 case 1 => 0x0108 case 2 => 0x3393 case 3 => 0x221a
    case 4 => 0x56a5 case 5 => 0x472c case 6 => 0x75b7 case 7 => 0x643e
    case 8 => 0x9cc9 case 9 => 0x8d40 case 10 => 0xbfdb case 11 => 0xae52
    case 12 => 0xdaed case 13 => 0xcb64 case 14 => 0xf9ff case _ => 0xe876
  }

  function Row2(i: bv8): bv16 {
    match i
    case 0 => 0x2102 case 1 => 0x308b case 2 => 0x0210 case 3 => 0x1399
    case 4 => 0x6726 case 5 => 0x76af case 6 => 0x4434 case 7 => 0x55bd
    case 8 => 0xad4a case 9 => 0xbcc3 case 10 => 0x8e58 case 11 => 0x9fd1
    case 12 => 0xeb6e case 13 => 0xfae7 case 14 => 0xc87c case _ => 0xd9f5
  }

  function Row3(i: bv8): bv16 {
    match i
    case 0 => 0x3183 case 1 => 0x200a case 2 => 0x1291 case 3 => 0x0318
    case 4 => 0x77a7 case 5 => 0x662e case 6 => 0x54b5 case 7 => 0x453c
    case 8 => 0xbdcb case 9 => 0xac42 case 10 => 0x9ed9 case 11 => 0x8f50
    case 12 => 0xfbef case 13 => 0xea66 case 14 => 0xd8fd case _ => 0xc974
  }

  function Row4(i: bv8): bv16 {
    match i
    case 0 => 0x4204 case 1 => 0x538d case 2 => 0x6116 case 3 => 0x709f
    case 4 => 0x0420 case 5 => 0x15a9 case 6 => 0x2732 case 7 => 0x36bb
    case 8 => 0xce4c case 9 => 0xdfc5 case 10 => 0xed5e case 11 => 0xfcd7
    case 12 => 0x8868 case 13 => 0x99e1 case 14 => 0xab7a case _ => 0xbaf3
  }

  function Row5(i: bv8): bv16 {
    match i
    case 0 => 0x5285 case 1 => 0x430c case 2 => 0x7197 case 3 => 0x601e
    case 4 => 0x14a1 case 5 => 0x0528 case 6 => 0x37b3 case 7 => 0x263a
    case 8 => 0xdecd case 9 => 0xcf44 case 10 => 0xfddf case 11 => 0xec56
    case 12 => 0x98e9 case 13 => 0x8960 case 14 => 0xbbfb case _ => 0xaa72
  }

  function Row6(i: bv8): bv16 {
    match i
    case 0 => 0x6306 case 1 => 0x728f case 2 => 0x4014 case 3 => 0x519d
    case 4 => 0x2522 case 5 => 0x34ab case 6 => 0x0630 case 7 => 0x17b9
    case 8 => 0xef4e case 9 => 0xfec7 case 10 => 0xcc5c case 11 => 0xddd5
    case 12 => 0xa96a case 13 => 0xb8e3 case 14 => 0x8a78 case _ => 0x9bf1
  }

  function Row7(i: bv8): bv16 {
    match i
    case 0 => 0x7387 case 1 => 0x620e case 2 => 0x5095 case 3 => 0x411c
    case 4 => 0x35a3 case 5 => 0x242a case 6 => 0x16b1 case 7 => 0x0738
    case 8 => 0xffcf case 9 => 0xee46 case 10 => 0xdcdd case 11 => 0xcd54
    case 12 => 0xb9eb case 13 => 0xa862 case 14 => 0x9af9 case _ => 0x8b70
  }

  function Row8(i: bv8): bv16 {
    match i
    case 0 => 0x8408 case 1 => 0x9581 case 2 => 0xa71a case 3 => 0xb693
    case 4 => 0xc22c case 5 => 0xd3a5 case 6 => 0xe13e case 7 => 0xf0b7
    case 8 => 0x0840 case 9 => 0x19c9 case 10 => 0x2b52 case 11 => 0x3adb
    case 12 => 0x4e64 case 13 => 0x5fed case 14 => 0x6d76 case _ => 0x7cff
  }

  function Row9(i: bv8): bv16 {
    match i
    case 0 => 0x9489 case 1 => 0x8500 case 2 => 0xb79b case 3 => 0xa612
    case 4 => 0xd2ad case 5 => 0xc324 case 6 => 0xf1bf case 7 => 0xe036
    case 8 => 0x18c1 case 9 => 0x0948 case 10 => 0x3bd3 case 11 => 0x2a5a
    case 12 => 0x5ee5 case 13 => 0x4f6c case 14 => 0x7df7 case _ => 0x6c7e
  }

  function RowA(i: bv8): bv16 {
    match i
    case 0 => 0xa50a case 1 => 0xb483 case 2 => 0x8618 case 3 => 0x9791
    case 4 => 0xe32e case 5 => 0xf2a7 case 6 => 0xc03c case 7 => 0xd1b5
    case 8 => 0x2942 case 9 => 0x38cb case 10 => 0x0a50 case 11 => 0x1bd9
    case 12 => 0x6f66 case 13 => 0x7eef case 14 => 0x4c74 case _ => 0x5dfd
  }

  function RowB(i: bv8): bv16 {
    match i
    case 0 => 0xb58b case 1 => 0xa402 case 2 => 0x9699 case 3 => 0x8710
    case 4 => 0xf3af case 5 => 0xe226 case 6 => 0xd0bd case 7 => 0xc134
    case 8 => 0x39c3 case 9 => 0x284a case 10 => 0x1ad1 case 11 => 0x0b58
    case 12 => 0x7fe7 case 13 => 0x6e6e case 14 => 0x5cf5 case _ => 0x4d7c
  }

  function RowC(i: bv8): bv16 {
    match i
    case 0 => 0xc60c case 1 => 0xd785 case 2 => 0xe51e case 3 => 0xf497
    case 4 => 0x8028 case 5 => 0x91a1 case 6 => 0xa33a case 7 => 0xb2b3
    case 8 => 0x4a44 case 9 => 0x5bcd case 10 => 0x6956 case 11 => 0x78df
    case 12 => 0x0c60 case 13 => 0x1de9 case 14 => 0x2f72 case _ => 0x3efb
  }

  function RowD(i: bv8): bv16 {
    match i
    case 0 => 0xd68d case 1 => 0xc704 case 2 => 0xf59f case 3 => 0xe416
    case 4 => 0x90a9 case 5 => 0x8120 case 6 => 0xb3bb case 7 => 0xa232
    case 8 => 0x5ac5 case 9 => 0x4b4c case 10 => 0x79d7 case 11 => 0x685e
    case 12 => 0x1ce1 case 13 => 0x0d68 case 14 => 0x3ff3 case _ => 0x2e7a
  }

  function RowE(i: bv8): bv16 {
    match i
    case 0 => 0xe70e case 1 => 0xf687 case 2 => 0xc41c case 3 => 0xd595
    case 4 => 0xa12a case 5 => 0xb0a3 case 6 => 0x8238 case 7 => 0x93b1
    case 8 => 0x6b46 case 9 => 0x7acf case 10 => 0x4854 case 11 => 0x59dd
    case 12 => 0x2d62 case 13 => 0x3ceb case 14 => 0x0e70 case _ => 0x1ff9
  }

  function RowF(i: bv8): bv16 {
    match i
    case 0 => 0xf78f case 1 => 0xe606 case 2 => 0xd49d case 3 => 0xc514
    case 4 => 0xb1ab case 5 => 0xa022 case 6 => 0x92b9 case 7 => 0x8330
    case 8 => 0x7bc7 case 9 => 0x6a4e case 10 => 0x58d5 case 11 => 0x495c
    case 12 => 0x3de3 case 13 => 0x2c6a case 14 => 0x1ef1 case _ => 0x0f78
  }

  function FcsTab(i: bv8): bv16 {
    var lo := i & 0x0f;
    match i >> 4
    case 0 => Row0(lo)
    case 1 => Row1(lo)
    case 2 => Row2(lo)
    case 3 => Row3(lo)
    case 4 => Row4(lo)
    case 5 => Row5(lo)
    case 6 => Row6(lo)
    case 7 => Row7(lo)
    case 8 => Row8(lo)
    case 9 => Row9(lo)
    case 10 => RowA(lo)
    case 11 => RowB(lo)
    case 12 => RowC(lo)
    case 13 => RowD(lo)
    case 14 => RowE(lo)
    case _ => RowF(lo)
  }

  // ---------- words and bytes as bits, least significant first ----------

  /** A sixteen-bit register value, as its bits. */
  type Word = s: seq<bool> | |s| == 16 witness seq(16, i => false)

  function WordOf(x: bv16): Word {
    [x & 0x1 != 0, x & 0x2 != 0, x & 0x4 != 0, x & 0x8 != 0,
     x & 0x10 != 0, x & 0x20 != 0, x & 0x40 != 0, x & 0x80 != 0,
     x & 0x100 != 0, x & 0x200 != 0, x & 0x400 != 0, x & 0x800 != 0,
     x & 0x1000 != 0, x & 0x2000 != 0, x & 0x4000 != 0, x & 0x8000 != 0]
  }

  function BitsOf(c: bv8): (b: seq<bool>)
    ensures |b| == 8
  {
    [c & 1 != 0, c & 2 != 0, c & 4 != 0, c & 8 != 0, c & 16 != 0, c & 32 != 0, c & 64 != 0, c & 128 != 0]
  }

  function ByteOf(b: seq<bool>): bv8
    requires |b| == 8
  {
    (if b[0] then 1 else 0) |
    (if b[1] then 2 else 0) |
    (if b[2] then 4 else 0) |
    (if b[3] then 8 else 0) |
    (if b[4] then 16 else 0) |
    (if b[5] then 32 else 0) |
    (if b[6] then 64 else 0) |
    (if b[7] then 128 else 0)
  }

  lemma {:induction false} ByteRoundTrip(b: seq<bool>)
    requires |b| == 8
    ensures BitsOf(ByteOf(b)) == b
  {
  }

  lemma {:induction false} BitsRoundTrip(c: bv8)
    ensures ByteOf(BitsOf(c)) == c
  {
  }

  function Xor(a: seq<bool>, b: seq<bool>): (r: seq<bool>)
    requires |a| == |b|
    ensures |r| == |a|
  {
    seq(|a|, i requires 0 <= i < |a| => a[i] != b[i])
  }

  function Zeros(n: nat): (r: seq<bool>)
    ensures |r| == n
  {
    seq(n, i => false)
  }

  /** PPP_FCS: one byte through the table. */
  function Step(fcs: Word, c: bv8): Word {
    Xor(fcs[8..] + Zeros(8), WordOf(FcsTab(ByteOf(Xor(fcs[..8], BitsOf(c))))))
  }

  // ---------- the bit-serial reference ----------

  /** The stages that the polynomial x^16 + x^12 + x^5 + 1 feeds back into, stage 0 leaving first. */
  predicate Tap(i: nat) { i == 3 || i == 10 || i == 15 }

  /** One shift: the bit leaving stage 0, combined with the data bit, feeds the taps. */
  function Shift(s: Word, bit: bool): Word {
    var feedback := s[0] != bit;
    seq(16, i requires 0 <= i < 16 => (i < 15 && s[i + 1]) != (feedback && Tap(i)))
  }

  function Serial(s: Word, bits: seq<bool>): Word
    decreases |bits|
  {
    if bits == [] then s else Serial(Shift(s, bits[0]), bits[1..])
  }

  // ---------- frames ----------

  const INIT_FCS: Word := WordOf(0xffff)
  const GOOD_FCS: Word := WordOf(0xf0b8)

  /** The register after all bytes of `data`. */
  function Fold(fcs: Word, data: seq<bv8>): Word {
    if data == [] then fcs else Step(Fold(fcs, data[..|data| - 1]), data[|data| - 1])
  }

  /** Bits of a frame in transmission order. */
  function Bits(data: seq<bv8>): seq<bool> {
    if data == [] then [] else Bits(data[..|data| - 1]) + BitsOf(data[|data| - 1])
  }

  function Complement(fcs: Word): Word {
    Xor(fcs, WordOf(0xffff))
  }

  /** The frame check of `payload`, low byte first. */
  function Check(payload: seq<bv8>): (r: seq<bv8>)
    ensures |r| == 2
  {
    var fcs := Complement(Fold(INIT_FCS, payload));
    [ByteOf(fcs[..8]), ByteOf(fcs[8..])]
  }

  /** A block whose last two bytes are replaced by the check of what precedes them. */
  function Stamp(block: seq<bv8>): (r: seq<bv8>)
    ensures |r| == |block|
  {
    if |block| < 2 then block else block[..|block| - 2] + Check(block[..|block| - 2])
  }

  /** The receiver's test. */
  predicate Accepted(frame: seq<bv8>) {
    Fold(INIT_FCS, frame) == GOOD_FCS
  }

  // ---------- the table is the register shifted eight times ----------

  /** Bit `j` of `bits`, false outside. */
  predicate At(bits: seq<bool>, j: int) { 0 <= j < |bits| && bits[j] }

  /** The bits fed back while eight bits pass through the register, `z` being the
      low half of the register combined with those bits. */
  function FeedbackBits(z: seq<bool>): (w: seq<bool>)
    requires |z| == 8
    ensures |w| == 8
  {
    seq(8, j requires 0 <= j < 8 => z[j] != (j >= 4 && z[j - 4]))
  }

  /** What the feedback bits leave in stage `i` after `k` shifts. */
  predicate Trail(w: seq<bool>, k: nat, i: nat) {
    (At(w, i + k - 16) != (i <= 10 && At(w, i + k - 11))) != (i <= 3 && At(w, i + k - 4))
  }

  /** Stage `i` of the register after `k` bits of a byte. */
  predicate StageAfter(s: Word, w: seq<bool>, k: nat, i: nat) {
    At(s, i + k) != Trail(w, k, i)
  }

  lemma {:induction false} StageShifts(s: Word, w: seq<bool>, k: nat, i: nat)
    requires |w| == 8 && k < 8 && i < 16
    ensures StageAfter(s, w, k + 1, i) == ((i < 15 && StageAfter(s, w, k, i + 1)) != (w[k] && Tap(i)))
  {
    if i == 15 || i == 10 || i == 3 {
    } else {
    }
  }

  lemma {:induction false} SerialConcat(s: Word, a: seq<bool>, b: seq<bool>)
    ensures Serial(s, a + b) == Serial(Serial(s, a), b)
    decreases |a|
  {
    if a == [] {
      assert a + b == b;
    } else {
      assert (a + b)[1..] == a[1..] + b;
      SerialConcat(Shift(s, a[0]), a[1..], b);
    }
  }

  lemma {:induction false} SerialOne(s: Word, b: bool)
    ensures Serial(s, [b]) == Shift(s, b)
  {
    assert Serial(s, [b]) == Serial(Shift(s, b), []);
  }

  lemma {:induction false} AfterShifts(s: Word, c: seq<bool>, k: nat)
    requires |c| == 8 && k <= 8
    ensures forall i :: 0 <= i < 16 ==> Serial(s, c[..k])[i] == StageAfter(s, FeedbackBits(Xor(s[..8], c)), k, i)
  {
    var w := FeedbackBits(Xor(s[..8], c));
    if k > 0 {
      AfterShifts(s, c, k - 1);
      var p := Serial(s, c[..k - 1]);
      assert c[..k] == c[..k - 1] + [c[k - 1]];
      SerialConcat(s, c[..k - 1], [c[k - 1]]);
      SerialOne(p, c[k - 1]);
      assert (StageAfter(s, w, k - 1, 0) != c[k - 1]) == w[k - 1];
      forall i | 0 <= i < 16 ensures Serial(s, c[..k])[i] == StageAfter(s, w, k, i) {
        StageShifts(s, w, k - 1, i);
      }
    }
  }

  function FeedbackByte(z: bv8): bv8 { z ^ (z << 4) }

  lemma {:induction false} FeedbackByteLow(z: bv8, b: seq<bool>, w: seq<bool>)
    requires b == BitsOf(z) && w == BitsOf(FeedbackByte(z))
    ensures forall j :: 0 <= j < 4 ==> w[j] == b[j]
  {
  }

  lemma {:induction false} FeedbackByteMid(z: bv8, b: seq<bool>, w: seq<bool>)
    requires b == BitsOf(z) && w == BitsOf(FeedbackByte(z))
    ensures w[4] == (b[4] != b[0])
    ensures w[5] == (b[5] != b[1])
  {
  }

  lemma {:induction false} FeedbackByteHigh(z: bv8, b: seq<bool>, w: seq<bool>)
    requires b == BitsOf(z) && w == BitsOf(FeedbackByte(z))
    ensures w[6] == (b[6] != b[2])
    ensures w[7] == (b[7] != b[3])
  {
  }

  lemma {:induction false} FeedbackByteBits(z: bv8)
    ensures BitsOf(FeedbackByte(z)) == FeedbackBits(BitsOf(z))
  {
    hide BitsOf, FeedbackByte;
    var b, w := BitsOf(z), BitsOf(FeedbackByte(z));
    FeedbackByteLow(z, b, w);
    FeedbackByteMid(z, b, w);
    FeedbackByteHigh(z, b, w);
  }

  // Two stages of a table entry at a time.

  lemma {:induction false} TableStage0(z: bv8, w: seq<bool>, t: Word)
    requires w == BitsOf(FeedbackByte(z)) && t == WordOf(FcsTab(z))
    ensures t[0] == (w[4])
  {
  }

  lemma {:induction false} TableStage1(z: bv8, w: seq<bool>, t: Word)
    requires w == BitsOf(FeedbackByte(z)) && t == WordOf(FcsTab(z))
    ensures t[1] == (w[5])
  {
  }

  lemma {:induction false} TableStage2(z: bv8, w: seq<bool>, t: Word)
    requires w == BitsOf(FeedbackByte(z)) && t == WordOf(FcsTab(z))
    ensures t[2] == (w[6])
  {
  }

  lemma {:induction false} TableStage3(z: bv8, w: seq<bool>, t: Word)
    requires w == BitsOf(FeedbackByte(z)) && t == WordOf(FcsTab(z))
    ensures t[3] == (w[0] != w[7])
  {
  }

  lemma {:induction false} TableStage4(z: bv8, w: seq<bool>, t: Word)
    requires w == BitsOf(FeedbackByte(z)) && t == WordOf(FcsTab(z))
    ensures t[4] == (w[1])
  {
  }

  lemma {:induction false} TableStage5(z: bv8, w: seq<bool>, t: Word)
    requires w == BitsOf(FeedbackByte(z)) && t == WordOf(FcsTab(z))
    ensures t[5] == (w[2])
  {
  }

  lemma {:induction false} TableStage6(z: bv8, w: seq<bool>, t: Word)
    requires w == BitsOf(FeedbackByte(z)) && t == WordOf(FcsTab(z))
    ensures t[6] == (w[3])
  {
  }

  lemma {:induction false} TableStage7(z: bv8, w: seq<bool>, t: Word)
    requires w == BitsOf(FeedbackByte(z)) && t == WordOf(FcsTab(z))
    ensures t[7] == (w[4])
  {
  }

  lemma {:induction false} TableStage8(z: bv8, w: seq<bool>, t: Word)
    requires w == BitsOf(FeedbackByte(z)) && t == WordOf(FcsTab(z))
    ensures t[8] == (w[0] != w[5])
  {
  }

  lemma {:induction false} TableStage9(z: bv8, w: seq<bool>, t: Word)
    requires w == BitsOf(FeedbackByte(z)) && t == WordOf(FcsTab(z))
    ensures t[9] == (w[1] != w[6])
  {
  }

  lemma {:induction false} TableStage10(z: bv8, w: seq<bool>, t: Word)
    requires w == BitsOf(FeedbackByte(z)) && t == WordOf(FcsTab(z))
    ensures t[10] == (w[2] != w[7])
  {
  }

  lemma {:induction false} TableStage11(z: bv8, w: seq<bool>, t: Word)
    requires w == BitsOf(FeedbackByte(z)) && t == WordOf(FcsTab(z))
    ensures t[11] == (w[3])
  {
  }

  lemma {:induction false} TableStage12(z: bv8, w: seq<bool>, t: Word)
    requires w == BitsOf(FeedbackByte(z)) && t == WordOf(FcsTab(z))
    ensures t[12] == (w[4])
  {
  }

  lemma {:induction false} TableStage13(z: bv8, w: seq<bool>, t: Word)
    requires w == BitsOf(FeedbackByte(z)) && t == WordOf(FcsTab(z))
    ensures t[13] == (w[5])
  {
  }

  lemma {:induction false} TableStage14(z: bv8, w: seq<bool>, t: Word)
    requires w == BitsOf(FeedbackByte(z)) && t == WordOf(FcsTab(z))
    ensures t[14] == (w[6])
  {
  }

  lemma {:induction false} TableStage15(z: bv8, w: seq<bool>, t: Word)
    requires w == BitsOf(FeedbackByte(z)) && t == WordOf(FcsTab(z))
    ensures t[15] == (w[7])
  {
  }

  lemma {:induction false} TrailSpelledOut(w: seq<bool>, t: Word)
    requires |w| == 8
    requires t[0] == (w[4])
    requires t[1] == (w[5])
    requires t[2] == (w[6])
    requires t[3] == (w[0] != w[7])
    requires t[4] == (w[1])
    requires t[5] == (w[2])
    requires t[6] == (w[3])
    requires t[7] == (w[4])
    requires t[8] == (w[0] != w[5])
    requires t[9] == (w[1] != w[6])
    requires t[10] == (w[2] != w[7])
    requires t[11] == (w[3])
    requires t[12] == (w[4])
    requires t[13] == (w[5])
    requires t[14] == (w[6])
    requires t[15] == (w[7])
    ensures forall i :: 0 <= i < 16 ==> t[i] == Trail(w, 8, i)
  {
  }

  /** Every table entry is what eight shifts of its index leave behind. */
  lemma {:induction false} TableBits(z: bv8)
    ensures forall i :: 0 <= i < 16 ==> WordOf(FcsTab(z))[i] == Trail(FeedbackBits(BitsOf(z)), 8, i)
  {
    hide *;
    var w, t := BitsOf(FeedbackByte(z)), WordOf(FcsTab(z));
    TableStage0(z, w, t);
    TableStage1(z, w, t);
    TableStage2(z, w, t);
    TableStage3(z, w, t);
    TableStage4(z, w, t);
    TableStage5(z, w, t);
    TableStage6(z, w, t);
    TableStage7(z, w, t);
    TableStage8(z, w, t);
    TableStage9(z, w, t);
    TableStage10(z, w, t);
    TableStage11(z, w, t);
    TableStage12(z, w, t);
    TableStage13(z, w, t);
    TableStage14(z, w, t);
    TableStage15(z, w, t);
    TrailSpelledOut(w, t);
    FeedbackByteBits(z);
  }

  /** One byte through the table is eight shifts of the register of RFC 1662 section C.2. */
  lemma {:induction false} StepIsSerial(s: Word, c: bv8)
    ensures Step(s, c) == Serial(s, BitsOf(c))
  {
    hide FcsTab, WordOf, BitsOf, ByteOf;
    var b := BitsOf(c);
    var z := Xor(s[..8], b);
    TableBits(ByteOf(z));
    ByteRoundTrip(z);
    AfterShifts(s, b, 8);
    assert b[..8] == b;
    forall i | 0 <= i < 16 ensures Step(s, c)[i] == Serial(s, b)[i] {
      assert Serial(s, b)[i] == StageAfter(s, FeedbackBits(z), 8, i);
    }
  }

  /** The table-driven register over a whole frame is the bit-serial register over its bits. */
  lemma {:induction false} FoldIsSerial(s: Word, data: seq<bv8>)
    ensures Fold(s, data) == Serial(s, Bits(data))
  {
    if data != [] {
      var init, c := data[..|data| - 1], data[|data| - 1];
      FoldIsSerial(s, init);
      StepIsSerial(Fold(s, init), c);
      SerialConcat(s, Bits(init), BitsOf(c));
    }
  }

  // ---------- what the check detects ----------

  /** Equal registers after at most sixteen shifts agreed on the stages not yet shifted out. */
  lemma {:induction false} AgreeBefore(s: Word, u: seq<bool>, t: Word, v: seq<bool>)
    requires |u| == |v| <= 16 && Serial(s, u) == Serial(t, v)
    ensures forall i :: |u| <= i < 16 ==> s[i] == t[i]
    decreases |u|
  {
    if u != [] {
      var s1, t1 := Shift(s, u[0]), Shift(t, v[0]);
      AgreeBefore(s1, u[1..], t1, v[1..]);
      assert s1[15] == t1[15];
      forall i | |u| <= i < 16 ensures s[i] == t[i] {
        assert s1[i - 1] == t1[i - 1];
      }
    }
  }

  /** From one register value, different strings of at most sixteen bits lead to different values. */
  lemma {:induction false} ShortStringsDiffer(s: Word, u: seq<bool>, v: seq<bool>)
    requires |u| == |v| <= 16 && Serial(s, u) == Serial(s, v)
    ensures u == v
    decreases |u|
  {
    if u != [] {
      var s1, t1 := Shift(s, u[0]), Shift(s, v[0]);
      AgreeBefore(s1, u[1..], t1, v[1..]);
      assert s1[15] == t1[15];
      ShortStringsDiffer(s1, u[1..], v[1..]);
      assert u == [u[0]] + u[1..] && v == [v[0]] + v[1..];
    }
  }

  /** The same bits keep different registers different. */
  lemma {:induction false} SuffixInjective(s: Word, t: Word, q: seq<bool>)
    requires Serial(s, q) == Serial(t, q)
    ensures s == t
    decreases |q|
  {
    if q != [] {
      var s1, t1 := Shift(s, q[0]), Shift(t, q[0]);
      SuffixInjective(s1, t1, q[1..]);
      assert s1[15] == t1[15];
      forall i | 1 <= i < 16 ensures s[i] == t[i] {
        assert s1[i - 1] == t1[i - 1];
      }
    }
  }

  /** Any burst of errors confined to sixteen consecutive bits of a frame is detected. */
  lemma {:induction false} BurstDetected(f: seq<bv8>, g: seq<bv8>, p: seq<bool>, u: seq<bool>, v: seq<bool>,
      q: seq<bool>)
    requires Accepted(f)
    requires Bits(f) == p + u + q && Bits(g) == p + v + q
    requires |u| == |v| <= 16 && u != v
    ensures !Accepted(g)
  {
    FoldIsSerial(INIT_FCS, f);
    FoldIsSerial(INIT_FCS, g);
    var s := Serial(INIT_FCS, p);
    SerialConcat(INIT_FCS, p + u, q);
    SerialConcat(INIT_FCS, p, u);
    SerialConcat(INIT_FCS, p + v, q);
    SerialConcat(INIT_FCS, p, v);
    if Accepted(g) {
      SuffixInjective(Serial(s, u), Serial(s, v), q);
      ShortStringsDiffer(s, u, v);
    }
  }

  lemma {:induction false} BitsConcat(a: seq<bv8>, b: seq<bv8>)
    ensures Bits(a + b) == Bits(a) + Bits(b)
  {
    if b == [] {
      assert a + b == a;
    } else {
      assert (a + b)[..|a + b| - 1] == a + b[..|b| - 1];
      BitsConcat(a, b[..|b| - 1]);
    }
  }

  lemma {:induction false} BitsOfTwo(a: bv8, b: bv8)
    ensures Bits([a, b]) == BitsOf(a) + BitsOf(b)
  {
    hide BitsOf;
    assert [a, b][..1] == [a];
    assert Bits([a]) == Bits([]) + BitsOf(a);
  }

  /** A frame that differs from an accepted one only within two adjacent bytes is rejected. */
  lemma {:induction false} TwoByteErrorDetected(p: seq<bv8>, a: bv8, b: bv8, a': bv8, b': bv8, q: seq<bv8>)
    requires Accepted(p + [a, b] + q)
    requires a != a' || b != b'
    ensures !Accepted(p + [a', b'] + q)
  {
    hide BitsOf, ByteOf;
    var u, v := BitsOf(a) + BitsOf(b), BitsOf(a') + BitsOf(b');
    BitsConcat(p + [a, b], q);
    BitsConcat(p, [a, b]);
    BitsConcat(p + [a', b'], q);
    BitsConcat(p, [a', b']);
    BitsOfTwo(a, b);
    BitsOfTwo(a', b');
    if u == v {
      assert BitsOf(a) == u[..8] && BitsOf(b) == u[8..];
      assert BitsOf(a') == v[..8] && BitsOf(b') == v[8..];
      BitsRoundTrip(a);
      BitsRoundTrip(b);
      BitsRoundTrip(a');
      BitsRoundTrip(b');
    }
    BurstDetected(p + [a, b] + q, p + [a', b'] + q, Bits(p), u, v, Bits(q));
  }

  // ---------- every stamped frame is accepted ----------

  lemma {:induction false} StepBits(r: Word, c: bv8, z: bv8, t: Word)
    requires Xor(r[..8], BitsOf(c)) == BitsOf(z) && WordOf(FcsTab(z)) == t
    ensures Step(r, c) == Xor(r[8..] + Zeros(8), t)
  {
    hide BitsOf, ByteOf, WordOf, FcsTab;
    BitsRoundTrip(z);
  }

  function Ones(n: nat): seq<bool> { seq(n, i => true) }

  lemma {:induction false} TableConstants()
    ensures WordOf(FcsTab(0xff)) == BitsOf(0x78) + BitsOf(0x0f)
    ensures WordOf(FcsTab(0x87)) == BitsOf(0xb7) + BitsOf(0xf0)
  {
  }

  lemma {:induction false} Constants()
    ensures WordOf(0xffff) == Ones(16)
    ensures BitsOf(0xff) == Ones(8)
    ensures WordOf(0xf0b8) == BitsOf(0xb8) + BitsOf(0xf0)
    ensures Xor(BitsOf(0x78), BitsOf(0x87)) == Ones(8)
    ensures Xor(BitsOf(0x0f), BitsOf(0xb7)) == BitsOf(0xb8)
  {
  }

  /** After the first check byte the low half differs from the second one just where `b` says. */
  lemma {:induction false} HalfGives(r: Word, c: seq<bool>, t: Word, a: seq<bool>, b: seq<bool>)
    requires |a| == |b| == |c| == 8 && t[..8] == a && Xor(a, b) == Ones(8) && c == Xor(r, Ones(16))[8..]
    ensures var g := Xor(r[8..] + Zeros(8), t); Xor(g[..8], c) == b && g[8..] == t[8..]
  {
    var g := Xor(r[8..] + Zeros(8), t);
    forall i | 0 <= i < 8 ensures Xor(g[..8], c)[i] == b[i] && g[8..][i] == t[8..][i] {
      assert t[i] == t[..8][i] && c[i] == !r[8 + i] && Xor(a, b)[i];
      assert g[i] == (r[8 + i] != a[i]);
    }
  }

  /** The two check bytes bring any register to the same value. */
  lemma {:induction false} CheckGives(r: Word, c1: bv8, c2: bv8)
    requires BitsOf(c1) == Xor(r, Ones(16))[..8] && BitsOf(c2) == Xor(r, Ones(16))[8..]
    ensures Step(Step(r, c1), c2) == GOOD_FCS
  {
    hide Step, BitsOf, WordOf, FcsTab;
    Constants();
    TableConstants();
    var t, t' := WordOf(FcsTab(0xff)), WordOf(FcsTab(0x87));
    FirstGives(r, BitsOf(c1));
    StepBits(r, c1, 0xff, t);
    var g := Xor(r[8..] + Zeros(8), t);
    HalfGives(r, BitsOf(c2), t, BitsOf(0x78), BitsOf(0x87));
    assert t[8..] == BitsOf(0x0f);
    StepBits(g, c2, 0x87, t');
    assert Xor(g[8..] + Zeros(8), t') == WordOf(0xf0b8);
  }

  lemma {:induction false} FirstGives(r: Word, c: seq<bool>)
    requires c == Xor(r, Ones(16))[..8]
    ensures Xor(r[..8], c) == Ones(8)
  {
  }

  /** Every frame finished by the sender drives the receiver to the good value. */
  lemma {:induction false} CheckedIsAccepted(p: seq<bv8>)
    ensures Accepted(p + Check(p))
  {
    hide FcsTab, BitsOf, ByteOf, Step, WordOf;
    var r, c := Fold(INIT_FCS, p), Check(p);
    var f := p + c;
    FoldStep(INIT_FCS, f, |p|);
    FoldStep(INIT_FCS, f, |p| + 1);
    assert f[..|p|] == p && f[..|p| + 2] == f;
    Constants();
    ByteRoundTrip(Complement(r)[..8]);
    ByteRoundTrip(Complement(r)[8..]);
    CheckGives(r, c[0], c[1]);
  }

  /** Every frame finished by the sender drives the receiver to the good value. */
  lemma {:induction false} StampedIsAccepted(block: seq<bv8>)
    requires |block| >= 2
    ensures Accepted(Stamp(block))
  {
    hide Accepted, Check;
    CheckedIsAccepted(block[..|block| - 2]);
  }

  lemma {:induction false} CheckIsUnique(p: seq<bv8>, d: seq<bv8>, c: seq<bv8>)
    requires |d| == |c| == 2 && Accepted(p + d) && Accepted(p + c)
    ensures d == c
  {
    hide Accepted;
    var x, y := [d[0], d[1]], [c[0], c[1]];
    assert d == x && c == y;
    assert p + d == p + x + [] && p + c == p + y + [];
    if d[0] != c[0] || d[1] != c[1] {
      TwoByteErrorDetected(p, d[0], d[1], c[0], c[1], []);
    }
  }

  /** The receiver accepts a frame exactly when its last two bytes are the check of the rest. */
  lemma {:induction false} AcceptedIffStamped(frame: seq<bv8>)
    requires |frame| >= 2
    ensures Accepted(frame) <==> frame == Stamp(frame)
  {
    hide Accepted, Check;
    var p := frame[..|frame| - 2];
    var d := frame[|p|..];
    assert frame == p + d;
    CheckedIsAccepted(p);
    if Accepted(frame) {
      CheckIsUnique(p, d, Check(p));
    }
  }

  // ---------- an odd number of wrong bits is always detected ----------

  predicate Parity(b: seq<bool>) {
    if b == [] then false else b[0] != Parity(b[1..])
  }

  lemma {:induction false} ParityXor(a: seq<bool>, b: seq<bool>)
    requires |a| == |b|
    ensures Parity(Xor(a, b)) == (Parity(a) != Parity(b))
  {
    if a != [] {
      assert Xor(a, b)[1..] == Xor(a[1..], b[1..]);
      ParityXor(a[1..], b[1..]);
    }
  }

  lemma {:induction false} ParityConcat(a: seq<bool>, b: seq<bool>)
    ensures Parity(a + b) == (Parity(a) != Parity(b))
  {
    if a == [] {
      assert a + b == b;
    } else {
      assert (a + b)[1..] == a[1..] + b;
      ParityConcat(a[1..], b);
    }
  }

  lemma {:induction false} ParityZeros(n: nat)
    ensures !Parity(Zeros(n))
  {
    if n > 0 {
      assert Zeros(n)[1..] == Zeros(n - 1);
      ParityZeros(n - 1);
    }
  }

  /** Each shift adds the data bit to the parity of the register: the polynomial has an odd number of taps. */
  lemma {:induction false} ShiftParity(s: Word, bit: bool)
    ensures Parity(Shift(s, bit)) == (Parity(s) != bit)
  {
    var f := s[0] != bit;
    var taps := Zeros(3) + [f] + (Zeros(6) + [f]) + (Zeros(4) + [f]);
    ParityConcat(Zeros(3) + [f] + (Zeros(6) + [f]), Zeros(4) + [f]);
    ParityConcat(Zeros(3) + [f], Zeros(6) + [f]);
    ParityConcat(Zeros(3), [f]);
    ParityConcat(Zeros(6), [f]);
    ParityConcat(Zeros(4), [f]);
    ParityZeros(3);
    ParityZeros(6);
    ParityZeros(4);
    assert Parity([f]) == f;
    var moved := s[1..] + [false];
    ParityConcat(s[1..], [false]);
    ParityXor(moved, taps);
    assert Shift(s, bit) == Xor(moved, taps);
  }

  lemma {:induction false} SerialParity(s: Word, bits: seq<bool>)
    ensures Parity(Serial(s, bits)) == (Parity(s) != Parity(bits))
    decreases |bits|
  {
    if bits != [] {
      ShiftParity(s, bits[0]);
      SerialParity(Shift(s, bits[0]), bits[1..]);
    }
  }

  /** Flipping any odd number of bits of an accepted frame, wherever they are, makes it rejected. */
  lemma {:induction false} OddErrorsDetected(f: seq<bv8>, g: seq<bv8>)
    requires Accepted(f) && |Bits(f)| == |Bits(g)|
    requires Parity(Xor(Bits(f), Bits(g)))
    ensures !Accepted(g)
  {
    ParityXor(Bits(f), Bits(g));
    FoldIsSerial(INIT_FCS, f);
    FoldIsSerial(INIT_FCS, g);
    SerialParity(INIT_FCS, Bits(f));
    SerialParity(INIT_FCS, Bits(g));
  }

  // ---------- the preset ----------

  /** The test of RFC 1662 section C.2 on the bits of the frame: a register of sixteen ones ends as 0xf0b8. */
  lemma {:induction false} AcceptedIsSerial(frame: seq<bv8>)
    ensures var ones := [true, true, true, true, true, true, true, true,
                         true, true, true, true, true, true, true, true];
      var last := [false, false, false, true, true, true, false, true,
                   false, false, false, false, true, true, true, true];
      Accepted(frame) <==> Serial(ones, Bits(frame)) == last
  {
    FoldIsSerial(INIT_FCS, frame);
  }

  /** The two check bytes are the complement of what the bits of the payload make of sixteen ones. */
  lemma {:induction false} CheckIsSerial(p: seq<bv8>)
    ensures var ones := [true, true, true, true, true, true, true, true,
                         true, true, true, true, true, true, true, true];
      var c := Check(p);
      && |c| == 2
      && forall i :: 0 <= i < 8 ==>
           && BitsOf(c[0])[i] == !Serial(ones, Bits(p))[i]
           && BitsOf(c[1])[i] == !Serial(ones, Bits(p))[i + 8]
  {
    hide BitsOf, ByteOf, WordOf, Fold, Serial, Bits;
    Constants();
    var ones := [true, true, true, true, true, true, true, true, true, true, true, true, true, true, true, true];
    assert ones == INIT_FCS;
    FoldIsSerial(ones, p);
    var r := Fold(ones, p);
    ByteRoundTrip(Complement(r)[..8]);
    ByteRoundTrip(Complement(r)[8..]);
  }

  lemma {:induction false} PresetMoves(c: bv8)
    ensures Step(INIT_FCS, c) != INIT_FCS
  {
    hide BitsOf, ByteOf, WordOf, FcsTab;
    Constants();
    var z := ByteOf(Xor(INIT_FCS[..8], BitsOf(c)));
    var t := WordOf(FcsTab(z));
    TableBits(z);
    assert t[9] == (t[4] != t[2]);
    assert forall i :: 0 <= i < 16 ==> Step(INIT_FCS, c)[i] == ((i < 8) != t[i]);
  }

  /** A byte put before an accepted frame, a zero byte too, is detected. */
  lemma {:induction false} LeadingByteDetected(c: bv8, f: seq<bv8>)
    requires Accepted(f)
    ensures !Accepted([c] + f)
  {
    hide BitsOf, Step, WordOf;
    BitsConcat([c], f);
    assert Bits([c]) == BitsOf(c) by { assert [c][..0] == []; }
    FoldIsSerial(INIT_FCS, [c] + f);
    FoldIsSerial(INIT_FCS, f);
    SerialConcat(INIT_FCS, BitsOf(c), Bits(f));
    StepIsSerial(INIT_FCS, c);
    PresetMoves(c);
    if Accepted([c] + f) {
      SuffixInjective(Serial(INIT_FCS, BitsOf(c)), INIT_FCS, Bits(f));
    }
  }

  // ---------- the loops ----------

  lemma {:induction false} FoldStep(s: Word, data: seq<bv8>, n: nat)
    requires n < |data|
    ensures Fold(s, data[..n + 1]) == Step(Fold(s, data[..n]), data[n])
  {
    assert data[..n + 1][..n] == data[..n];
  }

  /** calc_fcs: the last two bytes of the block become the check of the bytes before them. */
  method CalcFcs(data: array<bv8>, len: nat)
    requires len <= data.Length
    modifies data
    ensures data[..] == Stamp(old(data[..len])) + old(data[len..])
  {
    hide Step, Complement, WordOf, ByteOf;
    if len < 2 {
      return;
    }
    var fcs: Word := INIT_FCS;
    for x := 0 to len - 2
      invariant data[..] == old(data[..])
      invariant fcs == Fold(INIT_FCS, data[..x])
    {
      FoldStep(INIT_FCS, data[..], x);
      assert data[..][..x] == data[..x] && data[..][..x + 1] == data[..x + 1];
      fcs := Step(fcs, data[x]);
    }
    assert data[..len][..len - 2] == data[..len - 2];
    fcs := Complement(fcs);
    data[len - 2] := ByteOf(fcs[..8]);
    data[len - 1] := ByteOf(fcs[8..]);
  }

  /** send_packet: the bytes handed to the framer are the buffer followed by its check. */
  method SendPacket(buf: array<bv8>) returns (loaded: seq<bv8>)
    ensures loaded == buf[..] + Check(buf[..])
  {
    hide Step, Complement, WordOf, ByteOf;
    loaded := [];
    var fcs: Word := INIT_FCS;
    for x := 0 to buf.Length
      invariant loaded == buf[..x]
      invariant fcs == Fold(INIT_FCS, buf[..x])
    {
      FoldStep(INIT_FCS, buf[..], x);
      assert buf[..][..x] == buf[..x] && buf[..][..x + 1] == buf[..x + 1];
      loaded := loaded + [buf[x]];
      fcs := Step(fcs, buf[x]);
    }
    assert buf[..buf.Length] == buf[..];
    fcs := Complement(fcs);
    loaded := loaded + [ByteOf(fcs[..8])];
    loaded := loaded + [ByteOf(fcs[8..])];
  }

  /** check_frame: whether the received frame, check included, is good. */
  method CheckFrame(outbuf: array<bv8>, res: nat) returns (good: bool)
    requires res <= outbuf.Length
    ensures var ones := [true, true, true, true, true, true, true, true,
                         true, true, true, true, true, true, true, true];
      var last := [false, false, false, true, true, true, false, true,
                   false, false, false, false, true, true, true, true];
      good <==> Serial(ones, Bits(outbuf[..res])) == last
    ensures good <==> Accepted(outbuf[..res])
    ensures res >= 2 ==> (good <==> outbuf[..res] == Stamp(outbuf[..res]))
  {
    AcceptedIsSerial(outbuf[..res]);
    hide Step, Stamp, Serial, Bits;
    var fcs: Word := INIT_FCS;
    for x := 0 to res
      invariant fcs == Fold(INIT_FCS, outbuf[..x])
    {
      FoldStep(INIT_FCS, outbuf[..], x);
      assert outbuf[..][..x] == outbuf[..x] && outbuf[..][..x + 1] == outbuf[..x + 1];
      fcs := Step(fcs, outbuf[x]);
    }
    if res >= 2 {
      AcceptedIffStamped(outbuf[..res]);
    }
    good := fcs == GOOD_FCS;
  }
}
