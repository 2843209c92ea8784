/** Dynamic spans: one message carries a chunk and the signalling of every channel; a
    16-bit counter shows lost messages. */
module Dynamic {
  import opened Basics

  const CHUNKSIZE := 8
  const MAX_CHANS := 256

  type Nibble = x: int | 0 <= x < 16

  // ---------- what is sent ----------

  /** The signalling nibble of channel `i`, 0 beyond the last. */
  function N(nibs: seq<Nibble>, i: nat): Nibble {
    if i < |nibs| then nibs[i] else 0
  }

  /** The signalling word of channels `4g` to `4g + 3`, the first one lowest. */
  function SigWord(nibs: seq<Nibble>, g: nat): Word {
    N(nibs, 4 * g) + 16 * N(nibs, 4 * g + 1) + 256 * N(nibs, 4 * g + 2) + 4096 * N(nibs, 4 * g + 3)
  }

  /** A word in network byte order. */
  function Htons(w: Word): (b: seq<Byte>)
    ensures |b| == 2
  {
    [w / 256, w % 256]
  }

  function Ntohs(hi: Byte, lo: Byte): Word {
    256 * hi + lo
  }

  /** The first `groups` signalling words. */
  function SigBytes(nibs: seq<Nibble>, groups: nat): (b: seq<Byte>)
    ensures |b| == 2 * groups
  {
    if groups == 0 then [] else SigBytes(nibs, groups - 1) + Htons(SigWord(nibs, groups - 1))
  }

  function Groups(channels: nat): nat {
    (channels + 3) / 4
  }

  type Chunk = c: seq<Byte> | |c| == CHUNKSIZE witness [0, 0, 0, 0, 0, 0, 0, 0]

  function Data(chunks: seq<Chunk>): (b: seq<Byte>)
    ensures |b| == CHUNKSIZE * |chunks|
  {
    if chunks == [] then [] else Data(chunks[..|chunks| - 1]) + chunks[|chunks| - 1]
  }

  function Nibbles(sigs: seq<Byte>): (n: seq<Nibble>)
    ensures |n| == |sigs|
  {
    seq(|sigs|, i requires 0 <= i < |sigs| => sigs[i] % 16)
  }

  function Header(red: bool, cnt: Word, channels: Word): (b: seq<Byte>)
    ensures |b| == 6
  {
    [CHUNKSIZE, if red then 3 else 2] + Htons(cnt) + Htons(channels)
  }

  /** The loop fills one word too many for a span without channels. */
  function SentGroups(channels: nat): nat {
    if channels == 0 then 1 else Groups(channels)
  }

  /** The message of ztd_sendmessage. */
  function Message(red: bool, cnt: Word, sigs: seq<Byte>, chunks: seq<Chunk>): seq<Byte>
    requires |sigs| == |chunks| < MAX_CHANS
  {
    Header(red, cnt, |sigs|) + SigBytes(Nibbles(sigs), SentGroups(|sigs|)) + Data(chunks)
  }

  function MessageLength(channels: nat): nat {
    6 + 2 * SentGroups(channels) + CHUNKSIZE * channels
  }

  /** What create_dynamic allocates for the message. */
  function BufferSize(channels: nat): nat {
    CHUNKSIZE * channels + channels / 4 + 48
  }

  // ---------- what is received ----------

  datatype Error = NoError | BadLength(expected: int) | BadSamples(samples: Byte) | BadChannels(channels: Word)

  /** The receiving side of a span. */
  datatype Rx = Rx(rxcnt: Word, err: Error, red: bool, yellow: bool, sigs: seq<Byte>, chunks: seq<Chunk>)

  datatype Verdict = Refused(error: Error) | Taken(gap: bool)

  /** Eight bits of a signalling word, from nibble `offset` up. */
  function Pick(bits: Word, offset: nat): Byte
    requires offset < 4
  {
    (if offset == 0 then bits
     else if offset == 1 then bits / 16
     else if offset == 2 then bits / 256
     else bits / 4096) % 256
  }

  /** The signalling bits read for channel `x` from the words at `at`: eight of them. */
  function SigAt(msg: seq<Byte>, at: nat, x: nat): Byte
    requires at + 2 * (x / 4) + 2 <= |msg|
  {
    Pick(Ntohs(msg[at + 2 * (x / 4)], msg[at + 2 * (x / 4) + 1]), x % 4)
  }

  predicate HasSigs(flags: Byte) { flags / 2 % 2 == 1 }

  function ExpectedLength(flags: Byte, channels: nat): nat {
    6 + channels * CHUNKSIZE + if HasSigs(flags) then 2 * Groups(channels) else 0
  }

  /** dahdi_dynamic_receive's checks. */
  function Check(channels: nat, msg: seq<Byte>): Error {
    if |msg| < 6 then BadLength(0)
    else if msg[0] != CHUNKSIZE then BadSamples(msg[0])
    else if Ntohs(msg[4], msg[5]) != channels then BadChannels(Ntohs(msg[4], msg[5]))
    else if ExpectedLength(msg[1], channels) != |msg| then BadLength(ExpectedLength(msg[1], channels))
    else NoError
  }

  function ReadSigs(msg: seq<Byte>, channels: nat): (s: seq<Byte>)
    requires 6 + 2 * Groups(channels) <= |msg|
    ensures |s| == channels
  {
    seq(channels, x requires 0 <= x < channels => SigAt(msg, 6, x))
  }

  function TakenSigs(r: Rx, msg: seq<Byte>): seq<Byte>
    requires Check(|r.sigs|, msg) == NoError
  {
    if HasSigs(msg[1]) then ReadSigs(msg, |r.sigs|) else r.sigs
  }

  function TakenChunks(channels: nat, msg: seq<Byte>): seq<Chunk>
    requires Check(channels, msg) == NoError
  {
    var at := 6 + if HasSigs(msg[1]) then 2 * Groups(channels) else 0;
    seq(channels, x requires 0 <= x < channels => msg[at + CHUNKSIZE * x..at + CHUNKSIZE * x + CHUNKSIZE])
  }

  /** dahdi_dynamic_receive: a refused message changes only the noted error. */
  function Receive(r: Rx, msg: seq<Byte>): (Rx, Verdict)
    requires |r.sigs| == |r.chunks|
  {
    var e := Check(|r.sigs|, msg);
    if e != NoError then (r.(err := e), Refused(e))
    else
      var pos := Ntohs(msg[2], msg[3]);
      (r.(rxcnt := (pos + 1) % 65536, red := false, yellow := msg[1] % 2 == 1,
          sigs := TakenSigs(r, msg), chunks := TakenChunks(|r.sigs|, msg)),
       Taken(pos != r.rxcnt))
  }

  // ---------- sent and received ----------

  lemma {:induction false} SigBytesAt(nibs: seq<Nibble>, groups: nat, g: nat)
    requires g < groups
    ensures var b := SigBytes(nibs, groups);
      b[2 * g] == SigWord(nibs, g) / 256 && b[2 * g + 1] == SigWord(nibs, g) % 256
  {
    if g < groups - 1 {
      SigBytesAt(nibs, groups - 1, g);
    }
  }

  lemma {:induction false} DataAt(chunks: seq<Chunk>, x: nat)
    requires x < |chunks|
    ensures Data(chunks)[CHUNKSIZE * x..CHUNKSIZE * x + CHUNKSIZE] == chunks[x]
  {
    var init := chunks[..|chunks| - 1];
    if x < |init| {
      DataAt(init, x);
      assert Data(chunks)[CHUNKSIZE * x..CHUNKSIZE * x + CHUNKSIZE] ==
        Data(init)[CHUNKSIZE * x..CHUNKSIZE * x + CHUNKSIZE];
    }
  }

  /** The nibble above a channel's own in what the receiver reads: its neighbour's, within the word. */
  function Above(nibs: seq<Nibble>, x: nat): Nibble {
    if x % 4 == 3 then 0 else N(nibs, x + 1)
  }

  /** What every channel reads: its own nibble, and above it the neighbour's. */
  function WithNeighbours(nibs: seq<Nibble>): (s: seq<Byte>)
    ensures |s| == |nibs|
  {
    seq(|nibs|, x requires 0 <= x < |nibs| => nibs[x] + 16 * Above(nibs, x))
  }

  lemma {:induction false} WordSplits(nibs: seq<Nibble>, x: nat)
    ensures Pick(SigWord(nibs, x / 4), x % 4) == N(nibs, x) + 16 * Above(nibs, x)
  {
    var g := x / 4;
    Digits(N(nibs, 4 * g), N(nibs, 4 * g + 1), N(nibs, 4 * g + 2), N(nibs, 4 * g + 3));
  }

  lemma {:induction false} Digits(a: Nibble, b: Nibble, c: Nibble, d: Nibble)
    ensures var w := a + 16 * b + 256 * c + 4096 * d;
      w % 256 == a + 16 * b && w / 16 % 256 == b + 16 * c && w / 256 % 256 == c + 16 * d && w / 4096 % 256 == d
  {
    var w := a + 16 * b + 256 * c + 4096 * d;
    Divides(w, 256, c + 16 * d, a + 16 * b);
    Divides(w, 16, b + 16 * c + 256 * d, a);
    Divides(b + 16 * c + 256 * d, 256, d, b + 16 * c);
    Divides(w, 4096, d, a + 16 * b + 256 * c);
  }

  lemma {:induction false} Divides(w: int, m: int, q: int, r: int)
    requires m > 0 && w == m * q + r && 0 <= r < m
    ensures w / m == q && w % m == r
  {
    if w / m < q {
      Less(m, w / m, q);
    } else if w / m > q {
      Less(m, q, w / m);
    }
  }

  lemma {:induction false} Less(m: int, a: int, b: int)
    requires m > 0 && a < b
    ensures m * a + m <= m * b
    decreases b - a
  {
    assert m * b == m * (b - 1) + m;
    if a + 1 < b {
      Less(m, a, b - 1);
    }
  }

  lemma {:induction false} MessageForm(red: bool, cnt: Word, sigs: seq<Byte>, chunks: seq<Chunk>)
    requires |sigs| == |chunks| < MAX_CHANS
    ensures var m, n := Message(red, cnt, sigs, chunks), |sigs|;
      && |m| == MessageLength(n)
      && m[0] == CHUNKSIZE && m[1] == (if red then 3 else 2)
      && Ntohs(m[2], m[3]) == cnt && Ntohs(m[4], m[5]) == n
      && m[6..6 + 2 * SentGroups(n)] == SigBytes(Nibbles(sigs), SentGroups(n))
      && m[6 + 2 * SentGroups(n)..] == Data(chunks)
  {
    var h, s, d := Header(red, cnt, |sigs|), SigBytes(Nibbles(sigs), SentGroups(|sigs|)), Data(chunks);
    assert forall k :: 0 <= k < 6 ==> (h + s + d)[k] == h[k];
    hide SigBytes, Data, Nibbles;
  }

  /** The message fits the buffer allocated for it up to 164 channels, and for 168. */
  lemma {:induction false} MessageFits(red: bool, cnt: Word, sigs: seq<Byte>, chunks: seq<Chunk>)
    requires |sigs| == |chunks| < MAX_CHANS
    ensures |Message(red, cnt, sigs, chunks)| <= BufferSize(|sigs|) <==> |sigs| <= 164 || |sigs| == 168
  {
    MessageForm(red, cnt, sigs, chunks);
    hide Message;
    var n := |sigs|;
    assert n == 4 * (n / 4) + n % 4;
  }

  lemma {:induction false} SigsReceived(m: seq<Byte>, nibs: seq<Nibble>)
    requires 6 + 2 * Groups(|nibs|) <= |m| && m[6..6 + 2 * Groups(|nibs|)] == SigBytes(nibs, Groups(|nibs|))
    ensures ReadSigs(m, |nibs|) == WithNeighbours(nibs)
  {
    forall x | 0 <= x < |nibs| ensures ReadSigs(m, |nibs|)[x] == WithNeighbours(nibs)[x] {
      SigReceived(m, nibs, x);
    }
  }

  lemma {:induction false} ChunksReceived(m: seq<Byte>, at: nat, chunks: seq<Chunk>)
    requires at <= |m| && m[at..] == Data(chunks)
    ensures forall x :: 0 <= x < |chunks| ==> m[at + CHUNKSIZE * x..at + CHUNKSIZE * x + CHUNKSIZE] == chunks[x]
  {
    hide Data;
    forall x | 0 <= x < |chunks| ensures m[at + CHUNKSIZE * x..at + CHUNKSIZE * x + CHUNKSIZE] == chunks[x] {
      DataAt(chunks, x);
      SliceOf(m, at, CHUNKSIZE * x);
    }
  }

  /** A message is accepted by a span with as many channels, unless there are none; every
      chunk arrives, and every channel reads its own nibble below its neighbour's. */
  lemma {:induction false} SentIsReceived(red: bool, cnt: Word, sigs: seq<Byte>, chunks: seq<Chunk>, r: Rx)
    requires |sigs| == |chunks| == |r.sigs| == |r.chunks| < MAX_CHANS
    ensures var (r', v) := Receive(r, Message(red, cnt, sigs, chunks));
      && (v.Taken? <==> |sigs| > 0)
      && (v.Taken? ==>
        && r'.chunks == chunks && r'.sigs == WithNeighbours(Nibbles(sigs))
        && r'.rxcnt == (cnt + 1) % 65536 && r'.yellow == red && !r'.red
        && v.gap == (cnt != r.rxcnt))
  {
    hide Message, SigBytes, Data, Nibbles, WithNeighbours, Check, TakenSigs, TakenChunks, Ntohs;
    HeaderFields(red, cnt, sigs, chunks);
    MessageChecks(red, cnt, sigs, chunks);
    if |sigs| > 0 {
      MessageRead(red, cnt, sigs, chunks, r);
    }
  }

  lemma {:induction false} HeaderFields(red: bool, cnt: Word, sigs: seq<Byte>, chunks: seq<Chunk>)
    requires |sigs| == |chunks| < MAX_CHANS
    ensures var m := Message(red, cnt, sigs, chunks);
      |m| >= 6 && Ntohs(m[2], m[3]) == cnt && (m[1] % 2 == 1 <==> red)
  {
    hide Message, SigBytes, Data, Nibbles, Ntohs, SentGroups;
    MessageForm(red, cnt, sigs, chunks);
  }

  lemma {:induction false} MessageChecks(red: bool, cnt: Word, sigs: seq<Byte>, chunks: seq<Chunk>)
    requires |sigs| == |chunks| < MAX_CHANS
    ensures Check(|sigs|, Message(red, cnt, sigs, chunks)) == NoError <==> |sigs| > 0
  {
    MessageForm(red, cnt, sigs, chunks);
    hide Message, SigBytes, Data, Nibbles;
  }

  lemma {:induction false} MessageRead(red: bool, cnt: Word, sigs: seq<Byte>, chunks: seq<Chunk>, r: Rx)
    requires 0 < |sigs| == |chunks| == |r.sigs| < MAX_CHANS
    requires Check(|sigs|, Message(red, cnt, sigs, chunks)) == NoError
    ensures TakenSigs(r, Message(red, cnt, sigs, chunks)) == WithNeighbours(Nibbles(sigs))
    ensures TakenChunks(|sigs|, Message(red, cnt, sigs, chunks)) == chunks
  {
    hide Message, SigBytes, Data, Nibbles, WithNeighbours, Check, TakenSigs, TakenChunks, Ntohs;
    MessageForm(red, cnt, sigs, chunks);
    PartsTaken(Message(red, cnt, sigs, chunks), sigs, chunks, r);
  }

  lemma {:induction false} PartsTaken(m: seq<Byte>, sigs: seq<Byte>, chunks: seq<Chunk>, r: Rx)
    requires 0 < |sigs| == |chunks| == |r.sigs| && |m| >= 6 && Check(|sigs|, m) == NoError && HasSigs(m[1])
    requires 6 + 2 * Groups(|sigs|) <= |m|
    requires m[6..6 + 2 * Groups(|sigs|)] == SigBytes(Nibbles(sigs), Groups(|sigs|))
    requires m[6 + 2 * Groups(|sigs|)..] == Data(chunks)
    ensures TakenSigs(r, m) == WithNeighbours(Nibbles(sigs)) && TakenChunks(|sigs|, m) == chunks
  {
    hide SigBytes, Data, ReadSigs, Nibbles, WithNeighbours, Check, Groups, HasSigs;
    SigsReceived(m, Nibbles(sigs));
    ChunksReceived(m, 6 + 2 * Groups(|sigs|), chunks);
  }

  lemma {:induction false} SliceOf(m: seq<Byte>, at: nat, o: nat)
    requires at + o + CHUNKSIZE <= |m|
    ensures m[at..][o..o + CHUNKSIZE] == m[at + o..at + o + CHUNKSIZE]
  {
  }

  lemma {:induction false} SigReceived(m: seq<Byte>, nibs: seq<Nibble>, x: nat)
    requires x < |nibs| && 6 + 2 * Groups(|nibs|) <= |m|
    requires m[6..6 + 2 * Groups(|nibs|)] == SigBytes(nibs, Groups(|nibs|))
    ensures SigAt(m, 6, x) == N(nibs, x) + 16 * Above(nibs, x)
  {
    hide SigBytes, SigWord, Above, N;
    var g, b := x / 4, SigBytes(nibs, Groups(|nibs|));
    SigBytesAt(nibs, Groups(|nibs|), g);
    assert m[6 + 2 * g] == b[2 * g] && m[6 + 2 * g + 1] == b[2 * g + 1];
    var w := SigWord(nibs, g);
    Divides(w, 256, w / 256, w % 256);
    assert Ntohs(m[6 + 2 * g], m[6 + 2 * g + 1]) == w;
    WordSplits(nibs, x);
  }

  /** The receiver sees a channel's signalling as it was sent, to its low nibble, exactly when
      the next channel of the same word is silent or absent. */
  lemma {:induction false} SigIsExact(sigs: seq<Byte>, x: nat)
    requires x < |sigs|
    ensures (WithNeighbours(Nibbles(sigs))[x] == sigs[x] % 16 <==>
      x % 4 == 3 || x + 1 == |sigs| || sigs[x + 1] % 16 == 0)
    ensures WithNeighbours(Nibbles(sigs))[x] % 16 == sigs[x] % 16
  {
  }

  // ---------- the message, byte by byte ----------

  /** The bytes on the wire: samples a chunk, flags, counter and channels high byte first; for every
      four channels two bytes of signalling, the third and fourth channel in the first of them; then
      eight bytes a channel. */
  lemma {:induction false} WireIs(red: bool, cnt: Word, sigs: seq<Byte>, chunks: seq<Chunk>)
    requires 0 < |sigs| == |chunks| < MAX_CHANS
    ensures var m, n, g := Message(red, cnt, sigs, chunks), |sigs|, (|sigs| + 3) / 4;
      && |m| == 6 + 2 * g + 8 * n
      && m[..6] == [8, if red then 3 else 2, cnt / 256, cnt % 256, n / 256, n % 256]
      && (forall k :: 0 <= k < g ==> SigPair(m, sigs, k))
      && (forall x, j :: 0 <= x < n && 0 <= j < 8 ==> m[6 + 2 * g + 8 * x + j] == chunks[x][j])
  {
    var m, n, g := Message(red, cnt, sigs, chunks), |sigs|, (|sigs| + 3) / 4;
    MessageForm(red, cnt, sigs, chunks);
    assert m[..6] == Header(red, cnt, n);
    hide Message, SigBytes, Data, Ntohs;
    forall k | 0 <= k < g ensures SigPair(m, sigs, k) {
      SigPairIs(m, sigs, g, k);
    }
    forall x, j | 0 <= x < n && 0 <= j < 8 ensures m[6 + 2 * g + 8 * x + j] == chunks[x][j] {
      DataAt(chunks, x);
      assert chunks[x][j] == Data(chunks)[8 * x + j];
    }
  }

  /** Word `k` of the signalling: each channel's low four bits. */
  predicate SigPair(m: seq<Byte>, sigs: seq<Byte>, k: nat) {
    var sig := (i: nat) => if i < |sigs| then sigs[i] % 16 else 0;
    && 8 + 2 * k <= |m|
    && m[6 + 2 * k] as int == sig(4 * k + 2) + 16 * sig(4 * k + 3)
    && m[7 + 2 * k] as int == sig(4 * k) + 16 * sig(4 * k + 1)
  }

  lemma {:induction false} SigPairIs(m: seq<Byte>, sigs: seq<Byte>, g: nat, k: nat)
    requires k < g && 6 + 2 * g <= |m| && m[6..6 + 2 * g] == SigBytes(Nibbles(sigs), g)
    ensures SigPair(m, sigs, k)
  {
    var b, nibs := SigBytes(Nibbles(sigs), g), Nibbles(sigs);
    SigBytesAt(nibs, g, k);
    hide SigBytes;
    assert m[6 + 2 * k] == b[2 * k] && m[7 + 2 * k] == b[2 * k + 1];
    var lo, hi := N(nibs, 4 * k) + 16 * N(nibs, 4 * k + 1), N(nibs, 4 * k + 2) + 16 * N(nibs, 4 * k + 3);
    Divides(SigWord(nibs, k), 256, hi, lo);
  }

  /** Which messages are taken, and what is read from one: whether the other end is in alarm, whether
      messages were lost, eight bytes for every channel, and its signalling, if there is any, four
      bits of it out of the channel's own place. */
  lemma {:induction false} TakenIs(r: Rx, m: seq<Byte>)
    requires |r.sigs| == |r.chunks|
    ensures var (r', v) := Receive(r, m);
      var n := |r.sigs|;
      var flagged := |m| >= 6 && m[1] / 2 % 2 == 1;
      var (hi: int, lo: int) := if |m| >= 6 then (m[4], m[5]) else (0, 0);
      v.Taken? <==> |m| >= 6 && m[0] == 8 && 256 * hi + lo == n &&
                    |m| == 6 + (if flagged then 2 * ((n + 3) / 4) else 0) + 8 * n
    ensures var (r', v) := Receive(r, m);
      v.Taken? ==>
        var (hi: int, lo: int) := (m[2], m[3]);
        && (r'.yellow <==> m[1] % 2 == 1) && !r'.red && r'.err == r.err
        && r'.rxcnt as int == (256 * hi + lo + 1) % 65536 && v.gap == (256 * hi + lo != r.rxcnt)
        && |r'.sigs| == |r'.chunks| == |r.sigs|
    ensures var (r', v) := Receive(r, m);
      v.Refused? ==> r' == r.(err := v.error) && v.error != NoError
  {
    hide ReadSigs;
  }

  /** What is noted of a refused message: zero when it is too short for a header, else its wrong
      number of samples, its wrong number of channels, or the length it should have had. */
  lemma {:induction false} ErrorIs(r: Rx, m: seq<Byte>)
    requires |r.sigs| == |r.chunks| && Receive(r, m).1.Refused?
    ensures var (hi: int, lo: int) := if |m| >= 6 then (m[4], m[5]) else (0, 0);
      match Receive(r, m).1.error
      case NoError => false
      case BadSamples(samples) => |m| >= 6 && samples == m[0] && samples != 8
      case BadChannels(channels) =>
        |m| >= 6 && m[0] == 8 && channels as int == 256 * hi + lo && channels != |r.sigs|
      case BadLength(expected) =>
        if |m| < 6 then expected == 0
        else
          && m[0] == 8 && 256 * hi + lo == |r.sigs| && expected != |m|
          && expected == 6 + 8 * |r.sigs| + if m[1] / 2 % 2 == 1 then 2 * ((|r.sigs| + 3) / 4) else 0
  {
  }

  lemma {:induction false} ChannelIs(r: Rx, m: seq<Byte>, x: nat)
    requires |r.sigs| == |r.chunks| && x < |r.sigs| && Receive(r, m).1.Taken?
    ensures var r' := Receive(r, m).0;
      var at := 6 + if m[1] / 2 % 2 == 1 then 2 * ((|r.sigs| + 3) / 4) else 0;
      && |m| == at + 8 * |r.sigs|
      && r'.chunks[x] == m[at + 8 * x..at + 8 * x + 8]
      && (m[1] / 2 % 2 != 1 ==> r'.sigs[x] == r.sigs[x])
      && (m[1] / 2 % 2 == 1 ==>
            var (hi: int, lo: int) := (m[6 + 2 * (x / 4)], m[7 + 2 * (x / 4)]);
            r'.sigs[x] % 16 == if x % 4 == 0 then lo % 16 else if x % 4 == 1 then lo / 16
                               else if x % 4 == 2 then hi % 16 else hi / 16)
  {
    hide ReadSigs, SigAt;
    if m[1] / 2 % 2 == 1 {
      SigIs(m, |r.sigs|, x);
    }
  }

  lemma {:induction false} SigIs(m: seq<Byte>, channels: nat, x: nat)
    requires x < channels && 6 + 2 * Groups(channels) <= |m|
    ensures var (hi: int, lo: int) := (m[6 + 2 * (x / 4)], m[7 + 2 * (x / 4)]);
      ReadSigs(m, channels)[x] % 16 == if x % 4 == 0 then lo % 16 else if x % 4 == 1 then lo / 16
                                       else if x % 4 == 2 then hi % 16 else hi / 16
  {
    hide Pick;
    PickIs(m[6 + 2 * (x / 4)], m[7 + 2 * (x / 4)], x % 4);
  }

  lemma {:induction false} PickIs(hi: Byte, lo: Byte, o: nat)
    requires o < 4
    ensures Pick(Ntohs(hi, lo), o) % 16 ==
      if o == 0 then lo % 16 else if o == 1 then lo / 16 else if o == 2 then hi % 16 else hi / 16
  {
    var a, b, c, d := lo % 16, lo / 16, hi % 16, hi / 16;
    Digits(a, b, c, d);
    assert Ntohs(hi, lo) as int == a + 16 * b + 256 * c + 4096 * d;
    LowNibble(a, b);
    LowNibble(b, c);
    LowNibble(c, d);
    LowNibble(d, 0);
  }

  lemma {:induction false} LowNibble(a: Nibble, b: Nibble)
    ensures (a + 16 * b) % 16 == a
  {
  }

  // ---------- lost messages ----------

  /** One message of a run: what it carries, and whether it arrives. */
  datatype Turn = Turn(arrives: bool, red: bool, sigs: seq<Byte>, chunks: seq<Chunk>)

  ghost predicate Fits(turns: seq<Turn>, channels: nat) {
    forall k :: 0 <= k < |turns| ==> |turns[k].sigs| == |turns[k].chunks| == channels
  }

  /** The receiver after a run of messages numbered from `cnt` on, and the reports of gaps at those that arrived. */
  function Run(r: Rx, cnt: Word, turns: seq<Turn>): (Rx, seq<bool>)
    requires |r.sigs| == |r.chunks| && 0 < |r.sigs| < MAX_CHANS && Fits(turns, |r.sigs|)
    decreases |turns|
  {
    if turns == [] then (r, [])
    else
      var t := turns[0];
      var next := (cnt + 1) % 65536;
      if !t.arrives then Run(r, next, turns[1..])
      else
        SentIsReceived(t.red, cnt, t.sigs, t.chunks, r);
        var (r', v) := Receive(r, Message(t.red, cnt, t.sigs, t.chunks));
        var (last, reports) := Run(r', next, turns[1..]);
        (last, [v.gap] + reports)
  }

  /** The number of messages lost just before each that arrives, `lost` of them before the first turn. */
  function Losses(turns: seq<Turn>, lost: nat): seq<nat>
    decreases |turns|
  {
    if turns == [] then []
    else if !turns[0].arrives then Losses(turns[1..], lost + 1)
    else [lost] + Losses(turns[1..], 0)
  }

  /** However long the run, a gap is reported exactly when the number of messages lost since
      the last accepted one is not a multiple of 65536. */
  lemma {:induction false} GapsAreReported(r: Rx, cnt: Word, turns: seq<Turn>, lost: nat)
    requires |r.sigs| == |r.chunks| && 0 < |r.sigs| < MAX_CHANS && Fits(turns, |r.sigs|)
    requires cnt == (r.rxcnt + lost) % 65536
    ensures var reports, losses := Run(r, cnt, turns).1, Losses(turns, lost);
      && |reports| == |losses|
      && forall k :: 0 <= k < |reports| ==> (reports[k] <==> losses[k] % 65536 != 0)
    decreases |turns|
  {
    hide Message, Receive;
    if turns != [] {
      var t := turns[0];
      var next := (cnt + 1) % 65536;
      if !t.arrives {
        GapsAreReported(r, next, turns[1..], lost + 1);
      } else {
        SentIsReceived(t.red, cnt, t.sigs, t.chunks, r);
        var (r', v) := Receive(r, Message(t.red, cnt, t.sigs, t.chunks));
        GapsAreReported(r', next, turns[1..], 0);
        Wraps(r.rxcnt, lost);
      }
    }
  }

  lemma {:induction false} Wraps(a: Word, lost: nat)
    ensures (a + lost) % 65536 == a <==> lost % 65536 == 0
  {
  }

  // ---------- the span ----------

  /** A dynamic span, both directions; the message buffer is large enough for its channels. */
  class Span {
    const msgbuf: array<Byte>
    const txsig: array<Byte>
    const rxsig: array<Byte>
    const writechunk: array<Chunk>
    const readchunk: array<Chunk>
    var txcnt: Word
    var rxcnt: Word
    var err: Error
    var red: bool
    var yellow: bool

    ghost predicate Valid()
      reads this, msgbuf, txsig, rxsig, writechunk, readchunk
    {
      && txsig.Length == rxsig.Length == writechunk.Length == readchunk.Length < MAX_CHANS
      && msgbuf != txsig && msgbuf != rxsig && txsig != rxsig && writechunk != readchunk
      && msgbuf.Length >= MessageLength(txsig.Length)
    }

    ghost function Receiver(): Rx
      reads this, rxsig, readchunk
    {
      Rx(rxcnt, err, red, yellow, rxsig[..], readchunk[..])
    }

    /** create_dynamic for a number of channels it accepts; whether the buffer will do is `MessageFits`. */
    constructor (channels: nat, silence: Chunk)
      requires 1 <= channels < MAX_CHANS
      ensures Valid() <==> MessageLength(channels) <= BufferSize(channels)
      ensures fresh(msgbuf) && fresh(txsig) && fresh(rxsig) && fresh(writechunk) && fresh(readchunk)
      ensures txsig.Length == channels && txcnt == 0 && rxcnt == 0 && err == NoError
    {
      msgbuf := new Byte[BufferSize(channels)](i => 0);
      txsig := new Byte[channels](i => 0);
      rxsig := new Byte[channels](i => 0);
      writechunk := new Chunk[channels](i => silence);
      readchunk := new Chunk[channels](i => silence);
      txcnt, rxcnt, err, red, yellow := 0, 0, NoError, false, false;
    }

    /** One byte at the moving pointer. */
    method Put(buf: nat, b: Byte)
      requires buf < msgbuf.Length
      modifies msgbuf
      ensures msgbuf[..buf + 1] == old(msgbuf[..buf]) + [b]
    {
      msgbuf[buf] := b;
    }

    /** A word at the moving pointer, high byte first. */
    method PutWord(buf: nat, w: Word)
      requires buf + 2 <= msgbuf.Length
      modifies msgbuf
      ensures msgbuf[..buf + 2] == old(msgbuf[..buf]) + Htons(w)
    {
      Put(buf, w / 256);
      Put(buf + 1, w % 256);
    }

    method PutChunk(buf: nat, chunk: Chunk)
      requires buf + CHUNKSIZE <= msgbuf.Length
      modifies msgbuf
      ensures msgbuf[..buf + CHUNKSIZE] == old(msgbuf[..buf]) + chunk
    {
      for y := 0 to CHUNKSIZE
        invariant msgbuf[..buf + y] == old(msgbuf[..buf]) + chunk[..y]
      {
        Put(buf + y, chunk[y]);
      }
    }

    /** ztd_sendmessage's header. */
    method PutHeader() returns (buf: nat)
      requires Valid()
      modifies this, msgbuf
      ensures txcnt == (old(txcnt) + 1) % 65536 && red == old(red) && Valid()
      ensures buf == 6 && msgbuf[..6] == Header(red, old(txcnt), txsig.Length)
      ensures Receiver() == old(Receiver())
    {
      Put(0, CHUNKSIZE);
      Put(1, if red then 3 else 2);
      PutWord(2, txcnt);
      txcnt := (txcnt + 1) % 65536;
      PutWord(4, txsig.Length);
      buf := 6;
    }

    /** ztd_sendmessage's signalling loop: four nibbles to a word. */
    method PutSigs(buf0: nat) returns (buf: nat)
      requires Valid() && buf0 == 6
      modifies msgbuf
      ensures buf == 6 + 2 * SentGroups(txsig.Length)
      ensures msgbuf[..buf] == old(msgbuf[..6]) + SigBytes(Nibbles(txsig[..]), SentGroups(txsig.Length))
    {
      buf := buf0;
      var bits: Word := 0;
      var offset := 0;
      ghost var nibs, head, g, o := Nibbles(txsig[..]), msgbuf[..6], 0, 0;
      hide SigWord, SigBytes, Nibbles, SentGroups, Shifted;
      NothingPacked(nibs);
      assert Packed(head, nibs, 0, 0, 0, buf);
      hide Packed;
      for x := 0 to txsig.Length
        invariant x == 4 * g + o && 0 <= o < 4 && 0 <= g && buf == 6 + 2 * g
        invariant offset == (if x == 0 then 0 else if o == 0 then 3 else o - 1)
        invariant Packed(head, nibs, x, g, bits, buf)
      {
        Quarter(x, g, o);
        GroupFits(txsig.Length, x, g, o);
        offset := x % 4;
        bits, buf := PackNibble(x, bits, buf, nibs, g, o, head);
        g, o := if o == 3 then g + 1 else g, if o == 3 then 0 else o + 1;
      }
      SentGroupsAre(txsig.Length, g, o);
      if offset != 3 {
        Flush(buf, bits, nibs, g, head);
        buf := buf + 2;
      } else {
        AllPacked(head, nibs, g, bits, buf);
      }
    }

    /** The words before `buf` are complete, and `bits` holds what is next. */
    ghost predicate Packed(head: seq<Byte>, nibs: seq<Nibble>, x: nat, g: nat, bits: Word, buf: nat)
      reads msgbuf
    {
      x <= |nibs| && buf <= msgbuf.Length && bits == SigWord(nibs[..x], g) && msgbuf[..buf] == head + SigBytes(nibs, g)
    }

    lemma {:induction false} AllPacked(head: seq<Byte>, nibs: seq<Nibble>, g: nat, bits: Word, buf: nat)
      requires Packed(head, nibs, |nibs|, g, bits, buf)
      ensures buf <= msgbuf.Length && msgbuf[..buf] == head + SigBytes(nibs, g)
    {
    }

    method Flush(buf: nat, bits: Word, ghost nibs: seq<Nibble>, ghost g: nat, ghost head: seq<Byte>)
      requires Packed(head, nibs, |nibs|, g, bits, buf) && buf + 2 <= msgbuf.Length
      modifies msgbuf
      ensures msgbuf[..buf + 2] == head + SigBytes(nibs, g + 1)
    {
      hide SigWord, SigBytes;
      assert nibs[..|nibs|] == nibs;
      SigBytesMore(nibs, g);
      PutWord(buf, bits);
    }

    /** One nibble into the current word, which is written when it is full. */
    method PackNibble(x: nat, bits0: Word, buf0: nat, ghost nibs: seq<Nibble>, ghost g: nat, ghost o: nat,
        ghost head: seq<Byte>)
      returns (bits: Word, buf: nat)
      requires x < txsig.Length && nibs == Nibbles(txsig[..]) && buf0 + 2 <= msgbuf.Length && msgbuf != txsig
      requires x == 4 * g + o && o < 4
      requires Packed(head, nibs, x, g, bits0, buf0)
      modifies msgbuf
      ensures buf == if o == 3 then buf0 + 2 else buf0
      ensures Packed(head, nibs, x + 1, if o == 3 then g + 1 else g, bits, buf)
    {
      hide SigWord, SigBytes, Nibbles, Shifted;
      Quarter(x, g, o);
      OneNibbleMore(nibs, x, g, o);
      NibbleAt(txsig[..], x);
      bits, buf := bits0 + Shifted(txsig[x] % 16, x % 4), buf0;
      if x % 4 == 3 {
        SigBytesMore(nibs, g);
        PutWord(buf, bits);
        buf := buf + 2;
        bits := 0;
      }
    }

    /** ztd_sendmessage. */
    method SendMessage() returns (msg: seq<Byte>)
      requires Valid()
      modifies this, msgbuf
      ensures Valid() && msg == Message(red, old(txcnt), txsig[..], writechunk[..])
      ensures txcnt == (old(txcnt) + 1) % 65536 && red == old(red) && Receiver() == old(Receiver())
    {
      hide SigBytes, Nibbles, Header;
      var buf := PutHeader();
      buf := PutSigs(buf);
      ghost var head := msgbuf[..buf];
      for x := 0 to writechunk.Length
        invariant buf == 6 + 2 * SentGroups(txsig.Length) + CHUNKSIZE * x
        invariant msgbuf[..buf] == head + Data(writechunk[..x])
        modifies msgbuf
      {
        assert writechunk[..x + 1][..x] == writechunk[..x];
        PutChunk(buf, writechunk[x]);
        buf := buf + CHUNKSIZE;
      }
      assert writechunk[..writechunk.Length] == writechunk[..];
      msg := msgbuf[..buf];
    }

    /** The checks of dahdi_dynamic_receive. */
    method CheckMessage(msg: seq<Byte>) returns (newerr: Error)
      requires Valid()
      ensures newerr == Check(txsig.Length, msg)
    {
      var nchans := txsig.Length;
      if |msg| < 6 {
        return BadLength(0);
      }
      if msg[0] != CHUNKSIZE {
        return BadSamples(msg[0]);
      }
      if Ntohs(msg[4], msg[5]) != nchans {
        return BadChannels(Ntohs(msg[4], msg[5]));
      }
      var xlen := 6 + nchans * CHUNKSIZE;
      if HasSigs(msg[1]) {
        xlen := xlen + (nchans + 3) / 4 * 2;
      }
      newerr := if xlen != |msg| then BadLength(xlen) else NoError;
    }

    /** dahdi_dynamic_receive: a refused message is noted; an accepted one is taken, and
        tells whether some were missed. */
    method ReceiveMessage(msg: seq<Byte>) returns (v: Verdict)
      requires Valid()
      modifies this, rxsig, readchunk
      ensures Valid() && (Receiver(), v) == Receive(old(Receiver()), msg) && txcnt == old(txcnt)
    {
      hide SigBytes, SigAt, ReadSigs, Check, TakenChunks, Ntohs;
      var newerr := CheckMessage(msg);
      if newerr != NoError {
        err := newerr;
        return Refused(newerr);
      }
      TakenLength(txsig.Length, msg);
      var nchans := txsig.Length;
      var sflags := msg[1];
      var rxpos: int := Ntohs(msg[2], msg[3]);
      var at := 6;
      if HasSigs(sflags) {
        TakeSigs(msg);
        at := 6 + (nchans + 3) / 4 * 2;
      }
      TakeChunks(msg, at);
      v := Taken(rxpos != rxcnt);
      rxcnt := (rxpos + 1) % 65536;
      red, yellow := false, sflags % 2 == 1;
    }

    /** The data loop of dahdi_dynamic_receive. */
    method TakeChunks(msg: seq<Byte>, at0: nat)
      requires Valid() && Check(readchunk.Length, msg) == NoError
      requires at0 == 6 + if HasSigs(msg[1]) then 2 * Groups(readchunk.Length) else 0
      modifies readchunk
      ensures readchunk[..] == TakenChunks(readchunk.Length, msg)
    {
      var at := at0;
      ghost var chunks := TakenChunks(readchunk.Length, msg);
      hide TakenChunks, Check;
      TakenLength(readchunk.Length, msg);
      for x := 0 to readchunk.Length
        invariant at == at0 + CHUNKSIZE * x
        invariant forall k :: 0 <= k < x ==> readchunk[k] == chunks[k]
      {
        TakenChunkAt(readchunk.Length, msg, x, at0);
        readchunk[x] := msg[at..at + CHUNKSIZE];
        at := at + CHUNKSIZE;
      }
    }

    /** The signalling loop of dahdi_dynamic_receive: a fresh word every fourth channel. */
    method TakeSigs(msg: seq<Byte>)
      requires Valid() && 6 + 2 * Groups(rxsig.Length) <= |msg|
      modifies rxsig
      ensures rxsig[..] == ReadSigs(msg, rxsig.Length)
    {
      var bits: Word := 0;
      var at := 6;
      ghost var g, o := 0, 0;
      hide ReadSigs, Groups, Ntohs, Pick;
      for x := 0 to rxsig.Length
        invariant x == 4 * g + o && 0 <= o < 4 && 0 <= g && at == 6 + 2 * (if o == 0 then g else g + 1)
        invariant o > 0 ==> at <= |msg| && bits == Ntohs(msg[at - 2], msg[at - 1])
        invariant forall k :: 0 <= k < x ==> rxsig[k] == ReadSigs(msg, rxsig.Length)[k]
      {
        Quarter(x, g, o);
        WordThere(rxsig.Length, x, g, o);
        ReadAt(msg, rxsig.Length, x, g, o);
        if x % 4 == 0 {
          bits := Ntohs(msg[at], msg[at + 1]);
          at := at + 2;
        }
        var sig := Pick(bits, x % 4);
        if sig != rxsig[x] {
          rxsig[x] := sig;
        }
        g, o := if o == 3 then g + 1 else g, if o == 3 then 0 else o + 1;
      }
    }
  }

  lemma {:induction false} Quarter(x: nat, g: nat, o: nat)
    requires x == 4 * g + o && o < 4
    ensures x / 4 == g && x % 4 == o
  {
  }

  lemma {:induction false} ReadAt(msg: seq<Byte>, channels: nat, x: nat, g: nat, o: nat)
    requires 6 + 2 * Groups(channels) <= |msg| && x < channels && x / 4 == g && x % 4 == o && g < Groups(channels)
    ensures ReadSigs(msg, channels)[x] == Pick(Ntohs(msg[6 + 2 * g], msg[6 + 2 * g + 1]), o)
  {
    hide Groups, Ntohs, Pick;
  }

  lemma {:induction false} TakenLength(channels: nat, msg: seq<Byte>)
    requires Check(channels, msg) == NoError
    ensures |TakenChunks(channels, msg)| == channels && |msg| >= 6
    ensures HasSigs(msg[1]) ==> 6 + 2 * Groups(channels) <= |msg|
  {
  }

  lemma {:induction false} TakenChunkAt(channels: nat, msg: seq<Byte>, x: nat, at: nat)
    requires Check(channels, msg) == NoError && x < channels
    requires at == 6 + if HasSigs(msg[1]) then 2 * Groups(channels) else 0
    ensures at + CHUNKSIZE * x + CHUNKSIZE <= |msg|
    ensures TakenChunks(channels, msg)[x] == msg[at + CHUNKSIZE * x..at + CHUNKSIZE * x + CHUNKSIZE]
  {
  }

  lemma {:induction false} WordThere(channels: nat, x: nat, g: nat, o: nat)
    requires x < channels && x == 4 * g + o && o < 4
    ensures g < Groups(channels)
  {
  }

  lemma {:induction false} SentGroupsAre(n: nat, g: nat, o: nat)
    requires n == 4 * g + o && o < 4
    ensures SentGroups(n) == if o > 0 || n == 0 then g + 1 else g
  {
    Quarter(n, g, o);
  }

  lemma {:induction false} GroupFits(channels: nat, x: nat, g: nat, o: nat)
    requires x < channels && x == 4 * g + o && o < 4
    ensures g + 1 <= SentGroups(channels)
  {
  }

  function Shifted(n: Nibble, offset: nat): (w: int)
    requires offset < 4
    ensures 0 <= w
  {
    if offset == 0 then n else if offset == 1 then 16 * n else if offset == 2 then 256 * n else 4096 * n
  }

  lemma {:induction false} NibbleAt(sigs: seq<Byte>, x: nat)
    requires x < |sigs|
    ensures Nibbles(sigs)[x] == sigs[x] % 16
  {
  }

  lemma {:induction false} NothingPacked(nibs: seq<Nibble>)
    ensures SigWord(nibs[..0], 0) == 0 && SigBytes(nibs, 0) == []
  {
  }

  lemma {:induction false} SigBytesMore(nibs: seq<Nibble>, g: nat)
    ensures SigBytes(nibs, g + 1) == SigBytes(nibs, g) + Htons(SigWord(nibs, g))
  {
  }

  lemma {:induction false} OneNibbleMore(nibs: seq<Nibble>, x: nat, g: nat, o: nat)
    requires x < |nibs| && x == 4 * g + o && o < 4
    ensures SigWord(nibs[..x + 1], g) == SigWord(nibs[..x], g) + Shifted(nibs[x], o)
    ensures o == 3 ==> SigWord(nibs[..x + 1], g) == SigWord(nibs, g) && SigWord(nibs[..x + 1], g + 1) == 0
  {
  }
}
