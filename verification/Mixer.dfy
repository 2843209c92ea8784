/** The conference mixer: saturating chunk arithmetic, three rotating banks of
    accumulators, and for every channel a record of what it really added. */
module Mixer {

  type Sample = x: int | -32768 <= x <= 32767
  type Chunk = seq<Sample>

  function Clamp(x: int): Sample {
    if x > 32767 then 32767 else if x < -32768 then -32768 else x
  }

  function SatAdd(a: int, b: int): Sample { Clamp(a + b) }
  function SatSub(a: int, b: int): Sample { Clamp(a - b) }

  function Acss(a: Chunk, b: Chunk): (r: Chunk)
    requires |a| == |b|
    ensures |r| == |a|
  {
    seq(|a|, i requires 0 <= i < |a| => SatAdd(a[i], b[i]))
  }

  function Scss(a: Chunk, b: Chunk): (r: Chunk)
    requires |a| == |b|
    ensures |r| == |a|
  {
    seq(|a|, i requires 0 <= i < |a| => SatSub(a[i], b[i]))
  }

  /** ACSS: add src to dst with saturation, storing in dst. */
  method AddInPlace(dst: array<Sample>, src: array<Sample>)
    requires dst.Length == src.Length
    modifies dst
    ensures dst[..] == Acss(old(dst[..]), old(src[..]))
  {
    ghost var d, c := dst[..], src[..];
    for x := 0 to dst.Length
      invariant forall i :: 0 <= i < x ==> dst[i] == SatAdd(d[i], c[i])
      invariant forall i :: x <= i < dst.Length ==> dst[i] == d[i] && src[i] == c[i]
    {
      var sum := dst[x] as int + src[x] as int;
      if sum > 32767 {
        sum := 32767;
      } else if sum < -32768 {
        sum := -32768;
      }
      dst[x] := sum;
    }
  }

  /** SCSS: subtract src from dst with saturation, storing in dst. */
  method SubInPlace(dst: array<Sample>, src: array<Sample>)
    requires dst.Length == src.Length
    modifies dst
    ensures dst[..] == Scss(old(dst[..]), old(src[..]))
  {
    ghost var d, c := dst[..], src[..];
    for x := 0 to dst.Length
      invariant forall i :: 0 <= i < x ==> dst[i] == SatSub(d[i], c[i])
      invariant forall i :: x <= i < dst.Length ==> dst[i] == d[i] && src[i] == c[i]
    {
      var sum := dst[x] as int - src[x] as int;
      if sum > 32767 {
        sum := 32767;
      } else if sum < -32768 {
        sum := -32768;
      }
      dst[x] := sum;
    }
  }

  // ---------- channels ----------

  /** What the mixer keeps of a channel. `conf` is the conference's alias, `timer`
      the after-dialling timer, `conflast` the amount last added to the conference. */
  datatype Chan = Chan(pseudo: bool, inConf: bool, conf: nat, talker: bool, listener: bool,
                       muted: bool, dialing: bool, timer: nat, conflast: Chunk)

  function Zeros(n: nat): (z: Chunk)
    ensures |z| == n
  {
    seq(n, i => 0)
  }

  /** The after-dialling timer at the start of a receive. */
  function Timed(c: Chan): Chan {
    if c.dialing then c.(timer := 50) else if c.timer > 0 then c.(timer := c.timer - 1) else c
  }

  /** Whether the conference code runs for what the channel says. */
  predicate Speaks(c: Chan) { c.pseudo || (!c.muted && c.timer == 0) }

  /** Whether the conference code runs for what the channel hears. */
  predicate Hears(c: Chan) { c.listener && (c.pseudo || (!c.muted && !c.dialing)) }

  /** The amount a talker really adds to an accumulator, recorded in conflast. */
  function Added(input: Chunk, sum: Chunk): (r: Chunk)
    requires |input| == |sum|
    ensures |r| == |sum|
  {
    Scss(Acss(input, sum), sum)
  }

  ghost predicate BankOk(size: nat, bank: seq<Chunk>) {
    forall a :: 0 <= a < |bank| ==> |bank[a]| == size
  }

  ghost predicate ChansOk(size: nat, aliases: nat, chans: seq<Chan>) {
    forall k :: 0 <= k < |chans| ==> |chans[k].conflast| == size && chans[k].conf < aliases
  }

  /** One channel speaking into a bank of accumulators. */
  function SpeakOne(bank: seq<Chunk>, c: Chan, input: Chunk): (seq<Chunk>, Chan)
    requires c.conf < |bank| && |input| == |bank[c.conf]|
  {
    var c1 := if c.pseudo then c else Timed(c);
    if !Speaks(c1) then (bank, c1)
    else if !c1.talker then (bank, c1.(conflast := Zeros(|input|)))
    else
      var added := Added(input, bank[c.conf]);
      (bank[c.conf := Acss(bank[c.conf], added)], c1.(conflast := added))
  }

  /** The first `n` channels, those of the given kind speaking in order. */
  function SpeakAll(size: nat, bank: seq<Chunk>, chans: seq<Chan>, ins: seq<Chunk>, pseudo: bool, n: nat)
      : (r: (seq<Chunk>, seq<Chan>))
    requires BankOk(size, bank) && ChansOk(size, |bank|, chans)
    requires |ins| == |chans| && n <= |chans| && BankOk(size, ins)
    ensures |r.0| == |bank| && BankOk(size, r.0) && |r.1| == |chans| && ChansOk(size, |bank|, r.1)
    ensures r.1[n..] == chans[n..]
  {
    if n == 0 then (bank, chans)
    else
      var (b, cs) := SpeakAll(size, bank, chans, ins, pseudo, n - 1);
      assert cs[n - 1] == cs[n - 1..][0];
      var c := cs[n - 1];
      if c.pseudo != pseudo || !c.inConf then (b, cs)
      else
        var (b', c') := SpeakOne(b, c, ins[n - 1]);
        (b', cs[n - 1 := c'])
  }

  // ---------- the accumulators are exact ----------

  /** Recording and adding never saturate on their own: what is recorded is exactly
      what the accumulator gained, and it is the saturated sum. */
  lemma {:induction false} AddedIsExact(p: int, s: int)
    requires -32768 <= p <= 32767 && -32768 <= s <= 32767
    ensures var k := SatAdd(p, s) as int; var added := SatSub(k, s) as int;
      && added == k - s && SatAdd(s, added) as int == s + added == k
      && (0 <= added <= p || p <= added <= 0)
  {
  }

  /** What channel `c` has in the accumulator of alias `a` at sample `x`. */
  function Share(c: Chan, pseudo: bool, a: nat, x: nat): int
    requires x < |c.conflast|
  {
    if c.inConf && c.pseudo == pseudo && c.talker && Speaks(c) && c.conf == a then c.conflast[x] else 0
  }

  /** The integer sum of the shares of the first `n` channels other than `skip`. */
  function Total(size: nat, chans: seq<Chan>, pseudo: bool, a: nat, x: nat, n: nat, skip: int): int
    requires n <= |chans| && x < size && forall k :: 0 <= k < |chans| ==> |chans[k].conflast| == size
  {
    if n == 0 then 0
    else
      var share := if n - 1 == skip then 0 else Share(chans[n - 1], pseudo, a, x);
      Total(size, chans, pseudo, a, x, n - 1, skip) + share
  }

  lemma {:induction false} TotalPrefix(size: nat, c: seq<Chan>, d: seq<Chan>, pseudo: bool, a: nat, x: nat, n: nat,
      skip: int)
    requires n <= |c| && n <= |d| && x < size
    requires forall k :: 0 <= k < |c| ==> |c[k].conflast| == size
    requires forall k :: 0 <= k < |d| ==> |d[k].conflast| == size
    requires forall k :: 0 <= k < n ==> Share(c[k], pseudo, a, x) == Share(d[k], pseudo, a, x)
    ensures Total(size, c, pseudo, a, x, n, skip) == Total(size, d, pseudo, a, x, n, skip)
  {
    if n > 0 {
      TotalPrefix(size, c, d, pseudo, a, x, n - 1, skip);
    }
  }

  lemma {:induction false} SpeakOneIsExact(size: nat, bank: seq<Chunk>, c: Chan, input: Chunk, a: nat, x: nat)
    requires BankOk(size, bank) && c.conf < |bank| && |input| == size && |c.conflast| == size && c.inConf
    requires a < |bank| && x < size
    ensures var (b, c') := SpeakOne(bank, c, input);
      |b| == |bank| && BankOk(size, b) && |c'.conflast| == size &&
      b[a][x] == bank[a][x] + Share(c', c.pseudo, a, x) && Share(c', !c.pseudo, a, x) == 0
  {
    AddedIsExact(input[x], bank[c.conf][x]);
  }

  /** Channels keep their kind, and those of the other kind are untouched. */
  ghost predicate KindKept(c: seq<Chan>, d: seq<Chan>, pseudo: bool) {
    |d| == |c| &&
    forall k :: 0 <= k < |c| ==> d[k].pseudo == c[k].pseudo && (c[k].pseudo != pseudo ==> d[k] == c[k])
  }

  /** However many channels speak, and however much is clipped: every accumulator ends
      as what it started with plus the exact integer sum of the recorded amounts. */
  lemma {:induction false} SpeakAllIsExact(size: nat, bank: seq<Chunk>, chans: seq<Chan>, ins: seq<Chunk>,
      pseudo: bool, n: nat, a: nat, x: nat)
    requires BankOk(size, bank) && ChansOk(size, |bank|, chans)
    requires |ins| == |chans| && n <= |chans| && BankOk(size, ins)
    requires a < |bank| && x < size
    ensures var (b, cs) := SpeakAll(size, bank, chans, ins, pseudo, n);
      && b[a][x] == bank[a][x] + Total(size, cs, pseudo, a, x, n, -1)
      && KindKept(chans, cs, pseudo)
  {
    if n > 0 {
      SpeakAllIsExact(size, bank, chans, ins, pseudo, n - 1, a, x);
      var (b, cs) := SpeakAll(size, bank, chans, ins, pseudo, n - 1);
      var cs' := SpeakAll(size, bank, chans, ins, pseudo, n).1;
      assert cs[n - 1] == cs[n - 1..][0];
      if cs[n - 1].pseudo == pseudo && cs[n - 1].inConf {
        SpeakOneIsExact(size, b, cs[n - 1], ins[n - 1], a, x);
      }
      TotalPrefix(size, cs, cs', pseudo, a, x, n - 1, -1);
    }
  }

  // ---------- one tick ----------

  /** The three banks of accumulators, by role, and the channels. */
  datatype Mix = Mix(prev: seq<Chunk>, cur: seq<Chunk>, next: seq<Chunk>, chans: seq<Chan>)

  ghost predicate MixOk(size: nat, m: Mix) {
    && |m.prev| == |m.cur| == |m.next|
    && BankOk(size, m.prev) && BankOk(size, m.cur) && BankOk(size, m.next)
    && ChansOk(size, |m.cur|, m.chans)
  }

  /** The accumulators below maxconfs cleared, the others left as they were. */
  function Cleared(size: nat, bank: seq<Chunk>, maxconfs: nat): (r: seq<Chunk>)
    requires BankOk(size, bank)
    ensures |r| == |bank| && BankOk(size, r)
  {
    var zeros := Zeros(size);
    seq(|bank|, a requires 0 <= a < |bank| => if a < maxconfs then zeros else bank[a])
  }

  /** process_masterspan without links: real channels speak, the banks rotate, pseudo channels speak. */
  function Ticked(size: nat, m: Mix, maxconfs: nat, putlin: seq<Chunk>, getlin: seq<Chunk>): (r: Mix)
    requires MixOk(size, m) && |putlin| == |getlin| == |m.chans| && BankOk(size, putlin) && BankOk(size, getlin)
    ensures MixOk(size, r) && |r.chans| == |m.chans| && |r.cur| == |m.cur|
  {
    var (b1, c1) := SpeakAll(size, m.next, m.chans, putlin, false, |m.chans|);
    var (b2, c2) := SpeakAll(size, b1, c1, getlin, true, |m.chans|);
    Mix(m.cur, b2, Cleared(size, m.prev, maxconfs), c2)
  }

  /** The integer sum of what every channel recorded for alias `a`, other than channel `skip`. */
  function Everyone(size: nat, chans: seq<Chan>, a: nat, x: nat, skip: int): int
    requires x < size && forall k :: 0 <= k < |chans| ==> |chans[k].conflast| == size
  {
    Total(size, chans, false, a, x, |chans|, skip) + Total(size, chans, true, a, x, |chans|, skip)
  }

  /** After a tick each accumulator is what it was left with plus the exact sum of
      everyone's recorded amounts: it is the sum exactly when it started at zero. */
  lemma {:induction false} TickIsExact(size: nat, m: Mix, maxconfs: nat, putlin: seq<Chunk>, getlin: seq<Chunk>,
      a: nat, x: nat)
    requires MixOk(size, m) && |putlin| == |getlin| == |m.chans| && BankOk(size, putlin) && BankOk(size, getlin)
    requires a < |m.cur| && x < size
    ensures var m' := Ticked(size, m, maxconfs, putlin, getlin);
      && m'.cur[a][x] == m.next[a][x] + Everyone(size, m'.chans, a, x, -1)
      && (m'.cur[a][x] == Everyone(size, m'.chans, a, x, -1) <==> m.next[a][x] == 0)
      && (a < maxconfs ==> m'.next[a] == Zeros(size))
  {
    var n := |m.chans|;
    var (b1, c1) := SpeakAll(size, m.next, m.chans, putlin, false, n);
    var (b2, c2) := SpeakAll(size, b1, c1, getlin, true, n);
    SpeakAllIsExact(size, m.next, m.chans, putlin, false, n, a, x);
    SpeakAllIsExact(size, b1, c1, getlin, true, n, a, x);
    hide SpeakAll;
    forall k | 0 <= k < n ensures Share(c1[k], false, a, x) == Share(c2[k], false, a, x) {
    }
    TotalPrefix(size, c1, c2, false, a, x, n, -1);
  }

  /** In every run, from the second tick on: an accumulator whose alias was below
      maxconfs at the previous rotation is the exact integer sum of every talker's
      recorded amount, whatever was reconfigured between the ticks. */
  lemma {:induction false} RunIsExact(size: nat, m: Mix, maxconfs: nat, put1: seq<Chunk>, get1: seq<Chunk>,
      chans: seq<Chan>, maxconfs': nat, put2: seq<Chunk>, get2: seq<Chunk>, a: nat, x: nat)
    requires MixOk(size, m) && |put1| == |get1| == |m.chans| && BankOk(size, put1) && BankOk(size, get1)
    requires ChansOk(size, |m.cur|, chans)
    requires |put2| == |get2| == |chans| && BankOk(size, put2) && BankOk(size, get2)
    requires a < maxconfs && a < |m.cur| && x < size
    ensures var m2 := Ticked(size, Ticked(size, m, maxconfs, put1, get1).(chans := chans), maxconfs', put2, get2);
      m2.cur[a][x] == Everyone(size, m2.chans, a, x, -1)
  {
    var m1 := Ticked(size, m, maxconfs, put1, get1);
    TickIsExact(size, m, maxconfs, put1, get1, a, x);
    TickIsExact(size, m1.(chans := chans), maxconfs', put2, get2, a, x);
  }

  // ---------- the accumulators, from what is said ----------

  /** By its fields before a tick, whether a channel says something to alias `a` in it. A real
      channel is silent while it dials and until its after-dialling timer has run down. */
  predicate SpeaksTo(c: Chan, pseudo: bool, a: nat) {
    && c.inConf && c.talker && c.conf == a && c.pseudo == pseudo
    && (c.pseudo || (!c.muted && !c.dialing && c.timer <= 1))
  }

  /** A level that starts at `r` and follows what the first `n` channels say to alias `a`,
      one after the other, never leaving the sixteen-bit range. */
  function Level(r: int, chans: seq<Chan>, said: seq<Chunk>, pseudo: bool, a: nat, x: nat, n: nat): int
    requires n <= |chans| == |said| && forall k :: 0 <= k < n ==> x < |said[k]|
  {
    if n == 0 then r
    else
      var before := Level(r, chans, said, pseudo, a, x, n - 1);
      if !SpeaksTo(chans[n - 1], pseudo, a) then before
      else
        var after := before + said[n - 1][x];
        if after > 32767 then 32767 else if after < -32768 then -32768 else after
  }

  /** What the first `n` channels other than `skip` say to alias `a`, as an integer. */
  function Said(chans: seq<Chan>, said: seq<Chunk>, pseudo: bool, a: nat, x: nat, n: nat, skip: int): int
    requires n <= |chans| == |said| && forall k :: 0 <= k < n ==> x < |said[k]|
  {
    if n == 0 then 0
    else
      var rest := Said(chans, said, pseudo, a, x, n - 1, skip);
      if n - 1 != skip && SpeaksTo(chans[n - 1], pseudo, a) then rest + said[n - 1][x] else rest
  }

  lemma {:induction false} SpeakOneIs(bank: seq<Chunk>, c: Chan, input: Chunk, a: nat, x: nat)
    requires c.inConf && c.conf < |bank| && a < |bank| && x < |bank[a]| && |input| == |bank[c.conf]| == |c.conflast|
    requires x < |input|
    ensures var (b, d) := SpeakOne(bank, c, input);
      var before := bank[a][x] as int;
      var after := before + input[x];
      && |b| == |bank| && |b[a]| == |bank[a]| && |d.conflast| == |c.conflast|
      && b[a][x] == (if !SpeaksTo(c, c.pseudo, a) then before else
                     if after > 32767 then 32767 else if after < -32768 then -32768 else after)
      && (SpeaksTo(c, c.pseudo, a) ==> d.conflast[x] == b[a][x] - bank[a][x])
      && d == c.(conflast := d.conflast, timer := if c.pseudo then c.timer else if c.dialing then 50
                 else if c.timer > 0 then c.timer - 1 else 0)
      && (if c.pseudo || (!c.muted && !c.dialing && c.timer <= 1) then !c.talker ==> d.conflast[x] == 0
          else d.conflast == c.conflast)
  {
  }

  /** After the channels of one kind spoke in order: every accumulator is the level that what they
      said brings it to. */
  lemma {:induction false} SpeakAllLevels(size: nat, bank: seq<Chunk>, chans: seq<Chan>, ins: seq<Chunk>,
      pseudo: bool, n: nat, a: nat, x: nat)
    requires BankOk(size, bank) && ChansOk(size, |bank|, chans)
    requires |ins| == |chans| && n <= |chans| && BankOk(size, ins)
    requires a < |bank| && x < size
    ensures SpeakAll(size, bank, chans, ins, pseudo, n).0[a][x] == Level(bank[a][x], chans, ins, pseudo, a, x, n)
  {
    if n > 0 {
      SpeakAllLevels(size, bank, chans, ins, pseudo, n - 1, a, x);
      var (b, cs) := SpeakAll(size, bank, chans, ins, pseudo, n - 1);
      assert cs[n - 1] == cs[n - 1..][0] == chans[n - 1..][0];
      if chans[n - 1].pseudo == pseudo && chans[n - 1].inConf {
        SpeakOneIs(b, chans[n - 1], ins[n - 1], a, x);
        hide SpeakOne;
      }
    }
  }

  /** What is left of channel `c` after its turn, `d`, when its kind spoke from level `before` to `after`. */
  ghost predicate Turned(c: Chan, d: Chan, pseudo: bool, x: nat, before: int, after: int) {
    if c.pseudo != pseudo || !c.inConf then d == c
    else
      && x < |d.conflast|
      && d == c.(conflast := d.conflast, timer := if c.pseudo then c.timer else if c.dialing then 50
                 else if c.timer > 0 then c.timer - 1 else 0)
      && (if c.pseudo || (!c.muted && !c.dialing && c.timer <= 1) then
            d.conflast[x] == if c.talker then after - before else 0
          else d.conflast == c.conflast)
  }

  lemma {:induction false} SpeakAllTurns(size: nat, bank: seq<Chunk>, chans: seq<Chan>, ins: seq<Chunk>,
      pseudo: bool, n: nat, i: nat, x: nat)
    requires BankOk(size, bank) && ChansOk(size, |bank|, chans)
    requires |ins| == |chans| && n <= |chans| && BankOk(size, ins)
    requires i < n && x < size
    ensures var c := chans[i];
      Turned(c, SpeakAll(size, bank, chans, ins, pseudo, n).1[i], pseudo, x,
        Level(bank[c.conf][x], chans, ins, pseudo, c.conf, x, i),
        Level(bank[c.conf][x], chans, ins, pseudo, c.conf, x, i + 1))
  {
    if i < n - 1 {
      SpeakAllTurns(size, bank, chans, ins, pseudo, n - 1, i, x);
    } else {
      var (b, cs) := SpeakAll(size, bank, chans, ins, pseudo, i);
      assert cs[i] == cs[i..][0] == chans[i..][0];
      SpeakAllLevels(size, bank, chans, ins, pseudo, i, chans[i].conf, x);
      if chans[i].pseudo == pseudo && chans[i].inConf {
        SpeakOneIs(b, chans[i], ins[i], chans[i].conf, x);
        hide SpeakOne;
      }
    }
  }

  lemma {:induction false} LevelSame(r: int, c: seq<Chan>, d: seq<Chan>, said: seq<Chunk>, pseudo: bool, a: nat, x: nat,
      n: nat)
    requires n <= |c| == |d| == |said| && forall k :: 0 <= k < n ==> x < |said[k]|
    requires forall k :: 0 <= k < n ==> SpeaksTo(c[k], pseudo, a) == SpeaksTo(d[k], pseudo, a)
    ensures Level(r, c, said, pseudo, a, x, n) == Level(r, d, said, pseudo, a, x, n)
  {
    if n > 0 {
      LevelSame(r, c, d, said, pseudo, a, x, n - 1);
    }
  }

  /** The level a whole tick brings alias `a` to: real channels first, then pseudo channels. */
  function TickLevel(r: int, chans: seq<Chan>, put: seq<Chunk>, get: seq<Chunk>, a: nat, x: nat): int
    requires |chans| == |put| == |get| && forall k :: 0 <= k < |chans| ==> x < |put[k]| && x < |get[k]|
  {
    Level(Level(r, chans, put, false, a, x, |chans|), chans, get, true, a, x, |chans|)
  }

  /** What channel `i` changes that level by in its turn. */
  function Gain(r: int, chans: seq<Chan>, put: seq<Chunk>, get: seq<Chunk>, a: nat, x: nat, i: nat): int
    requires i < |chans| == |put| == |get| && forall k :: 0 <= k < |chans| ==> x < |put[k]| && x < |get[k]|
  {
    if chans[i].pseudo then
      var r' := Level(r, chans, put, false, a, x, |chans|);
      Level(r', chans, get, true, a, x, i + 1) - Level(r', chans, get, true, a, x, i)
    else Level(r, chans, put, false, a, x, i + 1) - Level(r, chans, put, false, a, x, i)
  }

  /** After a tick every accumulator is the level that what was said brings it to from what it was
      left with, and is what is heard next; the others are next, cleared below maxconfs. */
  lemma {:induction false} TickLevels(size: nat, m: Mix, maxconfs: nat, put: seq<Chunk>, get: seq<Chunk>, a: nat,
      x: nat)
    requires MixOk(size, m) && |put| == |get| == |m.chans| && BankOk(size, put) && BankOk(size, get)
    requires a < |m.cur| && x < size
    ensures var m' := Ticked(size, m, maxconfs, put, get);
      && m'.cur[a][x] == TickLevel(m.next[a][x], m.chans, put, get, a, x)
      && m'.prev == m.cur
      && m'.next[a][x] == if a < maxconfs then 0 else m.prev[a][x]
  {
    var n := |m.chans|;
    var (b1, c1) := SpeakAll(size, m.next, m.chans, put, false, n);
    SpeakAllLevels(size, m.next, m.chans, put, false, n, a, x);
    SpeakAllLevels(size, b1, c1, get, true, n, a, x);
    SpeakAllIsExact(size, m.next, m.chans, put, false, n, a, x);
    hide SpeakAll;
    LevelSame(b1[a][x], m.chans, c1, get, true, a, x, n);
  }

  /** After a tick a channel that takes part recorded what it changed the level by, or nothing if it
      does not talk; one that does not keeps its amount; timers run, from 50 while dialling. */
  lemma {:induction false} TickTurns(size: nat, m: Mix, maxconfs: nat, put: seq<Chunk>, get: seq<Chunk>, i: nat, x: nat)
    requires MixOk(size, m) && |put| == |get| == |m.chans| && BankOk(size, put) && BankOk(size, get)
    requires i < |m.chans| && x < size
    ensures var c, d := m.chans[i], Ticked(size, m, maxconfs, put, get).chans[i];
      if !c.inConf then d == c
      else
        && |d.conflast| == size
        && d == c.(conflast := d.conflast, timer := if c.pseudo then c.timer else if c.dialing then 50
                   else if c.timer > 0 then c.timer - 1 else 0)
        && (if c.pseudo || (!c.muted && !c.dialing && c.timer <= 1) then
              d.conflast[x] == if c.talker then Gain(m.next[c.conf][x], m.chans, put, get, c.conf, x, i) else 0
            else d.conflast == c.conflast)
  {
    var n, c := |m.chans|, m.chans[i];
    var (b1, c1) := SpeakAll(size, m.next, m.chans, put, false, n);
    var c2 := SpeakAll(size, b1, c1, get, true, n).1;
    var r := m.next[c.conf][x];
    SpeakAllTurns(size, m.next, m.chans, put, false, n, i, x);
    SpeakAllTurns(size, b1, c1, get, true, n, i, x);
    SpeakAllLevels(size, m.next, m.chans, put, false, n, c.conf, x);
    SpeakAllIsExact(size, m.next, m.chans, put, false, n, c.conf, x);
    assert Ticked(size, m, maxconfs, put, get).chans == c2;
    hide SpeakAll, Level, Ticked;
    LevelSame(b1[c.conf][x], m.chans, c1, get, true, c.conf, x, i);
    LevelSame(b1[c.conf][x], m.chans, c1, get, true, c.conf, x, i + 1);
  }

  /** Levels are exact integer sums of what is said, all the way, exactly when no partial sum leaves
      the sixteen-bit range. */
  lemma {:induction false} LevelIsSum(r: int, chans: seq<Chan>, said: seq<Chunk>, pseudo: bool, a: nat, x: nat, n: nat)
    requires -32768 <= r <= 32767
    requires n <= |chans| == |said| && forall k :: 0 <= k < n ==> x < |said[k]|
    ensures -32768 <= Level(r, chans, said, pseudo, a, x, n) <= 32767
    ensures
      (forall k :: 0 <= k <= n ==>
        Level(r, chans, said, pseudo, a, x, k) == r + Said(chans, said, pseudo, a, x, k, -1)) <==>
      (forall k :: 0 <= k <= n ==> -32768 <= r + Said(chans, said, pseudo, a, x, k, -1) <= 32767)
  {
    if n > 0 {
      LevelIsSum(r, chans, said, pseudo, a, x, n - 1);
    }
  }

  lemma {:induction false} SaidSkips(chans: seq<Chan>, said: seq<Chunk>, pseudo: bool, a: nat, x: nat, n: nat, i: nat)
    requires n <= |chans| == |said| && i < |chans| && forall k :: 0 <= k < |said| ==> x < |said[k]|
    ensures Said(chans, said, pseudo, a, x, n, -1) ==
      Said(chans, said, pseudo, a, x, n, i) + (if i < n && SpeaksTo(chans[i], pseudo, a) then said[i][x] else 0)
  {
    if n > 0 {
      SaidSkips(chans, said, pseudo, a, x, n - 1, i);
    }
  }

  /** What everyone but `skip` says to alias `a` in a tick. */
  function TickSaid(chans: seq<Chan>, put: seq<Chunk>, get: seq<Chunk>, a: nat, x: nat, skip: int): int
    requires |chans| == |put| == |get| && forall k :: 0 <= k < |chans| ==> x < |put[k]| && x < |get[k]|
  {
    Said(chans, put, false, a, x, |chans|, skip) + Said(chans, get, true, a, x, |chans|, skip)
  }

  /** No partial sum of what is said leaves the sixteen-bit range. */
  ghost predicate NeverClips(chans: seq<Chan>, put: seq<Chunk>, get: seq<Chunk>, a: nat, x: nat)
    requires |chans| == |put| == |get| && forall k :: 0 <= k < |chans| ==> x < |put[k]| && x < |get[k]|
  {
    var first := Said(chans, put, false, a, x, |chans|, -1);
    && (forall k :: 0 <= k <= |chans| ==> -32768 <= Said(chans, put, false, a, x, k, -1) <= 32767)
    && (forall k :: 0 <= k <= |chans| ==> -32768 <= first + Said(chans, get, true, a, x, k, -1) <= 32767)
  }

  /** Without clipping an accumulator that starts at zero becomes the integer sum of what everyone
      says to it, and everyone's gain is what it said. */
  lemma {:induction false} QuietLevels(chans: seq<Chan>, put: seq<Chunk>, get: seq<Chunk>, a: nat, x: nat, i: nat)
    requires i < |chans| == |put| == |get| && forall k :: 0 <= k < |chans| ==> x < |put[k]| && x < |get[k]|
    requires NeverClips(chans, put, get, a, x)
    ensures TickLevel(0, chans, put, get, a, x) == TickSaid(chans, put, get, a, x, -1)
    ensures SpeaksTo(chans[i], chans[i].pseudo, a) ==>
      Gain(0, chans, put, get, a, x, i) == if chans[i].pseudo then get[i][x] else put[i][x]
    ensures SpeaksTo(chans[i], chans[i].pseudo, a) ==>
      TickSaid(chans, put, get, a, x, i) == TickSaid(chans, put, get, a, x, -1) - Gain(0, chans, put, get, a, x, i)
    ensures !SpeaksTo(chans[i], chans[i].pseudo, a) ==>
      TickSaid(chans, put, get, a, x, i) == TickSaid(chans, put, get, a, x, -1)
  {
    var n := |chans|;
    var first := Said(chans, put, false, a, x, n, -1);
    LevelIsSum(0, chans, put, false, a, x, n);
    LevelIsSum(first, chans, get, true, a, x, n);
    SaidSkips(chans, put, false, a, x, n, i);
    SaidSkips(chans, get, true, a, x, n, i);
    assert Level(0, chans, put, false, a, x, n) == first;
    var j := i + 1;
    assert Level(0, chans, put, false, a, x, j) == 0 + Said(chans, put, false, a, x, j, -1);
    assert Level(first, chans, get, true, a, x, j) == first + Said(chans, get, true, a, x, j, -1);
    assert Level(0, chans, put, false, a, x, i) == 0 + Said(chans, put, false, a, x, i, -1);
    assert Level(first, chans, get, true, a, x, i) == first + Said(chans, get, true, a, x, i, -1);
  }

  /** From the second tick on, whatever was reconfigured between the ticks: every accumulator below
      maxconfs at the previous rotation is the level that what was said in this tick brings it to
      from zero, and the exact integer sum of what was said when nothing clips. */
  lemma {:induction false} RunLevels(size: nat, m: Mix, maxconfs: nat, put1: seq<Chunk>, get1: seq<Chunk>,
      chans: seq<Chan>, maxconfs': nat, put2: seq<Chunk>, get2: seq<Chunk>, a: nat, x: nat)
    requires MixOk(size, m) && |put1| == |get1| == |m.chans| && BankOk(size, put1) && BankOk(size, get1)
    requires ChansOk(size, |m.cur|, chans)
    requires |put2| == |get2| == |chans| && BankOk(size, put2) && BankOk(size, get2)
    requires a < maxconfs && a < |m.cur| && x < size
    ensures var m2 := Ticked(size, Ticked(size, m, maxconfs, put1, get1).(chans := chans), maxconfs', put2, get2);
      && m2.cur[a][x] == TickLevel(0, chans, put2, get2, a, x)
      && (NeverClips(chans, put2, get2, a, x) ==> m2.cur[a][x] == TickSaid(chans, put2, get2, a, x, -1))
  {
    var m1 := Ticked(size, m, maxconfs, put1, get1);
    TickLevels(size, m, maxconfs, put1, get1, a, x);
    TickLevels(size, m1.(chans := chans), maxconfs', put2, get2, a, x);
    hide Ticked;
    if NeverClips(chans, put2, get2, a, x) {
      if chans == [] {
        assert TickSaid(chans, put2, get2, a, x, -1) == 0;
      } else {
        QuietLevels(chans, put2, get2, a, x, 0);
      }
    }
  }

  // ---------- what a listener hears ----------

  /** A listener's audio: its own, minus what it last added, plus the conference. */
  function Heard(out: Chunk, c: Chan, sum: Chunk): (r: Chunk)
    requires |out| == |c.conflast| == |sum|
    ensures |r| == |out|
  {
    Acss(Scss(out, c.conflast), sum)
  }

  /** What goes out to channel `i` after a tick. */
  function Outgoing(size: nat, m: Mix, i: nat, out: Chunk): Chunk
    requires MixOk(size, m) && i < |m.chans| && |out| == size
  {
    if m.chans[i].inConf && Hears(m.chans[i]) then Heard(out, m.chans[i], m.cur[m.chans[i].conf]) else out
  }

  lemma {:induction false} TotalSkips(size: nat, chans: seq<Chan>, pseudo: bool, a: nat, x: nat, n: nat, i: nat)
    requires n <= |chans| && i < |chans| && x < size && forall k :: 0 <= k < |chans| ==> |chans[k].conflast| == size
    ensures Total(size, chans, pseudo, a, x, n, -1) ==
      Total(size, chans, pseudo, a, x, n, i) + (if i < n then Share(chans[i], pseudo, a, x) else 0)
  {
    if n > 0 {
      TotalSkips(size, chans, pseudo, a, x, n - 1, i);
    }
  }

  /** Decoded samples are never -32768, and then neither is a recorded amount. */
  lemma {:induction false} RecordedIsNeverLowest(input: Chunk, sum: Chunk, x: nat)
    requires |input| == |sum| && x < |sum| && input[x] != -32768
    ensures Added(input, sum)[x] != -32768
  {
    AddedIsExact(input[x], sum[x]);
  }

  /** A channel that took part in a tick recorded what it added, or nothing if it does not talk. */
  lemma {:induction false} SpeakAllRecords(size: nat, bank: seq<Chunk>, chans: seq<Chan>, ins: seq<Chunk>,
      pseudo: bool, n: nat, i: nat, x: nat)
    requires BankOk(size, bank) && ChansOk(size, |bank|, chans)
    requires |ins| == |chans| && n <= |chans| && BankOk(size, ins) && i < n && x < size
    ensures var c := SpeakAll(size, bank, chans, ins, pseudo, n).1[i];
      c.inConf && c.pseudo == pseudo && Speaks(c) ==>
        (if c.talker then ins[i][x] != -32768 ==> c.conflast[x] != -32768 else c.conflast[x] == 0)
  {
    var (b, cs) := SpeakAll(size, bank, chans, ins, pseudo, n - 1);
    if i < n - 1 {
      SpeakAllRecords(size, bank, chans, ins, pseudo, n - 1, i, x);
    } else if cs[i].pseudo == pseudo && cs[i].inConf && ins[i][x] != -32768 {
      RecordedIsNeverLowest(ins[i], b[cs[i].conf], x);
    }
  }

  /** The same over a whole tick. */
  lemma {:induction false} TickRecords(size: nat, m: Mix, maxconfs: nat, putlin: seq<Chunk>, getlin: seq<Chunk>,
      i: nat, x: nat)
    requires MixOk(size, m) && |putlin| == |getlin| == |m.chans| && BankOk(size, putlin) && BankOk(size, getlin)
    requires i < |m.chans| && x < size
    ensures var c := Ticked(size, m, maxconfs, putlin, getlin).chans[i];
      c.inConf && Speaks(c) ==>
        if c.talker then Input(c, putlin, getlin, i)[x] != -32768 ==> c.conflast[x] != -32768 else c.conflast[x] == 0
  {
    var n := |m.chans|;
    var (b1, c1) := SpeakAll(size, m.next, m.chans, putlin, false, n);
    SpeakAllRecords(size, m.next, m.chans, putlin, false, n, i, x);
    SpeakAllRecords(size, b1, c1, getlin, true, n, i, x);
    if |b1| > 0 {
      SpeakAllIsExact(size, b1, c1, getlin, true, n, 0, x);
    }
    hide SpeakAll;
  }

  /** What a channel says: real channels speak when they receive, pseudo channels when they transmit. */
  function Input(c: Chan, putlin: seq<Chunk>, getlin: seq<Chunk>, i: nat): Chunk
    requires i < |putlin| == |getlin|
  {
    if c.pseudo then getlin[i] else putlin[i]
  }

  /** In terms of the recorded amounts: from the second tick on, with silent outgoing audio, every
      channel that takes part in a conference hears the saturated sum of what everyone else in it
      recorded, provided the conference was below maxconfs at the previous rotation. The
      subtraction itself clips exactly when the channel recorded -32768 and the sum is
      negative, and no decoded sample is -32768. */
  lemma {:induction false} HearsOtherAmounts(size: nat, m: Mix, maxconfs: nat, put1: seq<Chunk>, get1: seq<Chunk>,
      chans: seq<Chan>, maxconfs': nat, put2: seq<Chunk>, get2: seq<Chunk>, i: nat, x: nat)
    requires MixOk(size, m) && |put1| == |get1| == |m.chans| && BankOk(size, put1) && BankOk(size, get1)
    requires ChansOk(size, |m.cur|, chans) && i < |chans| && x < size
    requires |put2| == |get2| == |chans| && BankOk(size, put2) && BankOk(size, get2)
    ensures var m2 := Ticked(size, Ticked(size, m, maxconfs, put1, get1).(chans := chans), maxconfs', put2, get2);
      var c := m2.chans[i];
      var exact := Outgoing(size, m2, i, Zeros(size))[x] == Clamp(Everyone(size, m2.chans, c.conf, x, i));
      c.inConf && Speaks(c) && Hears(c) && c.conf < maxconfs ==>
        && (exact <==> !(c.talker && c.conflast[x] == -32768 && m2.cur[c.conf][x] < 0))
        && (Input(c, put2, get2, i)[x] != -32768 ==> exact)
  {
    var m1 := Ticked(size, m, maxconfs, put1, get1).(chans := chans);
    var m2 := Ticked(size, m1, maxconfs', put2, get2);
    var c := m2.chans[i];
    if c.conf < maxconfs {
      RunIsExact(size, m, maxconfs, put1, get1, chans, maxconfs', put2, get2, c.conf, x);
      TickRecords(size, m1, maxconfs', put2, get2, i, x);
      hide Ticked;
      TotalSkips(size, m2.chans, false, c.conf, x, |m2.chans|, i);
      TotalSkips(size, m2.chans, true, c.conf, x, |m2.chans|, i);
    }
  }

  /** From the second tick on, with silent outgoing audio, a channel that listens to a conference
      below maxconfs and is not held back by dialling or mute hears the level that everyone's
      speech brings the conference to, less what its own speech changed it by, unless that is -32768
      and the level below zero, as no decoded sample makes it; and without clipping the sum of what
      everyone else says. */
  lemma {:induction false} HearsEveryoneElse(size: nat, m: Mix, maxconfs: nat, put1: seq<Chunk>, get1: seq<Chunk>,
      chans: seq<Chan>, maxconfs': nat, put2: seq<Chunk>, get2: seq<Chunk>, i: nat, x: nat)
    requires MixOk(size, m) && |put1| == |get1| == |m.chans| && BankOk(size, put1) && BankOk(size, get1)
    requires ChansOk(size, |m.cur|, chans) && i < |chans| && x < size
    requires |put2| == |get2| == |chans| && BankOk(size, put2) && BankOk(size, get2)
    requires var c := chans[i];
      && c.inConf && c.listener && c.conf < maxconfs
      && (c.pseudo || (!c.muted && !c.dialing && c.timer <= 1))
    ensures var m2 := Ticked(size, Ticked(size, m, maxconfs, put1, get1).(chans := chans), maxconfs', put2, get2);
      var a := chans[i].conf;
      var own := if chans[i].talker then Gain(0, chans, put2, get2, a, x, i) else 0;
      var others := TickLevel(0, chans, put2, get2, a, x) - own;
      var said := TickSaid(chans, put2, get2, a, x, i);
      var heard := Outgoing(size, m2, i, seq(size, j => 0))[x];
      && (heard == (if others > 32767 then 32767 else if others < -32768 then -32768 else others) <==>
          !(own == -32768 && TickLevel(0, chans, put2, get2, a, x) < 0))
      && ((if chans[i].pseudo then get2[i] else put2[i])[x] != -32768 ==> own != -32768)
      && (NeverClips(chans, put2, get2, a, x) && own != -32768 ==>
            heard == if said > 32767 then 32767 else if said < -32768 then -32768 else said)
  {
    var m1 := Ticked(size, m, maxconfs, put1, get1).(chans := chans);
    var m2 := Ticked(size, m1, maxconfs', put2, get2);
    var a := chans[i].conf;
    RunLevels(size, m, maxconfs, put1, get1, chans, maxconfs', put2, get2, a, x);
    TickLevels(size, m, maxconfs, put1, get1, a, x);
    TickTurns(size, m1, maxconfs', put2, get2, i, x);
    TickRecords(size, m1, maxconfs', put2, get2, i, x);
    hide Ticked, TickLevel, Gain, TickSaid, NeverClips;
    if NeverClips(chans, put2, get2, a, x) {
      QuietLevels(chans, put2, get2, a, x, i);
    }
  }

  /** Everyone else's outgoing audio is not touched, and a listener's is its own less what it last
      recorded plus the conference, clipped twice. */
  lemma {:induction false} OutgoingIs(size: nat, m: Mix, i: nat, out: Chunk, x: nat)
    requires MixOk(size, m) && i < |m.chans| && |out| == size && x < size
    ensures var c := m.chans[i];
      var less := out[x] as int - c.conflast[x];
      var all := (if less > 32767 then 32767 else if less < -32768 then -32768 else less) + m.cur[c.conf][x];
      Outgoing(size, m, i, out)[x] ==
        if c.inConf && c.listener && (c.pseudo || (!c.muted && !c.dialing)) then
          if all > 32767 then 32767 else if all < -32768 then -32768 else all
        else out[x]
  {
  }

  /** A channel that did not speak this tick (muted, or in its after-dialling time) still
      subtracts the amount it recorded earlier: it hears the conference correctly
      exactly when that amount is zero or drowns in the saturation. */
  lemma {:induction false} StaleAmountIsHeard(size: nat, chans: seq<Chan>, i: nat, sum: Chunk, x: nat)
    requires forall k :: 0 <= k < |chans| ==> |chans[k].conflast| == size
    requires i < |chans| && |sum| == size && x < size
    requires chans[i].inConf && !Speaks(chans[i])
    requires sum[x] == Everyone(size, chans, chans[i].conf, x, -1)
    ensures var stale := chans[i].conflast[x];
      Heard(Zeros(size), chans[i], sum)[x] == Clamp(Everyone(size, chans, chans[i].conf, x, i)) <==>
      (stale == 0 || (stale < 0 && sum[x] == 32767) || (stale > 0 && sum[x] == -32768))
  {
    TotalSkips(size, chans, false, chans[i].conf, x, |chans|, i);
    TotalSkips(size, chans, true, chans[i].conf, x, |chans|, i);
  }

  lemma {:induction false} TickOne(size: nat, m: Mix, maxconfs: nat, said: Chunk, silence: seq<Chunk>)
    requires MixOk(size, m) && |m.chans| == |silence| == 1 && |said| == size && BankOk(size, silence)
    requires m.chans[0].inConf && !m.chans[0].pseudo
    ensures BankOk(size, [said])
    ensures var (b, c) := SpeakOne(m.next, m.chans[0], said);
      Ticked(size, m, maxconfs, [said], silence) == Mix(m.cur, b, Cleared(size, m.prev, maxconfs), [c])
  {
    var (b, c) := SpeakOne(m.next, m.chans[0], said);
    assert SpeakAll(size, m.next, m.chans, [said], false, 0) == (m.next, m.chans);
    assert m.chans[0 := c] == [c];
    assert SpeakAll(size, m.next, m.chans, [said], false, 1) == (b, [c]);
    assert SpeakAll(size, b, [c], silence, true, 0) == (b, [c]);
  }

  /** Three ticks that bring it about, whatever is said: the only member of a conference speaks,
      dials, and listens again while its after-dialling timer runs. It should hear nothing, and
      hears what it said two ticks before, negated. */
  lemma {:induction false} StaleAmountHappens(size: nat, m: Mix, maxconfs: nat, said: seq<Chunk>,
      silence: seq<Chunk>, x: nat)
    requires MixOk(size, m) && |m.chans| == |silence| == 1 && BankOk(size, silence) && |said| == 3 && BankOk(size, said)
    requires var c := m.chans[0];
      && c.inConf && !c.pseudo && c.talker && c.listener && !c.muted && !c.dialing && c.timer == 0
      && c.conf < maxconfs && m.next[c.conf] == Zeros(size)
    requires x < size
    ensures BankOk(size, [said[0]]) && BankOk(size, [said[1]]) && BankOk(size, [said[2]])
    ensures var m1 := Ticked(size, m, maxconfs, [said[0]], silence);
      var dialing := m1.(chans := [m1.chans[0].(dialing := true)]);
      var m2 := Ticked(size, dialing, maxconfs, [said[1]], silence);
      var dialled := m2.(chans := [m2.chans[0].(dialing := false)]);
      var m3 := Ticked(size, dialled, maxconfs, [said[2]], silence);
      && !Speaks(m3.chans[0]) && Everyone(size, m3.chans, m.chans[0].conf, x, 0) == 0
      && Outgoing(size, m3, 0, Zeros(size))[x] == Clamp(0 - said[0][x] as int)
  {
    hide Ticked, Everyone;
    var c := m.chans[0];
    FirstToSpeak(size, m, maxconfs, said[0], silence);
    var m1 := Ticked(size, m, maxconfs, [said[0]], silence);
    var dialing := m1.(chans := [m1.chans[0].(dialing := true)]);
    QuietTick(size, dialing, maxconfs, said[1], silence);
    var m2 := Ticked(size, dialing, maxconfs, [said[1]], silence);
    var dialled := m2.(chans := [m2.chans[0].(dialing := false)]);
    QuietTick(size, dialled, maxconfs, said[2], silence);
    var m3 := Ticked(size, dialled, maxconfs, [said[2]], silence);
    assert m3.chans == [c.(conflast := said[0], timer := 49)];
    NobodyElse(size, m3.chans, c.conf, x);
  }

  lemma {:induction false} FirstToSpeak(size: nat, m: Mix, maxconfs: nat, said: Chunk, silence: seq<Chunk>)
    requires MixOk(size, m) && |m.chans| == |silence| == 1 && |said| == size && BankOk(size, silence)
    requires var c := m.chans[0]; c.inConf && !c.pseudo && c.talker && !c.muted && !c.dialing && c.timer == 0
    requires m.next[m.chans[0].conf] == Zeros(size)
    ensures BankOk(size, [said])
    ensures Ticked(size, m, maxconfs, [said], silence).chans == [m.chans[0].(conflast := said)]
  {
    TickOne(size, m, maxconfs, said, silence);
    hide Ticked;
    assert Added(said, Zeros(size)) == said;
  }

  lemma {:induction false} QuietTick(size: nat, m: Mix, maxconfs: nat, said: Chunk, silence: seq<Chunk>)
    requires MixOk(size, m) && |m.chans| == |silence| == 1 && |said| == size && BankOk(size, silence)
    requires m.chans[0].inConf && !m.chans[0].pseudo && !Speaks(Timed(m.chans[0]))
    ensures BankOk(size, [said])
    ensures var m' := Ticked(size, m, maxconfs, [said], silence);
      && m'.chans == [Timed(m.chans[0])] && m'.cur == m.next
      && forall a :: 0 <= a < |m'.next| && a < maxconfs ==> m'.next[a] == Zeros(size)
  {
    TickOne(size, m, maxconfs, said, silence);
    hide Ticked;
  }

  lemma {:induction false} NobodyElse(size: nat, chans: seq<Chan>, a: nat, x: nat)
    requires |chans| == 1 && |chans[0].conflast| == size && x < size
    ensures Everyone(size, chans, a, x, 0) == 0
  {
    assert Total(size, chans, false, a, x, 0, 0) == 0 == Total(size, chans, true, a, x, 0, 0);
  }

  // ---------- the mixer in place ----------

  class Conference {
    const size: nat
    const chans: array<Chan>
    /** The three banks of accumulators, one after the other in the source. */
    const sums: array<seq<Chunk>>
    var pos: nat
    var confSumsPrev: nat
    var confSums: nat
    var confSumsNext: nat

    ghost function State(): Mix
      requires sums.Length == 3 && confSumsPrev < 3 && confSums < 3 && confSumsNext < 3
      reads this, sums, chans
    {
      Mix(sums[confSumsPrev], sums[confSums], sums[confSumsNext], chans[..])
    }

    ghost predicate Valid()
      reads this, sums, chans
    {
      && pos < 3 && sums.Length == 3
      && confSumsPrev == (pos + 2) % 3 && confSums == pos && confSumsNext == (pos + 1) % 3
      && MixOk(size, State())
    }

    /** All accumulators zero, as the static arrays start out. */
    constructor (size: nat, aliases: nat, chans: array<Chan>)
      requires ChansOk(size, aliases, chans[..])
      ensures Valid() && fresh(sums) && this.chans == chans && this.size == size && |State().cur| == aliases
      ensures forall a :: 0 <= a < aliases ==> State().next[a] == Zeros(size)
    {
      this.size, this.chans := size, chans;
      pos, confSumsPrev, confSums, confSumsNext := 0, 2, 0, 1;
      var silence := Zeros(size);
      var bank: seq<Chunk> := seq(aliases, a => silence);
      sums := new seq<Chunk>[3](i => bank);
    }

    /** rotate_sums: the banks change roles; the next one is cleared below maxconfs. */
    method RotateSums(maxconfs: nat)
      requires Valid() && maxconfs <= |State().prev|
      modifies this, sums
      ensures Valid()
      ensures var m := old(State());
        State() == Mix(m.cur, m.next, Cleared(size, m.prev, maxconfs), m.chans)
    {
      ghost var m := State();
      confSumsPrev := pos;
      confSums := (pos + 1) % 3;
      confSumsNext := (pos + 2) % 3;
      pos := (pos + 1) % 3;
      var bank := sums[confSumsNext];
      for a := 0 to maxconfs
        invariant |bank| == |m.prev|
        invariant forall i :: 0 <= i < |bank| ==> bank[i] == if i < a then Zeros(size) else m.prev[i]
      {
        bank := bank[a := Zeros(size)];
      }
      assert bank == Cleared(size, m.prev, maxconfs);
      sums[confSumsNext] := bank;
    }

    /** The conference part of one channel's receive (real) or transmit (pseudo): speak into a bank. */
    method Speak(x: nat, offset: nat, input: Chunk)
      requires x < chans.Length && offset < 3 == sums.Length
      requires chans[x].conf < |sums[offset]| && |input| == |sums[offset][chans[x].conf]|
      modifies chans, sums
      ensures (sums[offset], chans[x]) == SpeakOne(old(sums[offset]), old(chans[x]), input)
      ensures forall i :: 0 <= i < 3 && i != offset ==> sums[i] == old(sums[i])
      ensures forall i :: 0 <= i < chans.Length && i != x ==> chans[i] == old(chans[i])
    {
      if !chans[x].pseudo {
        chans[x] := Timed(chans[x]);
      }
      var c := chans[x];
      if (!c.muted && c.timer == 0) || c.pseudo {
        if c.talker {
          var sum := sums[offset][c.conf];
          var k := Acss(input, sum);
          var added := Scss(k, sum);
          sums[offset] := sums[offset][c.conf := Acss(sum, added)];
          chans[x] := c.(conflast := added);
        } else {
          chans[x] := c.(conflast := Zeros(|input|));
        }
      }
    }

    /** All channels of one kind speak, in channel order. */
    method SpeakKind(pseudo: bool, offset: nat, ins: seq<Chunk>)
      requires Valid() && offset < 3
      requires |ins| == chans.Length && BankOk(size, ins)
      modifies chans, sums
      ensures Valid()
      ensures BankOk(size, old(sums[offset])) && ChansOk(size, |old(sums[offset])|, old(chans[..]))
      ensures (sums[offset], chans[..]) ==
        SpeakAll(size, old(sums[offset]), old(chans[..]), ins, pseudo, chans.Length)
      ensures forall i :: 0 <= i < 3 && i != offset ==> sums[i] == old(sums[i])
    {
      ghost var bank, cs := sums[offset], chans[..];
      assert |bank| == |State().cur| && BankOk(size, bank);
      for x := 0 to chans.Length
        invariant (sums[offset], chans[..]) == SpeakAll(size, bank, cs, ins, pseudo, x)
        invariant forall i :: 0 <= i < 3 && i != offset ==> sums[i] == old(sums[i])
      {
        ghost var b, before := sums[offset], chans[..];
        if chans[x].pseudo == pseudo && chans[x].inConf {
          Speak(x, offset, ins[x]);
          assert chans[..] == before[x := SpeakOne(b, before[x], ins[x]).1];
        }
      }
    }

    /** process_masterspan on conference channels, without links. */
    method Tick(maxconfs: nat, putlin: seq<Chunk>, getlin: seq<Chunk>, out: seq<Chunk>) returns (heard: seq<Chunk>)
      requires Valid() && maxconfs <= |State().prev|
      requires |putlin| == |getlin| == |out| == chans.Length
      requires BankOk(size, putlin) && BankOk(size, getlin) && BankOk(size, out)
      modifies this, chans, sums
      ensures Valid() && State() == Ticked(size, old(State()), maxconfs, putlin, getlin)
      ensures |heard| == chans.Length
      ensures forall x :: 0 <= x < chans.Length ==> heard[x] == Outgoing(size, State(), x, out[x])
    {
      hide SpeakAll;
      SpeakKind(false, confSumsNext, putlin);
      RotateSums(maxconfs);
      SpeakKind(true, confSums, getlin);
      heard := [];
      for x := 0 to chans.Length
        invariant |heard| == x
        invariant forall i :: 0 <= i < x ==> heard[i] == Outgoing(size, State(), i, out[i])
      {
        var c := chans[x];
        if c.inConf && c.listener && (c.pseudo || (!c.muted && !c.dialing)) {
          heard := heard + [Acss(Scss(out[x], c.conflast), sums[confSums][c.conf])];
        } else {
          heard := heard + [out[x]];
        }
      }
    }
  }
}
