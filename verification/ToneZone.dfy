/** Tone descriptions: compiled to a table of fragments, loaded by the kernel, and played
    chunk by chunk. The table must sound as the description reads. */
module ToneZone {
  /** What a component sounds like; the carrier computations are not modelled. */
  datatype Tone = Tone(f1: int, f2: int)

  /** One component of a description: `time` in milliseconds, 0 when none is given; `bare`
      for a single frequency without a time. */
  datatype Component =
    | Garbage
    | Component(bang: bool, tone: Tone, bare: bool, time: nat)

  datatype Sound = Sound(id: int, parts: seq<Component>)

  ghost predicate WellFormed(parts: seq<Component>) {
    forall k :: 0 <= k < |parts| ==> parts[k].Component? && (parts[k].bare ==> parts[k].time == 0)
  }

  // ---------- the compiler ----------

  datatype Fragment = Fragment(id: int, next: int, samples: int, tone: Tone)

  /** build_tone's firstnobang after `k` components. */
  function FirstNoBang(parts: seq<Component>, k: nat, base: nat): int
    requires WellFormed(parts) && k <= |parts|
  {
    if k == 0 then -1
    else
      var before, c := FirstNoBang(parts, k - 1, base), parts[k - 1];
      if c.bare || (!c.bang && before < 0) then base + k - 1 else before
  }

  function FragmentOf(id: int, c: Component, index: nat): Fragment
    requires c.Component?
  {
    if c.time != 0 then Fragment(id, index + 1, c.time * 8, c.tone) else Fragment(id, index, 8000, c.tone)
  }

  /** The fragments of one description, placed from `base` on. */
  function Table(id: int, parts: seq<Component>, base: nat): (t: seq<Fragment>)
    requires WellFormed(parts)
    ensures |t| == |parts|
  {
    seq(|parts|, i requires 0 <= i < |parts| =>
      var f := FragmentOf(id, parts[i], base + i);
      if i == |parts| - 1 && parts[i].time != 0 then f.(next := FirstNoBang(parts, |parts|, base)) else f)
  }

  /** The table of a zone: the fragments of all its sounds. */
  function ZoneTable(sounds: seq<Sound>): seq<Fragment>
    requires forall j :: 0 <= j < |sounds| ==> WellFormed(sounds[j].parts)
  {
    if sounds == [] then []
    else
      var t, s := ZoneTable(sounds[..|sounds| - 1]), sounds[|sounds| - 1];
      t + Table(s.id, s.parts, |t|)
  }

  /** A description with somewhere to go back to after its last component. */
  predicate HasReturn(parts: seq<Component>)
    requires WellFormed(parts)
  {
    || parts == [] || parts[|parts| - 1].time == 0
    || exists k :: 0 <= k < |parts| && (!parts[k].bang || parts[k].bare)
  }

  lemma {:induction false} FirstNoBangIs(parts: seq<Component>, k: nat, base: nat)
    requires WellFormed(parts) && k <= |parts|
    ensures var f := FirstNoBang(parts, k, base);
      && (f == -1 || base <= f < base + k)
      && (f == -1 <==> forall i :: 0 <= i < k ==> parts[i].bang && !parts[i].bare)
  {
    if k > 0 {
      FirstNoBangIs(parts, k - 1, base);
    }
  }

  // ---------- the loader ----------

  /** ioctl_load_zone accepts a table if it fits and every next index lies inside it. */
  ghost predicate Loads(table: seq<Fragment>, maxTones: nat) {
    |table| <= maxTones && forall k :: 0 <= k < |table| ==> 0 <= table[k].next < |table|
  }

  ghost predicate Below(table: seq<Fragment>, n: nat) {
    forall k :: 0 <= k < |table| ==> table[k].next < n
  }

  ghost predicate NonNegative(table: seq<Fragment>) {
    forall k :: 0 <= k < |table| ==> 0 <= table[k].next
  }

  lemma {:induction false} TableNexts(id: int, parts: seq<Component>, base: nat)
    requires WellFormed(parts)
    ensures var t := Table(id, parts, base);
      Below(t, base + |t|) && (NonNegative(t) <==> HasReturn(parts))
  {
    FirstNoBangIs(parts, |parts|, base);
    var t := Table(id, parts, base);
    if parts != [] {
      var last := |parts| - 1;
      assert t[last].next == if parts[last].time == 0 then base + last else FirstNoBang(parts, |parts|, base);
      hide FirstNoBang;
      assert forall k :: 0 <= k < last ==> 0 <= t[k].next < base + |t|;
    }
  }

  ghost predicate AllReturn(sounds: seq<Sound>)
    requires forall j :: 0 <= j < |sounds| ==> WellFormed(sounds[j].parts)
  {
    forall j :: 0 <= j < |sounds| ==> HasReturn(sounds[j].parts)
  }

  lemma {:induction false} Appended(a: seq<Fragment>, b: seq<Fragment>)
    ensures NonNegative(a + b) <==> NonNegative(a) && NonNegative(b)
    ensures Below(a, |a|) && Below(b, |a| + |b|) ==> Below(a + b, |a + b|)
  {
    var t := a + b;
    assert forall k :: 0 <= k < |a| ==> t[k] == a[k];
    assert forall k :: 0 <= k < |b| ==> t[|a| + k] == b[k];
    if NonNegative(t) {
      forall k | 0 <= k < |b| ensures 0 <= b[k].next {
        assert t[|a| + k] == b[k];
      }
    }
  }

  lemma {:induction false} ZoneNexts(sounds: seq<Sound>)
    requires forall j :: 0 <= j < |sounds| ==> WellFormed(sounds[j].parts)
    ensures var t := ZoneTable(sounds);
      Below(t, |t|) && (NonNegative(t) <==> AllReturn(sounds))
    decreases |sounds|
  {
    hide HasReturn, Table, NonNegative, Below, WellFormed;
    if sounds == [] {
      NothingNext();
    } else {
      var init, s := sounds[..|sounds| - 1], sounds[|sounds| - 1];
      ZoneNexts(init);
      var a := ZoneTable(init);
      TableNexts(s.id, s.parts, |a|);
      Appended(a, Table(s.id, s.parts, |a|));
      assert AllReturn(sounds) <==> AllReturn(init) && HasReturn(s.parts);
    }
  }

  lemma {:induction false} NothingNext()
    ensures Below([], 0) && NonNegative([])
  {
  }

  /** A zone loads exactly when its fragments fit and every description either ends in an
      untimed component or has a component to return to. */
  lemma {:induction false} ZoneLoads(sounds: seq<Sound>, maxTones: nat)
    requires forall j :: 0 <= j < |sounds| ==> WellFormed(sounds[j].parts)
    ensures Loads(ZoneTable(sounds), maxTones) <==> |ZoneTable(sounds)| <= maxTones && AllReturn(sounds)
  {
    ZoneNexts(sounds);
    hide ZoneTable, AllReturn;
  }

  // ---------- the player ----------

  /** A sample: which tone, and how many samples since that tone last started afresh. */
  datatype Sample = Sample(tone: Tone, phase: nat)

  /** curtone, tonep, and the age of the tone state. */
  datatype Player = Player(cur: nat, tonep: int, phase: nat)

  ghost predicate Playable(table: seq<Fragment>) {
    forall k :: 0 <= k < |table| ==> 0 <= table[k].next < |table| && table[k].samples > 0
  }

  /** One sample from the table. */
  function Step(table: seq<Fragment>, p: Player): (r: Player)
    requires Playable(table) && p.cur < |table|
    ensures r.cur < |table|
  {
    var f := table[p.cur];
    if p.tonep + 1 >= f.samples then Player(f.next, 0, if f.next == p.cur then p.phase + 1 else 0)
    else Player(p.cur, p.tonep + 1, p.phase + 1)
  }

  function Steps(table: seq<Fragment>, p: Player, n: nat): (r: Player)
    requires Playable(table) && p.cur < |table|
    ensures r.cur < |table|
    decreases n
  {
    if n == 0 then p else Steps(table, Step(table, p), n - 1)
  }

  /** The next `n` samples from the table. */
  function Played(table: seq<Fragment>, p: Player, n: nat): (s: seq<Sample>)
    requires Playable(table) && p.cur < |table|
    ensures |s| == n
    decreases n
  {
    if n == 0 then [] else [Sample(table[p.cur].tone, p.phase)] + Played(table, Step(table, p), n - 1)
  }

  lemma {:induction false} PlayedInPieces(table: seq<Fragment>, p: Player, a: nat, b: nat)
    requires Playable(table) && p.cur < |table|
    ensures Played(table, p, a + b) == Played(table, p, a) + Played(table, Steps(table, p, a), b)
    ensures Steps(table, p, a + b) == Steps(table, Steps(table, p, a), b)
    decreases a
  {
    if a > 0 {
      PlayedInPieces(table, Step(table, p), a - 1, b);
      var x, y := [Sample(table[p.cur].tone, p.phase)], Played(table, Step(table, p), a - 1);
      var z := Played(table, Steps(table, p, a), b);
      assert x + (y + z) == (x + y) + z;
    } else {
      assert [] + Played(table, p, b) == Played(table, p, b);
    }
  }

  // ---------- what a description means ----------

  /** Component `part`, `at` samples into it, in a tone that is `phase` samples old. */
  datatype Place = Place(part: nat, at: nat, phase: nat)

  /** The first component not marked with '!'; 0 if all are. */
  function Return(parts: seq<Component>, k: nat): nat
    requires WellFormed(parts) && k <= |parts|
    decreases |parts| - k
  {
    if k == |parts| then 0 else if !parts[k].bang then k else Return(parts, k + 1)
  }

  /** Reading a description one sample at a time: components in order, untimed ones for
      ever, and from the end back to the first component without '!'. */
  function Read(parts: seq<Component>, l: Place): Place
    requires WellFormed(parts) && l.part < |parts|
  {
    var c := parts[l.part];
    if c.time != 0 && l.at + 1 >= c.time * 8 then
      var next := if l.part + 1 < |parts| then l.part + 1 else Return(parts, 0);
      Place(next, 0, if next == l.part then l.phase + 1 else 0)
    else Place(l.part, l.at + 1, l.phase + 1)
  }

  lemma {:induction false} ReturnIs(parts: seq<Component>, k: nat)
    requires WellFormed(parts) && k <= |parts|
    ensures var r := Return(parts, k);
      && ((exists i :: k <= i < |parts| && !parts[i].bang) ==>
        k <= r < |parts| && !parts[r].bang && forall i :: k <= i < r ==> parts[i].bang)
      && (parts != [] ==> r < |parts|)
    decreases |parts| - k
  {
    if k < |parts| {
      ReturnIs(parts, k + 1);
    }
  }

  function ReadOn(parts: seq<Component>, l: Place, n: nat): (r: Place)
    requires WellFormed(parts) && l.part < |parts|
    ensures r.part < |parts|
    decreases n
  {
    ReturnIs(parts, 0);
    if n == 0 then l else ReadOn(parts, Read(parts, l), n - 1)
  }

  /** The first `n` samples of a description. */
  function Meant(parts: seq<Component>, l: Place, n: nat): (s: seq<Sample>)
    requires WellFormed(parts) && l.part < |parts|
    ensures |s| == n
    decreases n
  {
    ReturnIs(parts, 0);
    if n == 0 then [] else [Sample(parts[l.part].tone, l.phase)] + Meant(parts, Read(parts, l), n - 1)
  }

  // ---------- the table sounds as meant ----------

  /** `parts` lies in the table from `base` on. */
  ghost predicate Holds(table: seq<Fragment>, id: int, parts: seq<Component>, base: nat) {
    WellFormed(parts) && base + |parts| <= |table| && table[base..base + |parts|] == Table(id, parts, base)
  }

  /** The player at `p` is where the reader is at `l`, and everything read so far was timed. */
  ghost predicate Together(parts: seq<Component>, base: nat, p: Player, l: Place)
    requires WellFormed(parts)
  {
    && l.part < |parts| && p.cur == base + l.part && p.phase == l.phase
    && (forall i :: 0 <= i < l.part ==> parts[i].time != 0)
    && if parts[l.part].time != 0 then p.tonep == l.at < parts[l.part].time * 8 else p.tonep == l.at % 8000
  }

  lemma {:induction false} TimedReturns(parts: seq<Component>, k: nat, base: nat)
    requires WellFormed(parts) && k <= |parts| && forall i :: 0 <= i < k ==> parts[i].time != 0
    ensures var f := FirstNoBang(parts, k, base);
      f == -1 || (base <= f < base + k && !parts[f - base].bang && forall i :: 0 <= i < f - base ==> parts[i].bang)
  {
    FirstNoBangIs(parts, k, base);
    if k > 0 {
      FirstNoBangIs(parts, k - 1, base);
      TimedReturns(parts, k - 1, base);
    }
  }

  /** The last of only timed components leads to the return place. */
  lemma {:induction false} LastReturns(id: int, parts: seq<Component>, base: nat)
    requires WellFormed(parts) && parts != [] && HasReturn(parts) && forall i :: 0 <= i < |parts| ==> parts[i].time != 0
    ensures Table(id, parts, base)[|parts| - 1].next == base + Return(parts, 0)
  {
    TimedReturns(parts, |parts|, base);
    FirstNoBangIs(parts, |parts|, base);
    ReturnIs(parts, 0);
  }

  lemma {:induction false} StepTogether(table: seq<Fragment>, id: int, parts: seq<Component>, base: nat, p: Player,
      l: Place)
    requires Playable(table) && Holds(table, id, parts, base) && HasReturn(parts) && Together(parts, base, p, l)
    ensures table[p.cur].tone == parts[l.part].tone
    ensures Together(parts, base, Step(table, p), Read(parts, l))
  {
    var t, i := Table(id, parts, base), l.part;
    assert table[p.cur] == table[base..base + |parts|][i] == t[i];
    if i == |parts| - 1 && parts[i].time != 0 {
      LastReturns(id, parts, base);
      ReturnIs(parts, 0);
    }
    hide FirstNoBang, Return;
    if parts[i].time == 0 {
      Wrapped(l.at);
    }
  }

  lemma {:induction false} Wrapped(at: nat)
    ensures (at + 1) % 8000 == if at % 8000 + 1 >= 8000 then 0 else at % 8000 + 1
  {
  }

  lemma {:induction false} PlayedTogether(table: seq<Fragment>, id: int, parts: seq<Component>, base: nat, p: Player,
      l: Place, n: nat)
    requires Playable(table) && Holds(table, id, parts, base) && HasReturn(parts)
    requires Together(parts, base, p, l) && p.cur < |table|
    ensures Played(table, p, n) == Meant(parts, l, n)
    decreases n
  {
    if n > 0 {
      StepTogether(table, id, parts, base, p, l);
      hide Together, Holds, HasReturn, Playable;
      PlayedTogether(table, id, parts, base, Step(table, p), Read(parts, l), n - 1);
    }
  }

  ghost predicate AllWellFormed(sounds: seq<Sound>) {
    forall j :: 0 <= j < |sounds| ==> WellFormed(sounds[j].parts)
  }

  /** The loader keeps, for each tone, the first fragment that names it. */
  function FirstOf(table: seq<Fragment>, id: int, k: nat): nat
    requires k <= |table|
    decreases |table| - k
  {
    if k == |table| || table[k].id == id then k else FirstOf(table, id, k + 1)
  }

  lemma {:induction false} FirstOfIs(table: seq<Fragment>, id: int, k: nat, at: nat)
    requires k <= at < |table| && table[at].id == id && forall i :: k <= i < at ==> table[i].id != id
    ensures FirstOf(table, id, k) == at
    decreases at - k
  {
    if k < at {
      FirstOfIs(table, id, k + 1, at);
    }
  }

  /** The fragments of sound `j` lie together behind those of the earlier sounds, whose ids they all carry. */
  lemma {:induction false} SoundIsHeld(sounds: seq<Sound>, j: nat)
    requires AllWellFormed(sounds) && j < |sounds|
    ensures var base := |ZoneTable(sounds[..j])|;
      && Holds(ZoneTable(sounds), sounds[j].id, sounds[j].parts, base)
      && ZoneTable(sounds)[..base] == ZoneTable(sounds[..j])
    decreases |sounds|
  {
    var init, s := sounds[..|sounds| - 1], sounds[|sounds| - 1];
    var a, t := ZoneTable(init), ZoneTable(sounds);
    hide Table;
    if j == |init| {
      assert sounds[..j] == init;
      assert t == a + Table(s.id, s.parts, |a|);
      assert t[|a|..|a| + |s.parts|] == Table(s.id, s.parts, |a|);
    } else {
      SoundIsHeld(init, j);
      assert init[..j] == sounds[..j];
      var base := |ZoneTable(init[..j])|;
      assert t == a + Table(s.id, s.parts, |a|);
      assert t[..base] == a[..base];
      assert t[base..base + |init[j].parts|] == a[base..base + |init[j].parts|];
    }
  }

  lemma {:induction false} IdsInTable(sounds: seq<Sound>, id: int)
    requires AllWellFormed(sounds) && forall j :: 0 <= j < |sounds| ==> sounds[j].id != id
    ensures forall k :: 0 <= k < |ZoneTable(sounds)| ==> ZoneTable(sounds)[k].id != id
    decreases |sounds|
  {
    if sounds != [] {
      IdsInTable(sounds[..|sounds| - 1], id);
    }
  }

  /** Playing a loaded zone's tone sounds exactly as its description reads, for ever. */
  lemma {:induction false} ZonePlays(sounds: seq<Sound>, maxTones: nat, j: nat, n: nat)
    requires AllWellFormed(sounds) && Loads(ZoneTable(sounds), maxTones)
    requires j < |sounds| && sounds[j].parts != [] && forall i :: 0 <= i < j ==> sounds[i].id != sounds[j].id
    ensures var table, start := ZoneTable(sounds), FirstOf(ZoneTable(sounds), sounds[j].id, 0);
      && Playable(table) && start < |table|
      && Played(table, Player(start, 0, 0), n) == Meant(sounds[j].parts, Place(0, 0, 0), n)
  {
    var table, base := ZoneTable(sounds), |ZoneTable(sounds[..j])|;
    var id, parts := sounds[j].id, sounds[j].parts;
    ZoneLoads(sounds, maxTones);
    SoundIsHeld(sounds, j);
    SamplesPositive(sounds);
    IdsInTable(sounds[..j], id);
    assert table[base] == table[base..base + |parts|][0] == Table(id, parts, base)[0];
    assert forall i :: 0 <= i < base ==> table[i] == table[..base][i];
    hide ZoneTable, Holds, Played, Meant, Loads, HasReturn;
    FirstOfIs(table, id, 0, base);
    assert HasReturn(parts);
    PlayedTogether(table, id, parts, base, Player(base, 0, 0), Place(0, 0, 0), n);
  }

  lemma {:induction false} SamplesPositive(sounds: seq<Sound>)
    requires AllWellFormed(sounds)
    ensures forall k :: 0 <= k < |ZoneTable(sounds)| ==> ZoneTable(sounds)[k].samples > 0
    decreases |sounds|
  {
    if sounds != [] {
      SamplesPositive(sounds[..|sounds| - 1]);
    }
  }

  // ---------- in order, then repeating or holding ----------

  /** The samples of the components from `i` up to `j`. */
  function Lead(parts: seq<Component>, i: nat, j: nat): nat
    requires WellFormed(parts) && j <= |parts|
    decreases j
  {
    if j <= i then 0 else Lead(parts, i, j - 1) + parts[j - 1].time * 8
  }

  lemma {:induction false} ReadInPieces(parts: seq<Component>, l: Place, a: nat, b: nat)
    requires WellFormed(parts) && l.part < |parts|
    ensures ReadOn(parts, l, a + b) == ReadOn(parts, ReadOn(parts, l, a), b)
    decreases a
  {
    ReturnIs(parts, 0);
    if a > 0 {
      ReadInPieces(parts, Read(parts, l), a - 1, b);
    }
  }

  /** Within a component the place just moves on. */
  lemma {:induction false} ReadWithin(parts: seq<Component>, l: Place, n: nat)
    requires WellFormed(parts) && l.part < |parts|
    requires parts[l.part].time == 0 || l.at + n < parts[l.part].time * 8
    ensures ReadOn(parts, l, n) == Place(l.part, l.at + n, l.phase + n)
    decreases n
  {
    ReturnIs(parts, 0);
    if n > 0 {
      ReadWithin(parts, Read(parts, l), n - 1);
    }
  }

  /** A timed component lasts eight samples a millisecond. */
  lemma {:induction false} ReadThrough(parts: seq<Component>, l: Place)
    requires WellFormed(parts) && l.part < |parts| && parts[l.part].time != 0 && l.at == 0
    ensures var r := ReadOn(parts, l, parts[l.part].time * 8);
      && r.at == 0
      && r.part == (if l.part + 1 < |parts| then l.part + 1 else Return(parts, 0))
      && (r.part != l.part ==> r.phase == 0)
  {
    var n := parts[l.part].time * 8 - 1;
    ReadWithin(parts, l, n);
    ReadInPieces(parts, l, n, 1);
    var last := ReadOn(parts, l, n);
    assert ReadOn(parts, last, 1) == ReadOn(parts, Read(parts, last), 0);
  }

  /** The components are heard in order: component `j` starts when those before it are over. */
  lemma {:induction false} InOrder(parts: seq<Component>, i: nat, j: nat, phase: nat)
    requires WellFormed(parts) && i <= j < |parts| && forall k :: i <= k < j ==> parts[k].time != 0
    ensures var r := ReadOn(parts, Place(i, 0, phase), Lead(parts, i, j));
      r.part == j && r.at == 0 && (i < j ==> r.phase == 0) && (i == j ==> r.phase == phase)
    decreases j
  {
    if i < j {
      InOrder(parts, i, j - 1, phase);
      var m := ReadOn(parts, Place(i, 0, phase), Lead(parts, i, j - 1));
      ReadInPieces(parts, Place(i, 0, phase), Lead(parts, i, j - 1), parts[j - 1].time * 8);
      ReadThrough(parts, m);
    }
  }

  /** The first untimed component, once reached, is one unbroken tone for ever. */
  lemma {:induction false} HoldsForEver(parts: seq<Component>, u: nat, n: nat)
    requires WellFormed(parts) && u < |parts| && parts[u].time == 0 && forall k :: 0 <= k < u ==> parts[k].time != 0
    ensures ReadOn(parts, Place(0, 0, 0), Lead(parts, 0, u) + n) == Place(u, n, n)
  {
    InOrder(parts, 0, u, 0);
    ReadInPieces(parts, Place(0, 0, 0), Lead(parts, 0, u), n);
    ReadWithin(parts, Place(u, 0, 0), n);
  }

  /** When all components are timed, the end leads back to the first without '!', again and again. */
  lemma {:induction false} RepeatsForEver(parts: seq<Component>, rounds: nat)
    requires WellFormed(parts) && parts != [] && forall k :: 0 <= k < |parts| ==> parts[k].time != 0
    ensures var cycle := Lead(parts, Return(parts, 0), |parts|);
      var r := ReadOn(parts, Place(0, 0, 0), Lead(parts, 0, |parts|) + rounds * cycle);
      r.part == Return(parts, 0) && r.at == 0
    decreases rounds
  {
    ReturnIs(parts, 0);
    var f, all := Return(parts, 0), Lead(parts, 0, |parts|);
    var round := Lead(parts, f, |parts|);
    if rounds == 0 {
      ToTheEnd(parts, 0, 0);
    } else {
      RepeatsForEver(parts, rounds - 1);
      var m := ReadOn(parts, Place(0, 0, 0), all + (rounds - 1) * round);
      OneMoreRound(rounds, round);
      ReadInPieces(parts, Place(0, 0, 0), all + (rounds - 1) * round, round);
      ToTheEnd(parts, f, m.phase);
    }
  }

  lemma {:induction false} OneMoreRound(rounds: nat, round: nat)
    requires rounds > 0
    ensures (rounds - 1) * round + round == rounds * round
  {
  }

  lemma {:induction false} ToTheEnd(parts: seq<Component>, i: nat, phase: nat)
    requires WellFormed(parts) && i < |parts| && forall k :: i <= k < |parts| ==> parts[k].time != 0
    ensures var r := ReadOn(parts, Place(i, 0, phase), Lead(parts, i, |parts|));
      r.part == Return(parts, 0) && r.at == 0
  {
    var last := |parts| - 1;
    InOrder(parts, i, last, phase);
    var m := ReadOn(parts, Place(i, 0, phase), Lead(parts, i, last));
    ReadInPieces(parts, Place(i, 0, phase), Lead(parts, i, last), parts[last].time * 8);
    ReadThrough(parts, m);
  }

  // ---------- the loops ----------

  /** build_tone: writes the fragments of `s` at `count`, if they fit and all can be read. */
  method BuildTone(table: array<Fragment>, s: Sound, count: nat) returns (ok: bool, used: nat)
    requires count <= table.Length
    requires forall k :: 0 <= k < |s.parts| && s.parts[k].Component? && s.parts[k].bare ==> s.parts[k].time == 0
    modifies table
    ensures ok <==> WellFormed(s.parts) && count + |s.parts| <= table.Length
    ensures ok ==> used == |s.parts| && table[count..count + used] == Table(s.id, s.parts, count)
    ensures table[..count] == old(table[..count])
  {
    var firstnobang := -1;
    var n := count;
    used := 0;
    var i := 0;
    while i < |s.parts|
      invariant 0 <= i <= |s.parts| && n == count + i <= table.Length
      invariant forall k :: 0 <= k < i ==> s.parts[k].Component?
      invariant WellFormed(s.parts) ==> firstnobang == FirstNoBang(s.parts, i, count)
      invariant forall k :: 0 <= k < i ==> table[count + k] == FragmentOf(s.id, s.parts[k], count + k)
      invariant table[..count] == old(table[..count])
    {
      var c := s.parts[i];
      if c.Garbage? {
        return false, 0;
      }
      if !c.bang && firstnobang < 0 {
        firstnobang := n;
      }
      if c.bare {
        firstnobang := n;
      }
      if n >= table.Length {
        return false, 0;
      }
      if c.time != 0 {
        table[n] := Fragment(s.id, n + 1, c.time * 8, c.tone);
      } else {
        table[n] := Fragment(s.id, n, 8000, c.tone);
      }
      if WellFormed(s.parts) {
        FirstNoBangIs(s.parts, i, count);
      }
      n := n + 1;
      i := i + 1;
    }
    if |s.parts| > 0 && s.parts[i - 1].time != 0 {
      table[n - 1] := table[n - 1].(next := firstnobang);
    }
    used := |s.parts|;
    assert table[count..count + used] == Table(s.id, s.parts, count);
    ok := true;
  }

  /** The part of tone_zone_register_zone that builds the tones. */
  method BuildZone(table: array<Fragment>, sounds: seq<Sound>) returns (ok: bool, count: nat)
    requires forall j, k :: 0 <= j < |sounds| && 0 <= k < |sounds[j].parts| ==>
      sounds[j].parts[k].Component? && sounds[j].parts[k].bare ==> sounds[j].parts[k].time == 0
    modifies table
    ensures ok ==> AllWellFormed(sounds) && count <= table.Length && table[..count] == ZoneTable(sounds)
    ensures AllWellFormed(sounds) && |ZoneTable(sounds)| <= table.Length ==> ok
  {
    count := 0;
    for x := 0 to |sounds|
      invariant AllWellFormed(sounds[..x]) && count <= table.Length && table[..count] == ZoneTable(sounds[..x])
    {
      assert sounds[..x + 1][..x] == sounds[..x];
      if AllWellFormed(sounds) {
        SoundIsHeld(sounds, x);
      }
      if sounds[x].parts != [] {
        ghost var before := table[..count];
        var done, res := BuildTone(table, sounds[x], count);
        if !done {
          return false, 0;
        }
        assert table[..count + res] == before + table[count..count + res];
        count := count + res;
      } else {
        assert Table(sounds[x].id, [], count) == [] && table[..count] == table[..count] + [];
      }
    }
    assert sounds[..|sounds|] == sounds;
    ok := true;
  }

  /** The checks of ioctl_load_zone on a table of regular tones. */
  method LoadZone(table: seq<Fragment>, maxTones: nat) returns (ok: bool)
    ensures ok <==> Loads(table, maxTones)
  {
    if |table| > maxTones {
      return false;
    }
    for x := 0 to |table|
      invariant forall k :: 0 <= k < x ==> 0 <= table[k].next < |table|
    {
      if table[x].next >= |table| || table[x].next < 0 {
        return false;
      }
    }
    ok := true;
  }

  lemma {:induction false} PlayedBlock(table: seq<Fragment>, p: Player, n: nat)
    requires Playable(table) && p.cur < |table| && 0 <= p.tonep && p.tonep + n < table[p.cur].samples
    ensures Steps(table, p, n) == Player(p.cur, p.tonep + n, p.phase + n)
    ensures Played(table, p, n) == seq(n, i requires 0 <= i < n => Sample(table[p.cur].tone, p.phase + i))
    decreases n
  {
    if n > 0 {
      PlayedBlock(table, Step(table, p), n - 1);
    }
  }

  /** The tone part of __dahdi_getbuf_chunk and __dahdi_getempty. */
  class Voice {
    const table: seq<Fragment>
    var curtone: nat
    var tonep: int
    /** Samples since dahdi_init_tone_state. */
    var age: nat

    ghost function State(): Player
      reads this
    {
      Player(curtone, tonep, age)
    }

    ghost predicate Valid()
      reads this
    {
      Playable(table) && curtone < |table| && 0 <= tonep < table[curtone].samples
    }

    /** start_tone. */
    constructor (table: seq<Fragment>, id: int)
      requires Playable(table) && FirstOf(table, id, 0) < |table|
      ensures Valid() && this.table == table && State() == Player(FirstOf(table, id, 0), 0, 0)
    {
      this.table := table;
      curtone, tonep, age := FirstOf(table, id, 0), 0, 0;
    }

    method GetTone(bytes: nat) returns (txb: seq<Sample>)
      requires Valid()
      modifies this
      ensures Valid() && txb == Played(table, old(State()), bytes) && State() == Steps(table, old(State()), bytes)
    {
      txb := [];
      var left: nat := bytes;
      ghost var p0 := State();
      while left > 0
        invariant Valid() && left <= bytes
        invariant txb == Played(table, p0, bytes - left) && State() == Steps(table, p0, bytes - left)
        decreases left
      {
        var n := table[curtone].samples - tonep;
        if n > left {
          n := left;
        }
        ghost var p := State();
        BlockEnds(table, p, n);
        PlayedInPieces(table, p0, bytes - left, n);
        for x := 0 to n
          invariant txb == Played(table, p0, bytes - left) +
            seq(x, i requires 0 <= i < x => Sample(table[p.cur].tone, p.phase + i))
          invariant curtone == p.cur && tonep == p.tonep && age == p.phase + x
        {
          txb := txb + [Sample(table[curtone].tone, age)];
          age := age + 1;
        }
        tonep := tonep + n;
        left := left - n;
        if tonep >= table[curtone].samples {
          tonep := 0;
          var last := curtone;
          curtone := table[curtone].next;
          if last != curtone {
            age := 0;
          }
        }
      }
    }
  }

  /** The samples up to the end of a fragment or of the chunk. */
  lemma {:induction false} BlockEnds(table: seq<Fragment>, p: Player, n: nat)
    requires Playable(table) && p.cur < |table| && 0 <= p.tonep && 0 < n && p.tonep + n <= table[p.cur].samples
    ensures Played(table, p, n) == seq(n, i requires 0 <= i < n => Sample(table[p.cur].tone, p.phase + i))
    ensures p.tonep + n < table[p.cur].samples ==> Steps(table, p, n) == Player(p.cur, p.tonep + n, p.phase + n)
    ensures (p.tonep + n == table[p.cur].samples ==>
      Steps(table, p, n) == Player(table[p.cur].next, 0, if table[p.cur].next == p.cur then p.phase + n else 0))
  {
    PlayedBlock(table, p, n - 1);
    PlayedInPieces(table, p, n - 1, 1);
    var q := Player(p.cur, p.tonep + n - 1, p.phase + n - 1);
    assert Played(table, Step(table, q), 0) == [];
    assert Played(table, q, 1) == [Sample(table[q.cur].tone, q.phase)];
    assert Steps(table, q, 1) == Steps(table, Step(table, q), 0);
  }
}
