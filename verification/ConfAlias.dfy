/** Conference numbers and the small aliases that index the mixer's sums. Every channel
    caches its conference's alias; the two tables must stay inverse to each other. */
module ConfAlias {
  const MODE_NORMAL := 0
  const MODE_CONF := 4
  const MODE_REALANDPSEUDO := 8

  /** The modes 4 to 8: conference, announce, monitor, both, and real-and-pseudo. */
  predicate InConf(confmode: int) {
    MODE_CONF <= confmode % 256 <= MODE_REALANDPSEUDO
  }

  /** Modes that name a channel, not a conference. */
  predicate Monitors(confmode: int) {
    confmode % 256 in {1, 2, 3, 10, 11, 12}
  }

  datatype Chan = Absent | Chan(confna: int, confmode: int, confn: int, audio: bool, dacs: bool)

  datatype Tables = Tables(max: nat, alias: seq<int>, rev: seq<int>, maxconfs: int)
  datatype State = State(t: Tables, chans: seq<Chan>)

  // ---------- the tables ----------

  /** dahdi_first_empty_alias from `x` on. */
  function EmptyAliasFrom(rev: seq<int>, max: nat, x: nat): (a: int)
    requires |rev| == max + 1
    ensures a == -1 || (x <= a < max && rev[a] == 0)
    ensures forall k :: x <= k < (if a == -1 then max else a) ==> rev[k] != 0
    decreases max - x
  {
    if x >= max then -1 else if rev[x] == 0 then x else EmptyAliasFrom(rev, max, x + 1)
  }

  /** recalc_maxconfs looking down from `x`. */
  function HighestFrom(rev: seq<int>, x: nat): (m: int)
    requires x < |rev|
    ensures m == 0 || (1 < m <= x + 1 && rev[m - 1] != 0)
    ensures forall k :: 0 < k <= x && rev[k] != 0 ==> k < m
  {
    if x == 0 then 0 else if rev[x] != 0 then x + 1 else HighestFrom(rev, x - 1)
  }

  /** dahdi_first_empty_conference looking down from `x`. */
  function EmptyConfFrom(alias: seq<int>, x: nat): (c: int)
    requires x < |alias|
    ensures c == -1 || (1 <= c <= x && alias[c] == 0)
    ensures forall k :: (if c == -1 then 1 else c + 1) <= k <= x ==> alias[k] != 0
  {
    if x == 0 then -1 else if alias[x] == 0 then x else EmptyConfFrom(alias, x - 1)
  }

  /** Inverse partial bijections between conferences 1..max and aliases 1..max - 1, and the
      mixer's bound one above the highest alias in use. */
  ghost predicate Sound(t: Tables) {
    && t.max >= 2 && |t.alias| == |t.rev| == t.max + 1
    && t.alias[0] == 0 && t.rev[0] == 0 && t.rev[t.max] == 0
    && (forall c :: 0 < c <= t.max && t.alias[c] != 0 ==> 0 < t.alias[c] < t.max && t.rev[t.alias[c]] == c)
    && (forall a :: 0 < a < t.max && t.rev[a] != 0 ==> 0 < t.rev[a] <= t.max && t.alias[t.rev[a]] == a)
    && t.maxconfs == HighestFrom(t.rev, t.max - 1)
  }

  /** dahdi_get_conf_alias, where an alias is there to be had. */
  function GetAlias(t: Tables, x: nat): (r: (Tables, int))
    requires Sound(t) && 0 < x <= t.max && AliasFor(t, x)
  {
    if t.alias[x] != 0 then (t, t.alias[x])
    else
      var a := EmptyAliasFrom(t.rev, t.max, 1);
      var rev := t.rev[a := x];
      (t.(alias := t.alias[x := a], rev := rev, maxconfs := HighestFrom(rev, t.max - 1)), a)
  }

  predicate AliasFor(t: Tables, x: nat)
    requires |t.alias| == |t.rev| == t.max + 1 && x <= t.max
  {
    t.alias[x] != 0 || EmptyAliasFrom(t.rev, t.max, 1) != -1
  }

  predicate Member(chans: seq<Chan>, x: int, y: nat)
    requires y < |chans|
  {
    chans[y].Chan? && chans[y].confna == x && InConf(chans[y].confmode)
  }

  predicate HasMember(chans: seq<Chan>, x: int) {
    exists y :: 0 <= y < |chans| && Member(chans, x, y)
  }

  /** dahdi_check_conf: an aliased conference without members gives its alias back. */
  function CheckConf(t: Tables, chans: seq<Chan>, x: int): Tables
    requires Sound(t) && x <= t.max
  {
    if x <= 0 || t.alias[x] == 0 || HasMember(chans, x) then t
    else
      var rev := t.rev[t.alias[x] := 0];
      t.(alias := t.alias[x := 0], rev := rev, maxconfs := HighestFrom(rev, t.max - 1))
  }

  lemma {:induction false} CheckConfKeeps(t: Tables, chans: seq<Chan>, x: int)
    requires Sound(t) && x <= t.max
    ensures var t' := CheckConf(t, chans, x);
      && Sound(t') && t'.max == t.max && |t'.alias| == t.max + 1
      && (forall c :: 0 <= c <= t.max && c != x ==> t'.alias[c] == t.alias[c])
      && (0 < x && HasMember(chans, x) ==> t' == t)
      && (0 < x && !HasMember(chans, x) ==> t'.alias[x] == 0)
  {
    hide HasMember, HighestFrom;
  }

  lemma {:induction false} GetAliasKeeps(t: Tables, x: nat)
    requires Sound(t) && 0 < x <= t.max && AliasFor(t, x)
    ensures var (t', a) := GetAlias(t, x);
      && Sound(t') && t'.max == t.max && a != 0 && t'.alias[x] == a
      && (t.alias[x] != 0 ==> t' == t)
      && forall c :: 0 <= c <= t.max && c != x ==> t'.alias[c] == t.alias[c]
  {
    hide HighestFrom;
  }

  /** Conferences 1 to `n` other than `x`. */
  function Others(n: nat, x: nat): (s: set<int>)
    ensures forall c :: c in s <==> 0 < c <= n && c != x
    ensures |s| == if 0 < x <= n then n - 1 else n
  {
    if n == 0 then {} else if n == x then Others(n - 1, x) else Others(n - 1, x) + {n}
  }

  /** `m` maps the numbers 1 to `n` other than `x` to different numbers in `r`. */
  ghost predicate OneToOne(m: seq<int>, n: nat, x: nat, r: set<int>) {
    && n < |m|
    && (forall c :: 0 < c <= n && c != x ==> m[c] in r)
    && forall c, d :: 0 < c < d <= n && c != x && d != x ==> m[c] != m[d]
  }

  lemma {:induction false} OneToOneCounts(m: seq<int>, n: nat, x: nat, r: set<int>)
    requires OneToOne(m, n, x, r)
    ensures |Others(n, x)| <= |r|
  {
    if n == x && n > 0 {
      OneToOneCounts(m, n - 1, x, r);
    } else if n > 0 {
      OneToOneCounts(m, n - 1, x, r - {m[n]});
    }
  }

  ghost predicate AnotherIsFree(t: Tables, x: nat)
    requires |t.alias| == t.max + 1
  {
    exists c :: 0 < c <= t.max && c != x && t.alias[c] == 0
  }

  lemma {:induction false} AliasForSome(t: Tables, x: nat, a: int)
    requires Sound(t) && 0 < x <= t.max && t.alias[x] == 0 && 0 < a < t.max && t.rev[a] == 0
    ensures AnotherIsFree(t, x)
  {
    if !AnotherIsFree(t, x) {
      OneToOneCounts(t.alias, t.max, x, Others(t.max - 1, a));
    }
  }

  lemma {:induction false} NoAliasForAny(t: Tables, x: nat)
    requires Sound(t) && 0 < x <= t.max && t.alias[x] == 0 && forall a :: 0 < a < t.max ==> t.rev[a] != 0
    ensures !AnotherIsFree(t, x)
  {
    if c :| 0 < c <= t.max && c != x && t.alias[c] == 0 {
      var confs := Others(t.max, x) - {c};
      forall a | 0 < a < t.max ensures t.rev[a] in confs {
        assert t.alias[t.rev[a]] == a;
      }
      OneToOneCounts(t.rev, t.max - 1, 0, confs);
    }
  }

  /** A conference without an alias can get one exactly when another conference has none
      either: there is one alias fewer than there are conferences. */
  lemma {:induction false} AliasesSuffice(t: Tables, x: nat)
    requires Sound(t) && 0 < x <= t.max && t.alias[x] == 0
    ensures AliasFor(t, x) <==> AnotherIsFree(t, x)
  {
    var a := EmptyAliasFrom(t.rev, t.max, 1);
    if a != -1 {
      AliasForSome(t, x, a);
    } else {
      NoAliasForAny(t, x);
    }
  }

  // ---------- the channels ----------

  /** The cached alias of a channel agrees with the table. */
  predicate Agrees(alias: seq<int>, ch: Chan) {
    ch.Chan? ==>
      && 0 <= ch.confna < |alias|
      && if InConf(ch.confmode) then ch.confna > 0 && alias[ch.confna] != 0 && ch.confn == alias[ch.confna]
         else ch.confn == 0
  }

  /** There are as many channel slots as conferences, and slot 0 is never given to a channel. */
  ghost predicate Shaped(s: State) {
    Sound(s.t) && |s.chans| <= s.t.max && (|s.chans| > 0 ==> s.chans[0].Absent?)
  }

  ghost predicate Consistent(s: State) {
    Shaped(s) && forall y :: 0 <= y < |s.chans| ==> Agrees(s.t.alias, s.chans[y])
  }

  datatype Reply = Done(confno: int) | Einval | Ebusy

  predicate HasChan(chans: seq<Chan>, i: int) {
    0 < i < |chans| && chans[i].Chan?
  }

  /** The checks of DAHDI_SETCONF on its arguments. */
  predicate Refused(max: nat, chans: seq<Chan>, i: int, confno: int, confmode: int) {
    || !HasChan(chans, i) || !chans[i].audio
    || (if Monitors(confmode) then !(0 <= confno < |chans| && chans[confno].Chan?)
        else confno < -1 || confno > max)
    || (confno == 0 && confmode != 0) || (confmode == 0 && confno != 0)
  }

  /** -1 asks for the highest conference in which nobody is. */
  function Chosen(s: State, confno: int): int
    requires Shaped(s)
  {
    if confno == -1 then EmptyConfFrom(s.t.alias, s.t.max - 1) else confno
  }

  /** The channel is moved and both conferences are checked; its alias is looked up last. */
  function Moved(s: State, i: nat, confno: int, confmode: int): (r: State)
    requires Shaped(s) && HasChan(s.chans, i) && confno <= s.t.max && s.chans[i].confna <= s.t.max
    ensures Shaped(r) && r.t.max == s.t.max
    ensures r.chans == s.chans[i := s.chans[i].(confna := confno, confmode := confmode, confn := 0)]
  {
    SoundSizes(s.t);
    hide CheckConf, Sound, HasMember;
    var chans := s.chans[i := s.chans[i].(confna := confno, confmode := confmode, confn := 0)];
    var t := CheckConf(s.t, chans, s.chans[i].confna);
    CheckConfKeeps(s.t, chans, s.chans[i].confna);
    CheckConfKeeps(t, chans, confno);
    State(CheckConf(t, chans, confno), chans)
  }

  function Joined(s: State, i: nat, confno: nat): State
    requires Shaped(s) && HasChan(s.chans, i) && 0 < confno <= s.t.max && AliasFor(s.t, confno)
  {
    var (t, a) := GetAlias(s.t, confno);
    State(t, s.chans[i := s.chans[i].(confn := a)])
  }

  /** close_channel: a cross-connected channel keeps its mode, every other one is taken out. */
  function Closed(s: State, i: nat): State
    requires Shaped(s) && HasChan(s.chans, i) && s.chans[i].confna <= s.t.max
  {
    var ch := s.chans[i];
    var chans := s.chans[i := if ch.dacs then ch.(confn := 0) else ch.(confna := 0, confmode := 0, confn := 0)];
    State(if ch.confna != 0 then CheckConf(s.t, chans, ch.confna) else s.t, chans)
  }

  /** DAHDI_AUDIOMODE off: the channel leaves its conference and audio mode. */
  function AudioOff(s: State, i: nat): State
    requires Shaped(s) && HasChan(s.chans, i) && s.chans[i].confna <= s.t.max
  {
    var ch := s.chans[i];
    var chans := s.chans[i := ch.(confna := 0, confmode := 0, confn := 0, audio := false)];
    State(if ch.confna != 0 then CheckConf(s.t, chans, ch.confna) else s.t, chans)
  }

  /** Aliases were dropped only from conferences without members, and surely from `x` and `z` if they have none. */
  ghost predicate Pruned(alias: seq<int>, alias': seq<int>, chans: seq<Chan>, x: int, z: int) {
    && |alias| == |alias'|
    && (forall k :: 0 < k < |alias| && HasMember(chans, k) ==> alias'[k] == alias[k])
    && (forall k :: 0 < k < |alias| && alias'[k] != 0 ==> alias'[k] == alias[k])
    && (forall k :: 0 < k < |alias| && (k == x || k == z) && alias'[k] != 0 ==> HasMember(chans, k))
  }

  lemma {:induction false} TwoChecksPrune(t: Tables, chans: seq<Chan>, x: int, z: int)
    requires Sound(t) && x <= t.max && z <= t.max
    ensures var t1 := CheckConf(t, chans, x);
      && Sound(t1) && t1.max == t.max
      && Pruned(t.alias, t1.alias, chans, x, x)
      && Pruned(t.alias, CheckConf(t1, chans, z).alias, chans, x, z)
  {
    assert |t.alias| == t.max + 1;
    hide CheckConf, HasMember, Sound, Pruned;
    CheckConfKeeps(t, chans, x);
    var t1 := CheckConf(t, chans, x);
    CheckConfKeeps(t1, chans, z);
    OnePrunes(t, t1, chans, x);
    OnePrunes(t1, CheckConf(t1, chans, z), chans, z);
    PrunedTwice(t.alias, t1.alias, CheckConf(t1, chans, z).alias, chans, x, z);
  }

  lemma {:induction false} PrunedTwice(a: seq<int>, b: seq<int>, c: seq<int>, chans: seq<Chan>, x: int, z: int)
    requires Pruned(a, b, chans, x, x) && Pruned(b, c, chans, z, z)
    ensures Pruned(a, c, chans, x, z)
  {
    hide HasMember;
  }

  lemma {:induction false} OnePrunes(t: Tables, t': Tables, chans: seq<Chan>, x: int)
    requires |t.alias| == |t'.alias| == t.max + 1 && x <= t.max
    requires forall c :: 0 <= c <= t.max && c != x ==> t'.alias[c] == t.alias[c]
    requires 0 < x && HasMember(chans, x) ==> t' == t
    requires 0 < x && !HasMember(chans, x) ==> t'.alias[x] == 0
    ensures Pruned(t.alias, t'.alias, chans, x, x)
  {
    hide HasMember;
  }

  lemma {:induction false} OthersAgree(chans: seq<Chan>, alias: seq<int>, chans': seq<Chan>, alias': seq<int>,
      i: nat, x: int, z: int)
    requires |chans| == |chans'| && i < |chans| && Pruned(alias, alias', chans', x, z)
    requires forall y :: 0 <= y < |chans| ==> Agrees(alias, chans[y])
    requires forall y :: 0 <= y < |chans| && y != i ==> chans'[y] == chans[y]
    ensures forall y :: 0 <= y < |chans| && y != i ==> Agrees(alias', chans'[y])
  {
    hide InConf;
    forall y | 0 <= y < |chans| && y != i ensures Agrees(alias', chans'[y]) {
      if chans[y].Chan? && InConf(chans[y].confmode) {
        assert Member(chans', chans[y].confna, y);
      }
    }
  }

  /** Members other than the replaced channel are still members. */
  lemma {:induction false} StillMembers(chans: seq<Chan>, chans': seq<Chan>, i: nat, k: int)
    requires |chans| == |chans'| && i < |chans|
    requires forall y :: 0 <= y < |chans| && y != i ==> chans'[y] == chans[y]
    requires HasMember(chans, k) && (chans[i].Chan? ==> chans[i].confna != k)
    ensures HasMember(chans', k)
  {
    hide InConf;
    var y :| 0 <= y < |chans| && Member(chans, k, y);
    assert Member(chans', k, y);
  }

  ghost predicate AliasesHaveMembers(alias: seq<int>, chans: seq<Chan>) {
    forall k {:trigger alias[k]} :: 0 < k < |alias| && alias[k] != 0 ==> HasMember(chans, k)
  }

  lemma {:induction false} StillHaveMembers(chans: seq<Chan>, alias: seq<int>, chans': seq<Chan>, alias': seq<int>,
      i: nat, x: int, z: int)
    requires |chans| == |chans'| && i < |chans| && Pruned(alias, alias', chans', x, z)
    requires forall y :: 0 <= y < |chans| && y != i ==> chans'[y] == chans[y]
    requires AliasesHaveMembers(alias, chans) && (chans[i].Chan? ==> chans[i].confna == x)
    ensures AliasesHaveMembers(alias', chans')
  {
    hide InConf, Member, HasMember;
    forall k {:trigger alias'[k]} | 0 < k < |alias| && alias'[k] != 0 ensures HasMember(chans', k) {
      if k != x && k != z {
        assert alias[k] != 0;
        StillMembers(chans, chans', i, k);
      }
    }
  }

  ghost predicate Good(s: State) {
    Consistent(s) && AliasesHaveMembers(s.t.alias, s.chans)
  }

  /** Moving one channel to `c`, with no alias cached yet: all the others still agree, and no
      alias is without members. */
  lemma {:induction false} MovedKeeps(s: State, i: nat, c: int, confmode: int)
    requires Good(s) && HasChan(s.chans, i) && 0 <= c <= s.t.max
    ensures s.chans[i].confna <= s.t.max
    ensures var m := Moved(s, i, c, confmode);
      && (forall y :: 0 <= y < |s.chans| && y != i ==> Agrees(m.t.alias, m.chans[y]))
      && AliasesHaveMembers(m.t.alias, m.chans)
  {
    assert Agrees(s.t.alias, s.chans[i]) && |s.t.alias| == s.t.max + 1;
    var was := s.chans[i].confna;
    hide CheckConf, Sound, InConf, HasMember, Agrees, Pruned, AliasesHaveMembers;
    var m := Moved(s, i, c, confmode);
    TwoChecksPrune(s.t, m.chans, was, c);
    OthersAgree(s.chans, s.t.alias, m.chans, m.t.alias, i, was, c);
    StillHaveMembers(s.chans, s.t.alias, m.chans, m.t.alias, i, was, c);
  }

  function MemberOf(chans: seq<Chan>, x: int): (y: nat)
    requires HasMember(chans, x)
    ensures y < |chans| && Member(chans, x, y)
  {
    MemberFrom(chans, x, 0)
  }

  function MemberFrom(chans: seq<Chan>, x: int, y: nat): (z: nat)
    requires y <= |chans| && exists k :: y <= k < |chans| && Member(chans, x, k)
    ensures z < |chans| && Member(chans, x, z)
    decreases |chans| - y
  {
    if Member(chans, x, y) then y else MemberFrom(chans, x, y + 1)
  }

  /** Every alias in use belongs to another channel, and there are not enough of those: while
      channel `i` holds a conference without an alias, an alias is free. */
  lemma {:induction false} AliasIsFree(m: State, i: nat, c: nat)
    requires Shaped(m) && AliasesHaveMembers(m.t.alias, m.chans) && HasChan(m.chans, i)
    requires 0 < c <= m.t.max && m.chans[i].confna == c
    ensures AliasFor(m.t, c)
  {
    if !AliasFor(m.t, c) {
      var t := m.t;
      forall a | 0 < a < t.max ensures HasMember(m.chans, t.rev[a]) {
        assert t.alias[t.rev[a]] == a;
      }
      hide HasMember, InConf, MemberFrom, AliasesHaveMembers, MemberOf;
      var holders := seq(t.max, a requires 0 <= a < t.max => if a == 0 then 0 else MemberOf(m.chans, t.rev[a]));
      forall a, b | 0 < a < b < t.max ensures holders[a] != holders[b] {
        assert t.alias[t.rev[a]] == a && t.alias[t.rev[b]] == b;
      }
      OneToOneCounts(holders, t.max - 1, 0, Others(|m.chans| - 1, i));
    }
  }

  /** DAHDI_SETCONF: channel `i` goes to conference (or channel) `confno` in mode `confmode`. */
  function SetConf(s: State, i: int, confno: int, confmode: int): (r: (State, Reply))
    requires Good(s)
  {
    if Refused(s.t.max, s.chans, i, confno, confmode) then (s, Einval)
    else
      var c := Chosen(s, confno);
      if c < 1 && confmode != 0 then (s, Ebusy)
      else
        MovedKeeps(s, i, c, confmode);
        var m := Moved(s, i, c, confmode);
        if InConf(confmode) then
          AliasIsFree(m, i, c);
          (Joined(m, i, c), Done(c))
        else (m, Done(c))
  }

  /** Setting a conference keeps the tables inverse, every cached alias right, and no alias
      without members; it fails only by leaving everything alone. */
  lemma {:induction false} SetConfKeeps(s: State, i: int, confno: int, confmode: int)
    requires Good(s)
    ensures var (s', r) := SetConf(s, i, confno, confmode);
      Good(s') && s'.t.max == s.t.max && (!r.Done? ==> s' == s)
  {
    if SetConf(s, i, confno, confmode).1.Done? {
      var c := Chosen(s, confno);
      ChosenInRange(s, i, confno, confmode);
      var m := Moved(s, i, c, confmode);
      MovedKeeps(s, i, c, confmode);
      hide Good, Consistent, AliasesHaveMembers, Agrees, InConf, Sound, Moved, Joined, Chosen, Refused;
      if InConf(confmode) {
        AliasIsFree(m, i, c);
        JoinedKeeps(m, i, c);
      } else {
        MovedOut(m, i);
      }
    }
  }

  lemma {:induction false} ChosenInRange(s: State, i: int, confno: int, confmode: int)
    requires Good(s) && SetConf(s, i, confno, confmode).1.Done?
    ensures HasChan(s.chans, i) && 0 <= Chosen(s, confno) <= s.t.max
    ensures InConf(confmode) ==> 0 < Chosen(s, confno)
    ensures s.chans[i].confna <= s.t.max
  {
    hide AliasesHaveMembers, Moved, Joined, Sound;
    assert Agrees(s.t.alias, s.chans[i]);
    SoundSizes(s.t);
  }

  lemma {:induction false} SoundSizes(t: Tables)
    requires Sound(t)
    ensures |t.alias| == |t.rev| == t.max + 1 && t.max >= 2
  {
  }

  lemma {:induction false} MovedOut(m: State, i: nat)
    requires Shaped(m) && AliasesHaveMembers(m.t.alias, m.chans) && HasChan(m.chans, i)
    requires forall y :: 0 <= y < |m.chans| && y != i ==> Agrees(m.t.alias, m.chans[y])
    requires 0 <= m.chans[i].confna <= m.t.max && m.chans[i].confn == 0 && !InConf(m.chans[i].confmode)
    ensures Good(m)
  {
    SoundSizes(m.t);
    hide Sound, AliasesHaveMembers;
    assert Agrees(m.t.alias, m.chans[i]);
  }

  lemma {:induction false} JoinedKeeps(m: State, i: nat, c: nat)
    requires Shaped(m) && AliasesHaveMembers(m.t.alias, m.chans) && HasChan(m.chans, i)
    requires 0 < c <= m.t.max && AliasFor(m.t, c)
    requires forall y :: 0 <= y < |m.chans| && y != i ==> Agrees(m.t.alias, m.chans[y])
    requires m.chans[i].confna == c && InConf(m.chans[i].confmode)
    ensures Good(Joined(m, i, c)) && Joined(m, i, c).t.max == m.t.max
  {
    SoundSizes(m.t);
    GetAliasKeeps(m.t, c);
    SoundSizes(GetAlias(m.t, c).0);
    hide Sound, GetAlias;
    var s' := Joined(m, i, c);
    assert Member(s'.chans, c, i) && HasMember(s'.chans, c);
    JoinedAgrees(m, i, c);
    hide Sound, GetAlias, AliasesHaveMembers, Agrees, InConf, HasMember, Member;
    AliasesKept(m, s', i, c);
    SameMembers(m, s', i, c);
  }

  lemma {:induction false} SameMembers(m: State, s': State, i: nat, c: nat)
    requires |m.chans| == |s'.chans| && i < |m.chans| && |m.t.alias| == |s'.t.alias|
    requires forall y :: 0 <= y < |m.chans| && y != i ==> s'.chans[y] == m.chans[y]
    requires m.chans[i].Chan? && m.chans[i].confna == c && HasMember(s'.chans, c)
    requires AliasesHaveMembers(m.t.alias, m.chans)
    requires forall k :: 0 <= k < |m.t.alias| && k != c ==> s'.t.alias[k] == m.t.alias[k]
    ensures AliasesHaveMembers(s'.t.alias, s'.chans)
  {
    hide InConf, Member, HasMember;
    forall k {:trigger s'.t.alias[k]} | 0 < k < |s'.t.alias| && s'.t.alias[k] != 0 ensures HasMember(s'.chans, k) {
      if k != c {
        assert m.t.alias[k] != 0;
        StillMembers(m.chans, s'.chans, i, k);
      }
    }
  }

  /** What the steps of an accepted request may rely on. */
  lemma {:induction false} SetConfReady(s: State, i: int, confno: int, confmode: int)
    requires Good(s)
    ensures !Refused(s.t.max, s.chans, i, confno, confmode) ==> Ready(s, i, Chosen(s, confno), confmode)
  {
    if !Refused(s.t.max, s.chans, i, confno, confmode) {
      assert Agrees(s.t.alias, s.chans[i]);
      var c := Chosen(s, confno);
      if c >= 1 {
        MovedKeeps(s, i, c, confmode);
        AliasIsFree(Moved(s, i, c, confmode), i, c);
      }
    }
  }

  ghost predicate Ready(s: State, i: int, c: int, confmode: int)
    requires Shaped(s)
  {
    && HasChan(s.chans, i) && s.chans[i].confna <= s.t.max && c <= s.t.max
    && (InConf(confmode) ==> confmode != 0 && (c >= 1 ==> AliasFor(Moved(s, i, c, confmode).t, c)))
  }

  lemma {:induction false} JoinedAgrees(m: State, i: nat, c: nat)
    requires Shaped(m) && HasChan(m.chans, i) && 0 < c <= m.t.max && AliasFor(m.t, c)
    requires m.chans[i].confna == c && InConf(m.chans[i].confmode)
    ensures Agrees(Joined(m, i, c).t.alias, Joined(m, i, c).chans[i])
  {
    GetAliasKeeps(m.t, c);
  }

  lemma {:induction false} AliasesKept(m: State, s': State, i: nat, c: nat)
    requires |m.chans| == |s'.chans| && i < |m.chans| && |m.t.alias| == |s'.t.alias|
    requires forall y :: 0 <= y < |m.chans| && y != i ==> Agrees(m.t.alias, m.chans[y]) && s'.chans[y] == m.chans[y]
    requires m.t.alias == s'.t.alias || (c < |m.t.alias| && m.t.alias[c] == 0)
    requires forall k :: 0 <= k < |m.t.alias| && k != c ==> s'.t.alias[k] == m.t.alias[k]
    ensures forall y :: 0 <= y < |m.chans| && y != i ==> Agrees(s'.t.alias, s'.chans[y])
  {
    hide InConf;
  }

  /** A channel taken out of its conference. */
  lemma {:induction false} OutKeeps(s: State, i: nat, ch: Chan)
    requires Good(s) && HasChan(s.chans, i) && ch.Chan? && ch.confn == 0
    requires !InConf(ch.confmode) && (ch.confna == 0 || ch.confna == s.chans[i].confna)
    requires ch.confna != 0 ==> !InConf(s.chans[i].confmode)
    ensures s.chans[i].confna <= s.t.max
    ensures var chans, x := s.chans[i := ch], s.chans[i].confna;
      Good(State(if x != 0 then CheckConf(s.t, chans, x) else s.t, chans))
  {
    var chans, x := s.chans[i := ch], s.chans[i].confna;
    assert Agrees(s.t.alias, s.chans[i]) && |s.t.alias| == s.t.max + 1;
    hide CheckConf, Sound, InConf, HasMember, Agrees, Pruned, AliasesHaveMembers;
    var t := CheckConf(s.t, chans, x);
    TwoChecksPrune(s.t, chans, x, x);
    OthersAgree(s.chans, s.t.alias, chans, t.alias, i, x, x);
    StillHaveMembers(s.chans, s.t.alias, chans, t.alias, i, x, x);
    OutAgrees(s, i, ch, t);
  }

  lemma {:induction false} OutAgrees(s: State, i: nat, ch: Chan, t: Tables)
    requires Consistent(s) && HasChan(s.chans, i) && ch.Chan? && ch.confn == 0 && |t.alias| == |s.t.alias|
    requires !InConf(ch.confmode) && (ch.confna == 0 || ch.confna == s.chans[i].confna)
    ensures Agrees(t.alias, ch)
    ensures s.chans[i].confna == 0 ==> CheckConf(s.t, s.chans[i := ch], 0) == s.t
  {
    assert Agrees(s.t.alias, s.chans[i]);
  }

  /** Closing a channel keeps everything right exactly when it is not a cross-connected
      channel in a conference: such a one keeps its mode and loses its alias. */
  lemma {:induction false} ClosedKeeps(s: State, i: nat)
    requires Good(s) && HasChan(s.chans, i)
    ensures s.chans[i].confna <= s.t.max
    ensures Good(Closed(s, i)) <==> !(s.chans[i].dacs && InConf(s.chans[i].confmode))
  {
    assert Agrees(s.t.alias, s.chans[i]);
    var ch := s.chans[i];
    if ch.dacs && InConf(ch.confmode) {
      assert !Agrees(Closed(s, i).t.alias, Closed(s, i).chans[i]);
    } else {
      OutKeeps(s, i, if ch.dacs then ch.(confn := 0) else ch.(confna := 0, confmode := 0, confn := 0));
    }
  }

  /** Any cross-connected channel that is put into a conference and closed is left so. */
  lemma {:induction false} ClosingLosesAlias(s: State, i: nat, confno: nat)
    requires Good(s) && HasChan(s.chans, i) && s.chans[i].audio && s.chans[i].dacs && 0 < confno <= s.t.max
    ensures var s1 := SetConf(s, i, confno, MODE_CONF).0;
      && Good(s1) && HasChan(s1.chans, i) && s1.chans[i].confna <= s1.t.max
      && !Good(Closed(s1, i))
  {
    hide Good, Moved, GetAlias, Agrees, Sound, AliasesHaveMembers;
    SetConfKeeps(s, i, confno, MODE_CONF);
    ClosedKeeps(SetConf(s, i, confno, MODE_CONF).0, i);
  }

  lemma {:induction false} AudioOffKeeps(s: State, i: nat)
    requires Good(s) && HasChan(s.chans, i)
    ensures s.chans[i].confna <= s.t.max && Good(AudioOff(s, i))
  {
    OutKeeps(s, i, s.chans[i].(confna := 0, confmode := 0, confn := 0, audio := false));
  }

  lemma {:induction false} NoMember(s: State, c: nat)
    requires Consistent(s) && 0 < c <= s.t.max && s.t.alias[c] == 0
    ensures !HasMember(s.chans, c)
  {
    forall y | 0 <= y < |s.chans| ensures !Member(s.chans, c, y) {
      assert Agrees(s.t.alias, s.chans[y]);
    }
  }

  /** The conference picked for -1 has no members, and none is found exactly when every
      conference below the last has some. */
  lemma {:induction false} PickedIsEmpty(s: State)
    requires Good(s)
    ensures var c := Chosen(s, -1);
      && (c != -1 ==> 0 < c < s.t.max && !HasMember(s.chans, c))
      && (c == -1 <==> forall k :: 0 < k < s.t.max ==> HasMember(s.chans, k))
  {
    var c := Chosen(s, -1);
    if c == -1 {
      forall k | 0 < k < s.t.max ensures HasMember(s.chans, k) {
        assert s.t.alias[k] != 0;
      }
    } else {
      NoMember(s, c);
    }
  }

  /** What DAHDI_SETCONF asks of its arguments: an open channel in audio mode; another channel to
      watch, or a conference, -1 for any; and none together with mode 0, which leaves. */
  predicate Legal(s: State, i: int, confno: int, confmode: int) {
    && 0 < i < |s.chans| && s.chans[i].Chan? && s.chans[i].audio
    && (confno == 0 <==> confmode == 0)
    && if confmode % 256 == 1 || confmode % 256 == 2 || confmode % 256 == 3 ||
          confmode % 256 == 10 || confmode % 256 == 11 || confmode % 256 == 12
       then 0 <= confno < |s.chans| && s.chans[confno].Chan?
       else -1 <= confno <= s.t.max
  }

  /** Which requests are accepted. A busy reply means that every conference but the last has members. */
  lemma {:induction false} RefusedIff(s: State, i: int, confno: int, confmode: int)
    requires Good(s)
    ensures var r := SetConf(s, i, confno, confmode).1;
      && (r == Einval <==> !Legal(s, i, confno, confmode))
      && (r == Ebusy <==> Legal(s, i, confno, confmode) && confno == -1 &&
                          forall k :: 0 < k < s.t.max ==> HasMember(s.chans, k))
  {
    PickedIsEmpty(s);
    hide Good, AliasesHaveMembers, Consistent, Sound, HasMember, Moved, Joined;
  }

  /** What an accepted request does: the channel goes to the conference it asked for, or to an empty
      one, with that one's alias if the mode is one of 4 to 8 and no alias otherwise; the other
      channels are left alone. */
  lemma {:induction false} AcceptedIs(s: State, i: int, confno: int, confmode: int)
    requires Good(s) && SetConf(s, i, confno, confmode).1.Done?
    ensures var (s', r) := SetConf(s, i, confno, confmode);
      var c := r.confno;
      && HasChan(s.chans, i) && 0 <= c < |s'.t.alias| && s'.t.max == s.t.max
      && (if confno == -1 then 0 < c < s.t.max && !HasMember(s.chans, c) else c == confno)
      && s'.chans == s.chans[i := s.chans[i].(confna := c, confmode := confmode,
           confn := if 4 <= confmode % 256 <= 8 then s'.t.alias[c] else 0)]
  {
    hide Good, AliasesHaveMembers, Consistent, Shaped, Sound, HasMember, Moved, GetAlias, Joined, CheckConf, Refused;
    AliasSizes(s);
    PickedIsEmpty(s);
    ChosenInRange(s, i, confno, confmode);
    SetConfKeeps(s, i, confno, confmode);
    var c := Chosen(s, confno);
    assert c == if confno == -1 then Chosen(s, -1) else confno;
    hide Chosen;
    MovedKeeps(s, i, c, confmode);
    AliasSizes(SetConf(s, i, confno, confmode).0);
    if InConf(confmode) {
      var m := Moved(s, i, c, confmode);
      AliasIsFree(m, i, c);
      JoinedIs(m, i, c);
    }
  }

  lemma {:induction false} AliasSizes(s: State)
    requires Good(s)
    ensures Shaped(s) && |s.t.alias| == s.t.max + 1
  {
  }

  lemma {:induction false} JoinedIs(m: State, i: nat, c: nat)
    requires Shaped(m) && HasChan(m.chans, i) && 0 < c <= m.t.max && AliasFor(m.t, c)
    ensures c < |Joined(m, i, c).t.alias|
    ensures Joined(m, i, c).chans == m.chans[i := m.chans[i].(confn := Joined(m, i, c).t.alias[c])]
  {
    GetAliasKeeps(m.t, c);
    SoundSizes(GetAlias(m.t, c).0);
    hide Sound, GetAlias;
  }

  /** Closing takes a channel out of its conference, unless it is cross-connected; leaving audio mode
      always does. The other channels are left alone. */
  lemma {:induction false} LeavingIs(s: State, i: nat)
    requires Good(s) && HasChan(s.chans, i)
    ensures s.chans[i].confna <= s.t.max
    ensures var c, d, e := s.chans[i], Closed(s, i).chans, AudioOff(s, i).chans;
      && |d| == |e| == |s.chans| && (forall y :: 0 <= y < |d| && y != i ==> d[y] == e[y] == s.chans[y])
      && d[i] == Chan(if c.dacs then c.confna else 0, if c.dacs then c.confmode else 0, 0, c.audio, c.dacs)
      && e[i] == Chan(0, 0, 0, false, c.dacs)
  {
    assert Agrees(s.t.alias, s.chans[i]);
    hide Sound, CheckConf, InConf;
  }

  // ---------- runs ----------

  datatype Action = Set(i: int, confno: int, confmode: int) | Close(i: int) | Audio(i: int)

  /** What a caller can check before a request: no cross-connected channel is closed while in a conference. */
  ghost predicate Allowed(s: State, a: Action)
    requires Good(s)
  {
    match a
    case Set(_, _, _) => true
    case Close(i) => HasChan(s.chans, i) && !(s.chans[i].dacs && InConf(s.chans[i].confmode))
    case Audio(i) => HasChan(s.chans, i)
  }

  ghost function Act(s: State, a: Action): (r: State)
    requires Good(s) && Allowed(s, a)
    ensures Good(r)
  {
    match a
    case Set(i, confno, confmode) =>
      SetConfKeeps(s, i, confno, confmode);
      SetConf(s, i, confno, confmode).0
    case Close(i) =>
      ClosedKeeps(s, i);
      Closed(s, i)
    case Audio(i) =>
      AudioOffKeeps(s, i);
      AudioOff(s, i)
  }

  ghost predicate AllAllowed(s: State, actions: seq<Action>)
    requires Good(s)
    decreases |actions|
  {
    actions == [] || (Allowed(s, actions[0]) && AllAllowed(Act(s, actions[0]), actions[1..]))
  }

  ghost function Run(s: State, actions: seq<Action>): State
    requires Good(s) && AllAllowed(s, actions)
    decreases |actions|
  {
    if actions == [] then s else Run(Act(s, actions[0]), actions[1..])
  }

  /** After any allowed run two channels in a conference share an alias exactly when they
      are in the same conference, and the mixer's bound covers every alias in use. */
  lemma {:induction false} RunSharesAliases(s: State, actions: seq<Action>, y: nat, z: nat)
    requires Good(s) && AllAllowed(s, actions)
    requires var r := Run(s, actions);
      && y < |r.chans| && z < |r.chans| && r.chans[y].Chan? && r.chans[z].Chan?
      && InConf(r.chans[y].confmode) && InConf(r.chans[z].confmode)
    ensures var r := Run(s, actions);
      && (r.chans[y].confn == r.chans[z].confn <==> r.chans[y].confna == r.chans[z].confna)
      && 0 < r.chans[y].confn < r.t.maxconfs
    decreases |actions|
  {
    if actions == [] {
      assert Agrees(s.t.alias, s.chans[y]) && Agrees(s.t.alias, s.chans[z]);
      hide InConf, HighestFrom;
      HighestBounds(s.t.rev, s.t.max - 1, s.chans[y].confn);
    } else {
      RunSharesAliases(Act(s, actions[0]), actions[1..], y, z);
    }
  }

  lemma {:induction false} HighestBounds(rev: seq<int>, x: nat, a: int)
    requires x < |rev| && 0 < a <= x && rev[a] != 0
    ensures a < HighestFrom(rev, x)
  {
  }

  // ---------- the requests ----------

  class Conferences {
    const max: nat
    const confalias: array<int>
    const confrev: array<int>
    var maxconfs: int
    const chans: array<Chan>

    ghost function Table(): Tables
      reads this, confalias, confrev
    {
      Tables(max, confalias[..], confrev[..], maxconfs)
    }

    ghost function Value(): State
      reads this, confalias, confrev, chans
    {
      State(Table(), chans[..])
    }

    ghost predicate Valid()
      reads this, confalias, confrev, chans
    {
      confalias != confrev && Good(Value())
    }

    /** All conferences empty, and every channel out of them. */
    constructor (max: nat, present: seq<Chan>)
      requires max >= 2 && |present| <= max && (|present| > 0 ==> present[0].Absent?)
      requires forall y :: 0 <= y < |present| && present[y].Chan? ==>
        present[y].confna == 0 && present[y].confn == 0 && !InConf(present[y].confmode)
      ensures Valid() && fresh(confalias) && fresh(confrev) && fresh(chans)
      ensures this.max == max && chans[..] == present && forall k :: 0 <= k <= max ==> confalias[k] == 0
    {
      this.max := max;
      confalias := new int[max + 1](i => 0);
      confrev := new int[max + 1](i => 0);
      maxconfs := 0;
      chans := new Chan[|present|](i requires 0 <= i < |present| => present[i]);
      new;
      assert chans[..] == present;
      hide HighestFrom;
      NoneInUse(confrev[..], max - 1);
    }

    /** dahdi_first_empty_alias. */
    method FirstEmptyAlias() returns (a: int)
      requires max >= 1 && confrev.Length == max + 1
      ensures a == EmptyAliasFrom(confrev[..], max, 1)
    {
      for x := 1 to max
        invariant EmptyAliasFrom(confrev[..], max, 1) == EmptyAliasFrom(confrev[..], max, x)
      {
        if confrev[x] == 0 {
          return x;
        }
      }
      a := -1;
    }

    /** recalc_maxconfs. */
    method RecalcMaxconfs()
      requires max >= 1 && confrev.Length == max + 1
      modifies `maxconfs
      ensures maxconfs == HighestFrom(confrev[..], max - 1)
    {
      var x := max - 1;
      while x > 0
        invariant 0 <= x <= max - 1
        invariant HighestFrom(confrev[..], max - 1) == HighestFrom(confrev[..], x)
      {
        if confrev[x] != 0 {
          maxconfs := x + 1;
          return;
        }
        x := x - 1;
      }
      maxconfs := 0;
    }

    /** dahdi_first_empty_conference. */
    method FirstEmptyConference() returns (c: int)
      requires max >= 1 && confalias.Length == max + 1
      ensures c == EmptyConfFrom(confalias[..], max - 1)
    {
      var x := max - 1;
      while x > 0
        invariant 0 <= x <= max - 1
        invariant EmptyConfFrom(confalias[..], max - 1) == EmptyConfFrom(confalias[..], x)
      {
        if confalias[x] == 0 {
          return x;
        }
        x := x - 1;
      }
      c := -1;
    }

    /** dahdi_get_conf_alias. */
    method GetConfAlias(x: nat) returns (a: int)
      requires Sound(Table()) && confalias != confrev && 0 < x <= max && AliasFor(Table(), x)
      modifies `maxconfs, confalias, confrev
      ensures (Table(), a) == GetAlias(old(Table()), x)
    {
      if confalias[x] != 0 {
        return confalias[x];
      }
      a := FirstEmptyAlias();
      confalias[x] := a;
      confrev[a] := x;
      assert confalias[..] == old(confalias[..])[x := a] && confrev[..] == old(confrev[..])[a := x];
      RecalcMaxconfs();
    }

    /** dahdi_check_conf. */
    method CheckConference(x: int)
      requires Sound(Table()) && confalias != confrev && x <= max
      modifies `maxconfs, confalias, confrev
      ensures Table() == CheckConf(old(Table()), chans[..], x)
    {
      if x <= 0 {
        return;
      }
      if confalias[x] == 0 {
        return;
      }
      for y := 0 to chans.Length
        invariant forall k :: 0 <= k < y ==> !Member(chans[..], x, k)
      {
        var ch := chans[y];
        if ch.Chan? && ch.confna == x && InConf(ch.confmode) {
          assert Member(chans[..], x, y);
          return;
        }
      }
      ghost var a := confalias[x];
      confrev[confalias[x]] := 0;
      confalias[x] := 0;
      assert confalias[..] == old(confalias[..])[x := 0] && confrev[..] == old(confrev[..])[a := 0];
      RecalcMaxconfs();
    }

    /** The channel goes to its new conference; both are checked. */
    method MoveTo(i: nat, confno: int, confmode: int)
      requires Shaped(Value()) && confalias != confrev
      requires HasChan(chans[..], i) && confno <= max && chans[i].confna <= max
      modifies `maxconfs, confalias, confrev, chans
      ensures Value() == Moved(old(Value()), i, confno, confmode)
    {
      hide CheckConf, InConf, HighestFrom, Sound;
      var j := chans[i].confna;
      chans[i] := chans[i].(confna := confno, confmode := confmode, confn := 0);
      assert chans[..] == old(chans[..])[i := chans[i]];
      CheckConfKeeps(Table(), chans[..], j);
      CheckConference(j);
      CheckConference(confno);
    }

    /** The alias is looked up and cached. */
    method Join(i: nat, confno: nat)
      requires Shaped(Value()) && confalias != confrev
      requires HasChan(chans[..], i) && 0 < confno <= max && AliasFor(Table(), confno)
      modifies `maxconfs, confalias, confrev, chans
      ensures Value() == Joined(old(Value()), i, confno)
    {
      hide GetAlias, InConf, HighestFrom, Sound;
      var a := GetConfAlias(confno);
      chans[i] := chans[i].(confn := a);
      assert chans[..] == old(chans[..])[i := chans[i]];
    }

    /** The accepted part of DAHDI_SETCONF. */
    method Enter(i: nat, confno: int, confmode: int)
      requires Shaped(Value()) && confalias != confrev
      requires Ready(Value(), i, confno, confmode) && (InConf(confmode) ==> confno >= 1)
      modifies `maxconfs, confalias, confrev, chans
      ensures (Value() ==
        var m := Moved(old(Value()), i, confno, confmode);
        if InConf(confmode) then Joined(m, i, confno) else m)
    {
      hide Moved, Joined, InConf, Sound;
      MoveTo(i, confno, confmode);
      if confno != 0 && InConf(confmode) {
        Join(i, confno);
      }
    }

    /** DAHDI_SETCONF. */
    method SetConference(i: int, confno0: int, confmode: int) returns (r: Reply)
      requires Valid()
      modifies `maxconfs, confalias, confrev, chans
      ensures Valid() && (Value(), r) == SetConf(old(Value()), i, confno0, confmode)
    {
      ghost var s := Value();
      assert confalias.Length == max + 1 && max >= 2 && Shaped(s);
      hide Moved, Joined, EmptyConfFrom, InConf, Good, Shaped, Sound, Refused, Ready, Consistent, AliasesHaveMembers,
        HasMember, Monitors, Agrees, CheckConf, AliasFor, HasChan, HighestFrom;
      SetConfKeeps(s, i, confno0, confmode);
      SetConfReady(s, i, confno0, confmode);
      if Refused(max, chans[..], i, confno0, confmode) {
        return Einval;
      }
      var confno := confno0;
      if confno == -1 {
        confno := FirstEmptyConference();
      }
      assert confno == Chosen(s, confno0);
      hide Chosen;
      if confno < 1 && confmode != 0 {
        return Ebusy;
      }
      Enter(i, confno, confmode);
      r := Done(confno);
    }

    /** The conference part of close_channel. */
    method CloseChannel(i: nat)
      requires Valid() && HasChan(chans[..], i)
      modifies `maxconfs, confalias, confrev, chans
      ensures old(chans[i]).confna <= max && Value() == Closed(old(Value()), i)
      ensures Valid() <==> !(old(chans[i]).dacs && InConf(old(chans[i]).confmode))
    {
      ClosedKeeps(Value(), i);
      assert Sound(Table()) && chans.Length <= max;
      hide CheckConf, InConf, Good, Sound, Agrees, Consistent, AliasesHaveMembers, HasMember, HighestFrom;
      var oldconf := chans[i].confna;
      chans[i] := chans[i].(confn := 0);
      if !chans[i].dacs {
        chans[i] := chans[i].(confna := 0, confmode := 0);
      }
      assert chans[..] == old(chans[..])[i := chans[i]];
      if oldconf != 0 {
        CheckConference(oldconf);
      }
    }

    /** The conference part of DAHDI_AUDIOMODE off. */
    method AudioModeOff(i: nat)
      requires Valid() && HasChan(chans[..], i)
      modifies `maxconfs, confalias, confrev, chans
      ensures Valid() && old(chans[i]).confna <= max && Value() == AudioOff(old(Value()), i)
    {
      AudioOffKeeps(Value(), i);
      assert Sound(Table()) && chans.Length <= max;
      hide CheckConf, InConf, Good, Sound, Agrees;
      var oldconf := chans[i].confna;
      chans[i] := chans[i].(confna := 0, confmode := 0, confn := 0, audio := false);
      assert chans[..] == old(chans[..])[i := chans[i]];
      if oldconf != 0 {
        CheckConference(oldconf);
      }
    }
  }

  lemma {:induction false} NoneInUse(rev: seq<int>, x: nat)
    requires x < |rev| && forall k :: 0 <= k < |rev| ==> rev[k] == 0
    ensures HighestFrom(rev, x) == 0
  {
    if x > 0 {
      NoneInUse(rev, x - 1);
    }
  }
}
