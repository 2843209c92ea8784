/** What the actions of menuselect achieve: switching a member on switches on what it needs,
    and switching one off switches it off. */
module Enabling {
  import opened Menuselect

  /** Nothing rules the members of `c` out for good: they need only each other inside the menu, their
      outside dependencies are met, and they conflict with nothing outside the menu that is there
      and not with each other. The members that one member needs, through any chain, are the
      smallest such `c` around it. */
  ghost predicate Compatible(info: Info, c: set<nat>) {
    |info.conflicts| == |info.deps| &&
    forall i :: i in c ==>
      && i < |info.deps|
      && External(false) !in info.deps[i] && External(true) !in info.conflicts[i]
      && (forall j :: Internal(j) in info.deps[i] ==> j in c)
      && (forall j :: Internal(j) in info.conflicts[i] ==> j !in c)
  }

  /** At the moment: no member that is on conflicts with one of `c`, and those of `c` that are on are
      without dependency failures. */
  ghost predicate Unhindered(info: Info, m: Menu, c: set<nat>)
    requires |info.conflicts| == |m.enabled| == |m.deps|
  {
    && (forall i, j: nat :: i in c && i < |m.enabled| && j < |m.enabled| && Internal(j) in info.conflicts[i] ==>
          !m.enabled[j])
    && (forall i :: i in c && i < |m.enabled| && m.enabled[i] ==> m.deps[i] == NoFailure)
  }

  /** Members that stay as they are when those of `c` come on. */
  ghost predicate Aside(info: Info, m: Menu, s: set<nat>, c: set<nat>)
    requires Ok(info, m)
  {
    Supported(info, m, s) && forall i, j :: i in s && Internal(j) in info.conflicts[i] ==> j !in c
  }

  /** What every step of the way keeps. */
  ghost predicate Good(info: Info, m: Menu, depth: seq<nat>, c: set<nat>, s: set<nat>) {
    && Ready(info, m, depth) && Settled(info, m)
    && Compatible(info, c) && Unhindered(info, m, c) && Aside(info, m, s, c)
  }

  /** Members of `c` that are on stay on. */
  ghost predicate Kept(m: Menu, m': Menu, c: set<nat>) {
    |m'.enabled| == |m.enabled| && forall i :: i in c && i < |m.enabled| && m.enabled[i] ==> m'.enabled[i]
  }

  lemma {:induction false} NeverHard(info: Info, c: set<nat>, i: nat, k: nat)
    requires LinksOk(info.deps) && Compatible(info, c) && i in c
    ensures !HardWithin(info, i, k)
    decreases k
  {
    if HardWithin(info, i, k) {
      var l :| 0 <= l < |info.deps[i]| && info.deps[i][l].Internal? && info.deps[i][l].member != i &&
        HardWithin(info, info.deps[i][l].member, k - 1);
      assert info.deps[i][l] in info.deps[i];
      NeverHard(info, c, info.deps[i][l].member, k - 1);
    }
  }

  /** In a settled menu no member of `c` is ruled out. */
  lemma {:induction false} NotRuledOut(info: Info, m: Menu, depth: seq<nat>, c: set<nat>, s: set<nat>, i: nat)
    requires Good(info, m, depth, c, s) && i in c
    ensures i < |m.deps| && m.deps[i] != HardFailure && m.conflicts[i] == NoFailure && !Clash(info, m, i)
  {
    if m.deps[i] == HardFailure {
      var k: nat :| HardWithin(info, i, k);
      NeverHard(info, c, i, k);
    }
    assert !Outside(info.conflicts[i], true);
    forall k | 0 <= k < |info.conflicts[i]| ensures !Clashes(m, info.conflicts[i][k]) {
      assert info.conflicts[i][k] in info.conflicts[i];
    }
  }

  /** A member of `c` whose dependencies in the menu are all on has no dependency failure. */
  lemma {:induction false} NeedsAreMet(info: Info, m: Menu, depth: seq<nat>, c: set<nat>, s: set<nat>, i: nat)
    requires Good(info, m, depth, c, s) && i in c
    requires forall j: nat :: j < |m.enabled| && Internal(j) in info.deps[i] ==> m.enabled[j]
    ensures m.deps[i] == NoFailure
  {
    NotRuledOut(info, m, depth, c, s, i);
    forall k | 0 <= k < |info.deps[i]| ensures !Broken(info, m, i, info.deps[i][k]) {
      assert info.deps[i][k] in info.deps[i];
    }
    HardBadIsBad(info, m, i);
  }

  /** The members of `c` that are on, those of `s`, and one more of `c` whose dependencies are on. */
  ghost function Present(m: Menu, c: set<nat>, s: set<nat>, i: nat): set<nat> {
    s + (set x | x in c && x < |m.enabled| && m.enabled[x]) + {i}
  }

  lemma {:induction false} ClashIsWith(info: Info, m: Menu, x: nat) returns (j: nat)
    requires Ok(info, m) && x < |m.conflicts| && Clash(info, m, x)
    ensures j < |m.enabled| && m.enabled[j] && Internal(j) in info.conflicts[x]
  {
    var k :| 0 <= k < |info.conflicts[x]| && Clashes(m, info.conflicts[x][k]);
    j := info.conflicts[x][k].member;
    assert info.conflicts[x][k] in info.conflicts[x];
  }

  lemma {:induction false} PresentIsSupported(info: Info, m: Menu, depth: seq<nat>, c: set<nat>, s: set<nat>, i: nat)
    requires Good(info, m, depth, c, s) && i in c
    requires forall j: nat :: j < |m.enabled| && Internal(j) in info.deps[i] ==> m.enabled[j]
    ensures Ok(info, Switched(m, i, true))
    ensures Supported(info, Switched(m, i, true), Present(m, c, s, i))
  {
    var m1, t := Switched(m, i, true), Present(m, c, s, i);
    forall x | x in t
      ensures && x < |m1.deps| && m1.enabled[x] && m1.deps[x] == NoFailure && !Outside(info.deps[x], false)
              && m1.conflicts[x] == m.conflicts[x]
    {
      if x in c {
        NotRuledOut(info, m, depth, c, s, x);
        if x == i {
          NeedsAreMet(info, m, depth, c, s, i);
        }
      }
    }
    forall x | x in t ensures m1.conflicts[x] == NoFailure ==> !Clash(info, m1, x) {
      if Clash(info, m1, x) {
        var j := ClashIsWith(info, m1, x);
        if j != i && x in s {
          ClashesWith(info, m, x, j);
        }
      }
    }
    forall x, k | x in t && 0 <= k < |info.deps[x]| && info.deps[x][k].Internal?
      ensures info.deps[x][k].member in t
    {
      var j := info.deps[x][k].member;
      assert info.deps[x][k] in info.deps[x];
      if x != i && x !in s {
        CleanMeansAvailable(info, m, x);
      }
    }
  }

  lemma {:induction false} StillUnhindered(info: Info, m: Menu, m': Menu, c: set<nat>, s: set<nat>, i: nat)
    requires Ok(info, m) && Compatible(info, c) && Unhindered(info, m, c) && Aside(info, m, s, c)
    requires i in c && i < |m.enabled| && Ok(info, m')
    requires Supported(info, m', Present(m, c, s, i)) && OnlyOff(Switched(m, i, true), m')
    ensures Unhindered(info, m', c) && Aside(info, m', s, c) && Kept(m, m', c) && m'.enabled[i]
  {
    assert forall x :: x in c && x < |m.enabled| && m'.enabled[x] ==> x in Present(m, c, s, i);
  }

  /** Switching on a member of `c` whose dependencies are on, and settling. */
  lemma {:induction false} SwitchOn(info: Info, m: Menu, depth: seq<nat>, c: set<nat>, s: set<nat>, i: nat)
    requires Good(info, m, depth, c, s) && i in c
    requires forall j: nat :: j < |m.enabled| && Internal(j) in info.deps[i] ==> m.enabled[j]
    ensures Ready(info, Switched(m, i, true), depth)
    ensures var m' := Settle(info, Switched(m, i, true)).0;
      Good(info, m', depth, c, s) && Kept(m, m', c) && m'.enabled[i]
  {
    var m1, t := Switched(m, i, true), Present(m, c, s, i);
    PresentIsSupported(info, m, depth, c, s, i);
    SettleKeepsSupported(info, m1, t);
    SettleSettles(info, m1);
    SettleIsLinear(info, m1);
    StillUnhindered(info, m, Settle(info, m1).0, c, s, i);
  }

  lemma {:induction false} GoodIsReady(info: Info, m: Menu, depth: seq<nat>, c: set<nat>, s: set<nat>)
    requires Good(info, m, depth, c, s)
    ensures Ready(info, m, depth) && Settled(info, m)
    ensures forall i :: i in c ==> i < |m.enabled| && forall j :: Internal(j) in info.deps[i] ==> j in c
  {
  }

  lemma {:induction false} KeptTwice(a: Menu, b: Menu, d: Menu, c: set<nat>)
    requires Kept(a, b, c) && Kept(b, d, c)
    ensures Kept(a, d, c)
  {
  }

  /** The dependencies of `i` from the `k`-th on are all had, when those before are on. */
  lemma {:induction false} EnableDepsWorks(info: Info, m: Menu, i: nat, k: nat, depth: seq<nat>, c: set<nat>,
      s: set<nat>)
    requires Good(info, m, depth, c, s) && i in c && i < |info.deps| == |m.enabled| && k <= |info.deps[i]|
    requires Ready(info, m, depth)
    requires forall x :: 0 <= x < k && info.deps[i][x].Internal? ==> info.deps[i][x].member in c
    requires forall x :: 0 <= x < k && info.deps[i][x].Internal? ==>
      info.deps[i][x].member < |m.enabled| && m.enabled[info.deps[i][x].member]
    ensures var (m', can) := EnableDeps(info, m, i, k, depth);
      && can && Good(info, m', depth, c, s) && Kept(m, m', c)
      && forall x :: 0 <= x < |info.deps[i]| && info.deps[i][x].Internal? ==>
           info.deps[i][x].member < |m'.enabled| && m'.enabled[info.deps[i][x].member]
    decreases depth[i], 0, |info.deps[i]| - k
  {
    hide Good, Settle, HardIsDue, NoResets;
    GoodIsReady(info, m, depth, c, s);
    if k < |info.deps[i]| {
      var link := info.deps[i][k];
      assert link in info.deps[i];
      if link.External? || m.enabled[link.member] {
        EnableDepsWorks(info, m, i, k + 1, depth, c, s);
      } else {
        NotRuledOut(info, m, depth, c, s, link.member);
        EnableMemberWorks(info, m, link.member, depth, c, s);
        var m' := EnableMember(info, m, link.member, depth).0;
        EnableDepsWorks(info, m', i, k + 1, depth, c, s);
        KeptTwice(m, m', EnableDeps(info, m, i, k, depth).0, c);
      }
    }
  }

  /** enable_member on a member of `c` switches it on, and everything it needs. */
  lemma {:induction false} EnableMemberWorks(info: Info, m: Menu, i: nat, depth: seq<nat>, c: set<nat>, s: set<nat>)
    requires Good(info, m, depth, c, s) && i in c && i < |m.enabled|
    requires Ready(info, m, depth)
    ensures var (m', can) := EnableMember(info, m, i, depth);
      can && Good(info, m', depth, c, s) && Kept(m, m', c) && m'.enabled[i]
    decreases depth[i], 1
  {
    hide Good, Settle, HardIsDue, NoResets, EnableDeps;
    EnableDepsWorks(info, m, i, 0, depth, c, s);
    var m' := EnableDeps(info, m, i, 0, depth).0;
    forall j: nat | j < |m'.enabled| && Internal(j) in info.deps[i] ensures m'.enabled[j] {
      var x :| 0 <= x < |info.deps[i]| && info.deps[i][x] == Internal(j);
    }
    SwitchOn(info, m', depth, c, s, i);
    KeptTwice(m, m', EnableMember(info, m, i, depth).0, c);
  }

  // ---------- what switching on achieves ----------

  /** In such a menu everything a member of `c` that is on needs is built. */
  lemma {:induction false} OnIsBuilt(info: Info, m: Menu, depth: seq<nat>, c: set<nat>, s: set<nat>, path: seq<nat>)
    requires Good(info, m, depth, c, s) && DependencyPath(info, path)
    requires path[0] in c && path[0] < |m.enabled| && m.enabled[path[0]]
    ensures path[|path| - 1] in c && Built(m, path[|path| - 1])
    decreases |path|
  {
    var n := |path|;
    if n > 1 {
      OnIsBuilt(info, m, depth, c, s, path[..n - 1]);
      CleanMeansAvailable(info, m, path[n - 2]);
    }
    NotRuledOut(info, m, depth, c, s, path[n - 1]);
  }

  lemma {:induction false} StaysBlocked(info: Info, m: Menu, m': Menu, depth: seq<nat>, x: nat)
    requires Ready(info, m, depth) && Ready(info, m', depth) && Settled(info, m')
    requires x < |m.deps| && (m.deps[x] == HardFailure || m.conflicts[x] == HardFailure)
    ensures m'.deps[x] == HardFailure || m'.conflicts[x] == HardFailure
  {
    if m.deps[x] == HardFailure {
      var k: nat :| HardWithin(info, x, k);
      SettledHardSpreads(info, m', x, k);
    }
  }

  lemma {:induction false} SetRangeTurn(info: Info, m: Menu, lo: nat, hi: nat, depth: seq<nat>)
    requires Ready(info, m, depth) && lo <= hi <= |m.enabled|
    ensures lo == hi ==> SetRange(info, m, lo, hi, true, depth) == m
    ensures lo < hi ==>
      SetRange(info, m, lo, hi, true, depth) ==
        if m.enabled[lo] || HardBlocked(m, lo) then SetRange(info, m, lo + 1, hi, true, depth)
        else SetRange(info, EnableMember(info, m, lo, depth).0, lo + 1, hi, true, depth)
  {
    hide EnableMember, HardIsDue, NoResets;
  }

  /** The loop of set_all over members of `c`, members that stay as they are, and ruled-out ones. */
  lemma {:induction false} SetRangeWorks(info: Info, m: Menu, lo: nat, hi: nat, depth: seq<nat>, c: set<nat>,
      s: set<nat>)
    requires Good(info, m, depth, c, s) && lo <= hi <= |m.enabled|
    requires Ready(info, m, depth)
    requires forall x :: lo <= x < hi ==>
      x in c || x in s || m.deps[x] == HardFailure || m.conflicts[x] == HardFailure
    ensures var m' := SetRange(info, m, lo, hi, true, depth);
      && Good(info, m', depth, c, s) && Kept(m, m', c)
      && forall x :: lo <= x < hi && x in c ==> m'.enabled[x]
    decreases hi - lo
  {
    hide Good, HardIsDue, NoResets, LinksOk, Acyclic, EnableMember, Kept, SetRange;
    SetRangeTurn(info, m, lo, hi, depth);
    OneOn(m, m, c, 0);
    if lo < hi {
      if lo in c {
        NotRuledOut(info, m, depth, c, s, lo);
      }
      AsideIsOn(info, m, depth, c, s);
      if m.enabled[lo] || HardBlocked(m, lo) {
        SetRangeWorks(info, m, lo + 1, hi, depth, c, s);
        OneOn(m, SetRange(info, m, lo, hi, true, depth), c, lo);
      } else {
        EnableMemberWorks(info, m, lo, depth, c, s);
        var m' := EnableMember(info, m, lo, depth).0;
        GoodIsReady(info, m', depth, c, s);
        AllStayBlocked(info, m, m', depth, lo + 1, hi, c, s);
        SetRangeWorks(info, m', lo + 1, hi, depth, c, s);
        OneOn(m', SetRange(info, m, lo, hi, true, depth), c, lo);
        KeptTwice(m, m', SetRange(info, m, lo, hi, true, depth), c);
      }
    }
  }

  lemma {:induction false} OneOn(m: Menu, m': Menu, c: set<nat>, i: nat)
    ensures Kept(m, m', c) && i in c && i < |m.enabled| && m.enabled[i] ==> i < |m'.enabled| && m'.enabled[i]
    ensures Kept(m, m, c)
  {
  }

  lemma {:induction false} AsideIsOn(info: Info, m: Menu, depth: seq<nat>, c: set<nat>, s: set<nat>)
    requires Good(info, m, depth, c, s)
    ensures forall x :: x in s ==> x < |m.enabled| && m.enabled[x]
  {
  }

  lemma {:induction false} AllStayBlocked(info: Info, m: Menu, m': Menu, depth: seq<nat>, lo: nat, hi: nat,
      c: set<nat>, s: set<nat>)
    requires Ready(info, m, depth) && Ready(info, m', depth) && Settled(info, m') && lo <= hi <= |m.enabled|
    requires forall x :: lo <= x < hi ==>
      x in c || x in s || m.deps[x] == HardFailure || m.conflicts[x] == HardFailure
    ensures forall x :: lo <= x < hi ==>
      x in c || x in s || m'.deps[x] == HardFailure || m'.conflicts[x] == HardFailure
  {
    hide NoResets, HardIsDue, Settled;
    forall x | lo <= x < hi && (m.deps[x] == HardFailure || m.conflicts[x] == HardFailure)
      ensures m'.deps[x] == HardFailure || m'.conflicts[x] == HardFailure
    {
      StaysBlocked(info, m, m', depth, x);
    }
  }

  /** Toggle, set or set-all switches `i` on, if it is not on already. */
  ghost predicate Enables(info: Info, m: Menu, a: Action, i: nat, c: set<nat>, s: set<nat>)
    requires Ok(info, m)
  {
    match a
    case DoToggle(x) => x == i < |m.enabled| && !m.enabled[i]
    case DoSet(x) => x == i < |m.enabled|
    case DoAll(lo, hi, val) =>
      && val && lo <= i < hi <= |m.enabled|
      && (forall x :: lo <= x < hi ==>
           x in c || x in s || m.deps[x] == HardFailure || m.conflicts[x] == HardFailure)
    case DoClear(_) => false
  }

  lemma {:induction false} DoEnables(info: Info, m: Menu, a: Action, i: nat, depth: seq<nat>, c: set<nat>, s: set<nat>)
    requires Good(info, m, depth, c, s) && i in c && Enables(info, m, a, i, c, s)
    ensures Applies(info, a)
    ensures var m' := Do(info, m, a, depth); Good(info, m', depth, c, s) && m'.enabled[i]
  {
    NotRuledOut(info, m, depth, c, s, i);
    assert !HardBlocked(m, i);
    if a.DoAll? {
      SetRangeWorks(info, m, a.lo, a.hi, depth, c, s);
      SettledIsStable(info, SetRange(info, m, a.lo, a.hi, true, depth));
    } else if !m.enabled[i] {
      EnableMemberWorks(info, m, i, depth, c, s);
      SettledIsStable(info, EnableMember(info, m, i, depth).0);
    }
  }

  /** In a settled menu, switching on a member that nothing rules out or hinders, alone or with
      others of the same kind, builds it together with everything it needs, through any chain of
      dependencies, and switches off no member that supports itself and conflicts with none of them. */
  lemma {:induction false} SwitchesOn(info: Info, m: Menu, a: Action, i: nat, depth: seq<nat>, c: set<nat>, s: set<nat>)
    requires Ready(info, m, depth) && Settled(info, m)
    requires Compatible(info, c) && Unhindered(info, m, c) && Aside(info, m, s, c)
    requires i in c && Enables(info, m, a, i, c, s)
    ensures Applies(info, a)
    ensures var m' := Do(info, m, a, depth);
      && (forall path :: DependencyPath(info, path) && path[0] == i ==> Built(m', path[|path| - 1]))
      && (forall x :: x in s ==> x < |m'.enabled| && m'.enabled[x] && m'.deps[x] == NoFailure)
  {
    DoEnables(info, m, a, i, depth, c, s);
    var m' := Do(info, m, a, depth);
    hide Do;
    assert Aside(info, m', s, c);
    forall path | DependencyPath(info, path) && path[0] == i ensures Built(m', path[|path| - 1]) {
      OnIsBuilt(info, m', depth, c, s, path);
    }
  }

  // ---------- a dependency that is on but not built ----------

  lemma {:induction false} PathDepth(info: Info, depth: seq<nat>, path: seq<nat>)
    requires Acyclic(info, depth) && DependencyPath(info, path) && |path| > 1
    ensures depth[path[|path| - 1]] < depth[path[0]]
    decreases |path|
  {
    var n := |path|;
    var links, link := info.deps[path[n - 2]], Internal(path[n - 1]);
    assert link in links;
    var k :| 0 <= k < |links| && links[k] == link;
    if n > 2 {
      PathDepth(info, depth, path[..n - 1]);
    }
  }

  /** When all of `c` but `i` are on, they are clean. */
  lemma {:induction false} AllOnIsClean(info: Info, m: Menu, depth: seq<nat>, c: set<nat>, i: nat, x: nat)
    requires Ready(info, m, depth) && Settled(info, m) && Compatible(info, c)
    requires forall y :: y in c && y != i ==> m.enabled[y]
    requires x in c && i < |depth| && depth[x] < depth[i]
    ensures m.deps[x] == NoFailure
    decreases depth[x]
  {
    forall k | 0 <= k < |info.deps[x]| ensures !Broken(info, m, x, info.deps[x][k]) {
      var link := info.deps[x][k];
      assert link in info.deps[x];
      if link.Internal? {
        AllOnIsClean(info, m, depth, c, i, link.member);
      }
    }
    HardBadIsBad(info, m, x);
    if m.deps[x] == HardFailure {
      var k: nat :| HardWithin(info, x, k);
      NeverHard(info, c, x, k);
    }
  }

  lemma {:induction false} NothingToEnable(info: Info, m: Menu, i: nat, k: nat, depth: seq<nat>)
    requires Ready(info, m, depth) && i < |m.enabled| && k <= |info.deps[i]|
    requires forall j: nat :: j < |m.enabled| && Internal(j) in info.deps[i] ==> m.enabled[j]
    ensures EnableDeps(info, m, i, k, depth) == (m, true)
    decreases |info.deps[i]| - k
  {
    hide HardIsDue, NoResets;
    if k < |info.deps[i]| {
      assert info.deps[i][k] in info.deps[i];
      NothingToEnable(info, m, i, k + 1, depth);
    }
  }

  /** A member that is off and whose own dependencies in the menu are all on is not helped: toggling it
      builds it if and only if all that it needs through chains of dependencies, `c`, is on already. */
  lemma {:induction false} BuiltIffNeedsAreOn(info: Info, m: Menu, i: nat, depth: seq<nat>, c: set<nat>)
    requires Ready(info, m, depth) && Settled(info, m) && Compatible(info, c) && i in c && !m.enabled[i]
    requires forall x :: x in c ==>
      exists path :: DependencyPath(info, path) && path[0] == i && path[|path| - 1] == x
    requires forall x, j: nat :: x in c && j < |m.enabled| && Internal(j) in info.conflicts[x] ==> !m.enabled[j]
    requires forall j: nat :: j < |m.enabled| && Internal(j) in info.deps[i] ==> m.enabled[j]
    ensures Built(Toggle(info, m, i, depth), i) <==> forall x :: x in c && x != i ==> m.enabled[x]
  {
    if forall x :: x in c && x != i ==> m.enabled[x] {
      forall x | x in c && m.enabled[x] ensures m.deps[x] == NoFailure {
        var path :| DependencyPath(info, path) && path[0] == i && path[|path| - 1] == x;
        PathDepth(info, depth, path);
        AllOnIsClean(info, m, depth, c, i, x);
      }
      assert Unhindered(info, m, c) && Aside(info, m, {}, c);
      assert DependencyPath(info, [i]);
      SwitchesOn(info, m, DoToggle(i), i, depth, c, {});
      assert Built(Toggle(info, m, i, depth), [i][|[i]| - 1]);
    } else {
      var x :| x in c && x != i && !m.enabled[x];
      NeedIsOff(info, m, i, depth, c, x);
    }
  }

  lemma {:induction false} NeedIsOff(info: Info, m: Menu, i: nat, depth: seq<nat>, c: set<nat>, x: nat)
    requires Ready(info, m, depth) && Settled(info, m) && i < |m.enabled| && !m.enabled[i]
    requires x < |m.enabled| && x != i && !m.enabled[x]
    requires exists path :: DependencyPath(info, path) && path[0] == i && path[|path| - 1] == x
    requires forall j: nat :: j < |m.enabled| && Internal(j) in info.deps[i] ==> m.enabled[j]
    ensures !Built(Toggle(info, m, i, depth), i)
  {
    var path :| DependencyPath(info, path) && path[0] == i && path[|path| - 1] == x;
    NothingToEnable(info, m, i, 0, depth);
    var m1 := Switched(m, i, true);
    SettleSettles(info, m1);
    SettleIsLinear(info, m1);
    var m2 := Settle(info, m1).0;
    SettledIsStable(info, m2);
    hide Settle, HardIsDue, NoResets, Settled;
    if !HardBlocked(m, i) && Built(m2, i) {
      BuiltIsOn(info, m2, path);
    }
  }

  lemma {:induction false} BuiltIsOn(info: Info, m: Menu, path: seq<nat>)
    requires Ok(info, m) && Settled(info, m) && DependencyPath(info, path) && Built(m, path[0])
    ensures m.enabled[path[|path| - 1]]
  {
    BuiltClosureIsClean(info, m, path);
  }

  // ---------- what switching off achieves ----------

  ghost predicate Disables(info: Info, m: Menu, a: Action, i: nat)
    requires Ok(info, m)
  {
    match a
    case DoToggle(x) =>
      x == i < |m.enabled| && m.enabled[i] && m.deps[i] != HardFailure && m.conflicts[i] != HardFailure
    case DoSet(_) => false
    case DoAll(lo, hi, val) =>
      && !val && lo <= i < hi <= |m.enabled|
      && m.deps[i] != HardFailure && m.conflicts[i] != HardFailure
    case DoClear(x) => x == i < |m.enabled|
  }

  lemma {:induction false} ClearRange(info: Info, m: Menu, lo: nat, hi: nat, depth: seq<nat>)
    requires Ready(info, m, depth) && lo <= hi <= |m.enabled|
    ensures var m' := SetRange(info, m, lo, hi, false, depth);
      && m'.deps == m.deps && m'.conflicts == m.conflicts && |m'.enabled| == |m.enabled|
      && forall x :: 0 <= x < |m.enabled| ==>
           (m'.enabled[x] <==> m.enabled[x] && (lo <= x < hi ==> HardBlocked(m, x)))
    decreases hi - lo
  {
    hide NoResets;
    if lo < hi {
      if !m.enabled[lo] || HardBlocked(m, lo) {
        ClearRange(info, m, lo + 1, hi, depth);
      } else {
        ClearRange(info, Switched(m, lo, false), lo + 1, hi, depth);
      }
    }
  }

  lemma {:induction false} StillSupported(info: Info, m: Menu, m': Menu, s: set<nat>)
    requires Ok(info, m) && Supported(info, m, s)
    requires m'.deps == m.deps && m'.conflicts == m.conflicts && |m'.enabled| == |m.enabled|
    requires forall x :: 0 <= x < |m.enabled| && m'.enabled[x] ==> m.enabled[x]
    requires forall x :: x in s ==> m'.enabled[x]
    ensures Ok(info, m') && Supported(info, m', s)
  {
    forall x | x in s && Clash(info, m', x) ensures Clash(info, m, x) {
      var j := ClashIsWith(info, m', x);
      ClashesWith(info, m, x, j);
    }
  }

  /** Toggling a member that is on, clearing it, or clearing a category leaves it off; only hard
      failures keep a member from being toggled or cleared with its category. Members elsewhere
      that support themselves stay on. */
  lemma {:induction false} SwitchesOff(info: Info, m: Menu, a: Action, i: nat, depth: seq<nat>, s: set<nat>)
    requires Ready(info, m, depth) && Settled(info, m) && Disables(info, m, a, i)
    requires Supported(info, m, s) && i !in s
    requires a.DoAll? ==> forall x :: x in s ==> !(a.lo <= x < a.hi)
    ensures Applies(info, a)
    ensures var m' := Do(info, m, a, depth);
      && !m'.enabled[i]
      && (forall x :: x in s ==> x < |m'.enabled| && m'.enabled[x] && m'.deps[x] == NoFailure)
  {
    var m1 := if a.DoAll? then SetRange(info, m, a.lo, a.hi, false, depth) else Switched(m, i, false);
    if a.DoAll? {
      ClearRange(info, m, a.lo, a.hi, depth);
    }
    assert Do(info, m, a, depth) == if a.DoClear? && !m.enabled[i] then m else Settle(info, m1).0;
    hide Do, Settle, SetRange, HardIsDue, NoResets;
    StillSupported(info, m, m1, s);
    SettleIsLinear(info, m1);
    SettleKeepsSupported(info, m1, s);
  }

  /** A dependency flag that the solver changed belongs to a member that is off, or that lacks
      something outside the menu. */
  ghost predicate ChangedIsOff(info: Info, m: Menu, m': Menu)
    requires |m'.enabled| == |m.enabled| == |m'.deps| == |m.deps| == |info.deps|
  {
    forall i :: 0 <= i < |m.deps| && m'.enabled[i] && !Outside(info.deps[i], false) ==> m'.deps[i] == m.deps[i]
  }

  lemma {:induction false} DepLoopChanges(info: Info, m: Menu)
    requires Ok(info, m)
    ensures ChangedIsOff(info, m, DepLoop(info, m).0)
    decreases Measure(info, m)
  {
    var j := FirstStale(info, m, 0);
    if j < |m.deps| {
      DepStepShrinks(info, m, j);
      DepLoopShrinks(info, DepStep(info, m, j));
      DepLoopChanges(info, DepStep(info, m, j));
    }
  }

  lemma {:induction false} CalcDepsChanges(info: Info, m: Menu)
    requires Ok(info, m) && HardIsDue(info, m) && NoResets(info)
    ensures ChangedIsOff(info, m, CalcDeps(info, m).0)
  {
    var m1 := ExternalDeps(info, m);
    DepLoopChanges(info, m1);
    forall i | 0 <= i < |m.deps| && !Outside(info.deps[i], false) ensures m1.deps[i] == m.deps[i] {
      assert !Resets(info, i);
    }
  }

  lemma {:induction false} ChangedTwice(info: Info, a: Menu, b: Menu, c: Menu)
    requires |a.enabled| == |b.enabled| == |a.deps| == |b.deps| == |info.deps|
    requires ChangedIsOff(info, a, b) && OnlyOff(b, c) && ChangedIsOff(info, b, c)
    ensures ChangedIsOff(info, a, c)
  {
  }

  lemma {:induction false} SettleChanges(info: Info, m: Menu)
    requires Ok(info, m) && HardIsDue(info, m) && NoResets(info)
    ensures |Settle(info, m).0.deps| == |m.deps| && ChangedIsOff(info, m, Settle(info, m).0)
    decreases Measure(info, m)
  {
    hide DepLoop, ConflictLoop, HardIsDue, NoResets, Measure, CalcDeps, CalcConflicts;
    CalcDepsShrinks(info, m);
    CalcDepsChanges(info, m);
    var (m1, n1) := CalcDeps(info, m);
    SettleIsLinear(info, m1);
    if n1 > 0 {
      SettleChanges(info, m1);
      ChangedTwice(info, m, m1, Settle(info, m1).0);
    } else {
      CalcConflictsShrinks(info, m1);
      var (m2, n2) := CalcConflicts(info, m1);
      ChangedTwice(info, m, m1, m2);
      if n2 > 0 {
        SettleIsLinear(info, m2);
        SettleChanges(info, m2);
        ChangedTwice(info, m, m2, Settle(info, m2).0);
      }
    }
  }

  /** Switching a member off switches off every clean member that needs it, through any chain. */
  lemma {:induction false} DependentsGoOff(info: Info, m: Menu, a: Action, depth: seq<nat>, path: seq<nat>)
    requires Ready(info, m, depth) && Settled(info, m) && DependencyPath(info, path)
    requires Disables(info, m, a, path[|path| - 1]) && m.deps[path[0]] == NoFailure
    ensures Applies(info, a) && !Do(info, m, a, depth).enabled[path[0]]
  {
    var i := path[0];
    SwitchesOff(info, m, a, path[|path| - 1], depth, {});
    var m1 := if a.DoAll? then SetRange(info, m, a.lo, a.hi, false, depth)
              else if m.enabled[path[|path| - 1]] then Switched(m, path[|path| - 1], false) else m;
    if a.DoAll? {
      ClearRange(info, m, a.lo, a.hi, depth);
    }
    SettledIsStable(info, m);
    SettleSettles(info, m1);
    SettleChanges(info, m1);
    var m' := Settle(info, m1).0;
    assert Do(info, m, a, depth) == m';
    hide Do, Settle, SetRange, HardIsDue, NoResets;
    assert DepsSettled(info, m');
    CleanMeansAvailable(info, m, i);
    assert !Outside(info.deps[i], false);
    if m'.enabled[i] {
      CleanClosureIsOn(info, m', path);
    }
  }

  lemma {:induction false} CleanClosureIsOn(info: Info, m: Menu, path: seq<nat>)
    requires Ok(info, m) && DepsSettled(info, m) && DependencyPath(info, path)
    requires m.enabled[path[0]] && m.deps[path[0]] == NoFailure
    ensures m.enabled[path[|path| - 1]] && m.deps[path[|path| - 1]] == NoFailure
    decreases |path|
  {
    var n := |path|;
    if n > 1 {
      CleanClosureIsOn(info, m, path[..n - 1]);
      CleanMeansAvailable(info, m, path[n - 2]);
    }
  }

  /** A member with a hard failure, that is, one that can never be had or that conflicts with
      something outside the menu that is there, is left as it is. */
  lemma {:induction false} BlockedIsLeft(info: Info, m: Menu, i: nat, depth: seq<nat>)
    requires Ready(info, m, depth) && Settled(info, m) && i < |m.enabled|
    ensures TrulyHard(info, i) || External(true) in info.conflicts[i] <==>
      m.deps[i] == HardFailure || m.conflicts[i] == HardFailure
    ensures TrulyHard(info, i) || External(true) in info.conflicts[i] ==>
      Toggle(info, m, i, depth) == m == SetEnabled(info, m, i, depth)
  {
    if TrulyHard(info, i) {
      var k: nat :| HardWithin(info, i, k);
      SettledHardSpreads(info, m, i, k);
    }
    if External(true) in info.conflicts[i] {
      var k :| 0 <= k < |info.conflicts[i]| && info.conflicts[i][k] == External(true);
      assert Outside(info.conflicts[i], true);
    }
  }

  // ---------- when a dependency cannot be switched on ----------

  /** Off, and known to conflict with something outside the menu that is there. */
  ghost predicate RuledOut(info: Info, m: Menu, d: nat) {
    d < |m.enabled| == |m.conflicts| == |info.conflicts| && !m.enabled[d] && m.conflicts[d] == HardFailure &&
    Outside(info.conflicts[d], true)
  }

  lemma {:induction false} SettleKeepsRuledOut(info: Info, m: Menu, d: nat)
    requires Ok(info, m) && HardIsDue(info, m) && NoResets(info) && RuledOut(info, m, d)
    ensures RuledOut(info, Settle(info, m).0, d)
  {
    SettleIsLinear(info, m);
    SettleSettles(info, m);
  }

  lemma {:induction false} EnableDepsKeepsRuledOut(info: Info, m: Menu, i: nat, k: nat, depth: seq<nat>, d: nat)
    requires Ready(info, m, depth) && i < |m.enabled| && k <= |info.deps[i]| && RuledOut(info, m, d)
    ensures var (m', can) := EnableDeps(info, m, i, k, depth);
      RuledOut(info, m', d) && (can ==> forall x :: k <= x < |info.deps[i]| ==> info.deps[i][x] != Internal(d))
    decreases depth[i], 0, |info.deps[i]| - k
  {
    hide HardIsDue, NoResets, RuledOut;
    assert d < |m.enabled| == |m.conflicts| && !m.enabled[d] && m.conflicts[d] == HardFailure by {
      RuledOutIs(info, m, d);
    }
    if k < |info.deps[i]| {
      var link := info.deps[i][k];
      if link.External? || m.enabled[link.member] {
        EnableDepsKeepsRuledOut(info, m, i, k + 1, depth, d);
      } else if m.conflicts[link.member] == NoFailure && m.deps[link.member] != HardFailure {
        EnableMemberKeepsRuledOut(info, m, link.member, depth, d);
        var (m', can) := EnableMember(info, m, link.member, depth);
        if can {
          EnableDepsKeepsRuledOut(info, m', i, k + 1, depth, d);
        }
      }
    }
  }

  lemma {:induction false} RuledOutIs(info: Info, m: Menu, d: nat)
    requires RuledOut(info, m, d)
    ensures d < |m.enabled| == |m.conflicts| && !m.enabled[d] && m.conflicts[d] == HardFailure
  {
  }

  lemma {:induction false} EnableMemberKeepsRuledOut(info: Info, m: Menu, i: nat, depth: seq<nat>, d: nat)
    requires Ready(info, m, depth) && i < |m.enabled| && i != d && RuledOut(info, m, d)
    ensures RuledOut(info, EnableMember(info, m, i, depth).0, d)
    decreases depth[i], 1
  {
    EnableDepsKeepsRuledOut(info, m, i, 0, depth, d);
    var (m', can) := EnableDeps(info, m, i, 0, depth);
    if can {
      SettleKeepsRuledOut(info, Switched(m', i, true), d);
    }
  }

  /** A member that needs one that is off and ruled out by a conflict outside the menu is not switched
      on by toggling or setting it, and neither is that one. */
  lemma {:induction false} NotWithoutDependency(info: Info, m: Menu, i: nat, d: nat, depth: seq<nat>)
    requires Ready(info, m, depth) && Settled(info, m) && i < |m.enabled| && !m.enabled[i]
    requires d < |m.enabled| && !m.enabled[d] && Internal(d) in info.deps[i] && External(true) in info.conflicts[d]
    ensures var m', m'' := Toggle(info, m, i, depth), SetEnabled(info, m, i, depth);
      !m'.enabled[i] && !m'.enabled[d] && !m''.enabled[i] && !m''.enabled[d]
  {
    var k :| 0 <= k < |info.conflicts[d]| && info.conflicts[d][k] == External(true);
    assert Outside(info.conflicts[d], true);
    assert RuledOut(info, m, d);
    EnableDepsKeepsRuledOut(info, m, i, 0, depth, d);
    var x :| 0 <= x < |info.deps[i]| && info.deps[i][x] == Internal(d);
    var m1 := EnableDeps(info, m, i, 0, depth).0;
    assert EnableMember(info, m, i, depth) == (Switched(m1, i, false), false);
    if !HardBlocked(m, i) {
      SettleIsLinear(info, Switched(m1, i, false));
    }
  }
}
