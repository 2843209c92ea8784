/** The dependency and conflict solver of menuselect, in interactive use with no
    member still at its default: the loops that recompute failure flags in place
    until nothing changes, and the operations built on them. */
module Menuselect {

  datatype Failure = NoFailure | SoftFailure | HardFailure

  /** A dependency or conflict: on something outside the menu, met or not, or on a member. */
  datatype Link = External(met: bool) | Internal(member: nat)

  /** The members in traversal order, with their dependencies and conflicts. */
  datatype Info = Info(deps: seq<seq<Link>>, conflicts: seq<seq<Link>>)

  /** The fields of the members that the solver rewrites. */
  datatype Menu = Menu(enabled: seq<bool>, deps: seq<Failure>, conflicts: seq<Failure>)

  ghost predicate LinksOk(links: seq<seq<Link>>) {
    forall i, k :: 0 <= i < |links| && 0 <= k < |links[i]| ==>
      (links[i][k].Internal? ==> links[i][k].member < |links|)
  }

  ghost predicate Ok(info: Info, m: Menu) {
    && |info.deps| == |info.conflicts| == |m.enabled| == |m.deps| == |m.conflicts|
    && LinksOk(info.deps) && LinksOk(info.conflicts)
  }

  predicate HasExternal(links: seq<Link>) {
    exists k :: 0 <= k < |links| && links[k].External?
  }

  /** Some outside link has the given status. */
  predicate Outside(links: seq<Link>, met: bool) {
    exists k :: 0 <= k < |links| && links[k] == External(met)
  }

  // ---------- dependencies: the outside pass ----------

  /** What the outside pass makes of a member's dependency flag. */
  function ExternalDep(links: seq<Link>, old_: Failure): Failure {
    if Outside(links, false) then HardFailure
    else if old_.SoftFailure? then SoftFailure
    else if HasExternal(links) then NoFailure
    else old_
  }

  function ExternalDeps(info: Info, m: Menu): Menu
    requires |info.deps| == |m.deps|
  {
    m.(deps := seq(|m.deps|, i requires 0 <= i < |m.deps| => ExternalDep(info.deps[i], m.deps[i])))
  }

  // ---------- dependencies: the inside loop ----------

  /** A link of member `i` to a member that is not there for it. While `i` is being
      recomputed its own flag reads as no failure. */
  predicate Broken(info: Info, m: Menu, i: nat, link: Link)
    requires Ok(info, m) && i < |m.deps|
  {
    link.Internal? && link.member < |m.deps| &&
    (!m.enabled[link.member] || (link.member != i && m.deps[link.member] != NoFailure))
  }

  predicate HardLink(info: Info, m: Menu, i: nat, link: Link)
    requires Ok(info, m) && i < |m.deps|
  {
    link.Internal? && link.member < |m.deps| && link.member != i && m.deps[link.member] == HardFailure
  }

  predicate Bad(info: Info, m: Menu, i: nat)
    requires Ok(info, m) && i < |m.deps|
  {
    exists k :: 0 <= k < |info.deps[i]| && Broken(info, m, i, info.deps[i][k])
  }

  predicate HardBad(info: Info, m: Menu, i: nat)
    requires Ok(info, m) && i < |m.deps|
  {
    exists k :: 0 <= k < |info.deps[i]| && HardLink(info, m, i, info.deps[i][k])
  }

  /** The recomputed dependency flag of member `i`. */
  function DepFlag(info: Info, m: Menu, i: nat): Failure
    requires Ok(info, m) && i < |m.deps|
  {
    if HardBad(info, m, i) then HardFailure else if Bad(info, m, i) then SoftFailure else NoFailure
  }

  predicate DepStale(info: Info, m: Menu, i: nat)
    requires Ok(info, m) && i < |m.deps|
  {
    m.deps[i] != HardFailure && m.deps[i] != DepFlag(info, m, i)
  }

  /** The flag of member `i` changes, and the member is switched off. */
  function DepStep(info: Info, m: Menu, i: nat): Menu
    requires Ok(info, m) && i < |m.deps|
  {
    m.(deps := m.deps[i := DepFlag(info, m, i)], enabled := m.enabled[i := false])
  }

  /** The first member from `i` on whose flag is out of date, or the number of members. */
  function FirstStale(info: Info, m: Menu, i: nat): (j: nat)
    requires Ok(info, m) && i <= |m.deps|
    ensures i <= j <= |m.deps|
    ensures j < |m.deps| ==> DepStale(info, m, j)
    ensures forall k :: i <= k < j ==> !DepStale(info, m, k)
    decreases |m.deps| - i
  {
    if i == |m.deps| || DepStale(info, m, i) then i else FirstStale(info, m, i + 1)
  }

  // ---------- conflicts ----------

  function ExternalConflict(links: seq<Link>, old_: Failure): Failure {
    if Outside(links, true) then HardFailure
    else if old_.SoftFailure? then SoftFailure
    else if HasExternal(links) then NoFailure
    else old_
  }

  function ExternalConflicts(info: Info, m: Menu): Menu
    requires |info.conflicts| == |m.conflicts|
  {
    m.(conflicts := seq(|m.conflicts|, i requires 0 <= i < |m.conflicts| =>
      ExternalConflict(info.conflicts[i], m.conflicts[i])))
  }

  predicate Clashes(m: Menu, link: Link) {
    link.Internal? && link.member < |m.enabled| && m.enabled[link.member]
  }

  predicate Clash(info: Info, m: Menu, i: nat)
    requires Ok(info, m) && i < |m.conflicts|
  {
    exists k :: 0 <= k < |info.conflicts[i]| && Clashes(m, info.conflicts[i][k])
  }

  function ConflictFlag(info: Info, m: Menu, i: nat): Failure
    requires Ok(info, m) && i < |m.conflicts|
  {
    if Clash(info, m, i) then SoftFailure else NoFailure
  }

  /** One sweep over the members from `i` on: flags are refreshed silently until one
      turns from no failure to a failure; that member is switched off and the sweep ends. */
  function ConflictSweep(info: Info, m: Menu, i: nat): (r: (Menu, bool))
    requires Ok(info, m) && i <= |m.conflicts|
    ensures Ok(info, r.0)
    decreases |m.conflicts| - i
  {
    if i == |m.conflicts| then (m, false)
    else if m.conflicts[i] == HardFailure then ConflictSweep(info, m, i + 1)
    else
      var flag := ConflictFlag(info, m, i);
      var m' := m.(conflicts := m.conflicts[i := flag]);
      if flag != m.conflicts[i] && flag != NoFailure then (m'.(enabled := m.enabled[i := false]), true)
      else ConflictSweep(info, m', i + 1)
  }

  // ---------- a measure ----------

  /** What can still happen to a member: a dependency flag that once went from no
      failure to a failure never comes back, and a soft conflict is raised at most once. */
  function Rank(info: Info, m: Menu, i: nat): nat
    requires Ok(info, m) && i < |m.deps|
  {
    (match m.deps[i]
     case HardFailure => 0
     case NoFailure => 2
     case SoftFailure => if Bad(info, m, i) then 1 else 3) +
    (if m.conflicts[i].NoFailure? && Clash(info, m, i) then 1 else 0)
  }

  function TotalRank(info: Info, m: Menu, n: nat): nat
    requires Ok(info, m) && n <= |m.deps|
  {
    if n == 0 then 0 else TotalRank(info, m, n - 1) + Rank(info, m, n - 1)
  }

  function Measure(info: Info, m: Menu): nat
    requires Ok(info, m)
  {
    TotalRank(info, m, |m.deps|)
  }

  lemma {:induction false} TotalRankBound(info: Info, m: Menu, n: nat)
    requires Ok(info, m) && n <= |m.deps|
    ensures TotalRank(info, m, n) <= 4 * n
  {
    if n > 0 {
      TotalRankBound(info, m, n - 1);
    }
  }

  /** If no member's rank grows, and that of `j` shrinks, the total shrinks. */
  lemma {:induction false} TotalRankShrinks(info: Info, m: Menu, m': Menu, n: nat, j: int)
    requires Ok(info, m) && Ok(info, m') && n <= |m.deps|
    requires forall i :: 0 <= i < n ==> Rank(info, m', i) <= Rank(info, m, i)
    requires 0 <= j < n ==> Rank(info, m', j) < Rank(info, m, j)
    ensures TotalRank(info, m', n) + (if 0 <= j < n then 1 else 0) <= TotalRank(info, m, n)
  {
    if n > 0 {
      TotalRankShrinks(info, m, m', n - 1, j);
    }
  }

  /** Members only switched off, and repaired dependency flags only on switched-off members. */
  ghost predicate OnlyOff(m: Menu, m': Menu) {
    && |m'.enabled| == |m.enabled| == |m'.deps| == |m.deps|
    && (forall i :: 0 <= i < |m.enabled| ==> m'.enabled[i] ==> m.enabled[i])
    && (forall i :: 0 <= i < |m.enabled| ==> m'.deps[i] == NoFailure ==> m.deps[i] == NoFailure || !m'.enabled[i])
  }

  lemma {:induction false} OnlyOffKeepsBad(info: Info, m: Menu, m': Menu, i: nat)
    requires Ok(info, m) && Ok(info, m') && OnlyOff(m, m') && i < |m.deps|
    ensures Bad(info, m, i) ==> Bad(info, m', i)
    ensures Clash(info, m', i) ==> Clash(info, m, i)
  {
    if Bad(info, m, i) {
      var k :| 0 <= k < |info.deps[i]| && Broken(info, m, i, info.deps[i][k]);
      assert Broken(info, m', i, info.deps[i][k]);
    }
    if Clash(info, m', i) {
      var k :| 0 <= k < |info.conflicts[i]| && Clashes(m', info.conflicts[i][k]);
      assert Clashes(m, info.conflicts[i][k]);
    }
  }

  lemma {:induction false} HardBadIsBad(info: Info, m: Menu, i: nat)
    requires Ok(info, m) && i < |m.deps|
    ensures HardBad(info, m, i) ==> Bad(info, m, i)
  {
    if HardBad(info, m, i) {
      var k :| 0 <= k < |info.deps[i]| && HardLink(info, m, i, info.deps[i][k]);
      assert Broken(info, m, i, info.deps[i][k]);
    }
  }

  lemma {:induction false} DepStepShrinks(info: Info, m: Menu, j: nat)
    requires Ok(info, m) && j < |m.deps| && DepStale(info, m, j)
    ensures Ok(info, DepStep(info, m, j)) && OnlyOff(m, DepStep(info, m, j))
    ensures Measure(info, DepStep(info, m, j)) < Measure(info, m)
  {
    var m' := DepStep(info, m, j);
    HardBadIsBad(info, m, j);
    forall i | 0 <= i < |m.deps|
      ensures Rank(info, m', i) <= Rank(info, m, i) && (i == j ==> Rank(info, m', i) < Rank(info, m, i))
    {
      OnlyOffKeepsBad(info, m, m', i);
    }
    TotalRankShrinks(info, m, m', |m.deps|, j);
  }

  // ---------- the two loops ----------

  /** The do/while loop over dependencies: the final flags and the number of changes. */
  function DepLoop(info: Info, m: Menu): (r: (Menu, nat))
    requires Ok(info, m)
    ensures Ok(info, r.0)
    decreases Measure(info, m)
  {
    var j := FirstStale(info, m, 0);
    if j == |m.deps| then (m, 0)
    else
      DepStepShrinks(info, m, j);
      var (m', n) := DepLoop(info, DepStep(info, m, j));
      (m', n + 1)
  }

  /** calc_dep_failures: the new menu and how many changes were made; the result is whether any was. */
  function CalcDeps(info: Info, m: Menu): (r: (Menu, nat))
    requires Ok(info, m)
    ensures Ok(info, r.0)
  {
    DepLoop(info, ExternalDeps(info, m))
  }

  lemma {:induction false} SweepShrinks(info: Info, m: Menu, i: nat)
    requires Ok(info, m) && i <= |m.conflicts|
    ensures var (m', changed) := ConflictSweep(info, m, i);
      && OnlyOff(m, m') && m'.deps == m.deps
      && Measure(info, m') + (if changed then 1 else 0) <= Measure(info, m)
    decreases |m.conflicts| - i
  {
    if i == |m.conflicts| {
    } else if m.conflicts[i] == HardFailure {
      SweepShrinks(info, m, i + 1);
    } else {
      var flag := ConflictFlag(info, m, i);
      var m1 := m.(conflicts := m.conflicts[i := flag]);
      var changed := flag != m.conflicts[i] && flag != NoFailure;
      var m2 := if changed then m1.(enabled := m.enabled[i := false]) else m1;
      forall k | 0 <= k < |m.deps|
        ensures Rank(info, m2, k) <= Rank(info, m, k) && (k == i && changed ==> Rank(info, m2, k) < Rank(info, m, k))
      {
        OnlyOffKeepsBad(info, m, m2, k);
      }
      TotalRankShrinks(info, m, m2, |m.deps|, if changed then i else -1);
      if !changed {
        SweepShrinks(info, m1, i + 1);
      }
    }
  }

  /** The do/while loop over conflicts. */
  function ConflictLoop(info: Info, m: Menu): (r: (Menu, nat))
    requires Ok(info, m)
    ensures Ok(info, r.0)
    decreases Measure(info, m)
  {
    SweepShrinks(info, m, 0);
    var (m1, changed) := ConflictSweep(info, m, 0);
    if !changed then (m1, 0)
    else
      var (m', n) := ConflictLoop(info, m1);
      (m', n + 1)
  }

  /** calc_conflict_failures. */
  function CalcConflicts(info: Info, m: Menu): (r: (Menu, nat))
    requires Ok(info, m)
    ensures Ok(info, r.0)
  {
    ConflictLoop(info, ExternalConflicts(info, m))
  }

  lemma {:induction false} OnlyOffTransitive(a: Menu, b: Menu, c: Menu)
    requires OnlyOff(a, b) && OnlyOff(b, c)
    ensures OnlyOff(a, c)
  {
  }

  /** Every change costs at least one unit of the measure. */
  lemma {:induction false} DepLoopShrinks(info: Info, m: Menu)
    requires Ok(info, m)
    ensures var (m', n) := DepLoop(info, m);
      OnlyOff(m, m') && m'.conflicts == m.conflicts && Measure(info, m') + n <= Measure(info, m)
    decreases Measure(info, m)
  {
    var j := FirstStale(info, m, 0);
    if j < |m.deps| {
      DepStepShrinks(info, m, j);
      DepLoopShrinks(info, DepStep(info, m, j));
    }
  }

  lemma {:induction false} ConflictLoopShrinks(info: Info, m: Menu)
    requires Ok(info, m)
    ensures var (m', n) := ConflictLoop(info, m);
      OnlyOff(m, m') && m'.deps == m.deps && Measure(info, m') + n <= Measure(info, m)
    decreases Measure(info, m)
  {
    SweepShrinks(info, m, 0);
    var (m1, changed) := ConflictSweep(info, m, 0);
    if changed {
      ConflictLoopShrinks(info, m1);
    }
  }

  // ---------- hard failures ----------

  /** Member `i` can never be had: through at most `k` links it reaches an unmet outside dependency. */
  ghost predicate HardWithin(info: Info, i: nat, k: nat)
    requires i < |info.deps| && LinksOk(info.deps)
    decreases k
  {
    || Outside(info.deps[i], false)
    || (k > 0 && exists l ::
          && 0 <= l < |info.deps[i]|
          && info.deps[i][l].Internal?
          && info.deps[i][l].member != i
          && HardWithin(info, info.deps[i][l].member, k - 1))
  }

  ghost predicate TrulyHard(info: Info, i: nat)
    requires i < |info.deps| && LinksOk(info.deps)
  {
    exists k: nat :: HardWithin(info, i, k)
  }

  /** A member whose outside dependencies are all met but which can never be had: every
      call clears its hard failure and finds it again. */
  ghost predicate Resets(info: Info, i: nat)
    requires i < |info.deps| && LinksOk(info.deps)
  {
    HasExternal(info.deps[i]) && !Outside(info.deps[i], false) && TrulyHard(info, i)
  }

  /** Hard flags only where they are due. */
  ghost predicate HardIsDue(info: Info, m: Menu)
    requires Ok(info, m)
  {
    && (forall i :: 0 <= i < |m.deps| && m.deps[i] == HardFailure ==> TrulyHard(info, i))
    && (forall i :: 0 <= i < |m.conflicts| && m.conflicts[i] == HardFailure ==> Outside(info.conflicts[i], true))
  }

  ghost predicate NoResets(info: Info)
    requires LinksOk(info.deps)
  {
    forall i :: 0 <= i < |info.deps| ==> !Resets(info, i)
  }

  lemma {:induction false} HardLinkIsTrulyHard(info: Info, m: Menu, i: nat)
    requires Ok(info, m) && HardIsDue(info, m) && i < |m.deps| && HardBad(info, m, i)
    ensures TrulyHard(info, i)
  {
    var l :| 0 <= l < |info.deps[i]| && HardLink(info, m, i, info.deps[i][l]);
    var d := info.deps[i][l].member;
    var k: nat :| HardWithin(info, d, k);
    assert HardWithin(info, i, k + 1);
  }

  lemma {:induction false} DepLoopKeepsDue(info: Info, m: Menu)
    requires Ok(info, m) && HardIsDue(info, m)
    ensures HardIsDue(info, DepLoop(info, m).0)
    decreases Measure(info, m)
  {
    var j := FirstStale(info, m, 0);
    if j < |m.deps| {
      DepStepShrinks(info, m, j);
      if HardBad(info, m, j) {
        HardLinkIsTrulyHard(info, m, j);
      }
      DepLoopKeepsDue(info, DepStep(info, m, j));
    }
  }

  lemma {:induction false} OutsideIsHard(info: Info, i: nat)
    requires i < |info.deps| && LinksOk(info.deps) && Outside(info.deps[i], false)
    ensures TrulyHard(info, i)
  {
    assert HardWithin(info, i, 0);
  }

  /** Without resetting members the outside pass costs nothing. */
  lemma {:induction false} ExternalDepsShrinks(info: Info, m: Menu)
    requires Ok(info, m) && HardIsDue(info, m) && NoResets(info)
    ensures var m' := ExternalDeps(info, m);
      Ok(info, m') && HardIsDue(info, m') && OnlyOff(m, m') && Measure(info, m') <= Measure(info, m)
  {
    var m' := ExternalDeps(info, m);
    forall i | 0 <= i < |m.deps|
      ensures m'.deps[i] == NoFailure ==> m.deps[i] == NoFailure
      ensures m'.deps[i] == HardFailure ==> TrulyHard(info, i)
    {
      if Outside(info.deps[i], false) {
        OutsideIsHard(info, i);
      } else {
        assert !Resets(info, i);
      }
    }
    assert OnlyOff(m, m');
    forall i | 0 <= i < |m.deps| ensures Rank(info, m', i) <= Rank(info, m, i) {
      OnlyOffKeepsBad(info, m, m', i);
    }
    TotalRankShrinks(info, m, m', |m.deps|, -1);
  }

  lemma {:induction false} ExternalConflictsShrinks(info: Info, m: Menu)
    requires Ok(info, m) && HardIsDue(info, m)
    ensures var m' := ExternalConflicts(info, m);
      Ok(info, m') && HardIsDue(info, m') && OnlyOff(m, m') && Measure(info, m') <= Measure(info, m)
  {
    var m' := ExternalConflicts(info, m);
    forall i | 0 <= i < |m.deps| ensures Rank(info, m', i) <= Rank(info, m, i) {
      OnlyOffKeepsBad(info, m, m', i);
    }
    TotalRankShrinks(info, m, m', |m.deps|, -1);
  }

  lemma {:induction false} SweepKeepsDue(info: Info, m: Menu, i: nat)
    requires Ok(info, m) && HardIsDue(info, m) && i <= |m.conflicts|
    ensures HardIsDue(info, ConflictSweep(info, m, i).0)
    decreases |m.conflicts| - i
  {
    if i < |m.conflicts| {
      if m.conflicts[i] == HardFailure {
        SweepKeepsDue(info, m, i + 1);
      } else {
        SweepKeepsDue(info, m.(conflicts := m.conflicts[i := ConflictFlag(info, m, i)]), i + 1);
      }
    }
  }

  lemma {:induction false} ConflictLoopKeepsDue(info: Info, m: Menu)
    requires Ok(info, m) && HardIsDue(info, m)
    ensures HardIsDue(info, ConflictLoop(info, m).0)
    decreases Measure(info, m)
  {
    SweepShrinks(info, m, 0);
    SweepKeepsDue(info, m, 0);
    var (m1, changed) := ConflictSweep(info, m, 0);
    if changed {
      ConflictLoopKeepsDue(info, m1);
    }
  }

  /** calc_dep_failures in a menu without resetting members. */
  lemma {:induction false} CalcDepsShrinks(info: Info, m: Menu)
    requires Ok(info, m) && HardIsDue(info, m) && NoResets(info)
    ensures var (m', n) := CalcDeps(info, m);
      HardIsDue(info, m') && OnlyOff(m, m') && Measure(info, m') + n <= Measure(info, m)
  {
    hide DepLoop, Measure, HardIsDue, OnlyOff;
    ExternalDepsShrinks(info, m);
    DepLoopShrinks(info, ExternalDeps(info, m));
    DepLoopKeepsDue(info, ExternalDeps(info, m));
    OnlyOffTransitive(m, ExternalDeps(info, m), CalcDeps(info, m).0);
  }

  lemma {:induction false} CalcConflictsShrinks(info: Info, m: Menu)
    requires Ok(info, m) && HardIsDue(info, m)
    ensures var (m', n) := CalcConflicts(info, m);
      HardIsDue(info, m') && OnlyOff(m, m') && m'.deps == m.deps && Measure(info, m') + n <= Measure(info, m)
  {
    hide ConflictLoop, Measure, HardIsDue, OnlyOff;
    ExternalConflictsShrinks(info, m);
    ConflictLoopShrinks(info, ExternalConflicts(info, m));
    ConflictLoopKeepsDue(info, ExternalConflicts(info, m));
    OnlyOffTransitive(m, ExternalConflicts(info, m), CalcConflicts(info, m).0);
  }

  /** "while (calc_dep_failures || calc_conflict_failures);" and the number of changes it makes. */
  ghost function Settle(info: Info, m: Menu): (r: (Menu, nat))
    requires Ok(info, m) && HardIsDue(info, m) && NoResets(info)
    ensures Ok(info, r.0) && HardIsDue(info, r.0)
    decreases Measure(info, m)
  {
    CalcDepsShrinks(info, m);
    var (m1, n1) := CalcDeps(info, m);
    if n1 > 0 then
      var (m', n) := Settle(info, m1);
      (m', n1 + n)
    else
      CalcConflictsShrinks(info, m1);
      var (m2, n2) := CalcConflicts(info, m1);
      if n2 > 0 then
        var (m', n) := Settle(info, m2);
        (m', n2 + n)
      else (m2, 0)
  }

  /** The whole loop terminates, making at most four changes a member, and only switches members off. */
  lemma {:induction false} SettleIsLinear(info: Info, m: Menu)
    requires Ok(info, m) && HardIsDue(info, m) && NoResets(info)
    ensures var (m', n) := Settle(info, m);
      n <= 4 * |m.deps| && n <= Measure(info, m) && OnlyOff(m, m')
    decreases Measure(info, m)
  {
    hide CalcDeps, CalcConflicts, HardIsDue, NoResets;
    TotalRankBound(info, m, |m.deps|);
    CalcDepsShrinks(info, m);
    var (m1, n1) := CalcDeps(info, m);
    if n1 > 0 {
      SettleIsLinear(info, m1);
    } else {
      CalcConflictsShrinks(info, m1);
      var (m2, n2) := CalcConflicts(info, m1);
      if n2 > 0 {
        SettleIsLinear(info, m2);
      }
    }
  }

  // ---------- where the loop stops ----------

  /** Every dependency flag says what it should. */
  ghost predicate DepsSettled(info: Info, m: Menu)
    requires Ok(info, m)
  {
    forall i :: 0 <= i < |m.deps| ==>
      (Outside(info.deps[i], false) ==> m.deps[i] == HardFailure) && !DepStale(info, m, i)
  }

  /** Every conflict flag says what it should. */
  ghost predicate ConflictsSettled(info: Info, m: Menu)
    requires Ok(info, m)
  {
    forall i :: 0 <= i < |m.conflicts| ==>
      (Outside(info.conflicts[i], true) ==> m.conflicts[i] == HardFailure) &&
      (m.conflicts[i] == HardFailure || m.conflicts[i] == ConflictFlag(info, m, i))
  }

  ghost predicate Settled(info: Info, m: Menu)
    requires Ok(info, m)
  {
    DepsSettled(info, m) && ConflictsSettled(info, m)
  }

  lemma {:induction false} DepLoopSettles(info: Info, m: Menu)
    requires Ok(info, m)
    requires forall i :: 0 <= i < |m.deps| && Outside(info.deps[i], false) ==> m.deps[i] == HardFailure
    ensures DepsSettled(info, DepLoop(info, m).0)
    ensures DepLoop(info, m).1 == 0 ==> DepLoop(info, m).0 == m
    decreases Measure(info, m)
  {
    var j := FirstStale(info, m, 0);
    if j < |m.deps| {
      DepStepShrinks(info, m, j);
      DepLoopSettles(info, DepStep(info, m, j));
    }
  }

  lemma {:induction false} SweepSettles(info: Info, m: Menu, i: nat)
    requires Ok(info, m) && i <= |m.conflicts|
    ensures var (m', changed) := ConflictSweep(info, m, i);
      && (forall k :: 0 <= k < |m.conflicts| ==> (m'.conflicts[k] == HardFailure <==> m.conflicts[k] == HardFailure))
      && (forall k :: 0 <= k < i ==> m'.conflicts[k] == m.conflicts[k])
      && (!changed ==> m'.enabled == m.enabled && m'.deps == m.deps)
      && (!changed ==> forall k :: i <= k < |m.conflicts| ==>
           m'.conflicts[k] == HardFailure || m'.conflicts[k] == ConflictFlag(info, m', k))
    decreases |m.conflicts| - i
  {
    if i < |m.conflicts| {
      if m.conflicts[i] == HardFailure {
        SweepSettles(info, m, i + 1);
      } else {
        SweepSettles(info, m.(conflicts := m.conflicts[i := ConflictFlag(info, m, i)]), i + 1);
      }
    }
  }

  lemma {:induction false} ConflictLoopSettles(info: Info, m: Menu)
    requires Ok(info, m)
    requires forall i :: 0 <= i < |m.conflicts| && Outside(info.conflicts[i], true) ==> m.conflicts[i] == HardFailure
    ensures ConflictsSettled(info, ConflictLoop(info, m).0)
    ensures ConflictLoop(info, m).1 == 0 ==>
      ConflictLoop(info, m).0.enabled == m.enabled && ConflictLoop(info, m).0.deps == m.deps
    decreases Measure(info, m)
  {
    SweepShrinks(info, m, 0);
    SweepSettles(info, m, 0);
    var (m1, changed) := ConflictSweep(info, m, 0);
    if changed {
      ConflictLoopSettles(info, m1);
    }
  }

  /** When the whole loop exits, every flag of every member says what it should. */
  lemma {:induction false} SettleSettles(info: Info, m: Menu)
    requires Ok(info, m) && HardIsDue(info, m) && NoResets(info)
    ensures Settled(info, Settle(info, m).0)
    decreases Measure(info, m)
  {
    hide DepLoop, ConflictLoop, HardIsDue, NoResets, Measure, Bad, HardBad;
    CalcDepsShrinks(info, m);
    var (m1, n1) := CalcDeps(info, m);
    if n1 > 0 {
      SettleSettles(info, m1);
    } else {
      CalcConflictsShrinks(info, m1);
      var (m2, n2) := CalcConflicts(info, m1);
      if n2 > 0 {
        SettleSettles(info, m2);
      } else {
        DepLoopSettles(info, ExternalDeps(info, m));
        ConflictLoopSettles(info, ExternalConflicts(info, m1));
        DepsSettledDepends(info, m1, m2);
      }
    }
  }

  lemma {:induction false} DepsSettledDepends(info: Info, m: Menu, m': Menu)
    requires Ok(info, m) && Ok(info, m') && m'.enabled == m.enabled && m'.deps == m.deps
    requires DepsSettled(info, m)
    ensures DepsSettled(info, m')
  {
    forall i | 0 <= i < |m.deps| ensures DepFlag(info, m', i) == DepFlag(info, m, i) {
      assert forall k :: 0 <= k < |info.deps[i]| ==>
        Broken(info, m', i, info.deps[i][k]) == Broken(info, m, i, info.deps[i][k]);
      assert forall k :: 0 <= k < |info.deps[i]| ==>
        HardLink(info, m', i, info.deps[i][k]) == HardLink(info, m, i, info.deps[i][k]);
    }
  }

  // ---------- the loop stops exactly when no member resets ----------

  lemma {:induction false} SettledHardSpreads(info: Info, m: Menu, i: nat, k: nat)
    requires Ok(info, m) && DepsSettled(info, m) && i < |m.deps| && HardWithin(info, i, k)
    ensures m.deps[i] == HardFailure
    decreases k
  {
    if !Outside(info.deps[i], false) {
      var l :| 0 <= l < |info.deps[i]| && info.deps[i][l].Internal? && info.deps[i][l].member != i &&
        HardWithin(info, info.deps[i][l].member, k - 1);
      SettledHardSpreads(info, m, info.deps[i][l].member, k - 1);
      assert HardLink(info, m, i, info.deps[i][l]);
    }
  }

  /** With a resetting member, every call of calc_dep_failures reports a change, whatever the state. */
  lemma {:induction false} ResetsAlwaysChange(info: Info, m: Menu, i: nat)
    requires Ok(info, m) && i < |m.deps| && Resets(info, i)
    ensures CalcDeps(info, m).1 > 0
  {
    var m1 := ExternalDeps(info, m);
    DepLoopSettles(info, m1);
    var k: nat :| HardWithin(info, i, k);
    SettledHardSpreads(info, DepLoop(info, m1).0, i, k);
    assert m1.deps[i] != HardFailure;
  }

  /** The loop leaves its condition false after fewer than `fuel` iterations. */
  ghost predicate StopsWithin(info: Info, m: Menu, fuel: nat)
    requires Ok(info, m)
    decreases fuel
  {
    fuel > 0 &&
    var (m1, n1) := CalcDeps(info, m);
    if n1 > 0 then StopsWithin(info, m1, fuel - 1)
    else
      var (m2, n2) := CalcConflicts(info, m1);
      n2 == 0 || StopsWithin(info, m2, fuel - 1)
  }

  lemma {:induction false} StopsWithinMeasure(info: Info, m: Menu, fuel: nat)
    requires Ok(info, m) && HardIsDue(info, m) && NoResets(info) && fuel > Measure(info, m)
    ensures StopsWithin(info, m, fuel)
    decreases fuel
  {
    hide CalcDeps, CalcConflicts, HardIsDue, NoResets, Measure;
    CalcDepsShrinks(info, m);
    var (m1, n1) := CalcDeps(info, m);
    if n1 > 0 {
      StopsWithinMeasure(info, m1, fuel - 1);
    } else {
      CalcConflictsShrinks(info, m1);
      var (m2, n2) := CalcConflicts(info, m1);
      if n2 > 0 {
        StopsWithinMeasure(info, m2, fuel - 1);
      }
    }
  }

  lemma {:induction false} ResetsNeverStop(info: Info, m: Menu, i: nat, fuel: nat)
    requires Ok(info, m) && i < |m.deps| && Resets(info, i)
    ensures !StopsWithin(info, m, fuel)
    decreases fuel
  {
    hide CalcDeps, CalcConflicts, Resets;
    if fuel > 0 {
      ResetsAlwaysChange(info, m, i);
      var m1 := CalcDeps(info, m).0;
      assert |m1.deps| == |info.deps|;
      ResetsNeverStop(info, m1, i, fuel - 1);
    }
  }

  /** A member whose outside dependency is met, depending on one whose is not: from no state does the loop stop. */
  lemma {:induction false} NeverStopsHere(info: Info, m: Menu, fuel: nat)
    requires info == Info([[External(true), Internal(1)], [External(false)]], [[], []])
    requires Ok(info, m)
    ensures !NoResets(info) && !StopsWithin(info, m, fuel)
  {
    assert info.deps[1][0] == External(false) && info.deps[0][0] == External(true) && info.deps[0][1] == Internal(1);
    assert HardWithin(info, 1, 0);
    assert HardWithin(info, 0, 1);
    assert Resets(info, 0);
    ResetsNeverStop(info, m, 0, fuel);
  }

  /** The loop terminates exactly when no member with met outside dependencies
      depends on something that can never be had; then within 4n + 1 iterations. */
  lemma {:induction false} StopsIffNoResets(info: Info, m: Menu)
    requires Ok(info, m) && HardIsDue(info, m)
    ensures NoResets(info) <==> exists fuel: nat :: StopsWithin(info, m, fuel)
    ensures NoResets(info) ==> StopsWithin(info, m, 4 * |m.deps| + 1)
  {
    hide StopsWithin, Resets, HardIsDue;
    if NoResets(info) {
      TotalRankBound(info, m, |m.deps|);
      StopsWithinMeasure(info, m, 4 * |m.deps| + 1);
    } else {
      var i :| 0 <= i < |info.deps| && Resets(info, i);
      forall fuel: nat ensures !StopsWithin(info, m, fuel) {
        ResetsNeverStop(info, m, i, fuel);
      }
    }
  }

  // ---------- what a settled menu promises ----------

  /** `path` follows inside dependencies. */
  ghost predicate DependencyPath(info: Info, path: seq<nat>) {
    && path != []
    && (forall k :: 0 <= k < |path| ==> path[k] < |info.deps|)
    && (forall k :: 0 < k < |path| ==> Internal(path[k]) in info.deps[path[k - 1]])
  }

  /** Written out as to be built. */
  predicate Built(m: Menu, i: nat)
    requires i < |m.enabled| == |m.deps| == |m.conflicts|
  {
    m.enabled[i] && m.deps[i] == NoFailure && m.conflicts[i] == NoFailure
  }

  lemma {:induction false} CleanMeansAvailable(info: Info, m: Menu, i: nat)
    requires Ok(info, m) && DepsSettled(info, m) && i < |m.deps| && m.deps[i] == NoFailure
    ensures forall l :: l in info.deps[i] ==>
      if l.External? then l.met else m.enabled[l.member] && m.deps[l.member] == NoFailure
  {
    assert !Outside(info.deps[i], false);
    forall l | l in info.deps[i]
      ensures if l.External? then l.met else m.enabled[l.member] && m.deps[l.member] == NoFailure
    {
      var k :| 0 <= k < |info.deps[i]| && info.deps[i][k] == l;
      if l.Internal? {
        assert !Broken(info, m, i, info.deps[i][k]);
      }
    }
  }

  /** In a settled menu, everything a built member needs, directly or through other
      members, is switched on, free of dependency failures and met outside the menu. */
  lemma {:induction false} BuiltClosureIsClean(info: Info, m: Menu, path: seq<nat>)
    requires Ok(info, m) && DepsSettled(info, m)
    requires DependencyPath(info, path) && Built(m, path[0])
    ensures var i := path[|path| - 1];
      m.enabled[i] && m.deps[i] == NoFailure && forall l :: l in info.deps[i] && l.External? ==> l.met
    decreases |path|
  {
    var n := |path|;
    if n > 1 {
      BuiltClosureIsClean(info, m, path[..n - 1]);
      CleanMeansAvailable(info, m, path[n - 2]);
    }
    CleanMeansAvailable(info, m, path[n - 1]);
  }

  /** What a built member needs is built itself if and only if no conflict outside the menu rules
      it out and nothing it conflicts with is on: its own flag is not its dependent's. */
  lemma {:induction false} ClosureIsBuilt(info: Info, m: Menu, path: seq<nat>)
    requires Ok(info, m) && HardIsDue(info, m) && Settled(info, m)
    requires DependencyPath(info, path) && Built(m, path[0])
    ensures var i := path[|path| - 1];
      Built(m, i) <==> !Outside(info.conflicts[i], true) && !Clash(info, m, i)
  {
    BuiltClosureIsClean(info, m, path);
    hide DepsSettled, DependencyPath;
  }

  // ---------- nothing is switched off without need ----------

  /** Members that are on, clean, and need nothing outside the set; none of them has a conflict to be raised. */
  ghost predicate Supported(info: Info, m: Menu, s: set<nat>)
    requires Ok(info, m)
  {
    forall i :: i in s ==>
      && i < |m.deps| && m.enabled[i] && m.deps[i] == NoFailure && !Outside(info.deps[i], false)
      && (forall k :: 0 <= k < |info.deps[i]| && info.deps[i][k].Internal? ==> info.deps[i][k].member in s)
      && (m.conflicts[i] == NoFailure ==> !Clash(info, m, i))
  }

  lemma {:induction false} SupportedIsNotBad(info: Info, m: Menu, s: set<nat>, i: nat)
    requires Ok(info, m) && Supported(info, m, s) && i in s
    ensures !Bad(info, m, i) && !HardBad(info, m, i)
  {
    HardBadIsBad(info, m, i);
  }

  lemma {:induction false} DepLoopKeepsSupported(info: Info, m: Menu, s: set<nat>)
    requires Ok(info, m) && Supported(info, m, s)
    ensures Supported(info, DepLoop(info, m).0, s)
    decreases Measure(info, m)
  {
    var j := FirstStale(info, m, 0);
    if j < |m.deps| {
      DepStepShrinks(info, m, j);
      var m' := DepStep(info, m, j);
      if j in s {
        SupportedIsNotBad(info, m, s, j);
      }
      forall i | i in s ensures Clash(info, m', i) ==> Clash(info, m, i) {
        OnlyOffKeepsBad(info, m, m', i);
      }
      DepLoopKeepsSupported(info, m', s);
    }
  }

  lemma {:induction false} SweepKeepsSupported(info: Info, m: Menu, i: nat, s: set<nat>)
    requires Ok(info, m) && Supported(info, m, s) && i <= |m.conflicts|
    ensures Supported(info, ConflictSweep(info, m, i).0, s)
    decreases |m.conflicts| - i
  {
    if i == |m.conflicts| {
    } else if m.conflicts[i] == HardFailure {
      SweepKeepsSupported(info, m, i + 1, s);
    } else {
      var flag := ConflictFlag(info, m, i);
      var m1 := m.(conflicts := m.conflicts[i := flag]);
      var changed := flag != m.conflicts[i] && flag != NoFailure;
      var m2 := if changed then m1.(enabled := m.enabled[i := false]) else m1;
      forall k | k in s ensures Clash(info, m2, k) ==> Clash(info, m, k) {
        OnlyOffKeepsBad(info, m, m2, k);
      }
      if !changed {
        SweepKeepsSupported(info, m1, i + 1, s);
      }
    }
  }

  lemma {:induction false} ConflictLoopKeepsSupported(info: Info, m: Menu, s: set<nat>)
    requires Ok(info, m) && Supported(info, m, s)
    ensures Supported(info, ConflictLoop(info, m).0, s)
    decreases Measure(info, m)
  {
    SweepShrinks(info, m, 0);
    SweepKeepsSupported(info, m, 0, s);
    var (m1, changed) := ConflictSweep(info, m, 0);
    if changed {
      ConflictLoopKeepsSupported(info, m1, s);
    }
  }

  lemma {:induction false} ExternalsKeepSupported(info: Info, m: Menu, s: set<nat>)
    requires Ok(info, m) && HardIsDue(info, m) && Supported(info, m, s)
    ensures Ok(info, ExternalDeps(info, m)) && Supported(info, ExternalDeps(info, m), s)
    ensures Ok(info, ExternalConflicts(info, m)) && Supported(info, ExternalConflicts(info, m), s)
  {
    forall i | i in s
      ensures Clash(info, ExternalDeps(info, m), i) == Clash(info, m, i) == Clash(info, ExternalConflicts(info, m), i)
    {
      assert forall link ::
        Clashes(ExternalDeps(info, m), link) == Clashes(m, link) == Clashes(ExternalConflicts(info, m), link);
    }
  }

  /** Settling switches off no member of a set that supports itself. */
  lemma {:induction false} SettleKeepsSupported(info: Info, m: Menu, s: set<nat>)
    requires Ok(info, m) && HardIsDue(info, m) && NoResets(info) && Supported(info, m, s)
    ensures Supported(info, Settle(info, m).0, s)
    decreases Measure(info, m)
  {
    hide DepLoop, ConflictLoop, HardIsDue, NoResets, Measure, Supported;
    CalcDepsShrinks(info, m);
    ExternalsKeepSupported(info, m, s);
    DepLoopKeepsSupported(info, ExternalDeps(info, m), s);
    var (m1, n1) := CalcDeps(info, m);
    if n1 > 0 {
      SettleKeepsSupported(info, m1, s);
    } else {
      CalcConflictsShrinks(info, m1);
      ExternalsKeepSupported(info, m1, s);
      ConflictLoopKeepsSupported(info, ExternalConflicts(info, m1), s);
      var (m2, n2) := CalcConflicts(info, m1);
      if n2 > 0 {
        SettleKeepsSupported(info, m2, s);
      }
    }
  }

  /** Conversely, in a settled menu the members that are on, clean and without conflicts
      support themselves whenever everything they need is without conflicts too. */
  lemma {:induction false} SettledIsSupported(info: Info, m: Menu, s: set<nat>)
    requires Ok(info, m) && Settled(info, m)
    requires forall i :: i in s ==> i < |m.deps| && Built(m, i)
    requires forall i, k :: i in s && 0 <= k < |info.deps[i]| && info.deps[i][k].Internal? ==>
      info.deps[i][k].member in s
    ensures Supported(info, m, s)
  {
  }

  // ---------- the operations ----------

  /** Inside dependencies have no cycles: `depth` decreases along them. */
  ghost predicate Acyclic(info: Info, depth: seq<nat>) {
    |depth| == |info.deps| && LinksOk(info.deps) &&
    forall i, k :: 0 <= i < |info.deps| && 0 <= k < |info.deps[i]| && info.deps[i][k].Internal? ==>
      depth[info.deps[i][k].member] < depth[i]
  }

  /** What every operation may rely on. */
  ghost predicate Ready(info: Info, m: Menu, depth: seq<nat>) {
    Ok(info, m) && HardIsDue(info, m) && NoResets(info) && Acyclic(info, depth)
  }

  function Switched(m: Menu, i: nat, on: bool): Menu
    requires i < |m.enabled|
  {
    m.(enabled := m.enabled[i := on])
  }

  /** The loop of enable_member over the dependencies of `i` from the `k`-th on: whether all could be had. */
  ghost function EnableDeps(info: Info, m: Menu, i: nat, k: nat, depth: seq<nat>): (r: (Menu, bool))
    requires Ready(info, m, depth) && i < |m.enabled| && k <= |info.deps[i]|
    ensures Ready(info, r.0, depth)
    decreases depth[i], 0, |info.deps[i]| - k
  {
    if k == |info.deps[i]| then (m, true)
    else
      var link := info.deps[i][k];
      if link.External? || m.enabled[link.member] then EnableDeps(info, m, i, k + 1, depth)
      else if m.conflicts[link.member] != NoFailure || m.deps[link.member] == HardFailure then (m, false)
      else
        var (m', can) := EnableMember(info, m, link.member, depth);
        if can then EnableDeps(info, m', i, k + 1, depth) else (m', false)
  }

  /** enable_member: switch `i` on together with what it needs, then settle; or switch it off. */
  ghost function EnableMember(info: Info, m: Menu, i: nat, depth: seq<nat>): (r: (Menu, bool))
    requires Ready(info, m, depth) && i < |m.enabled|
    ensures Ready(info, r.0, depth)
    decreases depth[i], 1
  {
    var (m', can) := EnableDeps(info, m, i, 0, depth);
    if can then (Settle(info, Switched(m', i, true)).0, true) else (Switched(m', i, false), false)
  }

  predicate HardBlocked(m: Menu, i: nat)
    requires i < |m.deps| == |m.conflicts|
  {
    m.deps[i] == HardFailure || m.conflicts[i] == HardFailure
  }

  ghost function Toggle(info: Info, m: Menu, i: nat, depth: seq<nat>): (r: Menu)
    requires Ready(info, m, depth) && i < |m.enabled|
    ensures Ready(info, r, depth)
  {
    if HardBlocked(m, i) then m
    else if m.enabled[i] then Settle(info, Switched(m, i, false)).0
    else Settle(info, EnableMember(info, m, i, depth).0).0
  }

  ghost function SetEnabled(info: Info, m: Menu, i: nat, depth: seq<nat>): (r: Menu)
    requires Ready(info, m, depth) && i < |m.enabled|
    ensures Ready(info, r, depth)
  {
    if HardBlocked(m, i) || m.enabled[i] then m
    else Settle(info, EnableMember(info, m, i, depth).0).0
  }

  ghost function ClearEnabled(info: Info, m: Menu, i: nat, depth: seq<nat>): (r: Menu)
    requires Ready(info, m, depth) && i < |m.enabled|
    ensures Ready(info, r, depth)
  {
    if !m.enabled[i] then m else Settle(info, Switched(m, i, false)).0
  }

  /** The loop of set_all over members `lo` to `hi` of a category, before the final settling. */
  ghost function SetRange(info: Info, m: Menu, lo: nat, hi: nat, val: bool, depth: seq<nat>): (r: Menu)
    requires Ready(info, m, depth) && lo <= hi <= |m.enabled|
    ensures Ready(info, r, depth)
    decreases hi - lo
  {
    if lo == hi then m
    else if m.enabled[lo] == val || HardBlocked(m, lo) then SetRange(info, m, lo + 1, hi, val, depth)
    else if val then SetRange(info, EnableMember(info, m, lo, depth).0, lo + 1, hi, val, depth)
    else SetRange(info, Switched(m, lo, false), lo + 1, hi, val, depth)
  }

  ghost function SetAll(info: Info, m: Menu, lo: nat, hi: nat, val: bool, depth: seq<nat>): (r: Menu)
    requires Ready(info, m, depth) && lo <= hi <= |m.enabled|
    ensures Ready(info, r, depth)
  {
    Settle(info, SetRange(info, m, lo, hi, val, depth)).0
  }

  /** A user's action on one member or on the members `lo` to `hi` of a category. */
  datatype Action = DoToggle(i: nat) | DoSet(i: nat) | DoClear(i: nat) | DoAll(lo: nat, hi: nat, val: bool)

  ghost predicate Applies(info: Info, a: Action) {
    match a
    case DoAll(lo, hi, val) => lo <= hi <= |info.deps|
    case _ => a.i < |info.deps|
  }

  ghost function Do(info: Info, m: Menu, a: Action, depth: seq<nat>): (r: Menu)
    requires Ready(info, m, depth) && Applies(info, a)
    ensures Ready(info, r, depth)
  {
    match a
    case DoToggle(i) => Toggle(info, m, i, depth)
    case DoSet(i) => SetEnabled(info, m, i, depth)
    case DoClear(i) => ClearEnabled(info, m, i, depth)
    case DoAll(lo, hi, val) => SetAll(info, m, lo, hi, val, depth)
  }

  ghost function DoEach(info: Info, m: Menu, acts: seq<Action>, depth: seq<nat>): (r: Menu)
    requires Ready(info, m, depth)
    requires forall k :: 0 <= k < |acts| ==> Applies(info, acts[k])
    ensures Ready(info, r, depth)
    decreases |acts|
  {
    if acts == [] then m else DoEach(info, Do(info, m, acts[0], depth), acts[1..], depth)
  }

  /** Every sequence of user actions, each of which terminates, leaves a settled menu settled. */
  lemma {:induction false} ActionsKeepSettled(info: Info, m: Menu, acts: seq<Action>, depth: seq<nat>)
    requires Ready(info, m, depth) && Settled(info, m)
    requires forall k :: 0 <= k < |acts| ==> Applies(info, acts[k])
    ensures Settled(info, DoEach(info, m, acts, depth))
    decreases |acts|
  {
    hide Settled, Ready, Settle, EnableMember, SetRange;
    if acts != [] {
      DoKeepsSettled(info, m, acts[0], depth);
      ActionsKeepSettled(info, Do(info, m, acts[0], depth), acts[1..], depth);
    }
  }

  lemma {:induction false} DoKeepsSettled(info: Info, m: Menu, a: Action, depth: seq<nat>)
    requires Ready(info, m, depth) && Settled(info, m) && Applies(info, a)
    ensures Settled(info, Do(info, m, a, depth))
  {
    hide Settled, EnableMember, SetRange, Settle;
    match a
    case DoToggle(i) =>
      if !HardBlocked(m, i) {
        SettleSettles(info, if m.enabled[i] then Switched(m, i, false) else EnableMember(info, m, i, depth).0);
      }
    case DoSet(i) =>
      if !HardBlocked(m, i) && !m.enabled[i] {
        SettleSettles(info, EnableMember(info, m, i, depth).0);
      }
    case DoClear(i) =>
      if m.enabled[i] {
        SettleSettles(info, Switched(m, i, false));
      }
    case DoAll(lo, hi, val) =>
      SettleSettles(info, SetRange(info, m, lo, hi, val, depth));
  }

  // ---------- exclusive categories ----------

  /** A category in which every member conflicts with every other; its members depend
      on nothing in the menu. They may conflict with other members of the menu as well. */
  ghost predicate Exclusive(info: Info, c: set<nat>) {
    |info.conflicts| == |info.deps| &&
    forall i :: i in c ==>
      && i < |info.deps|
      && (forall k :: 0 <= k < |info.deps[i]| ==> info.deps[i][k].External?)
      && (forall j :: j in c && j != i ==> Internal(j) in info.conflicts[i])
  }

  ghost predicate AtMostOne(m: Menu, c: set<nat>) {
    forall i, j :: i in c && j in c && i < |m.enabled| && j < |m.enabled| && m.enabled[i] && m.enabled[j] ==> i == j
  }

  /** No member of the category that is on has its conflict flag raised. */
  ghost predicate NoneFlagged(m: Menu, c: set<nat>) {
    forall k :: k in c && k < |m.enabled| == |m.conflicts| && m.enabled[k] ==> m.conflicts[k] == NoFailure
  }

  /** Nothing can switch `x` off: it is on and needs no member, and its conflict flag is
      raised already or has no cause. */
  ghost predicate Safe(info: Info, m: Menu, x: nat)
    requires Ok(info, m)
  {
    && x < |m.deps| && m.enabled[x] && m.deps[x] != SoftFailure
    && (forall k :: 0 <= k < |info.deps[x]| ==> info.deps[x][k].External?)
    && (m.conflicts[x] == NoFailure ==> !Clash(info, m, x))
  }

  /** A conflict can still switch `x` off, if it is on. */
  ghost predicate Exposed(info: Info, m: Menu, x: nat)
    requires Ok(info, m)
  {
    x < |m.deps| && (m.enabled[x] ==> m.conflicts[x] == NoFailure && !Outside(info.conflicts[x], true))
  }

  lemma {:induction false} DepLoopKeepsFate(info: Info, m: Menu, x: nat)
    requires Ok(info, m)
    ensures Safe(info, m, x) ==> Safe(info, DepLoop(info, m).0, x)
    ensures Exposed(info, m, x) ==> Exposed(info, DepLoop(info, m).0, x)
    decreases Measure(info, m)
  {
    var j := FirstStale(info, m, 0);
    if x < |m.deps| && j < |m.deps| {
      DepStepShrinks(info, m, j);
      HardBadIsBad(info, m, j);
      OnlyOffKeepsBad(info, m, DepStep(info, m, j), x);
      DepLoopKeepsFate(info, DepStep(info, m, j), x);
    }
  }

  lemma {:induction false} SweepKeepsFate(info: Info, m: Menu, i: nat, x: nat)
    requires Ok(info, m) && i <= |m.conflicts|
    ensures Safe(info, m, x) ==> Safe(info, ConflictSweep(info, m, i).0, x)
    ensures Exposed(info, m, x) ==> Exposed(info, ConflictSweep(info, m, i).0, x)
    decreases |m.conflicts| - i
  {
    if i == |m.conflicts| || x >= |m.deps| {
    } else if m.conflicts[i] == HardFailure {
      SweepKeepsFate(info, m, i + 1, x);
    } else {
      var flag := ConflictFlag(info, m, i);
      var m1 := m.(conflicts := m.conflicts[i := flag]);
      var changed := flag != m.conflicts[i] && flag != NoFailure;
      var m2 := if changed then m1.(enabled := m.enabled[i := false]) else m1;
      OnlyOffKeepsBad(info, m, m2, x);
      if !changed {
        SweepKeepsFate(info, m1, i + 1, x);
      }
    }
  }

  lemma {:induction false} ConflictLoopKeepsFate(info: Info, m: Menu, x: nat)
    requires Ok(info, m)
    ensures Safe(info, m, x) ==> Safe(info, ConflictLoop(info, m).0, x)
    ensures Exposed(info, m, x) ==> Exposed(info, ConflictLoop(info, m).0, x)
    decreases Measure(info, m)
  {
    hide Safe, Exposed;
    SweepShrinks(info, m, 0);
    SweepKeepsFate(info, m, 0, x);
    var (m1, changed) := ConflictSweep(info, m, 0);
    if changed {
      ConflictLoopKeepsFate(info, m1, x);
    }
  }

  lemma {:induction false} ExternalsKeepFate(info: Info, m: Menu, x: nat)
    requires Ok(info, m) && HardIsDue(info, m)
    ensures Ok(info, ExternalDeps(info, m)) && Ok(info, ExternalConflicts(info, m))
    ensures Safe(info, m, x) ==> Safe(info, ExternalDeps(info, m), x) && Safe(info, ExternalConflicts(info, m), x)
    ensures Exposed(info, m, x) ==>
      Exposed(info, ExternalDeps(info, m), x) && Exposed(info, ExternalConflicts(info, m), x)
  {
    if x < |m.deps| {
      ClashDependsOnEnabled(info, m, ExternalDeps(info, m), x);
      ClashDependsOnEnabled(info, m, ExternalConflicts(info, m), x);
    }
  }

  lemma {:induction false} ClashDependsOnEnabled(info: Info, m: Menu, m': Menu, x: nat)
    requires Ok(info, m) && Ok(info, m') && m'.enabled == m.enabled && x < |m.conflicts|
    ensures Clash(info, m', x) == Clash(info, m, x)
  {
    assert forall link :: Clashes(m', link) == Clashes(m, link);
  }

  /** Settling leaves a safe member safe and an exposed one exposed. */
  lemma {:induction false} SettleKeepsFate(info: Info, m: Menu, x: nat)
    requires Ok(info, m) && HardIsDue(info, m) && NoResets(info)
    ensures Safe(info, m, x) ==> Safe(info, Settle(info, m).0, x)
    ensures Exposed(info, m, x) ==> Exposed(info, Settle(info, m).0, x)
    decreases Measure(info, m)
  {
    hide DepLoop, ConflictLoop, HardIsDue, NoResets, Measure, Safe, Exposed;
    CalcDepsShrinks(info, m);
    ExternalsKeepFate(info, m, x);
    DepLoopKeepsFate(info, ExternalDeps(info, m), x);
    var (m1, n1) := CalcDeps(info, m);
    if n1 > 0 {
      SettleKeepsFate(info, m1, x);
    } else {
      CalcConflictsShrinks(info, m1);
      ExternalsKeepFate(info, m1, x);
      ConflictLoopKeepsFate(info, ExternalConflicts(info, m1), x);
      var (m2, n2) := CalcConflicts(info, m1);
      if n2 > 0 {
        SettleKeepsFate(info, m2, x);
      }
    }
  }

  lemma {:induction false} ClashesWith(info: Info, m: Menu, i: nat, j: nat)
    requires Ok(info, m) && i < |m.conflicts| && j < |m.enabled| && Internal(j) in info.conflicts[i] && m.enabled[j]
    ensures Clash(info, m, i)
  {
    var k :| 0 <= k < |info.conflicts[i]| && info.conflicts[i][k] == Internal(j);
    assert Clashes(m, info.conflicts[i][k]);
  }

  /** Only a conflict with itself can be new to a member that is switched on. */
  lemma {:induction false} ClashAfterSwitch(info: Info, m: Menu, w: nat)
    requires Ok(info, m) && w < |m.deps| && Internal(w) !in info.conflicts[w]
    ensures Clash(info, Switched(m, w, true), w) ==> Clash(info, m, w)
  {
    var m1 := Switched(m, w, true);
    if Clash(info, m1, w) {
      var k :| 0 <= k < |info.conflicts[w]| && Clashes(m1, info.conflicts[w][k]);
      assert info.conflicts[w][k] in info.conflicts[w];
      assert Clashes(m, info.conflicts[w][k]);
    }
  }

  /** In a settled menu, what becomes of each member of the category when `w` is switched on:
      `w` stays on unless its own conflict is with itself and newly found; another member that
      was on goes off exactly when its conflict flag was not raised before. */
  lemma {:induction false} SwitchingOn(info: Info, m: Menu, c: set<nat>, w: nat)
    requires Ok(info, m) && HardIsDue(info, m) && NoResets(info) && Settled(info, m) && Exclusive(info, c)
    requires w in c && !m.enabled[w] && !HardBlocked(m, w)
    ensures Ok(info, Switched(m, w, true)) && HardIsDue(info, Switched(m, w, true))
    ensures var m' := Settle(info, Switched(m, w, true)).0;
      && (m'.enabled[w] <==> m.conflicts[w] == SoftFailure || Internal(w) !in info.conflicts[w])
      && forall k :: k in c && k != w ==> (m'.enabled[k] <==> m.enabled[k] && m.conflicts[k] != NoFailure)
  {
    var m1 := Switched(m, w, true);
    SettleSettles(info, m1);
    SettleIsLinear(info, m1);
    var m' := Settle(info, m1).0;
    SettleKeepsFate(info, m1, w);
    DepsInCategory(info, m, c, w);
    hide Settle, DepsSettled, NoResets, HardBlocked;
    if m.conflicts[w] == SoftFailure {
      assert Safe(info, m1, w);
    } else if Internal(w) !in info.conflicts[w] {
      ClashAfterSwitch(info, m, w);
      assert Safe(info, m1, w);
    } else {
      assert Exposed(info, m1, w);
      if m'.enabled[w] {
        ClashesWith(info, m', w, w);
      }
    }
    forall k | k in c && k != w ensures m'.enabled[k] <==> m.enabled[k] && m.conflicts[k] != NoFailure {
      OthersGoOff(info, m, c, w, k, m');
    }
  }

  lemma {:induction false} DepsInCategory(info: Info, m: Menu, c: set<nat>, k: nat)
    requires Ok(info, m) && Settled(info, m) && Exclusive(info, c) && k in c
    ensures m.deps[k] != SoftFailure
    ensures m.deps[k] == HardFailure || !Outside(info.deps[k], false)
    ensures m.conflicts[k] == HardFailure || !Outside(info.conflicts[k], true)
  {
    HardBadIsBad(info, m, k);
  }

  lemma {:induction false} OthersGoOff(info: Info, m: Menu, c: set<nat>, w: nat, k: nat, m': Menu)
    requires Ok(info, m) && HardIsDue(info, m) && NoResets(info) && Settled(info, m) && Exclusive(info, c)
    requires w in c && k in c && k != w && !HardBlocked(m, w)
    requires Ok(info, Switched(m, w, true)) && HardIsDue(info, Switched(m, w, true))
    requires m' == Settle(info, Switched(m, w, true)).0 && Settled(info, m') && OnlyOff(Switched(m, w, true), m')
    requires m.conflicts[w] == SoftFailure ==> m'.enabled[w]
    ensures m'.enabled[k] <==> m.enabled[k] && m.conflicts[k] != NoFailure
  {
    var m1 := Switched(m, w, true);
    if m.enabled[k] {
      ClashesWith(info, m, w, k);
      assert m.conflicts[w] == SoftFailure;
      SettleKeepsFate(info, m1, k);
      DepsInCategory(info, m, c, k);
      if m.conflicts[k] == NoFailure {
        assert Exposed(info, m1, k);
        ClashesWith(info, m', k, w);
      } else {
        assert Safe(info, m1, k);
      }
    }
  }

  /** Toggling or setting a member of an exclusive category leaves at most one member on if and
      only if the member that was on, if any, had no conflict flag raised; then the last one wins. */
  lemma {:induction false} LastEnabledWins(info: Info, m: Menu, w: nat, depth: seq<nat>, c: set<nat>)
    requires Ready(info, m, depth) && Exclusive(info, c) && Settled(info, m) && AtMostOne(m, c)
    requires w in c && !m.enabled[w] && !HardBlocked(m, w)
    ensures Toggle(info, m, w, depth) == SetEnabled(info, m, w, depth)
    ensures AtMostOne(Toggle(info, m, w, depth), c) <==> NoneFlagged(m, c)
    ensures Internal(w) !in info.conflicts[w] ==>
      ((forall k :: k in c ==> (Toggle(info, m, w, depth).enabled[k] <==> k == w)) <==> NoneFlagged(m, c))
  {
    EnableInCategory(info, m, w, depth, c);
    var m' := Toggle(info, m, w, depth);
    if k :| k in c && m.enabled[k] && m.conflicts[k] != NoFailure {
      ClashesWith(info, m, w, k);
      assert m'.enabled[k] && m'.enabled[w];
    }
  }

  /** Toggling a member is switching it on and settling once. */
  lemma {:induction false} EnableInCategory(info: Info, m: Menu, w: nat, depth: seq<nat>, c: set<nat>)
    requires Ready(info, m, depth) && Exclusive(info, c) && Settled(info, m)
    requires w in c && !m.enabled[w] && !HardBlocked(m, w)
    ensures Ok(info, Switched(m, w, true)) && HardIsDue(info, Switched(m, w, true))
    ensures var m' := Settle(info, Switched(m, w, true)).0;
      && EnableMember(info, m, w, depth) == (m', true)
      && Toggle(info, m, w, depth) == SetEnabled(info, m, w, depth) == m'
      && (m'.enabled[w] <==> m.conflicts[w] == SoftFailure || Internal(w) !in info.conflicts[w])
      && forall k :: k in c && k != w ==> (m'.enabled[k] <==> m.enabled[k] && m.conflicts[k] != NoFailure)
  {
    SwitchingOn(info, m, c, w);
    NoDependencies(info, m, w, 0, depth);
    SettleSettles(info, Switched(m, w, true));
    SettledIsStable(info, Settle(info, Switched(m, w, true)).0);
  }

  lemma {:induction false} NoDependencies(info: Info, m: Menu, i: nat, k: nat, depth: seq<nat>)
    requires Ready(info, m, depth) && i < |m.enabled| && k <= |info.deps[i]|
    requires forall x :: 0 <= x < |info.deps[i]| ==> info.deps[i][x].External?
    ensures EnableDeps(info, m, i, k, depth) == (m, true)
    decreases |info.deps[i]| - k
  {
    if k < |info.deps[i]| {
      NoDependencies(info, m, i, k + 1, depth);
    }
  }

  // ---------- where an exclusive category fails ----------

  /** Whenever a member `i` of the category conflicts with a member `x` elsewhere that is on and
      safe, switching on `i` and then any other member `j` leaves both on: the flag of `i` is
      raised already when `j` comes. */
  lemma {:induction false} OutsideConflictBreaks(info: Info, m: Menu, i: nat, j: nat, x: nat, depth: seq<nat>,
      c: set<nat>)
    requires Ready(info, m, depth) && Exclusive(info, c) && Settled(info, m)
    requires i in c && j in c && i != j && forall k :: k in c ==> !m.enabled[k]
    requires !HardBlocked(m, i) && !HardBlocked(m, j)
    requires x !in c && Safe(info, Switched(m, i, true), x) && Internal(x) in info.conflicts[i]
    ensures !AtMostOne(DoEach(info, m, [DoToggle(i), DoToggle(j)], depth), c)
  {
    hide NoResets, HardIsDue, DoEach, HardBlocked, Settle, EnableMember, Toggle;
    ClashesWith(info, m, i, x);
    BlockedIsRuledOut(info, m, c, i);
    BlockedIsRuledOut(info, m, c, j);
    EnableInCategory(info, m, i, depth, c);
    var m0, m1 := Switched(m, i, true), Toggle(info, m, i, depth);
    SettleSettles(info, m0);
    SettleKeepsFate(info, m0, x);
    BlockedIsRuledOut(info, m1, c, j);
    ClashesWith(info, m1, i, x);
    LastEnabledWins(info, m1, j, depth, c);
    ToggleTwo(info, m, i, j, depth);
  }

  lemma {:induction false} BlockedIsRuledOut(info: Info, m: Menu, c: set<nat>, k: nat)
    requires Ok(info, m) && HardIsDue(info, m) && Settled(info, m) && Exclusive(info, c) && k in c
    ensures HardBlocked(m, k) <==> Outside(info.deps[k], false) || Outside(info.conflicts[k], true)
    ensures !HardBlocked(m, k) ==> m.conflicts[k] == ConflictFlag(info, m, k)
  {
    if m.deps[k] == HardFailure {
      var n: nat :| HardWithin(info, k, n);
    }
  }

  lemma {:induction false} ToggleTwo(info: Info, m: Menu, i: nat, j: nat, depth: seq<nat>)
    requires Ready(info, m, depth) && i < |info.deps| && j < |info.deps|
    ensures DoEach(info, m, [DoToggle(i), DoToggle(j)], depth) == Toggle(info, Toggle(info, m, i, depth), j, depth)
  {
    hide Toggle, HardIsDue, NoResets;
    var m1 := Toggle(info, m, i, depth);
    var acts := [DoToggle(i), DoToggle(j)];
    assert acts[1..] == [DoToggle(j)];
    assert DoEach(info, m1, [DoToggle(j)], depth) == DoEach(info, Do(info, m1, DoToggle(j), depth), [], depth);
  }

  /** Members 0 and 1 exclude each other; member 0 also conflicts with member 2, which is on. */
  ghost predicate OutsideConflict(info: Info, m: Menu) {
    && info == Info([[], [], []], [[Internal(1), Internal(2)], [Internal(0)], []])
    && m == Menu([false, false, true], [NoFailure, NoFailure, NoFailure], [SoftFailure, NoFailure, NoFailure])
  }

  lemma {:induction false} OutsideConflictLeavesTwoOn(info: Info, m: Menu, depth: seq<nat>)
    requires OutsideConflict(info, m) && depth == [0, 0, 0]
    ensures Ready(info, m, depth) && Exclusive(info, {0, 1}) && NoneRuledOut(info, m, {0, 1})
    ensures Settled(info, m) && AtMostOne(m, {0, 1})
    ensures !AtMostOne(DoEach(info, m, [DoToggle(0), DoToggle(1)], depth), {0, 1})
  {
    assert info.conflicts[0][0] == Internal(1) && info.conflicts[0][1] == Internal(2);
    hide Settle, DoEach, EnableMember, Toggle, Ready, Exclusive, AtMostOne, NoneRuledOut, Settled;
    SmallMenu(info, m, depth);
    ClashesWith(info, m, 0, 2);
    OutsideConflictSettled(info, m);
    hide *;
    OutsideConflictBreaks(info, m, 0, 1, 2, depth, {0, 1});
  }

  lemma {:induction false} OutsideConflictSettled(info: Info, m: Menu)
    requires Ok(info, m) && OutsideConflict(info, m) && Clash(info, m, 0)
    ensures (DepsSettled(info, m) ==> Settled(info, m)) && AtMostOne(m, {0, 1}) && NoneRuledOut(info, m, {0, 1})
    ensures !HardBlocked(m, 0) && !HardBlocked(m, 1)
    ensures Ok(info, Switched(m, 0, true)) && Safe(info, Switched(m, 0, true), 2)
  {
  }

  /** Members 0 and 1 exclude each other; 0 is on although a conflict outside the menu rules it out. */
  ghost predicate RuledOutIsOn(info: Info, m: Menu) {
    && info == Info([[], []], [[External(true), Internal(1)], [Internal(0)]])
    && m == Menu([true, false], [NoFailure, NoFailure], [HardFailure, SoftFailure])
  }

  /** A ruled-out member that is on is passed over when another one is switched on. */
  lemma {:induction false} RuledOutMemberStaysOn(info: Info, m: Menu, depth: seq<nat>)
    requires RuledOutIsOn(info, m) && depth == [0, 0]
    ensures Ready(info, m, depth) && Exclusive(info, {0, 1}) && Enclosed(info, {0, 1})
    ensures Settled(info, m) && AtMostOne(m, {0, 1})
    ensures !AtMostOne(Toggle(info, m, 1, depth), {0, 1})
  {
    assert info.conflicts[0][0] == External(true) && info.conflicts[0][1] == Internal(1);
    SmallMenu(info, m, depth);
    ClashesWith(info, m, 1, 0);
    RuledOutIsSettled(info, m);
    hide *;
    LastEnabledWins(info, m, 1, depth, {0, 1});
  }

  lemma {:induction false} RuledOutIsSettled(info: Info, m: Menu)
    requires Ok(info, m) && RuledOutIsOn(info, m) && Clash(info, m, 1)
    ensures ConflictsSettled(info, m) && AtMostOne(m, {0, 1}) && Enclosed(info, {0, 1})
    ensures !HardBlocked(m, 1) && !NoneFlagged(m, {0, 1})
  {
  }

  lemma {:induction false} SmallMenu(info: Info, m: Menu, depth: seq<nat>)
    requires Ok(info, m) && |depth| == |info.deps|
    requires forall i :: 0 <= i < |info.deps| ==> info.deps[i] == [] && m.deps[i] == NoFailure
    requires forall i :: 0 <= i < |m.conflicts| && m.conflicts[i] == HardFailure ==> Outside(info.conflicts[i], true)
    ensures Ready(info, m, depth) && DepsSettled(info, m)
    ensures 1 < |info.deps| && Internal(1) in info.conflicts[0] && Internal(0) in info.conflicts[1] ==>
      Exclusive(info, {0, 1})
  {
  }

  // ---------- a dependency that is on and not built ----------

  /** Member 0 depends on 1, which conflicts with 2, which is on. */
  ghost predicate OneWayConflict(info: Info, m: Menu) {
    && info == Info([[Internal(1)], [], []], [[], [Internal(2)], []])
    && m == Menu([false, false, true], [SoftFailure, NoFailure, NoFailure], [NoFailure, SoftFailure, NoFailure])
  }

  /** Switching on 1 and then 0 leaves 0 built and what it depends on flagged. */
  lemma {:induction false} FlaggedDependencyIsOn(info: Info, m: Menu, depth: seq<nat>)
    requires OneWayConflict(info, m) && depth == [1, 0, 0]
    ensures Ready(info, m, depth) && Settled(info, m)
    ensures var m' := DoEach(info, m, [DoToggle(1), DoToggle(0)], depth);
      Built(m', 0) && m'.enabled[1] && !Built(m', 1)
  {
    OneWaySettled(info, m, depth);
    hide Settle, DoEach, EnableMember, Toggle, Settled, Ready, NoResets, Measure;
    OneWayFirst(info, m, depth);
    OneWaySecond(info, Toggle(info, m, 1, depth), depth);
    ToggleTwo(info, m, 1, 0, depth);
  }

  lemma {:induction false} NothingOutside(info: Info, i: nat, k: nat)
    requires LinksOk(info.deps) && i < |info.deps|
    requires forall j, l :: 0 <= j < |info.deps| && 0 <= l < |info.deps[j]| ==> info.deps[j][l].Internal?
    ensures !HardWithin(info, i, k)
    decreases k
  {
    if k > 0 {
      forall l | 0 <= l < |info.deps[i]| ensures !HardWithin(info, info.deps[i][l].member, k - 1) {
        NothingOutside(info, info.deps[i][l].member, k - 1);
      }
    }
  }

  lemma {:induction false} NoResetsInside(info: Info)
    requires LinksOk(info.deps)
    requires forall j, l :: 0 <= j < |info.deps| && 0 <= l < |info.deps[j]| ==> info.deps[j][l].Internal?
    ensures NoResets(info) && forall i :: 0 <= i < |info.deps| ==> !TrulyHard(info, i)
  {
    forall i, k: nat | 0 <= i < |info.deps| ensures !HardWithin(info, i, k) {
      NothingOutside(info, i, k);
    }
  }

  lemma {:induction false} OneWaySettled(info: Info, m: Menu, depth: seq<nat>)
    requires OneWayConflict(info, m) && depth == [1, 0, 0]
    ensures Ready(info, m, depth) && Settled(info, m)
  {
    NoResetsInside(info);
    OneWayDeps(info, m);
    OneWayConflicts(info, m);
    hide NoResets, TrulyHard, DepsSettled, ConflictsSettled;
  }

  lemma {:induction false} OneWayDeps(info: Info, m: Menu)
    requires OneWayConflict(info, m)
    ensures Ok(info, m) && DepsSettled(info, m)
  {
    assert Broken(info, m, 0, info.deps[0][0]);
    assert DepFlag(info, m, 1) == NoFailure && DepFlag(info, m, 2) == NoFailure;
  }

  lemma {:induction false} OneWayConflicts(info: Info, m: Menu)
    requires OneWayConflict(info, m)
    ensures Ok(info, m) && ConflictsSettled(info, m)
  {
    assert info.conflicts[1][0] == Internal(2);
    ClashesWith(info, m, 1, 2);
  }

  lemma {:induction false} OneWayFirst(info: Info, m: Menu, depth: seq<nat>)
    requires OneWayConflict(info, m) && Ready(info, m, depth) && Settled(info, m)
    ensures var m' := Toggle(info, m, 1, depth);
      Settled(info, m') && m'.enabled == [false, true, true]
  {
    hide NoResets, HardIsDue, Toggle, EnableMember, SetEnabled, Settle, Settled;
    EnableInCategory(info, m, 1, depth, {1});
    var m1 := Switched(m, 1, true);
    SettleSettles(info, m1);
    SettleIsLinear(info, m1);
    SettleKeepsFate(info, m1, 2);
  }

  lemma {:induction false} OneWaySecond(info: Info, m: Menu, depth: seq<nat>)
    requires info == Info([[Internal(1)], [], []], [[], [Internal(2)], []])
    requires Ready(info, m, depth) && Settled(info, m) && m.enabled == [false, true, true]
    ensures var m' := Toggle(info, m, 0, depth);
      Built(m', 0) && m'.enabled[1] && !Built(m', 1)
  {
    OneWayFlags(info, m);
    OneWayEnabled(info, m, depth);
    var m1 := Switched(m, 0, true);
    SwitchedIsReady(info, m, 0, true, depth);
    OneWaySafe(info, m1);
    hide NoResets, HardIsDue, Settle, Settled;
    SettleSettles(info, m1);
    SettleKeepsSupported(info, m1, {0, 1});
    SettleKeepsFate(info, m1, 2);
    OneWayEnd(info, Settle(info, m1).0);
  }

  lemma {:induction false} OneWayFlags(info: Info, m: Menu)
    requires info == Info([[Internal(1)], [], []], [[], [Internal(2)], []])
    requires Ok(info, m) && HardIsDue(info, m) && Settled(info, m) && m.enabled == [false, true, true]
    ensures m.deps[0] == m.deps[1] == m.deps[2] == NoFailure
    ensures m.conflicts[0] == NoFailure && m.conflicts[1] == SoftFailure && m.conflicts[2] == NoFailure
  {
    NoResetsInside(info);
    ClashesWith(info, m, 1, 2);
    hide NoResets, TrulyHard;
    HardBadIsBad(info, m, 0);
    assert DepFlag(info, m, 1) == NoFailure && DepFlag(info, m, 2) == NoFailure;
    assert !Broken(info, m, 0, Internal(1));
  }

  lemma {:induction false} OneWaySafe(info: Info, m: Menu)
    requires info == Info([[Internal(1)], [], []], [[], [Internal(2)], []])
    requires Ok(info, m) && m.enabled == [true, true, true]
    requires m.deps[0] == m.deps[1] == m.deps[2] == NoFailure && m.conflicts[1] == SoftFailure
    ensures Supported(info, m, {0, 1}) && Safe(info, m, 2)
  {
  }

  lemma {:induction false} OneWayEnabled(info: Info, m: Menu, depth: seq<nat>)
    requires info == Info([[Internal(1)], [], []], [[], [Internal(2)], []])
    requires Ready(info, m, depth) && m.enabled == [false, true, true] && !HardBlocked(m, 0)
    ensures Ready(info, Switched(m, 0, true), depth)
    ensures Toggle(info, m, 0, depth) == Settle(info, Switched(m, 0, true)).0
  {
    SwitchedIsReady(info, m, 0, true, depth);
    hide NoResets, HardIsDue, Settle;
    assert EnableDeps(info, m, 0, 1, depth) == (m, true);
    assert EnableDeps(info, m, 0, 0, depth) == (m, true);
    SettleSettles(info, Switched(m, 0, true));
    SettledIsStable(info, Settle(info, Switched(m, 0, true)).0);
  }

  lemma {:induction false} OneWayEnd(info: Info, m: Menu)
    requires info == Info([[Internal(1)], [], []], [[], [Internal(2)], []])
    requires Ok(info, m) && HardIsDue(info, m) && Settled(info, m)
    requires Supported(info, m, {0, 1}) && Safe(info, m, 2)
    ensures Built(m, 0) && m.enabled[1] && !Built(m, 1)
  {
    hide DepsSettled, TrulyHard;
    ClashesWith(info, m, 1, 2);
  }

  // ---------- exclusive categories over a whole run ----------

  /** The members of the category conflict with nothing in the menu but each other. */
  ghost predicate Enclosed(info: Info, c: set<nat>) {
    forall i, k :: i in c && i < |info.conflicts| && 0 <= k < |info.conflicts[i]| && info.conflicts[i][k].Internal? ==>
      info.conflicts[i][k].member in c && info.conflicts[i][k].member != i
  }

  /** No member that is on is ruled out by a conflict outside the menu. */
  ghost predicate NoneRuledOut(info: Info, m: Menu, c: set<nat>) {
    forall i :: i in c && i < |info.conflicts| == |m.enabled| && m.enabled[i] ==> !Outside(info.conflicts[i], true)
  }

  /** What stays true of an enclosed category between operations. */
  ghost predicate Tidy(info: Info, m: Menu, c: set<nat>)
    requires Ok(info, m)
  {
    Settled(info, m) && AtMostOne(m, c) && NoneRuledOut(info, m, c)
  }

  lemma {:induction false} TidyIsUnflagged(info: Info, m: Menu, c: set<nat>)
    requires Ok(info, m) && HardIsDue(info, m) && Exclusive(info, c) && Enclosed(info, c) && Tidy(info, m, c)
    ensures NoneFlagged(m, c)
  {
  }

  lemma {:induction false} OnlyOffKeepsTidy(info: Info, m: Menu, m': Menu, c: set<nat>)
    requires Ok(info, m) && Ok(info, m') && OnlyOff(m, m') && Settled(info, m')
    requires AtMostOne(m, c) && NoneRuledOut(info, m, c)
    ensures Tidy(info, m', c)
  {
  }

  /** Enabling switches on nothing but what lies below in the dependency order. */
  lemma {:induction false} EnableDepsBelow(info: Info, m: Menu, i: nat, k: nat, depth: seq<nat>)
    requires Ready(info, m, depth) && i < |m.enabled| && k <= |info.deps[i]|
    ensures forall x :: 0 <= x < |m.enabled| && EnableDeps(info, m, i, k, depth).0.enabled[x] ==>
      m.enabled[x] || depth[x] < depth[i]
    decreases depth[i], 0, |info.deps[i]| - k
  {
    hide Settle, HardIsDue, NoResets;
    if k < |info.deps[i]| {
      var link := info.deps[i][k];
      if link.External? || m.enabled[link.member] {
        EnableDepsBelow(info, m, i, k + 1, depth);
      } else if m.conflicts[link.member] != NoFailure || m.deps[link.member] == HardFailure {
      } else {
        EnableMemberBelow(info, m, link.member, depth);
        var (m', can) := EnableMember(info, m, link.member, depth);
        if can {
          EnableDepsBelow(info, m', i, k + 1, depth);
        }
      }
    }
  }

  lemma {:induction false} EnableMemberBelow(info: Info, m: Menu, i: nat, depth: seq<nat>)
    requires Ready(info, m, depth) && i < |m.enabled|
    ensures forall x :: 0 <= x < |m.enabled| && EnableMember(info, m, i, depth).0.enabled[x] ==>
      m.enabled[x] || depth[x] <= depth[i]
    decreases depth[i], 1
  {
    hide NoResets, EnableDeps;
    EnableDepsBelow(info, m, i, 0, depth);
    var (m', can) := EnableDeps(info, m, i, 0, depth);
    if can {
      SettleIsLinear(info, Switched(m', i, true));
    }
  }

  lemma {:induction false} EnableDepsTidy(info: Info, m: Menu, i: nat, k: nat, depth: seq<nat>, c: set<nat>)
    requires Ready(info, m, depth) && Exclusive(info, c) && Enclosed(info, c) && Tidy(info, m, c)
    requires i < |m.enabled| && k <= |info.deps[i]|
    ensures Tidy(info, EnableDeps(info, m, i, k, depth).0, c)
    decreases depth[i], 0, |info.deps[i]| - k
  {
    hide Settle, HardIsDue, NoResets, Tidy, Enclosed;
    if k < |info.deps[i]| {
      var link := info.deps[i][k];
      if link.External? || m.enabled[link.member] {
        EnableDepsTidy(info, m, i, k + 1, depth, c);
      } else if m.conflicts[link.member] != NoFailure || m.deps[link.member] == HardFailure {
      } else {
        EnableMemberTidy(info, m, link.member, depth, c);
        var (m', can) := EnableMember(info, m, link.member, depth);
        if can {
          EnableDepsTidy(info, m', i, k + 1, depth, c);
        }
      }
    }
  }

  lemma {:induction false} EnableOwnTidy(info: Info, m: Menu, i: nat, depth: seq<nat>, c: set<nat>)
    requires Ready(info, m, depth) && Exclusive(info, c) && Enclosed(info, c) && Tidy(info, m, c)
    requires i in c && !m.enabled[i] && !HardBlocked(m, i)
    ensures Tidy(info, EnableMember(info, m, i, depth).0, c)
  {
    TidyIsUnflagged(info, m, c);
    EnableInCategory(info, m, i, depth, c);
    DepsInCategory(info, m, c, i);
    hide EnableMember, Toggle, SetEnabled, Settle;
    SettleSettles(info, Switched(m, i, true));
  }

  /** Enabling any member of the menu keeps an enclosed category tidy. */
  lemma {:induction false} EnableMemberTidy(info: Info, m: Menu, i: nat, depth: seq<nat>, c: set<nat>)
    requires Ready(info, m, depth) && Exclusive(info, c) && Enclosed(info, c) && Tidy(info, m, c) && i < |m.enabled|
    requires !m.enabled[i] && !HardBlocked(m, i)
    ensures Tidy(info, EnableMember(info, m, i, depth).0, c)
    decreases depth[i], 1
  {
    if i in c {
      EnableOwnTidy(info, m, i, depth, c);
    } else {
      EnableDepsTidy(info, m, i, 0, depth, c);
      EnableDepsBelow(info, m, i, 0, depth);
      var (m', can) := EnableDeps(info, m, i, 0, depth);
      if can {
        var m1 := Switched(m', i, true);
        SettleSettles(info, m1);
        SettleIsLinear(info, m1);
        OnlyOffKeepsTidy(info, m1, Settle(info, m1).0, c);
      } else {
        assert Switched(m', i, false) == m';
      }
    }
  }

  lemma {:induction false} SweepOfSettled(info: Info, m: Menu, i: nat)
    requires Ok(info, m) && ConflictsSettled(info, m) && i <= |m.conflicts|
    ensures ConflictSweep(info, m, i) == (m, false)
    decreases |m.conflicts| - i
  {
    if i < |m.conflicts| {
      assert m.conflicts[i] != HardFailure ==> m.(conflicts := m.conflicts[i := ConflictFlag(info, m, i)]) == m;
      SweepOfSettled(info, m, i + 1);
    }
  }

  /** Settling a settled menu does nothing. */
  lemma {:induction false} SettledIsStable(info: Info, m: Menu)
    requires Ok(info, m) && HardIsDue(info, m) && NoResets(info) && Settled(info, m)
    ensures Settle(info, m) == (m, 0)
  {
    forall i | 0 <= i < |m.deps| ensures ExternalDep(info.deps[i], m.deps[i]) == m.deps[i] {
      assert !Resets(info, i);
    }
    assert ExternalDeps(info, m) == m;
    assert CalcDeps(info, m) == (m, 0);
    assert ExternalConflicts(info, m) == m;
    SweepOfSettled(info, m, 0);
    assert CalcConflicts(info, m) == (m, 0);
  }

  lemma {:induction false} SetRangeTidy(info: Info, m: Menu, lo: nat, hi: nat, depth: seq<nat>, c: set<nat>)
    requires Ready(info, m, depth) && Exclusive(info, c) && Enclosed(info, c) && Tidy(info, m, c)
    requires lo <= hi <= |m.enabled|
    ensures Tidy(info, SetRange(info, m, lo, hi, true, depth), c)
    decreases hi - lo
  {
    hide Tidy, Exclusive, Enclosed, EnableMember, HardIsDue, NoResets;
    if lo == hi {
    } else if m.enabled[lo] || HardBlocked(m, lo) {
      SetRangeTidy(info, m, lo + 1, hi, depth, c);
    } else {
      EnableMemberTidy(info, m, lo, depth, c);
      SetRangeTidy(info, EnableMember(info, m, lo, depth).0, lo + 1, hi, depth, c);
    }
  }

  lemma {:induction false} ClearRangeOnlyOff(info: Info, m: Menu, lo: nat, hi: nat, depth: seq<nat>)
    requires Ready(info, m, depth) && lo <= hi <= |m.enabled|
    ensures OnlyOff(m, SetRange(info, m, lo, hi, false, depth))
    decreases hi - lo
  {
    if lo == hi {
    } else if !m.enabled[lo] || HardBlocked(m, lo) {
      ClearRangeOnlyOff(info, m, lo + 1, hi, depth);
    } else {
      ClearRangeOnlyOff(info, Switched(m, lo, false), lo + 1, hi, depth);
    }
  }

  lemma {:induction false} SettledOffTidy(info: Info, m: Menu, m1: Menu, c: set<nat>)
    requires Ok(info, m) && Tidy(info, m, c) && OnlyOff(m, m1)
    requires Ok(info, m1) && HardIsDue(info, m1) && NoResets(info)
    ensures Tidy(info, Settle(info, m1).0, c)
  {
    SettleSettles(info, m1);
    SettleIsLinear(info, m1);
    OnlyOffTransitive(m, m1, Settle(info, m1).0);
    OnlyOffKeepsTidy(info, m, Settle(info, m1).0, c);
  }

  lemma {:induction false} DoKeepsTidy(info: Info, m: Menu, a: Action, depth: seq<nat>, c: set<nat>)
    requires Ready(info, m, depth) && Exclusive(info, c) && Enclosed(info, c) && Tidy(info, m, c) && Applies(info, a)
    ensures Tidy(info, Do(info, m, a, depth), c)
  {
    hide Tidy, Exclusive, EnableMember, SetRange, Settle, EnableDeps;
    match a
    case DoToggle(i) =>
      if HardBlocked(m, i) {
      } else if m.enabled[i] {
        SettledOffTidy(info, m, Switched(m, i, false), c);
      } else {
        EnableMemberTidy(info, m, i, depth, c);
        SettledOffTidy(info, EnableMember(info, m, i, depth).0, EnableMember(info, m, i, depth).0, c);
      }
    case DoSet(i) =>
      if !HardBlocked(m, i) && !m.enabled[i] {
        EnableMemberTidy(info, m, i, depth, c);
        SettledOffTidy(info, EnableMember(info, m, i, depth).0, EnableMember(info, m, i, depth).0, c);
      }
    case DoClear(i) =>
      if m.enabled[i] {
        SettledOffTidy(info, m, Switched(m, i, false), c);
      }
    case DoAll(lo, hi, val) =>
      var m1 := SetRange(info, m, lo, hi, val, depth);
      if val {
        SetRangeTidy(info, m, lo, hi, depth, c);
        SettledOffTidy(info, m1, m1, c);
      } else {
        ClearRangeOnlyOff(info, m, lo, hi, depth);
        SettledOffTidy(info, m, m1, c);
      }
  }

  /** In a category without conflicts elsewhere, whose members that are on at the start are not
      ruled out, whatever the user does anywhere in the menu never leaves two members on. */
  lemma {:induction false} ActionsKeepAtMostOne(info: Info, m: Menu, acts: seq<Action>, depth: seq<nat>, c: set<nat>)
    requires Ready(info, m, depth) && Exclusive(info, c) && Enclosed(info, c) && Tidy(info, m, c)
    requires forall k :: 0 <= k < |acts| ==> Applies(info, acts[k])
    ensures AtMostOne(DoEach(info, m, acts, depth), c)
    decreases |acts|
  {
    hide Ready, Exclusive, Enclosed, Do;
    if acts != [] {
      DoKeepsTidy(info, m, acts[0], depth, c);
      ActionsKeepAtMostOne(info, Do(info, m, acts[0], depth), acts[1..], depth, c);
    }
  }

  /** In any settled menu, two members of an exclusive category that are both on are both flagged,
      and so neither is written out as to be built. */
  lemma {:induction false} BothOnNeitherBuilt(info: Info, m: Menu, c: set<nat>, i: nat, j: nat)
    requires Ok(info, m) && Settled(info, m) && Exclusive(info, c) && i in c && j in c && i != j
    requires m.enabled[i] && m.enabled[j]
    ensures !Built(m, i) && !Built(m, j)
  {
    ClashesWith(info, m, i, j);
    ClashesWith(info, m, j, i);
  }

  /** Whatever the user does, at most one member of an exclusive category is written out as to be
      built, also where two are on. */
  lemma {:induction false} AtMostOneBuilt(info: Info, m: Menu, acts: seq<Action>, depth: seq<nat>, c: set<nat>)
    requires Ready(info, m, depth) && Settled(info, m) && Exclusive(info, c)
    requires forall k :: 0 <= k < |acts| ==> Applies(info, acts[k])
    ensures var m' := DoEach(info, m, acts, depth);
      forall i, j :: i in c && j in c && Built(m', i) && Built(m', j) ==> i == j
  {
    ActionsKeepSettled(info, m, acts, depth);
    var m' := DoEach(info, m, acts, depth);
    hide Ready, DoEach, Settled;
    forall i, j | i in c && j in c && Built(m', i) && Built(m', j) ensures i == j {
      if i != j {
        BothOnNeitherBuilt(info, m', c, i, j);
      }
    }
  }

  // ---------- the solver in place ----------

  lemma {:induction false} PrefixOutside(links: seq<Link>, k: nat, met: bool)
    requires k < |links|
    ensures Outside(links[..k + 1], met) <==> Outside(links[..k], met) || links[k] == External(met)
    ensures HasExternal(links[..k + 1]) <==> HasExternal(links[..k]) || links[k].External?
    ensures Outside(links[..k + 1], met) ==> Outside(links, met)
  {
    assert forall x :: 0 <= x < k ==> links[..k + 1][x] == links[..k][x];
    assert links[..k + 1][k] == links[k];
    var prefix := links[..k + 1];
    assert forall x :: 0 <= x < |prefix| ==> prefix[x] == links[x];
  }

  class Members {
    const info: Info
    const enabled: array<bool>
    const depsfailed: array<Failure>
    const conflictsfailed: array<Failure>

    ghost function State(): Menu
      reads enabled, depsfailed, conflictsfailed
    {
      Menu(enabled[..], depsfailed[..], conflictsfailed[..])
    }

    ghost predicate Valid()
      reads enabled, depsfailed, conflictsfailed
    {
      depsfailed != conflictsfailed && Ok(info, State())
    }

    /** The outside pass of calc_dep_failures for one member. */
    method CheckOutsideDeps(i: nat)
      requires Valid() && i < depsfailed.Length
      modifies depsfailed
      ensures Valid() && State() ==
        old(State()).(deps := old(State()).deps[i := ExternalDep(info.deps[i], old(State()).deps[i])])
    {
      var links := info.deps[i];
      var oldFailure := depsfailed[i];
      ghost var m := State();
      var k := 0;
      while k < |links|
        invariant 0 <= k <= |links| && Valid()
        invariant State() == m.(deps := m.deps[i := depsfailed[i]])
        invariant !Outside(links[..k], false)
        invariant depsfailed[i] == if HasExternal(links[..k]) then NoFailure else oldFailure
      {
        PrefixOutside(links, k, false);
        if links[k].External? {
          depsfailed[i] := HardFailure;
          if links[k].met {
            depsfailed[i] := NoFailure;
          }
          if depsfailed[i] != NoFailure {
            break;
          }
        }
        k := k + 1;
      }
      assert k == |links| ==> links[..k] == links;
      if oldFailure == SoftFailure && depsfailed[i] != HardFailure {
        depsfailed[i] := SoftFailure;
      }
    }

    /** Recomputes the dependency flag of one member; a change switches the member off. */
    method CheckInsideDeps(i: nat) returns (changed: bool)
      requires Valid() && i < depsfailed.Length && depsfailed[i] != HardFailure
      modifies enabled, depsfailed
      ensures Valid() && changed == DepStale(info, old(State()), i)
      ensures State() == if changed then DepStep(info, old(State()), i) else old(State())
    {
      var links := info.deps[i];
      var oldFailure := depsfailed[i];
      ghost var m := State();
      depsfailed[i] := NoFailure;
      var k := 0;
      while k < |links|
        invariant 0 <= k <= |links| && Valid()
        invariant State() == m.(deps := m.deps[i := depsfailed[i]])
        invariant forall x :: 0 <= x < k ==> !HardLink(info, m, i, links[x])
        invariant depsfailed[i] ==
          if exists x :: 0 <= x < k && Broken(info, m, i, links[x]) then SoftFailure else NoFailure
      {
        if links[k].Internal? {
          var d := links[k].member;
          if depsfailed[d] == HardFailure {
            assert HardLink(info, m, i, links[k]);
            depsfailed[i] := HardFailure;
            break;
          } else if depsfailed[d] == SoftFailure {
            depsfailed[i] := SoftFailure;
          } else if !enabled[d] {
            depsfailed[i] := SoftFailure;
          }
        }
        k := k + 1;
      }
      assert depsfailed[i] == DepFlag(info, m, i);
      changed := depsfailed[i] != oldFailure;
      if changed {
        enabled[i] := false;
      }
    }

    /** calc_dep_failures. */
    method CalcDepFailures() returns (result: bool, ghost changes: nat)
      requires Valid()
      modifies enabled, depsfailed
      ensures Valid() && (State(), changes) == CalcDeps(info, old(State())) && result == (changes > 0)
    {
      hide DepLoop, Measure, ExternalDep;
      ghost var m := State();
      for i := 0 to depsfailed.Length
        invariant Valid() && enabled[..] == m.enabled && conflictsfailed[..] == m.conflicts
        invariant forall x :: 0 <= x < depsfailed.Length ==>
          depsfailed[x] == if x < i then ExternalDep(info.deps[x], m.deps[x]) else m.deps[x]
      {
        CheckOutsideDeps(i);
      }
      assert State() == ExternalDeps(info, m);
      ghost var m0 := State();
      result, changes := false, 0;
      var changed := true;
      while changed
        invariant Valid() && result == (changes > 0)
        invariant changed ==> DepLoop(info, m0) == (DepLoop(info, State()).0, changes + DepLoop(info, State()).1)
        invariant !changed ==> DepLoop(info, m0) == (State(), changes)
        decreases changed, Measure(info, State())
      {
        changed := DepRound();
        if changed {
          result := true;
          changes := changes + 1;
        }
      }
    }

    /** One round of the do/while loop over dependencies. */
    method DepRound() returns (changed: bool)
      requires Valid()
      modifies enabled, depsfailed
      ensures Valid()
      ensures !changed ==> State() == old(State()) && DepLoop(info, State()) == (State(), 0)
      ensures changed ==> Measure(info, State()) < old(Measure(info, State()))
      ensures changed ==>
        DepLoop(info, old(State())) == (DepLoop(info, State()).0, 1 + DepLoop(info, State()).1)
    {
      ghost var m := State();
      changed := false;
      var i := 0;
      while i < depsfailed.Length
        invariant 0 <= i <= depsfailed.Length && Valid() && !changed && State() == m
        invariant FirstStale(info, m, 0) == FirstStale(info, m, i)
      {
        if depsfailed[i] != HardFailure {
          changed := CheckInsideDeps(i);
          if changed {
            DepStepShrinks(info, m, i);
            break;
          }
        }
        i := i + 1;
      }
    }

    /** The outside pass of calc_conflict_failures for one member. */
    method CheckOutsideConflicts(i: nat)
      requires Valid() && i < conflictsfailed.Length
      modifies conflictsfailed
      ensures Valid() && State() ==
        old(State()).(conflicts :=
          old(State()).conflicts[i := ExternalConflict(info.conflicts[i], old(State()).conflicts[i])])
    {
      var links := info.conflicts[i];
      var oldFailure := conflictsfailed[i];
      ghost var m := State();
      var k := 0;
      while k < |links|
        invariant 0 <= k <= |links| && Valid()
        invariant State() == m.(conflicts := m.conflicts[i := conflictsfailed[i]])
        invariant !Outside(links[..k], true)
        invariant conflictsfailed[i] == if HasExternal(links[..k]) then NoFailure else oldFailure
      {
        PrefixOutside(links, k, true);
        if links[k].External? {
          conflictsfailed[i] := NoFailure;
          if links[k].met {
            conflictsfailed[i] := HardFailure;
          }
          if conflictsfailed[i] != NoFailure {
            break;
          }
        }
        k := k + 1;
      }
      assert k == |links| ==> links[..k] == links;
      if oldFailure == SoftFailure && conflictsfailed[i] != HardFailure {
        conflictsfailed[i] := SoftFailure;
      }
    }

    /** Recomputes the conflict flag of one member; a flag newly raised switches the member off. */
    method CheckInsideConflicts(i: nat) returns (changed: bool)
      requires Valid() && i < conflictsfailed.Length && conflictsfailed[i] != HardFailure
      modifies enabled, conflictsfailed
      ensures Valid()
      ensures var m, flag := old(State()), ConflictFlag(info, old(State()), i);
        && changed == (flag != m.conflicts[i] && flag != NoFailure)
        && State() ==
           (var m' := m.(conflicts := m.conflicts[i := flag]); if changed then Switched(m', i, false) else m')
    {
      var links := info.conflicts[i];
      var oldFailure := conflictsfailed[i];
      ghost var m := State();
      conflictsfailed[i] := NoFailure;
      var k := 0;
      while k < |links|
        invariant 0 <= k <= |links| && Valid()
        invariant State() == m.(conflicts := m.conflicts[i := NoFailure])
        invariant forall x :: 0 <= x < k ==> !Clashes(m, links[x])
      {
        if links[k].Internal? && enabled[links[k].member] {
          assert Clashes(m, links[k]);
          conflictsfailed[i] := SoftFailure;
          break;
        }
        k := k + 1;
      }
      assert conflictsfailed[i] == ConflictFlag(info, m, i);
      changed := conflictsfailed[i] != oldFailure && conflictsfailed[i] != NoFailure;
      if changed {
        enabled[i] := false;
      }
    }

    /** One round of the do/while loop over conflicts. */
    method ConflictRound() returns (changed: bool)
      requires Valid()
      modifies enabled, conflictsfailed
      ensures Valid() && (State(), changed) == ConflictSweep(info, old(State()), 0)
    {
      ghost var m := State();
      changed := false;
      var i := 0;
      while i < conflictsfailed.Length
        invariant 0 <= i <= conflictsfailed.Length && Valid() && !changed
        invariant ConflictSweep(info, m, 0) == ConflictSweep(info, State(), i)
      {
        if conflictsfailed[i] != HardFailure {
          changed := CheckInsideConflicts(i);
          if changed {
            break;
          }
        }
        i := i + 1;
      }
    }

    /** calc_conflict_failures. */
    method CalcConflictFailures() returns (result: bool, ghost changes: nat)
      requires Valid()
      modifies enabled, conflictsfailed
      ensures Valid() && (State(), changes) == CalcConflicts(info, old(State())) && result == (changes > 0)
    {
      hide ConflictSweep, Measure, ExternalConflict;
      ghost var m := State();
      for i := 0 to conflictsfailed.Length
        invariant Valid() && enabled[..] == m.enabled && depsfailed[..] == m.deps
        invariant forall x :: 0 <= x < conflictsfailed.Length ==>
          conflictsfailed[x] == if x < i then ExternalConflict(info.conflicts[x], m.conflicts[x]) else m.conflicts[x]
      {
        CheckOutsideConflicts(i);
      }
      assert State() == ExternalConflicts(info, m);
      ghost var m0 := State();
      result, changes := false, 0;
      var changed := true;
      while changed
        invariant Valid() && result == (changes > 0)
        invariant changed ==>
          ConflictLoop(info, m0) == (ConflictLoop(info, State()).0, changes + ConflictLoop(info, State()).1)
        invariant !changed ==> ConflictLoop(info, m0) == (State(), changes)
        decreases changed, Measure(info, State())
      {
        SweepShrinks(info, State(), 0);
        changed := ConflictRound();
        if changed {
          result := true;
          changes := changes + 1;
        }
      }
    }

    /** "while (calc_dep_failures || calc_conflict_failures);": terminates when no member resets. */
    method SettleAll(ghost depth: seq<nat>) returns (ghost changes: nat)
      requires Valid() && Ready(info, State(), depth)
      modifies enabled, depsfailed, conflictsfailed
      ensures Valid() && (State(), changes) == Settle(info, old(State()))
      ensures changes <= 4 * enabled.Length && Settled(info, State()) && Ready(info, State(), depth)
    {
      hide CalcDeps, CalcConflicts, Measure, NoResets, HardIsDue, Settled;
      ghost var m := State();
      SettleIsLinear(info, m);
      SettleSettles(info, m);
      changes := 0;
      var again := true;
      while again
        invariant Valid() && Ready(info, State(), depth)
        invariant again ==> Settle(info, m) == (Settle(info, State()).0, changes + Settle(info, State()).1)
        invariant !again ==> Settle(info, m) == (State(), changes)
        decreases again, Measure(info, State())
      {
        CalcDepsShrinks(info, State());
        ghost var n;
        again, n := CalcDepFailures();
        if !again {
          CalcConflictsShrinks(info, State());
          again, n := CalcConflictFailures();
        }
        changes := changes + n;
      }
    }

    /** enable_member; members without cyclic dependencies, as `depth` witnesses. */
    method EnableOne(i: nat, ghost depth: seq<nat>) returns (can: bool)
      requires Valid() && Ready(info, State(), depth) && i < enabled.Length
      modifies enabled, depsfailed, conflictsfailed
      ensures Valid() && Ready(info, State(), depth)
      ensures (State(), can) == EnableMember(info, old(State()), i, depth)
      decreases depth[i]
    {
      hide Settle, HardIsDue, NoResets;
      ghost var m := State();
      var links := info.deps[i];
      can := true;
      var k := 0;
      while k < |links|
        invariant 0 <= k <= |links| && Valid() && Ready(info, State(), depth) && can
        invariant EnableDeps(info, m, i, 0, depth) == EnableDeps(info, State(), i, k, depth)
      {
        if links[k].Internal? && !enabled[links[k].member] {
          var d := links[k].member;
          if conflictsfailed[d] != NoFailure || depsfailed[d] == HardFailure {
            can := false;
            break;
          }
          can := EnableOne(d, depth);
          if !can {
            break;
          }
        }
        k := k + 1;
      }
      SwitchedIsReady(info, State(), i, can, depth);
      enabled[i] := can;
      if can {
        ghost var n := SettleAll(depth);
      }
    }

    /** toggle_enabled. */
    method ToggleEnabled(i: nat, ghost depth: seq<nat>)
      requires Valid() && Ready(info, State(), depth) && i < enabled.Length
      modifies enabled, depsfailed, conflictsfailed
      ensures Valid() && State() == Toggle(info, old(State()), i, depth)
    {
      hide Settle, EnableMember, HardIsDue, NoResets;
      if depsfailed[i] == HardFailure || conflictsfailed[i] == HardFailure {
        return;
      }
      if !enabled[i] {
        var can := EnableOne(i, depth);
      } else {
        SwitchedIsReady(info, State(), i, false, depth);
        enabled[i] := false;
      }
      ghost var n := SettleAll(depth);
    }

    /** set_enabled. */
    method SetOne(i: nat, ghost depth: seq<nat>)
      requires Valid() && Ready(info, State(), depth) && i < enabled.Length
      modifies enabled, depsfailed, conflictsfailed
      ensures Valid() && State() == SetEnabled(info, old(State()), i, depth)
    {
      hide Settle, EnableMember, HardIsDue, NoResets;
      if depsfailed[i] == HardFailure || conflictsfailed[i] == HardFailure {
        return;
      }
      if enabled[i] {
        return;
      }
      var can := EnableOne(i, depth);
      ghost var n := SettleAll(depth);
    }

    /** clear_enabled. */
    method ClearOne(i: nat, ghost depth: seq<nat>)
      requires Valid() && Ready(info, State(), depth) && i < enabled.Length
      modifies enabled, depsfailed, conflictsfailed
      ensures Valid() && State() == ClearEnabled(info, old(State()), i, depth)
    {
      hide Settle, HardIsDue, NoResets;
      if !enabled[i] {
        return;
      }
      SwitchedIsReady(info, State(), i, false, depth);
      enabled[i] := false;
      ghost var n := SettleAll(depth);
    }

    /** set_all over the members `lo` to `hi` of one category. */
    method SetCategory(lo: nat, hi: nat, val: bool, ghost depth: seq<nat>)
      requires Valid() && Ready(info, State(), depth) && lo <= hi <= enabled.Length
      modifies enabled, depsfailed, conflictsfailed
      ensures Valid() && State() == SetAll(info, old(State()), lo, hi, val, depth)
    {
      hide Settle, EnableMember, HardIsDue, NoResets;
      ghost var m := State();
      for i := lo to hi
        invariant Valid() && Ready(info, State(), depth)
        invariant SetRange(info, m, lo, hi, val, depth) == SetRange(info, State(), i, hi, val, depth)
      {
        if enabled[i] != val && depsfailed[i] != HardFailure && conflictsfailed[i] != HardFailure {
          if val {
            var can := EnableOne(i, depth);
          } else {
            SwitchedIsReady(info, State(), i, false, depth);
            enabled[i] := false;
          }
        }
      }
      ghost var n := SettleAll(depth);
    }
  }

  lemma {:induction false} SwitchedIsReady(info: Info, m: Menu, i: nat, on: bool, depth: seq<nat>)
    requires Ready(info, m, depth) && i < |m.enabled|
    ensures Ready(info, Switched(m, i, on), depth)
  {
  }
}
