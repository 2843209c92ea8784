/** Superchannels: a master channel and its slaves share one byte stream, dealt out a
    byte per channel per frame. The slaves hang off the master in a `nextslave` list. */
module Superchannel {
  type Chunk = seq<bv8>

  // ---------- the slave lists ----------

  /** The channels from `x` on whose master is `m`. */
  function Slaves(master: seq<nat>, m: nat, x: nat): seq<nat>
    decreases |master| - x
  {
    if x >= |master| then []
    else if master[x] == m then [x] + Slaves(master, m, x + 1)
    else Slaves(master, m, x + 1)
  }

  /** A master and the later channels slaved to it, in order. */
  function Group(master: seq<nat>, m: nat): seq<nat> {
    [m] + Slaves(master, m, m + 1)
  }

  lemma {:induction false} SlavesTurn(master: seq<nat>, m: nat, x: nat)
    ensures (Slaves(master, m, x) ==
      if x >= |master| then [] else (if master[x] == m then [x] else []) + Slaves(master, m, x + 1))
  {
  }

  /** In increasing order, the slaves are exactly the channels from `x` on with that master. */
  lemma {:induction false} SlavesAreThose(master: seq<nat>, m: nat, x: nat)
    ensures var g := Slaves(master, m, x);
      && (forall c :: c in g <==> x <= c < |master| && master[c] == m)
      && forall i, k :: 0 <= i < k < |g| ==> g[i] < g[k]
    decreases |master| - x
  {
    if x < |master| {
      SlavesAreThose(master, m, x + 1);
      var g, rest := Slaves(master, m, x), Slaves(master, m, x + 1);
      if master[x] == m {
        assert g == [x] + rest;
        assert forall k :: 0 <= k < |rest| ==> rest[k] in rest;
      }
    }
  }

  ghost predicate Forward(next: seq<nat>) {
    forall z :: 0 <= z < |next| ==> next[z] == 0 || z < next[z] < |next|
  }

  /** The channels met by following `nextslave` from `z` until it reads 0. */
  function Walk(next: seq<nat>, z: nat): seq<nat>
    requires Forward(next) && z < |next|
    decreases |next| - z
  {
    [z] + if next[z] == 0 then [] else Walk(next, next[z])
  }

  /** recalc_slaves from channel `x` on, `last` being the end of the list so far. */
  function Link(master: seq<nat>, next: seq<nat>, m: nat, last: nat, x: nat): (r: seq<nat>)
    requires last < |next| == |master|
    ensures |r| == |next|
    decreases |master| - x
  {
    if x >= |master| then next[last := 0]
    else if master[x] == m then Link(master, next[last := x], m, x, x + 1)
    else Link(master, next, m, last, x + 1)
  }

  function Recalc(master: seq<nat>, next: seq<nat>, m: nat): (r: seq<nat>)
    requires m < |next| == |master|
    ensures |r| == |next|
  {
    Link(master, next, m, m, m + 1)
  }

  lemma {:induction false} WalkTurn(next: seq<nat>, z: nat)
    requires Forward(next) && z < |next|
    ensures Walk(next, z) == [z] + if next[z] == 0 then [] else Walk(next, next[z])
  {
  }

  /** Relinking keeps links going forward, and changes only those of the new list. */
  lemma {:induction false} LinkFrame(master: seq<nat>, next: seq<nat>, m: nat, last: nat, x: nat)
    requires last < x && last < |next| == |master| && Forward(next)
    ensures var r := Link(master, next, m, last, x);
      && Forward(r)
      && forall i :: 0 <= i < |r| && i != last && (i < x || master[i] != m) ==> r[i] == next[i]
    decreases |master| - x
  {
    if x < |master| {
      if master[x] == m {
        LinkFrame(master, next[last := x], m, x, x + 1);
      } else {
        LinkFrame(master, next, m, last, x + 1);
      }
    }
  }

  lemma {:induction false} LinkWalks(master: seq<nat>, next: seq<nat>, m: nat, last: nat, x: nat)
    requires last < x && last < |next| == |master| && Forward(next)
    ensures var r := Link(master, next, m, last, x);
      && Forward(r)
      && Walk(r, last) == [last] + Slaves(master, m, x)
      && forall i :: 0 <= i < |r| && i != last && (i < x || master[i] != m) ==> r[i] == next[i]
    decreases |master| - x
  {
    LinkFrame(master, next, m, last, x);
    SlavesTurn(master, m, x);
    var r := Link(master, next, m, last, x);
    WalkTurn(r, last);
    hide Slaves, Walk, Forward;
    if x < |master| && master[x] == m {
      assert next[last := x][last] == x;
      LinkStep(master, next, m, last, x);
      LinkWalks(master, next[last := x], m, x, x + 1);
    } else if x < |master| {
      LinkWalks(master, next, m, last, x + 1);
    }
  }

  /** A slave found is the next in the list. */
  lemma {:induction false} LinkStep(master: seq<nat>, next: seq<nat>, m: nat, last: nat, x: nat)
    requires last < x < |next| == |master| && Forward(next) && master[x] == m
    ensures Forward(next[last := x]) && Link(master, next, m, last, x) == Link(master, next[last := x], m, x, x + 1)
    ensures Link(master, next, m, last, x)[last] == x
  {
    LinkFrame(master, next[last := x], m, x, x + 1);
  }

  lemma {:induction false} WalkFrame(next: seq<nat>, next': seq<nat>, z: nat)
    requires Forward(next) && Forward(next') && z < |next| == |next'|
    requires forall k :: k in Walk(next, z) && k < |next| ==> next'[k] == next[k]
    ensures Walk(next', z) == Walk(next, z)
    decreases |next| - z
  {
    WalkTurn(next, z);
    WalkTurn(next', z);
    hide Walk;
    assert z in Walk(next, z);
    if next[z] != 0 {
      WalkFrame(next, next', next[z]);
    }
  }

  lemma {:induction false} SlavesFrame(master: seq<nat>, c: nat, v: nat, m: nat, x: nat)
    requires c < |master| && master[c] != m && v != m
    ensures Slaves(master[c := v], m, x) == Slaves(master, m, x)
    decreases |master| - x
  {
    if x < |master| {
      SlavesFrame(master, c, v, m, x + 1);
    }
  }

  // ---------- configuring a channel ----------

  /** Every slave's master is its own master. */
  ghost predicate Flat(master: seq<nat>) {
    forall x :: 0 <= x < |master| ==> master[x] < |master| && master[master[x]] == master[x]
  }

  ghost predicate Linked(master: seq<nat>, next: seq<nat>)
    requires |master| == |next| && Forward(next)
  {
    forall m {:trigger master[m]} :: 0 <= m < |master| && master[m] == m ==> Walk(next, m) == Group(master, m)
  }

  ghost predicate Consistent(master: seq<nat>, next: seq<nat>) {
    |master| == |next| && Forward(next) && Flat(master) && Linked(master, next)
  }

  datatype Links = Links(master: seq<nat>, next: seq<nat>)

  /** The channel leaves its old master, even when the rest of the request is refused. */
  function Unlink(l: Links, c: nat): (r: Links)
    requires c < |l.master| == |l.next| && l.master[c] < |l.master|
    ensures |r.master| == |l.master| && |r.next| == |l.next|
  {
    if l.master[c] == c then l
    else
      var master := l.master[c := c];
      Links(master, Recalc(master, l.next[c := 0], l.master[c]))
  }

  /** The master and list part of DAHDI_CHANCONFIG. */
  function Configured(l: Links, c: nat, newmaster: nat, accepted: bool): (r: Links)
    requires c < |l.master| == |l.next| && newmaster < |l.master| && l.master[c] < |l.master|
  {
    var u := Unlink(l, c);
    if !accepted then u
    else
      var master := u.master[c := newmaster];
      if newmaster == c then Links(master, u.next) else Links(master, Recalc(master, u.next, newmaster))
  }

  /** Relinking one group leaves the list of any other master alone. */
  lemma {:induction false} OthersKeepTheirLists(master: seq<nat>, next: seq<nat>, m: nat, q: nat)
    requires |master| == |next| && Forward(next) && m < |master| && q < |master|
    requires m != q && master[m] == m && master[q] == q && Walk(next, q) == Group(master, q)
    ensures Forward(Recalc(master, next, m))
    ensures Walk(Recalc(master, next, m), q) == Group(master, q)
  {
    LinkWalks(master, next, m, m, m + 1);
    var r := Recalc(master, next, m);
    SlavesAreThose(master, q, q + 1);
    hide Walk, Link, Slaves;
    WalkFrame(next, r, q);
  }

  lemma {:induction false} RelinkKeeps(master: seq<nat>, next: seq<nat>, m: nat)
    requires |master| == |next| && Forward(next) && Flat(master) && m < |master| && master[m] == m
    requires forall q {:trigger master[q]} :: 0 <= q < |master| && q != m && master[q] == q ==>
      Walk(next, q) == Group(master, q)
    ensures Consistent(master, Recalc(master, next, m))
  {
    LinkWalks(master, next, m, m, m + 1);
    forall q | 0 <= q < |master| && master[q] == q ensures Walk(Recalc(master, next, m), q) == Group(master, q) {
      if q != m {
        OthersKeepTheirLists(master, next, m, q);
      }
    }
  }

  /** When `c` leaves its master, the lists of all other masters stay right. */
  lemma {:induction false} OthersAfterLeaving(l: Links, c: nat, q: nat)
    requires Consistent(l.master, l.next) && c < |l.master| && l.master[c] != c
    requires q < |l.master| && q != l.master[c] && l.master[c := c][q] == q
    ensures Forward(l.next[c := 0]) && Walk(l.next[c := 0], q) == Group(l.master[c := c], q)
  {
    if q == c {
      NoSlaves(l.master[c := c], c, c + 1);
      WalkTurn(l.next[c := 0], c);
    } else {
      SlavesFrame(l.master, c, c, q, q + 1);
      SlavesAreThose(l.master, q, q + 1);
      hide Slaves, Walk;
      WalkFrame(l.next, l.next[c := 0], q);
    }
  }

  lemma {:induction false} UnlinkKeeps(l: Links, c: nat)
    requires Consistent(l.master, l.next) && c < |l.master|
    ensures var u := Unlink(l, c); Consistent(u.master, u.next) && u.master == l.master[c := c]
  {
    var m := l.master[c];
    if m != c {
      var master, next := l.master[c := c], l.next[c := 0];
      assert Forward(next) && Flat(master) && master[m] == m;
      hide Walk, Group, Recalc, Linked, Forward;
      forall q {:trigger master[q]} | 0 <= q < |master| && q != m && master[q] == q
        ensures Walk(next, q) == Group(master, q)
      {
        OthersAfterLeaving(l, c, q);
      }
      RelinkKeeps(master, next, m);
    }
  }

  lemma {:induction false} NoSlaves(master: seq<nat>, c: nat, x: nat)
    requires c < x && forall k :: x <= k < |master| ==> master[k] != c
    ensures Slaves(master, c, x) == []
    decreases |master| - x
  {
    if x < |master| {
      NoSlaves(master, c, x + 1);
    }
  }

  // ---------- the lists after a request ----------

  lemma {:induction false} WalkAbove(next: seq<nat>, z: nat)
    requires Forward(next) && z < |next|
    ensures z in Walk(next, z) && forall x :: x in Walk(next, z) ==> z <= x < |next|
    ensures forall i, k :: 0 <= i < k < |Walk(next, z)| ==> Walk(next, z)[i] < Walk(next, z)[k]
    decreases |next| - z
  {
    WalkTurn(next, z);
    hide Walk;
    if next[z] != 0 {
      WalkAbove(next, next[z]);
      var w, rest := Walk(next, z), Walk(next, next[z]);
      assert w == [z] + rest && forall k :: 0 <= k < |rest| ==> rest[k] in rest;
    }
  }

  /** A list whose link is changed at `cut`, and at no earlier place, is the old one up to there. */
  lemma {:induction false} WalkCut(next: seq<nat>, next': seq<nat>, z: nat, cut: nat, x: nat)
    requires Forward(next) && Forward(next') && z < |next| == |next'| && cut in Walk(next, z)
    requires forall k :: k in Walk(next, z) && k < cut && k < |next| ==> next'[k] == next[k]
    ensures cut < |next'|
    ensures x in Walk(next', z) <==> (x in Walk(next, z) && x < cut) || x in Walk(next', cut)
    decreases |next| - z
  {
    WalkAbove(next, z);
    WalkTurn(next, z);
    WalkTurn(next', z);
    hide Walk;
    if z < cut {
      assert next[z] != 0;
      WalkCut(next, next', next[z], cut, x);
    }
  }

  lemma {:induction false} LinkNone(master: seq<nat>, next: seq<nat>, m: nat, last: nat, x: nat)
    requires last < |next| == |master| && forall k :: x <= k < |master| ==> master[k] != m
    ensures Link(master, next, m, last, x) == next[last := 0]
    decreases |master| - x
  {
    if x < |master| {
      LinkNone(master, next, m, last, x + 1);
    }
  }

  lemma {:induction false} LinkOne(master: seq<nat>, next: seq<nat>, m: nat, last: nat, x: nat, c: nat)
    requires last < |next| == |master| && x <= c < |master|
    requires forall k :: x <= k < |master| ==> (master[k] == m <==> k == c)
    ensures Link(master, next, m, last, x) == next[last := c][c := 0]
    decreases |master| - x
  {
    if x == c {
      LinkNone(master, next[last := c], m, c, c + 1);
    } else {
      LinkOne(master, next, m, last, x + 1, c);
    }
  }

  /** Where a walk from the master `q` gets after channel `c` has been given the master `n`: to its
      group, except that the group of `n`'s own master is cut off behind `n`, and leads on to `c`. */
  predicate WalkedFrom(master: seq<nat>, c: nat, n: nat, q: nat, x: nat)
    requires x < |master| && n < |master|
  {
    || x == q
    || (q < x && master[x] == q && !(q == master[n] && q < n < x))
    || (x == c && q == master[n] && q <= n < c)
  }

  /** Channel `c`, on its own in right lists, is about to be given the master `n`. */
  ghost predicate Enslaving(u: Links, c: nat, n: nat) {
    Consistent(u.master, u.next) && c < |u.master| && n < |u.master| && n != c && u.master[c] == c
  }

  lemma {:induction false} WalkOf(u: Links, q: nat, x: nat)
    requires Consistent(u.master, u.next) && q < |u.master| && u.master[q] == q
    ensures x in Walk(u.next, q) <==> x == q || (q < x < |u.master| && u.master[x] == q)
  {
    SlavesAreThose(u.master, q, q + 1);
  }

  lemma {:induction false} GroupAfter(master: seq<nat>, c: nat, n: nat, q: nat)
    requires c < |master| && n < |master| && master[c] == c && q != c
    ensures q != n ==> Group(master[c := n], q) == Group(master, q)
    ensures forall x :: 0 <= x < |master| ==> (x in Group(master[c := n], q) <==> InNewGroup(master, c, n, q, x))
  {
    if q != n {
      SlavesFrame(master, c, n, q, q + 1);
    }
    SlavesAreThose(master[c := n], q, q + 1);
  }

  /** Channel `x` belongs to the group of `q` once `c` has the master `n`. */
  predicate InNewGroup(master: seq<nat>, c: nat, n: nat, q: nat, x: nat)
    requires x < |master|
  {
    x == q || (q < x && if x == c then q == n else master[x] == q)
  }

  /** A new master that is its own: its list is relinked, and every other one is as it was. */
  lemma {:induction false} OwnLists(u: Links, c: nat, n: nat, q: nat)
    requires Enslaving(u, c, n) && u.master[n] == n && q < |u.master| && q != c && u.master[q] == q
    ensures var master := u.master[c := n];
      Forward(Recalc(master, u.next, n)) && Walk(Recalc(master, u.next, n), q) == Group(master, q)
  {
    var master := u.master[c := n];
    LinkWalks(master, u.next, n, n, n + 1);
    GroupAfter(u.master, c, n, q);
    hide Walk, Link, Group;
    if q != n {
      OthersKeepTheirLists(master, u.next, n, q);
    } else {
      assert Group(master, n) == [n] + Slaves(master, n, n + 1) by { GroupIs(master, n); }
    }
  }

  lemma {:induction false} GroupIs(master: seq<nat>, m: nat)
    ensures Group(master, m) == [m] + Slaves(master, m, m + 1)
  {
  }

  lemma {:induction false} WalkAfterOwn(u: Links, c: nat, n: nat, q: nat, x: nat)
    requires Enslaving(u, c, n) && u.master[n] == n && q < |u.master| && q != c && u.master[q] == q && x < |u.master|
    ensures Forward(Recalc(u.master[c := n], u.next, n))
    ensures x in Walk(Recalc(u.master[c := n], u.next, n), q) <==> WalkedFrom(u.master, c, n, q, x)
  {
    OwnLists(u, c, n, q);
    GroupAfter(u.master, c, n, q);
    hide Walk, Group, Recalc, Consistent;
    assert x in Group(u.master[c := n], q) <==> InNewGroup(u.master, c, n, q, x);
  }

  /** A new master that is a slave itself has no other slave. */
  lemma {:induction false} RelinkedOne(u: Links, c: nat, n: nat)
    requires Enslaving(u, c, n) && u.master[n] != n
    ensures var r := Recalc(u.master[c := n], u.next, n);
      && Forward(r)
      && r == (if n < c then u.next[n := c][c := 0] else u.next[n := 0])
      && Walk(r, n) == if n < c then [n, c] else [n]
  {
    var master := u.master[c := n];
    LinkWalks(master, u.next, n, n, n + 1);
    if n < c {
      LinkOne(master, u.next, n, n, n + 1, c);
    } else {
      LinkNone(master, u.next, n, n, n + 1);
    }
    var r := Recalc(master, u.next, n);
    WalkTurn(r, n);
    if n < c {
      WalkTurn(r, c);
    }
  }

  lemma {:induction false} WalkAfterSlave(u: Links, c: nat, n: nat, q: nat, x: nat)
    requires Enslaving(u, c, n) && u.master[n] != n && q < |u.master| && q != c && u.master[q] == q && x < |u.master|
    ensures Forward(Recalc(u.master[c := n], u.next, n))
    ensures x in Walk(Recalc(u.master[c := n], u.next, n), q) <==> WalkedFrom(u.master, c, n, q, x)
  {
    var r := Recalc(u.master[c := n], u.next, n);
    RelinkedOne(u, c, n);
    WalkOf(u, q, x);
    WalkOf(u, q, n);
    WalkOf(u, q, c);
    var w := Walk(u.next, q);
    assert c !in w;
    hide Walk, Recalc, Consistent;
    if u.master[n] == q && q < n {
      CutAt(u, r, q, c, n, x);
    } else {
      assert n !in w;
      SameWalk(u, r, q, c, n);
    }
  }

  lemma {:induction false} SameWalk(u: Links, r: seq<nat>, q: nat, c: nat, n: nat)
    requires |u.master| == |u.next| == |r| && Forward(u.next) && Forward(r) && q < |r| && c < |r| && n < |r|
    requires r == (if n < c then u.next[n := c][c := 0] else u.next[n := 0])
    requires c !in Walk(u.next, q) && n !in Walk(u.next, q)
    ensures Walk(r, q) == Walk(u.next, q)
  {
    hide Walk;
    WalkFrame(u.next, r, q);
  }

  lemma {:induction false} CutAt(u: Links, r: seq<nat>, q: nat, c: nat, n: nat, x: nat)
    requires |u.master| == |u.next| == |r| && Forward(u.next) && Forward(r) && q < |r| && c < |r| && n < |r|
    requires r == (if n < c then u.next[n := c][c := 0] else u.next[n := 0])
    requires Walk(r, n) == if n < c then [n, c] else [n]
    requires c !in Walk(u.next, q) && n in Walk(u.next, q)
    ensures x in Walk(r, q) <==> (x in Walk(u.next, q) && x <= n) || (x == c && n < c)
  {
    hide Walk, Forward;
    WalkCut(u.next, r, q, n, x);
  }

  /** What is walked after an accepted request to enslave a channel. */
  lemma {:induction false} WalkAfter(u: Links, c: nat, n: nat, q: nat, x: nat)
    requires Enslaving(u, c, n) && q < |u.master| && u.master[c := n][q] == q && x < |u.master|
    ensures Forward(Recalc(u.master[c := n], u.next, n))
    ensures x in Walk(Recalc(u.master[c := n], u.next, n), q) <==> WalkedFrom(u.master, c, n, q, x)
  {
    hide Walk, Recalc, WalkedFrom;
    if u.master[n] == n {
      WalkAfterOwn(u, c, n, q, x);
    } else {
      WalkAfterSlave(u, c, n, q, x);
    }
  }

  ghost predicate Rising(s: seq<nat>) {
    forall i, k :: 0 <= i < k < |s| ==> s[i] < s[k]
  }

  lemma {:induction false} SameRising(a: seq<nat>, b: seq<nat>)
    requires Rising(a) && Rising(b) && forall x :: x in a <==> x in b
    ensures a == b
    decreases |a|
  {
    if a == [] {
      assert forall k :: 0 <= k < |b| ==> b[k] in b;
    } else {
      assert a[0] in b && b[0] in a;
      var i :| 0 <= i < |b| && b[i] == a[0];
      var k :| 0 <= k < |a| && a[k] == b[0];
      assert a[0] == b[0];
      forall x ensures x in a[1..] <==> x in b[1..] {
        if x in a[1..] {
          var j :| 0 < j < |a| && a[j] == x;
          assert x in b;
        }
        if x in b[1..] {
          var j :| 0 < j < |b| && b[j] == x;
          assert x in a;
        }
      }
      SameRising(a[1..], b[1..]);
    }
  }

  /** When the lists survive an accepted request: the new master is its own master, or it is in no
      list that is walked, or it ends one and takes no channel behind it. */
  predicate ListsSurvive(master: seq<nat>, c: nat, n: nat)
    requires n < |master|
  {
    var p := master[n];
    p == n || p == c || n < p || (c < n && forall x :: n < x < |master| ==> master[x] != p)
  }

  lemma {:induction false} ListRight(u: Links, c: nat, n: nat, q: nat)
    requires Enslaving(u, c, n) && q < |u.master| && u.master[c := n][q] == q
    ensures Forward(Recalc(u.master[c := n], u.next, n))
    ensures Walk(Recalc(u.master[c := n], u.next, n), q) == Group(u.master[c := n], q) <==>
      forall x :: 0 <= x < |u.master| ==> (WalkedFrom(u.master, c, n, q, x) <==> InNewGroup(u.master, c, n, q, x))
  {
    var master := u.master[c := n];
    var r := Recalc(master, u.next, n);
    WalkAfter(u, c, n, q, q);
    GroupAfter(u.master, c, n, q);
    hide Recalc, WalkedFrom;
    WalkAbove(r, q);
    GroupRises(master, q);
    hide Walk, Group, Consistent;
    var w, g := Walk(r, q), Group(master, q);
    forall x | 0 <= x < |u.master| ensures x in w <==> WalkedFrom(u.master, c, n, q, x) {
      WalkAfter(u, c, n, q, x);
    }
    if forall x :: 0 <= x < |u.master| ==> (x in w <==> x in g) {
      SameRising(w, g);
    }
  }

  lemma {:induction false} GroupRises(master: seq<nat>, m: nat)
    requires m < |master|
    ensures Rising(Group(master, m)) && forall x :: x in Group(master, m) ==> x < |master|
  {
    SlavesAreThose(master, m, m + 1);
    hide Slaves;
    var g, rest := Group(master, m), Slaves(master, m, m + 1);
    assert g == [m] + rest && forall k :: 0 <= k < |rest| ==> rest[k] in rest;
  }

  lemma {:induction false} ListSurvives(u: Links, c: nat, n: nat, q: nat)
    requires Enslaving(u, c, n) && ListsSurvive(u.master, c, n) && q < |u.master| && u.master[c := n][q] == q
    ensures Forward(Recalc(u.master[c := n], u.next, n))
    ensures Walk(Recalc(u.master[c := n], u.next, n), q) == Group(u.master[c := n], q)
  {
    ListRight(u, c, n, q);
    hide Recalc, Walk, Group, Consistent;
  }

  lemma {:induction false} ListBreaks(u: Links, c: nat, n: nat)
    requires Enslaving(u, c, n) && !ListsSurvive(u.master, c, n)
    ensures var p := u.master[n]; p < |u.master| && u.master[c := n][p] == p
    ensures Forward(Recalc(u.master[c := n], u.next, n))
    ensures Walk(Recalc(u.master[c := n], u.next, n), u.master[n]) != Group(u.master[c := n], u.master[n])
  {
    var p := u.master[n];
    assert u.master[p] == p;
    ListRight(u, c, n, p);
    hide Recalc, Walk, Group, Consistent;
    var x := if n < c then c else var x :| n < x < |u.master| && u.master[x] == p; x;
    assert WalkedFrom(u.master, c, n, p, x) != InNewGroup(u.master, c, n, p, x);
  }

  lemma {:induction false} EnslavingKeepsLists(u: Links, c: nat, n: nat)
    requires Enslaving(u, c, n)
    ensures Forward(Recalc(u.master[c := n], u.next, n))
    ensures Linked(u.master[c := n], Recalc(u.master[c := n], u.next, n)) <==> ListsSurvive(u.master, c, n)
  {
    var master := u.master[c := n];
    var r := Recalc(master, u.next, n);
    LinkFrame(master, u.next, n, n, n + 1);
    hide Recalc, Walk, Group, Consistent, ListsSurvive;
    if ListsSurvive(u.master, c, n) {
      forall q {:trigger master[q]} | 0 <= q < |master| && master[q] == q ensures Walk(r, q) == Group(master, q) {
        ListSurvives(u, c, n, q);
      }
    } else {
      ListBreaks(u, c, n);
    }
  }

  /** A request keeps every list right, that is, every walk from a channel that is its own master
      meets exactly its group, if and only if it enslaves nobody or the lists survive it. */
  lemma {:induction false} ConfigKeepsLists(l: Links, c: nat, newmaster: nat, accepted: bool)
    requires Consistent(l.master, l.next) && c < |l.master| && newmaster < |l.master|
    ensures l.master[c] < |l.master|
    ensures var r := Configured(l, c, newmaster, accepted);
      && |r.master| == |r.next| && Forward(r.next)
      && (Linked(r.master, r.next) <==>
           !accepted || newmaster == c || ListsSurvive(l.master[c := c], c, newmaster))
  {
    assert Flat(l.master);
    UnlinkKeeps(l, c);
    var u := Unlink(l, c);
    hide Unlink, Recalc, Linked, Forward, Flat, ListsSurvive;
    if accepted && newmaster != c {
      EnslavingKeepsLists(u, c, newmaster);
    } else {
      assert u.master[c := c] == u.master;
    }
  }

  /** Channel `x` is met in the walk from exactly one master. */
  ghost predicate Carried(l: Links, x: nat)
    requires |l.master| == |l.next| && Forward(l.next)
  {
    exists m :: 0 <= m < |l.master| && Met(l, m, x) && forall k :: 0 <= k < |l.master| && Met(l, k, x) ==> k == m
  }

  ghost predicate Met(l: Links, m: nat, x: nat)
    requires |l.master| == |l.next| && Forward(l.next) && m < |l.master|
  {
    l.master[m] == m && x in Walk(l.next, m)
  }

  /** The slaves of a channel that becomes a slave are met in no walk any more. */
  lemma {:induction false} ItsSlavesAreLost(l: Links, c: nat, newmaster: nat, x: nat)
    requires Consistent(l.master, l.next) && c < |l.master| && newmaster < |l.master| && newmaster != c
    requires x < |l.master| && x != c && l.master[x] == c
    ensures var r := Configured(l, c, newmaster, true);
      |r.master| == |r.next| && Forward(r.next) && forall m :: 0 <= m < |r.master| ==> !Met(r, m, x)
  {
    assert l.master[l.master[x]] == l.master[x];
    UnlinkKeeps(l, c);
    var u, r := Unlink(l, c), Configured(l, c, newmaster, true);
    assert u.master == l.master;
    WalkAfterAny(u, c, newmaster);
    assert r == Links(u.master[c := newmaster], Recalc(u.master[c := newmaster], u.next, newmaster));
    hide Unlink, Recalc, Walk, Configured;
    assert u.master[u.master[newmaster]] == u.master[newmaster];
    forall m | 0 <= m < |r.master| ensures !Met(r, m, x) {
      if r.master[m] == m {
        assert !WalkedFrom(u.master, c, newmaster, m, x);
      }
    }
  }

  lemma {:induction false} WalkAfterAny(u: Links, c: nat, n: nat)
    requires Enslaving(u, c, n)
    ensures Forward(Recalc(u.master[c := n], u.next, n))
    ensures var r := Links(u.master[c := n], Recalc(u.master[c := n], u.next, n));
      forall q, x :: 0 <= q < |u.master| && 0 <= x < |u.master| && r.master[q] == q ==>
        (Met(r, q, x) <==> WalkedFrom(u.master, c, n, q, x))
  {
    var r := Links(u.master[c := n], Recalc(u.master[c := n], u.next, n));
    LinkWalks(r.master, u.next, n, n, n + 1);
    hide Recalc, Walk, WalkedFrom;
    forall q, x | 0 <= q < |u.master| && 0 <= x < |u.master| && r.master[q] == q
      ensures Met(r, q, x) <==> WalkedFrom(u.master, c, n, q, x)
    {
      WalkAfter(u, c, n, q, x);
    }
  }

  /** When every channel is met exactly once after an accepted request: `c` has no slaves and comes
      after its new master, the others after theirs, and the new master is its own or ends a list. */
  predicate AllMet(master: seq<nat>, c: nat, n: nat)
    requires n < |master|
  {
    && n < c
    && (forall x :: 0 <= x < |master| && x != c ==> master[x] <= x && master[x] != c)
    && (master[n] == n || forall x :: n < x < |master| ==> master[x] != master[n])
  }

  lemma {:induction false} AllMetAfter(u: Links, c: nat, n: nat)
    requires Enslaving(u, c, n)
    ensures var r := Links(u.master[c := n], Recalc(u.master[c := n], u.next, n));
      && |r.master| == |r.next| && Forward(r.next)
      && ((forall x :: 0 <= x < |u.master| ==> Carried(r, x)) <==> AllMet(u.master, c, n))
  {
    WalkAfterAny(u, c, n);
    var master, r := u.master, Links(u.master[c := n], Recalc(u.master[c := n], u.next, n));
    assert Flat(master);
    hide Recalc, Consistent, Met, Forward;
    if AllMet(master, c, n) {
      forall x | 0 <= x < |master| ensures Carried(r, x) {
        MetOnce(r, master, c, n, x, if x == c then master[n] else master[x]);
      }
    } else {
      NotMet(r, master, c, n);
    }
  }

  /** The walks of `r` are those of WalkedFrom. */
  ghost predicate WalksAs(r: Links, master: seq<nat>, c: nat, n: nat) {
    && |r.master| == |r.next| == |master| && Forward(r.next) && n < |master| && c < |master| && n != c
    && Flat(master) && master[c] == c && r.master == master[c := n]
    && forall q, x :: 0 <= q < |master| && 0 <= x < |master| && r.master[q] == q ==>
         (Met(r, q, x) <==> WalkedFrom(master, c, n, q, x))
  }

  lemma {:induction false} MetOnce(r: Links, master: seq<nat>, c: nat, n: nat, x: nat, m: nat)
    requires WalksAs(r, master, c, n) && AllMet(master, c, n) && x < |master|
    requires m == if x == c then master[n] else master[x]
    ensures Carried(r, x)
  {
    assert master[m] == m && m != c;
    assert Met(r, m, x);
    forall k | 0 <= k < |master| && Met(r, k, x) ensures k == m {
      assert r.master[k] == k;
      assert WalkedFrom(master, c, n, k, x);
    }
  }

  lemma {:induction false} NotMet(r: Links, master: seq<nat>, c: nat, n: nat)
    requires WalksAs(r, master, c, n) && !AllMet(master, c, n)
    ensures exists x :: 0 <= x < |master| && !Carried(r, x)
  {
    var x := Missed(master, c, n);
    forall m | 0 <= m < |master| ensures !Met(r, m, x) {
      if r.master[m] == m {
        assert !WalkedFrom(master, c, n, m, x);
      }
    }
    assert !Carried(r, x);
  }

  /** A channel that no walk meets. */
  ghost function Missed(master: seq<nat>, c: nat, n: nat): (x: nat)
    requires n < |master| && c < |master| && !AllMet(master, c, n)
    ensures x < |master|
  {
    if exists x :: 0 <= x < |master| && x != c && (master[x] > x || master[x] == c) then
      var x :| 0 <= x < |master| && x != c && (master[x] > x || master[x] == c); x
    else if n >= c then c
    else var x :| n < x < |master| && master[x] == master[n]; x
  }

  /** Making channel `c` a slave of `newmaster` also keeps every master its own master exactly when
      `newmaster` is its own and `c` has no slaves itself. */
  lemma {:induction false} ConfigKeepsMasters(l: Links, c: nat, newmaster: nat, accepted: bool)
    requires Consistent(l.master, l.next) && c < |l.master| && newmaster < |l.master|
    ensures var r := Configured(l, c, newmaster, accepted);
      Consistent(r.master, r.next) <==> !accepted || newmaster == c || CanEnslave(l.master, c, newmaster)
  {
    assert Flat(l.master) && l.master[c] < |l.master|;
    UnlinkKeeps(l, c);
    var u := Unlink(l, c);
    hide Unlink, Recalc, Linked, Forward, Flat;
    assert u.master[c := newmaster] == l.master[c := newmaster];
    if accepted && newmaster == c {
      assert u.master[c := c] == u.master;
    } else if accepted {
      if CanEnslave(l.master, c, newmaster) {
        EnslavingKeeps(u, c, newmaster);
      } else {
        EnslavingIsNotFlat(l.master, c, newmaster);
      }
    }
  }

  lemma {:induction false} EnslavingKeeps(u: Links, c: nat, newmaster: nat)
    requires Consistent(u.master, u.next) && c < |u.master| && newmaster < |u.master| && newmaster != c
    requires u.master[c] == c && CanEnslave(u.master, c, newmaster)
    ensures var master := u.master[c := newmaster]; Consistent(master, Recalc(master, u.next, newmaster))
  {
    var master := u.master[c := newmaster];
    hide Slaves, Walk, Recalc, Forward;
    forall q | 0 <= q < |master| && q != newmaster && master[q] == q ensures Walk(u.next, q) == Group(master, q) {
      SlavesFrame(u.master, c, newmaster, q, q + 1);
    }
    RelinkKeeps(master, u.next, newmaster);
  }

  lemma {:induction false} EnslavingIsNotFlat(was: seq<nat>, c: nat, newmaster: nat)
    requires Flat(was) && c < |was| && newmaster < |was| && newmaster != c && !CanEnslave(was, c, newmaster)
    ensures !Flat(was[c := newmaster])
  {
    var master := was[c := newmaster];
    if was[newmaster] == newmaster {
      var x :| 0 <= x < |was| && x != c && was[x] == c;
      assert master[x] == c && master[c] == newmaster;
    } else {
      assert master[newmaster] != newmaster && master[c] == newmaster;
    }
  }

  /** What a caller can check first: the new master stands alone and nobody follows `c`. */
  predicate CanEnslave(master: seq<nat>, c: nat, newmaster: nat)
    requires newmaster < |master|
  {
    master[newmaster] == newmaster && forall x :: 0 <= x < |master| && x != c ==> master[x] != c
  }

  ghost predicate InGroup(master: seq<nat>, m: nat, x: nat)
    requires m < |master|
  {
    master[m] == m && x in Group(master, m)
  }

  /** Channel `x` lies in exactly one master's group, and so carries bytes. */
  ghost predicate Fed(master: seq<nat>, x: nat) {
    exists m :: 0 <= m < |master| && InGroup(master, m, x) &&
      forall k :: 0 <= k < |master| && InGroup(master, k, x) ==> k == m
  }

  /** A channel is fed by no master but its own, and by that one if and only if it comes after it:
      a slave at a lower position is passed over by recalc_slaves and carries nothing. */
  lemma {:induction false} FedIffAfterMaster(master: seq<nat>, x: nat)
    requires Flat(master) && x < |master|
    ensures forall m :: 0 <= m < |master| && InGroup(master, m, x) ==> m == master[x]
    ensures Fed(master, x) <==> master[x] <= x
  {
    forall m | 0 <= m < |master| && InGroup(master, m, x) ensures m == master[x] <= x {
      SlavesAreThose(master, m, m + 1);
      assert Group(master, m) == [m] + Slaves(master, m, m + 1);
    }
    if master[x] <= x {
      SlavesAreThose(master, master[x], master[x] + 1);
      assert InGroup(master, master[x], x);
    }
  }

  /** Every channel lies in exactly one master's group if and only if every slave comes after its master. */
  lemma {:induction false} AllFedIffMastersFirst(master: seq<nat>)
    requires Flat(master)
    ensures (forall x :: 0 <= x < |master| ==> Fed(master, x)) <==> (forall x :: 0 <= x < |master| ==> master[x] <= x)
  {
    forall x | 0 <= x < |master| ensures Fed(master, x) <==> master[x] <= x {
      FedIffAfterMaster(master, x);
    }
  }

  lemma {:induction false} MetIsGrouped(l: Links, x: nat)
    requires Consistent(l.master, l.next) && x < |l.master|
    ensures Carried(l, x) <==> Fed(l.master, x)
  {
    assert forall m :: 0 <= m < |l.master| ==> (Met(l, m, x) <==> InGroup(l.master, m, x));
    hide Consistent, Forward;
    CarriedIsFed(l, x);
  }

  lemma {:induction false} CarriedIsFed(l: Links, x: nat)
    requires |l.master| == |l.next| && Forward(l.next)
    requires forall m :: 0 <= m < |l.master| ==> (Met(l, m, x) <==> InGroup(l.master, m, x))
    ensures Carried(l, x) <==> Fed(l.master, x)
  {
    hide Met, InGroup, Forward;
  }

  /** When every channel is met in exactly one list after a request: with every slave after its
      master if nobody is enslaved, and otherwise as `AllMet` says. */
  lemma {:induction false} ConfigMeetsAll(l: Links, c: nat, newmaster: nat, accepted: bool)
    requires Consistent(l.master, l.next) && c < |l.master| && newmaster < |l.master|
    ensures l.master[c] < |l.master|
    ensures var r, alone := Configured(l, c, newmaster, accepted), l.master[c := c];
      && |r.master| == |r.next| == |alone| && Forward(r.next)
      && ((forall x :: 0 <= x < |alone| ==> Carried(r, x)) <==>
           if !accepted || newmaster == c then forall x :: 0 <= x < |alone| ==> alone[x] <= x
           else AllMet(alone, c, newmaster))
  {
    assert Flat(l.master);
    UnlinkKeeps(l, c);
    var u := Unlink(l, c);
    hide Unlink, Recalc, Carried, AllMet;
    if accepted && newmaster != c {
      AllMetAfter(u, c, newmaster);
    } else {
      assert u.master[c := c] == u.master;
      forall x | 0 <= x < |u.master| ensures Carried(u, x) <==> u.master[x] <= x {
        MetIsGrouped(u, x);
        FedIffAfterMaster(u.master, x);
      }
    }
  }

  lemma {:induction false} LinkTurn(master: seq<nat>, next: seq<nat>, m: nat, last: nat, x: nat)
    requires last < |next| == |master|
    ensures (Link(master, next, m, last, x) ==
      if x >= |master| then next[last := 0]
      else if master[x] == m then Link(master, next[last := x], m, x, x + 1)
      else Link(master, next, m, last, x + 1))
  {
  }

  lemma {:induction false} LinkExample(master: seq<nat>, next: seq<nat>)
    requires |master| == |next| == 3 && master[2] == 1
    ensures Recalc(master, next, 1) == next[1 := 2][2 := 0]
  {
    LinkTurn(master, next, 1, 1, 2);
    LinkTurn(master, next[1 := 2], 1, 2, 3);
    hide Link;
  }

  /** Slaving channel 2 to channel 1, itself a slave of 0, hooks 2 into the list of 0,
      which then feeds a channel that has another master. */
  lemma {:induction false} SlaveOfASlaveIsFed()
    ensures var l := Links([0, 0, 2], [1, 0, 0]);
      && Consistent(l.master, l.next)
      && var r := Configured(l, 2, 1, true);
        && Forward(r.next) && Walk(r.next, 0) == [0, 1, 2] && r.master[2] == 1 && Group(r.master, 0) == [0, 1]
  {
    var l := Links([0, 0, 2], [1, 0, 0]);
    OneSlave(l.master, 0);
    assert Slaves(l.master, 2, 3) == [];
    assert Walk(l.next, 1) == [1] && Walk(l.next, 0) == [0, 1] && Walk(l.next, 2) == [2];
    var r := Configured(l, 2, 1, true);
    assert Unlink(l, 2) == l;
    LinkExample(r.master, l.next);
    OneSlave(r.master, 0);
    var n := r.next;
    assert |n| == 3 && n[0] == 1 && n[1] == 2 && n[2] == 0;
    WalkTurn(n, 2);
    WalkTurn(n, 1);
    WalkTurn(n, 0);
  }

  lemma {:induction false} OneSlave(master: seq<nat>, m: nat)
    requires |master| == 3 && m == 0 && master[1] == 0 && master[2] != 0
    ensures Group(master, m) == [0, 1]
  {
    SlavesTurn(master, 0, 3);
    SlavesTurn(master, 0, 2);
    SlavesTurn(master, 0, 1);
  }

  // ---------- dealing out bytes ----------

  /** Every channel's chunk holds `size` bytes. */
  ghost predicate Sized(w: seq<Chunk>, size: nat) {
    forall k :: 0 <= k < |w| ==> |w[k]| == size
  }

  ghost predicate Within(g: seq<nat>, n: nat) {
    forall k :: 0 <= k < |g| ==> g[k] < n
  }

  /** Frame `y` of a group: byte `y` of each of its channels in turn. */
  function Row(w: seq<Chunk>, g: seq<nat>, y: nat, size: nat): (r: seq<bv8>)
    requires Sized(w, size) && Within(g, |w|) && y < size
    ensures |r| == |g|
  {
    seq(|g|, j requires 0 <= j < |g| => w[g[j]][y])
  }

  /** The first `y` frames of a group, one after the other. */
  function Frames(w: seq<Chunk>, g: seq<nat>, y: nat, size: nat): seq<bv8>
    requires Sized(w, size) && Within(g, |w|) && y <= size
  {
    if y == 0 then [] else Frames(w, g, y - 1, size) + Row(w, g, y - 1, size)
  }

  /** The first `k` chunks of a supply, joined. */
  function Stream(source: nat -> Chunk, k: nat): seq<bv8> {
    if k == 0 then [] else Stream(source, k - 1) + source(k - 1)
  }

  function Joined(chunks: seq<Chunk>): seq<bv8> {
    if chunks == [] then [] else Joined(chunks[..|chunks| - 1]) + chunks[|chunks| - 1]
  }

  ghost predicate Supplies(source: nat -> Chunk, size: nat) {
    forall k :: |source(k)| == size
  }

  lemma {:induction false} FramesLength(w: seq<Chunk>, g: seq<nat>, y: nat, size: nat)
    requires Sized(w, size) && Within(g, |w|) && y <= size
    ensures |Frames(w, g, y, size)| == y * |g|
  {
    if y > 0 {
      FramesLength(w, g, y - 1, size);
    }
  }

  lemma {:induction false} StreamLength(source: nat -> Chunk, k: nat, size: nat)
    requires Supplies(source, size)
    ensures |Stream(source, k)| == k * size
  {
    if k > 0 {
      StreamLength(source, k - 1, size);
    }
  }

  lemma {:induction false} OneMore(n: nat, size: nat)
    ensures n * size + size == (n + 1) * size
  {
  }

  lemma {:induction false} JoinedLength(chunks: seq<Chunk>, size: nat)
    requires Sized(chunks, size)
    ensures |Joined(chunks)| == |chunks| * size
  {
    if chunks != [] {
      var n := |chunks| - 1;
      JoinedLength(chunks[..n], size);
      assert |Joined(chunks)| == |Joined(chunks[..n])| + size;
      hide Joined;
      OneMore(n, size);
    }
  }

  /** Byte `i` of a superchannel's stream travels in frame i / group size, on channel i
      mod group size: here byte `y * |g| + j`. */
  lemma {:induction false} ByteGoesTo(w: seq<Chunk>, g: seq<nat>, rows: nat, size: nat, y: nat, j: nat)
    requires Sized(w, size) && Within(g, |w|) && y < rows <= size && j < |g|
    ensures 0 <= y * |g| + j < |Frames(w, g, rows, size)|
    ensures Frames(w, g, rows, size)[y * |g| + j] == w[g[j]][y]
  {
    FramesLength(w, g, rows, size);
    FramesLength(w, g, rows - 1, size);
    if y < rows - 1 {
      ByteGoesTo(w, g, rows - 1, size, y, j);
    }
  }

  /** Writing byte `y` of a channel leaves the earlier frames alone. */
  lemma {:induction false} FramesFrame(w: seq<Chunk>, w': seq<Chunk>, g: seq<nat>, y: nat, size: nat)
    requires Sized(w, size) && Sized(w', size) && |w| == |w'| && Within(g, |w|) && y <= size
    requires forall k :: 0 <= k < |g| ==> w[g[k]][..y] == w'[g[k]][..y]
    ensures Frames(w, g, y, size) == Frames(w', g, y, size)
  {
    if y > 0 {
      forall k | 0 <= k < |g|
        ensures w[g[k]][..y - 1] == w'[g[k]][..y - 1] && w[g[k]][y - 1] == w'[g[k]][y - 1]
      {
        assert w[g[k]][..y][y - 1] == w'[g[k]][..y][y - 1];
        assert w[g[k]][..y][..y - 1] == w'[g[k]][..y][..y - 1];
      }
      FramesFrame(w, w', g, y - 1, size);
    }
  }

  ghost predicate Increasing(g: seq<nat>) {
    forall i, k :: 0 <= i < k < |g| ==> g[i] < g[k]
  }

  /** One byte more of frame `y`. */
  lemma {:induction false} OneByteMore(w: seq<Chunk>, g: seq<nat>, k: nat, y: nat, b: bv8, size: nat)
    requires Sized(w, size) && Within(g, |w|) && Increasing(g) && k < |g| && y < size
    ensures var w' := w[g[k] := w[g[k]][y := b]];
      && Sized(w', size)
      && Frames(w', g, y, size) == Frames(w, g, y, size)
      && Row(w', g[..k + 1], y, size) == Row(w, g[..k], y, size) + [b]
  {
    var w' := w[g[k] := w[g[k]][y := b]];
    FramesFrame(w, w', g, y, size);
    assert forall j :: 0 <= j < k ==> g[..k][j] == g[..k + 1][j] == g[j] && g[j] != g[k];
  }

  lemma {:induction false} Gap(a: int, b: int, size: int)
    requires a < b && 0 < size
    ensures a * size + size <= b * size
    decreases b - a
  {
    assert b * size == (b - 1) * size + size;
    if a + 1 < b {
      Gap(a, b - 1, size);
    }
  }

  lemma {:induction false} Exactly(pulled: int, g: int, size: int, pos: int)
    requires 0 < pos <= size && pulled * size == g * size + size - pos
    ensures pulled == g && pos == size
  {
    if pulled > g {
      Gap(g, pulled, size);
    } else if pulled < g {
      Gap(pulled, g, size);
    }
  }

  lemma {:induction false} SameChunks(a: seq<Chunk>, source: nat -> Chunk, size: nat)
    requires Sized(a, size) && Supplies(source, size) && Joined(a) == Stream(source, |a|)
    ensures a == seq(|a|, k requires 0 <= k < |a| => source(k))
  {
    if a != [] {
      var n := |a| - 1;
      JoinedLength(a[..n], size);
      StreamLength(source, n, size);
      assert Joined(a)[..n * size] == Joined(a[..n]) && Joined(a)[n * size..] == a[n];
      assert Stream(source, n + 1)[..n * size] == Stream(source, n) && Stream(source, n + 1)[n * size..] == source(n);
      SameChunks(a[..n], source, size);
      assert a == a[..n] + [a[n]];
    }
  }

  /** The group of `x` carries the first chunks of the supply, one for each of its channels. */
  ghost predicate Carries(w: seq<Chunk>, master: seq<nat>, x: nat, source: nat -> Chunk, size: nat)
    requires Sized(w, size) && |w| == |master| && x < |master|
  {
    var g := Group(master, x);
    Within(g, |w|) && Frames(w, g, size, size) == Stream(source, |g|)
  }

  /** The chunks `got` are what the group of `x` carries. */
  ghost predicate Yields(w: seq<Chunk>, master: seq<nat>, x: nat, got: seq<Chunk>, size: nat)
    requires Sized(w, size) && |w| == |master| && x < |master|
  {
    var g := Group(master, x);
    Within(g, |w|) && Frames(w, g, size, size) == Joined(got) && Sized(got, size) && |got| == |g|
  }

  /** The receiving side rebuilds the chunks that the sending side pulled. */
  lemma {:induction false} ReceivesWhatWasSent(w: seq<Chunk>, master: seq<nat>, x: nat, source: nat -> Chunk,
      got: seq<Chunk>, size: nat)
    requires Sized(w, size) && |w| == |master| && x < |master| && Supplies(source, size)
    requires Carries(w, master, x, source, size) && Yields(w, master, x, got, size)
    ensures got == seq(|Group(master, x)|, k requires 0 <= k < |Group(master, x)| => source(k))
  {
    SameChunks(got, source, size);
  }

  lemma {:induction false} GroupIsIncreasing(master: seq<nat>, x: nat)
    requires x < |master|
    ensures var g := Group(master, x);
      && Within(g, |master|) && Increasing(g)
      && forall c :: c in g <==> c == x || (x < c < |master| && master[c] == x)
  {
    SlavesAreThose(master, x, x + 1);
    var s := Slaves(master, x, x + 1);
    assert forall k :: 0 <= k < |s| ==> s[k] in s;
  }

  /** Channels outside `g` hold what they held. */
  ghost predicate SameOutside(w: seq<Chunk>, w': seq<Chunk>, g: seq<nat>) {
    |w| == |w'| && forall c :: 0 <= c < |w| && c !in g ==> w'[c] == w[c]
  }

  lemma {:induction false} StillOutside(before: seq<Chunk>, w: seq<Chunk>, g: seq<nat>, k: nat, v: Chunk)
    requires SameOutside(before, w, g) && k < |g| && g[k] < |w|
    ensures SameOutside(before, w[g[k] := v], g)
  {
  }

  /** One byte of the current chunk put on channel `g[k]`. */
  lemma {:induction false} PutByte(before: seq<Chunk>, w: seq<Chunk>, g: seq<nat>, y: nat, k: nat, size: nat,
      total: seq<bv8>, data: Chunk, pos: nat)
    requires Sized(w, size) && Within(g, |w|) && Increasing(g) && k < |g| && y < size && pos < |data| == size
    requires SameOutside(before, w, g) && Dealt(w, g, y, k, size, total, data[pos..])
    ensures var w' := w[g[k] := w[g[k]][y := data[pos]]];
      Sized(w', size) && SameOutside(before, w', g) && Dealt(w', g, y, k + 1, size, total, data[pos + 1..])
  {
    hide Dealt;
    DealOne(w, g, y, k, size, total, data[pos..]);
    assert data[pos..][0] == data[pos] && data[pos..][1..] == data[pos + 1..];
    StillOutside(before, w, g, k, w[g[k]][y := data[pos]]);
  }

  /** The group of another master shares no channel with this one, so writing this one leaves it alone. */
  lemma {:induction false} OthersStillCarry(w: seq<Chunk>, w': seq<Chunk>, master: seq<nat>, x: nat, q: nat,
      source: nat -> Chunk, size: nat)
    requires Sized(w, size) && Sized(w', size) && |w| == |w'| == |master| && x < |master| && q < |master|
    requires x != q && master[x] == x && master[q] == q && Carries(w, master, q, source, size)
    requires SameOutside(w, w', Group(master, x))
    ensures Carries(w', master, q, source, size)
  {
    GroupIsIncreasing(master, x);
    GroupIsIncreasing(master, q);
    var g := Group(master, q);
    hide Group;
    forall k | 0 <= k < |g| ensures w'[g[k]] == w[g[k]] {
      assert g[k] in g;
    }
    FramesFrame(w, w', g, size, size);
  }

  lemma {:induction false} MasterInRange(master: seq<nat>, c: nat)
    requires Flat(master) && c < |master|
    ensures master[c] < |master|
  {
  }

  /** `total` is what the channels hold up to place `k` of frame `y`, and then `left`. */
  ghost predicate Dealt(w: seq<Chunk>, g: seq<nat>, y: nat, k: nat, size: nat, total: seq<bv8>, left: seq<bv8>)
    requires Sized(w, size) && Within(g, |w|) && k <= |g| && y <= size
  {
    if y == size then k == 0 && total == Frames(w, g, y, size) + left
    else total == Frames(w, g, y, size) + Row(w, g[..k], y, size) + left
  }

  lemma {:induction false} NothingDealt(w: seq<Chunk>, g: seq<nat>, size: nat)
    requires Sized(w, size) && Within(g, |w|)
    ensures Dealt(w, g, 0, 0, size, [], [])
  {
  }

  lemma {:induction false} DealOne(w: seq<Chunk>, g: seq<nat>, y: nat, k: nat, size: nat, total: seq<bv8>,
      left: seq<bv8>)
    requires Sized(w, size) && Within(g, |w|) && Increasing(g) && k < |g| && y < size
    requires left != [] && Dealt(w, g, y, k, size, total, left)
    ensures var w' := w[g[k] := w[g[k]][y := left[0]]];
      Sized(w', size) && Dealt(w', g, y, k + 1, size, total, left[1..])
  {
    OneByteMore(w, g, k, y, left[0], size);
    var w' := w[g[k] := w[g[k]][y := left[0]]];
    hide Frames, Row;
    Move(Frames(w, g, y, size), Row(w, g[..k], y, size), left);
  }

  lemma {:induction false} Move(a: seq<bv8>, b: seq<bv8>, left: seq<bv8>)
    requires left != []
    ensures a + b + left == a + (b + [left[0]]) + left[1..]
  {
  }

  lemma {:induction false} DealSeen(w: seq<Chunk>, g: seq<nat>, y: nat, k: nat, size: nat, total: seq<bv8>)
    requires Sized(w, size) && Within(g, |w|) && k < |g| && y < size && Dealt(w, g, y, k, size, total, [])
    ensures Dealt(w, g, y, k + 1, size, total + [w[g[k]][y]], [])
  {
    assert Row(w, g[..k + 1], y, size) == Row(w, g[..k], y, size) + [w[g[k]][y]];
  }

  lemma {:induction false} DealRow(w: seq<Chunk>, g: seq<nat>, y: nat, size: nat, total: seq<bv8>, left: seq<bv8>)
    requires Sized(w, size) && Within(g, |w|) && y < size && Dealt(w, g, y, |g|, size, total, left)
    ensures Dealt(w, g, y + 1, 0, size, total, left)
  {
    assert g[..|g|] == g && g[..0] == [];
  }

  lemma {:induction false} DealPull(w: seq<Chunk>, g: seq<nat>, y: nat, k: nat, size: nat, total: seq<bv8>,
      more: seq<bv8>)
    requires Sized(w, size) && Within(g, |w|) && k <= |g| && y < size && Dealt(w, g, y, k, size, total, [])
    ensures Dealt(w, g, y, k, size, total + more, more)
  {
  }

  lemma {:induction false} JoinedMore(got: seq<Chunk>, data: Chunk)
    ensures Joined(got + [data]) == Joined(got) + data
  {
    assert (got + [data])[..|got|] == got;
  }

  /** Following the list from the channel at place `k` of its group leads to place `k + 1`, or ends. */
  lemma {:induction false} NextInGroup(next: seq<nat>, g: seq<nat>, k: nat)
    requires Forward(next) && k < |g| && g[k] < |next| && Walk(next, g[k]) == g[k..]
    ensures next[g[k]] == 0 <==> k + 1 == |g|
    ensures (k + 1 < |g| ==>
      next[g[k]] == g[k + 1] && g[k + 1] < |next| && Walk(next, g[k + 1]) == g[k + 1..])
  {
    WalkTurn(next, g[k]);
    var v := next[g[k]];
    assert g[k..][1..] == g[k + 1..];
    if v != 0 {
      WalkTurn(next, v);
      assert g[k + 1..] == Walk(next, v);
      assert g[k + 1..][0] == v;
    }
  }

  lemma {:induction false} PullMore(w: seq<Chunk>, g: seq<nat>, y: nat, k: nat, size: nat, source: nat -> Chunk,
      pulled: nat, data: Chunk)
    requires Sized(w, size) && Within(g, |w|) && k <= |g| && y < size && |data| == size
    requires Supplies(source, size) && Dealt(w, g, y, k, size, Stream(source, pulled), data[size..])
    ensures |source(pulled)| == size && source(pulled)[0..] == source(pulled)
    ensures Dealt(w, g, y, k, size, Stream(source, pulled + 1), source(pulled)[0..])
  {
    assert data[size..] == [];
    DealPull(w, g, y, k, size, Stream(source, pulled), source(pulled));
  }

  /** One byte taken from channel `g[k]`; a full chunk is handed up. */
  lemma {:induction false} TakeByte(w: seq<Chunk>, g: seq<nat>, y: nat, k: nat, size: nat, got: seq<Chunk>, data: Chunk)
    requires Sized(w, size) && Within(g, |w|) && k < |g| && y < size
    requires Sized(got, size) && |data| < size && Dealt(w, g, y, k, size, Joined(got) + data, [])
    ensures var data' := data + [w[g[k]][y]];
      && Dealt(w, g, y, k + 1, size, Joined(got) + data', [])
      && (|data'| == size ==> Sized(got + [data'], size) && Dealt(w, g, y, k + 1, size, Joined(got + [data']) + [], []))
  {
    var data' := data + [w[g[k]][y]];
    DealSeen(w, g, y, k, size, Joined(got) + data);
    hide Dealt, Joined;
    assert Joined(got) + data + [w[g[k]][y]] == Joined(got) + data';
    JoinedMore(got, data');
    assert Joined(got + [data']) + [] == Joined(got + [data']);
  }

  lemma {:induction false} AllDealt(w: seq<Chunk>, g: seq<nat>, size: nat, source: nat -> Chunk, pulled: nat,
      data: Chunk, pos: nat)
    requires Sized(w, size) && Within(g, |w|) && 0 < pos <= size == |data| && Supplies(source, size)
    requires Dealt(w, g, size, 0, size, Stream(source, pulled), data[pos..])
    ensures pulled == |g| && Frames(w, g, size, size) == Stream(source, |g|)
  {
    FramesLength(w, g, size, size);
    StreamLength(source, pulled, size);
    Exactly(pulled, |g|, size, pos);
  }

  lemma {:induction false} AllSeen(w: seq<Chunk>, g: seq<nat>, size: nat, got: seq<Chunk>, data: Chunk)
    requires Sized(w, size) && Within(g, |w|) && Sized(got, size) && |data| < size
    requires Dealt(w, g, size, 0, size, Joined(got) + data, [])
    ensures |got| == |g| && Frames(w, g, size, size) == Joined(got)
  {
    var f, j := Frames(w, g, size, size), Joined(got);
    assert f == j + data;
    FramesLength(w, g, size, size);
    JoinedLength(got, size);
    hide *;
    Exactly(|g|, |got|, size, size - |data|);
    assert data == [] && j + data == j;
  }

  // ---------- the span ----------

  /** A span whose channels all run clear: per channel its master, its list link, and the
      chunk buffers shared with the hardware. */
  class Span {
    const size: nat
    const master: array<nat>
    const nextslave: array<nat>
    const writechunk: array<Chunk>
    const readchunk: array<Chunk>

    ghost predicate Valid()
      reads this, master, nextslave, writechunk, readchunk
    {
      && size > 0
      && master.Length == nextslave.Length == writechunk.Length == readchunk.Length
      && master != nextslave && writechunk != readchunk
      && Consistent(master[..], nextslave[..])
      && Sized(writechunk[..], size) && Sized(readchunk[..], size)
    }

    ghost function State(): Links
      reads master, nextslave
    {
      Links(master[..], nextslave[..])
    }

    /** A fresh span: every channel its own master. */
    constructor (channels: nat, size: nat, idle: bv8)
      requires size > 0
      ensures Valid() && fresh(master) && fresh(nextslave) && fresh(writechunk) && fresh(readchunk)
      ensures this.size == size && master[..] == seq(channels, x => x) && nextslave[..] == seq(channels, x => 0)
    {
      this.size := size;
      master := new nat[channels](x => x);
      nextslave := new nat[channels](x => 0);
      writechunk := new Chunk[channels](x => seq(size, y => idle));
      readchunk := new Chunk[channels](x => seq(size, y => idle));
      new;
      ghost var own := master[..];
      forall m | 0 <= m < channels && own[m] == m ensures Slaves(own, m, m + 1) == [] {
        NoSlaves(own, m, m + 1);
      }
    }

    /** recalc_slaves for channel `m`. */
    method RecalcSlaves(m: nat)
      requires master.Length == nextslave.Length && m < master.Length && master != nextslave
      modifies nextslave
      ensures nextslave[..] == Recalc(master[..], old(nextslave[..]), m)
    {
      var last: nat := m;
      for x: nat := m + 1 to master.Length
        invariant last < x && last < master.Length
        invariant Link(master[..], nextslave[..], m, last, x) == Recalc(master[..], old(nextslave[..]), m)
      {
        if master[x] == m {
          ghost var before := nextslave[..];
          nextslave[last] := x;
          assert nextslave[..] == before[last := x];
          last := x;
        }
      }
      ghost var before := nextslave[..];
      nextslave[last] := 0;
      assert nextslave[..] == before[last := 0];
    }

    /** DAHDI_CHANCONFIG: `accepted` says whether the hardware can do what was asked. */
    method ChanConfig(c: nat, newmaster: nat, accepted: bool)
      requires Valid() && c < master.Length && newmaster < master.Length
      modifies master, nextslave
      ensures State() == Configured(old(State()), c, newmaster, accepted)
      ensures |master[..]| == |nextslave[..]| && Forward(nextslave[..])
      ensures Linked(master[..], nextslave[..]) <==>
        !accepted || newmaster == c || ListsSurvive(old(master[..])[c := c], c, newmaster)
      ensures Valid() <==> !accepted || newmaster == c || CanEnslave(old(master[..]), c, newmaster)
    {
      ConfigKeepsLists(State(), c, newmaster, accepted);
      ConfigKeepsMasters(State(), c, newmaster, accepted);
      hide Recalc, Link, Linked, Flat, Forward, Slaves;
      assert master[c] == master[..][c];
      MasterInRange(master[..], c);
      if master[c] != c {
        var oldmaster := master[c];
        master[c] := c;
        nextslave[c] := 0;
        assert master[..] == old(master[..])[c := c] && nextslave[..] == old(nextslave[..])[c := 0];
        RecalcSlaves(oldmaster);
      }
      if accepted {
        ghost var m := master[..];
        master[c] := newmaster;
        assert master[..] == m[c := newmaster];
        if newmaster != c {
          RecalcSlaves(newmaster);
        }
      }
    }

    ghost predicate Master(x: nat)
      requires Valid()
      reads this, master, nextslave, writechunk, readchunk
    {
      x < master.Length && master[x] == x
    }

    ghost function GroupOf(x: nat): seq<nat>
      reads master
    {
      Group(master[..], x)
    }

    /** What the list of a master gives: its group, in order, inside the span. */
    lemma {:induction false} ListIsGroup(x: nat)
      requires Valid() && Master(x)
      ensures var g := GroupOf(x);
        && g != [] && g[0] == x && Within(g, master.Length) && Increasing(g)
        && Forward(nextslave[..]) && Walk(nextslave[..], x) == g[0..] == g
    {
      GroupIsIncreasing(master[..], x);
      assert x == master[..][x];
    }

    /** The next chunk is pulled when the last one is used up. */
    method NextByte(source: nat -> Chunk, data0: Chunk, pos0: nat, pulled0: nat, ghost g: seq<nat>, ghost y: nat,
        ghost k: nat)
      returns (data: Chunk, pos: nat, pulled: nat)
      requires Supplies(source, size) && pos0 <= size == |data0| && Sized(writechunk[..], size) && size > 0
      requires Within(g, writechunk.Length) && k < |g| && y < size
      requires Dealt(writechunk[..], g, y, k, size, Stream(source, pulled0), data0[pos0..])
      ensures pos < size == |data| && Dealt(writechunk[..], g, y, k, size, Stream(source, pulled), data[pos..])
    {
      hide Dealt, Stream;
      data, pos, pulled := data0, pos0, pulled0;
      if pos == size {
        PullMore(writechunk[..], g, y, k, size, source, pulled, data);
        data := source(pulled);
        pulled := pulled + 1;
        pos := 0;
      }
    }

    method Put(z: nat, y: nat, b: bv8)
      requires z < writechunk.Length && y < |writechunk[z]|
      modifies writechunk
      ensures writechunk[..] == old(writechunk[..])[z := old(writechunk[z])[y := b]]
    {
      writechunk[z] := writechunk[z][y := b];
    }

    /** One frame: a byte to each channel of the group, chunks pulled as they run out. */
    method TransmitFrame(x: nat, y: nat, source: nat -> Chunk, data0: Chunk, pos0: nat, pulled0: nat)
      returns (data: Chunk, pos: nat, pulled: nat)
      requires Valid() && Master(x) && y < size && Supplies(source, size) && 0 < pos0 <= size == |data0|
      requires Within(GroupOf(x), master.Length)
      requires Dealt(writechunk[..], GroupOf(x), y, 0, size, Stream(source, pulled0), data0[pos0..])
      modifies writechunk
      ensures Valid() && 0 < pos <= size == |data|
      ensures Dealt(writechunk[..], GroupOf(x), y + 1, 0, size, Stream(source, pulled), data[pos..])
      ensures SameOutside(old(writechunk[..]), writechunk[..], GroupOf(x))
    {
      ListIsGroup(x);
      ghost var g, next, before, k := GroupOf(x), nextslave[..], writechunk[..], 0;
      hide SameOutside, GroupOf, Group, Walk, Dealt, Stream, Supplies, Consistent, Increasing, Forward;
      data, pos, pulled := data0, pos0, pulled0;
      var z := x;
      var more := true;
      while more
        invariant k <= |g| && (more <==> k < |g|)
        invariant more ==> z == g[k] && Walk(next, z) == g[k..]
        invariant Sized(writechunk[..], size) && 0 < pos <= size == |data|
        invariant Dealt(writechunk[..], g, y, k, size, Stream(source, pulled), data[pos..])
        invariant SameOutside(before, writechunk[..], g)
        decreases |g| - k
      {
        data, pos, pulled := NextByte(source, data, pos, pulled, g, y, k);
        NextInGroup(next, g, k);
        PutByte(before, writechunk[..], g, y, k, size, Stream(source, pulled), data, pos);
        Put(z, y, data[pos]);
        pos := pos + 1;
        z := nextslave[z];
        more := z != 0;
        k := k + 1;
      }
      DealRow(writechunk[..], g, y, size, Stream(source, pulled), data[pos..]);
    }

    /** The master's turn in dahdi_transmit: deals the bytes of its chunks around its group,
        pulling exactly as many chunks as the group has channels. */
    method TransmitGroup(x: nat, source: nat -> Chunk) returns (pulled: nat)
      requires Valid() && Master(x) && Supplies(source, size)
      modifies writechunk
      ensures Valid() && Carries(writechunk[..], master[..], x, source, size)
      ensures pulled == |Group(master[..], x)|
      ensures SameOutside(old(writechunk[..]), writechunk[..], GroupOf(x))
    {
      ListIsGroup(x);
      ghost var g, before := GroupOf(x), writechunk[..];
      var data: Chunk := seq(size, i => 0);
      var pos := size;
      pulled := 0;
      NothingDealt(writechunk[..], g, size);
      assert data[pos..] == [] == Stream(source, 0);
      hide Group, Walk, Dealt, Stream, Linked, Flat, Increasing, Forward;
      for y := 0 to size
        invariant Valid() && 0 < pos <= size == |data|
        invariant Dealt(writechunk[..], g, y, 0, size, Stream(source, pulled), data[pos..])
        invariant SameOutside(before, writechunk[..], g)
      {
        data, pos, pulled := TransmitFrame(x, y, source, data, pos, pulled);
      }
      AllDealt(writechunk[..], g, size, source, pulled, data, pos);
    }

    /** dahdi_transmit over a span of clear channels: every master carries its own supply. */
    method Transmit(sources: nat -> nat -> Chunk)
      requires Valid() && forall x :: Supplies(sources(x), size)
      modifies writechunk
      ensures Valid()
      ensures forall x :: 0 <= x < master.Length && master[x] == x ==>
        Carries(writechunk[..], master[..], x, sources(x), size)
    {
      hide Carries, Linked, Flat, Forward, Supplies;
      for x := 0 to master.Length
        invariant Valid()
        invariant forall q :: 0 <= q < x && master[q] == q ==> Carries(writechunk[..], master[..], q, sources(q), size)
      {
        if master[x] == x {
          ghost var w := writechunk[..];
          var pulled := TransmitGroup(x, sources(x));
          forall q | 0 <= q < x && master[q] == q
            ensures Carries(writechunk[..], master[..], q, sources(q), size)
          {
            OthersStillCarry(w, writechunk[..], master[..], x, q, sources(q), size);
          }
        }
      }
    }

    /** One frame of the receiving side: a byte from each channel of the group. */
    method ReceiveFrame(x: nat, y: nat, got0: seq<Chunk>, data0: Chunk) returns (got: seq<Chunk>, data: Chunk)
      requires Valid() && Master(x) && y < size && Sized(got0, size) && |data0| < size
      requires Within(GroupOf(x), master.Length)
      requires Dealt(readchunk[..], GroupOf(x), y, 0, size, Joined(got0) + data0, [])
      ensures Sized(got, size) && |data| < size
      ensures Dealt(readchunk[..], GroupOf(x), y + 1, 0, size, Joined(got) + data, [])
    {
      ListIsGroup(x);
      ghost var g, next, w, k := GroupOf(x), nextslave[..], readchunk[..], 0;
      hide GroupOf, Group, Walk, Dealt, Joined, Consistent, Increasing, Forward;
      got, data := got0, data0;
      var z := x;
      var more := true;
      while more
        invariant k <= |g| && (more <==> k < |g|)
        invariant more ==> z == g[k] && Walk(next, z) == g[k..]
        invariant Sized(got, size) && |data| < size
        invariant Dealt(w, g, y, k, size, Joined(got) + data, [])
        decreases |g| - k
      {
        NextInGroup(next, g, k);
        TakeByte(w, g, y, k, size, got, data);
        data := data + [readchunk[z][y]];
        if |data| == size {
          got := got + [data];
          data := [];
        }
        z := nextslave[z];
        more := z != 0;
        k := k + 1;
      }
      DealRow(w, g, y, size, Joined(got) + data, []);
    }

    /** The master's turn in dahdi_receive: the chunks handed up, in order. */
    method ReceiveGroup(x: nat) returns (got: seq<Chunk>)
      requires Valid() && Master(x)
      ensures Yields(readchunk[..], master[..], x, got, size)
    {
      ListIsGroup(x);
      ghost var g := GroupOf(x);
      var data: Chunk := [];
      got := [];
      NothingDealt(readchunk[..], g, size);
      assert Joined(got) + data == [];
      hide Group, Walk, Dealt, Joined, Linked, Flat, Increasing, Forward;
      for y := 0 to size
        invariant Sized(got, size) && |data| < size
        invariant Dealt(readchunk[..], g, y, 0, size, Joined(got) + data, [])
      {
        got, data := ReceiveFrame(x, y, got, data);
      }
      AllSeen(readchunk[..], g, size, got, data);
    }
  }
}
