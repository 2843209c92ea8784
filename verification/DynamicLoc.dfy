/** Local dynamic spans: devices in a list, paired by key, some only monitoring another. */
module DynamicLoc {
  // ---------- addresses ----------

  function Digit2Int(d: char): (v: int)
    ensures v == -1 || 0 <= v < 16
  {
    if 'A' <= d <= 'F' then d as int - 'A' as int + 10
    else if 'a' <= d <= 'f' then d as int - 'a' as int + 10
    else if '0' <= d <= '9' then d as int - '0' as int
    else -1
  }

  datatype Address = Invalid | Address(key: nat, id: nat, monitor: int)

  /** "key:id", or "key:id:monitored id"; a bad third digit counts as none. */
  function Parse(address: string): (a: Address)
    ensures a.Address? ==> a.key < 16 && a.id < 16 && -1 <= a.monitor < 16
  {
    if |address| < 3 || address[1] != ':' || (|address| == 5 && address[3] != ':') then Invalid
    else
      var key, id := Digit2Int(address[0]), Digit2Int(address[2]);
      if key == -1 || id == -1 then Invalid
      else Address(key, id, if |address| == 5 then Digit2Int(address[4]) else -1)
  }

  // ---------- the graph ----------

  /** A listed device; peer and monitoring device by id, -1 for none, both of the same key. */
  datatype Dev = Dev(key: nat, id: nat, peer: int, mon: int)

  predicate Same(d: Dev, e: Dev) {
    d.key == e.key && d.id == e.id
  }

  predicate Listed(g: seq<Dev>, key: nat, id: int) {
    exists k :: 0 <= k < |g| && g[k].key == key && g[k].id == id
  }

  /** Keys and ids are unique, and every pointer leads to another listed device of the same key. */
  ghost predicate Sound(g: seq<Dev>) {
    && Unique(g)
    && (forall k :: 0 <= k < |g| && g[k].peer != -1 ==> Listed(g, g[k].key, g[k].peer))
    && (forall k :: 0 <= k < |g| && g[k].mon != -1 ==> Listed(g, g[k].key, g[k].mon))
    && (forall k :: 0 <= k < |g| ==> g[k].peer != g[k].id && g[k].mon != g[k].id)
  }

  /** Whether the new device may join beside a listed one. */
  predicate Admits(d: Dev, a: Address)
    requires a.Address?
  {
    d.key == a.key ==> d.id != a.id && (a.monitor == -1 ==> d.peer == -1) && (a.monitor == d.id ==> d.mon == -1)
  }

  predicate Accepted(g: seq<Dev>, a: Address) {
    a.Address? && forall k :: 0 <= k < |g| ==> Admits(g[k], a)
  }

  /** A listed device after the new one has joined. */
  function Joined(d: Dev, a: Address): Dev
    requires a.Address?
  {
    if d.key != a.key then d
    else d.(peer := if a.monitor == -1 then a.id else d.peer, mon := if a.monitor == d.id then a.id else d.mon)
  }

  /** The last device with a key, in list order. */
  function LastOf(g: seq<Dev>, key: nat): (r: int)
    ensures r == -1 <==> forall k :: 0 <= k < |g| ==> g[k].key != key
    ensures r != -1 ==> Listed(g, key, r)
  {
    if g == [] then -1
    else if g[|g| - 1].key == key then g[|g| - 1].id
    else LastOf(g[..|g| - 1], key)
  }

  /** ztdlocal_create: the new device goes to the front; a refused one changes nothing. */
  function Created(g: seq<Dev>, a: Address): seq<Dev> {
    if !Accepted(g, a) then g
    else
      [Dev(a.key, a.id, if a.monitor == -1 then LastOf(g, a.key) else -1, -1)] +
      seq(|g|, k requires 0 <= k < |g| => Joined(g[k], a))
  }

  /** A device after another of its key is gone. */
  function Left(d: Dev, key: nat, id: nat): Dev {
    if d.key != key then d
    else d.(peer := if d.peer == id then -1 else d.peer, mon := if d.mon == id then -1 else d.mon)
  }

  /** ztdlocal_destroy of the device at place `at`. */
  function Destroyed(g: seq<Dev>, at: nat): (r: seq<Dev>)
    requires at < |g|
    ensures |r| == |g| - 1
  {
    seq(|g| - 1, k requires 0 <= k < |g| - 1 => Left(g[if k < at then k else k + 1], g[at].key, g[at].id))
  }

  lemma {:induction false} CreatedIs(g: seq<Dev>, a: Address)
    requires Accepted(g, a)
    ensures var r := Created(g, a);
      && |r| == |g| + 1
      && r[0] == Dev(a.key, a.id, if a.monitor == -1 then LastOf(g, a.key) else -1, -1)
      && forall k :: 0 <= k < |g| ==> r[k + 1] == Joined(g[k], a)
  {
  }

  lemma {:induction false} StillListed(g: seq<Dev>, a: Address, key: nat, id: int)
    requires Accepted(g, a) && Listed(g, key, id)
    ensures Listed(Created(g, a), key, id)
  {
    CreatedIs(g, a);
    var k :| 0 <= k < |g| && g[k].key == key && g[k].id == id;
    assert Created(g, a)[k + 1].key == key && Created(g, a)[k + 1].id == id;
  }

  lemma {:induction false} IdIsNew(g: seq<Dev>, a: Address)
    requires Accepted(g, a)
    ensures !Listed(g, a.key, a.id)
  {
    assert forall k :: 0 <= k < |g| ==> Admits(g[k], a);
  }

  ghost predicate Unique(g: seq<Dev>) {
    forall i, k :: 0 <= i < k < |g| ==> !Same(g[i], g[k])
  }

  lemma {:induction false} NewDiffers(g: seq<Dev>, a: Address, k: nat)
    requires Accepted(g, a) && k < |g|
    ensures !(g[k].key == a.key && g[k].id == a.id)
  {
    assert Admits(g[k], a);
  }

  lemma {:induction false} JoinedIsSame(d: Dev, a: Address)
    requires a.Address?
    ensures Same(Joined(d, a), d)
  {
  }

  lemma {:induction false} NoTwoSame(g: seq<Dev>, a: Address, i: nat, k: nat)
    requires Unique(g) && Accepted(g, a) && i < k <= |g|
    ensures |Created(g, a)| == |g| + 1 && !Same(Created(g, a)[i], Created(g, a)[k])
  {
    CreatedIs(g, a);
    NewDiffers(g, a, k - 1);
    JoinedIsSame(g[k - 1], a);
    if i > 0 {
      JoinedIsSame(g[i - 1], a);
      assert !Same(g[i - 1], g[k - 1]);
    }
    hide Created, LastOf, Accepted, Joined, Unique;
  }

  lemma {:induction false} UniqueKept(g: seq<Dev>, a: Address)
    requires Unique(g) && Accepted(g, a)
    ensures Unique(Created(g, a))
  {
    CreatedIs(g, a);
    var r := Created(g, a);
    forall i, k | 0 <= i < k < |r| ensures !Same(r[i], r[k]) {
      hide Created, LastOf, Accepted, Same, Unique;
      NoTwoSame(g, a, i, k);
    }
  }

  lemma {:induction false} CreatedKeeps(g: seq<Dev>, a: Address)
    requires Sound(g)
    ensures Sound(Created(g, a))
  {
    if Accepted(g, a) {
      var r := Created(g, a);
      UniqueKept(g, a);
      hide Created, LastOf, Accepted, Listed;
      forall k | 0 <= k < |r|
        ensures r[k].peer != -1 ==> Listed(r, r[k].key, r[k].peer)
        ensures r[k].mon != -1 ==> Listed(r, r[k].key, r[k].mon)
        ensures r[k].peer != r[k].id && r[k].mon != r[k].id
      {
        CreatedIs(g, a);
        PointersKept(g, a, k);
      }
    }
  }

  lemma {:induction false} PointersKept(g: seq<Dev>, a: Address, k: nat)
    requires Sound(g) && Accepted(g, a) && k <= |g|
    ensures var r := Created(g, a);
      && |r| == |g| + 1
      && (r[k].peer != -1 ==> Listed(r, r[k].key, r[k].peer))
      && (r[k].mon != -1 ==> Listed(r, r[k].key, r[k].mon))
      && r[k].peer != r[k].id && r[k].mon != r[k].id
  {
    var r := Created(g, a);
    CreatedIs(g, a);
    assert r[0].key == a.key && r[0].id == a.id;
    if k == 0 {
      if r[0].peer != -1 {
        StillListed(g, a, a.key, r[0].peer);
        var j :| 0 <= j < |g| && g[j].key == a.key && g[j].id == r[0].peer;
        assert Admits(g[j], a);
      }
    } else {
      var d := g[k - 1];
      assert r[k] == Joined(d, a) && Admits(d, a);
      if d.peer != -1 {
        StillListed(g, a, d.key, d.peer);
      }
      if d.mon != -1 {
        StillListed(g, a, d.key, d.mon);
      }
    }
  }

  lemma {:induction false} DestroyedIs(g: seq<Dev>, at: nat)
    requires at < |g|
    ensures var r := Destroyed(g, at);
      && |r| == |g| - 1
      && (forall k :: 0 <= k < at ==> r[k] == Left(g[k], g[at].key, g[at].id))
      && (forall k :: at <= k < |r| ==> r[k] == Left(g[k + 1], g[at].key, g[at].id))
  {
  }

  lemma {:induction false} DestroyedKeeps(g: seq<Dev>, at: nat)
    requires Sound(g) && at < |g|
    ensures Sound(Destroyed(g, at))
  {
    var r := Destroyed(g, at);
    DestroyedIs(g, at);
    hide Destroyed, Listed;
    forall k | 0 <= k < |r|
      ensures r[k].peer != -1 ==> Listed(r, r[k].key, r[k].peer)
      ensures r[k].mon != -1 ==> Listed(r, r[k].key, r[k].mon)
      ensures r[k].peer != r[k].id && r[k].mon != r[k].id
    {
      var d := if k < at then g[k] else g[k + 1];
      assert r[k] == Left(d, g[at].key, g[at].id);
      if r[k].peer != -1 {
        ListedWithout(g, at, d.key, d.peer);
      }
      if r[k].mon != -1 {
        ListedWithout(g, at, d.key, d.mon);
      }
    }
    forall i, k | 0 <= i < k < |r| ensures !Same(r[i], r[k]) {
      assert !Same(g[if i < at then i else i + 1], g[if k < at then k else k + 1]);
    }
  }

  lemma {:induction false} ListedWithout(g: seq<Dev>, at: nat, key: nat, id: int)
    requires at < |g| && Listed(g, key, id) && !(g[at].key == key && g[at].id == id)
    ensures Listed(Destroyed(g, at), key, id)
  {
    DestroyedIs(g, at);
    var j :| 0 <= j < |g| && g[j].key == key && g[j].id == id;
    var r, i := Destroyed(g, at), if j < at then j else j - 1;
    assert r[i] == Left(g[j], g[at].key, g[at].id);
    assert r[i].key == key && r[i].id == id;
  }

  // ---------- peering ----------

  /** If one device sends to another, that one sends back. */
  ghost predicate Symmetric(g: seq<Dev>) {
    forall i, k :: 0 <= i < |g| && 0 <= k < |g| && g[i].key == g[k].key && g[i].peer == g[k].id ==> g[k].peer == g[i].id
  }

  ghost predicate Crowded(g: seq<Dev>, key: nat) {
    exists i, k :: 0 <= i < k < |g| && g[i].key == key && g[k].key == key
  }

  /** What a successful join does to the key, id and peer of a listed device. */
  lemma {:induction false} JoinedAt(g: seq<Dev>, a: Address, k: nat)
    requires Sound(g) && Accepted(g, a) && 0 < k <= |g|
    ensures var r, d := Created(g, a), g[k - 1];
      && |r| == |g| + 1
      && r[k].key == d.key && r[k].id == d.id
      && r[k].peer == (if d.key == a.key && a.monitor == -1 then a.id else d.peer)
      && (d.key == a.key ==> d.id != a.id && d.peer != a.id)
  {
    CreatedIs(g, a);
    IdIsNew(g, a);
    assert Created(g, a)[k] == Joined(g[k - 1], a) && Admits(g[k - 1], a);
    hide Created, LastOf, Accepted, Listed, Unique;
  }

  lemma {:induction false} JoinedPeers(g: seq<Dev>, a: Address)
    requires Sound(g) && Accepted(g, a)
    ensures var r := Created(g, a);
      && |r| == |g| + 1 && r[0].key == a.key && r[0].id == a.id
      && (forall k :: 0 < k < |r| ==> r[k].key == g[k - 1].key && r[k].id == g[k - 1].id)
      && (forall k :: 0 < k < |r| && r[k].key == a.key ==> g[k - 1].id != a.id && g[k - 1].peer != a.id)
      && (forall k :: 0 < k < |r| ==>
           r[k].peer == if g[k - 1].key == a.key && a.monitor == -1 then a.id else g[k - 1].peer)
      && r[0].peer == if a.monitor == -1 then LastOf(g, a.key) else -1
  {
    CreatedIs(g, a);
    var r := Created(g, a);
    hide Created, LastOf, Listed, Sound, Accepted, Joined;
    forall k | 0 < k < |r|
      ensures r[k].key == g[k - 1].key && r[k].id == g[k - 1].id
      ensures r[k].key == a.key ==> g[k - 1].id != a.id && g[k - 1].peer != a.id
      ensures r[k].peer == if g[k - 1].key == a.key && a.monitor == -1 then a.id else g[k - 1].peer
    {
      JoinedAt(g, a, k);
    }
  }

  /** Joining keeps peering symmetric exactly when the newcomer only monitors, or meets at
      most one device of its key: several unpeered ones, left by monitors, all point at it
      and it answers only the last. */
  lemma {:induction false} JoinKeepsSymmetry(g: seq<Dev>, a: Address)
    requires Sound(g) && Symmetric(g) && Accepted(g, a)
    ensures Symmetric(Created(g, a)) <==> a.monitor != -1 || !Crowded(g, a.key)
  {
    hide Sound, Created, LastOf, Symmetric, Crowded;
    if a.monitor != -1 {
      MonitorsAreOneWay(g, a);
    } else if Crowded(g, a.key) {
      CrowdIsLopsided(g, a);
    } else {
      PairIsSymmetric(g, a);
    }
  }

  lemma {:induction false} CrowdIsLopsided(g: seq<Dev>, a: Address)
    requires Sound(g) && Accepted(g, a) && a.monitor == -1 && Crowded(g, a.key)
    ensures !Symmetric(Created(g, a))
  {
    var r, last := Created(g, a), LastOf(g, a.key);
    JoinedPeers(g, a);
    var i, k :| 0 <= i < k < |g| && g[i].key == a.key && g[k].key == a.key;
    assert !Same(g[i], g[k]);
    hide Sound, Accepted, Created, LastOf;
    var j := if g[i].id == last then k else i;
    assert r[j + 1].peer == r[0].id && r[0].peer != r[j + 1].id;
  }

  lemma {:induction false} MonitorsAreOneWay(g: seq<Dev>, a: Address)
    requires Sound(g) && Symmetric(g) && Accepted(g, a) && a.monitor != -1
    ensures Symmetric(Created(g, a))
  {
    var r := Created(g, a);
    JoinedPeers(g, a);
    hide Created, Sound, Accepted, LastOf;
    forall i, k | 0 <= i < |r| && 0 <= k < |r| && r[i].key == r[k].key && r[i].peer == r[k].id
      ensures r[k].peer == r[i].id
    {
      assert i > 0 && k > 0;
      assert g[k - 1].peer == g[i - 1].id;
    }
  }

  lemma {:induction false} PairIsSymmetric(g: seq<Dev>, a: Address)
    requires Sound(g) && Symmetric(g) && Accepted(g, a) && a.monitor == -1 && !Crowded(g, a.key)
    ensures Symmetric(Created(g, a))
  {
    var r := Created(g, a);
    JoinedPeers(g, a);
    forall i | 0 <= i < |g| && g[i].key == a.key ensures LastOf(g, a.key) == g[i].id {
      OnlyOne(g, a.key, i);
    }
    hide Created, Sound, Accepted, LastOf, Crowded;
    forall i, k | 0 <= i < |r| && 0 <= k < |r| && r[i].key == r[k].key && r[i].peer == r[k].id
      ensures r[k].peer == r[i].id
    {
      if r[i].key == a.key {
        assert i > 0 ==> r[i].peer == a.id;
        assert i == 0 || k == 0;
      } else {
        assert i > 0 && k > 0;
        assert g[k - 1].peer == g[i - 1].id;
      }
    }
  }

  lemma {:induction false} OnlyOne(g: seq<Dev>, key: nat, i: nat)
    requires i < |g| && g[i].key == key && !Crowded(g, key)
    ensures LastOf(g, key) == g[i].id
  {
    var last := LastOf(g, key);
    var k :| 0 <= k < |g| && g[k].key == key && g[k].id == last;
    assert k == i;
  }

  /** Any two devices of one key are each other's peers; so no key has a third. */
  ghost predicate Paired(g: seq<Dev>) {
    forall i, k :: 0 <= i < |g| && 0 <= k < |g| && i != k && g[i].key == g[k].key ==> g[i].peer == g[k].id
  }

  lemma {:induction false} AtMostTwo(g: seq<Dev>, i: nat, j: nat, k: nat)
    requires Sound(g) && Paired(g) && i < j < k < |g|
    ensures !(g[i].key == g[j].key == g[k].key)
  {
    assert !Same(g[j], g[k]);
    assert g[i].key == g[j].key ==> g[i].peer == g[j].id;
    assert g[i].key == g[k].key ==> g[i].peer == g[k].id;
  }

  lemma {:induction false} NotCrowded(g: seq<Dev>, a: Address)
    requires Paired(g) && Accepted(g, a) && a.monitor == -1
    ensures !Crowded(g, a.key)
  {
    forall i, k | 0 <= i < k < |g| ensures !(g[i].key == a.key && g[k].key == a.key) {
      assert Admits(g[i], a);
      assert g[i].key == g[k].key ==> g[i].peer == g[k].id;
    }
  }

  lemma {:induction false} CreatedPairs(g: seq<Dev>, a: Address)
    requires Sound(g) && Symmetric(g) && Paired(g) && (a.Address? ==> a.monitor == -1)
    ensures Symmetric(Created(g, a)) && Paired(Created(g, a))
  {
    if Accepted(g, a) {
      var r := Created(g, a);
      NotCrowded(g, a);
      JoinKeepsSymmetry(g, a);
      JoinedPeers(g, a);
      forall k | 0 <= k < |g| && g[k].key == a.key ensures LastOf(g, a.key) == g[k].id {
        OnlyOne(g, a.key, k);
      }
      hide Created, LastOf, Symmetric, Sound, Accepted;
      forall i, k | 0 <= i < |r| && 0 <= k < |r| && i != k && r[i].key == r[k].key ensures r[i].peer == r[k].id {
        if i > 0 && k > 0 {
          assert g[i - 1].key == g[k - 1].key && g[i - 1].key != a.key;
        }
      }
    }
  }

  /** Where a device that stays was before. */
  function Was(at: nat, k: nat): nat {
    if k < at then k else k + 1
  }

  lemma {:induction false} DestroyedPeers(g: seq<Dev>, at: nat)
    requires Sound(g) && at < |g|
    ensures var r := Destroyed(g, at);
      && (forall k :: 0 <= k < |r| ==> r[k].key == g[Was(at, k)].key && r[k].id == g[Was(at, k)].id)
      && (forall k :: 0 <= k < |r| && r[k].key == g[at].key ==> r[k].id != g[at].id)
      && (forall k :: 0 <= k < |r| ==>
           r[k].peer == if r[k].key == g[at].key && g[Was(at, k)].peer == g[at].id then -1 else g[Was(at, k)].peer)
  {
    DestroyedIs(g, at);
    var r := Destroyed(g, at);
    forall k | 0 <= k < |r| ensures r[k].key == g[at].key ==> r[k].id != g[at].id {
      assert !Same(g[if k < at then k else at], g[if k < at then at else k + 1]);
    }
    hide Destroyed, Listed;
  }

  lemma {:induction false} DestroyedPairs(g: seq<Dev>, at: nat)
    requires Sound(g) && at < |g|
    ensures Symmetric(g) ==> Symmetric(Destroyed(g, at))
    ensures Symmetric(g) && Paired(g) ==> Paired(Destroyed(g, at))
  {
    var r := Destroyed(g, at);
    DestroyedPeers(g, at);
    hide Destroyed, Sound;
    if Symmetric(g) {
      forall i, k | 0 <= i < |r| && 0 <= k < |r| && r[i].key == r[k].key && r[i].peer == r[k].id
        ensures r[k].peer == r[i].id
      {
        assert g[Was(at, k)].peer == g[Was(at, i)].id;
      }
    }
    if Paired(g) {
      forall i, k | 0 <= i < |r| && 0 <= k < |r| && i != k && r[i].key == r[k].key ensures r[i].peer == r[k].id {
        assert g[Was(at, i)].peer == g[Was(at, k)].id;
      }
    }
  }

  // ---------- which devices are created ----------

  lemma {:induction false} DigitsAre(d: nat, c: char)
    requires d < 16
    ensures Digit2Int("0123456789ABCDEF"[d]) == d == Digit2Int("0123456789abcdef"[d])
    ensures Digit2Int(c) >= 0 ==>
      c == "0123456789ABCDEF"[Digit2Int(c)] || c == "0123456789abcdef"[Digit2Int(c)]
  {
  }

  /** Addresses as text: a digit, a colon and a digit, and what follows; only exactly two more
      characters, a colon and a digit, name a device to monitor. */
  lemma {:induction false} ParseIs(key: nat, id: nat, mon: nat, rest: string)
    requires key < 16 && id < 16 && mon < 16
    ensures var hex := "0123456789ABCDEF"; var start := [hex[key], ':', hex[id]];
      && Parse(start + [':', hex[mon]]) == Address(key, id, mon)
      && (|rest| != 2 ==> Parse(start + rest) == Address(key, id, -1))
  {
    DigitsAre(key, 'x');
    DigitsAre(id, 'x');
    DigitsAre(mon, 'x');
    hide Digit2Int;
  }

  /** Among paired devices a new one that monitors nothing is created if and only if its id is not
      taken and its key has not two devices yet; and if there is one, they send to each other. */
  lemma {:induction false} PairingIs(g: seq<Dev>, a: Address)
    requires Sound(g) && Paired(g) && a.Address? && a.monitor == -1
    ensures Created(g, a) != g <==> !Listed(g, a.key, a.id) && !Crowded(g, a.key)
    ensures var r := Created(g, a);
      r != g ==>
        && |r| == |g| + 1 && r[0].key == a.key && r[0].id == a.id
        && (forall k :: 0 <= k < |g| && g[k].key == a.key ==> r[0].peer == g[k].id && r[k + 1].peer == a.id)
        && (forall k :: 0 <= k < |g| && g[k].key != a.key ==> r[k + 1] == g[k])
        && (!Listed(g, a.key, r[0].peer) ==> r[0].peer == -1)
  {
    if Accepted(g, a) {
      IdIsNew(g, a);
      NotCrowded(g, a);
      CreatedIs(g, a);
      forall k | 0 <= k < |g| && g[k].key == a.key ensures LastOf(g, a.key) == g[k].id {
        OnlyOne(g, a.key, k);
      }
    } else if !Listed(g, a.key, a.id) {
      var k :| 0 <= k < |g| && !Admits(g[k], a);
      AnotherOfKey(g, k);
    }
  }

  /** A device that sends has another of its key beside it. */
  lemma {:induction false} AnotherOfKey(g: seq<Dev>, k: nat)
    requires Sound(g) && k < |g| && g[k].peer != -1
    ensures Crowded(g, g[k].key)
  {
    var j :| 0 <= j < |g| && g[j].key == g[k].key && g[j].id == g[k].peer;
    assert j < k || k < j;
  }

  /** A new device that monitors another is created if and only if its id is not taken and that
      other, if it is there, has no monitor; it sends to nobody, and is told what that other gets. */
  lemma {:induction false} MonitoringIs(g: seq<Dev>, a: Address)
    requires Sound(g) && a.Address? && a.monitor != -1
    ensures Created(g, a) != g <==>
      && !Listed(g, a.key, a.id)
      && forall k :: 0 <= k < |g| && g[k].key == a.key && g[k].id == a.monitor ==> g[k].mon == -1
    ensures var r := Created(g, a);
      r != g ==>
        && r[0] == Dev(a.key, a.id, -1, -1) && |r| == |g| + 1
        && forall k :: 0 <= k < |g| ==>
             r[k + 1] == if g[k].key == a.key && g[k].id == a.monitor then g[k].(mon := a.id) else g[k]
  {
    if Accepted(g, a) {
      IdIsNew(g, a);
      CreatedIs(g, a);
      assert forall k :: 0 <= k < |g| ==> Admits(g[k], a);
    } else if !Listed(g, a.key, a.id) {
      var k :| 0 <= k < |g| && !Admits(g[k], a);
      assert g[k].key == a.key && g[k].id == a.monitor && g[k].mon != -1;
    }
  }

  // ---------- runs ----------

  datatype Action = Create(address: string) | Destroy(at: nat)

  function Act(g: seq<Dev>, x: Action): seq<Dev> {
    match x
    case Create(address) => Created(g, Parse(address))
    case Destroy(at) => if at < |g| then Destroyed(g, at) else g
  }

  function Run(g: seq<Dev>, actions: seq<Action>): seq<Dev>
    decreases |actions|
  {
    if actions == [] then g else Run(Act(g, actions[0]), actions[1..])
  }

  ghost predicate NoMonitors(actions: seq<Action>) {
    forall k :: 0 <= k < |actions| ==> actions[k].Create? ==>
      Parse(actions[k].address).Address? ==> Parse(actions[k].address).monitor == -1
  }

  lemma {:induction false} RunIsSound(g: seq<Dev>, actions: seq<Action>)
    requires Sound(g)
    ensures Sound(Run(g, actions))
    ensures Symmetric(g) && Paired(g) && NoMonitors(actions) ==> Symmetric(Run(g, actions)) && Paired(Run(g, actions))
    decreases |actions|
  {
    if actions != [] {
      var x := actions[0];
      match x {
        case Create(address) =>
          CreatedKeeps(g, Parse(address));
          if Symmetric(g) && Paired(g) && NoMonitors(actions) {
            assert Parse(actions[0].address) == Parse(address);
            CreatedPairs(g, Parse(address));
          }
        case Destroy(at) =>
          if at < |g| {
            DestroyedKeeps(g, at);
            DestroyedPairs(g, at);
          }
      }
      assert NoMonitors(actions) ==> NoMonitors(actions[1..]);
      hide Sound, Symmetric, Paired, NoMonitors, Created, Destroyed;
      RunIsSound(Act(g, x), actions[1..]);
    }
  }

  /** From nothing, without monitors: unique devices, at most two to a key, each sending to the other. */
  lemma {:induction false} LocalPairs(actions: seq<Action>)
    ensures Sound(Run([], actions))
    ensures NoMonitors(actions) ==> Symmetric(Run([], actions)) && Paired(Run([], actions))
  {
    RunIsSound([], actions);
  }

  /** A device, a monitor of it, and then a third one: the monitor sends to the third, which does not answer it. */
  lemma {:induction false} MonitorIsNotAnswered()
    ensures var g := Run([], [Create("1:2"), Create("1:3:2"), Create("1:4")]);
      && g == [Dev(1, 4, 2, -1), Dev(1, 3, 4, -1), Dev(1, 2, 4, 3)]
      && !Symmetric(g)
  {
    var acts := [Create("1:2"), Create("1:3:2"), Create("1:4")];
    assert acts[1..] == [Create("1:3:2"), Create("1:4")] && acts[1..][1..] == [Create("1:4")];
    assert Parse("1:2") == Address(1, 2, -1) && Parse("1:3:2") == Address(1, 3, 2) && Parse("1:4") == Address(1, 4, -1);
    var g1, g2 := [Dev(1, 2, -1, -1)], [Dev(1, 3, -1, -1), Dev(1, 2, -1, 3)];
    assert Act([], acts[0]) == g1;
    assert Act(g1, acts[1]) == g2;
    var g := [Dev(1, 4, 2, -1), Dev(1, 3, 4, -1), Dev(1, 2, 4, 3)];
    assert Act(g2, acts[2]) == g;
    hide Act;
    RunThree([], acts[0], acts[1], acts[2]);
    assert g[1].peer == g[0].id && g[0].peer != g[1].id;
  }

  lemma {:induction false} RunThree(g: seq<Dev>, a: Action, b: Action, c: Action)
    ensures Run(g, [a, b, c]) == Act(Act(Act(g, a), b), c)
  {
    hide Act;
    assert [a, b, c][1..] == [b, c] && [b, c][1..] == [c] && [c][1..] == [];
    assert Run(Act(g, a), [b, c]) == Run(Act(Act(g, a), b), [c]);
  }

  // ---------- the list ----------

  class Node {
    const key: nat
    const id: nat
    var monitorRxPeer: Node?
    var peer: Node?
    var next: Node?

    constructor (key: nat, id: nat)
      ensures this.key == key && this.id == id && peer == null && monitorRxPeer == null && next == null
    {
      this.key, this.id := key, id;
      peer, monitorRxPeer, next := null, null, null;
    }
  }

  function IdOf(n: Node?): int {
    if n == null then -1 else n.id
  }

  /** The graph given by the listed nodes and their two rows of pointers. */
  function ValueOf(devs: seq<Node>, peers: seq<Node?>, mons: seq<Node?>): (g: seq<Dev>)
    requires |peers| == |mons| == |devs|
    ensures |g| == |devs|
  {
    seq(|devs|, i requires 0 <= i < |devs| => Dev(devs[i].key, devs[i].id, IdOf(peers[i]), IdOf(mons[i])))
  }

  /** Every pointer in a row leads to a listed device of its owner's key. */
  ghost predicate Aim(devs: seq<Node>, row: seq<Node?>)
    requires |row| == |devs|
  {
    forall i :: 0 <= i < |devs| && row[i] != null ==> row[i] in devs && row[i].key == devs[i].key
  }

  /** A row after every pointer to `z` is dropped. */
  function Without(row: seq<Node?>, z: Node): (r: seq<Node?>)
    ensures |r| == |row|
  {
    seq(|row|, i requires 0 <= i < |row| => if row[i] == z then null else row[i])
  }

  function NewPeers(devs: seq<Node>, row: seq<Node?>, z: Node, monitor: int): (r: seq<Node?>)
    requires |row| == |devs|
    ensures |r| == |row|
  {
    seq(|row|, i requires 0 <= i < |row| => if devs[i].key == z.key && monitor == -1 then z else row[i])
  }

  function NewMons(devs: seq<Node>, row: seq<Node?>, z: Node, monitor: int): (r: seq<Node?>)
    requires |row| == |devs|
    ensures |r| == |row|
  {
    seq(|row|, i requires 0 <= i < |row| => if devs[i].key == z.key && monitor == devs[i].id then z else row[i])
  }

  lemma {:induction false} JoinValue(devs: seq<Node>, peers: seq<Node?>, mons: seq<Node?>, z: Node, zpeer: Node?,
      a: Address)
    requires |peers| == |mons| == |devs| && Aim(devs, peers) && Aim(devs, mons)
    requires a.Address? && a.key == z.key && a.id == z.id && Accepted(ValueOf(devs, peers, mons), a)
    requires zpeer != null ==> zpeer in devs && zpeer.key == z.key
    requires IdOf(zpeer) == if a.monitor == -1 then LastOf(ValueOf(devs, peers, mons), z.key) else -1
    ensures var ps, ms := [zpeer] + NewPeers(devs, peers, z, a.monitor), [null] + NewMons(devs, mons, z, a.monitor);
      && ValueOf([z] + devs, ps, ms) == Created(ValueOf(devs, peers, mons), a)
      && Aim([z] + devs, ps) && Aim([z] + devs, ms)
  {
    JoinedValue(devs, peers, mons, z, zpeer, a);
    hide ValueOf, LastOf, Created, Accepted;
    AimJoined(devs, peers, z, zpeer, NewPeers(devs, peers, z, a.monitor));
    AimJoined(devs, mons, z, null, NewMons(devs, mons, z, a.monitor));
  }

  lemma {:induction false} JoinedValue(devs: seq<Node>, peers: seq<Node?>, mons: seq<Node?>, z: Node, zpeer: Node?,
      a: Address)
    requires |peers| == |mons| == |devs|
    requires a.Address? && a.key == z.key && a.id == z.id && Accepted(ValueOf(devs, peers, mons), a)
    requires IdOf(zpeer) == if a.monitor == -1 then LastOf(ValueOf(devs, peers, mons), z.key) else -1
    ensures var ps, ms := [zpeer] + NewPeers(devs, peers, z, a.monitor), [null] + NewMons(devs, mons, z, a.monitor);
      ValueOf([z] + devs, ps, ms) == Created(ValueOf(devs, peers, mons), a)
  {
    var g := ValueOf(devs, peers, mons);
    CreatedIs(g, a);
    hide LastOf, Created, Accepted, Joined, ValueOf, NewPeers, NewMons;
    var ps, ms := [zpeer] + NewPeers(devs, peers, z, a.monitor), [null] + NewMons(devs, mons, z, a.monitor);
    var v := ValueOf([z] + devs, ps, ms);
    FrontValue(devs, ps, ms, z);
    forall k | 0 < k < |v| ensures v[k] == Created(g, a)[k] {
      JoinedValueAt(devs, peers, mons, z, zpeer, a, k - 1);
    }
    assert v == Created(g, a);
  }

  lemma {:induction false} FrontValue(devs: seq<Node>, ps: seq<Node?>, ms: seq<Node?>, z: Node)
    requires |ps| == |ms| == |devs| + 1
    ensures ValueOf([z] + devs, ps, ms)[0] == Dev(z.key, z.id, IdOf(ps[0]), IdOf(ms[0]))
  {
  }

  lemma {:induction false} JoinedValueAt(devs: seq<Node>, peers: seq<Node?>, mons: seq<Node?>, z: Node, zpeer: Node?,
      a: Address, k: nat)
    requires |peers| == |mons| == |devs| && k < |devs| && a.Address? && a.key == z.key && a.id == z.id
    ensures var ps, ms := [zpeer] + NewPeers(devs, peers, z, a.monitor), [null] + NewMons(devs, mons, z, a.monitor);
      ValueOf([z] + devs, ps, ms)[k + 1] == Joined(ValueOf(devs, peers, mons)[k], a)
  {
    assert ([z] + devs)[k + 1] == devs[k];
  }

  /** A row in which some pointers now lead to a new device of the same key, and its own. */
  lemma {:induction false} AimJoined(devs: seq<Node>, row: seq<Node?>, z: Node, own: Node?, row': seq<Node?>)
    requires |row| == |row'| == |devs| && Aim(devs, row)
    requires own != null ==> own in devs && own.key == z.key
    requires forall i :: 0 <= i < |row| ==> row'[i] == row[i] || (row'[i] == z && devs[i].key == z.key)
    ensures Aim([z] + devs, [own] + row')
  {
    var ds, r := [z] + devs, [own] + row';
    assert forall d :: d in devs ==> d in ds;
    forall i | 0 <= i < |ds| && r[i] != null ensures r[i] in ds && r[i].key == ds[i].key {
      if i > 0 {
        assert ds[i] == devs[i - 1] && r[i] == row'[i - 1];
      }
    }
  }

  lemma {:induction false} OneNode(devs: seq<Node>, peers: seq<Node?>, mons: seq<Node?>, i: nat, k: nat)
    requires |peers| == |mons| == |devs| && Unique(ValueOf(devs, peers, mons)) && i < |devs| && k < |devs|
    requires devs[i].key == devs[k].key && devs[i].id == devs[k].id
    ensures i == k
  {
    var g := ValueOf(devs, peers, mons);
    assert Same(g[i], g[k]);
  }

  /** Pointers by node and pointers by id drop the same ones. */
  lemma {:induction false} DropValue(devs: seq<Node>, row: seq<Node?>, peers: seq<Node?>, mons: seq<Node?>, at: nat,
      i: nat)
    requires |peers| == |mons| == |devs| == |row| && Unique(ValueOf(devs, peers, mons)) && Aim(devs, row)
    requires at < |devs| && i < |devs|
    ensures row[i] == devs[at] <==> devs[i].key == devs[at].key && IdOf(row[i]) == devs[at].id
  {
    if row[i] != null && devs[i].key == devs[at].key && IdOf(row[i]) == devs[at].id {
      var k :| 0 <= k < |devs| && devs[k] == row[i];
      OneNode(devs, peers, mons, at, k);
    }
  }

  ghost predicate Distinct(devs: seq<Node>) {
    forall i, k :: 0 <= i < k < |devs| ==> devs[i] != devs[k]
  }

  lemma {:induction false} DistinctCons(z: Node, devs: seq<Node>)
    requires Distinct(devs) && z !in devs
    ensures Distinct([z] + devs)
  {
  }

  lemma {:induction false} DistinctRemoved(devs: seq<Node>, at: nat)
    requires Distinct(devs) && at < |devs|
    ensures Distinct(Removed(devs, at))
  {
    var r := Removed(devs, at);
    forall i, k | 0 <= i < k < |r| ensures r[i] != r[k] {
      assert devs[Was(at, i)] != devs[Was(at, k)];
    }
  }

  lemma {:induction false} ThereOnce(devs: seq<Node>, at: nat)
    requires Distinct(devs) && at < |devs|
    ensures forall k :: 0 <= k < |devs| && devs[k] == devs[at] ==> k == at
  {
  }

  /** The node behind the one at place `k`. */
  function After(devs: seq<Node>, k: nat): Node? {
    if k + 1 < |devs| then devs[k + 1] else null
  }

  function Removed<T>(s: seq<T>, at: nat): (r: seq<T>)
    requires at < |s|
    ensures |r| == |s| - 1
    ensures forall k :: 0 <= k < |r| ==> r[k] == s[Was(at, k)]
  {
    s[..at] + s[at + 1..]
  }

  lemma {:induction false} DestroyValue(devs: seq<Node>, peers: seq<Node?>, mons: seq<Node?>, at: nat)
    requires |peers| == |mons| == |devs| && Aim(devs, peers) && Aim(devs, mons)
    requires Unique(ValueOf(devs, peers, mons)) && at < |devs|
    ensures var ds := Removed(devs, at);
      var ps, ms := Removed(Without(peers, devs[at]), at), Removed(Without(mons, devs[at]), at);
      && ValueOf(ds, ps, ms) == Destroyed(ValueOf(devs, peers, mons), at)
      && Aim(ds, ps) && Aim(ds, ms)
  {
    var g, z := ValueOf(devs, peers, mons), devs[at];
    var ds, ps, ms := Removed(devs, at), Removed(Without(peers, z), at), Removed(Without(mons, z), at);
    var v := ValueOf(ds, ps, ms);
    forall k | 0 <= k < |v| ensures v[k] == Destroyed(g, at)[k] {
      DropValue(devs, peers, peers, mons, at, Was(at, k));
      DropValue(devs, mons, peers, mons, at, Was(at, k));
      assert Destroyed(g, at)[k] == Left(g[Was(at, k)], z.key, z.id);
    }
    AimWithout(devs, peers, at);
    AimWithout(devs, mons, at);
  }

  lemma {:induction false} AimWithout(devs: seq<Node>, row: seq<Node?>, at: nat)
    requires |row| == |devs| && Aim(devs, row) && at < |devs|
    ensures Aim(Removed(devs, at), Removed(Without(row, devs[at]), at))
  {
    var ds, r := Removed(devs, at), Removed(Without(row, devs[at]), at);
    forall k | 0 <= k < |ds| && r[k] != null ensures r[k] in ds && r[k].key == ds[k].key {
      var j :| 0 <= j < |devs| && devs[j] == row[Was(at, k)];
      assert ds[if j < at then j else j - 1] == r[k];
    }
  }

  class Driver {
    var zdevs: Node?
    ghost var devs: seq<Node>

    ghost function At(i: nat): Node?
      reads this
    {
      if i < |devs| then devs[i] else null
    }

    /** The list is `devs`, front first. */
    ghost predicate Chained()
      reads this, devs
    {
      && Distinct(devs)
      && zdevs == At(0)
      && forall i :: 0 <= i < |devs| ==> devs[i].next == At(i + 1)
    }

    ghost function Peers(): (r: seq<Node?>)
      reads this, devs
      ensures |r| == |devs|
    {
      seq(|devs|, i requires 0 <= i < |devs| reads this, devs => devs[i].peer)
    }

    ghost function Mons(): (r: seq<Node?>)
      reads this, devs
      ensures |r| == |devs|
    {
      seq(|devs|, i requires 0 <= i < |devs| reads this, devs => devs[i].monitorRxPeer)
    }

    ghost function Value(): seq<Dev>
      reads this, devs
    {
      ValueOf(devs, Peers(), Mons())
    }

    ghost predicate Valid()
      reads this, devs
    {
      Chained() && Aim(devs, Peers()) && Aim(devs, Mons()) && Sound(Value())
    }

    constructor ()
      ensures Valid() && devs == []
    {
      zdevs, devs := null, [];
    }

    /** The loop that drops every pointer to `z`. */
    method DropPointers(z: Node)
      requires Chained()
      modifies devs
      ensures Chained() && Peers() == Without(old(Peers()), z) && Mons() == Without(old(Mons()), z)
    {
      var cur := zdevs;
      ghost var i, peers, mons := 0, Peers(), Mons();
      assert zdevs == At(0);
      hide UpTo, Without, Peers, Mons, Chained;
      NoneYet(peers, Without(peers, z));
      NoneYet(mons, Without(mons, z));
      while cur != null
        invariant 0 <= i <= |devs| && cur == At(i) && Chained()
        invariant UpTo(Peers(), peers, Without(peers, z), i) && UpTo(Mons(), mons, Without(mons, z), i)
        decreases |devs| - i
      {
        DropAt(cur, z, i, peers, mons);
        cur := cur.next;
        i := i + 1;
      }
      UpToAll(Peers(), peers, Without(peers, z));
      UpToAll(Mons(), mons, Without(mons, z));
    }

    method DropAt(cur: Node, z: Node, ghost i: nat, ghost peers: seq<Node?>, ghost mons: seq<Node?>)
      requires Chained() && i < |devs| && cur == devs[i]
      requires UpTo(Peers(), peers, Without(peers, z), i) && UpTo(Mons(), mons, Without(mons, z), i)
      modifies cur
      ensures Chained() && cur.next == At(i + 1)
      ensures UpTo(Peers(), peers, Without(peers, z), i + 1) && UpTo(Mons(), mons, Without(mons, z), i + 1)
    {
      assert Peers()[i] == cur.peer && Mons()[i] == cur.monitorRxPeer;
      if cur.peer == z {
        cur.peer := null;
      }
      if cur.monitorRxPeer == z {
        cur.monitorRxPeer := null;
      }
      assert Peers()[i] == cur.peer && Mons()[i] == cur.monitorRxPeer;
      assert forall k :: 0 <= k < |devs| && k != i ==> Peers()[k] == old(Peers())[k] && Mons()[k] == old(Mons())[k];
    }

    /** The place of `z` in the list, and its predecessor. */
    method Find(z: Node) returns (prev: Node?, cur: Node?, ghost i: nat)
      requires Chained()
      ensures i <= |devs| && cur == At(i) && prev == (if i == 0 then null else devs[i - 1])
      ensures cur == null || cur == z
      ensures cur == null ==> z !in devs
    {
      prev := null;
      cur := zdevs;
      i := 0;
      while cur != null && cur != z
        invariant 0 <= i <= |devs| && cur == At(i) && prev == (if i == 0 then null else devs[i - 1])
        invariant z !in devs[..i]
        decreases |devs| - i
      {
        prev := cur;
        cur := cur.next;
        i := i + 1;
      }
      assert devs[..|devs|] == devs;
    }

    /** The loop that takes `z` out of the list. */
    method Unlink(z: Node)
      requires Chained()
      modifies this, devs
      ensures Chained()
      ensures z !in old(devs) ==> devs == old(devs) && Peers() == old(Peers()) && Mons() == old(Mons())
      ensures (forall at :: 0 <= at < |old(devs)| && old(devs)[at] == z ==>
        devs == Removed(old(devs), at) && Peers() == Removed(old(Peers()), at) && Mons() == Removed(old(Mons()), at))
    {
      ghost var i: nat;
      var prev, cur;
      prev, cur, i := Find(z);
      hide Peers, Mons, Distinct, Removed;
      if cur != null {
        ThereOnce(devs, i);
        Cut(prev, cur, i);
      }
    }

    /** Taking the device at place `i` out of the list. */
    method Cut(prev: Node?, cur: Node, ghost i: nat)
      requires Chained() && i < |devs| && cur == devs[i] && prev == (if i == 0 then null else devs[i - 1])
      modifies this, prev
      ensures Chained() && devs == Removed(old(devs), i)
      ensures Peers() == Removed(old(Peers()), i) && Mons() == Removed(old(Mons()), i)
    {
      DistinctRemoved(devs, i);
      if prev != null {
        CutAfter(prev, cur, i);
      } else {
        hide Distinct, Peers, Mons;
        zdevs := cur.next;
        devs := Removed(devs, i);
        RowsRemoved(i);
      }
    }

    method CutAfter(prev: Node, cur: Node, ghost i: nat)
      requires Chained() && 0 < i < |devs| && cur == devs[i] && prev == devs[i - 1] && Distinct(Removed(devs, i))
      modifies this, prev
      ensures Chained() && devs == Removed(old(devs), i)
      ensures Peers() == Removed(old(Peers()), i) && Mons() == Removed(old(Mons()), i)
    {
      hide Distinct, Peers, Mons, Removed, Chained;
      prev.next := cur.next;
      devs := Removed(devs, i);
      RowsCut(i);
    }

    /** Skipping `devs[i]` leaves the rest chained, and the other pointers alone. */
    twostate lemma {:induction false} RowsCut(i: nat)
      requires old(Chained()) && 0 < i < |old(devs)| && devs == Removed(old(devs), i) && Distinct(devs)
      requires zdevs == old(zdevs) && old(devs)[i - 1].next == old(devs[i].next)
      requires forall n :: n in old(devs) && n != old(devs)[i - 1] ==> n.next == old(n.next)
      requires forall n :: n in old(devs) ==> n.peer == old(n.peer) && n.monitorRxPeer == old(n.monitorRxPeer)
      ensures Chained()
      ensures Peers() == Removed(old(Peers()), i) && Mons() == Removed(old(Mons()), i)
    {
      ghost var ds := old(devs);
      ThereOnce(ds, i - 1);
      assert forall k :: 0 <= k < |ds| ==> old(ds[k].next) == After(ds, k);
      hide Distinct, Peers, Mons, Removed, After;
      CutLinks(ds, i);
      assert forall k :: 0 <= k < |devs| ==> devs[k] == old(devs)[Was(i, k)];
      RowsRemoved(i);
    }

    /** With the node before the removed one linked to the node behind it, the rest is chained. */
    lemma {:induction false} CutLinks(ds: seq<Node>, i: nat)
      requires 0 < i < |ds| && devs == Removed(ds, i)
      requires forall k :: 0 <= k < |ds| ==> ds[k].next == if k == i - 1 then After(ds, i) else After(ds, k)
      ensures forall k :: 0 <= k < |devs| ==> devs[k].next == At(k + 1)
    {
      hide Removed;
      forall k | 0 <= k < |devs| ensures devs[k].next == At(k + 1) {
        assert devs[k] == ds[Was(i, k)] && (k + 1 < |devs| ==> devs[k + 1] == ds[Was(i, k + 1)]);
      }
    }

    twostate lemma {:induction false} RowsRemoved(i: nat)
      requires i < |old(devs)| && devs == Removed(old(devs), i)
      requires forall n :: n in devs ==> n.peer == old(n.peer) && n.monitorRxPeer == old(n.monitorRxPeer)
      ensures Peers() == Removed(old(Peers()), i) && Mons() == Removed(old(Mons()), i)
    {
      assert forall k :: 0 <= k < |devs| ==> devs[k] == old(devs)[Was(i, k)];
    }

    /** The new device is offered to one listed device. */
    method Offer(l: Node, z: Node, monitor: int) returns (ok: bool)
      requires l != z && -1 <= monitor
      modifies l, z
      ensures (ok <==>
        l.key == z.key ==>
          l.id != z.id && (monitor == -1 ==> old(l.peer) == null) && (monitor == l.id ==> old(l.monitorRxPeer) == null))
      ensures !ok ==> l.peer == old(l.peer) && l.monitorRxPeer == old(l.monitorRxPeer) && z.peer == old(z.peer)
      ensures ok ==> l.peer == (if l.key == z.key && monitor == -1 then z else old(l.peer))
      ensures ok ==> l.monitorRxPeer == (if l.key == z.key && monitor == l.id then z else old(l.monitorRxPeer))
      ensures ok ==> z.peer == (if l.key == z.key && monitor == -1 then l else old(z.peer))
      ensures l.next == old(l.next) && z.next == old(z.next) && z.monitorRxPeer == old(z.monitorRxPeer)
    {
      if l.key == z.key {
        if l.id == z.id {
          return false;
        }
        if monitor == -1 {
          if l.peer != null {
            return false;
          }
          l.peer := z;
          z.peer := l;
        }
        if monitor == l.id {
          if l.monitorRxPeer != null {
            return false;
          }
          l.monitorRxPeer := z;
        }
      }
      ok := true;
    }

    method OfferAt(l: Node, z: Node, monitor: int, ghost i: nat, ghost peers: seq<Node?>, ghost mons: seq<Node?>)
      returns (ok: bool)
      requires Chained() && z !in devs && -1 <= monitor && i < |devs| && l == devs[i] && |peers| == |mons| == |devs|
      requires UpTo(Peers(), peers, NewPeers(devs, peers, z, monitor), i)
      requires UpTo(Mons(), mons, NewMons(devs, mons, z, monitor), i)
      modifies l, z
      ensures Chained() && z.monitorRxPeer == old(z.monitorRxPeer) && z.next == old(z.next)
      ensures (ok <==>
        l.key == z.key ==>
          l.id != z.id && (monitor == -1 ==> peers[i] == null) && (monitor == l.id ==> mons[i] == null))
      ensures UpTo(Peers(), peers, NewPeers(devs, peers, z, monitor), if ok then i + 1 else i)
      ensures UpTo(Mons(), mons, NewMons(devs, mons, z, monitor), if ok then i + 1 else i)
      ensures z.peer == (if ok && l.key == z.key && monitor == -1 then l else old(z.peer))
      ensures l.next == At(i + 1)
    {
      assert Peers()[i] == l.peer && Mons()[i] == l.monitorRxPeer;
      ok := Offer(l, z, monitor);
      assert Peers()[i] == l.peer && Mons()[i] == l.monitorRxPeer;
      assert forall k :: 0 <= k < |devs| && k != i ==> Peers()[k] == old(Peers())[k] && Mons()[k] == old(Mons())[k];
    }

    /** One turn of the loop of ztdlocal_create. */
    method OfferNext(l: Node, z: Node, monitor: int, ghost i: nat, ghost peers: seq<Node?>, ghost mons: seq<Node?>)
      returns (ok: bool, next: Node?)
      requires Chained() && z !in devs && -1 <= monitor && i < |devs| && l == devs[i] && |peers| == |mons| == |devs|
      requires AllAdmit(ValueOf(devs, peers, mons), Address(z.key, z.id, monitor), i)
      requires UpTo(Peers(), peers, NewPeers(devs, peers, z, monitor), i)
      requires UpTo(Mons(), mons, NewMons(devs, mons, z, monitor), i)
      requires z.peer != null ==> z.peer in devs && z.peer.key == z.key
      requires IdOf(z.peer) == if monitor == -1 then LastOf(ValueOf(devs, peers, mons)[..i], z.key) else -1
      modifies l, z
      ensures Chained() && z.monitorRxPeer == old(z.monitorRxPeer) && z.next == old(z.next) && next == At(i + 1)
      ensures ok <==> Admits(ValueOf(devs, peers, mons)[i], Address(z.key, z.id, monitor))
      ensures AllAdmit(ValueOf(devs, peers, mons), Address(z.key, z.id, monitor), if ok then i + 1 else i)
      ensures UpTo(Peers(), peers, NewPeers(devs, peers, z, monitor), if ok then i + 1 else i)
      ensures UpTo(Mons(), mons, NewMons(devs, mons, z, monitor), if ok then i + 1 else i)
      ensures z.peer != null ==> z.peer in devs && z.peer.key == z.key
      ensures var g := ValueOf(devs, peers, mons);
        IdOf(z.peer) == if monitor == -1 then LastOf(g[..if ok then i + 1 else i], z.key) else -1
    {
      ghost var a := Address(z.key, z.id, monitor);
      hide LastOf, Admits, ValueOf, AllAdmit, UpTo, Peers, Mons, NewPeers, NewMons, Chained;
      AdmitsMeans(devs, peers, mons, i, a);
      LastSoFar(devs, peers, mons, i, z.key);
      AdmitOne(ValueOf(devs, peers, mons), a, i);
      ok := OfferAt(l, z, monitor, i, peers, mons);
      next := l.next;
    }

    /** The loop of ztdlocal_create: the new device is offered to one listed device after another. */
    method OfferAll(z: Node, monitor: int) returns (ok: bool, ghost i: nat)
      requires Chained() && z !in devs && -1 <= monitor && z.peer == null && z.monitorRxPeer == null
      modifies devs, z
      ensures Chained() && z.monitorRxPeer == null && z.next == old(z.next) && i <= |devs| && (ok <==> i == |devs|)
      ensures AllAdmit(old(Value()), Address(z.key, z.id, monitor), i)
      ensures !ok ==> !Admits(old(Value())[i], Address(z.key, z.id, monitor))
      ensures UpTo(Peers(), old(Peers()), NewPeers(devs, old(Peers()), z, monitor), i)
      ensures UpTo(Mons(), old(Mons()), NewMons(devs, old(Mons()), z, monitor), i)
      ensures z.peer != null ==> z.peer in devs && z.peer.key == z.key
      ensures IdOf(z.peer) == if monitor == -1 then LastOf(old(Value())[..i], z.key) else -1
    {
      ghost var peers, mons, a := Peers(), Mons(), Address(z.key, z.id, monitor);
      ghost var g, ps, ms := Value(), NewPeers(devs, peers, z, monitor), NewMons(devs, mons, z, monitor);
      assert g[..0] == [];
      var l := zdevs;
      i := 0;
      hide LastOf, Admits, ValueOf, AllAdmit, UpTo, Peers, Mons, NewPeers, NewMons, Chained;
      NoneYet(Peers(), ps);
      NoneYet(Mons(), ms);
      NoneAdmitted(g, a);
      while l != null
        invariant 0 <= i <= |devs| && l == At(i) && Chained() && z.monitorRxPeer == null && z.next == old(z.next)
        invariant AllAdmit(g, a, i) && UpTo(Peers(), peers, ps, i) && UpTo(Mons(), mons, ms, i)
        invariant z.peer != null ==> z.peer in devs && z.peer.key == z.key
        invariant IdOf(z.peer) == if monitor == -1 then LastOf(g[..i], z.key) else -1
        decreases |devs| - i
      {
        var good: bool;
        good, l := OfferNext(l, z, monitor, i, peers, mons);
        if !good {
          return false, i;
        }
        i := i + 1;
      }
      ok := true;
    }

    /** All devices of the new one's key are offered it, or every pointer is as before. */
    method JoinAll(z: Node, monitor: int) returns (ok: bool)
      requires Valid() && z !in devs && -1 <= monitor && z.peer == null && z.monitorRxPeer == null
      modifies devs, z
      ensures Chained() && z.monitorRxPeer == null && z.next == old(z.next)
      ensures ok <==> Accepted(old(Value()), Address(z.key, z.id, monitor))
      ensures ok ==>
        Peers() == NewPeers(devs, old(Peers()), z, monitor) && Mons() == NewMons(devs, old(Mons()), z, monitor)
      ensures ok ==> z.peer != null ==> z.peer in devs && z.peer.key == z.key
      ensures ok ==> IdOf(z.peer) == if monitor == -1 then LastOf(old(Value()), z.key) else -1
      ensures !ok ==> Peers() == old(Peers()) && Mons() == old(Mons())
    {
      ghost var peers, mons, a := Peers(), Mons(), Address(z.key, z.id, monitor);
      ghost var g := Value();
      hide Sound, LastOf, Admits, ValueOf, NewPeers, NewMons, Peers, Mons, Without, Aim;
      ghost var i: nat;
      ok, i := OfferAll(z, monitor);
      if ok {
        assert g[..i] == g;
        UpToAll(Peers(), peers, NewPeers(devs, peers, z, monitor));
        UpToAll(Mons(), mons, NewMons(devs, mons, z, monitor));
      } else {
        OfferUndone(devs, peers, mons, Peers(), Mons(), z, a, i);
        DropPointers(z);
      }
    }

    /** The new device goes to the front of the list. */
    method Link(z: Node)
      requires Chained() && z !in devs
      modifies this, z
      ensures Chained() && devs == [z] + old(devs) && z.peer == old(z.peer) && z.monitorRxPeer == old(z.monitorRxPeer)
      ensures Peers() == [z.peer] + old(Peers()) && Mons() == [z.monitorRxPeer] + old(Mons())
    {
      DistinctCons(z, devs);
      ghost var ds := devs;
      assert zdevs == At(0) && forall k :: 0 <= k < |ds| ==> ds[k].next == After(ds, k);
      hide Distinct, Peers, Mons, After;
      z.next := zdevs;
      zdevs := z;
      devs := [z] + devs;
      FrontLinks(ds, z);
      RowsJoined(z);
    }

    /** With a new node linked to the first, all are chained. */
    lemma {:induction false} FrontLinks(ds: seq<Node>, z: Node)
      requires devs == [z] + ds && z.next == if ds == [] then null else ds[0]
      requires forall k :: 0 <= k < |ds| ==> ds[k].next == After(ds, k)
      ensures forall k :: 0 <= k < |devs| ==> devs[k].next == At(k + 1)
    {
      forall k | 0 <= k < |devs| ensures devs[k].next == At(k + 1) {
        assert k > 0 ==> devs[k] == ds[k - 1];
        assert k + 1 < |devs| ==> devs[k + 1] == ds[k];
      }
    }

    twostate lemma {:induction false} RowsJoined(z: Node)
      requires devs == [z] + old(devs)
      requires forall n :: n in devs ==> n.peer == old(n.peer) && n.monitorRxPeer == old(n.monitorRxPeer)
      ensures Peers() == [z.peer] + old(Peers()) && Mons() == [z.monitorRxPeer] + old(Mons())
    {
      assert forall k :: 0 < k < |devs| ==> devs[k] == old(devs)[k - 1];
    }

    /** ztdlocal_create, memory being available: null when refused, and then nothing has changed. */
    method Create(address: string) returns (z: Node?)
      requires Valid()
      modifies this, devs
      ensures Valid() && Value() == Created(old(Value()), Parse(address))
      ensures z != null <==> Accepted(old(Value()), Parse(address))
      ensures z != null ==> fresh(z) && devs == [z] + old(devs)
      ensures z == null ==> devs == old(devs) && Peers() == old(Peers()) && Mons() == old(Mons())
    {
      var key, id, monitor := -1, -1, -1;
      if |address| >= 3 {
        if address[1] != ':' {
          return null;
        }
        key := Digit2Int(address[0]);
        id := Digit2Int(address[2]);
      }
      if |address| == 5 {
        if address[3] != ':' {
          return null;
        }
        monitor := Digit2Int(address[4]);
      }
      if key == -1 || id == -1 {
        return null;
      }
      ghost var ds, peers, mons, a := devs, Peers(), Mons(), Address(key, id, monitor);
      assert Parse(address) == a;
      CreatedKeeps(Value(), a);
      z := Add(key, id, monitor);
      if z != null {
        JoinValue(ds, peers, mons, z, z.peer, a);
      }
    }

    /** The part of ztdlocal_create after the address is read. */
    method Add(key: nat, id: nat, monitor: int) returns (z: Node?)
      requires Valid() && -1 <= monitor
      modifies this, devs
      ensures Chained() && (z != null <==> Accepted(old(Value()), Address(key, id, monitor)))
      ensures z == null ==> devs == old(devs) && Peers() == old(Peers()) && Mons() == old(Mons())
      ensures z != null ==> fresh(z) && z.key == key && z.id == id && devs == [z] + old(devs)
      ensures z != null ==> Peers() == [z.peer] + NewPeers(old(devs), old(Peers()), z, monitor)
      ensures z != null ==> Mons() == [null] + NewMons(old(devs), old(Mons()), z, monitor)
      ensures z != null ==> z.peer != null ==> z.peer in old(devs) && z.peer.key == z.key
      ensures z != null ==> IdOf(z.peer) == if monitor == -1 then LastOf(old(Value()), z.key) else -1
    {
      hide *;
      var n := new Node(key, id);
      var joined := JoinAll(n, monitor);
      if !joined {
        return null;
      }
      Link(n);
      z := n;
    }

    /** ztdlocal_destroy. */
    method Destroy(z: Node)
      requires Valid()
      modifies this, devs
      ensures Valid()
      ensures z !in old(devs) ==> devs == old(devs) && Value() == old(Value())
      ensures (forall at :: 0 <= at < |old(devs)| && old(devs)[at] == z ==>
        devs == Removed(old(devs), at) && Value() == Destroyed(old(Value()), at))
    {
      ghost var ds, peers, mons := devs, Peers(), Mons();
      hide Sound, Destroyed, Unique, Peers, Mons, Without, Removed, ValueOf, Aim;
      DropPointers(z);
      Unlink(z);
      if z in ds {
        ghost var at :| 0 <= at < |ds| && ds[at] == z;
        SoundIsUnique(ValueOf(ds, peers, mons));
        DestroyValue(ds, peers, mons, at);
        DestroyedKeeps(ValueOf(ds, peers, mons), at);
      } else {
        NoneDropped(ds, peers, z);
        NoneDropped(ds, mons, z);
      }
    }
  }

  /** Whether listed device `i` admits the new one, in terms of its pointers. */
  lemma {:induction false} AdmitsMeans(devs: seq<Node>, peers: seq<Node?>, mons: seq<Node?>, i: nat, a: Address)
    requires |peers| == |mons| == |devs| && i < |devs| && a.Address? && -1 <= a.monitor
    ensures (Admits(ValueOf(devs, peers, mons)[i], a) <==>
      devs[i].key == a.key ==>
        devs[i].id != a.id && (a.monitor == -1 ==> peers[i] == null) && (a.monitor == devs[i].id ==> mons[i] == null))
  {
  }

  ghost predicate AllAdmit(g: seq<Dev>, a: Address, i: nat)
    requires a.Address? && i <= |g|
  {
    forall k :: 0 <= k < i ==> Admits(g[k], a)
  }

  lemma {:induction false} AdmitOne(g: seq<Dev>, a: Address, i: nat)
    requires a.Address? && i < |g|
    ensures AllAdmit(g, a, i) && Admits(g[i], a) ==> AllAdmit(g, a, i + 1)
  {
  }

  /** The first `i` entries of a row are new, the others old. */
  ghost predicate UpTo<T>(row: seq<T>, was: seq<T>, now: seq<T>, i: nat) {
    && |row| == |was| == |now| && i <= |row|
    && (forall k :: 0 <= k < i ==> row[k] == now[k])
    && forall k :: i <= k < |row| ==> row[k] == was[k]
  }

  lemma {:induction false} NoneYet(row: seq<Node?>, now: seq<Node?>)
    requires |row| == |now|
    ensures UpTo(row, row, now, 0)
  {
  }

  lemma {:induction false} NoneAdmitted(g: seq<Dev>, a: Address)
    requires a.Address?
    ensures AllAdmit(g, a, 0)
  {
  }

  lemma {:induction false} UpToAll(row: seq<Node?>, was: seq<Node?>, now: seq<Node?>)
    requires UpTo(row, was, now, |row|)
    ensures row == now
  {
  }

  lemma {:induction false} OfferUndone(devs: seq<Node>, peers: seq<Node?>, mons: seq<Node?>, ps: seq<Node?>,
      ms: seq<Node?>, z: Node, a: Address, i: nat)
    requires |peers| == |mons| == |devs| && Aim(devs, peers) && Aim(devs, mons) && z !in devs
    requires a.Address? && a.key == z.key && a.id == z.id && -1 <= a.monitor && i <= |devs|
    requires AllAdmit(ValueOf(devs, peers, mons), a, i)
    requires UpTo(ps, peers, NewPeers(devs, peers, z, a.monitor), i)
    requires UpTo(ms, mons, NewMons(devs, mons, z, a.monitor), i)
    ensures Without(ps, z) == peers && Without(ms, z) == mons
  {
    forall k | 0 <= k < |devs|
      ensures ps[k] == peers[k] || (ps[k] == z && peers[k] == null)
      ensures ms[k] == mons[k] || (ms[k] == z && mons[k] == null)
    {
      if k < i {
        AdmitsMeans(devs, peers, mons, k, a);
      }
    }
    Undone(devs, peers, ps, z);
    Undone(devs, mons, ms, z);
  }

  /** Before the new device came nothing pointed at it, so dropping its pointers undoes what was done. */
  lemma {:induction false} Undone(devs: seq<Node>, row: seq<Node?>, now: seq<Node?>, z: Node)
    requires |row| == |now| == |devs| && Aim(devs, row) && z !in devs
    requires forall k :: 0 <= k < |devs| ==> now[k] == row[k] || (now[k] == z && row[k] == null)
    ensures Without(now, z) == row
  {
  }

  lemma {:induction false} LastSoFar(devs: seq<Node>, peers: seq<Node?>, mons: seq<Node?>, i: nat, key: nat)
    requires |peers| == |mons| == |devs| && i < |devs|
    ensures var g := ValueOf(devs, peers, mons);
      LastOf(g[..i + 1], key) == if devs[i].key == key then devs[i].id else LastOf(g[..i], key)
  {
    var g := ValueOf(devs, peers, mons);
    assert g[..i + 1][..i] == g[..i];
  }

  lemma {:induction false} SoundIsUnique(g: seq<Dev>)
    requires Sound(g)
    ensures Unique(g)
  {
  }

  lemma {:induction false} NoneDropped(devs: seq<Node>, row: seq<Node?>, z: Node)
    requires |row| == |devs| && Aim(devs, row) && z !in devs
    ensures Without(row, z) == row
  {
  }
}
