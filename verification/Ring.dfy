/** The two cursors shared by every ring in the driver: the write blocks, the
    read blocks and the conference queue all use a fill cursor and a drain
    cursor where -1 stands for "no room" and "nothing queued". */
module Ring {

  /** `fill` is the slot being filled (-1: full); `drain` the slot being drained (-1: empty). */
  datatype Cursors = Cursors(size: nat, fill: int, drain: int) {

    ghost predicate Valid() {
      2 <= size && -1 <= fill < size && -1 <= drain < size && fill != drain
    }

    /** The number of filled slots, computed the way num_filled_bufs does. */
    function Count(): int {
      if fill < 0 then size
      else if drain < 0 then 0
      else if drain <= fill then fill - drain
      else (size - drain) + fill
    }

    /** The fill cursor moves on after a slot has been completed. */
    function Filled(): Cursors
      requires size > 0
    {
      var next := (fill + 1) % size;
      Cursors(size, if next == drain then -1 else next, if drain < 0 then fill else drain)
    }

    /** The drain cursor moves on after a slot has been emptied. */
    function Drained(): Cursors
      requires size > 0
    {
      var next := (drain + 1) % size;
      Cursors(size, if fill < 0 then drain else fill, if next == fill then -1 else next)
    }

    /** Position `k` steps after the drain cursor. */
    function Slot(k: nat): int {
      if drain + k < size then drain + k else drain + k - size
    }

    /** The filled slots, oldest first. */
    function Slots(): seq<int>
      requires Valid()
    {
      seq(Count(), k requires 0 <= k => Slot(k))
    }
  }

  lemma {:induction false} NextSlot(i: int, n: nat)
    requires 0 <= i < n
    ensures (i + 1) % n == if i + 1 == n then 0 else i + 1
  {
  }

  /** The sentinels mean what they say, every filled slot is a slot, and no slot is listed twice. */
  lemma {:induction false} SlotsAreDistinct(r: Cursors)
    requires r.Valid()
    ensures 0 <= r.Count() <= r.size
    ensures r.fill < 0 <==> r.Count() == r.size
    ensures r.drain < 0 <==> r.Count() == 0
    ensures forall k :: 0 <= k < |r.Slots()| ==> 0 <= r.Slots()[k] < r.size && r.Slots()[k] != r.fill
    ensures forall j, k :: 0 <= j < k < |r.Slots()| ==> r.Slots()[j] != r.Slots()[k]
  {
  }

  /** Completing the fill slot appends exactly that slot to the queue. */
  lemma {:induction false} FilledAppends(r: Cursors)
    requires r.Valid() && r.fill >= 0
    ensures r.Filled().Valid()
    ensures r.Filled().Slots() == r.Slots() + [r.fill]
  {
    NextSlot(r.fill, r.size);
    var s, t := r.Slots() + [r.fill], r.Filled().Slots();
    assert |t| == |s|;
    forall k | 0 <= k < |s| ensures s[k] == t[k] {
    }
  }

  /** Emptying the drain slot removes exactly the oldest slot from the queue. */
  lemma {:induction false} DrainedRemoves(r: Cursors)
    requires r.Valid() && r.drain >= 0
    ensures r.Drained().Valid()
    ensures r.Slots() == [r.drain] + r.Drained().Slots()
  {
    NextSlot(r.drain, r.size);
    var s, t := [r.drain] + r.Drained().Slots(), r.Slots();
    assert |t| == |s|;
    forall k | 0 <= k < |s| ensures s[k] == t[k] {
    }
  }

  /** What the filled slots hold, oldest first, when slot `x` holds `vals[x]`. */
  ghost function Contents<T>(r: Cursors, vals: seq<T>): (c: seq<T>)
    requires r.Valid() && |vals| == r.size
    ensures |c| == r.Count()
  {
    SlotsAreDistinct(r);
    seq(r.Count(), k requires 0 <= k < r.Count() => vals[r.Slots()[k]])
  }

  /** A slot outside the queue can hold anything. */
  lemma {:induction false} OutsideIsFree<T>(r: Cursors, vals: seq<T>, vals': seq<T>)
    requires r.Valid() && |vals| == |vals'| == r.size
    requires forall x :: 0 <= x < r.size && x != r.fill ==> vals'[x] == vals[x]
    ensures Contents(r, vals') == Contents(r, vals)
  {
    SlotsAreDistinct(r);
    forall k | 0 <= k < r.Count() ensures Contents(r, vals')[k] == Contents(r, vals)[k] {
      assert r.Slots()[k] != r.fill;
    }
  }

  /** Completing the fill slot appends what it now holds. */
  lemma {:induction false} ContentsFilled<T>(r: Cursors, vals: seq<T>)
    requires r.Valid() && r.fill >= 0 && |vals| == r.size
    ensures r.Filled().Valid()
    ensures Contents(r.Filled(), vals) == Contents(r, vals) + [vals[r.fill]]
  {
    FilledAppends(r);
    SlotsAreDistinct(r);
    SlotsAreDistinct(r.Filled());
    forall k | 0 <= k <= r.Count()
      ensures Contents(r.Filled(), vals)[k] == (Contents(r, vals) + [vals[r.fill]])[k]
    {
      assert r.Filled().Slots()[k] == (r.Slots() + [r.fill])[k];
    }
  }

  lemma {:induction false} FrontContents<T>(r: Cursors, vals: seq<T>)
    requires r.Valid() && r.drain >= 0 && |vals| == r.size
    ensures Contents(r, vals) != [] && Contents(r, vals)[0] == vals[r.drain]
  {
    SlotsAreDistinct(r);
    assert r.Slots()[0] == r.drain;
  }

  /** Emptying the drain slot, whatever it then holds, removes the oldest value. */
  lemma {:induction false} ContentsDrained<T>(r: Cursors, vals: seq<T>, vals': seq<T>)
    requires r.Valid() && r.drain >= 0 && |vals| == |vals'| == r.size
    requires forall x :: 0 <= x < r.size && x != r.drain ==> vals'[x] == vals[x]
    ensures r.Drained().Valid()
    ensures Contents(r, vals) == [vals[r.drain]] + Contents(r.Drained(), vals')
  {
    DrainedRemoves(r);
    SlotsAreDistinct(r);
    SlotsAreDistinct(r.Drained());
    FrontContents(r, vals);
    forall k | 0 <= k < r.Drained().Count()
      ensures Contents(r, vals)[k + 1] == Contents(r.Drained(), vals')[k]
    {
      assert r.Slots()[k + 1] == r.Drained().Slots()[k];
      assert r.Slots()[k + 1] != r.Slots()[0];
    }
  }

  /** Changing what the drain slot holds changes only the oldest value. */
  lemma {:induction false} ContentsFrontChanged<T>(r: Cursors, vals: seq<T>, vals': seq<T>)
    requires r.Valid() && r.drain >= 0 && |vals| == |vals'| == r.size
    requires forall x :: 0 <= x < r.size && x != r.drain ==> vals'[x] == vals[x]
    ensures Contents(r, vals) != []
    ensures Contents(r, vals') == [vals'[r.drain]] + Contents(r, vals)[1..]
  {
    SlotsAreDistinct(r);
    FrontContents(r, vals);
    FrontContents(r, vals');
    forall k | 0 < k < r.Count() ensures Contents(r, vals')[k] == Contents(r, vals)[k] {
      assert r.Slots()[k] != r.Slots()[0];
    }
  }

  function Min(a: nat, b: nat): nat { if a > b then b else a }

  /** The bytes of some blocks, one after the other. */
  ghost function Flat(blocks: seq<seq<bv8>>): seq<bv8> {
    if blocks == [] then [] else blocks[0] + Flat(blocks[1..])
  }

  lemma {:induction false} FlatConcat(a: seq<seq<bv8>>, b: seq<seq<bv8>>)
    ensures Flat(a + b) == Flat(a) + Flat(b)
  {
    if a == [] {
      assert a + b == b;
    } else {
      assert (a + b)[1..] == a[1..] + b;
      FlatConcat(a[1..], b);
    }
  }

  lemma {:induction false} FlatAppend(blocks: seq<seq<bv8>>, b: seq<bv8>)
    ensures Flat(blocks + [b]) == Flat(blocks) + b
  {
    assert [b][1..] == [];
    FlatConcat(blocks, [b]);
  }
}
