/** The receive side of a plain (non-HDLC) channel: the interrupt fills blocks, user
    space copies the oldest block out outside the lock and then releases it. */
module ReadQueue {
  import opened Ring

  /** `whenFull` is the policy that keeps readers waiting until every block is filled. */
  datatype Config = Config(blocksize: nat, whenFull: bool)

  /** The block queue of one channel: the fill cursor is inreadbuf, the drain cursor outreadbuf. */
  datatype Rx = Rx(ring: Cursors, bufs: seq<seq<bv8>>, readn: seq<nat>, readidx: seq<nat>, disabled: bool)

  ghost predicate Ok(cfg: Config, t: Rx) {
    && cfg.blocksize > 0
    && t.ring.Valid()
    && |t.bufs| == |t.readn| == |t.readidx| == t.ring.size
    && (forall x :: 0 <= x < t.ring.size ==> t.readn[x] <= |t.bufs[x]| == cfg.blocksize)
    && (t.ring.fill >= 0 ==> t.readidx[t.ring.fill] < cfg.blocksize)
    && (forall x :: 0 <= x < t.ring.size && x !in t.ring.Slots() && x != t.ring.fill ==> t.readidx[x] == 0)
  }

  // ---------- the interrupt's step ----------

  /** The block at the fill cursor is full: hand it to the readers. */
  function Completed(t: Rx): Rx
    requires 0 <= t.ring.fill < t.ring.size == |t.readn| == |t.readidx|
  {
    var ring := t.ring.Filled();
    Rx(ring, t.bufs, t.readn[t.ring.fill := t.readidx[t.ring.fill]], t.readidx, t.disabled && ring.fill >= 0)
  }

  /** Received bytes go into the current block, which is handed over once it is full. */
  function Placed(cfg: Config, t: Rx, data: seq<bv8>): Rx
    requires Ok(cfg, t) && t.ring.fill >= 0
    requires |data| <= cfg.blocksize - t.readidx[t.ring.fill]
  {
    var f, i := t.ring.fill, t.readidx[t.ring.fill];
    var t1 := t.(bufs := t.bufs[f := t.bufs[f][..i] + data + t.bufs[f][i + |data|..]],
                 readidx := t.readidx[f := i + |data|]);
    if t1.readidx[f] >= cfg.blocksize then Completed(t1) else t1
  }

  function RoomLeft(cfg: Config, t: Rx, bytes: nat): nat
    requires 0 <= t.ring.fill < |t.readidx| && t.readidx[t.ring.fill] <= cfg.blocksize
  {
    Min(cfg.blocksize - t.readidx[t.ring.fill], bytes)
  }

  /** __putbuf_chunk: the new queue and how many of the bytes were kept. */
  function Receive(cfg: Config, t: Rx, data: seq<bv8>): (r: (Rx, nat))
    requires Ok(cfg, t)
    ensures Ok(cfg, r.0) && r.1 <= |data|
    decreases |data|
  {
    if data == [] || t.ring.fill < 0 then (t, 0)
    else
      var left := RoomLeft(cfg, t, |data|);
      PlacedOk(cfg, t, data[..left]);
      var (u, k) := Receive(cfg, Placed(cfg, t, data[..left]), data[left..]);
      (u, left + k)
  }

  /** One turn of the receive loop. */
  lemma {:induction false} ReceiveTurn(cfg: Config, t: Rx, data: seq<bv8>, left: nat)
    requires Ok(cfg, t)
    requires data != [] && t.ring.fill >= 0 ==> left == RoomLeft(cfg, t, |data|)
    ensures data == [] || t.ring.fill < 0 ==> Receive(cfg, t, data) == (t, 0)
    ensures data != [] && t.ring.fill >= 0 ==>
      var u := Placed(cfg, t, data[..left]);
      0 < left && Ok(cfg, u) && Receive(cfg, t, data) ==
        (Receive(cfg, u, data[left..]).0, left + Receive(cfg, u, data[left..]).1)
  {
    if data != [] && t.ring.fill >= 0 {
      RoomFits(cfg, t, |data|);
      assert |t.bufs| == |t.readn| == |t.readidx| == t.ring.size && t.ring.fill < t.ring.size;
      hide Ok, Placed, RoomLeft;
      PlacedOk(cfg, t, data[..left]);
    }
  }

  lemma {:induction false} RoomFits(cfg: Config, t: Rx, bytes: nat)
    requires Ok(cfg, t) && t.ring.fill >= 0 && bytes > 0
    ensures 0 < RoomLeft(cfg, t, bytes) <= bytes && RoomLeft(cfg, t, bytes) <= cfg.blocksize - t.readidx[t.ring.fill]
  {
  }

  /** From `t`, `pos` of the bytes have been taken in and `u` was reached. */
  ghost predicate Ahead(cfg: Config, t: Rx, all: seq<bv8>, u: Rx, pos: nat)
    requires Ok(cfg, t) && Ok(cfg, u)
  {
    pos <= |all| && Receive(cfg, t, all) == (Receive(cfg, u, all[pos..]).0, pos + Receive(cfg, u, all[pos..]).1)
  }

  /** What `Ok` says about sizes. */
  lemma {:induction false} OkShape(cfg: Config, t: Rx)
    requires Ok(cfg, t)
    ensures cfg.blocksize > 0 && |t.bufs| == |t.readn| == |t.readidx| == t.ring.size && t.ring.Valid()
    ensures forall x :: 0 <= x < t.ring.size ==> t.readn[x] <= |t.bufs[x]| == cfg.blocksize
    ensures t.ring.fill >= 0 ==> t.readidx[t.ring.fill] < cfg.blocksize
  {
  }

  lemma {:induction false} ReceiveFrom(cfg: Config, u: Rx, all: seq<bv8>, pos: nat, left: nat)
    requires Ok(cfg, u) && pos < |all| && u.ring.fill >= 0 && left == RoomLeft(cfg, u, |all| - pos)
    ensures 0 < left <= |all| - pos && left <= cfg.blocksize - u.readidx[u.ring.fill]
    ensures var v, rest := Placed(cfg, u, all[pos..pos + left]), all[pos + left..];
      Ok(cfg, v) && Receive(cfg, u, all[pos..]) == (Receive(cfg, v, rest).0, left + Receive(cfg, v, rest).1)
  {
    OkShape(cfg, u);
    RoomFits(cfg, u, |all| - pos);
    hide Receive, Placed, RoomLeft, Ok, Min;
    ReceiveTurn(cfg, u, all[pos..], left);
    Split(all, pos, left);
  }

  lemma {:induction false} AheadTurn(cfg: Config, t: Rx, all: seq<bv8>, u: Rx, pos: nat, left: nat)
    requires Ok(cfg, t) && Ok(cfg, u) && Ahead(cfg, t, all, u, pos) && pos < |all| && u.ring.fill >= 0
    requires left == RoomLeft(cfg, u, |all| - pos)
    ensures 0 < left <= |all| - pos && left <= cfg.blocksize - u.readidx[u.ring.fill]
    ensures var v := Placed(cfg, u, all[pos..pos + left]); Ok(cfg, v) && Ahead(cfg, t, all, v, pos + left)
  {
    OkShape(cfg, u);
    hide Receive, Placed, RoomLeft, Ok, Min;
    ReceiveFrom(cfg, u, all, pos, left);
  }

  lemma {:induction false} AheadDone(cfg: Config, t: Rx, all: seq<bv8>, u: Rx, pos: nat)
    requires Ok(cfg, t) && Ok(cfg, u) && Ahead(cfg, t, all, u, pos) && (pos == |all| || u.ring.fill < 0)
    ensures Receive(cfg, t, all) == (u, pos)
  {
    hide Receive;
    ReceiveTurn(cfg, u, all[pos..], 0);
  }

  lemma {:induction false} PlacedOk(cfg: Config, t: Rx, data: seq<bv8>)
    requires Ok(cfg, t) && t.ring.fill >= 0
    requires |data| <= cfg.blocksize - t.readidx[t.ring.fill]
    ensures Ok(cfg, Placed(cfg, t, data))
  {
    var f, u := t.ring.fill, Placed(cfg, t, data);
    if t.readidx[f] + |data| >= cfg.blocksize {
      FilledAppends(t.ring);
      SlotsAreDistinct(u.ring);
      forall x | 0 <= x < t.ring.size && x !in u.ring.Slots() ensures x !in t.ring.Slots() && x != f {
        assert u.ring.Slots() == t.ring.Slots() + [f];
        assert u.ring.Slots()[|t.ring.Slots()|] == f;
      }
    }
  }

  // ---------- the reader's step ----------

  /** The slot that was read is given back, under the lock. */
  function Released(cfg: Config, t: Rx, slot: nat): Rx
    requires slot < t.ring.size == |t.readn| == |t.readidx|
  {
    var ring := t.ring.(drain := slot).Drained();
    Rx(ring, t.bufs, t.readn[slot := 0], t.readidx[slot := 0], t.disabled || (ring.drain < 0 && cfg.whenFull))
  }

  predicate Readable(t: Rx) { t.ring.drain >= 0 && !t.disabled }

  // ---------- what is queued ----------

  ghost function Values(t: Rx): (v: seq<seq<bv8>>)
    requires |t.bufs| == |t.readn| == t.ring.size
    requires forall x :: 0 <= x < t.ring.size ==> t.readn[x] <= |t.bufs[x]|
    ensures |v| == t.ring.size
    ensures forall x :: 0 <= x < |v| ==> v[x] == t.bufs[x][..t.readn[x]]
  {
    seq(t.ring.size, x requires 0 <= x < t.ring.size => t.bufs[x][..t.readn[x]])
  }

  /** The completed blocks waiting to be read, oldest first. */
  ghost function Queue(cfg: Config, t: Rx): (q: seq<seq<bv8>>)
    requires Ok(cfg, t)
    ensures |q| == t.ring.Count()
  {
    Contents(t.ring, Values(t))
  }

  /** The received bytes of the block being filled. */
  ghost function Partial(cfg: Config, t: Rx): seq<bv8>
    requires Ok(cfg, t)
  {
    if t.ring.fill < 0 then [] else t.bufs[t.ring.fill][..t.readidx[t.ring.fill]]
  }

  /** The block being read stays where it is and keeps its contents. */
  ghost predicate FrontKept(t: Rx, u: Rx) {
    u.ring.size == t.ring.size &&
    (0 <= t.ring.drain < t.ring.size == |t.bufs| == |u.bufs| == |t.readn| == |u.readn| ==>
      u.ring.drain == t.ring.drain && u.bufs[t.ring.drain] == t.bufs[t.ring.drain] &&
      u.readn[t.ring.drain] == t.readn[t.ring.drain])
  }

  /** Placing bytes extends the current block; once full it is the newest completed one. */
  lemma {:induction false} PlacedIsQueue(cfg: Config, t: Rx, data: seq<bv8>)
    requires Ok(cfg, t) && t.ring.fill >= 0
    requires |data| <= cfg.blocksize - t.readidx[t.ring.fill]
    ensures var u := Placed(cfg, t, data);
      && Ok(cfg, u)
      && FrontKept(t, u)
      && (u.ring.fill < 0 ==> !u.disabled) && (u.disabled ==> t.disabled)
      && (if t.readidx[t.ring.fill] + |data| < cfg.blocksize
          then Queue(cfg, u) == Queue(cfg, t) && Partial(cfg, u) == Partial(cfg, t) + data && u.ring == t.ring
          else Queue(cfg, u) == Queue(cfg, t) + [Partial(cfg, t) + data] && Partial(cfg, u) == [] &&
               |Partial(cfg, t) + data| == cfg.blocksize)
  {
    var f, i, u := t.ring.fill, t.readidx[t.ring.fill], Placed(cfg, t, data);
    PlacedOk(cfg, t, data);
    OutsideIsFree(t.ring, Values(t), Values(u));
    if i + |data| >= cfg.blocksize {
      ContentsFilled(t.ring, Values(u));
      FilledAppends(t.ring);
      SlotsAreDistinct(u.ring);
      if u.ring.fill >= 0 {
        assert u.ring.fill !in u.ring.Slots();
      }
    }
  }

  /** Everything received and kept, except what has been read. */
  ghost function Stream(cfg: Config, t: Rx): seq<bv8>
    requires Ok(cfg, t)
  {
    Flat(Queue(cfg, t)) + Partial(cfg, t)
  }

  ghost predicate Whole(cfg: Config, blocks: seq<seq<bv8>>) {
    forall k :: 0 <= k < |blocks| ==> |blocks[k]| == cfg.blocksize
  }

  lemma {:induction false} PlacedStream(cfg: Config, t: Rx, data: seq<bv8>)
    requires Ok(cfg, t) && t.ring.fill >= 0
    requires |data| <= cfg.blocksize - t.readidx[t.ring.fill]
    ensures var u := Placed(cfg, t, data);
      && Ok(cfg, u) && FrontKept(t, u)
      && (u.ring.fill < 0 ==> !u.disabled) && (u.disabled ==> t.disabled)
      && Queue(cfg, t) <= Queue(cfg, u) && Whole(cfg, Queue(cfg, u)[|Queue(cfg, t)|..])
      && Stream(cfg, u) == Stream(cfg, t) + data
  {
    hide Placed, Queue, Partial, Contents, Flat;
    PlacedIsQueue(cfg, t, data);
    var q, p, u := Queue(cfg, t), Partial(cfg, t), Placed(cfg, t, data);
    if t.readidx[t.ring.fill] + |data| < cfg.blocksize {
      assert Flat(q) + (p + data) == (Flat(q) + p) + data;
    } else {
      FlatAppend(q, p + data);
      assert (Flat(q) + (p + data)) + [] == (Flat(q) + p) + data;
      assert Queue(cfg, u)[|q|..] == [p + data];
    }
  }

  /** The interrupt appends the bytes in order, in blocks of the block size, behind what
      is queued; it drops bytes only once every block is filled; and it leaves the block
      being read alone. */
  lemma {:induction false} ReceiveIsQueue(cfg: Config, t: Rx, data: seq<bv8>)
    requires Ok(cfg, t)
    ensures var (u, k) := Receive(cfg, t, data);
      && Queue(cfg, t) <= Queue(cfg, u) && Whole(cfg, Queue(cfg, u)[|Queue(cfg, t)|..])
      && Stream(cfg, u) == Stream(cfg, t) + data[..k]
      && (k < |data| ==> u.ring.fill < 0)
      && FrontKept(t, u)
      && (u.disabled ==> t.disabled) && (u.ring.fill < 0 ==> t.ring.fill < 0 || !u.disabled)
    decreases |data|
  {
    hide Placed, Queue, Partial, Contents, Stream;
    if data == [] || t.ring.fill < 0 {
      assert data[..0] == [];
      assert Stream(cfg, t) + [] == Stream(cfg, t);
    } else {
      var left := RoomLeft(cfg, t, |data|);
      var u := Placed(cfg, t, data[..left]);
      PlacedStream(cfg, t, data[..left]);
      ReceiveIsQueue(cfg, u, data[left..]);
      var k := Receive(cfg, u, data[left..]).1;
      Prefixes(data, left, k);
      KeptBehind(cfg, Queue(cfg, t), Queue(cfg, u), Queue(cfg, Receive(cfg, t, data).0));
    }
  }

  lemma {:induction false} Prefixes(data: seq<bv8>, a: nat, k: nat)
    requires a + k <= |data|
    ensures data[..a] + data[a..][..k] == data[..a + k]
  {
  }

  lemma {:induction false} KeptBehind(cfg: Config, a: seq<seq<bv8>>, b: seq<seq<bv8>>, c: seq<seq<bv8>>)
    requires a <= b <= c && Whole(cfg, b[|a|..]) && Whole(cfg, c[|b|..])
    ensures a <= c && Whole(cfg, c[|a|..])
  {
    assert c[|a|..] == b[|a|..] + c[|b|..];
  }

  /** Releasing the front slot removes exactly the oldest block. */
  lemma {:induction false} ReleasedIsQueue(cfg: Config, t: Rx)
    requires Ok(cfg, t) && t.ring.drain >= 0
    ensures var u := Released(cfg, t, t.ring.drain);
      && Ok(cfg, u) && u.ring.fill >= 0
      && Queue(cfg, t) == [t.bufs[t.ring.drain][..t.readn[t.ring.drain]]] + Queue(cfg, u)
      && Partial(cfg, u) == Partial(cfg, t)
  {
    var d, u := t.ring.drain, Released(cfg, t, t.ring.drain);
    DrainedRemoves(t.ring);
    SlotsAreDistinct(t.ring);
    assert u.ring == t.ring.Drained();
    forall x | 0 <= x < t.ring.size && x !in u.ring.Slots() && x != u.ring.fill ensures u.readidx[x] == 0 {
      if x != d {
        assert x !in t.ring.Slots();
      }
    }
    ContentsDrained(t.ring, Values(t), Values(u));
  }

  /** When readers are kept waiting: by the when-full policy from the moment they emptied the queue
      until every block is filled. */
  lemma {:induction false} WaitsByPolicy(cfg: Config, t: Rx, data: seq<bv8>)
    requires Ok(cfg, t)
    ensures t.ring.drain >= 0 ==> var u := Released(cfg, t, t.ring.drain);
      && Ok(cfg, u)
      && (u.disabled <==> t.disabled || (cfg.whenFull && Queue(cfg, u) == []))
    ensures t.ring.fill >= 0 ==> var u := Receive(cfg, t, data).0;
      u.disabled <==> t.disabled && |Queue(cfg, u)| < t.ring.size
    decreases |data|
  {
    SlotsAreDistinct(t.ring);
    if t.ring.drain >= 0 {
      ReleasedIsQueue(cfg, t);
      SlotsAreDistinct(Released(cfg, t, t.ring.drain).ring);
    }
    if t.ring.fill >= 0 {
      ReceiveByPolicy(cfg, t, data);
    }
  }

  lemma {:induction false} ReceiveByPolicy(cfg: Config, t: Rx, data: seq<bv8>)
    requires Ok(cfg, t) && t.ring.fill >= 0
    ensures var u := Receive(cfg, t, data).0;
      && u.ring.size == t.ring.size
      && (u.disabled <==> t.disabled && |Queue(cfg, u)| < t.ring.size)
    decreases |data|
  {
    if data == [] {
      SlotsAreDistinct(t.ring);
    } else {
      var left := RoomLeft(cfg, t, |data|);
      var u := Placed(cfg, t, data[..left]);
      PlacedIsQueue(cfg, t, data[..left]);
      assert u.disabled <==> t.disabled && u.ring.fill >= 0;
      hide Placed, Queue;
      if u.ring.fill >= 0 {
        ReceiveByPolicy(cfg, u, data[left..]);
      } else {
        QueueCount(cfg, u);
        assert Receive(cfg, u, data[left..]) == (u, 0);
      }
    }
  }

  lemma {:induction false} QueueCount(cfg: Config, t: Rx)
    requires Ok(cfg, t)
    ensures |Queue(cfg, t)| == t.ring.size <==> t.ring.fill < 0
  {
    SlotsAreDistinct(t.ring);
  }

  // ---------- all interleavings of one reader with the interrupt ----------

  /** Where the reader is: it holds the front slot from picking it until releasing it, asked
      for `count` bytes and will copy `amnt` of them. */
  datatype Reader = Idle | Reading(slot: nat, count: nat, amnt: nat, out: seq<bv8>)

  /** One finished read: the bytes asked for and those returned. */
  datatype Answer = Answer(count: nat, out: seq<bv8>)

  /** The queue, the reader, every byte received and kept, every block completed and every read answered. */
  datatype System = System(rx: Rx, reader: Reader, kept: seq<bv8>, completed: seq<seq<bv8>>, answers: seq<Answer>)

  datatype Action = Begin(count: nat) | CopyByte | End | Interrupt(data: seq<bv8>)

  ghost predicate ReaderOk(t: Rx, r: Reader)
    requires |t.bufs| == |t.readn| == t.ring.size
    requires forall x :: 0 <= x < t.ring.size ==> t.readn[x] <= |t.bufs[x]|
  {
    r.Reading? ==>
      r.slot == t.ring.drain && r.slot < t.ring.size && |r.out| <= r.amnt == Min(r.count, t.readn[r.slot]) &&
      r.out == t.bufs[r.slot][..|r.out|]
  }

  /** The k-th read returned as much of the k-th completed block as it asked for. */
  ghost predicate Answered(answers: seq<Answer>, completed: seq<seq<bv8>>) {
    |answers| <= |completed| && forall k :: 0 <= k < |answers| ==>
      answers[k].out == completed[k][..Min(answers[k].count, |completed[k]|)]
  }

  ghost predicate Inv(cfg: Config, s: System) {
    && Ok(cfg, s.rx)
    && ReaderOk(s.rx, s.reader)
    && |s.answers| <= |s.completed|
    && s.completed[|s.answers|..] == Queue(cfg, s.rx)
    && Whole(cfg, s.completed)
    && s.kept == Flat(s.completed) + Partial(cfg, s.rx)
    && Answered(s.answers, s.completed)
    && (s.rx.ring.fill < 0 || !cfg.whenFull ==> !s.rx.disabled)
  }

  /** The reader has picked some slot, perhaps long ago. */
  predicate Picked(cfg: Config, t: Rx, r: Reader) {
    r.Reading? ==> r.slot < t.ring.size && |r.out| <= r.amnt <= cfg.blocksize
  }

  ghost function Act(cfg: Config, s: System, a: Action): System
    requires Ok(cfg, s.rx) && Picked(cfg, s.rx, s.reader)
  {
    match a
    case Begin(count) =>
      if s.reader.Idle? && Readable(s.rx) && s.rx.ring.drain < s.rx.ring.size
      then s.(reader := Reading(s.rx.ring.drain, count, Min(count, s.rx.readn[s.rx.ring.drain]), [])) else s
    case CopyByte =>
      if s.reader.Reading? && |s.reader.out| < s.reader.amnt
      then s.(reader := s.reader.(out := s.reader.out + [s.rx.bufs[s.reader.slot][|s.reader.out|]])) else s
    case End =>
      if s.reader.Reading? && |s.reader.out| == s.reader.amnt
      then System(Released(cfg, s.rx, s.reader.slot), Idle, s.kept, s.completed,
                  s.answers + [Answer(s.reader.count, s.reader.out)])
      else s
    case Interrupt(data) =>
      var (u, k) := Receive(cfg, s.rx, data);
      assert Ok(cfg, u);
      System(u, s.reader, s.kept + data[..k],
             s.completed + (if |Queue(cfg, s.rx)| <= |Queue(cfg, u)| then Queue(cfg, u)[|Queue(cfg, s.rx)|..] else []),
             s.answers)
  }

  lemma {:induction false} EndKeepsInv(cfg: Config, s: System)
    requires Inv(cfg, s)
    ensures Inv(cfg, Act(cfg, s, End))
  {
    hide Contents;
    if s.reader.Reading? && |s.reader.out| == s.reader.amnt {
      ReleasedIsQueue(cfg, s.rx);
      var n := |s.answers|;
      assert s.completed[n..] == [s.completed[n]] + s.completed[n + 1..];
    }
  }

  lemma {:induction false} InterruptKeepsInv(cfg: Config, s: System, data: seq<bv8>)
    requires Inv(cfg, s)
    ensures Inv(cfg, Act(cfg, s, Interrupt(data)))
  {
    hide Receive, Placed, Partial, Contents, Flat;
    var (u, k) := Receive(cfg, s.rx, data);
    ReceiveIsQueue(cfg, s.rx, data);
    CompletedGrows(s.completed, |s.answers|, s.kept, Queue(cfg, s.rx), Partial(cfg, s.rx),
                   Queue(cfg, u), Partial(cfg, u), data[..k]);
  }

  /** Blocks completed behind the queue are completed behind everything ever completed. */
  lemma {:induction false} CompletedGrows(completed: seq<seq<bv8>>, n: nat, kept: seq<bv8>,
      q: seq<seq<bv8>>, p: seq<bv8>, q': seq<seq<bv8>>, p': seq<bv8>, more: seq<bv8>)
    requires n <= |completed| && completed[n..] == q <= q'
    requires Flat(q') + p' == (Flat(q) + p) + more && kept == Flat(completed) + p
    ensures (completed + q'[|q|..])[n..] == q'
    ensures kept + more == Flat(completed + q'[|q|..]) + p'
  {
    hide Flat;
    var before := completed[..n];
    assert completed == before + q;
    assert completed + q'[|q|..] == before + q';
    FlatConcat(before, q);
    FlatConcat(before, q');
    Reassociate(Flat(before), Flat(q), p, Flat(q'), p', more);
  }

  lemma {:induction false} Reassociate(f: seq<bv8>, a: seq<bv8>, p: seq<bv8>, b: seq<bv8>, p': seq<bv8>, more: seq<bv8>)
    requires b + p' == (a + p) + more
    ensures ((f + a) + p) + more == (f + b) + p'
  {
    assert ((f + a) + p) + more == f + ((a + p) + more);
    assert (f + b) + p' == f + (b + p');
  }

  lemma {:induction false} ActKeepsInv(cfg: Config, s: System, a: Action)
    requires Inv(cfg, s)
    ensures Inv(cfg, Act(cfg, s, a))
  {
    hide Contents, Receive;
    match a
    case Begin(_) =>
    case CopyByte =>
    case End => EndKeepsInv(cfg, s);
    case Interrupt(data) => InterruptKeepsInv(cfg, s, data);
  }

  // ---------- results about whole runs ----------

  ghost function Run(cfg: Config, s: System, acts: seq<Action>): (r: System)
    requires Inv(cfg, s)
    ensures Inv(cfg, r)
    decreases |acts|
  {
    if acts == [] then s else
      ActKeepsInv(cfg, s, acts[0]);
      Run(cfg, Act(cfg, s, acts[0]), acts[1..])
  }

  function Start(cfg: Config, size: nat, buf: seq<bv8>): System
    requires size >= 2 && |buf| == cfg.blocksize
  {
    System(Rx(Cursors(size, 0, -1), seq(size, i => buf), seq(size, i => 0), seq(size, i => 0), cfg.whenFull),
           Idle, [], [], [])
  }

  /** Over every run from a fresh channel: the k-th read gets as much of the k-th
      completed block as it asked for, and the completed blocks followed by the partial one are
      exactly the kept bytes, in order and in blocks of the block size. */
  lemma {:induction false} RunReadsInOrder(cfg: Config, size: nat, buf: seq<bv8>, acts: seq<Action>)
    requires size >= 2 && |buf| == cfg.blocksize > 0
    ensures Inv(cfg, Start(cfg, size, buf))
    ensures var s := Run(cfg, Start(cfg, size, buf), acts);
      && |s.answers| <= |s.completed| && Whole(cfg, s.completed)
      && (forall k :: 0 <= k < |s.answers| ==>
            s.answers[k].out == s.completed[k][..Min(s.answers[k].count, cfg.blocksize)])
      && s.completed[|s.answers|..] == Queue(cfg, s.rx)
      && s.kept == Flat(s.completed) + Partial(cfg, s.rx)
  {
    StartIsOk(cfg, size, buf);
  }

  lemma {:induction false} StartIsOk(cfg: Config, size: nat, buf: seq<bv8>)
    requires size >= 2 && |buf| == cfg.blocksize > 0
    ensures Inv(cfg, Start(cfg, size, buf))
  {
    SlotsAreDistinct(Start(cfg, size, buf).rx.ring);
  }

  /** An interrupt drops bytes only when it ends with every block filled, and then readers are let in. */
  lemma {:induction false} DropsOnlyWhenFull(cfg: Config, s: System, data: seq<bv8>)
    requires Inv(cfg, s)
    ensures var s' := Act(cfg, s, Interrupt(data));
      s'.kept == s.kept + data ||
      (s'.rx.ring.fill < 0 && |Queue(cfg, s'.rx)| == s'.rx.ring.size && Readable(s'.rx))
  {
    hide Contents, Receive, Placed, Flat;
    var (u, k) := Receive(cfg, s.rx, data);
    ReceiveIsQueue(cfg, s.rx, data);
    SlotsAreDistinct(u.ring);
    assert data[..|data|] == data;
    assert |Queue(cfg, u)| == u.ring.Count();
    if k < |data| {
      assert !u.disabled;
    }
  }

  // ---------- several readers ----------

  /** Nothing keeps several processes from reading one channel at a time. */
  datatype Crew = Crew(rx: Rx, readers: seq<Reader>, kept: seq<bv8>, completed: seq<seq<bv8>>, answers: seq<Answer>)

  /** The channel as reader `w` takes part in it. */
  function Seen(s: Crew, w: nat): System
    requires w < |s.readers|
  {
    System(s.rx, s.readers[w], s.kept, s.completed, s.answers)
  }

  ghost function CrewAct(cfg: Config, s: Crew, w: nat, a: Action): (r: Crew)
    requires w < |s.readers| && Ok(cfg, s.rx) && Picked(cfg, s.rx, s.readers[w])
    ensures |r.readers| == |s.readers|
  {
    var r := Act(cfg, Seen(s, w), a);
    Crew(r.rx, s.readers[w := r.reader], r.kept, r.completed, r.answers)
  }

  ghost predicate CrewInv(cfg: Config, s: Crew) {
    && |s.readers| > 0
    && (forall i :: 0 <= i < |s.readers| ==> Inv(cfg, Seen(s, i)))
    && (forall i, j :: 0 <= i < j < |s.readers| ==> s.readers[i].Idle? || s.readers[j].Idle?)
  }

  lemma {:induction false} CrewInvIs(cfg: Config, s: Crew, w: nat)
    requires CrewInv(cfg, s) && w < |s.readers|
    ensures Inv(cfg, Seen(s, w)) && Ok(cfg, s.rx) && Picked(cfg, s.rx, s.readers[w])
  {
    assert Inv(cfg, Seen(s, w));
  }

  lemma {:induction false} CrewActKeepsInv(cfg: Config, s: Crew, w: nat, a: Action)
    requires CrewInv(cfg, s) && w < |s.readers|
    requires a.Begin? ==> forall i :: 0 <= i < |s.readers| ==> s.readers[i].Idle?
    ensures Ok(cfg, s.rx) && Picked(cfg, s.rx, s.readers[w]) && CrewInv(cfg, CrewAct(cfg, s, w, a))
  {
    hide Receive, Ok, Queue, Partial, Answered, Whole, Flat, Released;
    CrewInvIs(cfg, s, w);
    var r := CrewAct(cfg, s, w, a);
    ActKeepsInv(cfg, Seen(s, w), a);
    forall i | 0 <= i < |s.readers| ensures Inv(cfg, Seen(r, i)) {
      CrewInvIs(cfg, s, i);
      OtherKeepsInv(cfg, s, w, a, i);
    }
  }

  /** A step of reader `w` as another one sees it. */
  lemma {:induction false} OtherKeepsInv(cfg: Config, s: Crew, w: nat, a: Action, i: nat)
    requires w < |s.readers| && i < |s.readers| && Inv(cfg, Seen(s, w)) && Inv(cfg, Seen(s, i))
    requires s.readers[w].Idle? || s.readers[i].Idle? || i == w
    requires a.Begin? ==> s.readers[i].Idle?
    ensures Ok(cfg, s.rx) && Picked(cfg, s.rx, s.readers[w]) && Inv(cfg, Seen(CrewAct(cfg, s, w, a), i))
  {
    ActKeepsInv(cfg, Seen(s, w), a);
    ActKeepsInv(cfg, Seen(s, i), a);
    hide Receive, Ok, Queue, Partial, Answered, Whole, Flat, Released;
  }

  /** No reader picks a block while another is between picking and releasing one. */
  ghost predicate Serial(cfg: Config, s: Crew, acts: seq<(nat, Action)>)
    requires CrewInv(cfg, s)
    decreases |acts|
  {
    acts == [] ||
    (var (w, a) := acts[0];
     w < |s.readers| && (a.Begin? ==> forall i :: 0 <= i < |s.readers| ==> s.readers[i].Idle?) &&
     (CrewActKeepsInv(cfg, s, w, a); Serial(cfg, CrewAct(cfg, s, w, a), acts[1..])))
  }

  ghost function CrewRun(cfg: Config, s: Crew, acts: seq<(nat, Action)>): (r: Crew)
    requires CrewInv(cfg, s) && Serial(cfg, s, acts)
    ensures CrewInv(cfg, r)
    decreases |acts|
  {
    if acts == [] then s
    else
      var (w, a) := acts[0];
      CrewActKeepsInv(cfg, s, w, a);
      CrewRun(cfg, CrewAct(cfg, s, w, a), acts[1..])
  }

  /** Any number of readers, of which one at a time is between picking a block and releasing it:
      the k-th read gets as much of the k-th completed block as it asked for. */
  lemma {:induction false} SerialRunReadsInOrder(cfg: Config, s: Crew, acts: seq<(nat, Action)>)
    requires CrewInv(cfg, s) && Serial(cfg, s, acts)
    ensures var r := CrewRun(cfg, s, acts);
      && Ok(cfg, r.rx) && |r.answers| <= |r.completed| && Whole(cfg, r.completed)
      && (forall k :: 0 <= k < |r.answers| ==>
            r.answers[k].out == r.completed[k][..Min(r.answers[k].count, cfg.blocksize)])
      && r.completed[|r.answers|..] == Queue(cfg, r.rx)
      && r.kept == Flat(r.completed) + Partial(cfg, r.rx)
  {
    var r := CrewRun(cfg, s, acts);
    hide CrewRun, Serial;
    CrewInvIs(cfg, r, 0);
  }

  lemma {:induction false} CrewStartsWell(cfg: Config, size: nat, buf: seq<bv8>, n: nat)
    requires size >= 2 && |buf| == cfg.blocksize > 0 && n > 0
    ensures CrewInv(cfg, Crew(Start(cfg, size, buf).rx, seq(n, _ => Idle), [], [], []))
  {
    StartIsOk(cfg, size, buf);
    var s := Crew(Start(cfg, size, buf).rx, seq(n, _ => Idle), [], [], []);
    assert forall i :: 0 <= i < n ==> Seen(s, i) == Start(cfg, size, buf);
  }

  /** Two readers pick a block before either releases it: both get its first byte, and one block
      has been consumed by two reads. */
  lemma {:induction false} TwoReadersGetOneBlock(cfg: Config, s: Crew)
    requires Ok(cfg, s.rx) && s.readers == [Idle, Idle] && Readable(s.rx) && s.rx.readn[s.rx.ring.drain] > 0
    ensures var picked := CrewAct(cfg, CrewAct(cfg, s, 0, Begin(1)), 1, Begin(1));
      var first := CrewAct(cfg, CrewAct(cfg, picked, 0, CopyByte), 0, End);
      && Ok(cfg, first.rx)
      && var second := CrewAct(cfg, CrewAct(cfg, first, 1, CopyByte), 1, End);
      var answer := Answer(1, [s.rx.bufs[s.rx.ring.drain][0]]);
        && second.answers == s.answers + [answer] + [answer]
        && Ok(cfg, second.rx) && Queue(cfg, s.rx)[1..] == Queue(cfg, second.rx)
  {
    var d := s.rx.ring.drain;
    var picked := CrewAct(cfg, CrewAct(cfg, s, 0, Begin(1)), 1, Begin(1));
    assert picked == s.(readers := [Reading(d, 1, 1, []), Reading(d, 1, 1, [])]);
    ReleasedIsQueue(cfg, s.rx);
    ReleasedTwice(cfg, s.rx);
    hide CrewAct, Queue, Partial, Released;
    ReadEnds(cfg, picked, 0, d);
    var first := CrewAct(cfg, CrewAct(cfg, picked, 0, CopyByte), 0, End);
    ReadEnds(cfg, first, 1, d);
  }

  lemma {:induction false} ReadEnds(cfg: Config, s: Crew, w: nat, slot: nat)
    requires Ok(cfg, s.rx) && w < |s.readers| && s.readers[w] == Reading(slot, 1, 1, []) && slot < s.rx.ring.size
    ensures Picked(cfg, s.rx, s.readers[w])
    ensures |s.rx.bufs| == |s.rx.readn| == |s.rx.readidx| == s.rx.ring.size && |s.rx.bufs[slot]| > 0
    ensures var copied := CrewAct(cfg, s, w, CopyByte);
      && Ok(cfg, copied.rx) && Picked(cfg, copied.rx, copied.readers[w])
      && CrewAct(cfg, copied, w, End) == Crew(Released(cfg, s.rx, slot), s.readers[w := Idle], s.kept, s.completed,
                                              s.answers + [Answer(1, [s.rx.bufs[slot][0]])])
  {
    hide Released;
    var copied := CrewAct(cfg, s, w, CopyByte);
    assert [] + [s.rx.bufs[slot][0]] == [s.rx.bufs[slot][0]];
    assert copied.readers == s.readers[w := Reading(slot, 1, 1, [s.rx.bufs[slot][0]])];
    var r := CrewAct(cfg, copied, w, End);
    assert r.readers == s.readers[w := Idle];
  }

  /** Releasing a slot again, with nothing in between, changes nothing. */
  lemma {:induction false} ReleasedTwice(cfg: Config, t: Rx)
    requires Ok(cfg, t) && t.ring.drain >= 0
    ensures Released(cfg, Released(cfg, t, t.ring.drain), t.ring.drain) == Released(cfg, t, t.ring.drain)
  {
    NextSlot(t.ring.drain, t.ring.size);
  }

  lemma {:induction false} Split(data: seq<bv8>, pos: nat, left: nat)
    requires pos + left <= |data|
    ensures data[pos..][..left] == data[pos..pos + left]
    ensures data[pos..][left..] == data[pos + left..]
  {
  }

  // ---------- the channel in place ----------

  datatype ReadResult = Einval | Eagain | Got(out: seq<bv8>)

  class RxChannel {
    const numbufs: nat
    const cfg: Config
    var inreadbuf: int
    var outreadbuf: int
    const readbuf: array<seq<bv8>>
    const readn: array<nat>
    const readidx: array<nat>
    var rxdisable: bool

    ghost function State(): Rx
      reads this, readbuf, readn, readidx
    {
      Rx(Cursors(numbufs, inreadbuf, outreadbuf), readbuf[..], readn[..], readidx[..], rxdisable)
    }

    ghost predicate Valid()
      reads this, readbuf, readn, readidx
    {
      readn != readidx && Ok(cfg, State())
    }

    /** dahdi_reallocbufs: fresh buffers, nothing received. */
    constructor (size: nat, cfg: Config)
      requires size >= 2 && cfg.blocksize > 0
      ensures Valid() && fresh(readbuf) && fresh(readn) && fresh(readidx)
      ensures State() == Start(cfg, size, seq(cfg.blocksize, i => 0)).rx && this.cfg == cfg
    {
      this.numbufs, this.cfg := size, cfg;
      inreadbuf, outreadbuf, rxdisable := 0, -1, cfg.whenFull;
      var empty: seq<bv8> := seq(cfg.blocksize, i => 0);
      readbuf := new seq<bv8>[size](i => empty);
      readn := new nat[size](i => 0);
      readidx := new nat[size](i => 0);
    }

    /** End of block: hand it over and move to the next one, or to none. */
    method Complete()
      requires readn != readidx && numbufs == readn.Length == readidx.Length == readbuf.Length >= 2
      requires State().ring.Valid() && inreadbuf >= 0
      modifies this, readn
      ensures State() == Completed(old(State()))
    {
      FilledAppends(State().ring);
      var oldbuf := inreadbuf;
      readn[oldbuf] := readidx[oldbuf];
      inreadbuf := (inreadbuf + 1) % numbufs;
      if inreadbuf == outreadbuf {
        inreadbuf := -1;
        rxdisable := false;
      }
      if outreadbuf < 0 {
        outreadbuf := oldbuf;
      }
    }

    /** One turn of the receive loop: bytes into the current block. */
    method Place(data: seq<bv8>)
      requires Valid() && inreadbuf >= 0 && |data| <= cfg.blocksize - readidx[inreadbuf]
      modifies this, readbuf, readn, readidx
      ensures Valid() && State() == Placed(cfg, old(State()), data)
    {
      PlacedOk(cfg, State(), data);
      hide Completed;
      ghost var t := State();
      var f := inreadbuf;
      var i := readidx[f];
      readbuf[f] := readbuf[f][..i] + data + readbuf[f][i + |data|..];
      readidx[f] := i + |data|;
      assert State() == t.(bufs := t.bufs[f := t.bufs[f][..i] + data + t.bufs[f][i + |data|..]],
                           readidx := t.readidx[f := i + |data|]);
      if readidx[f] >= cfg.blocksize {
        Complete();
      }
    }

    /** As much as the current block takes. */
    method PutBlock(rxb: seq<bv8>, pos: nat, ghost t: Rx) returns (next: nat)
      requires Valid() && pos < |rxb| && inreadbuf >= 0 && Ok(cfg, t) && Ahead(cfg, t, rxb, State(), pos)
      modifies this, readbuf, readn, readidx
      ensures Valid() && pos < next <= |rxb| && Ahead(cfg, t, rxb, State(), next)
    {
      OkShape(cfg, State());
      hide Placed, Receive, Ahead, Ok;
      ghost var u := State();
      var left := cfg.blocksize - readidx[inreadbuf];
      if left > |rxb| - pos {
        left := |rxb| - pos;
      }
      assert left == RoomLeft(cfg, u, |rxb| - pos);
      hide RoomLeft, Min;
      AheadTurn(cfg, t, rxb, u, pos, left);
      Place(rxb[pos..pos + left]);
      assert State() == Placed(cfg, u, rxb[pos..pos + left]);
      next := pos + left;
    }

    /** __putbuf_chunk on a plain channel: bytes that find every block filled are dropped. */
    method PutBufChunk(rxb: seq<bv8>) returns (ghost kept: nat)
      requires Valid()
      modifies this, readbuf, readn, readidx
      ensures Valid() && (State(), kept) == Receive(cfg, old(State()), rxb)
      ensures kept < |rxb| ==> inreadbuf < 0
    {
      ghost var t := State();
      var pos: nat := 0;
      assert Ahead(cfg, t, rxb, t, 0) by {
        assert rxb[0..] == rxb;
      }
      hide Placed, Receive, Ahead, Ok;
      while pos < |rxb| && inreadbuf > -1
        invariant Valid() && pos <= |rxb| && Ahead(cfg, t, rxb, State(), pos)
        decreases |rxb| - pos
      {
        pos := PutBlock(rxb, pos, t);
      }
      kept := pos;
      AheadDone(cfg, t, rxb, State(), pos);
    }

    /** The locked end of dahdi_chan_read: the slot is free again. */
    method Release(slot: nat)
      requires Valid() && slot == outreadbuf
      modifies this, readn, readidx
      ensures Valid() && State() == Released(cfg, old(State()), slot)
    {
      hide Ok, Queue, Partial, Contents, Values;
      ReleasedIsQueue(cfg, State());
      OkShape(cfg, State());
      ghost var t := State();
      readidx[slot] := 0;
      readn[slot] := 0;
      assert readn[..] == t.readn[slot := 0] && readidx[..] == t.readidx[slot := 0];
      outreadbuf := (slot + 1) % numbufs;
      if outreadbuf == inreadbuf {
        outreadbuf := -1;
        if cfg.whenFull {
          rxdisable := true;
        }
      }
      if inreadbuf < 0 {
        inreadbuf := slot;
      }
    }

    /** dahdi_chan_read on a non-blocking, non-linear file, with no interrupt in between:
        the oldest block is consumed, whatever part of it fitted the user's buffer. */
    method ChanRead(size: nat) returns (r: ReadResult)
      requires Valid()
      modifies this, readn, readidx
      ensures Valid()
      ensures r.Einval? <==> size % 0x1_0000 < 1
      ensures r.Eagain? <==> size % 0x1_0000 >= 1 && !old(Readable(State()))
      ensures !r.Got? ==> State() == old(State())
      ensures r.Got? ==> var q := old(Queue(cfg, State()));
        q != [] && r.out == q[0][..Min(size % 0x1_0000, |q[0]|)] && Queue(cfg, State()) == q[1..] &&
        Partial(cfg, State()) == old(Partial(cfg, State()))
    {
      var count := size % 0x1_0000;
      if count < 1 {
        return Einval;
      }
      var res := outreadbuf;
      if rxdisable {
        res := -1;
      }
      if res < 0 {
        return Eagain;
      }
      var amnt := Min(count, readn[res]);
      var out := readbuf[res][..amnt];
      ReleasedIsQueue(cfg, State());
      Release(res);
      r := Got(out);
    }
  }
}
