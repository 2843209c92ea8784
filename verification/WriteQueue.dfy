/** The transmit side of a channel: user space fills blocks outside the lock while the
    interrupt drains them. The steps are first given on values, where all
    interleavings can be quantified over; class TxChannel performs them in place. */
module WriteQueue {
  import opened Ring
  import Fcs

  datatype Policy = Immediate | WhenFull | HalfFull

  datatype Config = Config(blocksize: nat, policy: Policy, fcs: bool)

  /** The block queue of one channel. */
  datatype Tx = Tx(ring: Cursors, bufs: seq<seq<bv8>>, writen: seq<nat>, writeidx: seq<nat>, disabled: bool)

  ghost predicate Ok(cfg: Config, t: Tx) {
    && t.ring.Valid()
    && |t.bufs| == |t.writen| == |t.writeidx| == t.ring.size
    && forall x :: 0 <= x < t.ring.size ==> t.writeidx[x] <= t.writen[x] <= |t.bufs[x]| == cfg.blocksize
  }

  // ---------- the writer's steps ----------

  /** The bytes of a user buffer that go into one block. A linear write carries
      two bytes a sample, each pair encoded into one byte. */
  function BlockOf(cfg: Config, usr: seq<bv8>, linear: bool, encode: (bv8, bv8) -> bv8): (b: seq<bv8>)
    ensures |b| <= cfg.blocksize
    ensures !linear ==> b <= usr
  {
    var count := |usr| % 0x1_0000;
    if linear then
      var amnt := if count > 2 * cfg.blocksize then 2 * cfg.blocksize else count;
      seq(amnt / 2, i requires 0 <= i < amnt / 2 => encode(usr[2 * i], usr[2 * i + 1]))
    else usr[..if count > cfg.blocksize then cfg.blocksize else count]
  }

  function Finished(cfg: Config, block: seq<bv8>): (b: seq<bv8>)
    ensures |b| == |block|
  {
    if cfg.fcs then Fcs.Stamp(block) else block
  }

  /** One byte copied into the chosen slot, without the lock. */
  function Stored(t: Tx, slot: nat, pos: nat, b: bv8): Tx
    requires slot < |t.bufs| && pos < |t.bufs[slot]|
  {
    t.(bufs := t.bufs[slot := t.bufs[slot][pos := b]])
  }

  /** The lengths of the chosen slot set and its check stamped, without the lock. */
  function Sealed(cfg: Config, t: Tx, slot: nat, n: nat): Tx
    requires slot < |t.bufs| == |t.writen| == |t.writeidx| && n <= |t.bufs[slot]|
  {
    t.(bufs := t.bufs[slot := Finished(cfg, t.bufs[slot][..n]) + t.bufs[slot][n..]],
       writen := t.writen[slot := n], writeidx := t.writeidx[slot := 0])
  }

  /** The chosen slot handed to the interrupt side, under the lock. */
  function Committed(cfg: Config, t: Tx, slot: nat): Tx
    requires t.ring.size > 0
  {
    var ring := t.ring.(fill := slot).Filled();
    var disabled := t.disabled && ring.fill >= 0;
    t.(ring := ring, disabled := disabled && !(cfg.policy == HalfFull && ring.Count() >= t.ring.size / 2))
  }

  // ---------- the interrupt's step ----------

  /** The block at the drain cursor has been sent: move to the next one. */
  function Advanced(cfg: Config, t: Tx): Tx
    requires Ok(cfg, t) && t.ring.drain >= 0
  {
    var ring := t.ring.Drained();
    Tx(ring, t.bufs, t.writen[t.ring.drain := 0], t.writeidx[t.ring.drain := 0],
       t.disabled || (ring.drain < 0 && cfg.policy != Immediate))
  }

  /** Up to `bytes` bytes taken from the front block, which is released when it is used up. */
  function Taken(cfg: Config, t: Tx, left: nat): Tx
    requires Ok(cfg, t) && t.ring.drain >= 0
    requires t.writeidx[t.ring.drain] + left <= t.writen[t.ring.drain]
  {
    var o := t.ring.drain;
    var t1 := t.(writeidx := t.writeidx[o := t.writeidx[o] + left]);
    if t1.writeidx[o] >= t1.writen[o] then Advanced(cfg, t1) else t1
  }

  function FrontLeft(t: Tx, bytes: nat): nat
    requires 0 <= t.ring.drain < |t.writen| == |t.writeidx|
    requires t.writeidx[t.ring.drain] <= t.writen[t.ring.drain]
  {
    Min(t.writen[t.ring.drain] - t.writeidx[t.ring.drain], bytes)
  }

  function Front(t: Tx, bytes: nat): seq<bv8>
    requires 0 <= t.ring.drain < |t.writen| == |t.writeidx| == |t.bufs|
    requires t.writeidx[t.ring.drain] <= t.writen[t.ring.drain] <= |t.bufs[t.ring.drain]|
  {
    t.bufs[t.ring.drain][t.writeidx[t.ring.drain]..t.writeidx[t.ring.drain] + FrontLeft(t, bytes)]
  }

  predicate Sending(t: Tx) { t.ring.drain > -1 && !t.disabled }

  lemma {:induction false} TakenIsOk(cfg: Config, t: Tx, left: nat)
    requires Ok(cfg, t) && t.ring.drain >= 0
    requires t.writeidx[t.ring.drain] + left <= t.writen[t.ring.drain]
    ensures var u := Taken(cfg, t, left);
      && Ok(cfg, u) && 0 <= u.ring.Count() <= t.ring.Count()
      && (t.writeidx[t.ring.drain] + left == t.writen[t.ring.drain] ==> u.ring.Count() < t.ring.Count())
  {
    SlotsAreDistinct(t.ring);
    DrainedRemoves(t.ring);
    SlotsAreDistinct(t.ring.Drained());
  }

  /** The drain loop of one interrupt: the new queue and the data bytes put on the line. */
  function Drain(cfg: Config, t: Tx, bytes: nat): (r: (Tx, seq<bv8>))
    requires Ok(cfg, t)
    ensures Ok(cfg, r.0) && |r.1| <= bytes
    decreases bytes, t.ring.Count()
  {
    if bytes == 0 || !Sending(t) then (t, [])
    else
      var o := t.ring.drain;
      var left := FrontLeft(t, bytes);
      var data := t.bufs[o][t.writeidx[o]..t.writeidx[o] + left];
      TakenIsOk(cfg, t, left);
      hide Taken;
      var (t', rest) := Drain(cfg, Taken(cfg, t, left), bytes - left);
      (t', data + rest)
  }

  // ---------- what is queued ----------

  /** What is left to send of slot `x`. */
  function Left(t: Tx, x: int): seq<bv8> {
    if 0 <= x < |t.bufs| && x < |t.writen| && x < |t.writeidx| && t.writeidx[x] <= t.writen[x] <= |t.bufs[x]|
    then t.bufs[x][t.writeidx[x]..t.writen[x]]
    else []
  }

  ghost function Lefts(t: Tx): (l: seq<seq<bv8>>)
    ensures |l| == t.ring.size
    ensures forall x :: 0 <= x < |l| ==> l[x] == Left(t, x)
  {
    seq(t.ring.size, x requires 0 <= x => Left(t, x))
  }

  /** What is left to send of the filled slots, oldest first. */
  ghost function Blocks(t: Tx): (b: seq<seq<bv8>>)
    requires t.ring.Valid()
    ensures |b| == t.ring.Count()
  {
    Contents(t.ring, Lefts(t))
  }

  /** The bytes still to be sent. */
  ghost function Pending(t: Tx): seq<bv8>
    requires t.ring.Valid()
  {
    Flat(Blocks(t))
  }

  /** Taking `left` bytes shortens the front block, and drops it when nothing is left of it. */
  lemma {:induction false} TakenBlocks(cfg: Config, t: Tx, left: nat)
    requires Ok(cfg, t) && t.ring.drain >= 0
    requires t.writeidx[t.ring.drain] + left <= t.writen[t.ring.drain]
    ensures Ok(cfg, Taken(cfg, t, left))
    ensures var b, b' := Blocks(t), Blocks(Taken(cfg, t, left));
      && b != [] && left <= |b[0]|
      && b' == (if left == |b[0]| then b[1..] else [b[0][left..]] + b[1..])
  {
    hide Contents;
    var u := Taken(cfg, t, left);
    FrontContents(t.ring, Lefts(t));
    if left == |Blocks(t)[0]| {
      ContentsDrained(t.ring, Lefts(t), Lefts(u));
    } else {
      ContentsFrontChanged(t.ring, Lefts(t), Lefts(u));
    }
  }

  lemma {:induction false} TakenPending(t: Tx, u: Tx, left: nat)
    requires t.ring.Valid() && u.ring.Valid()
    requires var b, b' := Blocks(t), Blocks(u);
      b != [] && left <= |b[0]| && b' == (if left == |b[0]| then b[1..] else [b[0][left..]] + b[1..])
    ensures Pending(t) == Blocks(t)[0][..left] + Pending(u)
  {
    hide Blocks;
    var b := Blocks(t);
    assert b[0] == b[0][..left] + b[0][left..];
    if left < |b[0]| {
      assert ([b[0][left..]] + b[1..])[1..] == b[1..];
    }
  }

  /** One block's worth of bytes leaves the queue from the front; the interrupt stops only when nothing is left. */
  lemma {:induction false} TakenIsQueue(cfg: Config, t: Tx, left: nat)
    requires Ok(cfg, t) && t.ring.drain >= 0
    requires t.writeidx[t.ring.drain] + left <= t.writen[t.ring.drain]
    ensures var u, o := Taken(cfg, t, left), t.ring.drain;
      && Ok(cfg, u)
      && Pending(t) == t.bufs[o][t.writeidx[o]..t.writeidx[o] + left] + Pending(u)
      && (u.disabled ==> t.disabled || Pending(u) == [])
      && (t.ring.fill >= 0 ==> u.ring.fill == t.ring.fill)
      && (t.ring.fill < 0 && u.ring.fill < 0 ==> u.disabled == t.disabled)
      && (u.ring.drain < 0 ==> Pending(u) == [])
  {
    var u, o := Taken(cfg, t, left), t.ring.drain;
    SlotsAreDistinct(t.ring);
    DrainedRemoves(t.ring);
    TakenBlocks(cfg, t, left);
    SlotsAreDistinct(u.ring);
    TakenPending(t, u, left);
    FrontContents(t.ring, Lefts(t));
  }

  /** One turn of the drain loop. */
  lemma {:induction false} DrainTurn(cfg: Config, t: Tx, bytes: nat, left: nat, u: Tx)
    requires Ok(cfg, t)
    requires bytes != 0 && Sending(t) ==> left == FrontLeft(t, bytes) && u == Taken(cfg, t, left)
    ensures bytes == 0 || !Sending(t) ==> Drain(cfg, t, bytes) == (t, [])
    ensures bytes != 0 && Sending(t) ==> var o := t.ring.drain;
      && Ok(cfg, u) && left <= bytes && t.writeidx[o] + left <= t.writen[o]
      && 0 <= u.ring.Count() <= t.ring.Count() && (left == 0 ==> u.ring.Count() < t.ring.Count())
      && Drain(cfg, t, bytes) ==
         (Drain(cfg, u, bytes - left).0, t.bufs[o][t.writeidx[o]..t.writeidx[o] + left] + Drain(cfg, u, bytes - left).1)
  {
    if bytes != 0 && Sending(t) {
      TakenIsOk(cfg, t, left);
      hide Taken;
    }
  }

  /** The drain loop is a queue: it sends the oldest pending bytes in order, as many
      as fit, and keeps the rest. */
  lemma {:induction false} DrainIsQueue(cfg: Config, t: Tx, bytes: nat)
    requires Ok(cfg, t)
    ensures var (u, data) := Drain(cfg, t, bytes);
      && Pending(t) == data + Pending(u)
      && (!t.disabled ==> |data| == Min(|Pending(t)|, bytes))
      && (t.disabled ==> u == t)
      && (t.ring.fill >= 0 ==> u.ring.fill == t.ring.fill)
    decreases bytes, t.ring.Count()
  {
    hide Taken, Pending, Drain;
    var left := if bytes != 0 && Sending(t) then FrontLeft(t, bytes) else 0;
    var u := if bytes != 0 && Sending(t) then Taken(cfg, t, left) else t;
    DrainTurn(cfg, t, bytes, left, u);
    if bytes != 0 && Sending(t) {
      TakenIsQueue(cfg, t, left);
      DrainIsQueue(cfg, u, bytes - left);
    } else {
      NothingPending(t);
    }
  }

  lemma {:induction false} NothingPending(t: Tx)
    requires t.ring.Valid()
    ensures t.ring.drain < 0 ==> Pending(t) == []
  {
    SlotsAreDistinct(t.ring);
  }

  // ---------- all interleavings of one writer with the interrupt ----------

  /** Where the writer is: it holds a slot from the moment it picked it until it commits it. */
  datatype Writer = Idle | Copying(slot: nat, block: seq<bv8>, pos: nat) | Ready(slot: nat, block: seq<bv8>)

  /** The queue, the writer, every byte accepted from user space and every data byte sent, so far. */
  datatype System = System(tx: Tx, writer: Writer, accepted: seq<bv8>, sent: seq<bv8>)

  datatype Action = Begin(block: seq<bv8>) | CopyByte | Seal | Commit | Interrupt(bytes: nat)

  ghost predicate WriterOk(cfg: Config, t: Tx, w: Writer)
    requires Ok(cfg, t)
  {
    match w
    case Idle => true
    case Copying(slot, block, pos) =>
      slot == t.ring.fill && pos <= |block| <= cfg.blocksize && t.bufs[slot][..pos] == block[..pos]
    case Ready(slot, block) =>
      slot == t.ring.fill && |block| <= cfg.blocksize && t.bufs[slot][..|block|] == Finished(cfg, block) &&
      t.writen[slot] == |block| && t.writeidx[slot] == 0
  }

  /** Nothing is lost, duplicated or reordered; a full queue is never switched off. */
  ghost predicate Inv(cfg: Config, s: System) {
    && Ok(cfg, s.tx)
    && WriterOk(cfg, s.tx, s.writer)
    && s.accepted == s.sent + Pending(s.tx)
    && (s.tx.ring.fill < 0 || cfg.policy == Immediate ==> !s.tx.disabled)
  }

  /** The writer has picked some slot, perhaps long ago. */
  predicate Placed(cfg: Config, t: Tx, w: Writer) {
    match w
    case Idle => true
    case Copying(slot, block, pos) => slot < t.ring.size && pos <= |block| <= cfg.blocksize
    case Ready(slot, _) => slot < t.ring.size
  }

  /** One step; an action that is not possible in the state changes nothing. */
  function Act(cfg: Config, s: System, a: Action): System
    requires Ok(cfg, s.tx) && Placed(cfg, s.tx, s.writer)
  {
    match a
    case Begin(block) =>
      if s.writer.Idle? && s.tx.ring.fill >= 0 && |block| <= cfg.blocksize
      then s.(writer := Copying(s.tx.ring.fill, block, 0)) else s
    case CopyByte =>
      if s.writer.Copying? && s.writer.pos < |s.writer.block|
      then s.(tx := Stored(s.tx, s.writer.slot, s.writer.pos, s.writer.block[s.writer.pos]),
              writer := s.writer.(pos := s.writer.pos + 1))
      else s
    case Seal =>
      if s.writer.Copying? && s.writer.pos == |s.writer.block|
      then s.(tx := Sealed(cfg, s.tx, s.writer.slot, s.writer.pos), writer := Ready(s.writer.slot, s.writer.block))
      else s
    case Commit =>
      if s.writer.Ready?
      then System(Committed(cfg, s.tx, s.writer.slot), Idle, s.accepted + Finished(cfg, s.writer.block), s.sent)
      else s
    case Interrupt(bytes) =>
      var (tx, data) := Drain(cfg, s.tx, bytes);
      s.(tx := tx, sent := s.sent + data)
  }

  ghost function Run(cfg: Config, s: System, acts: seq<Action>): (r: System)
    requires Inv(cfg, s)
    ensures Inv(cfg, r)
    decreases |acts|
  {
    if acts == [] then s else
      ActKeepsInv(cfg, s, acts[0]);
      Run(cfg, Act(cfg, s, acts[0]), acts[1..])
  }

  /** The slot being filled is outside the queue, so filling it leaves the queue alone. */
  lemma {:induction false} FillSlotIsPrivate(cfg: Config, t: Tx, u: Tx)
    requires Ok(cfg, t) && Ok(cfg, u) && u.ring == t.ring && t.ring.fill >= 0
    requires forall x :: 0 <= x < t.ring.size && x != t.ring.fill ==>
      u.bufs[x] == t.bufs[x] && u.writen[x] == t.writen[x] && u.writeidx[x] == t.writeidx[x]
    ensures Blocks(u) == Blocks(t)
  {
    OutsideIsFree(t.ring, Lefts(t), Lefts(u));
  }

  lemma {:induction false} TakenScribbled(cfg: Config, t: Tx, left: nat, junk: seq<bv8>, n: nat, i: nat)
    requires Ok(cfg, t) && t.ring.fill >= 0 && t.ring.drain >= 0 && i <= n <= |junk| == cfg.blocksize
    requires t.writeidx[t.ring.drain] + left <= t.writen[t.ring.drain]
    ensures Ok(cfg, Scribbled(t, junk, n, i))
    ensures var u := Taken(cfg, t, left);
      u.ring.fill == t.ring.fill && |u.bufs| == |u.writen| == |u.writeidx| == |t.bufs| &&
      Taken(cfg, Scribbled(t, junk, n, i), left) == Scribbled(u, junk, n, i)
  {
    var u, u' := Taken(cfg, t, left), Taken(cfg, Scribbled(t, junk, n, i), left);
    assert u'.writen == Scribbled(u, junk, n, i).writen;
    assert u'.writeidx == Scribbled(u, junk, n, i).writeidx;
  }

  /** Whatever the writer has put in the slot it is filling, the interrupt sends the
      same bytes and leaves the slot as it is: the slot is never read. */
  lemma {:induction false} DrainIgnoresFillSlot(cfg: Config, t: Tx, bytes: nat, junk: seq<bv8>, n: nat, i: nat)
    requires Ok(cfg, t) && t.ring.fill >= 0 && i <= n <= |junk| == cfg.blocksize
    ensures Ok(cfg, Scribbled(t, junk, n, i))
    ensures var (u, data) := Drain(cfg, t, bytes);
      u.ring.fill == t.ring.fill && |u.bufs| == |u.writen| == |u.writeidx| == |t.bufs| &&
      Drain(cfg, Scribbled(t, junk, n, i), bytes) == (Scribbled(u, junk, n, i), data)
    decreases bytes, t.ring.Count()
  {
    hide Taken, Drain;
    var t' := Scribbled(t, junk, n, i);
    if bytes != 0 && Sending(t) {
      var left := FrontLeft(t, bytes);
      var u := Taken(cfg, t, left);
      TakenScribbled(cfg, t, left, junk, n, i);
      DrainTurn(cfg, t, bytes, left, u);
      DrainTurn(cfg, t', bytes, left, Scribbled(u, junk, n, i));
      DrainIgnoresFillSlot(cfg, u, bytes - left, junk, n, i);
    } else {
      DrainTurn(cfg, t, bytes, 0, t);
      DrainTurn(cfg, t', bytes, 0, t');
    }
  }

  /** The queue with arbitrary contents and lengths in the slot being filled. */
  function Scribbled(t: Tx, junk: seq<bv8>, n: nat, i: nat): Tx
    requires 0 <= t.ring.fill < |t.bufs| == |t.writen| == |t.writeidx|
  {
    t.(bufs := t.bufs[t.ring.fill := junk], writen := t.writen[t.ring.fill := n],
       writeidx := t.writeidx[t.ring.fill := i])
  }

  lemma {:induction false} DrainKeepsFillSlot(cfg: Config, t: Tx, bytes: nat)
    requires Ok(cfg, t) && t.ring.fill >= 0
    ensures var u, f := Drain(cfg, t, bytes).0, t.ring.fill;
      u.ring.fill == f && u.bufs[f] == t.bufs[f] && u.writen[f] == t.writen[f] && u.writeidx[f] == t.writeidx[f]
  {
    hide Drain, Lefts, Blocks, Sending;
    var f := t.ring.fill;
    assert Scribbled(t, t.bufs[f], t.writen[f], t.writeidx[f]) == t;
    DrainIgnoresFillSlot(cfg, t, bytes, t.bufs[f], t.writen[f], t.writeidx[f]);
  }

  lemma {:induction false} CommittedAppends(cfg: Config, t: Tx)
    requires Ok(cfg, t) && t.ring.fill >= 0 && t.writeidx[t.ring.fill] == 0
    ensures var u := Committed(cfg, t, t.ring.fill);
      Ok(cfg, u) && Blocks(u) == Blocks(t) + [t.bufs[t.ring.fill][..t.writen[t.ring.fill]]]
  {
    var u := Committed(cfg, t, t.ring.fill);
    ContentsFilled(t.ring, Lefts(t));
    assert u.ring == t.ring.Filled() && Lefts(u) == Lefts(t);
  }

  /** What the block `q` queued by a write is: the front of the user's bytes, or one byte for every
      two of them on a linear channel, as much as fits a block; the check takes the last two bytes. */
  predicate Carries(cfg: Config, usr: seq<bv8>, linear: bool, encode: (bv8, bv8) -> bv8, q: seq<bv8>) {
    var count := |usr| % 0x1_0000;
    var kept := if cfg.fcs && |q| >= 2 then |q| - 2 else |q|;
    && |q| == (if linear then Min(count, 2 * cfg.blocksize) / 2 else Min(count, cfg.blocksize))
    && (forall i :: 0 <= i < kept ==> q[i] == if linear then encode(usr[2 * i], usr[2 * i + 1]) else usr[i])
    && q[kept..] == if cfg.fcs && |q| >= 2 then Fcs.Check(q[..kept]) else []
  }

  lemma {:induction false} StampIs(b: seq<bv8>)
    ensures |b| < 2 ==> Fcs.Stamp(b) == b
    ensures |b| >= 2 ==>
      var q, kept := Fcs.Stamp(b), |b| - 2;
      |q| == |b| && q[..kept] == b[..kept] && q[kept..] == Fcs.Check(q[..kept])
  {
    hide Fcs.Check;
    if |b| >= 2 {
      assert Fcs.Stamp(b)[..|b| - 2] == b[..|b| - 2];
    }
  }

  lemma {:induction false} BlockIs(cfg: Config, usr: seq<bv8>, linear: bool, encode: (bv8, bv8) -> bv8)
    ensures var q, count := BlockOf(cfg, usr, linear, encode), |usr| % 0x1_0000;
      && |q| == (if linear then Min(count, 2 * cfg.blocksize) / 2 else Min(count, cfg.blocksize))
      && (if linear then 2 * |q| else |q|) <= |usr|
      && forall i :: 0 <= i < |q| ==> q[i] == if linear then encode(usr[2 * i], usr[2 * i + 1]) else usr[i]
  {
  }

  lemma {:induction false} OneMoreByte(old_: seq<bv8>, now: seq<bv8>, block: seq<bv8>, x: nat)
    requires x < |block| <= |old_| && old_[..x] == block[..x] && now == old_[x := block[x]]
    ensures now[..x + 1] == block[..x + 1]
  {
    assert now[..x + 1] == old_[..x] + [block[x]];
  }

  lemma {:induction false} WrittenIs(cfg: Config, usr: seq<bv8>, linear: bool, encode: (bv8, bv8) -> bv8)
    ensures Carries(cfg, usr, linear, encode, Finished(cfg, BlockOf(cfg, usr, linear, encode)))
  {
    BlockIs(cfg, usr, linear, encode);
    StampIs(BlockOf(cfg, usr, linear, encode));
    hide Fcs.Check, Fcs.Stamp, BlockOf, Min;
    var b, q := BlockOf(cfg, usr, linear, encode), Finished(cfg, BlockOf(cfg, usr, linear, encode));
    var kept := if cfg.fcs && |q| >= 2 then |q| - 2 else |q|;
    forall i | 0 <= i < kept ensures q[i] == b[i] {
      assert q[..kept][i] == b[..kept][i];
    }
  }

  /** When a write starts a transmitter that waits: the queue is full, or, by the half-full policy,
      holds half of the blocks. */
  lemma {:induction false} StartsByPolicy(cfg: Config, t: Tx)
    requires Ok(cfg, t) && t.ring.fill >= 0 && t.writeidx[t.ring.fill] == 0
    ensures var u := Committed(cfg, t, t.ring.fill);
      && Ok(cfg, u)
      && (u.disabled <==> t.disabled && |Blocks(u)| < t.ring.size &&
                          (cfg.policy == HalfFull ==> |Blocks(u)| < t.ring.size / 2))
  {
    CommittedAppends(cfg, t);
    SlotsAreDistinct(t.ring.Filled());
  }

  /** When an interrupt stops the transmitter: it sent the last of what was queued, and the policy
      is not to send at once. */
  lemma {:induction false} StopsByPolicy(cfg: Config, t: Tx, bytes: nat)
    requires Ok(cfg, t)
    ensures var u := Drain(cfg, t, bytes).0;
      u.disabled <==> t.disabled || (cfg.policy != Immediate && Blocks(t) != [] && Blocks(u) == [])
    decreases bytes, t.ring.Count()
  {
    hide Drain, Blocks, Contents;
    SlotsAreDistinct(t.ring);
    if bytes == 0 || !Sending(t) {
      DrainTurn(cfg, t, bytes, 0, t);
      assert t.ring.drain < 0 <==> |Blocks(t)| == 0;
    } else {
      var left := FrontLeft(t, bytes);
      var u := Taken(cfg, t, left);
      DrainTurn(cfg, t, bytes, left, u);
      DrainedRemoves(t.ring);
      SlotsAreDistinct(u.ring);
      assert u.ring.drain < 0 <==> |Blocks(u)| == 0;
      StopsByPolicy(cfg, u, bytes - left);
      if u.ring.drain < 0 {
        DrainTurn(cfg, u, bytes - left, 0, u);
      }
    }
  }

  lemma {:induction false} DrainKeepsEnabled(cfg: Config, t: Tx, bytes: nat)
    requires Ok(cfg, t)
    ensures var u := Drain(cfg, t, bytes).0;
      (u.ring.fill < 0 ==> t.ring.fill < 0 && u.disabled == t.disabled) &&
      (cfg.policy == Immediate ==> u.disabled == t.disabled)
    decreases bytes, t.ring.Count()
  {
    hide Drain;
    if bytes == 0 || !Sending(t) {
      DrainTurn(cfg, t, bytes, 0, t);
    } else {
      var left := FrontLeft(t, bytes);
      DrainTurn(cfg, t, bytes, left, Taken(cfg, t, left));
      TakenIsQueue(cfg, t, left);
      DrainKeepsEnabled(cfg, Taken(cfg, t, left), bytes - left);
    }
  }

  lemma {:induction false} CopyKeepsInv(cfg: Config, s: System)
    requires Inv(cfg, s)
    ensures Inv(cfg, Act(cfg, s, CopyByte))
  {
    hide Flat, Blocks;
    var s' := Act(cfg, s, CopyByte);
    if s' != s {
      FillSlotIsPrivate(cfg, s.tx, s'.tx);
    }
  }

  lemma {:induction false} SealKeepsInv(cfg: Config, s: System)
    requires Inv(cfg, s)
    ensures Inv(cfg, Act(cfg, s, Seal))
  {
    hide Flat, Blocks, Finished;
    var s' := Act(cfg, s, Seal);
    if s' != s {
      var slot, block := s.writer.slot, s.writer.block;
      assert s.tx.bufs[slot][..|block|] == block;
      assert (Finished(cfg, block) + s.tx.bufs[slot][|block|..])[..|block|] == Finished(cfg, block);
      FillSlotIsPrivate(cfg, s.tx, s'.tx);
    }
  }

  lemma {:induction false} CommitKeepsInv(cfg: Config, s: System)
    requires Inv(cfg, s)
    ensures Inv(cfg, Act(cfg, s, Commit))
  {
    hide Flat, Blocks, Finished;
    if s.writer.Ready? {
      var t := s.tx;
      CommittedAppends(cfg, t);
      FlatAppend(Blocks(t), t.bufs[t.ring.fill][..t.writen[t.ring.fill]]);
    }
  }

  lemma {:induction false} InterruptKeepsInv(cfg: Config, s: System, bytes: nat)
    requires Inv(cfg, s)
    ensures Inv(cfg, Act(cfg, s, Interrupt(bytes)))
  {
    hide Flat, Blocks, Finished, Drain;
    var t := s.tx;
    DrainIsQueue(cfg, t, bytes);
    DrainKeepsEnabled(cfg, t, bytes);
    if t.ring.fill >= 0 {
      DrainKeepsFillSlot(cfg, t, bytes);
    }
  }

  lemma {:induction false} ActKeepsInv(cfg: Config, s: System, a: Action)
    requires Inv(cfg, s)
    ensures Inv(cfg, Act(cfg, s, a))
  {
    hide Pending, Drain;
    match a
    case Begin(block) =>
    case CopyByte => CopyKeepsInv(cfg, s);
    case Seal => SealKeepsInv(cfg, s);
    case Commit => CommitKeepsInv(cfg, s);
    case Interrupt(bytes) => InterruptKeepsInv(cfg, s, bytes);
  }

  // ---------- results about whole runs ----------

  function Start(cfg: Config, size: nat, buf: seq<bv8>): System
    requires size >= 2 && |buf| == cfg.blocksize
  {
    System(Tx(Cursors(size, 0, -1), seq(size, i => buf), seq(size, i => 0), seq(size, i => 0), cfg.policy != Immediate),
           Idle, [], [])
  }

  lemma {:induction false} StartIsOk(cfg: Config, size: nat, buf: seq<bv8>)
    requires size >= 2 && |buf| == cfg.blocksize
    ensures Inv(cfg, Start(cfg, size, buf))
  {
    NothingPending(Start(cfg, size, buf).tx);
  }

  /** Over every run from a fresh channel, whatever the interleaving: the data bytes
      sent followed by the bytes still queued are exactly the accepted blocks in order. */
  lemma {:induction false} RunConservesBytes(cfg: Config, size: nat, buf: seq<bv8>, acts: seq<Action>)
    requires size >= 2 && |buf| == cfg.blocksize
    ensures Inv(cfg, Start(cfg, size, buf))
    ensures var s := Run(cfg, Start(cfg, size, buf), acts);
      s.accepted == s.sent + Pending(s.tx) && (s.tx.ring.drain < 0 ==> s.sent == s.accepted)
  {
    StartIsOk(cfg, size, buf);
    NothingPending(Run(cfg, Start(cfg, size, buf), acts).tx);
  }

  lemma {:induction false} FullQueueMakesRoom(cfg: Config, t: Tx, bytes: nat)
    requires Ok(cfg, t) && t.ring.fill < 0 && !t.disabled && bytes > 0
    ensures Blocks(t) != []
    ensures bytes >= |Blocks(t)[0]| ==> Drain(cfg, t, bytes).0.ring.fill >= 0
  {
    FrontContents(t.ring, Lefts(t));
    if bytes >= |Blocks(t)[0]| {
      var left := FrontLeft(t, bytes);
      var u := Taken(cfg, t, left);
      assert u.ring.fill >= 0;
      hide Drain, Taken;
      DrainTurn(cfg, t, bytes, left, u);
      DrainIsQueue(cfg, u, bytes - left);
    }
  }

  /** An interrupt too short for the front block of a full queue only shortens that block. */
  lemma {:induction false} FrontIsShortened(cfg: Config, t: Tx, bytes: nat)
    requires Ok(cfg, t) && t.ring.fill < 0 && !t.disabled && bytes > 0
    requires Blocks(t) != [] && bytes < |Blocks(t)[0]|
    ensures var u := Drain(cfg, t, bytes).0;
      u.ring.fill < 0 && !u.disabled && Blocks(u) != [] && Blocks(u)[0] == Blocks(t)[0][bytes..]
  {
    FrontContents(t.ring, Lefts(t));
    var u := Taken(cfg, t, bytes);
    TakenBlocks(cfg, t, bytes);
    hide Drain, Taken, Blocks;
    DrainTurn(cfg, t, bytes, bytes, u);
    DrainTurn(cfg, u, 0, 0, u);
    TakenIsQueue(cfg, t, bytes);
    SlotsAreDistinct(t.ring);
    SlotsAreDistinct(u.ring);
  }

  /** `n` interrupts of `chunk` bytes each. */
  function Interrupts(n: nat, chunk: nat): seq<Action> {
    seq(n, _ => Interrupt(chunk))
  }

  lemma {:induction false} InterruptsTurn(cfg: Config, s: System, n: nat, chunk: nat)
    requires Inv(cfg, s)
    ensures Run(cfg, s, Interrupts(0, chunk)) == s
    ensures n > 0 ==>
      && Inv(cfg, Act(cfg, s, Interrupt(chunk)))
      && Run(cfg, s, Interrupts(n, chunk)) == Run(cfg, Act(cfg, s, Interrupt(chunk)), Interrupts(n - 1, chunk))
  {
    if n > 0 {
      ActKeepsInv(cfg, s, Interrupt(chunk));
      hide Act, Inv;
      assert Interrupts(n, chunk)[1..] == Interrupts(n - 1, chunk);
    }
  }

  lemma {:induction false} RoomStays(cfg: Config, s: System, n: nat, chunk: nat)
    requires Inv(cfg, s) && s.tx.ring.fill >= 0
    ensures Run(cfg, s, Interrupts(n, chunk)).tx.ring.fill >= 0
    decreases n
  {
    hide Drain, Run;
    InterruptsTurn(cfg, s, n, chunk);
    if n > 0 {
      DrainIsQueue(cfg, s.tx, chunk);
      RoomStays(cfg, Act(cfg, s, Interrupt(chunk)), n - 1, chunk);
    }
  }

  /** A writer that found no room is released by exactly as many interrupts as the front
      block takes: there is room again after `n` of them if and only if they cover it. */
  lemma {:induction false} BlockedWriterIsReleased(cfg: Config, s: System, chunk: nat, n: nat)
    requires Inv(cfg, s) && s.tx.ring.fill < 0 && chunk > 0
    ensures Blocks(s.tx) != []
    ensures Run(cfg, s, Interrupts(n, chunk)).tx.ring.fill >= 0 <==> n > 0 && n * chunk >= |Blocks(s.tx)[0]|
    decreases n
  {
    hide Drain, Run, Blocks, Pending;
    InterruptsTurn(cfg, s, n, chunk);
    FullQueueMakesRoom(cfg, s.tx, chunk);
    if n > 0 {
      var s' := Act(cfg, s, Interrupt(chunk));
      assert n * chunk == (n - 1) * chunk + chunk && (n - 1) * chunk >= 0;
      if chunk >= |Blocks(s.tx)[0]| {
        RoomStays(cfg, s', n - 1, chunk);
      } else {
        FrontIsShortened(cfg, s.tx, chunk);
        BlockedWriterIsReleased(cfg, s', chunk, n - 1);
        assert n > 1 || n * chunk == chunk;
      }
    }
  }

  // ---------- several writers ----------

  /** Nothing keeps several processes from writing to one channel at a time. */
  datatype Crew = Crew(tx: Tx, writers: seq<Writer>, accepted: seq<bv8>, sent: seq<bv8>)

  ghost predicate CrewOk(cfg: Config, s: Crew) {
    Ok(cfg, s.tx) && forall i :: 0 <= i < |s.writers| ==> Placed(cfg, s.tx, s.writers[i])
  }

  /** The channel as writer `w` takes part in it. */
  function Seen(s: Crew, w: nat): System
    requires w < |s.writers|
  {
    System(s.tx, s.writers[w], s.accepted, s.sent)
  }

  ghost function CrewAct(cfg: Config, s: Crew, w: nat, a: Action): (r: Crew)
    requires CrewOk(cfg, s) && w < |s.writers|
    ensures CrewOk(cfg, r) && |r.writers| == |s.writers|
  {
    ActKeepsShape(cfg, Seen(s, w), a);
    var r := Act(cfg, Seen(s, w), a);
    Crew(r.tx, s.writers[w := r.writer], r.accepted, r.sent)
  }

  lemma {:induction false} DrainKeepsSize(cfg: Config, t: Tx, bytes: nat)
    requires Ok(cfg, t)
    ensures Drain(cfg, t, bytes).0.ring.size == t.ring.size
    decreases bytes, t.ring.Count()
  {
    hide Drain;
    if bytes == 0 || !Sending(t) {
      DrainTurn(cfg, t, bytes, 0, t);
    } else {
      var left := FrontLeft(t, bytes);
      DrainTurn(cfg, t, bytes, left, Taken(cfg, t, left));
      DrainKeepsSize(cfg, Taken(cfg, t, left), bytes - left);
    }
  }

  lemma {:induction false} ActKeepsShape(cfg: Config, s: System, a: Action)
    requires Ok(cfg, s.tx) && Placed(cfg, s.tx, s.writer)
    ensures var r := Act(cfg, s, a);
      Ok(cfg, r.tx) && Placed(cfg, r.tx, r.writer) && r.tx.ring.size == s.tx.ring.size
  {
    hide Drain, Finished;
    match a
    case Begin(_) =>
    case CopyByte =>
    case Seal =>
    case Commit =>
      if s.writer.Ready? {
        NextSlot(s.writer.slot, s.tx.ring.size);
      }
    case Interrupt(bytes) => DrainKeepsSize(cfg, s.tx, bytes);
  }

  ghost predicate InCrew(acts: seq<(nat, Action)>, n: nat) {
    forall k :: 0 <= k < |acts| ==> acts[k].0 < n
  }

  ghost function CrewRun(cfg: Config, s: Crew, acts: seq<(nat, Action)>): (r: Crew)
    requires CrewOk(cfg, s) && InCrew(acts, |s.writers|)
    ensures CrewOk(cfg, r) && |r.writers| == |s.writers|
    decreases |acts|
  {
    if acts == [] then s else CrewRun(cfg, CrewAct(cfg, s, acts[0].0, acts[0].1), acts[1..])
  }

  function CrewStart(cfg: Config, size: nat, buf: seq<bv8>, n: nat): Crew
    requires size >= 2 && |buf| == cfg.blocksize
  {
    Crew(Start(cfg, size, buf).tx, seq(n, _ => Idle), [], [])
  }

  /** No writer picks a slot while another is between picking and committing one. */
  ghost predicate Serial(cfg: Config, s: Crew, acts: seq<(nat, Action)>)
    requires CrewOk(cfg, s) && InCrew(acts, |s.writers|)
    decreases |acts|
  {
    acts == [] ||
    ((acts[0].1.Begin? ==> forall i :: 0 <= i < |s.writers| ==> s.writers[i].Idle?) &&
     Serial(cfg, CrewAct(cfg, s, acts[0].0, acts[0].1), acts[1..]))
  }

  ghost predicate CrewInv(cfg: Config, s: Crew) {
    && |s.writers| > 0
    && (forall i :: 0 <= i < |s.writers| ==> Inv(cfg, Seen(s, i)))
    && (forall i, j :: 0 <= i < j < |s.writers| ==> s.writers[i].Idle? || s.writers[j].Idle?)
  }

  lemma {:induction false} CrewInvIsOk(cfg: Config, s: Crew)
    requires CrewInv(cfg, s)
    ensures CrewOk(cfg, s) && s.accepted == s.sent + Pending(s.tx)
  {
    hide Pending;
    assert Inv(cfg, Seen(s, 0));
    forall i | 0 <= i < |s.writers| ensures Placed(cfg, s.tx, s.writers[i]) {
      assert Inv(cfg, Seen(s, i));
    }
  }

  lemma {:induction false} CrewActKeepsInv(cfg: Config, s: Crew, w: nat, a: Action)
    requires CrewInv(cfg, s) && CrewOk(cfg, s) && w < |s.writers|
    requires a.Begin? ==> forall i :: 0 <= i < |s.writers| ==> s.writers[i].Idle?
    ensures CrewInv(cfg, CrewAct(cfg, s, w, a))
  {
    hide Drain, Pending, Ok;
    var r := CrewAct(cfg, s, w, a);
    ActKeepsInv(cfg, Seen(s, w), a);
    forall i | 0 <= i < |s.writers| ensures Inv(cfg, Seen(r, i)) {
      assert Inv(cfg, Seen(s, i));
      ActKeepsInv(cfg, Seen(s, i), a);
    }
  }

  /** Over every run of any number of writers and the interrupt in which one writer at a time
      is between picking a slot and committing it, nothing is lost, duplicated or reordered. */
  lemma {:induction false} SerialRunConserves(cfg: Config, s: Crew, acts: seq<(nat, Action)>)
    requires CrewInv(cfg, s) && CrewOk(cfg, s) && InCrew(acts, |s.writers|) && Serial(cfg, s, acts)
    ensures var r := CrewRun(cfg, s, acts); CrewInv(cfg, r) && r.accepted == r.sent + Pending(r.tx)
    decreases |acts|
  {
    hide CrewAct, CrewInv, CrewOk, Pending;
    if acts == [] {
      CrewInvIsOk(cfg, s);
    } else {
      CrewActKeepsInv(cfg, s, acts[0].0, acts[0].1);
      SerialRunConserves(cfg, CrewAct(cfg, s, acts[0].0, acts[0].1), acts[1..]);
    }
  }

  lemma {:induction false} CrewStartsWell(cfg: Config, size: nat, buf: seq<bv8>, n: nat)
    requires size >= 2 && |buf| == cfg.blocksize && n > 0
    ensures CrewInv(cfg, CrewStart(cfg, size, buf, n)) && CrewOk(cfg, CrewStart(cfg, size, buf, n))
  {
    StartIsOk(cfg, size, buf);
    hide Pending;
    assert forall i :: 0 <= i < n ==> Seen(CrewStart(cfg, size, buf, n), i) == Start(cfg, size, buf);
  }

  lemma {:induction false} CrewTurn(cfg: Config, s: Crew, acts: seq<(nat, Action)>, w: nat, a: Action,
      rest: seq<(nat, Action)>)
    requires CrewOk(cfg, s) && w < |s.writers| && InCrew(rest, |s.writers|) && acts == [(w, a)] + rest
    ensures InCrew(acts, |s.writers|)
    ensures CrewRun(cfg, s, acts) == CrewRun(cfg, CrewAct(cfg, s, w, a), rest)
  {
    hide CrewOk, CrewAct;
    assert acts[0] == (w, a) && acts[1..] == rest;
  }

  /** What writer `w` still does once it has picked a slot for one byte. */
  function RestOfCall(w: nat): seq<(nat, Action)> {
    [(w, CopyByte), (w, Seal), (w, Commit)]
  }

  lemma {:induction false} CallSteps(cfg: Config, s: Crew, w: nat)
    requires CrewOk(cfg, s) && w < |s.writers|
    ensures InCrew(RestOfCall(w), |s.writers|)
    ensures CrewRun(cfg, s, RestOfCall(w)) ==
      CrewAct(cfg, CrewAct(cfg, CrewAct(cfg, s, w, CopyByte), w, Seal), w, Commit)
  {
    hide CrewAct, CrewOk, CrewRun;
    var s1 := CrewAct(cfg, s, w, CopyByte);
    OneTurn(cfg, CrewAct(cfg, s1, w, Seal), w, Commit);
    CrewTurn(cfg, s1, [(w, Seal), (w, Commit)], w, Seal, [(w, Commit)]);
    CrewTurn(cfg, s, RestOfCall(w), w, CopyByte, [(w, Seal), (w, Commit)]);
  }

  lemma {:induction false} CallEnds(cfg: Config, s: Crew, w: nat, slot: nat, b: bv8)
    requires CrewOk(cfg, s) && w < |s.writers| && s.writers[w] == Copying(slot, [b], 0)
    ensures InCrew(RestOfCall(w), |s.writers|)
    ensures var t, r := s.tx, CrewRun(cfg, s, RestOfCall(w));
      && slot < t.ring.size && r.tx.ring == t.ring.(fill := slot).Filled()
      && |t.writen| == |t.writeidx| == t.ring.size
      && r.tx.writen == t.writen[slot := 1] && r.tx.writeidx == t.writeidx[slot := 0]
      && r.writers == s.writers[w := Idle] && |r.accepted| == |s.accepted| + 1 && r.sent == s.sent
  {
    CallSteps(cfg, s, w);
    hide CrewRun, InCrew, Finished;
    var s1 := CrewAct(cfg, s, w, CopyByte);
    assert s1.writers[w] == Copying(slot, [b], 1);
    var s2 := CrewAct(cfg, s1, w, Seal);
    assert s2.writers[w] == Ready(slot, [b]) && s2.tx.writen == s.tx.writen[slot := 1];
    var s3 := CrewAct(cfg, s2, w, Commit);
    assert s3.writers == s.writers[w := Idle];
  }

  lemma {:induction false} OneTurn(cfg: Config, s: Crew, w: nat, a: Action)
    requires CrewOk(cfg, s) && w < |s.writers|
    ensures InCrew([(w, a)], |s.writers|) && CrewRun(cfg, s, [(w, a)]) == CrewAct(cfg, s, w, a)
  {
    hide CrewOk, CrewAct;
    CrewTurn(cfg, s, [(w, a)], w, a, []);
  }

  /** Two writers pick a slot of an empty queue before either commits it, and finish one after
      the other: both bytes are accepted, and one of them is neither sent nor queued. */
  lemma {:induction false} TwoWritersLoseAByte(cfg: Config, size: nat, buf: seq<bv8>, a: bv8, b: bv8)
    requires size >= 2 && |buf| == cfg.blocksize > 0
    ensures var s := CrewStart(cfg, size, buf, 2);
      && CrewOk(cfg, s) && InCrew(RestOfCall(0), 2) && InCrew(RestOfCall(1), 2)
      && var picked := CrewAct(cfg, CrewAct(cfg, s, 0, Begin([a])), 1, Begin([b]));
      var r := CrewRun(cfg, CrewRun(cfg, picked, RestOfCall(0)), RestOfCall(1));
        |r.accepted| == 2 && |r.sent| == 0 && |Pending(r.tx)| == 1
  {
    CrewStartsWell(cfg, size, buf, 2);
    var s := CrewStart(cfg, size, buf, 2);
    BothPick(cfg, s, a, b);
    var picked := CrewAct(cfg, CrewAct(cfg, s, 0, Begin([a])), 1, Begin([b]));
    hide CrewStart, CrewRun, CrewAct, CrewOk, InCrew, Flat, Pending;
    BothFinish(cfg, picked, a, b);
  }

  lemma {:induction false} BothFinish(cfg: Config, s: Crew, a: bv8, b: bv8)
    requires CrewOk(cfg, s) && s.tx.ring == Cursors(s.tx.ring.size, 0, -1)
    requires s.writers == [Copying(0, [a], 0), Copying(0, [b], 0)]
    ensures InCrew(RestOfCall(0), 2) && InCrew(RestOfCall(1), 2)
    ensures var r := CrewRun(cfg, CrewRun(cfg, s, RestOfCall(0)), RestOfCall(1));
      |r.accepted| == |s.accepted| + 2 && r.sent == s.sent && |Pending(r.tx)| == 1
  {
    hide CrewRun, CrewAct, InCrew, Flat, Pending;
    CallEnds(cfg, s, 0, 0, a);
    var s1 := CrewRun(cfg, s, RestOfCall(0));
    CallEnds(cfg, s1, 1, 0, b);
    var r := CrewRun(cfg, s1, RestOfCall(1));
    NextSlot(0, s.tx.ring.size);
    OneQueued(cfg, r.tx);
  }

  lemma {:induction false} BothPick(cfg: Config, s: Crew, a: bv8, b: bv8)
    requires CrewOk(cfg, s) && s.writers == [Idle, Idle] && s.tx.ring.fill >= 0 && cfg.blocksize > 0
    ensures var picked := CrewAct(cfg, CrewAct(cfg, s, 0, Begin([a])), 1, Begin([b]));
      picked == s.(writers := [Copying(s.tx.ring.fill, [a], 0), Copying(s.tx.ring.fill, [b], 0)])
  {
  }

  lemma {:induction false} OneQueued(cfg: Config, t: Tx)
    requires Ok(cfg, t) && t.ring == Cursors(t.ring.size, 1, 0)
    ensures |Pending(t)| == t.writen[0] - t.writeidx[0]
  {
    FrontContents(t.ring, Lefts(t));
    assert Blocks(t) == [Left(t, 0)];
    assert Flat(Blocks(t)[1..]) == [];
  }

  // ---------- the channel in place ----------

  datatype WriteResult = Einval | Eagain | Wrote(amnt: nat)

  class TxChannel {
    const numbufs: nat
    const cfg: Config
    const idle: bv8
    var inwritebuf: int
    var outwritebuf: int
    const writebuf: array<seq<bv8>>
    const writen: array<nat>
    const writeidx: array<nat>
    var txdisable: bool

    ghost function State(): Tx
      reads this, writebuf, writen, writeidx
    {
      Tx(Cursors(numbufs, inwritebuf, outwritebuf), writebuf[..], writen[..], writeidx[..], txdisable)
    }

    ghost predicate Valid()
      reads this, writebuf, writen, writeidx
    {
      writen != writeidx && Ok(cfg, State()) && cfg.blocksize > 0
    }

    /** dahdi_reallocbufs: fresh buffers, nothing queued. */
    constructor (size: nat, cfg: Config, idle: bv8)
      requires size >= 2 && cfg.blocksize > 0
      ensures Valid() && fresh(writebuf) && fresh(writen) && fresh(writeidx)
      ensures State() == Start(cfg, size, seq(cfg.blocksize, i => 0)).tx && this.cfg == cfg && this.idle == idle
      ensures numbufs == size && Blocks(State()) == [] && inwritebuf == 0
      ensures txdisable <==> cfg.policy != Immediate
    {
      this.numbufs, this.cfg, this.idle := size, cfg, idle;
      inwritebuf, outwritebuf, txdisable := 0, -1, cfg.policy != Immediate;
      var empty: seq<bv8> := seq(cfg.blocksize, i => 0);
      writebuf := new seq<bv8>[size](i => empty);
      writen := new nat[size](i => 0);
      writeidx := new nat[size](i => 0);
    }

    /** num_filled_bufs: the number of queued blocks. */
    method NumFilledBufs() returns (n: int)
      requires Valid()
      ensures n == |Blocks(State())| && 0 <= n <= numbufs
    {
      SlotsAreDistinct(State().ring);
      if inwritebuf < 0 {
        return numbufs;
      }
      if outwritebuf < 0 {
        return 0;
      }
      if outwritebuf <= inwritebuf {
        return inwritebuf - outwritebuf;
      }
      var range1 := numbufs - outwritebuf;
      var range2 := inwritebuf;
      return range1 + range2;
    }

    /** One byte of the copy from user space, outside the lock. */
    method StoreByte(slot: nat, pos: nat, b: bv8)
      requires Valid() && slot < writebuf.Length && pos < cfg.blocksize
      modifies writebuf
      ensures Valid() && State() == Stored(old(State()), slot, pos, b)
    {
      writebuf[slot] := writebuf[slot][pos := b];
    }

    /** The end of the unlocked part of dahdi_chan_write: length, index and check. */
    method SealBlock(slot: nat, n: nat)
      requires Valid() && slot < writebuf.Length && n <= cfg.blocksize
      modifies writebuf, writen, writeidx
      ensures Valid() && State() == Sealed(cfg, old(State()), slot, n)
    {
      hide Fcs.Stamp;
      writen[slot] := n;
      writeidx[slot] := 0;
      if cfg.fcs {
        writebuf[slot] := Fcs.Stamp(writebuf[slot][..n]) + writebuf[slot][n..];
      } else {
        assert writebuf[slot] == writebuf[slot][..n] + writebuf[slot][n..];
      }
    }

    /** The locked end of dahdi_chan_write: hand the block to the interrupt side. */
    method CommitBlock(slot: nat)
      requires Valid() && slot == inwritebuf
      modifies this
      ensures State() == Committed(cfg, old(State()), slot)
      ensures Valid()
    {
      FilledAppends(State().ring);
      inwritebuf := (slot + 1) % numbufs;
      if inwritebuf == outwritebuf {
        inwritebuf := -1;
        txdisable := false;
      }
      if outwritebuf < 0 {
        outwritebuf := slot;
      }
      assert State().ring == old(State()).ring.Filled();
      if cfg.policy == HalfFull && txdisable {
        var n := NumFilledBufs();
        if n >= numbufs / 2 {
          txdisable := false;
        }
      }
    }

    /** The unlocked part of dahdi_chan_write: the chosen slot receives the block. */
    method FillBlock(slot: nat, n: nat, usr: seq<bv8>, linear: bool, encode: (bv8, bv8) -> bv8)
      requires Valid() && slot < numbufs && n == |BlockOf(cfg, usr, linear, encode)|
      modifies writebuf, writen, writeidx
      ensures Valid()
      ensures var t, u, block := old(State()), State(), BlockOf(cfg, usr, linear, encode);
        && u.ring == t.ring && u.disabled == t.disabled
        && u.bufs[slot][..n] == Finished(cfg, block) && u.writen[slot] == n && u.writeidx[slot] == 0
        && Carries(cfg, usr, linear, encode, u.bufs[slot][..n])
        && forall x :: 0 <= x < numbufs && x != slot ==>
             u.bufs[x] == t.bufs[x] && u.writen[x] == t.writen[x] && u.writeidx[x] == t.writeidx[x]
    {
      BlockIs(cfg, usr, linear, encode);
      hide Fcs.Stamp, Fcs.Check, Carries, BlockOf, Finished, Min;
      ghost var t := State();
      ghost var block := BlockOf(cfg, usr, linear, encode);
      for x := 0 to n
        invariant Valid() && writen[..] == t.writen && writeidx[..] == t.writeidx
        invariant forall y :: 0 <= y < numbufs && y != slot ==> writebuf[y] == t.bufs[y]
        invariant writebuf[slot][..x] == block[..x]
      {
        ghost var before := writebuf[slot];
        var b := if linear then encode(usr[2 * x], usr[2 * x + 1]) else usr[x];
        StoreByte(slot, x, b);
        OneMoreByte(before, writebuf[slot], block, x);
      }
      assert writebuf[slot][..n] == block;
      SealBlock(slot, n);
      WrittenIs(cfg, usr, linear, encode);
    }

    /** dahdi_chan_write on a non-blocking file, with no interrupt in between. */
    method ChanWrite(usr: seq<bv8>, linear: bool, encode: (bv8, bv8) -> bv8) returns (r: WriteResult)
      requires Valid()
      modifies this, writebuf, writen, writeidx
      ensures Valid()
      ensures r.Einval? <==> |usr| % 0x1_0000 < 1
      ensures r.Eagain? <==> |usr| % 0x1_0000 >= 1 && old(inwritebuf) < 0
      ensures !r.Wrote? ==> State() == old(State())
      ensures r.Wrote? ==>
        && r.amnt == Min(|usr| % 0x1_0000, if linear then 2 * cfg.blocksize else cfg.blocksize)
        && Blocks(State()) == old(Blocks(State())) + [Finished(cfg, BlockOf(cfg, usr, linear, encode))]
      ensures r.Wrote? ==>
        var n := |old(Blocks(State()))|;
        && |Blocks(State())| == n + 1 && Blocks(State())[..n] == old(Blocks(State()))
        && Carries(cfg, usr, linear, encode, Blocks(State())[n])
        && (txdisable <==> old(txdisable) && n + 1 < numbufs && (cfg.policy == HalfFull ==> n + 1 < numbufs / 2))
        && (inwritebuf < 0 <==> n + 1 == numbufs)
    {
      hide Finished, Carries, Blocks, Fcs.Stamp;
      var count := |usr| % 0x1_0000;
      if count < 1 {
        return Einval;
      }
      var res := inwritebuf;
      if res < 0 {
        return Eagain;
      }
      var amnt := Min(count, if linear then 2 * cfg.blocksize else cfg.blocksize);
      ghost var t := State();
      WrittenIs(cfg, usr, linear, encode);
      FillBlock(res, if linear then amnt / 2 else amnt, usr, linear, encode);
      FillSlotIsPrivate(cfg, t, State());
      CommittedAppends(cfg, State());
      StartsByPolicy(cfg, State());
      CommitBlock(res);
      SlotsAreDistinct(State().ring);
      assert Blocks(State())[|Blocks(t)|] == Finished(cfg, BlockOf(cfg, usr, linear, encode));
      r := Wrote(amnt);
    }

    /** The front block is used up: clear it, move to the next one, wake the writer. */
    method Advance()
      requires Valid() && outwritebuf >= 0
      modifies this, writen, writeidx
      ensures State() == Advanced(cfg, old(State()))
      ensures Valid()
    {
      DrainedRemoves(State().ring);
      var oldbuf := outwritebuf;
      writeidx[oldbuf] := 0;
      outwritebuf := (outwritebuf + 1) % numbufs;
      writen[oldbuf] := 0;
      if outwritebuf == inwritebuf {
        outwritebuf := -1;
        if cfg.policy == WhenFull || cfg.policy == HalfFull {
          txdisable := true;
        }
      }
      if inwritebuf < 0 {
        inwritebuf := oldbuf;
      }
    }

    /** Up to `bytes` bytes of the front block go on the line. */
    method TakeFront(bytes: nat) returns (data: seq<bv8>)
      requires Valid() && Sending(State())
      modifies this, writen, writeidx
      ensures |data| == FrontLeft(old(State()), bytes) && State() == Taken(cfg, old(State()), |data|)
      ensures data == old(Front(State(), bytes))
      ensures Valid()
    {
      hide Advanced;
      ghost var t := State();
      var o := outwritebuf;
      var left := writen[o] - writeidx[o];
      if left > bytes {
        left := bytes;
      }
      data := writebuf[o][writeidx[o]..writeidx[o] + left];
      writeidx[o] := writeidx[o] + left;
      assert State() == t.(writeidx := t.writeidx[o := t.writeidx[o] + left]);
      if writeidx[o] >= writen[o] {
        Advance();
      }
    }

    /** __dahdi_getbuf_chunk on a channel with no tone, loop or HDLC: queued bytes, then idle. */
    method GetBufChunk(chunksize: nat) returns (txb: seq<bv8>, ghost data: seq<bv8>)
      requires Valid()
      modifies this, writen, writeidx
      ensures (State(), data) == Drain(cfg, old(State()), chunksize)
      ensures old(Pending(State())) == data + Pending(State())
      ensures old(txdisable) ==> data == []
      ensures !old(txdisable) ==> |data| == Min(|old(Pending(State()))|, chunksize)
      ensures old(txdisable) || (cfg.policy != Immediate && old(Blocks(State())) != [] && Blocks(State()) == [])
        <==> txdisable
      ensures txb == data + seq(chunksize - |data|, i => idle)
      ensures Valid()
    {
      hide Drain, Taken, Pending, Blocks;
      var bytes: nat := chunksize;
      txb := [];
      assert Drain(cfg, State(), bytes).1 == [] + Drain(cfg, State(), bytes).1;
      while bytes > 0 && outwritebuf > -1 && !txdisable
        invariant Valid()
        invariant |txb| + bytes == chunksize
        invariant Drain(cfg, old(State()), chunksize) ==
          (Drain(cfg, State(), bytes).0, txb + Drain(cfg, State(), bytes).1)
        decreases bytes, State().ring.Count()
      {
        ghost var t := State();
        ghost var left := FrontLeft(t, bytes);
        DrainTurn(cfg, t, bytes, left, Taken(cfg, t, left));
        var front := TakeFront(bytes);
        ghost var rest := Drain(cfg, State(), bytes - |front|).1;
        assert txb + (front + rest) == (txb + front) + rest;
        txb := txb + front;
        bytes := bytes - |front|;
      }
      ghost var t := State();
      DrainTurn(cfg, t, bytes, 0, t);
      assert txb + [] == txb;
      data := txb;
      txb := txb + seq(bytes, i => idle);
      DrainIsQueue(cfg, old(State()), chunksize);
      StopsByPolicy(cfg, old(State()), chunksize);
    }
  }
}
