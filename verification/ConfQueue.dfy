/** The small chunk queues between a span's interrupt and the conference tick. */
module ConfQueue {
  import opened Ring

  class Queue {
    const size: nat
    const buf: array<seq<bv8>>
    var inbuf: int
    var outbuf: int

    ghost function Cursor(): Cursors
      reads this
    {
      Cursors(size, inbuf, outbuf)
    }

    ghost predicate Valid()
      reads this
    {
      buf.Length == size && Cursor().Valid()
    }

    /** The queued chunks, oldest first. */
    ghost function Items(): (s: seq<seq<bv8>>)
      requires Valid()
      reads this, buf
      ensures 0 <= |s| <= size
    {
      SlotsAreDistinct(Cursor());
      Contents(Cursor(), buf[..])
    }

    /** reset_conf: an empty queue. */
    constructor (size: nat)
      requires size >= 2
      ensures Valid() && fresh(buf) && Items() == [] && this.size == size
    {
      this.size := size;
      inbuf, outbuf := 0, -1;
      buf := new seq<bv8>[size](i => []);
    }

    /** __buf_push with data: a bounded queue that uses every one of its slots. */
    method Push(data: seq<bv8>) returns (res: int)
      requires Valid()
      modifies this, buf
      ensures Valid()
      ensures res == -1 <==> |old(Items())| == size
      ensures res == -1 || res == 0
      ensures Items() == if res == -1 then old(Items()) else old(Items()) + [data]
    {
      SlotsAreDistinct(Cursor());
      ghost var r, was := Cursor(), buf[..];
      var oldinbuf := inbuf;
      if inbuf < 0 {
        return -1;
      }
      buf[inbuf] := data;
      OutsideIsFree(r, was, buf[..]);
      ContentsFilled(r, buf[..]);
      inbuf := (inbuf + 1) % size;
      if inbuf == outbuf {
        inbuf := -1;
      }
      if outbuf < 0 {
        outbuf := oldinbuf;
      }
      assert Cursor() == r.Filled();
      return 0;
    }

    /** __buf_pull: the oldest chunk, or `silence` and -1 when there is none. */
    method Pull(silence: seq<bv8>) returns (res: int, data: seq<bv8>)
      requires Valid()
      modifies this
      ensures Valid()
      ensures res == -1 <==> old(Items()) == []
      ensures res == -1 ==> data == silence && Items() == []
      ensures res != -1 ==> res == 0 && old(Items()) == [data] + Items()
    {
      SlotsAreDistinct(Cursor());
      ghost var r := Cursor();
      var oldoutbuf := outbuf;
      if outbuf < 0 {
        return -1, silence;
      }
      data := buf[outbuf];
      ContentsDrained(r, buf[..], buf[..]);
      outbuf := (outbuf + 1) % size;
      if outbuf == inbuf {
        outbuf := -1;
      }
      if inbuf < 0 {
        inbuf := oldoutbuf;
      }
      assert Cursor() == r.Drained();
      res := 0;
    }
  }
}
