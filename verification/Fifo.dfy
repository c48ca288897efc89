/** The board's FIFO (fpga/rtl/fi_board_uart.v) and the whole path from the decoder's flops to the
    bytes handed to the transmitter. */
module Fifo {
  import opened Arith
  import opened Slip
  import Board
  import Line

  /** Pointers one bit wider than the address, so that a full and an empty FIFO differ. */
  class Queue {
    const depth: nat
    const mem: array<nat>
    var wp: nat
    var rdp: nat
    ghost var pushed: seq<nat>
    ghost var popped: seq<nat>

    ghost predicate Valid()
      reads this, mem
    {
      && depth >= 1 && mem.Length == depth
      && |popped| <= |pushed| <= |popped| + depth
      && wp == |pushed| % (2 * depth) && rdp == |popped| % (2 * depth)
      && popped == pushed[..|popped|]
      && forall k :: |popped| <= k < |pushed| ==> mem[k % depth] == pushed[k]
    }

    /** Pushed and not yet popped. */
    ghost function Contents(): seq<nat>
      requires Valid()
      reads this, mem
    {
      pushed[|popped|..]
    }

    constructor (depth: nat)
      requires depth >= 1
      ensures Valid() && pushed == [] && popped == [] && this.depth == depth && fresh(mem)
    {
      this.depth := depth;
      mem := new nat[depth](_ => 0);
      wp, rdp, pushed, popped := 0, 0, [], [];
    }

    /** The occupancy, computed in the pointers' width. */
    function Used(): nat
      requires rdp < 2 * depth
      reads this
    {
      if wp >= rdp then wp - rdp else wp + 2 * depth - rdp
    }

    lemma UsedIsContents()
      requires Valid()
      ensures rdp < 2 * depth && Used() == |pushed| - |popped|
    {
      ModDiff(|pushed|, |popped|, 2 * depth);
    }

    method Push(x: nat)
      requires Valid() && |pushed| - |popped| < depth
      modifies this`wp, this`pushed, mem
      ensures Valid() && pushed == old(pushed) + [x] && popped == old(popped)
    {
      ModTwice(|pushed|, depth);
      ModSucc(|pushed|, 2 * depth);
      forall k | |popped| <= k < |pushed| ensures k % depth != |pushed| % depth {
        ModApart(k, |pushed|, depth);
      }
      mem[wp % depth] := x;
      wp := if wp + 1 == 2 * depth then 0 else wp + 1;
      pushed := pushed + [x];
    }

    method Pop() returns (x: nat)
      requires Valid() && wp != rdp
      modifies this`rdp, this`popped
      ensures Valid() && pushed == old(pushed) && |old(popped)| < |pushed|
      ensures x == pushed[|old(popped)|] && popped == old(popped) + [x]
    {
      ModTwice(|popped|, depth);
      ModSucc(|popped|, 2 * depth);
      x := mem[rdp % depth];
      rdp := if rdp + 1 == 2 * depth then 0 else rdp + 1;
      popped := popped + [x];
    }
  }

  /** The block with everything around it; `frame` is what the transmitter needs for a byte, ten bits
      of OUT_DIV edges each. */
  class Unit {
    const fifo: Queue
    const frame: nat
    var s: Board.Seq
    var f: Line.Front
    var busy: nat
    ghost var log: Board.Log

    ghost predicate Valid()
      reads this, fifo, fifo.mem
    {
      && fifo.Valid() && fifo.depth >= 3
      && Board.Faithful(log) && log.s == s
      && log.sent == fifo.pushed + (if s.push then [s.pushD] else [])
      && |fifo.pushed| - |fifo.popped| + (if s.push then 1 else 0) <= fifo.depth - 1
    }

    ghost function State(): Line.State
      reads this, fifo
    {
      Line.State(f, log, |fifo.popped|, busy)
    }

    constructor (depth: nat, frame: nat)
      requires depth >= 3
      ensures Valid() && State() == Line.POWERED && fresh(fifo) && fresh(fifo.mem)
      ensures fifo.popped == [] && fifo.depth == depth && this.frame == frame
    {
      this.frame := frame;
      fifo := new Queue(depth);
      s := Board.POWER_ON;
      f := Line.Front(false, false, false);
      busy := 0;
      log := Board.Log(Board.POWER_ON, [], []);
    }

    method Clock(i: Board.In) returns (n: Board.Seq)
      requires Board.Valid(s)
      ensures n == Board.Step(s, i)
    {
      var dbuf, dbufV, lost := Board.Buffer(s, i);
      var trial, cyc, fAbort, fLost, rec := Board.Boundary(s, i, lost);
      var recGo, rp, esc, escB, push, pushD := Board.Sequence(s, i);
      n := Board.Seq(trial, cyc, fAbort, fLost, recGo, rec, rp, esc, escB, dbuf, dbufV, push, pushD);
    }

    /** The FIFO's edge: the read and the write use the pointers from before it. */
    method MoveFifo(pop: bool) returns (out: Board.Byte)
      requires Valid()
      modifies fifo, fifo.mem
      ensures fifo.Valid() && fifo.pushed == old(fifo.pushed) + (if s.push then [s.pushD] else [])
      ensures fifo.popped == old(fifo.popped) + match out case NoByte => [] case Byte(x) => [x]
      ensures out.NoByte? <==> !pop || old(fifo.popped) == old(fifo.pushed)
    {
      fifo.UsedIsContents();
      out := Board.NoByte;
      if pop && fifo.wp != fifo.rdp {
        var x := fifo.Pop();
        out := Board.Byte(x);
      }
      if s.push { fifo.Push(s.pushD); }
    }

    /** The sequencer's edge; it pushes only while the FIFO has room. */
    method MoveSequencer(i: Board.In)
      requires Board.Faithful(log) && log.s == s && Board.ByteOk(i)
      modifies this`s, this`log
      ensures Board.Faithful(log) && log.s == s && log == Board.Watch(old(log), i)
      ensures log.sent == old(log.sent) + (if s.push then [s.pushD] else []) && (s.push ==> !i.full)
    {
      s := Clock(i);
      Board.WatchKeeps(log, i);
      log := Board.Watch(log, i);
    }

    /** One clock edge. No unread byte is ever overwritten, and the transmitter gets the bytes of
        the stream in order. */
    method Tick(p: Line.Pin) returns (out: Board.Byte)
      requires Valid() && Line.PinOk(p)
      modifies this, fifo, fifo.mem
      ensures Valid() && State() == Line.Tick(old(State()), p, fifo.depth, frame)
      ensures fifo.popped == old(fifo.popped) + match out case NoByte => [] case Byte(x) => [x]
    {
      fifo.UsedIsContents();
      var i := Line.InOf(f, p, fifo.Used() >= fifo.depth - 2);
      out := MoveFifo(busy == 0);
      MoveSequencer(i);
      busy := if out.Byte? then frame else if busy > 0 then busy - 1 else 0;
      f := Line.FrontStep(f, p);
    }

    /** What the transmitter has been given is always the beginning of the encoded items; when the
        FIFO and the sequencer have drained, it is all of it. */
    lemma HandsOverTheStream()
      requires Valid()
      ensures fifo.popped <= WireAll(log.items)
      ensures fifo.Contents() == [] && !s.push && Board.Pending(s) == [] ==>
                FeedAll(EMPTY, fifo.popped) == Reading(Runs(log.items), false, NoRec)
    {
      assert log.sent + Board.Pending(s) == WireAll(log.items);
      DecodesTheWire(log.items);
      if fifo.Contents() == [] && !s.push && Board.Pending(s) == [] {
        assert fifo.popped == fifo.pushed == WireAll(log.items);
      }
    }
  }
}
