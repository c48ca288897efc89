/** The board's block in its place: the wrapper's reset and output window and the design's decoder in
    front of it (examples/tinyriscv/fpga/fi_dut_core.vh), the FIFO and the transmitter behind it. */
module Line {
  import opened Slip
  import opened Board
  import Order

  /** One edge: the design's reset (active low), the stopped flag, the decoder's done flag with its data,
      a memory's abort. */
  datatype Pin = Pin(rst: bool, stopped: bool, done: bool, data: nat, abort: bool)

  /** The board's copy of the reset and the two flops behind the decoder's done flag. */
  datatype Front = Front(rstQ: bool, d1: bool, d2: bool)

  /** The decoder's byte pulse, inside the trial's output window; the flops are cleared by the reset. */
  function Observed(f: Front, p: Pin): Byte {
    if p.rst && !p.stopped && f.d1 && !f.d2 then Byte(p.data) else NoByte
  }

  function InOf(f: Front, p: Pin, full: bool): In { In(full, p.rst && !f.rstQ, Observed(f, p), p.abort) }

  function FrontStep(f: Front, p: Pin): Front { Front(p.rst, p.rst && p.done, p.rst && f.d1) }

  predicate PinOk(p: Pin) { p.data < 0x100 }

  /** The whole block: front flops, sequencer, what has left the FIFO, and the edges the transmitter still
      needs for its frame. */
  datatype State = State(f: Front, log: Log, out: nat, busy: nat)

  const POWERED := State(Front(false, false, false), Log(POWER_ON, [], []), 0, 0)

  /** Pushed and not handed out; the byte in the push register is not in the FIFO yet. */
  function Stored(l: State): int { |l.log.sent| - (if l.log.s.push then 1 else 0) - l.out }

  predicate Full(l: State, depth: nat) { Stored(l) >= depth - 2 }

  predicate Takes(l: State) { l.busy == 0 && Stored(l) > 0 }

  function Tick(l: State, p: Pin, depth: nat, frame: nat): State
    requires Valid(l.log.s)
  {
    State(FrontStep(l.f, p), Watch(l.log, InOf(l.f, p, Full(l, depth))),
          if Takes(l) then l.out + 1 else l.out,
          if Takes(l) then frame else if l.busy > 0 then l.busy - 1 else 0)
  }

  ghost predicate AllOk(ps: seq<Pin>) { forall k :: 0 <= k < |ps| ==> PinOk(ps[k]) }

  /** A run, and what it looks like on the block's ports. */
  ghost function Run(ps: seq<Pin>, depth: nat, frame: nat): (l: State)
    requires AllOk(ps)
    ensures Faithful(l.log)
  {
    if ps == [] then POWERED
    else
      var l, p := Run(ps[..|ps| - 1], depth, frame), ps[|ps| - 1];
      WatchKeeps(l.log, InOf(l.f, p, Full(l, depth)));
      Tick(l, p, depth, frame)
  }

  ghost function Ports(ps: seq<Pin>, depth: nat, frame: nat): (ins: seq<In>)
    requires AllOk(ps)
    ensures |ins| == |ps| && Bytes(ins)
  {
    if ps == [] then []
    else
      var l := Run(ps[..|ps| - 1], depth, frame);
      Ports(ps[..|ps| - 1], depth, frame) + [InOf(l.f, ps[|ps| - 1], Full(l, depth))]
  }

  lemma {:induction false} PortsRun(ps: seq<Pin>, depth: nat, frame: nat)
    requires AllOk(ps)
    ensures Run(ps, depth, frame).log == Board.Run(Ports(ps, depth, frame))
  {
    if ps != [] {
      var ins := Ports(ps, depth, frame);
      PortsRun(ps[..|ps| - 1], depth, frame);
      assert ins[..|ins| - 1] == Ports(ps[..|ps| - 1], depth, frame);
    }
  }

  // ---- what never reaches the block ------------------------------------------------------------------

  /** The front flops remember the last edge's reset. */
  lemma FrontRemembers(ps: seq<Pin>, depth: nat, frame: nat)
    requires AllOk(ps)
    ensures var f := Run(ps, depth, frame).f;
            if ps == [] then f == POWERED.f else f.rstQ == ps[|ps| - 1].rst && (f.d1 ==> f.rstQ) && (f.d2 ==> f.rstQ)
  {
  }

  /** The done flag went up between these edges, the design running on the second. */
  predicate Rose(p: Pin, q: Pin) { !(p.rst && p.done) && q.rst && q.done }

  /** What reaches the block, from the pins: a trial start is a rise of the reset line; a byte is a rise of
      the decoder's done flag on the edge before, if the design is not in reset on this edge and its trial
      has not been stopped; at power-on the pins before the first edge count as a reset. */
  lemma {:induction false} PortsArePins(ps: seq<Pin>, depth: nat, frame: nat)
    requires AllOk(ps) && ps != []
    ensures var ins, n := Ports(ps, depth, frame), |ps| - 1;
            var p, q := if n >= 1 then ps[n - 1] else RESET, if n >= 2 then ps[n - 2] else RESET;
            && ins[n].start == (ps[n].rst && !p.rst) && ins[n].abort == ps[n].abort
            && ins[n].obs == if Rose(q, p) && ps[n].rst && !ps[n].stopped then Byte(ps[n].data) else NoByte
  {
    FrontIs(ps[..|ps| - 1], depth, frame);
  }

  const RESET := Pin(false, false, false, 0, false)

  lemma FrontIs(ps: seq<Pin>, depth: nat, frame: nat)
    requires AllOk(ps)
    ensures var f, n := Run(ps, depth, frame).f, |ps|;
            var p, q := if n >= 1 then ps[n - 1] else RESET, if n >= 2 then ps[n - 2] else RESET;
            f.rstQ == p.rst && f.d1 == (p.rst && p.done) && f.d2 == (p.rst && q.rst && q.done)
  {
    if |ps| >= 2 { assert ps[..|ps| - 1][..|ps| - 2] == ps[..|ps| - 2]; }
  }

  /** Whatever the wrapper and the decoder do: no byte on a trial start, and neither a byte nor a start
      on the edge before it. */
  lemma {:induction false} PinsAreGapped(ps: seq<Pin>, depth: nat, frame: nat)
    requires AllOk(ps)
    ensures Order.Gapped(Ports(ps, depth, frame))
  {
    if ps != [] {
      var pre, ins := ps[..|ps| - 1], Ports(ps, depth, frame);
      PinsAreGapped(pre, depth, frame);
      FrontRemembers(pre, depth, frame);
      assert ins[..|ins| - 1] == Ports(pre, depth, frame);
      forall k | 0 <= k < |ins| && ins[k].start
        ensures ins[k].obs.NoByte? && (k > 0 ==> ins[k - 1].obs.NoByte? && !ins[k - 1].start)
      {
        if k < |pre| {
          assert Ports(pre, depth, frame)[k].start;
        } else if pre != [] {
          assert ins[k - 1] == Ports(pre, depth, frame)[k - 1];
        }
      }
    }
  }

  /** And no byte before the first trial start. */
  lemma {:induction false} PinsAreHeaded(ps: seq<Pin>, depth: nat, frame: nat)
    requires AllOk(ps)
    ensures var t, f := History(Ports(ps, depth, frame)), Run(ps, depth, frame).f;
            Order.Headed(t.events) && (f.rstQ ==> t.events != [])
  {
    if ps != [] {
      var ins := Ports(ps, depth, frame);
      PinsAreHeaded(ps[..|ps| - 1], depth, frame);
      FrontRemembers(ps[..|ps| - 1], depth, frame);
      assert ins[..|ins| - 1] == Ports(ps[..|ps| - 1], depth, frame);
    }
  }

  /** Every run of the board, from power-on: every loss is flagged in the next record, all records have
      the true numbers and cycles, and the host reads exactly what happened if and only if no event on
      the ports comes before the one in front of it has left. */
  lemma {:induction false} BoardReadsIff(ps: seq<Pin>, depth: nat, frame: nat)
    requires AllOk(ps)
    ensures var ins, l := Ports(ps, depth, frame), Run(ps, depth, frame);
            && l.log == Board.Run(ins) && l.log.s.fLost == History(ins).missed
            && Order.Records(l.log.items) == Order.Taken(ins)
            && (Order.ReadsTruly(ins) <==> Order.Smooth(ins))
  {
    PortsRun(ps, depth, frame);
    PinsAreGapped(ps, depth, frame);
    PinsAreHeaded(ps, depth, frame);
    Order.EveryLossIsFlagged(Ports(ps, depth, frame));
    Order.HostReadsIff(Ports(ps, depth, frame));
  }

  /** With room in the FIFO at the trial starts and nothing refused, the host reads exactly what happened. */
  lemma {:induction false} BoardReads(ps: seq<Pin>, depth: nat, frame: nat)
    requires AllOk(ps)
    requires var ins := Ports(ps, depth, frame);
             || (Order.RoomAtStarts(ins) && Order.NeverRefuses(ins))
             || (Order.NeverFull(ins) && Order.Spaced(ins))
    ensures Order.ReadsTruly(Ports(ps, depth, frame))
  {
    var ins := Ports(ps, depth, frame);
    PinsAreGapped(ps, depth, frame);
    PinsAreHeaded(ps, depth, frame);
    if Order.RoomAtStarts(ins) && Order.NeverRefuses(ins) {
      Order.RoomKeepsOrder(ins);
      Order.CalmIff(ins);
      Order.HostReadsIff(ins);
    } else {
      Order.SpacedIsRead(ins);
    }
  }
}
