/** The freeze gate (syn/fi_clk_gate.v), the wrapper's copy of it (run_o of
    rtl/fi_wrapper_top.v), and the edge account of the scan controller. */
module Freeze {
  import opened ScanCtrl

  /** The gate's latch: it follows the inverted freeze term while the clock is low and holds
      while it is high. */
  function Latch(q: bool, clk: bool, freeze: bool): bool { if clk then q else !freeze }

  /** The latch after a phase of the clock in which the freeze term takes these values. */
  function Settled(q: bool, clk: bool, freeze: seq<bool>): bool {
    if freeze == [] then q else Latch(Settled(q, clk, freeze[..|freeze| - 1]), clk, freeze[|freeze| - 1])
  }

  predicate ClkOut(clk: bool, q: bool) { clk && q }

  /** Every pulse has full width: through the high phase the output stays at the inverse of the
      freeze term that the low phase ended with, whatever the term does meanwhile; through the
      low phase it is low. */
  lemma {:induction false} FullPulses(q: bool, low: seq<bool>, high: seq<bool>)
    requires low != []
    ensures ClkOut(true, Settled(Settled(q, false, low), true, high)) == !low[|low| - 1]
    ensures !ClkOut(false, Settled(q, false, low))
    decreases |high|
  {
    if high != [] { FullPulses(q, low, high[..|high| - 1]); }
  }

  /** freeze = gate_q & clk_gate: it engages on the registered request and releases on the raw one. */
  predicate Frozen(s: Scan, gateQ: bool) { gateQ && s.clkGate }

  /** The gate lets an edge through: run_o. */
  predicate RunEdge(s: Scan, gateQ: bool) { !Frozen(s, gateQ) }

  /** A full functional edge of the design: nothing shifts, nothing is frozen, no test mode. */
  predicate Functional(s: Scan, gateQ: bool) { !s.scanEn && RunEdge(s, gateQ) && !TestMode(s) }

  /** A pure shift edge: the chain shifts, everything else is frozen, test mode is up. */
  predicate PureShift(s: Scan, gateQ: bool) { s.scanEn && Frozen(s, gateQ) && TestMode(s) }

  /** The scan controller's outputs and the gate's synchroniser flop, in step. */
  predicate InStep(s: Scan, gateQ: bool) {
    && s.scanEn == s.run && s.clkGate == (s.run || s.lead) && !(s.run && s.lead)
    && s.tm == s.run && s.tmHalf == (s.run && !s.scrub)
    && (s.lead ==> !gateQ) && (s.run ==> gateQ)
  }

  /** Whatever the inputs do. */
  lemma InStepStep(s: Scan, gateQ: bool, i: ScanIn, scrubLen: int)
    requires InStep(s, gateQ)
    ensures InStep(Step(s, i, scrubLen), s.clkGate)
  {
  }

  datatype Edges = Edges(s: Scan, gateQ: bool, shifts: nat, frozen: nat, split: nat)

  /** The gate's flop is cleared on edge n: the design's reset is up before it or after it. */
  predicate Cleared(rst: seq<bool>, n: nat)
    requires n < |rst|
  {
    rst[n] || (n > 0 && rst[n - 1])
  }

  /** The chain shifts on an edge that the frozen part is not kept from. */
  predicate Split(s: Scan, gateQ: bool) { s.run && !gateQ }

  /** A run of the controller and the gate, counting the edges the chain shifts on, the edges the gate
      takes away and the split ones. The gate's flop is cleared with the design's reset (`rst`). */
  function Run(ins: seq<ScanIn>, rst: seq<bool>, scrubLen: int): Edges
    requires |rst| == |ins|
  {
    if ins == [] then Edges(POWER_ON, false, 0, 0, 0) else
      var n := |ins| - 1;
      var e := Run(ins[..n], rst[..n], scrubLen);
      Edges(Step(e.s, ins[n], scrubLen), e.s.clkGate && !Cleared(rst, n),
            e.shifts + (if e.s.scanEn then 1 else 0),
            e.frozen + (if Frozen(e.s, e.gateQ) then 1 else 0),
            e.split + if Split(e.s, e.gateQ) then 1 else 0)
  }

  /** All but the frozen part's share of a pass that meets a reset. */
  predicate Wired(s: Scan, gateQ: bool) {
    && s.scanEn == s.run && s.clkGate == (s.run || s.lead) && !(s.run && s.lead)
    && s.tm == s.run && s.tmHalf == (s.run && !s.scrub) && (s.lead ==> !gateQ)
  }

  lemma WiredStep(s: Scan, gateQ: bool, i: ScanIn, scrubLen: int, cleared: bool)
    requires Wired(s, gateQ)
    ensures var n, q := Step(s, i, scrubLen), s.clkGate && !cleared;
            Wired(n, q) && (n.run ==> (q <==> !cleared))
  {
  }

  lemma OneOrTheOther(s: Scan, gateQ: bool)
    requires Wired(s, gateQ)
    ensures (Functional(s, gateQ) || PureShift(s, gateQ)) <==> !Split(s, gateQ)
    ensures !(Functional(s, gateQ) && PureShift(s, gateQ))
    ensures PureShift(s, gateQ) <==> s.run && !Split(s, gateQ)
  {
  }

  /** In every run, whenever the design is reset: an edge is either a full functional edge or a pure
      shift edge, except exactly when a pass is under way and the reset cleared the gate on the edge
      before; and the frozen part has lost exactly the other edges the chain has shifted on. */
  lemma {:induction false} EveryEdgeIsOneOrTheOther(ins: seq<ScanIn>, rst: seq<bool>, scrubLen: int)
    requires |rst| == |ins|
    ensures var e, n := Run(ins, rst, scrubLen), |ins|;
            && Wired(e.s, e.gateQ) && e.frozen + e.split == e.shifts
            && (Functional(e.s, e.gateQ) || PureShift(e.s, e.gateQ) <==> !(e.s.run && Cleared(rst, n - 1)))
            && !(Functional(e.s, e.gateQ) && PureShift(e.s, e.gateQ))
  {
    if ins != [] {
      var n := |ins| - 1;
      var a, b := ins[..n], rst[..n];
      EveryEdgeIsOneOrTheOther(a, b, scrubLen);
      var e := Run(a, b, scrubLen);
      WiredStep(e.s, e.gateQ, ins[n], scrubLen, Cleared(rst, n));
    }
    OneOrTheOther(Run(ins, rst, scrubLen).s, Run(ins, rst, scrubLen).gateQ);
  }
}
