/** The FI Scan Controller (rtl/fi_scan_ctrl.v), in the shipped configuration
    TM_LEAD = TM_TAIL_CYCLES = 0: one pass of L shifts that inverts the armed
    targets, or one scrub that shifts zeros.

    `Step` gives every register after one clock cycle: the rising edge, and the
    falling edge that follows it, which only `tmHalf` sees. */
module ScanCtrl {

  datatype Scan = Scan(
    startD: bool, run: bool, scrub: bool, cnt: nat, end: nat,
    scanEn: bool, clkGate: bool, done: bool, scrubDone: bool,
    tm: bool, tmHalf: bool, lead: bool,
    stepQ: nat, vldQ: bool, stepNx: nat, vldNx: bool, errOrder: bool)

  datatype ScanIn = ScanIn(
    start: bool, len: nat, index: nat, valid: bool, ready: bool,
    scrubReq: bool, scanOut: bool)

  const POWER_ON := Scan(false, false, false, 0, 0, false, false, false, false,
                        false, false, false, 0, false, 0, false, false)

  /** FI_Index to shift step; an index past the chain maps to step L, never reached. */
  function HitStep(index: nat, len: nat): nat {
    if index >= len then len else len - 1 - index
  }

  /** Shifts of a scrub: min(SCRUB_LEN, L), all of L for a negative SCRUB_LEN. */
  function ScrubShifts(scrubLen: int, len: nat): nat {
    if scrubLen < 0 || len < scrubLen then len else scrubLen
  }

  predicate Hit(s: Scan) { s.run && s.vldQ && s.cnt == s.stepQ }

  predicate Stale(s: Scan) { s.run && s.vldQ && s.cnt > s.stepQ }

  predicate Null(s: Scan) { s.run && s.vldQ && s.stepQ > s.end }

  predicate Advance(s: Scan) { Hit(s) || Stale(s) || Null(s) }

  predicate Busy(s: Scan) { s.run || s.lead }

  predicate Arm0(s: Scan, i: ScanIn) {
    i.start && !s.startD && i.len != 0 && !Busy(s) && i.ready
  }

  predicate Arm1(s: Scan) { s.lead && !s.run && !s.scrub }

  predicate ArmScrub(s: Scan, i: ScanIn) {
    i.scrubReq && !Busy(s) && !Arm0(s, i) && !s.scrubDone
  }

  predicate Pop(s: Scan, i: ScanIn) { i.valid && (Arm0(s, i) || Arm1(s) || Advance(s)) }

  /** The bit driven into the chain. */
  predicate ScanBit(s: Scan, scanOut: bool) {
    !s.scrub && (if Hit(s) then !scanOut else scanOut)
  }

  predicate ScrubRun(s: Scan) { s.run && s.scrub }

  predicate ScrubLast(s: Scan) { s.run && s.scrub && s.cnt == s.end }

  /** testmode_o as the next rising edge finds it. */
  predicate TestMode(s: Scan) { s.tm || s.tmHalf }

  /** This edge is the last shift of a pass or a scrub. */
  predicate Ends(s: Scan) { s.run && s.cnt == s.end }

  /** This edge raises Scan_En. */
  predicate Opens(s: Scan) { !s.run && s.lead }

  /** This edge arms a scrub with at least one shift. */
  predicate ArmShifts(s: Scan, i: ScanIn, scrubLen: int) {
    ArmScrub(s, i) && ScrubShifts(scrubLen, i.len) != 0
  }

  /** Every register after one clock cycle. */
  function Step(s: Scan, i: ScanIn, scrubLen: int): Scan {
    var ends, opens, adv := Ends(s), Opens(s), Advance(s);
    var arm0, armS := Arm0(s, i), ArmShifts(s, i, scrubLen);
    var step := HitStep(i.index, i.len);
    var tm := opens || (s.tm && !ends);
    var scrub := armS || (s.scrub && !ends);
    Scan(
      startD := i.start,
      run := opens || (s.run && !ends),
      scrub := scrub,
      cnt := if opens then 0 else if s.run && !ends then s.cnt + 1 else s.cnt,
      end := if arm0 then i.len - 1 else if armS then ScrubShifts(scrubLen, i.len) - 1 else s.end,
      scanEn := opens || (s.run && s.scanEn && !ends),
      clkGate := arm0 || armS || (s.clkGate && !ends),
      done := ends && !s.scrub,
      scrubDone := (ends && s.scrub) || (ArmScrub(s, i) && !armS),
      tm := tm,
      tmHalf := tm && !scrub,
      lead := arm0 || armS || (s.run && s.lead),
      stepQ := if arm0 then step else if adv then s.stepNx else s.stepQ,
      vldQ := if arm0 then i.valid else !ends && !armS && (if adv then s.vldNx else s.vldQ),
      stepNx := if opens || adv then step else s.stepNx,
      vldNx := if opens then i.valid && !s.scrub
               else !arm0 && !armS && !ends && (if adv then i.valid else s.vldNx),
      errOrder := s.errOrder || Stale(s))
  }

  /** The sequencing registers of the clocked block, in the source's order. */
  method Control(s: Scan, i: ScanIn, scrubLen: int)
    returns (run: bool, scrub: bool, cnt: nat, scanEn: bool, clkGate: bool, tm: bool, lead: bool)
    ensures var n := Step(s, i, scrubLen);
            && run == n.run && scrub == n.scrub && cnt == n.cnt
            && scanEn == n.scanEn && clkGate == n.clkGate && tm == n.tm && lead == n.lead
  {
    run, scrub, cnt, scanEn, clkGate, tm, lead := s.run, s.scrub, s.cnt, s.scanEn, s.clkGate, s.tm, s.lead;
    if s.run {
      if s.cnt == s.end {
        run, scanEn, clkGate, scrub, tm := false, false, false, false, false;
      } else {
        cnt := s.cnt + 1;
      }
    } else if s.lead {
      run, cnt, scanEn, tm, lead := true, 0, true, true, false;
    } else {
      scanEn := false;
      if Arm0(s, i) {
        clkGate, lead := true, true;
      } else if ArmScrub(s, i) && ScrubShifts(scrubLen, i.len) != 0 {
        clkGate, lead, scrub := true, true, true;
      }
    }
  }

  method FrontEnd(s: Scan, i: ScanIn, scrubLen: int)
    returns (stepQ: nat, vldQ: bool, stepNx: nat, vldNx: bool)
    ensures var n := Step(s, i, scrubLen);
            stepQ == n.stepQ && vldQ == n.vldQ && stepNx == n.stepNx && vldNx == n.vldNx
  {
    stepQ, vldQ, stepNx, vldNx := s.stepQ, s.vldQ, s.stepNx, s.vldNx;
    if Advance(s) {
      stepQ, vldQ, stepNx, vldNx := s.stepNx, s.vldNx, HitStep(i.index, i.len), i.valid;
    }
    if s.run {
      if s.cnt == s.end { vldQ, vldNx := false, false; }
    } else if s.lead {
      stepNx, vldNx := HitStep(i.index, i.len), i.valid && !s.scrub;
    } else if Arm0(s, i) {
      stepQ, vldQ, vldNx := HitStep(i.index, i.len), i.valid, false;
    } else if ArmScrub(s, i) && ScrubShifts(scrubLen, i.len) != 0 {
      vldQ, vldNx := false, false;
    }
  }

  method Strobes(s: Scan, i: ScanIn, scrubLen: int) returns (end: nat, done: bool, scrubDone: bool, errOrder: bool)
    ensures var n := Step(s, i, scrubLen);
            end == n.end && done == n.done && scrubDone == n.scrubDone && errOrder == n.errOrder
  {
    end, done, scrubDone, errOrder := s.end, false, false, s.errOrder;
    if Stale(s) { errOrder := true; }
    if s.run {
      if s.cnt == s.end {
        if s.scrub { scrubDone := true; } else { done := true; }
      }
    } else if !s.lead {
      if Arm0(s, i) {
        end := i.len - 1;
      } else if ArmScrub(s, i) {
        var shifts := if scrubLen < 0 then i.len else if i.len < scrubLen then i.len else scrubLen;
        if shifts == 0 {
          scrubDone := true;
        } else {
          end := shifts - 1;
        }
      }
    }
  }

  /** The controller: its registers change together, on the clock edge. */
  class Controller {
    const scrubLen: int
    var r: Scan

    constructor (scrubLen: int)
      ensures r == POWER_ON && this.scrubLen == scrubLen
    {
      this.scrubLen, r := scrubLen, POWER_ON;
    }

    method Tick(i: ScanIn)
      modifies this
      ensures r == Step(old(r), i, scrubLen)
    {
      var run, scrub, cnt, scanEn, clkGate, tm, lead := Control(r, i, scrubLen);
      var end, done, scrubDone, errOrder := Strobes(r, i, scrubLen);
      var stepQ, vldQ, stepNx, vldNx := FrontEnd(r, i, scrubLen);
      r := Scan(i.start, run, scrub, cnt, end, scanEn, clkGate, done, scrubDone,
                tm, tm && !scrub, lead, stepQ, vldQ, stepNx, vldNx, errOrder);
    }
  }

  // ---- a whole scrub -----------------------------------------------------------------------------

  /** The controller on a chain: a shift edge takes the driven bit in at cell 0. */
  datatype Chained = Chained(s: Scan, chain: seq<bool>, shifts: nat)

  /** `ins` carries what the other inputs do; the controller sees the chain's last cell. */
  function Chain(s: Scan, chain: seq<bool>, ins: seq<ScanIn>, scrubLen: int): (r: Chained)
    requires chain != []
    ensures |r.chain| == |chain|
  {
    if ins == [] then Chained(s, chain, 0) else
      var m := Chain(s, chain, ins[..|ins| - 1], scrubLen);
      var out := m.chain[|chain| - 1];
      var i := ins[|ins| - 1].(len := |chain|, scanOut := out);
      Chained(Step(m.s, i, scrubLen),
              if m.s.scanEn then [ScanBit(m.s, out)] + m.chain[..|chain| - 1] else m.chain,
              if m.s.scanEn then m.shifts + 1 else m.shifts)
  }

  /** Idle, with the scrub request as the next edge sees it. */
  predicate Asked(s: Scan, i: ScanIn) {
    && !s.run && !s.lead && !s.scrub && !s.scanEn && !s.scrubDone && i.scrubReq
    && !(i.start && !s.startD && i.ready)
  }

  /** What the chain holds after t zeros have come in. */
  function Cleared(chain: seq<bool>, t: nat): seq<bool>
    requires t <= |chain|
  {
    seq(t, _ => false) + chain[..|chain| - t]
  }

  lemma ClearedMore(chain: seq<bool>, t: nat)
    requires t < |chain|
    ensures [false] + Cleared(chain, t)[..|chain| - 1] == Cleared(chain, t + 1)
  {
  }

  /** A scrub of n shifts before its shift number t; -1 is the cycle it was armed in. */
  predicate ScrubAt(s: Scan, n: nat, t: int) {
    && (s.scrub <==> t < n) && (s.lead <==> t == -1) && (s.run <==> 0 <= t < n) && s.scanEn == s.run
    && (s.scrubDone <==> t == n) && (s.run ==> s.cnt == t) && (s.scrub ==> s.end == n - 1)
    && (s.scrub ==> !s.vldQ && !s.vldNx) && (ScrubRun(s) <==> 0 <= t < n) && (ScrubLast(s) <==> 0 <= t == n - 1)
  }

  lemma ScrubArms(s: Scan, i: ScanIn, scrubLen: int, n: nat)
    requires Asked(s, i) && i.len >= 1 && n == if 0 <= scrubLen <= i.len then scrubLen else i.len
    ensures ScrubAt(Step(s, i, scrubLen), n, if n == 0 then 0 else -1)
  {
  }

  lemma ScrubGoes(s: Scan, i: ScanIn, scrubLen: int, n: nat, t: int)
    requires -1 <= t < n && ScrubAt(s, n, t)
    ensures ScrubAt(Step(s, i, scrubLen), n, t + 1)
    ensures !ScanBit(s, i.scanOut) && !Pop(s, i)
  {
  }

  /** Without a chain nothing is ever shifted: a start finds nothing to do, and a scrub is done at once. */
  lemma NoChain(s: Scan, i: ScanIn, scrubLen: int)
    requires !s.run && !s.lead && i.len == 0
    ensures var n := Step(s, i, scrubLen);
            && !n.run && !n.lead && !n.scanEn && !Pop(s, i)
            && (n.scrubDone <==> i.scrubReq && !s.scrubDone)
  {
  }

  /** A scrub, from the request on: with a negative SCRUB_LEN it takes every cell of the chain, else the
      first SCRUB_LEN, or all if the chain has no more. It shifts that many zeros in, one per edge from
      the third edge on, and is done on the edge of the last; with none to take it is done at once. */
  lemma {:induction false} ScrubTakes(s: Scan, chain: seq<bool>, ins: seq<ScanIn>, scrubLen: int, n: nat)
    requires chain != [] && ins != [] && Asked(s, ins[0])
    requires n == if 0 <= scrubLen <= |chain| then scrubLen else |chain|
    requires |ins| <= if n == 0 then 1 else n + 2
    ensures var r, t := Chain(s, chain, ins, scrubLen), if n == 0 then 0 else |ins| - 2;
            ScrubAt(r.s, n, t) && r.shifts == (if t < 0 then 0 else t) && r.chain == Cleared(chain, r.shifts)
  {
    var m, last := ins[..|ins| - 1], ins[|ins| - 1];
    assert Cleared(chain, 0) == chain;
    if m == [] {
      assert Chain(s, chain, m, scrubLen) == Chained(s, chain, 0);
      ScrubArms(s, last.(len := |chain|, scanOut := chain[|chain| - 1]), scrubLen, n);
    } else {
      ScrubTakes(s, chain, m, scrubLen, n);
      var c := Chain(s, chain, m, scrubLen);
      ScrubGoes(c.s, last.(len := |chain|, scanOut := c.chain[|chain| - 1]), scrubLen, n, |ins| - 3);
      ClearedMore(chain, c.shifts);
    }
  }

  /** With SCRUB_LEN negative, or as long as the chain, a scrub leaves zeros in every cell; else in
      exactly the first SCRUB_LEN, and the others hold what came from SCRUB_LEN cells before. */
  lemma {:induction false} ScrubClears(s: Scan, chain: seq<bool>, ins: seq<ScanIn>, scrubLen: int)
    requires chain != [] && ins != [] && Asked(s, ins[0])
    requires |ins| == if scrubLen == 0 then 1 else if 0 <= scrubLen <= |chain| then scrubLen + 2 else |chain| + 2
    ensures var r := Chain(s, chain, ins, scrubLen);
            && r.s.scrubDone && !r.s.run
            && (scrubLen < 0 || scrubLen >= |chain| ==>
                  r.shifts == |chain| && forall k :: 0 <= k < |chain| ==> !r.chain[k])
            && (0 <= scrubLen < |chain| ==>
                  && r.shifts == scrubLen
                  && forall k :: 0 <= k < |chain| ==> r.chain[k] == (k >= scrubLen && chain[k - scrubLen]))
  {
    ScrubTakes(s, chain, ins, scrubLen, if 0 <= scrubLen <= |chain| then scrubLen else |chain|);
  }
}
