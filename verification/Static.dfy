/** The manual path for bring-up (rtl/fi_executor_core.v): with the campaign loop off and no timeout, a
    start makes one pass that flips the one cell of CFG_FI_INDEX. */
module Static {
  import opened Executor
  import Campaign
  import ScanCtrl
  import TimeCtrl

  datatype Bench = Bench(x: Core, chain: seq<bool>)

  /** One edge: the host's start bit, the memories and the lookahead's head, and the chain after the edge
      if it is a functional one. */
  datatype In = In(start: bool, e: Env, dut: seq<bool>)

  /** The loop is off, and so are its timeout and its end request. */
  predicate ByHand(h: Host) { !h.auto && !h.end && !h.fiCycleWr && h.toThr == 0 && h.len >= 1 }

  /** The core's edge. */
  function StepX(b: Build, table: seq<Entry>, h: Host, m: Bench, i: In): Core
    requires |m.chain| == h.len >= 1
  {
    Step(b, table, m.x, h.(start := i.start), i.e.(scanOut := m.chain[h.len - 1]))
  }

  function Tick(b: Build, table: seq<Entry>, h: Host, m: Bench, i: In): (r: Bench)
    requires |m.chain| == h.len == |i.dut| >= 1
    ensures |r.chain| == h.len
  {
    Bench(StepX(b, table, h, m, i),
          if m.x.scan.scanEn then [ScanCtrl.ScanBit(m.x.scan, m.chain[h.len - 1])] + m.chain[..h.len - 1] else i.dut)
  }

  ghost predicate Sized(h: Host, ins: seq<In>) { forall k :: 0 <= k < |ins| ==> |ins[k].dut| == h.len }

  /** After n edges. */
  function Run(b: Build, table: seq<Entry>, h: Host, m: Bench, ins: seq<In>, n: nat): (r: Bench)
    requires |m.chain| == h.len >= 1 && Sized(h, ins) && n <= |ins|
    ensures |r.chain| == h.len
  {
    if n == 0 then m else Tick(b, table, h, Run(b, table, h, m, ins, n - 1), ins[n - 1])
  }

  /** The cycle counter runs, no cycle is set and nothing is being stopped. */
  predicate Untimed(t: TimeCtrl.Time) {
    !t.stopped && t.phase == 0 && !t.scrubReq && !t.end0 && !t.end1 && t.fiCycle == 0 && !t.scanStart
  }

  lemma UntimedStep(b: Build, table: seq<Entry>, h: Host, x: Core, e: Env)
    requires ByHand(h) && Untimed(x.time)
    ensures var n := Step(b, table, x, h, e); Untimed(n.time) && !n.cfgEn && n.s2 == x.s1 && n.s1 == h.start
    ensures h.start ==> Step(b, table, x, h, e).staticFirst
  {
  }

  predicate Idle(s: ScanCtrl.Scan) { !s.run && !s.lead && !s.scanEn && !s.scrub }

  /** Nothing under way; whether a campaign was on before does not matter. */
  predicate Quiet(x: Core) { Untimed(x.time) && Idle(x.scan) && !x.scan.startD && !x.s1 && !x.s2 }

  /** The step of cell f, counted from the last cell; L for an index past the chain. */
  function StepOf(f: nat, len: nat): nat { if f < len then len - 1 - f else len }

  /** n edges after the start: the pass begins on edge 4. */
  predicate Stage(len: nat, f: nat, x: Core, n: nat) {
    var s, hit := x.scan, StepOf(f, len);
    && Untimed(x.time) && !x.cfgEn
    && if n <= 2 then n >= 1 && Idle(s) && !s.startD && (n == 1 ==> x.s1) && x.s2 == (n == 2) && x.staticFirst
       else if n == 3 then s.lead && !s.run && !s.scanEn && !s.scrub && s.vldQ && s.stepQ == hit && s.end == len - 1
       else if n < len + 4 then
         && s.run && s.scanEn && !s.lead && !s.scrub && s.cnt == n - 4 && s.end == len - 1
         && (f < len && s.cnt <= hit ==> s.vldQ) && (s.vldQ ==> s.stepQ == hit) && (s.vldNx ==> s.stepNx == hit)
       else n == len + 4 && Idle(s) && s.done
  }

  lemma FirstStage(b: Build, table: seq<Entry>, h: Host, x: Core, e: Env)
    requires ByHand(h) && h.fiIndex != 0 && Quiet(x) && h.start
    ensures Stage(h.len, h.fiIndex, Step(b, table, x, h, e), 1)
  {
    UntimedStep(b, table, h, x, e);
  }

  lemma NextStage(b: Build, table: seq<Entry>, h: Host, x: Core, e: Env, n: nat)
    requires ByHand(h) && h.fiIndex != 0 && 1 <= n < h.len + 4 && Stage(h.len, h.fiIndex, x, n)
    ensures Stage(h.len, h.fiIndex, Step(b, table, x, h, e), n + 1)
  {
    UntimedStep(b, table, h, x, e);
  }

  /** The step whose bit the pass inverts. */
  function TheStep(h: Host): set<nat> { if h.fiIndex < h.len then {h.len - 1 - h.fiIndex} else {} }

  lemma ShiftBit(h: Host, x: Core, n: nat, out: bool)
    requires 4 <= n < h.len + 4 && Stage(h.len, h.fiIndex, x, n)
    ensures x.scan.scanEn && ScanCtrl.ScanBit(x.scan, out) == (out != (n - 4 in TheStep(h)))
  {
  }

  /** What the run is at after n edges: its stage, and the chain in the middle of the pass. */
  ghost predicate Passing(h: Host, m: Bench, n: nat, before: seq<bool>) {
    Stage(h.len, h.fiIndex, m.x, n) && (n >= 4 ==> Campaign.Rotated(m.chain, before, n - 4, TheStep(h)))
  }

  lemma StageOn(b: Build, table: seq<Entry>, h: Host, m: Bench, i: In, n: nat)
    requires ByHand(h) && h.fiIndex != 0 && |m.chain| == h.len == |i.dut|
    requires 1 <= n < h.len + 4 && Stage(h.len, h.fiIndex, m.x, n)
    ensures Stage(h.len, h.fiIndex, Tick(b, table, h, m, i).x, n + 1)
  {
    NextStage(b, table, h.(start := i.start), m.x, i.e.(scanOut := m.chain[h.len - 1]), n);
  }

  /** What the edge does to the chain. */
  lemma ChainOn(b: Build, table: seq<Entry>, h: Host, m: Bench, i: In, n: nat)
    requires |m.chain| == h.len == |i.dut| >= 1 && 3 <= n < h.len + 4 && Stage(h.len, h.fiIndex, m.x, n)
    ensures var w := Tick(b, table, h, m, i).chain;
            if n == 3 then w == i.dut
            else w == [m.chain[h.len - 1] != (n - 4 in TheStep(h))] + m.chain[..h.len - 1]
  {
    if n >= 4 { ShiftBit(h, m.x, n, m.chain[h.len - 1]); }
  }

  /** The chain n + 1 edges after the start, from the one before. */
  lemma RotatesOn(h: Host, v: seq<bool>, w: seq<bool>, dut: seq<bool>, n: nat)
    requires |v| == h.len == |dut| >= 1 && 3 <= n < h.len + 4
    requires n >= 4 ==> Campaign.Rotated(v, dut, n - 4, TheStep(h))
    requires if n == 3 then w == dut else w == [v[h.len - 1] != (n - 4 in TheStep(h))] + v[..h.len - 1]
    ensures Campaign.Rotated(w, dut, n - 3, TheStep(h))
  {
    if n >= 4 {
      var t: nat := n - 4;
      Campaign.RotateStep(v, dut, t, TheStep(h), w);
    }
  }

  lemma PassingOn(b: Build, table: seq<Entry>, h: Host, m: Bench, i: In, n: nat, before: seq<bool>)
    requires ByHand(h) && h.fiIndex != 0 && |m.chain| == h.len == |i.dut| == |before|
    requires 1 <= n < h.len + 4 && Passing(h, m, n, before) && (n == 3 ==> i.dut == before)
    ensures Passing(h, Tick(b, table, h, m, i), n + 1, before)
  {
    StageOn(b, table, h, m, i, n);
    if n >= 3 {
      ChainOn(b, table, h, m, i, n);
      RotatesOn(h, m.chain, Tick(b, table, h, m, i).chain, before, n);
    }
  }

  /** The edges of one shot: the start, three more, and the shifts. */
  ghost predicate Shot(h: Host, ins: seq<In>) { Sized(h, ins) && |ins| >= h.len + 4 && ins[0].start }

  lemma ShotStarts(b: Build, table: seq<Entry>, h: Host, m: Bench, i: In)
    requires ByHand(h) && h.fiIndex != 0 && Quiet(m.x) && |m.chain| == h.len == |i.dut| && i.start
    ensures Stage(h.len, h.fiIndex, Tick(b, table, h, m, i).x, 1)
  {
    FirstStage(b, table, h.(start := i.start), m.x, i.e.(scanOut := m.chain[h.len - 1]));
  }

  /** Through the shot, edge by edge. */
  ghost predicate Through(h: Host, m: Bench, n: nat, before: seq<bool>) {
    |m.chain| == h.len == |before| && if n == 0 then Quiet(m.x) else Passing(h, m, n, before)
  }

  lemma ShotGoes(b: Build, table: seq<Entry>, h: Host, m: Bench, r: Bench, i: In, n: nat, before: seq<bool>)
    requires ByHand(h) && h.fiIndex != 0 && |m.chain| == h.len == |i.dut| && Through(h, m, n, before) && n < h.len + 4
    requires (n == 0 ==> i.start) && (n == 3 ==> i.dut == before) && r == Tick(b, table, h, m, i)
    ensures Through(h, r, n + 1, before)
  {
    if n == 0 { ShotStarts(b, table, h, m, i); } else { PassingOn(b, table, h, m, i, n, before); }
  }

  lemma {:induction false} ShotRuns(b: Build, table: seq<Entry>, h: Host, m: Bench, ins: seq<In>, n: nat,
                                    before: seq<bool>)
    requires ByHand(h) && h.fiIndex != 0 && Through(h, m, 0, before) && |m.chain| == h.len
    requires Shot(h, ins) && n <= h.len + 4 && before == ins[3].dut
    ensures Through(h, Run(b, table, h, m, ins, n), n, before)
  {
    if n > 0 {
      var k: nat := n - 1;
      ShotRuns(b, table, h, m, ins, k, before);
      ShotGoes(b, table, h, Run(b, table, h, m, ins, k), Run(b, table, h, m, ins, n), ins[k], k, before);
    }
  }

  lemma ShotEnds(h: Host, r: Bench, before: seq<bool>)
    requires h.len >= 1 && Through(h, r, h.len + 4, before)
    ensures r.x.scan.done && Idle(r.x.scan)
    ensures r.chain == if h.fiIndex < h.len then before[h.fiIndex := !before[h.fiIndex]] else before
  {
    Campaign.ComesRound(r.chain, before, TheStep(h));
    OneStep(before, h.fiIndex);
  }

  lemma OneStep(before: seq<bool>, f: nat)
    ensures Campaign.Inverted(before, if f < |before| then {|before| - 1 - f} else {})
            == if f < |before| then before[f := !before[f]] else before
  {
  }

  /** One start makes one pass, on whatever the start bit does behind it: after three edges in which the
      design runs on, and L shifts, the chain is as it was in front of the pass with cell CFG_FI_INDEX
      inverted; an index past the chain inverts nothing. */
  lemma {:induction false} ManualShot(b: Build, table: seq<Entry>, h: Host, m: Bench, ins: seq<In>)
    requires ByHand(h) && h.fiIndex != 0 && Quiet(m.x) && |m.chain| == h.len && Shot(h, ins)
    ensures var r, before := Run(b, table, h, m, ins, h.len + 4), ins[3].dut;
            && r.x.scan.done && Idle(r.x.scan)
            && r.chain == if h.fiIndex < h.len then before[h.fiIndex := !before[h.fiIndex]] else before
  {
    ShotRuns(b, table, h, m, ins, h.len + 4, ins[3].dut);
    ShotEnds(h, Run(b, table, h, m, ins, h.len + 4), ins[3].dut);
  }

  lemma UntimedOn(b: Build, table: seq<Entry>, h: Host, m: Bench, i: In)
    requires ByHand(h) && |m.chain| == h.len == |i.dut| && Untimed(m.x.time)
    ensures var x := Tick(b, table, h, m, i).x;
            Untimed(x.time) && !x.cfgEn && x.s1 == i.start && x.s2 == m.x.s1 && x.scan.startD == m.x.s2
  {
    UntimedStep(b, table, h.(start := i.start), m.x, i.e.(scanOut := m.chain[h.len - 1]));
  }

  /** An idle controller stays so without an edge of the start, or with the index at 0. */
  lemma IdleOn(b: Build, table: seq<Entry>, h: Host, m: Bench, i: In)
    requires ByHand(h) && |m.chain| == h.len == |i.dut| && Untimed(m.x.time) && Idle(m.x.scan)
    requires (m.x.s2 ==> m.x.scan.startD) || (h.fiIndex == 0 && !m.x.cfgEn)
    ensures Idle(Tick(b, table, h, m, i).x.scan)
  {
  }

  // ---- a start that is one pulse -----------------------------------------------------------------------

  /** Only one target is ever loaded, so nothing is found already passed. */
  predicate Once(x: Core, n: nat, flag: bool) {
    && x.scan.errOrder == flag && (n >= 3 ==> !x.staticFirst)
    && (n >= 4 ==> !x.scan.vldNx && (x.scan.run && x.scan.vldQ ==> x.scan.cnt <= x.scan.stepQ))
  }

  lemma OnceOn(b: Build, table: seq<Entry>, h: Host, x: Core, e: Env, n: nat, flag: bool)
    requires ByHand(h) && h.fiIndex != 0 && 1 <= n < h.len + 4 && Stage(h.len, h.fiIndex, x, n)
    requires Once(x, n, flag) && !h.start
    ensures Once(Step(b, table, x, h, e), n + 1, flag)
  {
  }

  /** n edges after one pulse. */
  ghost predicate Pulsed(h: Host, m: Bench, n: nat, flag: bool) {
    if n == 0 then Quiet(m.x) && m.x.scan.errOrder == flag else Stage(h.len, h.fiIndex, m.x, n) && Once(m.x, n, flag)
  }

  lemma PulsedOn(b: Build, table: seq<Entry>, h: Host, m: Bench, r: Bench, i: In, n: nat, flag: bool)
    requires ByHand(h) && h.fiIndex != 0 && |m.chain| == h.len == |i.dut| && r == Tick(b, table, h, m, i)
    requires Pulsed(h, m, n, flag) && n < h.len + 4 && i.start == (n == 0)
    ensures Pulsed(h, r, n + 1, flag)
  {
    if n == 0 {
      ShotStarts(b, table, h, m, i);
    } else {
      StageOn(b, table, h, m, i, n);
      OnceOn(b, table, h.(start := i.start), m.x, i.e.(scanOut := m.chain[h.len - 1]), n, flag);
    }
  }

  /** No further start among the first n edges. */
  predicate Lone(ins: seq<In>, n: nat)
    requires n <= |ins|
  {
    n <= 1 || (Lone(ins, n - 1) && !ins[n - 1].start)
  }

  lemma {:induction false} PulseRuns(b: Build, table: seq<Entry>, h: Host, m: Bench, ins: seq<In>, n: nat, flag: bool)
    requires ByHand(h) && h.fiIndex != 0 && |m.chain| == h.len && Shot(h, ins) && n <= h.len + 4
    requires Pulsed(h, m, 0, flag) && Lone(ins, n)
    ensures Pulsed(h, Run(b, table, h, m, ins, n), n, flag)
  {
    if n > 0 {
      var k: nat := n - 1;
      PulseRuns(b, table, h, m, ins, k, flag);
      PulsedOn(b, table, h, Run(b, table, h, m, ins, k), Run(b, table, h, m, ins, n), ins[k], k, flag);
    }
  }

  /** The order flag stays as it was through the pass of one pulse. */
  lemma {:induction false} OnePulseIsInOrder(b: Build, table: seq<Entry>, h: Host, m: Bench, ins: seq<In>, n: nat)
    requires ByHand(h) && h.fiIndex != 0 && Quiet(m.x) && |m.chain| == h.len && Shot(h, ins)
    requires n <= h.len + 4 && Lone(ins, n)
    ensures Run(b, table, h, m, ins, n).x.scan.errOrder == m.x.scan.errOrder
  {
    PulseRuns(b, table, h, m, ins, n, m.x.scan.errOrder);
  }

  /** And no pass of this path takes an entry out of the table's lookahead. */
  lemma TakesNoEntry(b: Build, table: seq<Entry>, x: Core, h: Host, e: Env)
    requires !x.cfgEn && !x.time.resolverRst && !h.fiCycleWr
    ensures x.tbl.la <= Step(b, table, x, h, e).tbl.la
  {
  }

  /** With CFG_FI_INDEX at 0 no start makes a pass. */
  lemma {:induction false} ZeroIsOff(b: Build, table: seq<Entry>, h: Host, m: Bench, ins: seq<In>, n: nat)
    requires ByHand(h) && h.fiIndex == 0 && Quiet(m.x) && |m.chain| == h.len && Sized(h, ins) && n <= |ins|
    ensures Off(Run(b, table, h, m, ins, n).x)
  {
    if n > 0 {
      var k: nat := n - 1;
      ZeroIsOff(b, table, h, m, ins, k);
      OffOn(b, table, h, Run(b, table, h, m, ins, k), Run(b, table, h, m, ins, n), ins[k]);
    }
  }

  /** Nothing shifts; a campaign's enable, if it was still up, is gone before the first start arrives. */
  predicate Off(x: Core) { Untimed(x.time) && Idle(x.scan) && (x.cfgEn ==> !x.s2) }

  lemma OffOn(b: Build, table: seq<Entry>, h: Host, m: Bench, r: Bench, i: In)
    requires ByHand(h) && h.fiIndex == 0 && |m.chain| == h.len == |i.dut| && Off(m.x) && r == Tick(b, table, h, m, i)
    ensures Off(r.x)
  {
    UntimedOn(b, table, h, m, i);
    IdleOn(b, table, h, m, i);
  }

  /** The start bit up for n edges. */
  predicate Up(x: Core, n: nat) {
    Untimed(x.time) && (n >= 1 ==> x.s1) && (n >= 2 ==> x.s2) && (n >= 3 ==> x.scan.startD)
  }

  lemma {:induction false} StaysUp(b: Build, table: seq<Entry>, h: Host, m: Bench, ins: seq<In>, n: nat)
    requires ByHand(h) && Quiet(m.x) && |m.chain| == h.len && Sized(h, ins) && n <= |ins|
    requires forall k :: 0 <= k < |ins| ==> ins[k].start
    ensures Up(Run(b, table, h, m, ins, n).x, n)
  {
    if n > 0 {
      var k: nat := n - 1;
      StaysUp(b, table, h, m, ins, k);
      UntimedOn(b, table, h, Run(b, table, h, m, ins, k), ins[k]);
    }
  }

  /** A start bit that stays up makes one pass, and none behind it. */
  lemma {:induction false} HeldStartIsOne(b: Build, table: seq<Entry>, h: Host, m: Bench, ins: seq<In>, n: nat)
    requires ByHand(h) && h.fiIndex != 0 && Quiet(m.x) && |m.chain| == h.len && Sized(h, ins)
    requires h.len + 4 <= n <= |ins| && forall k :: 0 <= k < |ins| ==> ins[k].start
    ensures Idle(Run(b, table, h, m, ins, n).x.scan)
  {
    if n == h.len + 4 {
      ManualShot(b, table, h, m, ins);
    } else {
      var k: nat := n - 1;
      HeldStartIsOne(b, table, h, m, ins, k);
      StaysUp(b, table, h, m, ins, k);
      IdleOn(b, table, h, Run(b, table, h, m, ins, k), ins[k]);
    }
  }
}
