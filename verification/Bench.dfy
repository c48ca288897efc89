/** The wrapper around an arbitrary design with a scan chain, off-chain registers and any number of
    memories that restore themselves, by undoing their writes or by a fill: what the design lives
    through in a trial is its own unwrapped run from power-on, with the trial's flops inverted once. */
module Bench {
  import opened Executor
  import opened Trial
  import opened Campaign
  import opened MemRestore
  import Memories
  import Alive
  import Freeze
  import ScanCtrl
  import TimeCtrl

  /** The design's registers: on the chain, and off it. */
  datatype Dut<O> = Dut(chain: seq<bool>, off: O)

  datatype Pins = Pins(a: nat, d: Word, we: seq<bool>)

  /** A design: one functional clock edge, what it drives on the memories' pins, one clock edge
      with the reset asserted, its asynchronous reset, and its memories. */
  datatype Design<!O> = Design(
    step: (Dut<O>, seq<seq<Word>>) -> Dut<O>,
    pins: (Dut<O>, seq<seq<Word>>) -> seq<Pins>,
    held: (Dut<O>, seq<seq<Word>>) -> Dut<O>,
    hasReset: seq<bool>, resetVal: seq<bool>, offReset: O, specs: seq<Memories.Spec>)

  /** The design with its memories, as it sees them. */
  datatype World<O> = World(dut: Dut<O>, mems: seq<Memories.Mem>)

  predicate Furnished<O>(g: Design<O>, mems: seq<Memories.Mem>) {
    Memories.AllBuilt(g.specs) && Memories.AllFit(mems, g.specs)
  }

  function Reset<O>(g: Design<O>, d: Dut<O>): Dut<O>
    requires |g.hasReset| == |g.resetVal| == |d.chain|
  {
    Dut(seq(|d.chain|, i requires 0 <= i < |d.chain| => if g.hasReset[i] then g.resetVal[i] else d.chain[i]),
        g.offReset)
  }

  /** What the asserted reset holds on an edge: the cells that have one. */
  function Hold<O>(g: Design<O>, d: Dut<O>): Dut<O>
    requires |g.hasReset| == |g.resetVal| == |d.chain|
  {
    Reset(g, d).(off := d.off)
  }

  /** The state every trial must start from: the reset applied to a chain of zeros. */
  function StartDut<O>(g: Design<O>, len: nat): Dut<O>
    requires |g.hasReset| == |g.resetVal| == len
  {
    Reset(g, Dut(seq(len, _ => false), g.offReset))
  }

  function Start<O>(g: Design<O>, len: nat): World<O>
    requires |g.hasReset| == |g.resetVal| == len
  {
    World(StartDut(g, len), Memories.Starts(g.specs))
  }

  /** Cell by cell: 0 if only the scrub clears it, its reset value otherwise; and every memory's content. */
  lemma StartIs<O>(g: Design<O>, len: nat, i: nat, k: nat)
    requires |g.hasReset| == |g.resetVal| == len && i < len && k < |g.specs|
    ensures var w := Start(g, len);
            && |w.dut.chain| == len && w.dut.chain[i] == (g.hasReset[i] && g.resetVal[i]) && w.dut.off == g.offReset
            && |w.mems| == |g.specs|
            && match g.specs[k]
               case UndoSpec(_, power) => w.mems[k] == Memories.UndoMem(Undo(power, [], false, false))
               case FillSpec(_, size, word) =>
                 && w.mems[k].FillMem? && |w.mems[k].f.ram| == size && !w.mems[k].f.done && !w.mems[k].f.bad
                 && forall a :: 0 <= a < size ==> w.mems[k].f.ram[a] == word
  {
  }

  function Addr(a: nat, n: nat): nat { if a < n then a else 0 }

  /** What memory k sees of an edge. */
  function PinsAt<O>(g: Design<O>, d: Dut<O>, rams: seq<seq<Word>>, k: nat, ce: bool, rst: bool, restore: bool): MemIn
    requires k < |g.specs|
  {
    var ps := g.pins(d, rams);
    var p := if k < |ps| then ps[k] else Pins(0, [], []);
    MemIn(ce, Addr(p.a, Memories.SizeOf(g.specs[k])), p.d, if rst then [] else p.we, restore)
  }

  function PinsIn<O>(g: Design<O>, d: Dut<O>, rams: seq<seq<Word>>, ce: bool, rst: bool, restore: bool): (r: seq<MemIn>)
    requires Memories.AllBuilt(g.specs)
    ensures Memories.AllReach(r, g.specs) && Memories.AllRestore(r, restore)
    ensures rst || !ce || !restore ==> Memories.AllClean(r)
    ensures !ce ==> forall k :: 0 <= k < |r| ==> !r[k].ce
  {
    seq(|g.specs|, k requires 0 <= k < |g.specs| => PinsAt(g, d, rams, k, ce, rst, restore))
  }

  /** One edge of the unwrapped design. */
  function WorldStep<O>(g: Design<O>, w: World<O>): (r: World<O>)
    requires Furnished(g, w.mems)
    ensures Furnished(g, r.mems)
  {
    var rams := Memories.Rams(w.mems);
    World(g.step(w.dut, rams), Memories.StepAll(w.mems, PinsIn(g, w.dut, rams, true, false, false), g.specs))
  }

  function Free<O>(g: Design<O>, w: World<O>, n: nat): (r: World<O>)
    requires Furnished(g, w.mems)
    ensures Furnished(g, r.mems)
  {
    if n == 0 then w else WorldStep(g, Free(g, w, n - 1))
  }

  /** The fault: these steps' cells inverted. */
  function Struck<O>(w: World<O>, steps: set<nat>): World<O> {
    World(Dut(Inverted(w.dut.chain, steps), w.dut.off), w.mems)
  }

  /** The fault-free run, and the run struck after `at` edges, seen `n` edges after the strike. */
  function Golden<O>(g: Design<O>, len: nat, n: nat): World<O>
    requires |g.hasReset| == |g.resetVal| == len && Memories.AllBuilt(g.specs)
  {
    Free(g, Start(g, len), n)
  }

  function Faulty<O>(g: Design<O>, len: nat, at: nat, steps: set<nat>, n: nat): World<O>
    requires |g.hasReset| == |g.resetVal| == len && Memories.AllBuilt(g.specs)
  {
    Free(g, Struck(Golden(g, len, at), steps), n)
  }

  /** What synthesis guarantees of the design (rule A12 and the clears of off-chain registers). */
  ghost predicate Prepared<O(!new)>(c: Setup, g: Design<O>) {
    && |g.hasReset| == |g.resetVal| == c.len && Memories.AllBuilt(g.specs)
    && (forall i :: 0 <= i < c.len && c.b.scrubLen >= 0 && i >= c.b.scrubLen ==> g.hasReset[i])
    && (forall d: Dut<O>, m: seq<seq<Word>> :: |d.chain| == c.len ==> |g.step(d, m).chain| == c.len)
    && (forall d: Dut<O>, m: seq<seq<Word>> :: |d.chain| == c.len ==> |g.held(d, m).chain| == c.len)
    && (forall m: seq<seq<Word>> :: g.held(StartDut(g, c.len), m) == StartDut(g, c.len))
  }

  // ---- the wrapped design -----------------------------------------------------------------

  datatype Rig<O> = Rig(y: Sys, off: O, mems: seq<Memories.Mem>, gateQ: bool)

  ghost predicate Fits<O>(c: Setup, g: Design<O>, z: Rig<O>) {
    Sized(c, z.y) && Memories.AllFit(z.mems, g.specs)
  }

  function DutOf<O>(z: Rig<O>): Dut<O> { Dut(z.y.chain, z.off) }

  function WorldOf<O>(z: Rig<O>): World<O> { World(DutOf(z), Memories.SeenAll(z.mems)) }

  predicate Frozen<O>(z: Rig<O>) { Freeze.Frozen(z.y.x.scan, z.gateQ) }

  /** The registers after a clock edge the design gets in full. */
  function Clocked<O>(g: Design<O>, z: Rig<O>): Dut<O> {
    var rams := Memories.Rams(z.mems);
    if z.y.x.time.resolverRst then g.held(DutOf(z), rams) else g.step(DutOf(z), rams)
  }

  /** The registers after this edge, before the reset: the chain follows Scan_En, everything off
      it the gated clock. */
  function Edged<O>(c: Setup, g: Design<O>, z: Rig<O>): Dut<O>
    requires Sized(c, z.y)
  {
    Dut(if z.y.x.scan.scanEn then Shifted(c, z.y) else Clocked(g, z).chain,
        if Frozen(z) then z.off else Clocked(g, z).off)
  }

  function Input<O>(c: Setup, g: Design<O>, z: Rig<O>, junk: nat, chain: seq<bool>): In {
    In(Memories.AllDone(z.mems, z.y.x.time.memReq), Memories.AnyAborts(z.mems), Memories.AnyBad(z.mems), junk, chain)
  }

  /** The pins of all memories on this edge of the wrapped design. */
  function MemPins<O>(g: Design<O>, z: Rig<O>): (r: seq<MemIn>)
    requires Memories.AllBuilt(g.specs)
    ensures Memories.AllReach(r, g.specs) && Memories.AllRestore(r, z.y.x.time.memReq)
  {
    PinsIn(g, DutOf(z), Memories.Rams(z.mems), !Frozen(z), z.y.x.time.resolverRst, z.y.x.time.memReq)
  }

  ghost function After<O(!new)>(c: Setup, g: Design<O>, z: Rig<O>, junk: nat): (d: Dut<O>)
    requires Fits(c, g, z) && Prepared(c, g)
    ensures |d.chain| == c.len
  {
    var d := Edged(c, g, z);
    if ResetRises(c, z.y.x, EnvOf(c, z.y, Input(c, g, z, junk, []))) then Reset(g, d)
    else if z.y.x.time.resolverRst then Hold(g, d)
    else d
  }

  /** The gate's flop is cleared by the reset, on its first edge and on its last. */
  ghost function TickRig<O(!new)>(c: Setup, g: Design<O>, z: Rig<O>, junk: nat): (r: Rig<O>)
    requires Fits(c, g, z) && Prepared(c, g)
    ensures Fits(c, g, r)
  {
    var d := After(c, g, z, junk);
    var n := Tick(c, z.y, Input(c, g, z, junk, d.chain));
    Rig(n,
        d.off,
        Memories.StepAll(z.mems, MemPins(g, z), g.specs),
        z.y.x.scan.clkGate && !z.y.x.time.resolverRst && !n.x.time.resolverRst)
  }

  // ---- what the wrapper's registers say about the edge --------------------------------------

  /** The phases of the reset window. */
  predicate Timed(t: TimeCtrl.Time) {
    && (t.phase == 0 || t.phase == 2 || t.phase == 3 || t.phase == 5 || t.phase == 6)
    && (t.stopped <==> t.phase != 0)
    && (t.scrubReq <==> t.phase == 3)
    && (t.resolverRst <==> t.phase == 2 || t.phase == 5 || t.phase == 6)
    && (t.phase == 2 || t.phase == 6 ==> t.memReq)
    && (t.phase == 0 ==> !t.memReq)
  }

  /** And what the scan controller may do in each. */
  predicate Sane(x: Core) {
    var t, s := x.time, x.scan;
    && Timed(t)
    && (t.resolverRst ==> !s.run && !s.lead)
    && (t.phase == 0 ==> !s.scrubDone)
    && (s.scrub ==> t.phase == 3 && (s.run || s.lead))
    && (s.run && s.scrub ==> s.cnt <= s.end && !s.scrubDone)
  }

  lemma InvIsSane(c: Setup, ps: seq<Plan>, y: Sys)
    requires Inv(c, ps, y)
    ensures Sane(y.x)
  {
  }

  /** How far a scrub is: it shifts K zeros, and restores the memories from its first shift on. */
  predicate Scrubbing(c: Setup, x: Core) {
    Alive.Lives(c, x) && (x.time.phase == 3 && x.time.memReq ==> x.scan.run && x.scan.scrub)
  }

  lemma ScrubbingStep(c: Setup, x: Core, e: Env)
    requires Legal(c) && Sane(x) && Scrubbing(c, x) && !e.memBad
    ensures Scrubbing(c, Next(c, x, e))
  {
    Alive.LivesOn(c, x, e);
  }

  /** The zeros shifted in so far. */
  ghost predicate Zeroed(c: Setup, y: Sys) {
    y.x.scan.run && y.x.scan.scrub ==> forall i :: 0 <= i < y.x.scan.cnt && i < |y.chain| ==> !y.chain[i]
  }

  lemma ZeroedStep(c: Setup, y: Sys, i: In)
    requires Sized(c, y) && |i.dut| == c.len && Sane(y.x) && Zeroed(c, y)
    requires y.x.scan.run ==> y.x.scan.scanEn
    ensures Zeroed(c, Tick(c, y, i))
  {
  }

  // ---- the edges, as the design sees them -----------------------------------------------------

  predicate Rises<O>(c: Setup, g: Design<O>, z: Rig<O>, junk: nat)
    requires Sized(c, z.y)
  {
    ResetRises(c, z.y.x, EnvOf(c, z.y, Input(c, g, z, junk, [])))
  }

  lemma RisesOnTheScrub<O>(c: Setup, g: Design<O>, z: Rig<O>, junk: nat)
    requires Sized(c, z.y) && Sane(z.y.x)
    ensures Rises(c, g, z, junk)
            <==> z.y.x.time.phase == 3 && (ScanCtrl.ScrubLast(z.y.x.scan) || z.y.x.scan.scrubDone)
  {
  }

  lemma TickDut<O(!new)>(c: Setup, g: Design<O>, z: Rig<O>, junk: nat)
    requires Fits(c, g, z) && Prepared(c, g)
    ensures DutOf(TickRig(c, g, z, junk))
            == if Rises(c, g, z, junk) then Reset(g, Edged(c, g, z))
               else if z.y.x.time.resolverRst then Hold(g, Edged(c, g, z))
               else Edged(c, g, z)
  {
  }

  /** An edge on which nothing shifts and no reset is about is one edge of the unwrapped design. */
  lemma FunctionalEdge<O(!new)>(c: Setup, g: Design<O>, z: Rig<O>, junk: nat)
    requires Fits(c, g, z) && Prepared(c, g) && Freeze.InStep(z.y.x.scan, z.gateQ)
    requires !z.y.x.scan.run && !z.y.x.time.resolverRst && !z.y.x.time.memReq && !Rises(c, g, z, junk)
    ensures WorldOf(TickRig(c, g, z, junk)) == WorldStep(g, WorldOf(z))
  {
    TickDut(c, g, z, junk);
    Memories.SeenRams(z.mems);
    Memories.SeenStepAll(z.mems, MemPins(g, z), g.specs);
  }

  /** A shift edge moves the chain and nothing else. */
  lemma ShiftEdge<O(!new)>(c: Setup, g: Design<O>, z: Rig<O>, junk: nat)
    requires Fits(c, g, z) && Prepared(c, g) && Freeze.InStep(z.y.x.scan, z.gateQ)
    requires z.y.x.scan.run && !z.y.x.time.resolverRst && !z.y.x.time.memReq && !Rises(c, g, z, junk)
    ensures var r := TickRig(c, g, z, junk);
            r.off == z.off && Memories.SeenAll(r.mems) == Memories.SeenAll(z.mems) && r.y.chain == Shifted(c, z.y)
  {
    TickDut(c, g, z, junk);
    Memories.SeenStepAll(z.mems, MemPins(g, z), g.specs);
  }

  lemma ResetIsStart<O>(g: Design<O>, d: Dut<O>, k: nat)
    requires |g.hasReset| == |g.resetVal| == |d.chain|
    requires forall i :: 0 <= i < |d.chain| && i < k ==> !d.chain[i]
    requires forall i :: k <= i < |d.chain| ==> g.hasReset[i]
    ensures Reset(g, d) == StartDut(g, |d.chain|)
  {
  }

  /** The edge that raises the reset leaves the start state, whatever the trial did. */
  lemma ResetEdge<O(!new)>(c: Setup, g: Design<O>, z: Rig<O>, junk: nat)
    requires Fits(c, g, z) && Prepared(c, g) && Freeze.InStep(z.y.x.scan, z.gateQ)
    requires Sane(z.y.x) && Scrubbing(c, z.y.x) && Zeroed(c, z.y) && Rises(c, g, z, junk)
    ensures DutOf(TickRig(c, g, z, junk)) == StartDut(g, c.len)
  {
    RisesOnTheScrub(c, g, z, junk);
    TickDut(c, g, z, junk);
    ResetIsStart(g, Edged(c, g, z), ScrubK(c));
  }

  /** While the reset is held the design stays at the start state; nothing but cells with a reset may
      be shifted meanwhile. */
  lemma HeldEdge<O(!new)>(c: Setup, g: Design<O>, z: Rig<O>, junk: nat)
    requires Fits(c, g, z) && Prepared(c, g) && z.y.x.time.resolverRst && DutOf(z) == StartDut(g, c.len)
    requires !Rises(c, g, z, junk) && (z.y.x.scan.scanEn ==> ScrubK(c) == 0)
    ensures DutOf(TickRig(c, g, z, junk)) == StartDut(g, c.len)
  {
    TickDut(c, g, z, junk);
    assert Edged(c, g, z).off == g.offReset;
  }

  /** A memory that is being restored is out of the design's reach. */
  predicate OutOfReach<O>(z: Rig<O>) { z.y.x.time.memReq ==> z.y.x.time.resolverRst || Frozen(z) }

  lemma ScrubIsOutOfReach<O>(c: Setup, z: Rig<O>)
    requires Freeze.InStep(z.y.x.scan, z.gateQ) && Sane(z.y.x) && Scrubbing(c, z.y.x)
    ensures OutOfReach(z)
  {
  }

  /** No edge writes into a memory that is being restored, so the memories stay restorable. */
  lemma MemoryEdge<O(!new)>(c: Setup, g: Design<O>, z: Rig<O>, junk: nat)
    requires Fits(c, g, z) && Prepared(c, g) && OutOfReach(z) && Memories.AllOk(z.mems, g.specs)
    ensures Memories.AllOk(TickRig(c, g, z, junk).mems, g.specs)
  {
    Memories.AllOkStep(z.mems, MemPins(g, z), g.specs);
  }

  predicate Releasing<O>(c: Setup, g: Design<O>, z: Rig<O>, junk: nat)
    requires Sized(c, z.y)
  {
    Executor.Releases(c.b, z.y.x, HostIn(c), EnvOf(c, z.y, Input(c, g, z, junk, [])))
  }

  /** Every release starts the next trial from the one start state. */
  lemma ReleaseEdge<O(!new)>(c: Setup, g: Design<O>, z: Rig<O>, junk: nat)
    requires Fits(c, g, z) && Prepared(c, g) && Timed(z.y.x.time) && Releasing(c, g, z, junk)
    requires DutOf(z) == StartDut(g, c.len) && (z.y.x.scan.scanEn ==> ScrubK(c) == 0)
    requires Memories.AllOk(z.mems, g.specs)
    ensures WorldOf(TickRig(c, g, z, junk)) == Start(g, c.len)
  {
    ReleaseIsDone(c, g, z, junk);
    HeldEdge(c, g, z, junk);
    Memories.AllRestored(z.mems, MemPins(g, z), g.specs);
  }

  lemma ReleaseIsDone<O(!new)>(c: Setup, g: Design<O>, z: Rig<O>, junk: nat)
    requires Fits(c, g, z) && Timed(z.y.x.time) && Releasing(c, g, z, junk)
    ensures z.y.x.time.memReq && Memories.AllDone(z.mems, true) && z.y.x.time.resolverRst && !Rises(c, g, z, junk)
  {
  }

  // ---- what the design has lived through --------------------------------------------------------

  function PlanNow(ps: seq<Plan>, y: Sys): Plan
    requires 1 <= y.trials <= |ps|
  {
    ps[y.trials - 1]
  }

  /** Functional edges from the release to the strike: the start pulse takes five edges from the
      counter match to the first shift. */
  function Strike(p: Plan): nat { p.cycle + 5 }

  /** The run the design is on after its trial's pass, or in a trial that has none. */
  ghost function Course<O(!new)>(c: Setup, g: Design<O>, ps: seq<Plan>, y: Sys): World<O>
    requires Prepared(c, g) && y.trials >= 1
  {
    if y.trials > |ps| then Golden(g, c.len, y.since)
    else var p := PlanNow(ps, y);
      Faulty(g, c.len, Strike(p), Targets(c, p),
             if y.since < Strike(p) + c.len then 0 else y.since - (Strike(p) + c.len))
  }

  /** Before the pass: the fault-free run, one edge per clock cycle. */
  ghost predicate LivedBefore<O(!new)>(c: Setup, g: Design<O>, ps: seq<Plan>, z: Rig<O>)
    requires Prepared(c, g)
  {
    1 <= z.y.trials <= |ps| && |z.y.shots| < z.y.trials ==> WorldOf(z) == Golden(g, c.len, z.y.since)
  }

  /** During the pass: everything off the chain waits at the strike. */
  ghost predicate LivedDuring<O(!new)>(c: Setup, g: Design<O>, ps: seq<Plan>, z: Rig<O>)
    requires Prepared(c, g)
  {
    1 <= z.y.trials <= |ps| && |z.y.shots| == z.y.trials && z.y.x.scan.run && !z.y.x.scan.scrub ==>
      var w := Golden(g, c.len, Strike(PlanNow(ps, z.y)));
      z.off == w.dut.off && Memories.SeenAll(z.mems) == w.mems && z.y.shots[|z.y.shots| - 1].before == w.dut.chain
  }

  /** After the pass: the struck run, one edge per clock cycle, the L shift edges left out. */
  ghost predicate LivedAfter<O(!new)>(c: Setup, g: Design<O>, ps: seq<Plan>, z: Rig<O>)
    requires Prepared(c, g)
  {
    z.y.trials >= 1 && (z.y.trials <= |ps| ==> |z.y.shots| == z.y.trials)
    && !z.y.x.scan.run && !z.y.x.time.resolverRst ==>
      WorldOf(z) == Course(c, g, ps, z.y)
  }

  ghost predicate Kept<O(!new)>(c: Setup, g: Design<O>, z: Rig<O>) {
    && Fits(c, g, z) && Prepared(c, g) && Freeze.InStep(z.y.x.scan, z.gateQ)
    && Scrubbing(c, z.y.x) && Zeroed(c, z.y)
    && Memories.AllOk(z.mems, g.specs)
    && (z.y.x.time.resolverRst ==> DutOf(z) == StartDut(g, c.len))
  }

  lemma KeptStep<O(!new)>(c: Setup, g: Design<O>, z: Rig<O>, junk: nat)
    requires Legal(c) && Kept(c, g, z) && Sane(z.y.x) && Sane(TickRig(c, g, z, junk).y.x)
    ensures Kept(c, g, TickRig(c, g, z, junk))
  {
    var r := TickRig(c, g, z, junk);
    var i := Input(c, g, z, junk, After(c, g, z, junk).chain);
    Memories.AllOkFacts(z.mems, g.specs);
    ScrubbingStep(c, z.y.x, EnvOf(c, z.y, i));
    ZeroedStep(c, z.y, i);
    Freeze.InStepStep(z.y.x.scan, z.gateQ, ScanInput(c.b, |c.table|, z.y.x, HostIn(c), EnvOf(c, z.y, i)), c.b.scrubLen);
    ScrubIsOutOfReach(c, z);
    MemoryEdge(c, g, z, junk);
    KeptDut(c, g, z, junk);
  }

  lemma KeptDut<O(!new)>(c: Setup, g: Design<O>, z: Rig<O>, junk: nat)
    requires Kept(c, g, z) && Sane(z.y.x)
    ensures var r := TickRig(c, g, z, junk); r.y.x.time.resolverRst ==> DutOf(r) == StartDut(g, c.len)
  {
    if Rises(c, g, z, junk) { ResetEdge(c, g, z, junk); }
    else if z.y.x.time.resolverRst { HeldEdge(c, g, z, junk); }
  }

  // ---- stage by stage ---------------------------------------------------------------------------

  /** Before the pass every edge is functional, and the edge that opens the pass is number
      `Strike` of the trial. */
  lemma BeforeBooks(c: Setup, ps: seq<Plan>, y: Sys, i: In)
    requires Inv(c, ps, y) && |i.dut| == c.len && 1 <= y.trials <= |ps| && |y.shots| < y.trials
    requires PlanNow(ps, y).cycle >= 1
    ensures !y.x.scan.run && !y.x.time.resolverRst && !y.x.time.memReq && !y.x.scan.scrubDone
    ensures var r := Tick(c, y, i);
            && r.trials == y.trials && r.since == y.since + 1
            && (|| r.shots == y.shots
                || (&& |r.shots| == y.trials && r.x.scan.run && r.since == Strike(PlanNow(ps, y))
                    && r.shots[|r.shots| - 1].before == r.chain))
  {
  }

  lemma BeforeStep<O(!new)>(c: Setup, g: Design<O>, ps: seq<Plan>, z: Rig<O>, junk: nat)
    requires Inv(c, ps, z.y) && Kept(c, g, z) && Sane(z.y.x) && LivedBefore(c, g, ps, z)
    requires 1 <= z.y.trials <= |ps| && |z.y.shots| < z.y.trials && PlanNow(ps, z.y).cycle >= 1
    ensures var r := TickRig(c, g, z, junk);
            LivedBefore(c, g, ps, r) && LivedDuring(c, g, ps, r) && LivedAfter(c, g, ps, r)
  {
    var r := TickRig(c, g, z, junk);
    BeforeBooks(c, ps, z.y, Input(c, g, z, junk, After(c, g, z, junk).chain));
    RisesOnTheScrub(c, g, z, junk);
    FunctionalEdge(c, g, z, junk);
    assert WorldOf(r) == Golden(g, c.len, r.y.since);
  }

  lemma DuringBooks(c: Setup, ps: seq<Plan>, y: Sys, i: In)
    requires Planned(c, ps) && Inv(c, ps, y) && |i.dut| == c.len && 1 <= y.trials <= |ps| && |y.shots| == y.trials
    requires y.x.scan.run && !y.x.scan.scrub
    ensures !y.x.time.resolverRst && !y.x.time.memReq && !y.x.scan.scrubDone
    ensures var r, p, k := Tick(c, y, i), PlanNow(ps, y), |y.shots| - 1;
            && r.trials == y.trials && |r.shots| == |y.shots| && r.shots[k].before == y.shots[k].before
            && (!r.x.scan.run ==> && r.since == Strike(p) + c.len
                                  && r.chain == Inverted(y.shots[k].before, Targets(c, p)))
  {
    var p := PlanNow(ps, y);
    assert Shifting(c, p, y);
    NotReleasing(c, p, y.x, EnvOf(c, y, i));
    if y.x.scan.cnt == c.len - 1 {
      EndChain(c, p, y, i);
      EndBooks(c, p, y, i);
    }
  }

  lemma DuringStep<O(!new)>(c: Setup, g: Design<O>, ps: seq<Plan>, z: Rig<O>, junk: nat)
    requires Planned(c, ps) && Inv(c, ps, z.y) && Kept(c, g, z) && Sane(z.y.x) && LivedDuring(c, g, ps, z)
    requires 1 <= z.y.trials <= |ps| && |z.y.shots| == z.y.trials && z.y.x.scan.run && !z.y.x.scan.scrub
    ensures var r := TickRig(c, g, z, junk);
            LivedBefore(c, g, ps, r) && LivedDuring(c, g, ps, r) && LivedAfter(c, g, ps, r)
  {
    DuringBooks(c, ps, z.y, Input(c, g, z, junk, After(c, g, z, junk).chain));
    RisesOnTheScrub(c, g, z, junk);
    ShiftEdge(c, g, z, junk);
    var r, p := TickRig(c, g, z, junk), PlanNow(ps, z.y);
    var w := Golden(g, c.len, Strike(p));
    if !r.y.x.scan.run {
      assert WorldOf(r) == Struck(w, Targets(c, p));
      assert Struck(w, Targets(c, p)) == Faulty(g, c.len, Strike(p), Targets(c, p), 0);
    }
  }

  /** No pass is under way and none starts before the next release. */
  ghost predicate Quiet(c: Setup, ps: seq<Plan>, y: Sys) {
    && (1 <= y.trials <= |ps| ==> |y.shots| == y.trials && y.since >= Strike(PlanNow(ps, y)) + c.len)
    && (y.x.scan.run ==> y.x.scan.scrub) && !ScanCtrl.Arm1(y.x.scan)
    && |y.shots| <= y.trials && |y.shots| <= |ps|
  }

  lemma InvIsQuiet(c: Setup, ps: seq<Plan>, y: Sys)
    requires Inv(c, ps, y)
    requires 1 <= y.trials <= |ps| ==> |y.shots| == y.trials && (y.x.scan.run ==> y.x.scan.scrub)
    ensures Quiet(c, ps, y)
  {
  }

  lemma QuietBooks(c: Setup, ps: seq<Plan>, y: Sys, i: In)
    requires Sized(c, y) && |i.dut| == c.len && Quiet(c, ps, y)
    ensures var r, rel := Tick(c, y, i), Executor.Releases(c.b, y.x, HostIn(c), EnvOf(c, y, i));
            && r.shots == y.shots && r.trials == (if rel then y.trials + 1 else y.trials)
            && r.since == (if rel then 0 else y.since + 1)
  {
  }

  /** The design only runs on if it ran before and the reset does not come. */
  lemma RunsOn(c: Setup, x: Core, e: Env)
    requires Sane(x) && Scrubbing(c, x) && (x.scan.run ==> x.scan.scrub)
    requires !Executor.Releases(c.b, x, HostIn(c), e)
    requires !Next(c, x, e).scan.run && !Next(c, x, e).time.resolverRst
    ensures !x.scan.run && !x.time.resolverRst && !x.time.memReq && !ResetRises(c, x, e)
  {
  }

  lemma CourseStep<O(!new)>(c: Setup, g: Design<O>, ps: seq<Plan>, y: Sys, r: Sys)
    requires Prepared(c, g) && Quiet(c, ps, y) && y.trials >= 1 && r.trials == y.trials && r.since == y.since + 1
    ensures Course(c, g, ps, r) == WorldStep(g, Course(c, g, ps, y))
  {
    if y.trials <= |ps| {
      var p := PlanNow(ps, y);
      var m := y.since - (Strike(p) + c.len);
      assert Faulty(g, c.len, Strike(p), Targets(c, p), m + 1)
          == WorldStep(g, Faulty(g, c.len, Strike(p), Targets(c, p), m));
    }
  }

  lemma QuietStep<O(!new)>(c: Setup, g: Design<O>, ps: seq<Plan>, z: Rig<O>, junk: nat)
    requires Quiet(c, ps, z.y) && Kept(c, g, z) && Sane(z.y.x) && LivedAfter(c, g, ps, z) && !Releasing(c, g, z, junk)
    requires var r := TickRig(c, g, z, junk); r.y.x.scan.run ==> r.y.x.scan.scrub
    ensures var r := TickRig(c, g, z, junk);
            LivedBefore(c, g, ps, r) && LivedDuring(c, g, ps, r) && LivedAfter(c, g, ps, r)
  {
    var r := TickRig(c, g, z, junk);
    var i := Input(c, g, z, junk, After(c, g, z, junk).chain);
    QuietBooks(c, ps, z.y, i);
    if r.y.trials >= 1 && !r.y.x.scan.run && !r.y.x.time.resolverRst {
      RunsOn(c, z.y.x, EnvOf(c, z.y, i));
      FunctionalEdge(c, g, z, junk);
      CourseStep(c, g, ps, z.y, r.y);
    }
  }

  lemma ReleaseStep<O(!new)>(c: Setup, g: Design<O>, ps: seq<Plan>, z: Rig<O>, junk: nat)
    requires Quiet(c, ps, z.y) && Kept(c, g, z) && Sane(z.y.x) && Releasing(c, g, z, junk)
    ensures var r := TickRig(c, g, z, junk);
            LivedBefore(c, g, ps, r) && LivedDuring(c, g, ps, r) && LivedAfter(c, g, ps, r)
  {
    QuietBooks(c, ps, z.y, Input(c, g, z, junk, After(c, g, z, junk).chain));
    ReleaseEdge(c, g, z, junk);
  }

  /** The first state of a trial is the start state. */
  ghost predicate StartsAtStart<O(!new)>(c: Setup, g: Design<O>, z: Rig<O>)
    requires Prepared(c, g)
  {
    z.y.trials >= 1 && z.y.since == 0 ==> WorldOf(z) == Start(g, c.len)
  }

  ghost predicate Lived<O(!new)>(c: Setup, g: Design<O>, ps: seq<Plan>, z: Rig<O>)
    requires Prepared(c, g)
  {
    LivedBefore(c, g, ps, z) && LivedDuring(c, g, ps, z) && LivedAfter(c, g, ps, z)
  }

  lemma StaysScrub(s: ScanCtrl.Scan, i: ScanCtrl.ScanIn, scrubLen: int)
    requires (s.run ==> s.scrub) && !ScanCtrl.Arm1(s)
    ensures var n := ScanCtrl.Step(s, i, scrubLen); n.run ==> n.scrub
  {
  }

  lemma StartStep<O(!new)>(c: Setup, g: Design<O>, z: Rig<O>, junk: nat)
    requires Kept(c, g, z) && Sane(z.y.x)
    ensures StartsAtStart(c, g, TickRig(c, g, z, junk))
  {
    if Releasing(c, g, z, junk) { ReleaseEdge(c, g, z, junk); }
  }

  lemma LivedStep<O(!new)>(c: Setup, g: Design<O>, ps: seq<Plan>, z: Rig<O>, junk: nat)
    requires Planned(c, ps) && Inv(c, ps, z.y) && Kept(c, g, z) && Lived(c, g, ps, z)
    ensures Lived(c, g, ps, TickRig(c, g, z, junk))
  {
    InvIsSane(c, ps, z.y);
    if 1 <= z.y.trials <= |ps| && |z.y.shots| < z.y.trials {
      BeforeStep(c, g, ps, z, junk);
    } else if 1 <= z.y.trials <= |ps| && z.y.x.scan.run && !z.y.x.scan.scrub {
      DuringStep(c, g, ps, z, junk);
    } else {
      InvIsQuiet(c, ps, z.y);
      if Releasing(c, g, z, junk) {
        ReleaseStep(c, g, ps, z, junk);
      } else {
        var e := EnvOf(c, z.y, Input(c, g, z, junk, After(c, g, z, junk).chain));
        StaysScrub(z.y.x.scan, ScanInput(c.b, |c.table|, z.y.x, HostIn(c), e), c.b.scrubLen);
        QuietStep(c, g, ps, z, junk);
      }
    }
  }

  // ---- every run --------------------------------------------------------------------------------

  /** The undo logs have room for the fault-free run up to every start pulse; a fill memory has no
      log and never asks for an end. */
  ghost predicate Roomy<O(!new)>(c: Setup, g: Design<O>, ps: seq<Plan>)
    requires Prepared(c, g)
  {
    forall k :: 0 <= k < |ps| ==> !Asks(Golden(g, c.len, ps[k].cycle + 2))
  }

  /** Some memory asks for an end of the trial. */
  ghost predicate Asks<O>(w: World<O>) { Memories.AnyAborts(w.mems) }

  /** A full log stays full until a restore. */
  lemma FullStep<O>(g: Design<O>, w: World<O>)
    requires Furnished(g, w.mems) && Asks(w)
    ensures Asks(WorldStep(g, w))
  {
    Memories.AbortsOn(w.mems, PinsIn(g, w.dut, Memories.Rams(w.mems), true, false, false), g.specs);
  }

  lemma {:induction false} FullSticks<O>(g: Design<O>, w: World<O>, m: nat, n: nat)
    requires Furnished(g, w.mems) && m <= n && Asks(Free(g, w, m))
    ensures Asks(Free(g, w, n))
    decreases n
  {
    if m < n {
      FullSticks(g, w, m, n - 1);
      FullStep(g, Free(g, w, n - 1));
    }
  }

  /** Until the start pulse has gone by the trial is still before its pass. */
  lemma EarlyIsBefore(c: Setup, ps: seq<Plan>, y: Sys)
    requires Inv(c, ps, y) && 1 <= y.trials <= |ps| && y.since < PlanNow(ps, y).cycle + 3
    ensures |y.shots| < y.trials
  {
  }

  lemma AsksIsGolden<O(!new)>(c: Setup, g: Design<O>, ps: seq<Plan>, z: Rig<O>)
    requires Prepared(c, g) && LivedBefore(c, g, ps, z)
    requires 1 <= z.y.trials <= |ps| && |z.y.shots| < z.y.trials && Memories.AnyAborts(z.mems)
    ensures Asks(Golden(g, c.len, z.y.since))
  {
    Memories.SeenRams(z.mems);
  }

  lemma NoAskBefore<O(!new)>(c: Setup, g: Design<O>, ps: seq<Plan>, k: nat, n: nat)
    requires Prepared(c, g) && Roomy(c, g, ps) && k < |ps| && n < ps[k].cycle + 3
    ensures !Asks(Golden(g, c.len, n))
  {
    if Asks(Golden(g, c.len, n)) { FullSticks(g, Start(g, c.len), n, ps[k].cycle + 2); }
  }

  lemma NotAborted<O(!new)>(c: Setup, g: Design<O>, ps: seq<Plan>, z: Rig<O>, junk: nat, chain: seq<bool>)
    requires Inv(c, ps, z.y) && Prepared(c, g) && LivedBefore(c, g, ps, z) && Roomy(c, g, ps)
    ensures NoEarlyAbort(ps, z.y, Input(c, g, z, junk, chain))
  {
    if 1 <= z.y.trials <= |ps| && z.y.since < PlanNow(ps, z.y).cycle + 3 && Memories.AnyAborts(z.mems) {
      EarlyIsBefore(c, ps, z.y);
      AsksIsGolden(c, g, ps, z);
      NoAskBefore(c, g, ps, z.y.trials - 1, z.y.since);
    }
  }

  ghost predicate RigInv<O(!new)>(c: Setup, g: Design<O>, ps: seq<Plan>, z: Rig<O>) {
    Inv(c, ps, z.y) && Kept(c, g, z) && Lived(c, g, ps, z) && StartsAtStart(c, g, z)
  }

  lemma {:induction false} RigStep<O(!new)>(c: Setup, g: Design<O>, ps: seq<Plan>, z: Rig<O>, junk: nat)
    requires Planned(c, ps) && RigInv(c, g, ps, z) && Roomy(c, g, ps)
    ensures RigInv(c, g, ps, TickRig(c, g, z, junk))
  {
    var d := After(c, g, z, junk);
    NotAborted(c, g, ps, z, junk, d.chain);
    InvStep(c, ps, z.y, Input(c, g, z, junk, d.chain));
    InvIsSane(c, ps, z.y);
    InvIsSane(c, ps, TickRig(c, g, z, junk).y);
    KeptStep(c, g, z, junk);
    LivedStep(c, g, ps, z, junk);
    StartStep(c, g, z, junk);
  }

  /** A design that keeps its state and writes nothing, every cell with a reset to 0. */
  function Inert(len: nat, specs: seq<Memories.Spec>): Design<bool> {
    Design((d, m) => d, (d, m) => [], (d, m) => d, seq(len, _ => true), seq(len, _ => false), false, specs)
  }

  lemma MergeNothing(w: Word)
    ensures Merge(w, [], []) == w
  {
  }

  lemma InertStep(len: nat, specs: seq<Memories.Spec>)
    requires Memories.AllBuilt(specs)
    ensures WorldStep(Inert(len, specs), Start(Inert(len, specs), len)) == Start(Inert(len, specs), len)
  {
    var g, w := Inert(len, specs), Start(Inert(len, specs), len);
    forall k | 0 <= k < |specs| ensures WorldStep(g, w).mems[k] == Memories.StartOf(specs[k]) {
      var s := specs[k];
      var i := PinsAt(g, w.dut, Memories.Rams(w.mems), k, true, false, false);
      MergeNothing(Memories.Ram(Memories.StartOf(s))[i.a]);
      assert Memories.Step(Memories.StartOf(s), i, s) == Memories.StartOf(s);
    }
  }

  lemma {:induction false} InertHolds(len: nat, specs: seq<Memories.Spec>, n: nat)
    requires Memories.AllBuilt(specs)
    ensures Golden(Inert(len, specs), len, n) == Start(Inert(len, specs), len)
  {
    if n > 0 {
      InertHolds(len, specs, n - 1);
      InertStep(len, specs);
    }
  }

  /** The conditions on the design can be met, with any memories. */
  lemma {:induction false} InertIsPrepared(c: Setup, ps: seq<Plan>, specs: seq<Memories.Spec>)
    requires Memories.AllBuilt(specs)
    ensures var g := Inert(c.len, specs); Prepared(c, g) && Roomy(c, g, ps)
  {
    forall k | 0 <= k < |ps| { InertHolds(c.len, specs, ps[k].cycle + 2); }
  }

  /** Armed between trials, whatever the design and its memories did before: the controllers idle,
      every memory restorable. */
  ghost predicate Powered<O(!new)>(c: Setup, g: Design<O>, ps: seq<Plan>, z: Rig<O>) {
    && Fits(c, g, z) && Prepared(c, g) && Armed(c, ps, z.y) && z.y.x.time.phase == 0
    && TimeCtrl.WindowInv(z.y.x.time, TimeParams(c.b)) && !z.gateQ && Memories.AllOk(z.mems, g.specs)
  }

  ghost function RunRig<O(!new)>(c: Setup, g: Design<O>, z: Rig<O>, junk: seq<nat>): (r: Rig<O>)
    requires Fits(c, g, z) && Prepared(c, g)
    ensures Fits(c, g, r)
  {
    if junk == [] then z else TickRig(c, g, RunRig(c, g, z, junk[..|junk| - 1]), junk[|junk| - 1])
  }

  lemma {:induction false} RigAlways<O(!new)>(c: Setup, g: Design<O>, ps: seq<Plan>, z: Rig<O>, junk: seq<nat>)
    requires Planned(c, ps) && Powered(c, g, ps, z) && Roomy(c, g, ps)
    ensures RigInv(c, g, ps, RunRig(c, g, z, junk))
  {
    if junk != [] {
      RigAlways(c, g, ps, z, junk[..|junk| - 1]);
      RigStep(c, g, ps, RunRig(c, g, z, junk[..|junk| - 1]), junk[|junk| - 1]);
    }
  }

  ghost predicate Transparent<O(!new)>(c: Setup, g: Design<O>, ps: seq<Plan>, r: Rig<O>)
    requires Prepared(c, g)
  {
    && (Freeze.Functional(r.y.x.scan, r.gateQ) <==> !Freeze.PureShift(r.y.x.scan, r.gateQ))
    && StartsAtStart(c, g, r)
    && LivedBefore(c, g, ps, r) && LivedDuring(c, g, ps, r) && LivedAfter(c, g, ps, r)
    && Replayed(c, ps, r.y) && !r.y.x.time.memHalt
  }

  lemma RigInvMeans<O(!new)>(c: Setup, g: Design<O>, ps: seq<Plan>, r: Rig<O>)
    requires RigInv(c, g, ps, r)
    ensures Transparent(c, g, ps, r)
  {
  }

  /** For every design, memory, campaign and run of any length: every edge is a full functional
      edge or a pure shift; every trial starts from the one start state whatever went before;
      until its pass it is the unwrapped fault-free run, one edge per clock cycle; after its pass
      it is the unwrapped run struck once by exactly the trial's targets, with the L shift edges
      left out; and the passes made are the plan's. No memory ever halts the campaign. */
  lemma {:induction false} InjectionIsTransparent<O(!new)>(
    c: Setup, g: Design<O>, ps: seq<Plan>, z: Rig<O>, junk: seq<nat>)
    requires Planned(c, ps) && Powered(c, g, ps, z) && Roomy(c, g, ps)
    ensures Transparent(c, g, ps, RunRig(c, g, z, junk))
  {
    RigAlways(c, g, ps, z, junk);
    RigInvMeans(c, g, ps, RunRig(c, g, z, junk));
  }
}
