/** What holds in every run, whatever the table says, whether a campaign is feasible or not and whenever
    a memory ends a trial: every trial starts from the start state, and its design lives through its own
    unwrapped run, struck at most once. */
module Isolation {
  import opened Executor
  import opened Trial
  import opened Campaign
  import opened Bench
  import Alive
  import Freeze
  import MemRestore
  import Memories
  import ScanCtrl
  import TimeCtrl

  // ---- the controllers -----------------------------------------------------------------------------

  /** A start pulse of the stopped trial has gone by before the reset does. */
  predicate Drained(c: Setup, x: Core) {
    var t, s := x.time, x.scan;
    && (s.scrub && s.lead ==> !t.scanStart)
    && (s.scrub && s.run ==> !t.scanStart && !x.s1)
    && (t.phase == 3 && s.scrubDone ==> !t.scanStart && !s.run && !s.lead)
    && (t.resolverRst ==> !t.scanStart && !x.s1)
    && (t.resolverRst && ScrubK(c) >= 1 ==> !x.s2 && !s.run && !s.lead)
    && (t.phase == 2 ==> !x.s2)
  }

  predicate Orderly(c: Setup, x: Core) {
    var t, s := x.time, x.scan;
    && Timed(t) && Alive.Lives(c, x) && Drained(c, x)
    && (t.phase == 0 || t.phase == 2 ==> !s.scrubDone)
    && (s.run && s.scrub ==> !s.scrubDone)
    && (t.phase == 3 && t.memReq ==> s.run && s.scrub)
    && (ScrubK(c) == 0 ==> !s.scrub)
  }

  lemma TimedStep(c: Setup, x: Core, e: Env)
    requires Timed(x.time)
    ensures Timed(Next(c, x, e).time)
  {
  }

  lemma DrainedStep(c: Setup, x: Core, e: Env)
    requires Legal(c) && Orderly(c, x) && !e.memBad
    ensures Drained(c, Next(c, x, e))
  {
  }

  /** With any table, any abort and any chain. */
  lemma OrderlyStep(c: Setup, x: Core, e: Env)
    requires Legal(c) && Orderly(c, x) && !e.memBad
    ensures Orderly(c, Next(c, x, e))
  {
    TimedStep(c, x, e);
    Alive.LivesOn(c, x, e);
    DrainedStep(c, x, e);
  }

  lemma OrderlyIsSane(c: Setup, x: Core)
    requires Orderly(c, x) && ScrubK(c) >= 1
    ensures Sane(x) && Scrubbing(c, x)
  {
  }

  // ---- the wrapped design ---------------------------------------------------------------------------

  /** Whatever has happened before. */
  ghost predicate Safe<O(!new)>(c: Setup, g: Design<O>, z: Rig<O>) {
    && Bench.Fits(c, g, z) && Prepared(c, g) && Orderly(c, z.y.x) && Freeze.Wired(z.y.x.scan, z.gateQ)
    && TimeCtrl.WindowInv(z.y.x.time, TimeParams(c.b)) && Memories.AllOk(z.mems, g.specs)
    && (z.y.x.time.resolverRst ==> DutOf(z) == StartDut(g, c.len))
    && (ScrubK(c) >= 1 ==> Freeze.InStep(z.y.x.scan, z.gateQ) && Zeroed(c, z.y))
  }

  lemma SafeIsKept<O(!new)>(c: Setup, g: Design<O>, z: Rig<O>)
    requires Safe(c, g, z) && ScrubK(c) >= 1
    ensures Kept(c, g, z) && Sane(z.y.x)
  {
    OrderlyIsSane(c, z.y.x);
  }

  /** With nothing to scrub every cell has a reset. */
  lemma AllReset<O(!new)>(c: Setup, g: Design<O>, d: Dut<O>)
    requires Legal(c) && Prepared(c, g) && ScrubK(c) == 0 && |d.chain| == c.len
    ensures Reset(g, d) == StartDut(g, c.len)
  {
    ResetIsStart(g, d, 0);
  }

  lemma SafeDut<O(!new)>(c: Setup, g: Design<O>, z: Rig<O>, junk: nat)
    requires Legal(c) && Safe(c, g, z)
    ensures var r := TickRig(c, g, z, junk); r.y.x.time.resolverRst ==> DutOf(r) == StartDut(g, c.len)
  {
    if ScrubK(c) >= 1 {
      SafeIsKept(c, g, z);
      KeptDut(c, g, z, junk);
    } else {
      TickDut(c, g, z, junk);
      if Rises(c, g, z, junk) { AllReset(c, g, Edged(c, g, z)); }
      else if z.y.x.time.resolverRst { HeldEdge(c, g, z, junk); }
    }
  }

  lemma SafeReach<O(!new)>(c: Setup, g: Design<O>, z: Rig<O>)
    requires Legal(c) && Safe(c, g, z)
    ensures OutOfReach(z)
  {
    if ScrubK(c) >= 1 {
      SafeIsKept(c, g, z);
      ScrubIsOutOfReach(c, z);
    }
  }

  /** Every edge keeps it. */
  lemma SafeStep<O(!new)>(c: Setup, g: Design<O>, z: Rig<O>, junk: nat)
    requires Legal(c) && Safe(c, g, z)
    ensures Safe(c, g, TickRig(c, g, z, junk))
  {
    var r := TickRig(c, g, z, junk);
    var i := Input(c, g, z, junk, After(c, g, z, junk).chain);
    Memories.AllOkFacts(z.mems, g.specs);
    TickCore(c, z.y, i);
    OrderlyStep(c, z.y.x, EnvOf(c, z.y, i));
    TimeCtrl.WindowInvStep(z.y.x.time, TimeParams(c.b), TimeInput(z.y.x, HostIn(c), EnvOf(c, z.y, i)));
    Freeze.WiredStep(z.y.x.scan, z.gateQ, ScanInput(c.b, |c.table|, z.y.x, HostIn(c), EnvOf(c, z.y, i)), c.b.scrubLen,
                     z.y.x.time.resolverRst || r.y.x.time.resolverRst);
    SafeReach(c, g, z);
    MemoryEdge(c, g, z, junk);
    SafeDut(c, g, z, junk);
    if ScrubK(c) >= 1 {
      SafeIsKept(c, g, z);
      OrderlyIsSane(c, r.y.x);
      KeptStep(c, g, z, junk);
    }
  }

  lemma SafeRelease<O(!new)>(c: Setup, g: Design<O>, z: Rig<O>, junk: nat)
    requires Legal(c) && Safe(c, g, z) && Releasing(c, g, z, junk)
    ensures WorldOf(TickRig(c, g, z, junk)) == Start(g, c.len)
  {
    ReleaseEdge(c, g, z, junk);
  }

  lemma StartsOn<O(!new)>(c: Setup, g: Design<O>, z: Rig<O>, junk: nat)
    requires Legal(c) && Safe(c, g, z)
    ensures StartsAtStart(c, g, TickRig(c, g, z, junk))
  {
    if Releasing(c, g, z, junk) { SafeRelease(c, g, z, junk); }
  }

  lemma {:induction false} SafeRuns<O(!new)>(c: Setup, g: Design<O>, z: Rig<O>, junk: seq<nat>)
    requires Legal(c) && Safe(c, g, z)
    ensures Safe(c, g, RunRig(c, g, z, junk))
  {
    if junk != [] {
      SafeRuns(c, g, z, junk[..|junk| - 1]);
      SafeStep(c, g, RunRig(c, g, z, junk[..|junk| - 1]), junk[|junk| - 1]);
    }
  }

  lemma SafeAlways<O(!new)>(c: Setup, g: Design<O>, z: Rig<O>, junk: seq<nat>)
    requires Legal(c) && Safe(c, g, z) && z.y.trials == 0
    ensures Safe(c, g, RunRig(c, g, z, junk)) && StartsAtStart(c, g, RunRig(c, g, z, junk))
  {
    SafeRuns(c, g, z, junk);
    if junk != [] {
      SafeRuns(c, g, z, junk[..|junk| - 1]);
      StartsOn(c, g, RunRig(c, g, z, junk[..|junk| - 1]), junk[|junk| - 1]);
    }
  }

  // ---- the edges ----------------------------------------------------------------------------------------

  /** The release has found a pass under way. */
  predicate Overruns(y: Sys) { y.trials >= 1 && y.since == 0 && y.x.scan.run }

  lemma GateAfter<O(!new)>(c: Setup, g: Design<O>, z: Rig<O>, junk: nat)
    requires Legal(c) && Safe(c, g, z)
    ensures var r := TickRig(c, g, z, junk);
            !r.y.x.time.resolverRst && r.y.x.scan.run ==> (r.gateQ <==> !Releasing(c, g, z, junk))
  {
    var r := TickRig(c, g, z, junk);
    var i := Input(c, g, z, junk, After(c, g, z, junk).chain);
    Freeze.WiredStep(z.y.x.scan, z.gateQ, ScanInput(c.b, |c.table|, z.y.x, HostIn(c), EnvOf(c, z.y, i)), c.b.scrubLen,
                     z.y.x.time.resolverRst || r.y.x.time.resolverRst);
    ResetEnds(c, z.y.x, EnvOf(c, z.y, i));
  }

  lemma ResetEnds(c: Setup, x: Core, e: Env)
    requires Timed(x.time)
    ensures x.time.resolverRst ==> (Executor.Releases(c.b, x, HostIn(c), e) <==> !Next(c, x, e).time.resolverRst)
    ensures Executor.Releases(c.b, x, HostIn(c), e) ==> x.time.resolverRst
  {
  }

  /** Outside the reset an edge is a full functional edge or a pure shift, unless it is the first of a
      trial whose release found a pass under way; that one is split. */
  lemma EdgeIff<O(!new)>(c: Setup, g: Design<O>, z: Rig<O>, junk: nat)
    requires Legal(c) && Safe(c, g, z)
    ensures var r := TickRig(c, g, z, junk); var s := r.y.x.scan;
            !r.y.x.time.resolverRst ==>
              && !(Freeze.Functional(s, r.gateQ) && Freeze.PureShift(s, r.gateQ))
              && (Freeze.Functional(s, r.gateQ) || Freeze.PureShift(s, r.gateQ) <==> !Overruns(r.y))
  {
    var r := TickRig(c, g, z, junk);
    SafeStep(c, g, z, junk);
    GateAfter(c, g, z, junk);
    Freeze.OneOrTheOther(r.y.x.scan, r.gateQ);
  }

  /** The wrapper's test mode is up exactly while the chain shifts outside the reset, in a pass and in a
      scrub. */
  lemma TestModeIff<O(!new)>(c: Setup, g: Design<O>, z: Rig<O>)
    requires Safe(c, g, z)
    ensures TestMode(z.y.x) <==> z.y.x.scan.scanEn && !z.y.x.time.resolverRst
  {
  }

  /** A trial does not outlast a full log: the next edge stops it, with the scrub requested and the flag
      telling the host why. */
  lemma FullLogEndsTrial<O(!new)>(c: Setup, g: Design<O>, z: Rig<O>, junk: nat)
    requires Legal(c) && Safe(c, g, z) && !z.y.x.time.stopped
    requires exists k :: 0 <= k < |z.mems| && z.mems[k].UndoMem? && z.mems[k].u.full
    ensures var t := TickRig(c, g, z, junk).y.x.time;
            t.stopped && t.phase == 3 && t.scrubReq && !t.resolverRst && t.memAbortLast
  {
    var k :| 0 <= k < |z.mems| && z.mems[k].UndoMem? && z.mems[k].u.full;
    assert Memories.Aborts(z.mems[k]);
  }

  /** The edge behind a stop does not end the window. */
  lemma StopsForGood(c: Setup, x: Core, e: Env, next: Env)
    requires !x.time.stopped && Next(c, x, e).time.stopped
    ensures Next(c, Next(c, x, e), next).time.stopped
  {
  }

  /** The design drives a write onto memory k that changes an enabled lane of the word it goes to. */
  ghost predicate WritesLane<O>(g: Design<O>, z: Rig<O>, k: nat, lane: nat) {
    var ps := g.pins(DutOf(z), Memories.Rams(z.mems));
    && k < |ps| && k < |z.mems| && z.mems[k].UndoMem? && ps[k].a < |z.mems[k].u.ram|
    && lane < |z.mems[k].u.ram[ps[k].a]| && lane < |ps[k].we| && lane < |ps[k].d|
    && ps[k].we[lane] && ps[k].d[lane] != z.mems[k].u.ram[ps[k].a][lane]
  }

  /** So a write that finds its log full changes nothing, and its trial ends with the edge behind it. */
  lemma RefusedWriteEndsTrial<O(!new)>(c: Setup, g: Design<O>, z: Rig<O>, junk: nat, next: nat, k: nat, lane: nat)
    requires Legal(c) && Safe(c, g, z) && !z.y.x.time.stopped && !Frozen(z)
    requires WritesLane(g, z, k, lane) && |z.mems[k].u.log| == g.specs[k].depth
    ensures var r := TickRig(c, g, z, junk);
            && r.mems[k].UndoMem? && r.mems[k].u.ram == z.mems[k].u.ram && r.mems[k].u.log == z.mems[k].u.log
            && r.mems[k].u.full && Legal(c) && Safe(c, g, r) && TickRig(c, g, r, next).y.x.time.stopped
            && (!r.y.x.time.stopped ==> TickRig(c, g, r, next).y.x.time.memAbortLast)
  {
    var r, pins := TickRig(c, g, z, junk), MemPins(g, z);
    assert r.mems[k] == Memories.Step(z.mems[k], pins[k], g.specs[k]);
    MemRestore.DutWriteLogs(z.mems[k].u, pins[k], g.specs[k].depth);
    SafeStep(c, g, z, junk);
    if r.y.x.time.stopped {
      var d, d' := After(c, g, z, junk).chain, After(c, g, r, next).chain;
      StopsForGood(c, z.y.x, EnvOf(c, z.y, Input(c, g, z, junk, d)), EnvOf(c, r.y, Input(c, g, r, next, d')));
    } else {
      FullLogEndsTrial(c, g, r, next);
    }
  }

  /** With cells to scrub no release finds a pass under way. */
  lemma ScrubNeverOverruns<O(!new)>(c: Setup, g: Design<O>, z: Rig<O>, junk: nat)
    requires Legal(c) && Safe(c, g, z) && ScrubK(c) >= 1
    ensures !Overruns(TickRig(c, g, z, junk).y)
  {
    var i := Input(c, g, z, junk, After(c, g, z, junk).chain);
    TickCore(c, z.y, i);
    BooksOf(c, z.y, i);
    ResetEnds(c, z.y.x, EnvOf(c, z.y, i));
    if Releasing(c, g, z, junk) {
      IdleStays(z.y.x.scan, ScanInput(c.b, |c.table|, z.y.x, HostIn(c), EnvOf(c, z.y, i)), c.b.scrubLen);
    }
  }

  lemma IdleStays(s: ScanCtrl.Scan, i: ScanCtrl.ScanIn, scrubLen: int)
    requires !s.run && !s.lead
    ensures !ScanCtrl.Step(s, i, scrubLen).run
  {
  }

  /** On a split edge the chain shifts while the rest of the design is clocked. */
  lemma SplitEdge<O(!new)>(c: Setup, g: Design<O>, z: Rig<O>, junk: nat)
    requires Legal(c) && Safe(c, g, z) && Freeze.Split(z.y.x.scan, z.gateQ) && !z.y.x.time.resolverRst
    requires !Rises(c, g, z, junk)
    ensures var r := TickRig(c, g, z, junk);
            r.y.chain == Shifted(c, z.y) && r.off == g.step(DutOf(z), Memories.Rams(z.mems)).off
  {
    TickDut(c, g, z, junk);
  }

  // ---- what the design lives through -----------------------------------------------------------------------

  /** The trial so far: struck or not, after how many functional edges, and at which steps. */
  datatype Mark = Mark(struck: bool, at: nat, hits: set<nat>)

  const UNMARKED := Mark(false, 0, {})

  function HitsNow(s: ScanCtrl.Scan, mk: Mark): set<nat> { if ScanCtrl.Hit(s) then mk.hits + {s.cnt} else mk.hits }

  /** Read off the scan controller alone. */
  function MarkStep(y: Sys, rel: bool, mk: Mark): Mark {
    var s := y.x.scan;
    if rel then UNMARKED
    else if y.x.time.resolverRst || s.scrub then mk
    else if ScanCtrl.Arm1(s) then Mark(false, y.since + 1, {})
    else if s.run then Mark(ScanCtrl.Ends(s), mk.at, HitsNow(s, mk))
    else mk
  }

  function One(b: bool): nat { if b then 1 else 0 }

  /** A trial has one start pulse, and it makes one pass at most. */
  predicate Once(y: Sys, mk: Mark) {
    var s := y.x.scan;
    y.trials >= 1 && !y.x.time.resolverRst ==>
      Alive.Pulses(y.x) + One((s.run || s.lead) && !s.scrub) + One(mk.struck) <= One(y.x.time.fired)
  }

  lemma OnceStep(c: Setup, y: Sys, i: In, mk: Mark)
    requires Legal(c) && Sized(c, y) && |i.dut| == c.len && Orderly(c, y.x) && !i.memBad && Once(y, mk)
    requires !Overruns(Tick(c, y, i))
    ensures Once(Tick(c, y, i), MarkStep(y, Executor.Releases(c.b, y.x, HostIn(c), EnvOf(c, y, i)), mk))
  {
    ResetEnds(c, y.x, EnvOf(c, y, i));
  }

  /** The unwrapped run the trial is on. */
  ghost function LivedRun<O(!new)>(c: Setup, g: Design<O>, since: nat, mk: Mark): World<O>
    requires Prepared(c, g)
  {
    if !mk.struck || since < mk.at + c.len then Golden(g, c.len, since)
    else Faulty(g, c.len, mk.at, mk.hits, since - (mk.at + c.len))
  }

  /** Between passes the design is on that run; during the pass everything off the chain waits. */
  ghost predicate OnCourse<O(!new)>(c: Setup, g: Design<O>, z: Rig<O>, mk: Mark)
    requires Prepared(c, g)
  {
    var y, s := z.y, z.y.x.scan;
    y.trials >= 1 && !y.x.time.resolverRst ==>
      && (mk.struck ==> y.since >= mk.at + c.len)
      && (!s.run ==> WorldOf(z) == LivedRun(c, g, y.since, mk))
      && (s.run && !s.scrub ==>
            var w := Golden(g, c.len, mk.at);
            && !mk.struck && y.since == mk.at + s.cnt && s.cnt < c.len && (forall k :: k in mk.hits ==> k < s.cnt)
            && z.off == w.dut.off && Memories.SeenAll(z.mems) == w.mems
            && Rotated(y.chain, w.dut.chain, s.cnt, mk.hits))
  }

  /** The gate's flop outside the reset. */
  predicate Tuned<O>(z: Rig<O>) { z.y.x.scan.run && !z.y.x.time.resolverRst ==> z.gateQ }

  lemma TunedInStep<O(!new)>(c: Setup, g: Design<O>, z: Rig<O>)
    requires Safe(c, g, z) && Tuned(z) && !z.y.x.time.resolverRst
    ensures Freeze.InStep(z.y.x.scan, z.gateQ)
  {
  }

  lemma BooksOf(c: Setup, y: Sys, i: In)
    requires Sized(c, y) && |i.dut| == c.len
    ensures var r, rel := Tick(c, y, i), Executor.Releases(c.b, y.x, HostIn(c), EnvOf(c, y, i));
            && r.trials == (if rel then y.trials + 1 else y.trials) && r.since == if rel then 0 else y.since + 1
  {
  }

  /** The scan controller on an edge outside the reset that does not raise it. */
  lemma ScanGoes(c: Setup, x: Core, e: Env)
    requires Legal(c) && Orderly(c, x) && !x.time.resolverRst && !ResetRises(c, x, e)
    ensures var n := Next(c, x, e).scan;
            && (!x.scan.run ==> (n.run <==> x.scan.lead) && (n.run ==> n.cnt == 0 && n.scrub == x.scan.scrub))
            && (x.scan.run && !x.scan.scrub ==>
                  && !x.time.memReq && x.scan.end == c.len - 1 && x.scan.cnt < c.len
                  && (n.run <==> !ScanCtrl.Ends(x.scan)) && (n.run ==> n.cnt == x.scan.cnt + 1 && !n.scrub))
            && (x.scan.run && x.scan.scrub ==> n.run && n.scrub)
            && (!x.scan.run ==> !x.time.memReq)
  {
  }

  lemma FreeEdge<O(!new)>(c: Setup, g: Design<O>, z: Rig<O>, junk: nat, mk: Mark)
    requires Legal(c) && Safe(c, g, z) && Tuned(z) && Once(z.y, mk) && OnCourse(c, g, z, mk)
    requires z.y.trials >= 1 && !z.y.x.time.resolverRst && !z.y.x.scan.run && !Rises(c, g, z, junk)
    ensures OnCourse(c, g, TickRig(c, g, z, junk), MarkStep(z.y, false, mk))
  {
    TunedInStep(c, g, z);
    FreeBooks(c, g, z, junk);
    FunctionalEdge(c, g, z, junk);
    LivedStepOn(c, g, z.y.since, mk);
    FreeCourse(c, g, z, TickRig(c, g, z, junk), mk);
  }

  lemma FreeBooks<O(!new)>(c: Setup, g: Design<O>, z: Rig<O>, junk: nat)
    requires Legal(c) && Safe(c, g, z) && !z.y.x.time.resolverRst && !z.y.x.scan.run && !Rises(c, g, z, junk)
    ensures var r, s := TickRig(c, g, z, junk), z.y.x.scan;
            && r.y.trials == z.y.trials && r.y.since == z.y.since + 1 && !z.y.x.time.memReq
            && (r.y.x.scan.run <==> s.lead) && (r.y.x.scan.run ==> r.y.x.scan.cnt == 0 && r.y.x.scan.scrub == s.scrub)
  {
    var i := Input(c, g, z, junk, After(c, g, z, junk).chain);
    BooksOf(c, z.y, i);
    TickCore(c, z.y, i);
    ResetEnds(c, z.y.x, EnvOf(c, z.y, i));
    ScanGoes(c, z.y.x, EnvOf(c, z.y, i));
  }

  lemma LivedStepOn<O(!new)>(c: Setup, g: Design<O>, since: nat, mk: Mark)
    requires Prepared(c, g) && (mk.struck ==> since >= mk.at + c.len)
    ensures LivedRun(c, g, since + 1, mk) == WorldStep(g, LivedRun(c, g, since, mk))
  {
    if mk.struck {
      var n := since - (mk.at + c.len);
      assert Faulty(g, c.len, mk.at, mk.hits, n + 1) == WorldStep(g, Faulty(g, c.len, mk.at, mk.hits, n));
    }
  }

  lemma FreeCourse<O(!new)>(c: Setup, g: Design<O>, z: Rig<O>, r: Rig<O>, mk: Mark)
    requires Legal(c) && Safe(c, g, z) && Once(z.y, mk) && OnCourse(c, g, z, mk) && Bench.Fits(c, g, r)
    requires z.y.trials >= 1 && !z.y.x.time.resolverRst && !z.y.x.scan.run
    requires r.y.trials == z.y.trials && r.y.since == z.y.since + 1
    requires WorldOf(r) == LivedRun(c, g, r.y.since, mk)
    requires r.y.x.scan.run <==> z.y.x.scan.lead
    requires r.y.x.scan.run ==> r.y.x.scan.cnt == 0 && r.y.x.scan.scrub == z.y.x.scan.scrub
    ensures OnCourse(c, g, r, MarkStep(z.y, false, mk))
  {
  }

  lemma RotatedMore(v: seq<bool>, before: seq<bool>, t: nat, a: set<nat>, b: set<nat>)
    requires Rotated(v, before, t, a) && (forall s :: s < t ==> (s in a <==> s in b))
    ensures Rotated(v, before, t, b)
  {
  }

  /** The shift edge of a pass, with the bit as the target register says. */
  lemma PassShift<O(!new)>(c: Setup, g: Design<O>, z: Rig<O>, r: Rig<O>, before: seq<bool>, mk: Mark)
    requires Sized(c, z.y) && z.y.x.scan.run && !z.y.x.scan.scrub && z.y.x.scan.cnt < c.len
    requires Rotated(z.y.chain, before, z.y.x.scan.cnt, mk.hits) && (forall k :: k in mk.hits ==> k < z.y.x.scan.cnt)
    requires r.y.chain == Shifted(c, z.y)
    ensures Rotated(r.y.chain, before, z.y.x.scan.cnt + 1, HitsNow(z.y.x.scan, mk))
  {
    var s, h := z.y.x.scan, HitsNow(z.y.x.scan, mk);
    RotatedMore(z.y.chain, before, s.cnt, mk.hits, h);
    assert s.cnt in h <==> ScanCtrl.Hit(s);
    RotateStep(z.y.chain, before, s.cnt, h, r.y.chain);
  }

  lemma PassEdge<O(!new)>(c: Setup, g: Design<O>, z: Rig<O>, junk: nat, mk: Mark)
    requires Legal(c) && Safe(c, g, z) && Tuned(z) && OnCourse(c, g, z, mk)
    requires z.y.trials >= 1 && !z.y.x.time.resolverRst && z.y.x.scan.run && !z.y.x.scan.scrub && !Rises(c, g, z, junk)
    ensures OnCourse(c, g, TickRig(c, g, z, junk), MarkStep(z.y, false, mk))
  {
    var r := TickRig(c, g, z, junk);
    PassBooks(c, g, z, junk);
    TunedInStep(c, g, z);
    Bench.ShiftEdge(c, g, z, junk);
    PassShift(c, g, z, r, Golden(g, c.len, mk.at).dut.chain, mk);
    PassCourse(c, g, z, r, mk);
  }

  lemma PassBooks<O(!new)>(c: Setup, g: Design<O>, z: Rig<O>, junk: nat)
    requires Legal(c) && Safe(c, g, z) && !Rises(c, g, z, junk)
    requires !z.y.x.time.resolverRst && z.y.x.scan.run && !z.y.x.scan.scrub
    ensures var r, s := TickRig(c, g, z, junk), z.y.x.scan;
            && r.y.trials == z.y.trials && r.y.since == z.y.since + 1 && s.end == c.len - 1 && !z.y.x.time.memReq
            && (r.y.x.scan.run <==> !ScanCtrl.Ends(s))
            && (r.y.x.scan.run ==> r.y.x.scan.cnt == s.cnt + 1 && !r.y.x.scan.scrub)
  {
    var i := Input(c, g, z, junk, After(c, g, z, junk).chain);
    BooksOf(c, z.y, i);
    TickCore(c, z.y, i);
    ResetEnds(c, z.y.x, EnvOf(c, z.y, i));
    ScanGoes(c, z.y.x, EnvOf(c, z.y, i));
  }

  lemma PassCourse<O(!new)>(c: Setup, g: Design<O>, z: Rig<O>, r: Rig<O>, mk: Mark)
    requires Legal(c) && Safe(c, g, z) && OnCourse(c, g, z, mk) && Bench.Fits(c, g, r)
    requires z.y.trials >= 1 && !z.y.x.time.resolverRst && z.y.x.scan.run && !z.y.x.scan.scrub
    requires z.y.x.scan.end == c.len - 1 && r.y.trials == z.y.trials && r.y.since == z.y.since + 1
    requires r.off == z.off && Memories.SeenAll(r.mems) == Memories.SeenAll(z.mems)
    requires Rotated(r.y.chain, Golden(g, c.len, mk.at).dut.chain, z.y.x.scan.cnt + 1, HitsNow(z.y.x.scan, mk))
    requires r.y.x.scan.run <==> !ScanCtrl.Ends(z.y.x.scan)
    requires r.y.x.scan.run ==> r.y.x.scan.cnt == z.y.x.scan.cnt + 1 && !r.y.x.scan.scrub
    ensures OnCourse(c, g, r, MarkStep(z.y, false, mk))
  {
    var h, w := HitsNow(z.y.x.scan, mk), Golden(g, c.len, mk.at);
    if !r.y.x.scan.run {
      ComesRound(r.y.chain, w.dut.chain, h);
      assert WorldOf(r) == Struck(w, h);
      assert Faulty(g, c.len, mk.at, h, 0) == Struck(w, h);
    }
  }

  lemma CourseStepOn<O(!new)>(c: Setup, g: Design<O>, z: Rig<O>, junk: nat, mk: Mark)
    requires Legal(c) && Safe(c, g, z) && Tuned(z) && Once(z.y, mk) && OnCourse(c, g, z, mk)
    requires !Overruns(TickRig(c, g, z, junk).y)
    ensures OnCourse(c, g, TickRig(c, g, z, junk), MarkStep(z.y, Releasing(c, g, z, junk), mk))
  {
    var i := Input(c, g, z, junk, After(c, g, z, junk).chain);
    BooksOf(c, z.y, i);
    TickCore(c, z.y, i);
    ResetEnds(c, z.y.x, EnvOf(c, z.y, i));
    if Releasing(c, g, z, junk) {
      SafeRelease(c, g, z, junk);
    } else if z.y.trials >= 1 && !z.y.x.time.resolverRst && !Rises(c, g, z, junk) {
      if !z.y.x.scan.run {
        FreeEdge(c, g, z, junk, mk);
      } else if !z.y.x.scan.scrub {
        PassEdge(c, g, z, junk, mk);
      } else {
        ScanGoes(c, z.y.x, EnvOf(c, z.y, i));
      }
    } else if Rises(c, g, z, junk) {
      RisesResets(c, z.y.x, EnvOf(c, z.y, i));
    }
  }

  lemma RisesResets(c: Setup, x: Core, e: Env)
    requires Timed(x.time) && ResetRises(c, x, e)
    ensures Next(c, x, e).time.resolverRst
  {
  }

  // ---- every run ---------------------------------------------------------------------------------------------

  /** No release of the run finds a pass under way. */
  ghost predicate ClearRun<O(!new)>(c: Setup, g: Design<O>, z: Rig<O>, junk: seq<nat>)
    requires Bench.Fits(c, g, z) && Prepared(c, g)
  {
    junk == [] || (ClearRun(c, g, z, junk[..|junk| - 1]) && !Overruns(RunRig(c, g, z, junk).y))
  }

  ghost function MarkOf<O(!new)>(c: Setup, g: Design<O>, z: Rig<O>, junk: seq<nat>): Mark
    requires Bench.Fits(c, g, z) && Prepared(c, g)
  {
    if junk == [] then UNMARKED
    else
      var m := RunRig(c, g, z, junk[..|junk| - 1]);
      MarkStep(m.y, Releasing(c, g, m, junk[|junk| - 1]), MarkOf(c, g, z, junk[..|junk| - 1]))
  }

  /** Before the first release of the run. */
  ghost predicate Fresh<O(!new)>(c: Setup, g: Design<O>, z: Rig<O>) {
    Legal(c) && Safe(c, g, z) && Tuned(z) && z.y.trials == 0
  }

  /** Armed between trials. */
  lemma PoweredIsFresh<O(!new)>(c: Setup, g: Design<O>, ps: seq<Plan>, z: Rig<O>)
    requires Legal(c) && Powered(c, g, ps, z)
    ensures Fresh(c, g, z)
  {
  }

  lemma {:induction false} ScrubbedRunIsClear<O(!new)>(c: Setup, g: Design<O>, z: Rig<O>, junk: seq<nat>)
    requires Fresh(c, g, z) && ScrubK(c) >= 1
    ensures ClearRun(c, g, z, junk)
  {
    if junk != [] {
      ScrubbedRunIsClear(c, g, z, junk[..|junk| - 1]);
      SafeAlways(c, g, z, junk[..|junk| - 1]);
      ScrubNeverOverruns(c, g, RunRig(c, g, z, junk[..|junk| - 1]), junk[|junk| - 1]);
    }
  }

  lemma TunedStep<O(!new)>(c: Setup, g: Design<O>, z: Rig<O>, junk: nat)
    requires Legal(c) && Safe(c, g, z) && !Overruns(TickRig(c, g, z, junk).y)
    ensures Tuned(TickRig(c, g, z, junk))
  {
    GateAfter(c, g, z, junk);
    BooksOf(c, z.y, Input(c, g, z, junk, After(c, g, z, junk).chain));
  }

  lemma OnceTick<O(!new)>(c: Setup, g: Design<O>, z: Rig<O>, junk: nat, mk: Mark)
    requires Legal(c) && Safe(c, g, z) && Once(z.y, mk) && !Overruns(TickRig(c, g, z, junk).y)
    ensures Once(TickRig(c, g, z, junk).y, MarkStep(z.y, Releasing(c, g, z, junk), mk))
  {
    Memories.AllOkFacts(z.mems, g.specs);
    OnceStep(c, z.y, Input(c, g, z, junk, After(c, g, z, junk).chain), mk);
  }

  lemma {:induction false} AlwaysOnCourse<O(!new)>(c: Setup, g: Design<O>, z: Rig<O>, junk: seq<nat>)
    requires Fresh(c, g, z) && ClearRun(c, g, z, junk)
    ensures var r, mk := RunRig(c, g, z, junk), MarkOf(c, g, z, junk);
            Safe(c, g, r) && Tuned(r) && Once(r.y, mk) && OnCourse(c, g, r, mk)
  {
    if junk != [] {
      var pre, i := junk[..|junk| - 1], junk[|junk| - 1];
      AlwaysOnCourse(c, g, z, pre);
      var m := RunRig(c, g, z, pre);
      SafeStep(c, g, m, i);
      TunedStep(c, g, m, i);
      OnceTick(c, g, m, i, MarkOf(c, g, z, pre));
      CourseStepOn(c, g, m, i, MarkOf(c, g, z, pre));
    }
  }

  /** For every design with any memories, every table, feasible or not, every abort and every run: each
      trial starts from the one start state, whatever went before; no memory halts the loop. */
  lemma {:induction false} EveryTrialStartsAtStart<O(!new)>(c: Setup, g: Design<O>, z: Rig<O>, junk: seq<nat>)
    requires Fresh(c, g, z)
    ensures StartsAtStart(c, g, RunRig(c, g, z, junk)) && RunRig(c, g, z, junk).y.x.time.phase != 5
  {
    SafeAlways(c, g, z, junk);
  }

  /** And, if no release finds a pass under way, which cells to scrub make sure of: the trial lives
      through the unwrapped run from the start state, one edge per clock cycle, struck at most once, by
      exactly the hits of its one pass, with the L shift edges left out. */
  lemma {:induction false} EveryTrialIsUnwrapped<O(!new)>(c: Setup, g: Design<O>, z: Rig<O>, junk: seq<nat>)
    requires Fresh(c, g, z) && (ScrubK(c) >= 1 || ClearRun(c, g, z, junk))
    ensures OnCourse(c, g, RunRig(c, g, z, junk), MarkOf(c, g, z, junk))
    ensures Once(RunRig(c, g, z, junk).y, MarkOf(c, g, z, junk))
  {
    if ScrubK(c) >= 1 { ScrubbedRunIsClear(c, g, z, junk); }
    AlwaysOnCourse(c, g, z, junk);
  }

  /** Every edge of the run outside the reset is a full functional edge or a pure shift. */
  ghost predicate EdgesWhole<O(!new)>(c: Setup, g: Design<O>, z: Rig<O>, junk: seq<nat>)
    requires Bench.Fits(c, g, z) && Prepared(c, g)
  {
    junk == [] ||
    (&& EdgesWhole(c, g, z, junk[..|junk| - 1])
     && var r := RunRig(c, g, z, junk);
        r.y.x.time.resolverRst || Freeze.Functional(r.y.x.scan, r.gateQ) || Freeze.PureShift(r.y.x.scan, r.gateQ))
  }

  lemma OverrunIsOut<O(!new)>(c: Setup, g: Design<O>, z: Rig<O>, junk: nat)
    requires Legal(c) && Safe(c, g, z) && Overruns(TickRig(c, g, z, junk).y)
    ensures !TickRig(c, g, z, junk).y.x.time.resolverRst
  {
    var i := Input(c, g, z, junk, After(c, g, z, junk).chain);
    BooksOf(c, z.y, i);
    TickCore(c, z.y, i);
    ResetEnds(c, z.y.x, EnvOf(c, z.y, i));
  }

  /** That is so exactly in the runs in which no release finds a pass under way. */
  lemma {:induction false} EdgesWholeIff<O(!new)>(c: Setup, g: Design<O>, z: Rig<O>, junk: seq<nat>)
    requires Fresh(c, g, z)
    ensures EdgesWhole(c, g, z, junk) <==> ClearRun(c, g, z, junk)
  {
    if junk != [] {
      var pre := junk[..|junk| - 1];
      EdgesWholeIff(c, g, z, pre);
      SafeAlways(c, g, z, pre);
      EdgeIff(c, g, RunRig(c, g, z, pre), junk[|junk| - 1]);
      if Overruns(RunRig(c, g, z, junk).y) { OverrunIsOut(c, g, RunRig(c, g, z, pre), junk[|junk| - 1]); }
    }
  }
}
