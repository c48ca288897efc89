/** A chain whose cells all have a reset (K = 0) and a trial that stops one cycle after its cycle: the
    pass opens on the edge that raises the reset, runs on inside it, and may outlive it. */
module Overrun {
  import opened Executor
  import opened Trial
  import opened Campaign
  import opened Bench
  import opened Isolation
  import Arith
  import Boot
  import EndToEnd
  import Exact
  import Feasibility
  import Freeze
  import Host
  import Memories
  import TableCtrl
  import TimeCtrl

  /** A trial from its release on, es its cycles so far: no memory ends it before its start pulse has gone
      by, and no restore is reported bad. */
  ghost predicate Under(c: Setup, p: Plan, x: Core, es: seq<Env>) {
    if es == [] then Exact.Begun(c, p, x) && c.b.rstCyc < Arith.W32
    else
      var pre, e := es[..|es| - 1], es[|es| - 1];
      && Under(c, p, x, pre) && !Releases(c.b, Exact.Run(c, x, pre), HostIn(c), e)
      && (e.memAbort ==> |es| > p.cycle + 3) && !e.memBad
  }

  lemma {:induction false} UnderMeans(c: Setup, p: Plan, x: Core, es: seq<Env>)
    requires Under(c, p, x, es)
    ensures Exact.Begun(c, p, x) && Exact.WithinTrial(c, p, x, es) && c.b.rstCyc < Arith.W32
  {
    if es != [] { UnderMeans(c, p, x, es[..|es| - 1]); }
  }

  lemma UnderLast(c: Setup, p: Plan, x: Core, es: seq<Env>)
    requires Under(c, p, x, es) && es != []
    ensures Under(c, p, x, es[..|es| - 1]) && !es[|es| - 1].memBad
    ensures !Releases(c.b, Exact.Run(c, x, es[..|es| - 1]), HostIn(c), es[|es| - 1])
  {
  }

  // ---- the window ---------------------------------------------------------------------------------

  /** The pacing counter j cycles after the reset rose. */
  function Count(b: Build, j: nat): nat {
    if j == 0 || Count(b, j - 1) + 1 >= b.rstCyc then 0 else Count(b, j - 1) + 1
  }

  lemma {:induction false} CountIs(b: Build, j: nat)
    requires b.rstCyc >= 1
    ensures Count(b, j) == j % b.rstCyc
  {
    if j > 0 {
      CountIs(b, j - 1);
      Arith.ModSucc(j - 1, b.rstCyc);
    } else {
      Arith.DivUnique(0, b.rstCyc, 0, 0);
    }
  }

  lemma {:induction false} CountSmall(b: Build, j: nat)
    requires j < b.rstCyc
    ensures Count(b, j) == j
  {
    if j > 0 { CountSmall(b, j - 1); }
  }

  /** The reset window j cycles after the reset rose: pacing events every RST_CYC cycles. */
  predicate Window(c: Setup, t: TimeCtrl.Time, j: nat) {
    && t.stopped && t.resolverRst && t.memReq && !t.scrubReq && t.fired && !t.scanStart
    && t.phase == (if j < c.b.rstCyc then 6 else 2) && t.rstCnt == Count(c.b, j)
  }

  /** The window is over with its edge number w. */
  predicate WindowOver(b: Build, e: Env, w: nat)
    requires b.rstCyc >= 1
  {
    w % b.rstCyc == 0 && w >= 2 * b.rstCyc && e.memDone
  }

  /** It ends on the first pacing event from the second on that finds the memories done. */
  lemma WindowEnds(c: Setup, x: Core, e: Env, j: nat)
    requires c.b.rstCyc >= 1 && Window(c, x.time, j) && !e.memBad
    ensures Releases(c.b, x, HostIn(c), e) == WindowOver(c.b, e, j + 1)
  {
    CountIs(c.b, j);
    Arith.ModSucc(j, c.b.rstCyc);
    if j >= c.b.rstCyc && j + 1 < 2 * c.b.rstCyc { Arith.DivUnique(j + 1, c.b.rstCyc, 1, j + 1 - c.b.rstCyc); }
  }

  lemma WindowStep(c: Setup, x: Core, e: Env, j: nat)
    requires 1 <= c.b.rstCyc < Arith.W32 && Window(c, x.time, j) && !e.memBad && !Releases(c.b, x, HostIn(c), e)
    ensures Window(c, Next(c, x, e).time, j + 1)
  {
    if j < c.b.rstCyc { CountSmall(c.b, j); }
  }

  // ---- the pass inside it -------------------------------------------------------------------------

  /** j cycles after the reset rose: armed with it, shifting from the next cycle on, over after L. */
  predicate Inside(c: Setup, x: Core, j: nat) {
    var s := x.scan;
    && !x.s1 && !x.s2 && !s.scrub
    && (j <= c.len ==> s.end == c.len - 1)
    && (s.lead <==> j == 0) && (s.run <==> 1 <= j <= c.len) && (s.run ==> s.cnt == j - 1)
  }

  lemma InsideStep(c: Setup, x: Core, e: Env, j: nat)
    requires Legal(c) && Window(c, x.time, j) && Inside(c, x, j)
    ensures Inside(c, Next(c, x, e), j + 1)
  {
  }

  /** Where the trial stands when the reset has risen. */
  lemma LateOpens(c: Setup, p: Plan, x: Core, e: Env, e': Env)
    requires Legal(c) && Loaded(c, p) && Wait(c, p, x, p.cycle + 2) && p.cycle >= 1
    requires !BeatsTimeout(c, p) && Prefetches(c, p) && ScrubK(c) == 0
    ensures var n := Next(c, Next(c, x, e), e'); Window(c, n.time, 0) && Inside(c, n, 0)
  {
    Exact.LatePulseTable(c, p, x, e);
    Exact.LatePulse(c, p, x, e);
    LateTime(c, p, x, e);
    LateRises(c, Next(c, x, e), e');
  }

  lemma LateTime(c: Setup, p: Plan, x: Core, e: Env)
    requires Legal(c) && Wait(c, p, x, p.cycle + 2) && !BeatsTimeout(c, p) && p.cycle >= 1 && ScrubK(c) == 0
    ensures var n := Next(c, x, e);
            && n.time.fired && !n.time.scanStart && !n.s1 && !n.time.resolverRst && n.time.stopped && n.time.phase == 3
            && !n.scan.startD && Idle(n.scan)
  {
  }

  lemma LateRises(c: Setup, x: Core, e: Env)
    requires Legal(c) && x.cfgEn && x.s2 && !x.scan.startD && Idle(x.scan) && x.scan.scrubDone
    requires x.time.phase == 3 && x.time.stopped && x.time.fired && !x.time.scanStart && !x.s1
    requires TableCtrl.Ready(x.tbl, c.b.lookahead, |c.table|, c.tblLen)
    ensures var n := Next(c, x, e); Window(c, n.time, 0) && Inside(c, n, 0)
  {
  }

  predicate LateAt(c: Setup, x: Core, j: nat) { Window(c, x.time, j) && Inside(c, x, j) }

  lemma LateOn(c: Setup, x: Core, e: Env, j: nat)
    requires Legal(c) && c.b.rstCyc < Arith.W32 && LateAt(c, x, j) && !e.memBad && !Releases(c.b, x, HostIn(c), e)
    ensures LateAt(c, Next(c, x, e), j + 1)
  {
    InsideStep(c, x, e, j);
    WindowStep(c, x, e, j);
  }

  lemma LateStarts(c: Setup, p: Plan, x: Core, es: seq<Env>, j: nat) returns (r: Core)
    requires Under(c, p, x, es) && Legal(c) && OpensInside(c, p) && |es| == p.cycle + 4 && j == 0
    ensures r == Exact.Run(c, x, es) && LateAt(c, r, j)
  {
    UnderMeans(c, p, x, es);
    var one := es[..|es| - 1][..|es| - 2];
    Exact.WaitRun(c, p, x, one);
    var m := Exact.Run(c, x, one);
    LateOpens(c, p, m, es[..|es| - 1][|es| - 2], es[|es| - 1]);
    r := Next(c, Next(c, m, es[..|es| - 1][|es| - 2]), es[|es| - 1]);
  }

  lemma {:induction false} LateRun(c: Setup, p: Plan, x: Core, es: seq<Env>, j: nat) returns (r: Core)
    requires Under(c, p, x, es) && Legal(c) && c.b.rstCyc < Arith.W32
    requires OpensInside(c, p) && |es| == p.cycle + 4 + j
    ensures r == Exact.Run(c, x, es) && LateAt(c, r, j)
  {
    if j == 0 {
      r := LateStarts(c, p, x, es, j);
    } else {
      UnderLast(c, p, x, es);
      var i: nat := j - 1;
      var m := LateRun(c, p, x, es[..|es| - 1], i);
      r := LateNext(c, x, es, m, i, j);
    }
  }

  lemma LateNext(c: Setup, x: Core, es: seq<Env>, m: Core, i: nat, j: nat) returns (r: Core)
    requires Legal(c) && c.b.rstCyc < Arith.W32 && es != [] && m == Exact.Run(c, x, es[..|es| - 1])
    requires j == i + 1 && LateAt(c, m, i)
    requires !es[|es| - 1].memBad && !Releases(c.b, m, HostIn(c), es[|es| - 1])
    ensures r == Exact.Run(c, x, es) && LateAt(c, r, j)
  {
    LateOn(c, m, es[|es| - 1], i);
    r := Next(c, m, es[|es| - 1]);
  }

  // ---- every other trial ----------------------------------------------------------------------------

  /** The start pulse has gone by, and the scan controller idles through the reset. */
  predicate Calm(c: Setup, x: Core) {
    Orderly(c, x) && Spent(x) && (x.time.resolverRst ==> !x.scan.run && !x.scan.lead)
  }

  lemma CalmStep(c: Setup, x: Core, e: Env)
    requires Legal(c) && Calm(c, x) && !e.memBad && !Releases(c.b, x, HostIn(c), e)
    ensures Calm(c, Next(c, x, e))
  {
    OrderlyStep(c, x, e);
    CalmScan(c, x, e);
  }

  lemma CalmScan(c: Setup, x: Core, e: Env)
    requires Legal(c) && Calm(c, x) && !Releases(c.b, x, HostIn(c), e)
    ensures var n := Next(c, x, e); Spent(n) && (n.time.resolverRst ==> !n.scan.run && !n.scan.lead)
  {
  }

  lemma WaitIsOrderly(c: Setup, p: Plan, x: Core, n: nat)
    requires Legal(c) && Wait(c, p, x, n)
    ensures Orderly(c, x)
  {
  }

  /** The edge that takes the start pulse in. */
  lemma PulseGoes(c: Setup, p: Plan, x: Core, e: Env)
    requires Legal(c) && Wait(c, p, x, p.cycle + 3) && !e.memBad
    ensures Calm(c, Next(c, x, e))
  {
    WaitIsOrderly(c, p, x, p.cycle + 3);
    OrderlyStep(c, x, e);
  }

  /** With too little fetched the late pulse is lost. */
  lemma LateIsLost(c: Setup, p: Plan, x: Core, e: Env, e': Env)
    requires Legal(c) && Loaded(c, p) && Wait(c, p, x, p.cycle + 2) && p.cycle >= 1 && !e.memBad && !e'.memBad
    requires !BeatsTimeout(c, p) && (ScrubK(c) >= 1 || !Prefetches(c, p))
    ensures Calm(c, Next(c, Next(c, x, e), e'))
  {
    WaitIsOrderly(c, p, x, p.cycle + 2);
    OrderlyStep(c, x, e);
    OrderlyStep(c, Next(c, x, e), e');
    if ScrubK(c) >= 1 {
      Exact.ScrubComesFirst(c, p, x, e);
      LateScrub(c, Next(c, x, e), e');
    } else {
      Exact.LatePulse(c, p, x, e);
      LateTime(c, p, x, e);
      NotReadyTable(c, p, x, e);
      LateQuiet(c, Next(c, x, e), e');
    }
  }

  lemma LateScrub(c: Setup, x: Core, e: Env)
    requires Exact.Late(x)
    ensures var n := Next(c, x, e); Spent(n) && !n.time.resolverRst
  {
  }

  lemma NotReadyTable(c: Setup, p: Plan, x: Core, e: Env)
    requires Legal(c) && Loaded(c, p) && Wait(c, p, x, p.cycle + 2) && p.cycle >= 1 && !Prefetches(c, p)
    ensures !TableCtrl.Ready(Next(c, x, e).tbl, c.b.lookahead, |c.table|, c.tblLen)
  {
    WaitTableStep(c, p, x.tbl, TableInput(c.b, c.table, x, HostIn(c), e), p.cycle + 2);
    UnreadyTable(c, p, Next(c, x, e).tbl);
  }

  lemma UnreadyTable(c: Setup, p: Plan, t: TableCtrl.Table)
    requires Legal(c) && Loaded(c, p) && !Prefetches(c, p) && WaitTable(t, c, p, p.cycle + 3)
    ensures !TableCtrl.Ready(t, c.b.lookahead, |c.table|, c.tblLen)
  {
  }

  lemma LateQuiet(c: Setup, x: Core, e: Env)
    requires Legal(c) && x.cfgEn && x.s2 && !x.scan.startD && Idle(x.scan) && x.scan.scrubDone
    requires x.time.phase == 3 && x.time.stopped && x.time.fired && !x.time.scanStart && !x.s1
    requires !TableCtrl.Ready(x.tbl, c.b.lookahead, |c.table|, c.tblLen)
    ensures var n := Next(c, x, e); Spent(n) && !n.scan.run && !n.scan.lead
  {
  }

  /** This trial's pass opens inside the reset. */
  predicate OpensInside(c: Setup, p: Plan) { ScrubK(c) == 0 && !BeatsTimeout(c, p) && Prefetches(c, p) }

  lemma CalmAfterPulse(c: Setup, p: Plan, x: Core, es: seq<Env>)
    requires Exact.Begun(c, p, x) && Exact.WithinTrial(c, p, x, es) && |es| == p.cycle + 3 && BeatsTimeout(c, p)
    ensures forall e: Env :: !e.memBad ==> Calm(c, Next(c, Exact.Run(c, x, es), e))
  {
    Exact.WaitRun(c, p, x, es);
    var m := Exact.Run(c, x, es);
    forall e: Env | !e.memBad ensures Calm(c, Next(c, m, e)) { PulseGoes(c, p, m, e); }
  }

  lemma CalmAfterReset(c: Setup, p: Plan, x: Core, es: seq<Env>, e: Env)
    requires Exact.Begun(c, p, x) && Exact.WithinTrial(c, p, x, es) && |es| == p.cycle + 2 && !e.memBad
    requires !BeatsTimeout(c, p) && (ScrubK(c) >= 1 || !Prefetches(c, p))
    ensures forall e': Env :: !e'.memBad ==> Calm(c, Next(c, Next(c, Exact.Run(c, x, es), e), e'))
  {
    Exact.WaitRun(c, p, x, es);
    var m := Exact.Run(c, x, es);
    forall e': Env | !e'.memBad ensures Calm(c, Next(c, Next(c, m, e), e')) { LateIsLost(c, p, m, e, e'); }
  }

  lemma CalmStarts(c: Setup, p: Plan, x: Core, es: seq<Env>)
    requires Under(c, p, x, es) && Legal(c) && |es| == p.cycle + 4
    requires !OpensInside(c, p)
    ensures Calm(c, Exact.Run(c, x, es))
  {
    var pre := es[..|es| - 1];
    UnderMeans(c, p, x, es);
    if BeatsTimeout(c, p) {
      CalmAfterPulse(c, p, x, pre);
    } else {
      CalmAfterReset(c, p, x, pre[..|pre| - 1], pre[|pre| - 1]);
    }
  }

  lemma {:induction false} CalmRun(c: Setup, p: Plan, x: Core, es: seq<Env>)
    requires Under(c, p, x, es) && Legal(c) && |es| >= p.cycle + 4
    requires !OpensInside(c, p)
    ensures Calm(c, Exact.Run(c, x, es))
  {
    if |es| > p.cycle + 4 {
      CalmRun(c, p, x, es[..|es| - 1]);
      CalmStep(c, Exact.Run(c, x, es[..|es| - 1]), es[|es| - 1]);
    } else {
      CalmStarts(c, p, x, es);
    }
  }

  // ---- exactly when a pass outlives the window -------------------------------------------------------------

  /** How long the window is, j of its edges having gone by: it ends on the first pacing event from the
      second on that finds the memories done. */
  lemma {:induction false} WindowIff(c: Setup, p: Plan, x: Core, es: seq<Env>, e: Env, j: nat)
    requires Under(c, p, x, es) && Legal(c) && !e.memBad && c.b.rstCyc < Arith.W32
    requires |es| == p.cycle + 4 + j && OpensInside(c, p)
    ensures Releases(c.b, Exact.Run(c, x, es), HostIn(c), e) == WindowOver(c.b, e, j + 1)
  {
    var r := LateRun(c, p, x, es, j);
    WindowEnds(c, r, e, j);
  }

  /** In any run of one trial up to its release and whatever the restore takes: the release finds a pass
      under way if and only if K is 0, the timeout is the cycle plus one, the prefetch is ready, and the
      window, which is j + 1 edges long, is no longer than the chain. */
  lemma {:induction false} OverrunIff(c: Setup, p: Plan, x: Core, es: seq<Env>, e: Env, j: nat)
    requires Under(c, p, x, es) && Legal(c) && !e.memBad && c.b.rstCyc < Arith.W32
    requires |es| == p.cycle + 4 + j && Releases(c.b, Exact.Run(c, x, es), HostIn(c), e)
    ensures Next(c, Exact.Run(c, x, es), e).scan.run <==> OpensInside(c, p) && j + 1 <= c.len
  {
    if OpensInside(c, p) { LatePasses(c, p, x, es, e, j); } else { CalmPasses(c, p, x, es, e); }
  }

  lemma LatePasses(c: Setup, p: Plan, x: Core, es: seq<Env>, e: Env, j: nat)
    requires Under(c, p, x, es) && Legal(c) && c.b.rstCyc < Arith.W32
    requires |es| == p.cycle + 4 + j && OpensInside(c, p)
    ensures Next(c, Exact.Run(c, x, es), e).scan.run <==> j + 1 <= c.len
  {
    var r := LateRun(c, p, x, es, j);
    LateReleases(c, r, e, j);
  }

  lemma CalmPasses(c: Setup, p: Plan, x: Core, es: seq<Env>, e: Env)
    requires Under(c, p, x, es) && Legal(c)
    requires |es| >= p.cycle + 4 && !OpensInside(c, p) && Releases(c.b, Exact.Run(c, x, es), HostIn(c), e)
    ensures !Next(c, Exact.Run(c, x, es), e).scan.run
  {
    CalmRun(c, p, x, es);
    CalmReleases(c, Exact.Run(c, x, es), e);
  }

  lemma LateReleases(c: Setup, x: Core, e: Env, j: nat)
    requires Legal(c) && LateAt(c, x, j)
    ensures Next(c, x, e).scan.run <==> j + 1 <= c.len
  {
    InsideStep(c, x, e, j);
  }

  lemma CalmReleases(c: Setup, x: Core, e: Env)
    requires Calm(c, x) && Releases(c.b, x, HostIn(c), e)
    ensures !Next(c, x, e).scan.run
  {
  }

  // ---- on the wrapped design -----------------------------------------------------------------------------

  /** What the executor meets in a run of the wrapped design. */
  ghost function EnvsOf<O(!new)>(c: Setup, g: Design<O>, z: Rig<O>, junk: seq<nat>): (es: seq<Env>)
    requires Bench.Fits(c, g, z) && Prepared(c, g)
    ensures |es| == |junk|
  {
    if junk == [] then []
    else
      var pre, i := junk[..|junk| - 1], junk[|junk| - 1];
      EnvsOf(c, g, z, pre) + [EnvAt(c, g, RunRig(c, g, z, pre), i)]
  }

  function EnvAt<O>(c: Setup, g: Design<O>, z: Rig<O>, junk: nat): Env
    requires Bench.Fits(c, g, z)
  {
    EnvOf(c, z.y, Input(c, g, z, junk, []))
  }

  lemma RigCore<O(!new)>(c: Setup, g: Design<O>, z: Rig<O>, junk: nat)
    requires Bench.Fits(c, g, z) && Prepared(c, g)
    ensures TickRig(c, g, z, junk).y.x == Next(c, z.y.x, EnvAt(c, g, z, junk))
  {
    TickCore(c, z.y, Input(c, g, z, junk, After(c, g, z, junk).chain));
  }

  lemma {:induction false} RunCore<O(!new)>(c: Setup, g: Design<O>, z: Rig<O>, junk: seq<nat>)
    requires Bench.Fits(c, g, z) && Prepared(c, g)
    ensures RunRig(c, g, z, junk).y.x == Exact.Run(c, z.y.x, EnvsOf(c, g, z, junk))
  {
    if junk != [] {
      var pre, es := junk[..|junk| - 1], EnvsOf(c, g, z, junk);
      RunCore(c, g, z, pre);
      RigCore(c, g, RunRig(c, g, z, pre), junk[|junk| - 1]);
      assert es[..|es| - 1] == EnvsOf(c, g, z, pre);
    }
  }

  /** The same for the run of any design with any memories, a trial from its release to the next one. */
  lemma {:induction false} RigOverrunsIff<O(!new)>(
    c: Setup, g: Design<O>, p: Plan, z: Rig<O>, junk: seq<nat>, last: nat, j: nat)
    requires Safe(c, g, z) && Legal(c) && c.b.rstCyc < Arith.W32 && z.y.trials >= 1
    requires Under(c, p, z.y.x, EnvsOf(c, g, z, junk)) && |junk| == p.cycle + 4 + j
    requires Safe(c, g, RunRig(c, g, z, junk)) && Releasing(c, g, RunRig(c, g, z, junk), last)
    ensures Overruns(TickRig(c, g, RunRig(c, g, z, junk), last).y) <==> OpensInside(c, p) && j + 1 <= c.len
  {
    var m := RunRig(c, g, z, junk);
    RunCore(c, g, z, junk);
    RigCore(c, g, m, last);
    Memories.AllOkFacts(m.mems, g.specs);
    ReleaseBooks(c, g, m, last);
    OverrunIff(c, p, z.y.x, EnvsOf(c, g, z, junk), EnvAt(c, g, m, last), j);
  }

  lemma ReleaseBooks<O(!new)>(c: Setup, g: Design<O>, z: Rig<O>, junk: nat)
    requires Bench.Fits(c, g, z) && Prepared(c, g) && Releasing(c, g, z, junk)
    ensures TickRig(c, g, z, junk).y.trials >= 1 && TickRig(c, g, z, junk).y.since == 0
  {
  }

  // ---- a run in which it happens ----------------------------------------------------------------------------

  predicate Prompt(es: seq<Env>) { forall k :: 0 <= k < |es| ==> !es[k].memAbort && !es[k].memBad }

  lemma NoReleaseBefore(c: Setup, p: Plan, x: Core, es: seq<Env>, e: Env)
    requires Under(c, p, x, es) && Legal(c) && OpensInside(c, p) && c.b.rstCyc < Arith.W32 && !e.memBad
    requires |es| < p.cycle + 3 + 2 * c.b.rstCyc
    ensures !Releases(c.b, Exact.Run(c, x, es), HostIn(c), e)
  {
    if |es| >= p.cycle + 4 {
      WindowIff(c, p, x, es, e, |es| - (p.cycle + 4));
    } else {
      UnderMeans(c, p, x, es);
      EarlyDoesNotRelease(c, p, x, es, e);
    }
  }

  lemma EarlyDoesNotRelease(c: Setup, p: Plan, x: Core, es: seq<Env>, e: Env)
    requires Exact.Begun(c, p, x) && Exact.WithinTrial(c, p, x, es) && OpensInside(c, p) && |es| <= p.cycle + 3
    ensures !Releases(c.b, Exact.Run(c, x, es), HostIn(c), e)
  {
    if |es| <= p.cycle + 2 {
      Exact.WaitRun(c, p, x, es);
    } else {
      Exact.WaitRun(c, p, x, es[..|es| - 1]);
      Exact.LatePulse(c, p, Exact.Run(c, x, es[..|es| - 1]), es[|es| - 1]);
    }
  }

  lemma {:induction false} PromptUnder(c: Setup, p: Plan, x: Core, es: seq<Env>)
    requires Exact.Begun(c, p, x) && OpensInside(c, p) && c.b.rstCyc < Arith.W32 && Prompt(es)
    requires |es| <= p.cycle + 3 + 2 * c.b.rstCyc
    ensures Under(c, p, x, es)
  {
    if es != [] {
      var pre := es[..|es| - 1];
      assert forall k :: 0 <= k < |pre| ==> pre[k] == es[k];
      PromptUnder(c, p, x, pre);
      NoReleaseBefore(c, p, x, pre, es[|es| - 1]);
    }
  }

  lemma {:induction false} BarePrompt<O(!new)>(c: Setup, g: Design<O>, z: Rig<O>, junk: seq<nat>)
    requires Bench.Fits(c, g, z) && Prepared(c, g) && g.specs == []
    ensures Prompt(EnvsOf(c, g, z, junk))
  {
    if junk != [] { BarePrompt(c, g, z, junk[..|junk| - 1]); }
  }

  /** For every design without memories whose chain needs no scrub and is at least two pacing periods
      long: a trial with its timeout one cycle behind it, from any trial's start, is followed by one
      whose first edge shifts the chain and clocks the rest of the design. */
  lemma {:induction false} PassOutlivesReset<O(!new)>(
    c: Setup, g: Design<O>, p: Plan, z: Rig<O>, junk: seq<nat>, last: nat)
    requires Safe(c, g, z) && z.y.trials >= 1 && Exact.Begun(c, p, z.y.x) && OpensInside(c, p) && g.specs == []
    requires c.b.rstCyc < Arith.W32 && 2 * c.b.rstCyc <= c.len && |junk| == p.cycle + 3 + 2 * c.b.rstCyc
    ensures Bench.Fits(c, g, RunRig(c, g, z, junk))
    ensures var r := TickRig(c, g, RunRig(c, g, z, junk), last);
            && Overruns(r.y) && !r.y.x.time.resolverRst
            && !Freeze.Functional(r.y.x.scan, r.gateQ) && !Freeze.PureShift(r.y.x.scan, r.gateQ)
  {
    var m, es := RunRig(c, g, z, junk), EnvsOf(c, g, z, junk);
    BarePrompt(c, g, z, junk);
    PromptUnder(c, p, z.y.x, es);
    SafeRuns(c, g, z, junk);
    BareReleases(c, g, p, z, junk, last, 2 * c.b.rstCyc - 1);
    RigOverrunsIff(c, g, p, z, junk, last, 2 * c.b.rstCyc - 1);
    OverrunIsOut(c, g, m, last);
    EdgeIff(c, g, m, last);
  }

  lemma BareReleases<O(!new)>(c: Setup, g: Design<O>, p: Plan, z: Rig<O>, junk: seq<nat>, last: nat, j: nat)
    requires Bench.Fits(c, g, z) && Prepared(c, g) && g.specs == [] && Legal(c) && c.b.rstCyc < Arith.W32
    requires Under(c, p, z.y.x, EnvsOf(c, g, z, junk)) && OpensInside(c, p)
    requires |junk| == p.cycle + 4 + j && j + 1 == 2 * c.b.rstCyc
    ensures Releasing(c, g, RunRig(c, g, z, junk), last)
  {
    var r := LateRun(c, p, z.y.x, EnvsOf(c, g, z, junk), j);
    SameCore(c, g, z, junk, r);
    BareEnds(c, g, RunRig(c, g, z, junk), r, last, j);
  }

  lemma SameCore<O(!new)>(c: Setup, g: Design<O>, z: Rig<O>, junk: seq<nat>, r: Core)
    requires Bench.Fits(c, g, z) && Prepared(c, g) && r == Exact.Run(c, z.y.x, EnvsOf(c, g, z, junk))
    ensures RunRig(c, g, z, junk).y.x == r
  {
    RunCore(c, g, z, junk);
  }

  lemma BareEnds<O(!new)>(c: Setup, g: Design<O>, m: Rig<O>, r: Core, last: nat, j: nat)
    requires Bench.Fits(c, g, m) && g.specs == [] && c.b.rstCyc >= 1 && j + 1 == 2 * c.b.rstCyc
    requires m.y.x == r && LateAt(c, r, j)
    ensures Releasing(c, g, m, last)
  {
    Arith.DivUnique(2 * c.b.rstCyc, c.b.rstCyc, 2, 0);
    assert EnvAt(c, g, m, last).memDone && !EnvAt(c, g, m, last).memBad;
    WindowEnds(c, m.y.x, EnvAt(c, g, m, last), j);
  }

  /** The host takes such a trial. */
  lemma {:induction false} HostTakesIt(t: Host.Request, j: EndToEnd.Job, mem: seq<nat>)
    requires Feasibility.Buildable(j) && Feasibility.OnChain(t, j) && j.b.scrubLen == 0
    requires j.toThr == t.cycle + 1 < Arith.W32
    requires t.cycle + 2 >= TableCtrl.Min(|Host.SortDesc(t.flops)|, 4) && |mem| == Host.TBL_WORDS
    ensures EndToEnd.Allowed(j) && OpensInside(Boot.SetupFor(j, mem), EndToEnd.PlansOf(j)[0])
  {
    Feasibility.OneTrial(t);
    Feasibility.OneTrialAccepted(t, j);
    EndToEnd.JobTabled(j, Boot.Cold(mem).regs);
  }
}
