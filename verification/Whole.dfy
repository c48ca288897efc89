/** Everything together: from power-on and the user's campaign to what an arbitrary design lives
    through in each trial. */
module Whole {
  import opened Trial
  import opened Bench
  import Boot
  import Campaign
  import EndToEnd
  import Host
  import Memories
  import Arith
  import Isolation
  import Patterns
  import Progress

  /** The design's state with these cells inverted. */
  function Hit<O>(w: World<O>, cells: seq<int>): World<O> {
    World(Dut(Patterns.Flipped(w.dut.chain, cells), w.dut.off), w.mems)
  }

  lemma {:induction false} GoldenIsSized<O(!new)>(c: Setup, g: Design<O>, n: nat)
    requires Prepared(c, g)
    ensures |Golden(g, c.len, n).dut.chain| == c.len
  {
    if n > 0 { GoldenIsSized(c, g, n - 1); }
  }

  /** The reference course of a trial: the unwrapped run from the start state, its flops inverted
      after `cycle + 5` edges. */
  ghost function Expected<O(!new)>(c: Setup, g: Design<O>, n: Host.Norm, edges: nat): World<O>
    requires Prepared(c, g) && n.cycle >= 0
  {
    Free(g, Hit(Golden(g, c.len, n.cycle + 5), n.idx), edges)
  }

  lemma FaultyIsExpected<O(!new)>(c: Setup, g: Design<O>, ns: seq<Host.Norm>, w: nat, k: nat, edges: nat)
    requires Prepared(c, g) && EndToEnd.WellFormed(ns, w) && k < |ns| && ns[k].cycle >= 0
    requires Patterns.Shows(EndToEnd.Plans(ns, w)[k].idx, c.len)
    ensures var p := EndToEnd.Plans(ns, w)[k];
            Faulty(g, c.len, Strike(p), Campaign.Targets(c, p), edges) == Expected(c, g, ns[k], edges)
  {
    var p := EndToEnd.Plans(ns, w)[k];
    assert Host.TrialOk(ns[k], w) && Host.Descending(ns[k].idx) && p.idx == ns[k].idx;
    var v := Golden(g, c.len, Strike(p)).dut.chain;
    GoldenIsSized(c, g, Strike(p));
    Patterns.FlipsTheSetIff(c, p, v);
  }

  /** Before its pass a trial is the golden run from the start state. */
  ghost predicate LivesBefore<O(!new)>(c: Setup, g: Design<O>, ns: seq<Host.Norm>, r: Rig<O>)
    requires Prepared(c, g)
  {
    && (r.y.trials >= 1 && r.y.since == 0 ==> WorldOf(r) == Start(g, c.len))
    && (1 <= r.y.trials <= |ns| && |r.y.shots| < r.y.trials ==> WorldOf(r) == Golden(g, c.len, r.y.since))
    && (r.y.trials > |ns| && !r.y.x.scan.run && !r.y.x.time.resolverRst ==>
          WorldOf(r) == Golden(g, c.len, r.y.since))
  }

  /** After it, the expected one: the L shift edges do not count. */
  ghost predicate LivesAfter<O(!new)>(c: Setup, g: Design<O>, ns: seq<Host.Norm>, r: Rig<O>, k: nat)
    requires Prepared(c, g) && k < |ns| && ns[k].cycle >= 0
  {
    r.y.trials == k + 1 == |r.y.shots| && !r.y.x.scan.run && !r.y.x.time.resolverRst ==>
      && r.y.since >= ns[k].cycle + 5 + c.len
      && WorldOf(r) == Expected(c, g, ns[k], r.y.since - (ns[k].cycle + 5 + c.len))
  }

  /** Trial number k+1 of the run: the golden run until its pass, then the expected one; the
      state after a release is the start state. `|shots|` is the number of passes begun. */
  ghost predicate Lives<O(!new)>(c: Setup, g: Design<O>, ns: seq<Host.Norm>, r: Rig<O>)
    requires Prepared(c, g) && forall k :: 0 <= k < |ns| ==> ns[k].cycle >= 0
  {
    LivesBefore(c, g, ns, r) && forall k :: 0 <= k < |ns| ==> LivesAfter(c, g, ns, r, k)
  }

  /** A trial whose pass is over is at least that old. */
  ghost predicate Aged(c: Setup, ns: seq<Host.Norm>, y: Campaign.Sys) {
    1 <= y.trials <= |ns| && |y.shots| == y.trials && !y.x.scan.run ==>
      y.since >= ns[y.trials - 1].cycle + 5 + c.len
  }

  lemma PassIsOver(c: Setup, ps: seq<Plan>, y: Campaign.Sys)
    requires Campaign.Inv(c, ps, y) && 1 <= y.trials <= |ps| && |y.shots| == y.trials && !y.x.scan.run
    ensures y.since >= ps[y.trials - 1].cycle + 5 + c.len
  {
  }

  lemma InvIsAged(c: Setup, ns: seq<Host.Norm>, w: nat, y: Campaign.Sys)
    requires EndToEnd.WellFormed(ns, w) && Campaign.Inv(c, EndToEnd.Plans(ns, w), y)
    ensures Aged(c, ns, y)
  {
    if 1 <= y.trials <= |ns| && |y.shots| == y.trials && !y.x.scan.run {
      PassIsOver(c, EndToEnd.Plans(ns, w), y);
      EndToEnd.PlanCycle(ns, w, y.trials - 1);
    }
  }

  lemma CourseAfterPass<O(!new)>(c: Setup, g: Design<O>, ps: seq<Plan>, y: Campaign.Sys, edges: nat)
    requires Prepared(c, g) && 1 <= y.trials <= |ps| && y.since == Strike(ps[y.trials - 1]) + c.len + edges
    ensures Course(c, g, ps, y)
            == Faulty(g, c.len, Strike(ps[y.trials - 1]), Campaign.Targets(c, ps[y.trials - 1]), edges)
  {
  }

  lemma CourseIsExpected<O(!new)>(c: Setup, g: Design<O>, ns: seq<Host.Norm>, w: nat, ps: seq<Plan>,
                                  y: Campaign.Sys, k: nat, edges: nat)
    requires EndToEnd.WellFormed(ns, w) && Prepared(c, g) && ps == EndToEnd.Plans(ns, w)
    requires k < |ns| && y.trials == k + 1 && ns[k].cycle >= 0 && y.since == ns[k].cycle + 5 + c.len + edges
    requires Patterns.Shows(ps[k].idx, c.len)
    ensures Course(c, g, ps, y) == Expected(c, g, ns[k], edges)
  {
    EndToEnd.PlanCycle(ns, w, k);
    CourseAfterPass(c, g, ps, y, edges);
    FaultyIsExpected(c, g, ns, w, k, edges);
  }

  lemma AfterIsExpected<O(!new)>(c: Setup, g: Design<O>, ns: seq<Host.Norm>, w: nat, ps: seq<Plan>, r: Rig<O>, k: nat)
    requires EndToEnd.WellFormed(ns, w) && Prepared(c, g) && Aged(c, ns, r.y) && ps == EndToEnd.Plans(ns, w)
    requires LivedAfter(c, g, ps, r) && k < |ns| && ns[k].cycle >= 0 && Patterns.Shows(ps[k].idx, c.len)
    ensures LivesAfter(c, g, ns, r, k)
  {
    if r.y.trials == k + 1 == |r.y.shots| && !r.y.x.scan.run && !r.y.x.time.resolverRst {
      var edges := r.y.since - (ns[k].cycle + 5 + c.len);
      assert WorldOf(r) == Course(c, g, ps, r.y);
      CourseIsExpected(c, g, ns, w, ps, r.y, k, edges);
    }
  }

  lemma BeforeIsGolden<O(!new)>(c: Setup, g: Design<O>, ns: seq<Host.Norm>, ps: seq<Plan>, r: Rig<O>)
    requires Prepared(c, g) && |ps| == |ns|
    requires LivedBefore(c, g, ps, r) && LivedAfter(c, g, ps, r) && StartsAtStart(c, g, r)
    ensures LivesBefore(c, g, ns, r)
  {
  }

  lemma LivedLives<O(!new)>(c: Setup, g: Design<O>, ns: seq<Host.Norm>, w: nat, ps: seq<Plan>, r: Rig<O>)
    requires EndToEnd.WellFormed(ns, w) && Prepared(c, g) && Aged(c, ns, r.y) && ps == EndToEnd.Plans(ns, w)
    requires Lived(c, g, ps, r) && StartsAtStart(c, g, r)
    requires forall k :: 0 <= k < |ns| ==> ns[k].cycle >= 0
    requires forall k :: 0 <= k < |ns| ==> Patterns.Shows(ps[k].idx, c.len)
    ensures Lives(c, g, ns, r)
  {
    BeforeIsGolden(c, g, ns, ps, r);
    forall k | 0 <= k < |ns| ensures LivesAfter(c, g, ns, r, k) {
      AfterIsExpected(c, g, ns, w, ps, r, k);
    }
  }

  lemma RigLives<O(!new)>(c: Setup, g: Design<O>, ns: seq<Host.Norm>, w: nat, r: Rig<O>)
    requires EndToEnd.WellFormed(ns, w) && RigInv(c, g, EndToEnd.Plans(ns, w), r)
    requires forall k :: 0 <= k < |ns| ==> ns[k].cycle >= 0
    requires forall k :: 0 <= k < |ns| ==> Patterns.Shows(EndToEnd.Plans(ns, w)[k].idx, c.len)
    ensures Lives(c, g, ns, r)
  {
    InvIsAged(c, ns, w, r.y);
    LivedLives(c, g, ns, w, EndToEnd.Plans(ns, w), r);
  }

  /** The design right after the session: whatever is on its chain and in its registers, its memories
      restorable. */
  ghost predicate Waiting<O(!new)>(j: EndToEnd.Job, mem: seq<nat>, vs: seq<Boot.Event>, g: Design<O>, z: Rig<O>)
    requires j.ts != []
  {
    && z.y == Boot.Observed(Boot.CoreAfter(j, mem, vs), z.y.chain) && !z.gateQ && |z.y.chain| == j.len
    && Bench.Fits(Boot.SetupFor(j, mem), g, z) && Prepared(Boot.SetupFor(j, mem), g) && Memories.AllOk(z.mems, g.specs)
  }

  /** The user's campaign on an arbitrary design with any memories, from power-on: the host's writes
      arrive with any gaps, then the clock runs for any number of cycles. In every trial the design
      lives through its unwrapped run from one start state, with exactly that trial's flops inverted
      once, five edges after the cycle the user asked for, and the passes made are exactly the
      campaign. */
  lemma {:induction false} CampaignOnAnyDesign<O(!new)>(
    j: EndToEnd.Job, mem: seq<nat>, vs: seq<Boot.Event>, g: Design<O>, z: Rig<O>, junk: seq<nat>)
    requires Boot.SessionOf(j, mem, vs) && EndToEnd.AllFeasible(j) && Waiting(j, mem, vs, g, z)
    requires Roomy(Boot.SetupFor(j, mem), g, EndToEnd.PlansOf(j))
    ensures var r, ns := RunRig(Boot.SetupFor(j, mem), g, z, junk), EndToEnd.Trials(j);
            && (forall k :: 0 <= k < |ns| ==> ns[k].cycle >= 0)
            && Lives(Boot.SetupFor(j, mem), g, ns, r) && Patterns.Injected(ns, r.y)
  {
    var ns, c := EndToEnd.Trials(j), Boot.SetupFor(j, mem);
    SessionPowers(j, mem, vs, g, z);
    RigAlways(c, g, EndToEnd.Plans(ns, j.w), z, junk);
    RigOutcome(j, c, g, ns, RunRig(c, g, z, junk));
  }

  lemma SessionPowers<O(!new)>(j: EndToEnd.Job, mem: seq<nat>, vs: seq<Boot.Event>, g: Design<O>, z: Rig<O>)
    requires Boot.SessionOf(j, mem, vs) && EndToEnd.AllFeasible(j) && Waiting(j, mem, vs, g, z)
    ensures var c := Boot.SetupFor(j, mem);
            && EndToEnd.WellFormed(EndToEnd.Trials(j), j.w) && c.len == j.len
            && EndToEnd.PlansOf(j) == EndToEnd.Plans(EndToEnd.Trials(j), j.w)
            && Campaign.Planned(c, EndToEnd.PlansOf(j)) && Powered(c, g, EndToEnd.PlansOf(j), z)
            && forall k :: 0 <= k < |EndToEnd.Trials(j)| ==> Patterns.Shows(EndToEnd.PlansOf(j)[k].idx, j.len)
  {
    EndToEnd.JobHolds(j, Boot.Cold(mem).regs);
    EndToEnd.JobPlanned(j, Boot.Cold(mem).regs);
    Boot.SessionIsArmed(j, mem, vs, z.y.chain);
    Boot.SessionArms(j.b, j.w, EndToEnd.Trials(j), EndToEnd.Thr(j), j.len, mem, vs);
  }

  lemma RigOutcome<O(!new)>(j: EndToEnd.Job, c: Setup, g: Design<O>, ns: seq<Host.Norm>, r: Rig<O>)
    requires EndToEnd.WellFormed(ns, j.w) && RigInv(c, g, EndToEnd.Plans(ns, j.w), r)
    requires forall k :: 0 <= k < |ns| ==> Patterns.Shows(EndToEnd.Plans(ns, j.w)[k].idx, c.len)
    ensures (forall k :: 0 <= k < |ns| ==> ns[k].cycle >= 0) && Lives(c, g, ns, r) && Patterns.Injected(ns, r.y)
  {
    forall k | 0 <= k < |ns| ensures ns[k].cycle >= 0 { assert Host.TrialOk(ns[k], j.w); }
    RigLives(c, g, ns, j.w, r);
    Campaign.InvMeansReplayed(c, EndToEnd.Plans(ns, j.w), r.y);
    EndToEnd.ReplayedInjects(c, ns, j.w, r.y);
  }

  // ---- campaigns that are not feasible -----------------------------------------------------------------

  lemma SessionIsFresh<O(!new)>(j: EndToEnd.Job, mem: seq<nat>, vs: seq<Boot.Event>, g: Design<O>, z: Rig<O>)
    requires Boot.SessionOf(j, mem, vs) && Waiting(j, mem, vs, g, z)
    ensures Isolation.Fresh(Boot.SetupFor(j, mem), g, z)
  {
    EndToEnd.JobTabled(j, Boot.Cold(mem).regs);
    Boot.SessionArms(j.b, j.w, EndToEnd.Trials(j), EndToEnd.Thr(j), j.len, mem, vs);
  }

  /** Every campaign the host accepts, feasible or not, on an arbitrary design with any memories, from
      power-on and in every run: each trial starts from the one start state, trials go on within their
      bound, and with cells to scrub each lives through the unwrapped run, struck at most once. */
  lemma {:induction false} IsolatedOnAnyDesign<O(!new)>(
    j: EndToEnd.Job, mem: seq<nat>, vs: seq<Boot.Event>, g: Design<O>, z: Rig<O>, junk: seq<nat>, n: nat)
    requires Boot.SessionOf(j, mem, vs) && Waiting(j, mem, vs, g, z) && j.b.rstCyc < Arith.W32
    ensures Bench.Fits(Boot.SetupFor(j, mem), g, z) && Prepared(Boot.SetupFor(j, mem), g)
    ensures Progress.Isolated(Boot.SetupFor(j, mem), g, z, junk, n)
  {
    SessionIsFresh(j, mem, vs, g, z);
    Progress.FreshIsIsolated(Boot.SetupFor(j, mem), g, z, junk, n);
  }
}
