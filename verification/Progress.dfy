/** Every reset window ends and every campaign finishes, within a bound given by the timeout, the
    chain, the scrub, RST_CYC and the slowest memory's restore. */
module Progress {
  import Alive
  import Arith
  import opened Trial
  import opened Campaign
  import opened Bench
  import opened Isolation
  import Memories

  /** Cycles until the next release, at most. */
  ghost function RigLeft<O>(c: Setup, g: Design<O>, z: Rig<O>): int
    requires Memories.AllFit(z.mems, g.specs)
  {
    Alive.Left(c, z.y.x, Memories.LeftAll(z.mems, g.specs), Memories.CapAll(g.specs))
  }

  /** A trial with its reset window takes no longer than this: the timeout, the passes its pulses may
      still make, the scrub, two pacing periods, and the slowest memory's restore. */
  function Bound<O>(c: Setup, g: Design<O>): nat { Alive.Bound(c, Memories.CapAll(g.specs)) }

  ghost predicate Bounded<O>(c: Setup, g: Design<O>, z: Rig<O>) {
    Memories.AllFit(z.mems, g.specs) && 0 <= RigLeft(c, g, z) <= Bound(c, g)
  }

  lemma RigBounded<O(!new)>(c: Setup, g: Design<O>, z: Rig<O>)
    requires Legal(c) && Safe(c, g, z)
    ensures Bounded(c, g, z)
  {
    Memories.LeftAllBounds(z.mems, g.specs);
    Alive.LeftBounds(c, z.y.x, Memories.LeftAll(z.mems, g.specs), Memories.CapAll(g.specs));
  }

  /** Under the restore request every memory comes one cycle closer to done. */
  lemma MemoriesShrink<O(!new)>(c: Setup, g: Design<O>, z: Rig<O>, junk: nat)
    requires Safe(c, g, z) && z.y.x.time.memReq
    ensures var r := TickRig(c, g, z, junk);
            Memories.LeftAll(r.mems, g.specs) == Memories.Less(Memories.LeftAll(z.mems, g.specs))
  {
    Memories.LeftAllStep(z.mems, MemPins(g, z), g.specs);
  }

  /** What the time controller hears of the memories. */
  lemma Heard<O(!new)>(c: Setup, g: Design<O>, z: Rig<O>, junk: nat, chain: seq<bool>)
    requires Safe(c, g, z)
    ensures var e := EnvOf(c, z.y, Input(c, g, z, junk, chain));
            !e.memBad && (z.y.x.time.memReq ==> (e.memDone <==> Memories.LeftAll(z.mems, g.specs) == 0))
  {
    Memories.AllOkFacts(z.mems, g.specs);
    Memories.LeftAllBounds(z.mems, g.specs);
  }

  /** Every cycle that does not release comes closer to the release, in every run. */
  lemma RigCloser<O(!new)>(c: Setup, g: Design<O>, z: Rig<O>, junk: nat)
    requires Legal(c) && c.b.rstCyc < Arith.W32 && Safe(c, g, z) && !Releasing(c, g, z, junk)
    ensures RigLeft(c, g, TickRig(c, g, z, junk)) < RigLeft(c, g, z)
  {
    var r, i := TickRig(c, g, z, junk), Input(c, g, z, junk, After(c, g, z, junk).chain);
    Heard(c, g, z, junk, i.dut);
    MemoriesPace(c, g, z, junk);
    TickCore(c, z.y, i);
    Alive.LeftStep(c, z.y.x, EnvOf(c, z.y, i),
                   Memories.LeftAll(z.mems, g.specs), Memories.LeftAll(r.mems, g.specs), Memories.CapAll(g.specs));
  }

  /** How far the memories are from done, before and after an edge. */
  lemma MemoriesPace<O(!new)>(c: Setup, g: Design<O>, z: Rig<O>, junk: nat)
    requires Legal(c) && Safe(c, g, z)
    ensures var left, r := Memories.LeftAll(z.mems, g.specs), TickRig(c, g, z, junk);
            var left' := Memories.LeftAll(r.mems, g.specs);
            && left >= 0 && 0 <= left' <= Memories.CapAll(g.specs)
            && (z.y.x.time.phase == 2 || z.y.x.time.phase == 6 ==> left' == Memories.Less(left))
  {
    SafeStep(c, g, z, junk);
    if z.y.x.time.memReq { MemoriesShrink(c, g, z, junk); }
    Memories.LeftAllBounds(z.mems, g.specs);
    Memories.LeftAllBounds(TickRig(c, g, z, junk).mems, g.specs);
  }

  lemma Pays<O(!new)>(c: Setup, g: Design<O>, z: Rig<O>, r: Rig<O>, rel: bool, all: nat)
    requires z.y.trials < all && r.y.trials == (if rel then z.y.trials + 1 else z.y.trials)
    requires Bounded(c, g, z) && Bounded(c, g, r) && (!rel ==> RigLeft(c, g, r) < RigLeft(c, g, z))
    ensures Alive.Owed(r.y.trials, all, Bound(c, g), RigLeft(c, g, r))
            < Alive.Owed(z.y.trials, all, Bound(c, g), RigLeft(c, g, z))
  {
    if rel { Alive.ReleasePays(z.y.trials, all, Bound(c, g), RigLeft(c, g, z), RigLeft(c, g, r)); }
  }

  lemma TrialsTick<O(!new)>(c: Setup, g: Design<O>, z: Rig<O>, junk: nat)
    requires Bench.Fits(c, g, z) && Prepared(c, g)
    ensures TickRig(c, g, z, junk).y.trials == if Releasing(c, g, z, junk) then z.y.trials + 1 else z.y.trials
  {
  }

  /** One clock cycle pays at least one cycle off, until n trials have been released. */
  lemma TickPays<O(!new)>(c: Setup, g: Design<O>, z: Rig<O>, junk: nat, n: nat)
    requires Legal(c) && c.b.rstCyc < Arith.W32 && Safe(c, g, z) && z.y.trials < n
    ensures Safe(c, g, TickRig(c, g, z, junk))
    ensures var r, b := TickRig(c, g, z, junk), Bound(c, g);
            && z.y.trials <= r.y.trials <= n
            && Alive.Owed(r.y.trials, n, b, RigLeft(c, g, r)) < Alive.Owed(z.y.trials, n, b, RigLeft(c, g, z))
  {
    TrialsTick(c, g, z, junk);
    SafeStep(c, g, z, junk);
    RigBounded(c, g, z);
    RigBounded(c, g, TickRig(c, g, z, junk));
    if !Releasing(c, g, z, junk) { RigCloser(c, g, z, junk); }
    Pays(c, g, z, TickRig(c, g, z, junk), Releasing(c, g, z, junk), n);
  }

  /** Paid so far: the releases that have been, or the cycles. */
  ghost predicate Paying<O(!new)>(c: Setup, g: Design<O>, z: Rig<O>, r: Rig<O>, n: nat, cycles: nat)
    requires Memories.AllFit(z.mems, g.specs) && Memories.AllFit(r.mems, g.specs)
  {
    || r.y.trials >= n
    || Alive.Owed(r.y.trials, n, Bound(c, g), RigLeft(c, g, r)) + cycles
       <= Alive.Owed(0, n, Bound(c, g), RigLeft(c, g, z))
  }

  lemma {:induction false} RunPays<O(!new)>(c: Setup, g: Design<O>, z: Rig<O>, junk: seq<nat>, n: nat)
    requires c.b.rstCyc < Arith.W32 && Fresh(c, g, z)
    ensures Safe(c, g, RunRig(c, g, z, junk)) && Paying(c, g, z, RunRig(c, g, z, junk), n, |junk|)
  {
    if junk != [] {
      var pre := junk[..|junk| - 1];
      RunPays(c, g, z, pre, n);
      PaysOn(c, g, z, RunRig(c, g, z, pre), junk[|junk| - 1], n, |pre|);
    }
  }

  lemma PaysOn<O(!new)>(c: Setup, g: Design<O>, z: Rig<O>, m: Rig<O>, junk: nat, n: nat, cycles: nat)
    requires Legal(c) && c.b.rstCyc < Arith.W32 && Safe(c, g, m)
    requires Memories.AllFit(z.mems, g.specs) && Paying(c, g, z, m, n, cycles)
    ensures Safe(c, g, TickRig(c, g, m, junk)) && Paying(c, g, z, TickRig(c, g, m, junk), n, cycles + 1)
  {
    if m.y.trials < n {
      TickPays(c, g, m, junk, n);
    } else {
      SafeStep(c, g, m, junk);
      TrialsTick(c, g, m, junk);
    }
  }

  lemma NothingOwed<O(!new)>(c: Setup, g: Design<O>, z: Rig<O>, r: Rig<O>, n: nat, cycles: nat)
    requires Bounded(c, g, z) && Bounded(c, g, r)
    requires cycles >= (n + 1) * (Bound(c, g) + 1) && Paying(c, g, z, r, n, cycles)
    ensures r.y.trials >= n
  {
    if r.y.trials < n { Alive.Paid(r.y.trials, n, Bound(c, g), RigLeft(c, g, r), RigLeft(c, g, z), cycles); }
  }

  /** In every run, whatever the table says and whenever a memory ends a trial: n trials have been
      released after at most n + 1 times the bound. */
  lemma {:induction false} TrialsGoOn<O(!new)>(c: Setup, g: Design<O>, z: Rig<O>, junk: seq<nat>, n: nat)
    requires c.b.rstCyc < Arith.W32 && Fresh(c, g, z) && |junk| >= (n + 1) * (Bound(c, g) + 1)
    ensures RunRig(c, g, z, junk).y.trials >= n
  {
    RunPays(c, g, z, junk, n);
    RigBounded(c, g, z);
    RigBounded(c, g, RunRig(c, g, z, junk));
    NothingOwed(c, g, z, RunRig(c, g, z, junk), n, |junk|);
  }

  /** Where n trials are due, they have been; the trial has started from the start state; and with cells
      to scrub it is the unwrapped run, struck at most once. */
  ghost predicate Isolated<O(!new)>(c: Setup, g: Design<O>, z: Rig<O>, junk: seq<nat>, n: nat)
    requires Bench.Fits(c, g, z) && Prepared(c, g)
  {
    var r, mk := RunRig(c, g, z, junk), MarkOf(c, g, z, junk);
    && StartsAtStart(c, g, r)
    && (|junk| >= (n + 1) * (Bound(c, g) + 1) ==> r.y.trials >= n)
    && (ScrubK(c) >= 1 ==> OnCourse(c, g, r, mk) && Once(r.y, mk))
  }

  lemma FreshIsIsolated<O(!new)>(c: Setup, g: Design<O>, z: Rig<O>, junk: seq<nat>, n: nat)
    requires Fresh(c, g, z) && c.b.rstCyc < Arith.W32
    ensures Isolated(c, g, z, junk, n)
  {
    EveryTrialStartsAtStart(c, g, z, junk);
    if |junk| >= (n + 1) * (Bound(c, g) + 1) { TrialsGoOn(c, g, z, junk, n); }
    if ScrubK(c) >= 1 { EveryTrialIsUnwrapped(c, g, z, junk); }
  }

  ghost predicate Finished(c: Setup, ps: seq<Plan>, y: Sys) {
    && y.trials > |ps| && y.x.tbl.exhausted && |y.shots| == |ps|
    && forall k :: 0 <= k < |ps| ==> y.shots[k].closed && Recorded(c, ps[k], k, y.shots[k])
  }

  lemma ReplayedToTheEnd(c: Setup, ps: seq<Plan>, y: Sys)
    requires Inv(c, ps, y) && y.trials > |ps|
    ensures Finished(c, ps, y)
  {
  }

  /** Every feasible campaign finishes: after at most `|ps| + 2` times the bound every trial has been run
      and made its pass, and the table is exhausted. */
  lemma {:induction false} CampaignFinishes<O(!new)>(c: Setup, g: Design<O>, ps: seq<Plan>, z: Rig<O>, junk: seq<nat>)
    requires Planned(c, ps) && c.b.rstCyc < Arith.W32 && Powered(c, g, ps, z) && Roomy(c, g, ps)
    requires |junk| >= (|ps| + 2) * (Bound(c, g) + 1)
    ensures Finished(c, ps, RunRig(c, g, z, junk).y)
  {
    PoweredIsFresh(c, g, ps, z);
    TrialsGoOn(c, g, z, junk, |ps| + 1);
    RigAlways(c, g, ps, z, junk);
    ReplayedToTheEnd(c, ps, RunRig(c, g, z, junk).y);
  }
}
