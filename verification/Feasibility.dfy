/** Exactly which accepted campaigns are injected. */
module Feasibility {
  import Alive
  import Arith
  import opened Trial
  import opened EndToEnd
  import Boot
  import Campaign
  import Host
  import Outcome
  import Patterns
  import TableCtrl

  /** The hardware of a job right after its session, with this content on the chain. */
  function StartOf(j: Job, mem: seq<nat>, vs: seq<Boot.Event>, chain: seq<bool>): Campaign.Sys {
    Boot.Observed(Boot.CoreAfter(j, mem, vs), chain)
  }

  /** A run in which no memory ends a trial before its start pulse has gone by. */
  ghost predicate Clean(j: Job, mem: seq<nat>, y: Campaign.Sys, ins: seq<Campaign.In>)
    requires Allowed(j) && Campaign.Sized(Boot.SetupFor(j, mem), y)
  {
    Campaign.Wired(Boot.SetupFor(j, mem), ins) && Campaign.NeverEarlyAbort(Boot.SetupFor(j, mem), PlansOf(j), y, ins)
  }

  lemma JobAsks(j: Job, mem: seq<nat>)
    requires Allowed(j) && |mem| == Host.TBL_WORDS
    ensures var c := Boot.SetupFor(j, mem);
            && Campaign.Tabled(c, PlansOf(j)) && Outcome.AllDescend(PlansOf(j))
            && Patterns.Asked(PlansOf(j)) == Trials(j)
            && (Outcome.AllWork(c, PlansOf(j)) <==> AllFeasible(j)) && c.b == j.b && c.len == j.len
  {
    JobTabled(j, Boot.Cold(mem).regs);
  }

  lemma SessionStarts(j: Job, mem: seq<nat>, vs: seq<Boot.Event>, chain: seq<bool>)
    requires Boot.SessionOf(j, mem, vs) && |chain| == j.len
    ensures var c, y := Boot.SetupFor(j, mem), StartOf(j, mem, vs, chain);
            && Campaign.Sized(c, y) && Campaign.Tabled(c, PlansOf(j)) && Outcome.AllDescend(PlansOf(j))
            && Campaign.Armed(c, PlansOf(j), y) && Alive.Lives(c, y.x) && Patterns.Asked(PlansOf(j)) == Trials(j)
            && (Outcome.AllWork(c, PlansOf(j)) <==> AllFeasible(j)) && c.b == j.b
  {
    JobAsks(j, mem);
    Boot.SessionIsArmed(j, mem, vs, chain);
    SessionLives(j, mem, vs);
  }

  lemma SessionLives(j: Job, mem: seq<nat>, vs: seq<Boot.Event>)
    requires Boot.SessionOf(j, mem, vs)
    ensures Alive.Lives(Boot.SetupFor(j, mem), Boot.CoreAfter(j, mem, vs))
  {
    Boot.SessionArms(j.b, j.w, Trials(j), Thr(j), j.len, mem, vs);
  }

  ghost predicate AlwaysInjected(j: Job, mem: seq<nat>, y: Campaign.Sys)
    requires Allowed(j) && Campaign.Sized(Boot.SetupFor(j, mem), y)
  {
    forall ins :: Clean(j, mem, y, ins) ==> Patterns.Injected(Trials(j), Campaign.Run(Boot.SetupFor(j, mem), y, ins))
  }

  /** For every accepted campaign, from power-on with the writes arriving at any spacing: the hardware
      injects exactly the campaign in every run in which no memory ends a trial early, if and only if
      every trial is feasible. */
  lemma {:induction false} InjectedIff(j: Job, mem: seq<nat>, vs: seq<Boot.Event>, chain: seq<bool>)
    requires Boot.SessionOf(j, mem, vs) && |chain| == j.len && j.b.rstCyc < Arith.W32
    ensures Campaign.Sized(Boot.SetupFor(j, mem), StartOf(j, mem, vs, chain))
    ensures AlwaysInjected(j, mem, StartOf(j, mem, vs, chain)) <==> AllFeasible(j)
  {
    SessionStarts(j, mem, vs, chain);
    PlannedIff(j, mem, StartOf(j, mem, vs, chain));
  }

  lemma PlannedIff(j: Job, mem: seq<nat>, y: Campaign.Sys)
    requires Allowed(j) && j.b.rstCyc < Arith.W32
    requires var c := Boot.SetupFor(j, mem);
             && Campaign.Sized(c, y) && Campaign.Tabled(c, PlansOf(j)) && Outcome.AllDescend(PlansOf(j))
             && Campaign.Armed(c, PlansOf(j), y) && Alive.Lives(c, y.x) && Patterns.Asked(PlansOf(j)) == Trials(j)
             && (Outcome.AllWork(c, PlansOf(j)) <==> AllFeasible(j)) && c.b == j.b
    ensures AlwaysInjected(j, mem, y) <==> AllFeasible(j)
  {
    var c, ps := Boot.SetupFor(j, mem), PlansOf(j);
    Outcome.AsPlannedIff(c, ps, y);
    assert Outcome.AlwaysAsPlanned(c, ps, y) <==> AlwaysInjected(j, mem, y);
  }

  /** Some moment of the run is not what was asked for. */
  ghost predicate Fails(j: Job, mem: seq<nat>, y: Campaign.Sys, ins: seq<Campaign.In>)
    requires Allowed(j) && Campaign.Sized(Boot.SetupFor(j, mem), y) && Campaign.Wired(Boot.SetupFor(j, mem), ins)
  {
    || !Patterns.Injected(Trials(j), Campaign.Run(Boot.SetupFor(j, mem), y, ins))
    || (ins != [] && Fails(j, mem, y, ins[..|ins| - 1]))
  }

  lemma {:induction false} FailsAlike(j: Job, mem: seq<nat>, y: Campaign.Sys, ins: seq<Campaign.In>)
    requires Allowed(j) && Campaign.Sized(Boot.SetupFor(j, mem), y) && Campaign.Wired(Boot.SetupFor(j, mem), ins)
    requires Patterns.Asked(PlansOf(j)) == Trials(j)
    ensures Fails(j, mem, y, ins) <==> Outcome.GoesWrong(Boot.SetupFor(j, mem), PlansOf(j), y, ins)
  {
    if ins != [] { FailsAlike(j, mem, y, ins[..|ins| - 1]); }
  }

  /** Run by run: every clean run past the last trial of an infeasible campaign goes wrong, and none of
      a feasible one. */
  lemma {:induction false} EveryCompleteRunIff(
    j: Job, mem: seq<nat>, vs: seq<Boot.Event>, chain: seq<bool>, ins: seq<Campaign.In>)
    requires Boot.SessionOf(j, mem, vs) && |chain| == j.len
    requires Campaign.Sized(Boot.SetupFor(j, mem), StartOf(j, mem, vs, chain))
    requires Clean(j, mem, StartOf(j, mem, vs, chain), ins)
    requires Campaign.Run(Boot.SetupFor(j, mem), StartOf(j, mem, vs, chain), ins).trials > |Trials(j)|
    ensures Fails(j, mem, StartOf(j, mem, vs, chain), ins) <==> !AllFeasible(j)
  {
    SessionStarts(j, mem, vs, chain);
    FailsAlike(j, mem, StartOf(j, mem, vs, chain), ins);
    Outcome.CompleteRunIff(Boot.SetupFor(j, mem), PlansOf(j), StartOf(j, mem, vs, chain), ins);
  }

  // ---- campaigns of one trial ------------------------------------------------------------------------

  predicate Buildable(j: Job) {
    j.w <= 31 && 1 <= j.b.rstCyc < Arith.W32 && j.b.lookahead == 4 && 1 <= j.len < Arith.W32
  }

  /** One trial with its indices on the chain. */
  ghost predicate OnChain(t: Host.Request, j: Job) {
    && j.ts == [t] && t.cycle > 0 && t.flops != [] && |Host.SortDesc(t.flops)| <= Host.TBL_WORDS
    && forall v :: v in t.flops ==> 0 <= v < Arith.Pow2(j.w) && v < j.len
  }

  lemma OneTrial(t: Host.Request)
    ensures Host.Schedule([t]) == [Host.Normal(t)]
  {
  }

  lemma OneTrialAccepted(t: Host.Request, j: Job)
    requires Buildable(j) && OnChain(t, j) && (j.toThr == 0 || j.toThr > t.cycle) && Thr(j) < Arith.W32
    ensures Allowed(j)
    ensures AllFeasible(j) <==> t.cycle + 2 >= TableCtrl.Min(|Host.SortDesc(t.flops)|, 4) && Thr(j) >= t.cycle + 2
  {
    OneTrial(t);
    var n := Host.Normal(t);
    assert t.flops[0] in n.idx;
    assert forall k :: 0 <= k < |n.idx| ==> n.idx[k] in t.flops;
    assert Host.TrialOk(n, j.w);
    assert Host.Entries([n], 1) == Host.Entries([n], 0) + |n.idx|;
  }

  lemma InfeasibleIsNotInjected(j: Job)
    requires Allowed(j) && !AllFeasible(j) && j.b.rstCyc < Arith.W32
    ensures forall mem, vs, chain :: Boot.SessionOf(j, mem, vs) && |chain| == j.len ==>
              && Campaign.Sized(Boot.SetupFor(j, mem), StartOf(j, mem, vs, chain))
              && !AlwaysInjected(j, mem, StartOf(j, mem, vs, chain))
  {
    forall mem, vs, chain | Boot.SessionOf(j, mem, vs) && |chain| == j.len
      ensures && Campaign.Sized(Boot.SetupFor(j, mem), StartOf(j, mem, vs, chain))
              && !AlwaysInjected(j, mem, StartOf(j, mem, vs, chain))
    {
      InjectedIff(j, mem, vs, chain);
    }
  }

  /** The host takes a trial whose timeout is the next cycle, and the hardware does not inject it. */
  lemma LateTrialIsLost(t: Host.Request, j: Job)
    requires Buildable(j) && OnChain(t, j) && j.toThr == t.cycle + 1 < Arith.W32
    ensures Allowed(j)
    ensures forall mem, vs, chain :: Boot.SessionOf(j, mem, vs) && |chain| == j.len ==>
              && Campaign.Sized(Boot.SetupFor(j, mem), StartOf(j, mem, vs, chain))
              && !AlwaysInjected(j, mem, StartOf(j, mem, vs, chain))
  {
    OneTrialAccepted(t, j);
    InfeasibleIsNotInjected(j);
  }

  /** The host takes every trial at cycle 1; with four indices or more it is not injected. */
  lemma EarlyTrialIsLost(t: Host.Request, j: Job)
    requires Buildable(j) && OnChain(t, j) && j.toThr == 0 && t.cycle == 1 && |Host.SortDesc(t.flops)| >= 4
    ensures Allowed(j)
    ensures forall mem, vs, chain :: Boot.SessionOf(j, mem, vs) && |chain| == j.len ==>
              && Campaign.Sized(Boot.SetupFor(j, mem), StartOf(j, mem, vs, chain))
              && !AlwaysInjected(j, mem, StartOf(j, mem, vs, chain))
  {
    OneTrial(t);
    OneTrialAccepted(t, j);
    InfeasibleIsNotInjected(j);
  }

  /** A single trial from cycle 2 on with the default timeout is accepted and injected. */
  lemma {:induction false} LaterTrialIsInjected(
    t: Host.Request, j: Job, mem: seq<nat>, vs: seq<Boot.Event>, chain: seq<bool>)
    requires Buildable(j) && OnChain(t, j) && j.toThr == 0 && t.cycle >= 2 && Thr(j) < Arith.W32
    ensures Allowed(j) && AllFeasible(j)
    ensures Boot.SessionOf(j, mem, vs) && |chain| == j.len ==>
              && Campaign.Sized(Boot.SetupFor(j, mem), StartOf(j, mem, vs, chain))
              && AlwaysInjected(j, mem, StartOf(j, mem, vs, chain))
  {
    OneTrial(t);
    OneTrialAccepted(t, j);
    if Boot.SessionOf(j, mem, vs) && |chain| == j.len { InjectedIff(j, mem, vs, chain); }
  }
}
