/** From the user's campaign to the flipped flops: the host's program, loaded into the
    registers and the table, makes the executor inject exactly what was asked for. */
module EndToEnd {
  import Arith
  import opened Executor
  import opened Trial
  import Campaign
  import Host
  import Patterns
  import TableCtrl

  function Nats(s: seq<int>): seq<nat>
    requires forall k :: 0 <= k < |s| ==> s[k] >= 0
  {
    seq(|s|, k requires 0 <= k < |s| => s[k])
  }

  /** The schedule as the table controller walks it. */
  function PlanOf(ns: seq<Host.Norm>, k: nat, w: nat): Plan
    requires k < |ns| && Host.TrialOk(ns[k], w) && Host.Gap(ns, k) >= 0
  {
    Plan(Host.Entries(ns, k), Nats(ns[k].idx), Host.Gap(ns, k), ns[k].cycle)
  }

  ghost predicate WellFormed(ns: seq<Host.Norm>, w: nat) {
    && ns != [] && w <= 31 && Host.TrialsOk(ns, w) && Host.GapsOk(ns, w) && Host.ByCycle(ns)
    && (forall k :: 0 <= k < |ns| ==> Host.Descending(ns[k].idx))
    && Host.Entries(ns, |ns|) <= Host.TBL_WORDS
  }

  lemma GapRange(ns: seq<Host.Norm>, w: nat, k: nat)
    requires WellFormed(ns, w) && k < |ns|
    ensures 0 <= Host.Gap(ns, k) < Arith.Pow2(31 - w)
  {
  }

  ghost function Plans(ns: seq<Host.Norm>, w: nat): (ps: seq<Plan>)
    requires WellFormed(ns, w)
    ensures |ps| == |ns|
  {
    seq(|ns|, k requires 0 <= k < |ns| => GapRange(ns, w, k); PlanOf(ns, k, w))
  }

  lemma {:induction false} AcceptedIsWellFormed(ts: seq<Host.Request>, toThr: int, w: nat)
    requires w <= 31 && Host.Accepted(ts, toThr, w)
    ensures WellFormed(Host.Schedule(ts), w)
  {
    var ns := Host.Schedule(ts);
    Host.ScheduleDescends(ts);
    forall k | 0 <= k < |ns| ensures Host.TrialOk(ns[k], w) {
      assert ns[k] in ns;
      assert ns[k] in Host.Normals(ts);
    }
  }

  // ---- the table holds the plans --------------------------------------------------------

  lemma {:induction false} TablePrefix(ns: seq<Host.Norm>, w: nat, j: nat, m: nat)
    requires j <= m <= |ns|
    ensures Host.Entries(ns, j) <= Host.Entries(ns, m)
    ensures Host.TableWords(w, ns, m)[..Host.Entries(ns, j)] == Host.TableWords(w, ns, j)
    decreases m
  {
    if j < m {
      TablePrefix(ns, w, j, m - 1);
    }
  }

  /** The word of entry i of trial k. */
  lemma TableAt(ns: seq<Host.Norm>, w: nat, k: nat, i: nat)
    requires k < |ns| && i < |ns[k].idx|
    ensures Host.Entries(ns, k) + i < Host.Entries(ns, |ns|)
    ensures Host.TableWords(w, ns, |ns|)[Host.Entries(ns, k) + i]
            == Host.PatternWords(w, Host.Gap(ns, k), ns[k].idx)[i]
  {
    TablePrefix(ns, w, k + 1, |ns|);
    var all, pre := Host.TableWords(w, ns, |ns|), Host.TableWords(w, ns, k + 1);
    assert all[Host.Entries(ns, k) + i] == all[..Host.Entries(ns, k + 1)][Host.Entries(ns, k) + i];
  }

  lemma {:induction false} EntryOwner(ns: seq<Host.Norm>, m: nat, j: nat) returns (k: nat, i: nat)
    requires m <= |ns| && j < Host.Entries(ns, m)
    ensures k < m && i < |ns[k].idx| && j == Host.Entries(ns, k) + i
  {
    if j >= Host.Entries(ns, m - 1) {
      k, i := m - 1, j - Host.Entries(ns, m - 1);
    } else {
      k, i := EntryOwner(ns, m - 1, j);
    }
  }

  lemma PatternFits(ns: seq<Host.Norm>, w: nat, k: nat, i: nat)
    requires WellFormed(ns, w) && k < |ns| && i < |ns[k].idx|
    ensures var x := Host.PatternWords(w, Host.Gap(ns, k), ns[k].idx)[i];
            && 0 <= x < Arith.W32
            && Host.Decode(w, x) == (if i == |ns[k].idx| - 1
                                     then TableCtrl.Entry(true, Host.Gap(ns, k), ns[k].idx[i])
                                     else TableCtrl.Entry(false, 0, ns[k].idx[i]))
  {
    GapRange(ns, w, k);
    assert Host.TrialOk(ns[k], w);
    if i == |ns[k].idx| - 1 {
      Host.EntryRoundTrip(w, true, Host.Gap(ns, k), ns[k].idx[i]);
    } else {
      Host.EntryRoundTrip(w, false, 0, ns[k].idx[i]);
    }
  }

  lemma WordsFit(ns: seq<Host.Norm>, w: nat)
    requires WellFormed(ns, w)
    ensures Host.FitsWord(Host.TableWords(w, ns, |ns|))
  {
    forall j | 0 <= j < Host.Entries(ns, |ns|) ensures 0 <= Host.TableWords(w, ns, |ns|)[j] < Arith.W32 {
      var k, i := EntryOwner(ns, |ns|, j);
      TableAt(ns, w, k, i);
      PatternFits(ns, w, k, i);
    }
  }

  /** The hardware as the registers configure it. */
  function SetupOf(b: Build, w: nat, r: Host.Regs): Setup {
    Setup(b, seq(|r.mem|, k requires 0 <= k < |r.mem| => Host.Decode(w, r.mem[k])), r.len, r.toThr, r.tblLen)
  }

  ghost predicate Holds(r: Host.Regs, w: nat, ns: seq<Host.Norm>, thr: int, len: int)
    requires ns != []
  {
    && r.len == len && r.tblLen == Host.Entries(ns, |ns|) <= |r.mem| && r.toThr == thr
    && r.mem[..r.tblLen] == Host.TableWords(w, ns, |ns|)
  }

  lemma EntryAt(b: Build, w: nat, r: Host.Regs, ns: seq<Host.Norm>, thr: int, len: int, k: nat, i: nat)
    requires WellFormed(ns, w) && Holds(r, w, ns, thr, len) && k < |ns| && i < |ns[k].idx|
    ensures Host.Entries(ns, k) + i < r.tblLen
    ensures SetupOf(b, w, r).table[Host.Entries(ns, k) + i] ==
            if i == |ns[k].idx| - 1 then TableCtrl.Entry(true, Host.Gap(ns, k), ns[k].idx[i])
            else TableCtrl.Entry(false, 0, ns[k].idx[i])
  {
    TableAt(ns, w, k, i);
    PatternFits(ns, w, k, i);
    assert r.mem[Host.Entries(ns, k) + i] == r.mem[..r.tblLen][Host.Entries(ns, k) + i];
  }

  lemma {:induction false} PlanLoaded(b: Build, w: nat, r: Host.Regs, ns: seq<Host.Norm>, thr: int, len: int, k: nat)
    requires WellFormed(ns, w) && Holds(r, w, ns, thr, len) && k < |ns|
    requires Host.TrialOk(ns[k], w) && Host.Gap(ns, k) >= 0
    ensures Loaded(SetupOf(b, w, r), PlanOf(ns, k, w))
  {
    var c, p := SetupOf(b, w, r), PlanOf(ns, k, w);
    forall i | 0 <= i < |p.idx| ensures HoldsEntry(c, p, i) { PlanEntry(b, w, r, ns, thr, len, k, i); }
    EntriesLoad(c, p);
  }

  /** Word i of the plan is in the table. */
  predicate HoldsEntry(c: Setup, p: Plan, i: nat)
    requires i < |p.idx|
  {
    && p.base + i < c.tblLen <= |c.table|
    && c.table[p.base + i] == if i == |p.idx| - 1 then TableCtrl.Entry(true, p.off, p.idx[i])
                              else TableCtrl.Entry(false, 0, p.idx[i])
  }

  lemma PlanEntry(b: Build, w: nat, r: Host.Regs, ns: seq<Host.Norm>, thr: int, len: int, k: nat, i: nat)
    requires WellFormed(ns, w) && Holds(r, w, ns, thr, len) && k < |ns| && i < |ns[k].idx|
    requires Host.TrialOk(ns[k], w) && Host.Gap(ns, k) >= 0
    ensures HoldsEntry(SetupOf(b, w, r), PlanOf(ns, k, w), i)
  {
    EntryAt(b, w, r, ns, thr, len, k, i);
  }

  lemma EntriesLoad(c: Setup, p: Plan)
    requires p.idx != [] && forall i :: 0 <= i < |p.idx| ==> HoldsEntry(c, p, i)
    ensures Loaded(c, p)
  {
    var last: nat := |p.idx| - 1;
    assert HoldsEntry(c, p, last) && p.base + |p.idx| - 1 == p.base + last;
    forall i | 0 <= i < |p.idx|
      ensures c.table[p.base + i].idx == p.idx[i] && (c.table[p.base + i].eop <==> i == |p.idx| - 1)
    {
      assert HoldsEntry(c, p, i);
    }
  }

  // ---- the theorem ----------------------------------------------------------------------

  /** What fi_campaign does not check: indices past the chain leave the pattern's cells alone, the
      prefetch is ready at the trial's cycle, and the start comes two cycles before the timeout. */
  predicate Feasible(b: Build, n: Host.Norm, len: nat, thr: int) {
    && Patterns.Harmless(n.idx, len, b.lookahead)
    && n.cycle + 2 >= TableCtrl.Min(|n.idx|, b.lookahead)
    && thr >= n.cycle + 2
  }

  /** Plan k is trial k: the same indices, and feasible alike. */
  lemma PlanIsTrial(b: Build, w: nat, r: Host.Regs, ns: seq<Host.Norm>, thr: int, len: int, k: nat)
    requires WellFormed(ns, w) && Holds(r, w, ns, thr, len) && k < |ns|
    ensures var c, p := SetupOf(b, w, r), Plans(ns, w)[k];
            && Patterns.Descends(p.idx) && p.idx == ns[k].idx && p.cycle == ns[k].cycle
            && (Patterns.Works(c, p) <==> Feasible(b, ns[k], len, thr))
  {
    assert Host.TrialOk(ns[k], w) && Host.Descending(ns[k].idx);
    var c, p := SetupOf(b, w, r), Plans(ns, w)[k];
    assert p.idx == ns[k].idx;
    if Patterns.Shows(p.idx, c.len) { Patterns.FitsIff(c, p); }
  }

  lemma AllTabled(b: Build, w: nat, r: Host.Regs, ns: seq<Host.Norm>, thr: int, len: int)
    requires WellFormed(ns, w) && Holds(r, w, ns, thr, len) && ns[|ns| - 1].cycle < thr
    requires b.rstCyc >= 1 && b.lookahead >= 2 && 1 <= len < Arith.W32 && 1 <= thr < Arith.W32
    ensures Campaign.Tabled(SetupOf(b, w, r), Plans(ns, w))
  {
    var c, ps := SetupOf(b, w, r), Plans(ns, w);
    forall k | 0 <= k < |ns| ensures Loaded(c, ps[k]) && 1 <= ps[k].cycle < c.toThr {
      GapRange(ns, w, k);
      assert Host.TrialOk(ns[k], w);
      PlanLoaded(b, w, r, ns, thr, len, k);
    }
    PlansChain(ns, w);
    assert Legal(c) by { assert Loaded(c, ps[0]); }
    assert Campaign.Last(c, ps[|ps| - 1]);
  }

  lemma AllPlanned(b: Build, w: nat, r: Host.Regs, ns: seq<Host.Norm>, thr: int, len: int)
    requires WellFormed(ns, w) && Holds(r, w, ns, thr, len) && ns[|ns| - 1].cycle < thr
    requires b.rstCyc >= 1 && b.lookahead >= 2 && 1 <= len < Arith.W32 && 1 <= thr < Arith.W32
    requires forall k :: 0 <= k < |ns| ==> Feasible(b, ns[k], len, thr)
    ensures Campaign.Planned(SetupOf(b, w, r), Plans(ns, w))
    ensures forall k :: 0 <= k < |ns| ==> Patterns.Shows(Plans(ns, w)[k].idx, len)
  {
    AllTabled(b, w, r, ns, thr, len);
    forall k | 0 <= k < |ns|
      ensures Campaign.Replayable(SetupOf(b, w, r), Plans(ns, w)[k]) && Patterns.Shows(Plans(ns, w)[k].idx, len)
    {
      PlanIsTrial(b, w, r, ns, thr, len, k);
    }
  }

  lemma PlansChain(ns: seq<Host.Norm>, w: nat)
    requires WellFormed(ns, w)
    ensures Plans(ns, w)[0].base == 0
    ensures forall k :: 0 <= k < |ns| - 1 ==> Campaign.Follows(Plans(ns, w)[k], Plans(ns, w)[k + 1])
    ensures var p := Plans(ns, w)[|ns| - 1]; p.base + |p.idx| == Host.Entries(ns, |ns|) && p.off == 0
  {
  }

  lemma PlanCycle(ns: seq<Host.Norm>, w: nat, k: nat)
    requires WellFormed(ns, w) && k < |ns|
    ensures Plans(ns, w)[k].cycle == ns[k].cycle
  {
  }

  lemma PlansAsk(ns: seq<Host.Norm>, w: nat)
    requires WellFormed(ns, w)
    ensures Patterns.Asked(Plans(ns, w)) == ns
    ensures forall k :: 0 <= k < |ns| ==> Patterns.Descends(Plans(ns, w)[k].idx)
  {
    forall k | 0 <= k < |ns|
      ensures Patterns.Asked(Plans(ns, w))[k] == ns[k] && Patterns.Descends(Plans(ns, w)[k].idx)
    {
      assert Host.TrialOk(ns[k], w) && Host.Descending(ns[k].idx);
      PlanCycle(ns, w, k);
    }
  }

  lemma ReplayedInjects(c: Setup, ns: seq<Host.Norm>, w: nat, r: Campaign.Sys)
    requires WellFormed(ns, w) && Campaign.Replayed(c, Plans(ns, w), r)
    requires forall k :: 0 <= k < |ns| ==> Patterns.Shows(Plans(ns, w)[k].idx, c.len)
    ensures Patterns.Injected(ns, r)
  {
    PlansAsk(ns, w);
    Patterns.ReplayedIsInjected(c, Plans(ns, w), r);
  }

  // ---- a job: the user's campaign, the field width, the chain and the build ------------------------------

  datatype Job = Job(ts: seq<Host.Request>, toThr: int, w: nat, len: int, b: Build)

  /** The trials in the order they run. */
  function Trials(j: Job): seq<Host.Norm> { Host.Schedule(j.ts) }

  function Thr(j: Job): int
    requires j.ts != []
  {
    Host.Timeout(Trials(j), j.toThr)
  }

  /** fi_campaign accepts it, and its numbers fit the hardware. */
  ghost predicate Allowed(j: Job) {
    && j.w <= 31 && Host.Accepted(j.ts, j.toThr, j.w) && Thr(j) < Arith.W32
    && j.b.rstCyc >= 1 && j.b.lookahead >= 2 && 1 <= j.len < Arith.W32
  }

  ghost predicate AllFeasible(j: Job)
    requires Allowed(j)
  {
    forall k :: 0 <= k < |Trials(j)| ==> Feasible(j.b, Trials(j)[k], j.len, Thr(j))
  }

  function Written(j: Job, r0: Host.Regs): Host.Regs
    requires j.ts != []
  {
    Host.ApplyAll(r0, Host.Program(j.w, Trials(j), Thr(j), j.len))
  }

  /** The hardware after the host's program. */
  function Configured(j: Job, r0: Host.Regs): Setup
    requires j.ts != []
  {
    SetupOf(j.b, j.w, Written(j, r0))
  }

  ghost function PlansOf(j: Job): (ps: seq<Plan>)
    requires Allowed(j)
    ensures |ps| == |Trials(j)|
  {
    AcceptedIsWellFormed(j.ts, j.toThr, j.w);
    Plans(Trials(j), j.w)
  }

  lemma JobHolds(j: Job, r0: Host.Regs)
    requires Allowed(j) && |r0.mem| == Host.TBL_WORDS
    ensures WellFormed(Trials(j), j.w) && Trials(j)[|Trials(j)| - 1].cycle < Thr(j) && 1 <= Thr(j)
    ensures Holds(Written(j, r0), j.w, Trials(j), Thr(j), j.len) && Written(j, r0).fiCycle == Trials(j)[0].cycle
    ensures Written(j, r0).auto
  {
    var ns := Trials(j);
    AcceptedIsWellFormed(j.ts, j.toThr, j.w);
    WordsFit(ns, j.w);
    assert Host.TrialOk(ns[0], j.w) && Host.TrialOk(ns[|ns| - 1], j.w);
    Host.ProgramLoads(r0, j.w, ns, Thr(j), j.len);
  }

  /** Every accepted campaign is in the table, trial by trial. */
  lemma JobTabled(j: Job, r0: Host.Regs)
    requires Allowed(j) && |r0.mem| == Host.TBL_WORDS
    ensures var c, ps, ns := Configured(j, r0), PlansOf(j), Trials(j);
            && Campaign.Tabled(c, ps) && c.len == j.len && c.toThr == Thr(j)
            && Written(j, r0).fiCycle == ps[0].cycle
    ensures var c, ps, ns := Configured(j, r0), PlansOf(j), Trials(j);
            forall k :: 0 <= k < |ns| ==>
              && Patterns.Descends(ps[k].idx) && ps[k].idx == ns[k].idx && ps[k].cycle == ns[k].cycle
              && (Patterns.Works(c, ps[k]) <==> Feasible(j.b, ns[k], j.len, Thr(j)))
  {
    var ns := Trials(j);
    JobHolds(j, r0);
    AllTabled(j.b, j.w, Written(j, r0), ns, Thr(j), j.len);
    forall k | 0 <= k < |ns|
      ensures var c, p := Configured(j, r0), PlansOf(j)[k];
              && Patterns.Descends(p.idx) && p.idx == ns[k].idx && p.cycle == ns[k].cycle
              && (Patterns.Works(c, p) <==> Feasible(j.b, ns[k], j.len, Thr(j)))
    {
      PlanIsTrial(j.b, j.w, Written(j, r0), ns, Thr(j), j.len, k);
    }
  }

  lemma JobPlanned(j: Job, r0: Host.Regs)
    requires Allowed(j) && |r0.mem| == Host.TBL_WORDS && AllFeasible(j)
    ensures Campaign.Planned(Configured(j, r0), PlansOf(j))
    ensures forall k :: 0 <= k < |Trials(j)| ==> Patterns.Shows(PlansOf(j)[k].idx, j.len)
  {
    JobHolds(j, r0);
    AllPlanned(j.b, j.w, Written(j, r0), Trials(j), Thr(j), j.len);
  }

  /** The run starts armed, and no memory ends a trial before its pass. */
  ghost predicate StartsClean(c: Setup, ps: seq<Plan>, y: Campaign.Sys, ins: seq<Campaign.In>) {
    Campaign.Armed(c, ps, y) && Campaign.Wired(c, ins) && Campaign.NeverEarlyAbort(c, ps, y, ins)
  }

  /** For every campaign fi_campaign accepts, every register content before it, and every run of
      the armed hardware, of any length and whatever the design and the memories do: the passes
      made are exactly the schedule. */
  lemma {:induction false} CampaignInjectsExactly(j: Job, r0: Host.Regs, y: Campaign.Sys, ins: seq<Campaign.In>)
    requires Allowed(j) && AllFeasible(j) && |r0.mem| == Host.TBL_WORDS
    requires StartsClean(Configured(j, r0), PlansOf(j), y, ins)
    ensures Patterns.Injected(Trials(j), Campaign.Run(Configured(j, r0), y, ins))
  {
    JobHolds(j, r0);
    JobPlanned(j, r0);
    PlannedInjects(Configured(j, r0), Trials(j), j.w, y, ins);
  }

  lemma PlannedInjects(c: Setup, ns: seq<Host.Norm>, w: nat, y: Campaign.Sys, ins: seq<Campaign.In>)
    requires WellFormed(ns, w) && Campaign.Planned(c, Plans(ns, w)) && StartsClean(c, Plans(ns, w), y, ins)
    requires forall k :: 0 <= k < |ns| ==> Patterns.Shows(Plans(ns, w)[k].idx, c.len)
    ensures Patterns.Injected(ns, Campaign.Run(c, y, ins))
  {
    Campaign.ReplaysThePlan(c, Plans(ns, w), y, ins);
    ReplayedInjects(c, ns, w, Campaign.Run(c, y, ins));
  }
}
