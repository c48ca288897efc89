/** When a trial's pass happens, exactly. The host accepts campaigns outside the conditions of
    `Trial.Prefetches` and `Trial.BeatsTimeout`; here is what the hardware does with those. */
module Exact {
  import opened Executor
  import opened Trial
  import ScanCtrl
  import TableCtrl
  import TimeCtrl

  function Run(c: Setup, x: Core, es: seq<Env>): Core {
    if es == [] then x else Next(c, Run(c, x, es[..|es| - 1]), es[|es| - 1])
  }

  /** Some edge of the run opens an injection pass with the design out of reset. */
  predicate Passes(c: Setup, x: Core, es: seq<Env>) {
    es != [] && (Passes(c, x, es[..|es| - 1]) || OpensPass(Run(c, x, es)))
  }

  /** The run stays within one trial, and no memory ends it before its start pulse has gone by. */
  predicate WithinTrial(c: Setup, p: Plan, x: Core, es: seq<Env>) {
    es == [] || (&& WithinTrial(c, p, x, es[..|es| - 1])
                 && !Releases(c.b, Run(c, x, es[..|es| - 1]), HostIn(c), es[|es| - 1])
                 && (es[|es| - 1].memAbort ==> |es| > p.cycle + 3))
  }

  // ---- a trial without a pass ---------------------------------------------------------------

  /** The start pulse has gone by and the reset window runs its course. */
  predicate Missed(x: Core) { Paced(x) && Spent(x) }

  lemma MissedStep(c: Setup, x: Core, e: Env)
    requires Missed(x) && !Releases(c.b, x, HostIn(c), e)
    ensures Missed(Next(c, x, e))
  {
  }

  /** The pulse finds too few entries. */
  lemma NotReady(c: Setup, p: Plan, x: Core, e: Env)
    requires Legal(c) && Loaded(c, p) && Wait(c, p, x, p.cycle + 3) && !Prefetches(c, p)
    ensures Missed(Next(c, x, e))
  {
  }

  /** The scrub is armed one cycle before the pulse arrives. */
  predicate Late(x: Core) {
    Paced(x) && ScrubLead(x.scan) && x.time.phase == 3 && x.time.fired && !x.time.scanStart && !x.s1
  }

  lemma ScrubComesFirst(c: Setup, p: Plan, x: Core, e: Env)
    requires Legal(c) && Wait(c, p, x, p.cycle + 2) && !BeatsTimeout(c, p) && ScrubK(c) >= 1 && p.cycle >= 1
    ensures Late(Next(c, x, e))
  {
  }

  lemma LateStep(c: Setup, x: Core, e: Env)
    requires Late(x)
    ensures Missed(Next(c, x, e))
  {
  }

  lemma LatePulse(c: Setup, p: Plan, x: Core, e: Env)
    requires Legal(c) && Wait(c, p, x, p.cycle + 2) && p.cycle >= 1 && !BeatsTimeout(c, p) && ScrubK(c) == 0
    ensures var m := Next(c, x, e);
            && m.cfgEn && m.s2 && !m.scan.startD && Idle(m.scan) && m.scan.scrubDone
            && m.time.phase == 3 && m.time.stopped
  {
  }

  // ---- the time controller, in any state ------------------------------------------------------------

  predicate Timely(t: TimeCtrl.Time) {
    && (t.phase == 0 || t.phase == 2 || t.phase == 3 || t.phase == 5 || t.phase == 6)
    && (t.stopped <==> t.phase != 0)
    && (t.resolverRst <==> t.phase == 2 || t.phase == 5 || t.phase == 6)
  }

  lemma TimelyStep(c: Setup, x: Core, e: Env)
    requires Timely(x.time)
    ensures Timely(Next(c, x, e).time)
    ensures Releases(c.b, x, HostIn(c), e) ==> x.time.resolverRst
    ensures x.time.resolverRst && !Releases(c.b, x, HostIn(c), e) ==> Next(c, x, e).time.resolverRst
  {
  }

  // ---- a trial without a pass -------------------------------------------------------------------------

  /** With nothing to scrub: the reset comes with the next edge. */
  predicate ResetIsDue(x: Core) {
    x.time.phase == 3 && x.time.stopped && !x.time.resolverRst && Idle(x.scan) && x.scan.scrubDone
  }

  predicate Missing(x: Core) {
    Timely(x.time) && (x.time.resolverRst || Missed(x) || Late(x) || ResetIsDue(x))
  }

  lemma MissingStep(c: Setup, x: Core, e: Env)
    requires Missing(x) && !Releases(c.b, x, HostIn(c), e)
    ensures Missing(Next(c, x, e))
  {
    TimelyStep(c, x, e);
    if Late(x) { LateStep(c, x, e); }
    else if Missed(x) { MissedStep(c, x, e); }
  }

  lemma MissingOpensNothing(x: Core)
    requires Missing(x)
    ensures !OpensPass(x)
  {
  }

  /** The edge after which the pulse finds too little, or finds the scrub. */
  lemma WaitMisses(c: Setup, p: Plan, x: Core, e: Env, n: nat)
    requires Legal(c) && Loaded(c, p) && Wait(c, p, x, n) && p.cycle >= 1
    requires (n == p.cycle + 3 && !Prefetches(c, p)) || (n == p.cycle + 2 && !BeatsTimeout(c, p))
    ensures Missing(Next(c, x, e))
  {
    assert Timely(x.time);
    TimelyStep(c, x, e);
    if n == p.cycle + 3 { NotReady(c, p, x, e); }
    else if ScrubK(c) >= 1 { ScrubComesFirst(c, p, x, e); }
    else { LatePulse(c, p, x, e); }
  }

  // ---- the whole trial ------------------------------------------------------------------------

  /** A trial from its release on: where it stands after |es| cycles. */
  ghost predicate Begun(c: Setup, p: Plan, x: Core) {
    Legal(c) && Loaded(c, p) && p.cycle >= 1 && Wait(c, p, x, 0)
  }

  lemma {:induction false} WaitRun(c: Setup, p: Plan, x: Core, es: seq<Env>)
    requires Begun(c, p, x) && WithinTrial(c, p, x, es) && |es| <= p.cycle + 3 && |es| <= c.toThr + 1
    ensures Wait(c, p, Run(c, x, es), |es|) && !Passes(c, x, es)
  {
    if es != [] {
      var pre := es[..|es| - 1];
      WaitRun(c, p, x, pre);
      WaitStep(c, p, Run(c, x, pre), es[|es| - 1], |pre|);
    }
  }

  lemma {:induction false} MissingRun(c: Setup, p: Plan, x: Core, es: seq<Env>)
    requires Begun(c, p, x) && WithinTrial(c, p, x, es) && !(Prefetches(c, p) && BeatsTimeout(c, p))
    requires |es| >= p.cycle + 4 || (|es| == p.cycle + 3 && !BeatsTimeout(c, p))
    ensures Missing(Run(c, x, es)) && !Passes(c, x, es)
  {
    var pre := es[..|es| - 1];
    if |pre| >= p.cycle + 4 || (|pre| == p.cycle + 3 && !BeatsTimeout(c, p)) {
      MissingRun(c, p, x, pre);
      MissingStep(c, Run(c, x, pre), es[|es| - 1]);
    } else {
      WaitRun(c, p, x, pre);
      WaitMisses(c, p, Run(c, x, pre), es[|es| - 1], |pre|);
    }
    MissingOpensNothing(Run(c, x, es));
  }

  lemma {:induction false} PassRun(c: Setup, p: Plan, x: Core, es: seq<Env>)
    requires Begun(c, p, x) && WithinTrial(c, p, x, es) && |es| >= p.cycle + 4
    requires Prefetches(c, p) && BeatsTimeout(c, p)
    ensures Passes(c, x, es)
  {
    var pre := es[..|es| - 1];
    if |pre| >= p.cycle + 4 {
      PassRun(c, p, x, pre);
    } else {
      WaitRun(c, p, x, pre);
      ArmStep(c, p, Run(c, x, pre), es[|es| - 1]);
    }
  }

  /** In any run of one trial, past its start pulse and whatever the scrub's length: the pass happens
      if and only if the prefetch fits in the cycles before it and the timeout leaves two cycles after
      it. A pass that opens inside the reset does not count. */
  lemma {:induction false} PassIff(c: Setup, p: Plan, x: Core, es: seq<Env>)
    requires Begun(c, p, x) && WithinTrial(c, p, x, es) && |es| >= p.cycle + 4
    ensures Passes(c, x, es) <==> Prefetches(c, p) && BeatsTimeout(c, p)
  {
    if Prefetches(c, p) && BeatsTimeout(c, p) { PassRun(c, p, x, es); } else { MissingRun(c, p, x, es); }
  }

  /** With nothing to scrub (K = 0) the late pulse is not lost: it opens a pass on the very edge
      that raises the reset. */
  lemma PassInsideTheReset(c: Setup, p: Plan, x: Core, e: Env, e': Env)
    requires Legal(c) && Loaded(c, p) && Wait(c, p, x, p.cycle + 2) && p.cycle >= 1
    requires !BeatsTimeout(c, p) && Prefetches(c, p) && ScrubK(c) == 0
    ensures var n := Next(c, Next(c, x, e), e'); ScanCtrl.Arm1(n.scan) && n.time.resolverRst
  {
    LatePulseTable(c, p, x, e);
    LatePulse(c, p, x, e);
    PulseAtTheReset(c, Next(c, x, e), e');
  }

  lemma LatePulseTable(c: Setup, p: Plan, x: Core, e: Env)
    requires Legal(c) && Loaded(c, p) && Wait(c, p, x, p.cycle + 2) && p.cycle >= 1 && Prefetches(c, p)
    ensures TableCtrl.Ready(Next(c, x, e).tbl, c.b.lookahead, |c.table|, c.tblLen)
  {
    WaitTableStep(c, p, x.tbl, TableInput(c.b, c.table, x, HostIn(c), e), p.cycle + 2);
    ReadyTable(c, p, Next(c, x, e).tbl);
  }

  lemma ReadyTable(c: Setup, p: Plan, t: TableCtrl.Table)
    requires Legal(c) && Loaded(c, p) && Prefetches(c, p) && WaitTable(t, c, p, p.cycle + 3)
    ensures TableCtrl.Ready(t, c.b.lookahead, |c.table|, c.tblLen)
  {
  }

  lemma PulseAtTheReset(c: Setup, x: Core, e: Env)
    requires Legal(c) && x.cfgEn && x.s2 && !x.scan.startD && Idle(x.scan) && x.scan.scrubDone
    requires x.time.phase == 3 && x.time.stopped && TableCtrl.Ready(x.tbl, c.b.lookahead, |c.table|, c.tblLen)
    ensures var n := Next(c, x, e); ScanCtrl.Arm1(n.scan) && n.time.resolverRst
  {
  }
}
