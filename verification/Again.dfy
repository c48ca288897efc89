/** A campaign after a campaign, without a reset of the wrapper between them (host/inject_and_run_dmi.tcl
    run a second time; rtl/fi_table_ctrl.v, the batch start). */
module Again {
  import opened Executor
  import opened Trial
  import opened Boot
  import Arith
  import Campaign
  import EndToEnd
  import Host
  import Leftover
  import Pass
  import Patterns
  import TableCtrl
  import TimeCtrl

  /** The table is exhausted and the loop idles: trials go on, none makes a pass. */
  predicate Over(x: Core) {
    Paced(x) && x.tbl.exhausted && !x.cfgEn && !x.scan.done && !x.time.end0 && !x.time.end1
  }

  /** The host may rewrite the table and every register but CFG_FI_CYCLE and the static path. */
  predicate Reloading(h: Executor.Host) { !h.start && !h.fiCycleWr && !h.end && h.fiIndex == 0 }

  /** A spent campaign gets there with the next cycle. */
  lemma SpentIsOver(c: Setup, x: Core, e: Env, cyc: nat)
    requires Legal(c) && Rest(c, x, c.tblLen, 0, cyc) && x.tbl.exhausted
    ensures Over(Next(c, x, e))
  {
    RestTable(c, x, e, c.tblLen, 0, cyc);
    RestPaced(c, x, e, c.tblLen, 0, cyc);
  }

  /** Whatever plan it was: behind its last trial the loop idles from the next edge on. */
  lemma {:induction false} CampaignIsOver(c: Setup, ps: seq<Plan>, y: Campaign.Sys, i: Campaign.In)
    requires Legal(c) && Campaign.Inv(c, ps, y) && y.trials > |ps| && |i.dut| == c.len
    ensures Over(Campaign.Tick(c, y, i).x)
  {
    SpentIsOver(c, y.x, Campaign.EnvOf(c, y, i), ps[|ps| - 1].cycle);
  }

  lemma OverPaced(b: Build, table: seq<Entry>, x: Core, h: Executor.Host, e: Env)
    requires Over(x) && Reloading(h)
    ensures Paced(Executor.Step(b, table, x, h, e)) && !Executor.Step(b, table, x, h, e).scan.done
  {
  }

  /** And stays there while the host loads the next campaign, whatever it writes. */
  lemma {:induction false} OverStep(b: Build, table: seq<Entry>, x: Core, h: Executor.Host, e: Env)
    requires Over(x) && Reloading(h)
    ensures Over(Executor.Step(b, table, x, h, e))
  {
    OverPaced(b, table, x, h, e);
  }

  /** The registers of the next campaign while CFG_TO_THR still holds the old timeout. */
  function OldTimeout(c: Setup, was: nat): Executor.Host { HostIn(c).(toThr := was) }

  /** The strobe of CFG_FI_CYCLE, outside a reset window, arms the next campaign from the first word of
      the table, without a reset of the wrapper. */
  lemma StrobeRearms(c: Setup, was: nat, x: Core, e: Env, cycle: nat)
    requires Legal(c) && Over(x) && !x.time.resolverRst && cycle < c.toThr
    ensures var h := OldTimeout(c, was).(fiCycle := cycle, fiCycleWr := true);
            Rest(c, Executor.Step(c.b, c.table, x, h, e), 0, 0, cycle)
  {
  }

  lemma RearmedPaced(c: Setup, was: nat, x: Core, e: Env, cycle: nat)
    requires Legal(c) && Rest(c, x, 0, 0, cycle)
    ensures var n := Executor.Step(c.b, c.table, x, OldTimeout(c, was), e); Paced(n) && !n.scan.done
  {
  }

  lemma RearmedClosed(c: Setup, was: nat, x: Core, e: Env, cycle: nat)
    requires Legal(c) && Rest(c, x, 0, 0, cycle) && !Executor.Releases(c.b, x, OldTimeout(c, was), e)
    requires x.time.resolverRst ==> !TimeCtrl.Overflow(x.time, was)
    ensures var n := Executor.Step(c.b, c.table, x, OldTimeout(c, was), e);
            && Closed(n) && n.time.fiCycle == cycle && !n.time.end0 && !n.time.end1
            && n.tbl.ptr == 0 && n.tbl.offset == 0 && !n.tbl.exhausted
  {
  }

  /** It stays armed until CFG_TO_THR, the last write, or a release; only if the new cycle is not below
      the old timeout must that write come before the next reset. */
  lemma RearmedHolds(c: Setup, was: nat, x: Core, e: Env, cycle: nat)
    requires Legal(c) && Rest(c, x, 0, 0, cycle) && !Executor.Releases(c.b, x, OldTimeout(c, was), e)
    requires x.time.resolverRst ==> !TimeCtrl.Overflow(x.time, was)
    ensures Rest(c, Executor.Step(c.b, c.table, x, OldTimeout(c, was), e), 0, 0, cycle)
  {
    RearmedPaced(c, was, x, e, cycle);
    RearmedClosed(c, was, x, e, cycle);
  }

  // ---- a release before the timeout arrives --------------------------------------------------------------

  /** If the reset window ends before CFG_TO_THR arrives, the first trial has begun, */
  lemma ReleasedEarly(c: Setup, was: nat, p: Plan, x: Core, e: Env)
    requires Legal(c) && Loaded(c, p) && p.base == 0 && p.cycle < c.toThr
    requires Rest(c, x, 0, 0, p.cycle) && Executor.Releases(c.b, x, OldTimeout(c, was), e)
    requires !TimeCtrl.Overflow(x.time, was)
    ensures Wait(c, p, Executor.Step(c.b, c.table, x, OldTimeout(c, was), e), 0)
  {
  }

  lemma OldWaitTime(c: Setup, was: nat, p: Plan, x: Core, e: Env, n: nat)
    requires Legal(c) && Wait(c, p, x, n) && p.cycle >= 1 && n < p.cycle + 3 && n < c.toThr && n < was && p.cycle < was
    requires !e.memAbort
    ensures var r := Executor.Step(c.b, c.table, x, OldTimeout(c, was), e);
            && r.time == Next(c, x, e).time && r.cfgEn && !Next(c, x, e).time.stopped
  {
  }

  /** and it goes on as under the new timeout, as long as neither has passed. */
  lemma OldWaitStep(c: Setup, was: nat, p: Plan, x: Core, e: Env, n: nat)
    requires Legal(c) && Loaded(c, p) && p.cycle >= 1 && Wait(c, p, x, n) && n < p.cycle + 3 && !e.memAbort
    requires n < c.toThr && n < was && p.cycle < was
    ensures Wait(c, p, Executor.Step(c.b, c.table, x, OldTimeout(c, was), e), n + 1)
  {
    WaitStep(c, p, x, e, n);
    OldWaitTime(c, was, p, x, e, n);
    OldWaitRest(c, was, x, e);
  }

  lemma OldWaitRest(c: Setup, was: nat, x: Core, e: Env)
    ensures var r, s := Executor.Step(c.b, c.table, x, OldTimeout(c, was), e), Next(c, x, e);
            r.scan == s.scan && r.tbl == s.tbl && r.rstQ == s.rstQ && r.s1 == s.s1 && r.s2 == s.s2
  {
    assert ScanInput(c.b, |c.table|, x, OldTimeout(c, was), e) == ScanInput(c.b, |c.table|, x, HostIn(c), e);
    assert TableInput(c.b, c.table, x, OldTimeout(c, was), e) == TableInput(c.b, c.table, x, HostIn(c), e);
  }

  // ---- a strobe inside the reset window ----------------------------------------------------------------------

  /** The executor is not enabled, and will not be before the next reset begins. */
  predicate Blind(x: Core) { Paced(x) && !x.cfgEn && !x.scan.done }

  /** A strobe inside the reset window comes too late for this window to enable the executor, */
  lemma StrobeInReset(c: Setup, was: nat, p: Plan, x: Core, e: Env)
    requires Legal(c) && Loaded(c, p) && p.base == 0 && p.cycle < c.toThr && Over(x) && x.time.resolverRst
    ensures var n := Executor.Step(c.b, c.table, x, OldTimeout(c, was).(fiCycle := p.cycle, fiCycleWr := true), e);
            BlindAt(c, p, n, 0) && (n.time.resolverRst ==> n.rstQ)
  {
  }

  /** No pass opens: not in the rest of the window, and not in the whole trial behind it, */
  lemma BlindStep(c: Setup, was: nat, x: Core, e: Env)
    requires Blind(x) && (x.time.resolverRst ==> x.rstQ)
    ensures Blind(Executor.Step(c.b, c.table, x, OldTimeout(c, was), e)) && !OpensPass(x)
  {
  }

  /** m words of the first pattern have been fetched, and nothing uses them. */
  predicate BlindAt(c: Setup, p: Plan, x: Core, m: nat) {
    var t := x.tbl;
    && Blind(x) && x.time.fiCycle == p.cycle < c.toThr && !x.time.end0 && !x.time.end1
    && m <= |p.idx| && t.ptr == p.base + m && t.offset == Leftover.OffsetAt(p, m, 0)
    && (t.eop <==> m == |p.idx|) && !t.exhausted
    && (t.fillArmed || (m == 0 && t.la == [] && t.rstQ))
    && (x.time.resolverRst && x.rstQ ==> m == 0 && t.la == [] && !t.fillArmed)
  }

  lemma BlindTable(c: Setup, was: nat, p: Plan, x: Core, e: Env, m: nat) returns (n: nat)
    requires Legal(c) && Loaded(c, p) && BlindAt(c, p, x, m) && (x.time.resolverRst ==> x.rstQ)
    ensures var t := Executor.Step(c.b, c.table, x, OldTimeout(c, was), e).tbl;
            && n <= |p.idx| && t.ptr == p.base + n && t.offset == Leftover.OffsetAt(p, n, 0)
            && (t.eop <==> n == |p.idx|) && !t.exhausted && t.rstQ == x.time.resolverRst
            && (!x.time.resolverRst ==> t.fillArmed)
            && (x.time.resolverRst ==> n == 0 && t.la == [] && !t.fillArmed)
  {
    var i := TableInput(c.b, c.table, x, OldTimeout(c, was), e);
    assert !i.pop;
    n := if TableCtrl.Pushes(x.tbl, i, c.b.lookahead, |c.table|) then m + 1 else m;
    if m < |p.idx| { assert c.table[p.base + m].idx == p.idx[m]; }
  }

  lemma BlindTime(c: Setup, was: nat, p: Plan, x: Core, e: Env, m: nat)
    requires Legal(c) && Loaded(c, p) && BlindAt(c, p, x, m) && (x.time.resolverRst ==> x.rstQ)
    ensures var n := Executor.Step(c.b, c.table, x, OldTimeout(c, was), e);
            && n.time.fiCycle == p.cycle && !n.time.end0 && !n.time.end1
            && n.rstQ == x.time.resolverRst
  {
  }

  /** while the table goes on being read. */
  lemma BlindReads(c: Setup, was: nat, p: Plan, x: Core, e: Env, m: nat) returns (n: nat)
    requires Legal(c) && Loaded(c, p) && BlindAt(c, p, x, m) && (x.time.resolverRst ==> x.rstQ)
    ensures BlindAt(c, p, Executor.Step(c.b, c.table, x, OldTimeout(c, was), e), n)
  {
    BlindStep(c, was, x, e);
    BlindTime(c, was, p, x, e, m);
    n := BlindTable(c, was, p, x, e, m);
  }

  /** The next reset enables the executor and finds the words gone: what is left of the campaign then is
      what a first trial without a pass leaves (`Leftover.RestIsReplayed`). */
  lemma BlindLeaves(c: Setup, p: Plan, x: Core, e: Env, m: nat)
    requires Legal(c) && Loaded(c, p) && BlindAt(c, p, x, m) && x.time.resolverRst && !x.rstQ
    ensures Leftover.Leaves(c, p, Next(c, x, e), 0)
  {
    BlindParks(c, p, x, e, m);
    Leftover.LeavesWith(c, p, Next(c, x, e), m, 0);
  }

  lemma BlindParks(c: Setup, p: Plan, x: Core, e: Env, m: nat)
    requires Legal(c) && Loaded(c, p) && BlindAt(c, p, x, m) && x.time.resolverRst && !x.rstQ
    ensures Leftover.Parked(c, p, Next(c, x, e), m, 0)
  {
  }

  // ---- a whole session ---------------------------------------------------------------------------------------

  predicate QuietRegs(r: Host.Regs) { r.fiIndex == 0 && !r.end }

  /** The table and every register but CFG_FI_CYCLE and CFG_TO_THR. */
  predicate Reloads(x: Host.Write) { Harmless(x) && x.addr != 0x65 }

  lemma ReloadsApply(r: Host.Regs, x: Host.Write)
    requires QuietRegs(r) && Reloads(x)
    ensures QuietRegs(Host.Apply(r, x)) && Host.Apply(r, x).toThr == r.toThr
    ensures Host.Apply(r, x).fiMode == (r.fiMode || x.addr == 0x60)
  {
  }

  lemma {:induction false} OverRun(b: Build, w: nat, m: Boot.Machine, vs: seq<Event>)
    requires Over(m.x) && QuietRegs(m.regs) && !m.strobe
    requires forall k :: 0 <= k < |Written(vs)| ==> Reloads(Written(vs)[k])
    ensures var n := Boot.Run(b, w, m, vs);
            && Over(n.x) && QuietRegs(n.regs) && !n.strobe && n.regs == Host.ApplyAll(m.regs, Written(vs))
            && n.regs.toThr == m.regs.toThr
            && (Written(vs) != [] && Written(vs)[0].addr == 0x60 ==> n.regs.fiMode)
  {
    if vs != [] {
      var pre, v := vs[..|vs| - 1], vs[|vs| - 1];
      forall k | 0 <= k < |Written(pre)| ensures Reloads(Written(pre)[k]) {
        assert Written(pre)[k] == Written(vs)[k];
      }
      OverRun(b, w, m, pre);
      var n := Boot.Run(b, w, m, pre);
      OverStep(b, TableOf(w, n.regs), n.x, HostOf(n), v.e);
      if v.Put? {
        assert Written(vs)[|Written(pre)|] == v.x;
        ReloadsApply(n.regs, v.x);
        assert Written(vs)[..|Written(vs)| - 1] == Written(pre);
      } else {
        assert Written(vs) == Written(pre);
      }
    }
  }

  /** What the session must not meet: a strobe inside the reset window; and, with the new cycle armed and
      the timeout still the old one, a reset while that timeout is not above the new cycle; a stop before
      the first trial's start pulse has gone by, or, if that trial is not known to be feasible, the pulse;
      and the release of a second trial. */
  predicate Fine(b: Build, m: Boot.Machine, e: Env, thr: nat, works: bool) {
    var t, was := m.x.time, m.regs.toThr;
    && (m.strobe ==> !t.resolverRst)
    && (!m.x.tbl.exhausted ==>
          && (t.resolverRst ==> !TimeCtrl.Overflow(t, was))
          && (m.x.cfgEn && t.phase == 0 && t.cc < t.fiCycle + 3 ==>
                t.cc < thr && t.cc < was && t.fiCycle < was && !e.memAbort)
          && (m.x.cfgEn && t.phase == 0 && t.cc == t.fiCycle + 3 ==> works && t.fiCycle + 3 <= was)
          && (m.x.tbl.ptr > 0 ==> !Executor.Releases(b, m.x, HostOf(m), e)))
  }

  predicate Undisturbed(b: Build, w: nat, m: Boot.Machine, vs: seq<Event>, thr: nat, works: bool) {
    vs == [] || (&& Undisturbed(b, w, m, vs[..|vs| - 1], thr, works)
                 && Fine(b, Boot.Run(b, w, m, vs[..|vs| - 1]), vs[|vs| - 1].e, thr, works))
  }

  /** The hardware under the old timeout. */
  function Under(c: Setup, was: nat): Setup { c.(toThr := was) }

  /** The first trial's pass is armed or under way, or it is over. */
  ghost predicate PassBegun(c: Setup, was: nat, p: Plan, x: Core) {
    var o, t := Under(c, was), x.scan.cnt;
    && p.cycle + 2 <= was < Arith.W32
    && (|| Lead(o, p, x)
        || Shift(o, p, x, t, Pass.Head(Steps(p, c.len), t, c.len))
        || Rest(o, x, p.base + |p.idx|, p.off, p.cycle))
  }

  /** The campaign is armed, or its first trial has begun. */
  ghost predicate Begins(c: Setup, was: nat, p: Plan, x: Core) {
    || Rest(c, x, 0, 0, p.cycle)
    || (Wait(c, p, x, x.time.cc) && !x.time.stopped && x.time.phase == 0)
    || PassBegun(c, was, p, x)
  }

  /** A first trial that is in the table and, if it is to make its pass, can. */
  ghost predicate First(c: Setup, p: Plan, works: bool) {
    && Legal(c) && Loaded(c, p) && p.base == 0 && 1 <= p.cycle < c.toThr && (|p.idx| == c.tblLen ==> p.off == 0)
    && (works ==> Prefetches(c, p) && Fits(c, p))
  }

  lemma FirstUnder(c: Setup, was: nat, p: Plan, works: bool)
    requires First(c, p, works) && p.cycle + 2 <= was < Arith.W32
    ensures Legal(Under(c, was)) && Loaded(Under(c, was), p) && (works ==> Fits(Under(c, was), p))
  {
    var o := Under(c, was);
    forall i | 0 <= i < |p.idx|
      ensures o.table[p.base + i].idx == p.idx[i] && (o.table[p.base + i].eop <==> i == |p.idx| - 1)
    {
      assert c.table[p.base + i].idx == p.idx[i];
    }
    assert Loaded(o, p);
  }

  lemma AfterLead(c: Setup, was: nat, p: Plan, x: Core, e: Env)
    requires First(c, p, true) && p.cycle + 2 <= was < Arith.W32 && Lead(Under(c, was), p, x)
    ensures PassBegun(c, was, p, Next(Under(c, was), x, e))
  {
    FirstUnder(c, was, p, true);
    LeadStep(Under(c, was), p, x, e);
  }

  lemma AfterShift(c: Setup, was: nat, p: Plan, x: Core, e: Env, t: nat, h: nat)
    requires First(c, p, true) && p.cycle + 2 <= was < Arith.W32 && t == x.scan.cnt < c.len - 1
    requires h == Pass.Head(Steps(p, c.len), t, c.len) && Shift(Under(c, was), p, x, t, h)
    ensures PassBegun(c, was, p, Next(Under(c, was), x, e))
  {
    var o, u := Under(c, was), t + 1;
    FirstUnder(c, was, p, true);
    ShiftsTo(o, p, x, e, t, h, u);
    ShiftIsBegun(c, was, p, Next(o, x, e), u, Pass.Head(Steps(p, o.len), u, o.len));
  }

  lemma ShiftsTo(c: Setup, p: Plan, x: Core, e: Env, t: nat, h: nat, u: nat)
    requires Legal(c) && Loaded(c, p) && t < c.len - 1 && h == Pass.Head(Steps(p, c.len), t, c.len) && u == t + 1
    requires Shift(c, p, x, t, h)
    ensures Shift(c, p, Next(c, x, e), u, Pass.Head(Steps(p, c.len), u, c.len))
  {
    HeadShifts(c, p, x, e, t, h);
  }

  lemma ShiftIsBegun(c: Setup, was: nat, p: Plan, x: Core, t: nat, h: nat)
    requires p.cycle + 2 <= was < Arith.W32 && Shift(Under(c, was), p, x, t, h)
    requires h == Pass.Head(Steps(p, c.len), t, c.len)
    ensures PassBegun(c, was, p, x)
  {
    assert t == x.scan.cnt;
  }

  lemma AfterLast(c: Setup, was: nat, p: Plan, x: Core, e: Env, t: nat, h: nat)
    requires First(c, p, true) && p.cycle + 2 <= was < Arith.W32 && t == c.len - 1
    requires h == Pass.Head(Steps(p, c.len), t, c.len) && Shift(Under(c, was), p, x, t, h)
    ensures PassBegun(c, was, p, Next(Under(c, was), x, e))
  {
    FirstUnder(c, was, p, true);
    Campaign.EndRests(Under(c, was), p, x, e, t, h);
  }

  lemma AfterRest(c: Setup, was: nat, p: Plan, x: Core, e: Env)
    requires First(c, p, true) && p.cycle + 2 <= was < Arith.W32
    requires Rest(Under(c, was), x, p.base + |p.idx|, p.off, p.cycle)
    requires Executor.Releases(c.b, x, HostIn(Under(c, was)), e) ==> x.tbl.exhausted
    ensures PassBegun(c, was, p, Next(Under(c, was), x, e))
  {
    FirstUnder(c, was, p, true);
    if Executor.Releases(c.b, x, HostIn(Under(c, was)), e) {
      ReleaseSpent(Under(c, was), x, e, c.tblLen, p.cycle);
    } else {
      RestStep(Under(c, was), x, e, p.base + |p.idx|, p.off, p.cycle);
    }
  }

  lemma PassBegunStep(c: Setup, was: nat, p: Plan, x: Core, e: Env)
    requires First(c, p, true) && PassBegun(c, was, p, x)
    requires Executor.Releases(c.b, x, HostIn(Under(c, was)), e) ==> x.tbl.exhausted
    ensures PassBegun(c, was, p, Next(Under(c, was), x, e))
  {
    if Lead(Under(c, was), p, x) {
      AfterLead(c, was, p, x, e);
    } else if Rest(Under(c, was), x, p.base + |p.idx|, p.off, p.cycle) {
      AfterRest(c, was, p, x, e);
    } else {
      var t := x.scan.cnt;
      if t < c.len - 1 {
        AfterShift(c, was, p, x, e, t, Pass.Head(Steps(p, c.len), t, c.len));
      } else {
        AfterLast(c, was, p, x, e, t, Pass.Head(Steps(p, c.len), t, c.len));
      }
    }
  }

  lemma SameStep(c: Setup, was: nat, x: Core, e: Env)
    ensures Executor.Step(c.b, c.table, x, OldTimeout(c, was), e) == Next(Under(c, was), x, e)
    ensures HostIn(Under(c, was)) == OldTimeout(c, was)
  {
  }

  /** The pulse finds the trial running and its table ready. */
  lemma PassBegins(c: Setup, was: nat, p: Plan, x: Core, e: Env)
    requires First(c, p, true) && Wait(c, p, x, p.cycle + 3) && !x.time.stopped && p.cycle + 3 <= was < Arith.W32
    ensures PassBegun(c, was, p, Executor.Step(c.b, c.table, x, OldTimeout(c, was), e))
  {
    var o := Under(c, was);
    FirstUnder(c, was, p, true);
    ArmStep(o, p, x, e);
  }

  /** The setup of these registers, but for the timeout. */
  predicate SameBut(c: Setup, b: Build, w: nat, r: Host.Regs) {
    c == EndToEnd.SetupOf(b, w, r).(toThr := c.toThr) && r.auto && QuietRegs(r)
  }

  lemma HostIsOld(c: Setup, b: Build, w: nat, m: Boot.Machine)
    requires SameBut(c, b, w, m.regs)
    ensures HostOf(m).(fiCycle := 0, fiCycleWr := false) == OldTimeout(c, m.regs.toThr)
    ensures TableOf(w, m.regs) == c.table && c.b == b
  {
  }

  lemma StrobeGo(c: Setup, b: Build, w: nat, m: Boot.Machine, v: Event)
    requires Legal(c) && SameBut(c, b, w, m.regs) && Over(m.x) && m.strobe && !m.x.time.resolverRst
    requires m.regs.fiCycle < c.toThr
    ensures Rest(c, Boot.Step(b, w, m, v).x, 0, 0, m.regs.fiCycle)
  {
    HostIsOld(c, b, w, m);
    StrobeRearms(c, m.regs.toThr, m.x, v.e, m.regs.fiCycle);
  }

  lemma HoldGo(c: Setup, b: Build, w: nat, m: Boot.Machine, v: Event, p: Plan, works: bool)
    requires First(c, p, works) && SameBut(c, b, w, m.regs) && m.regs.toThr < Arith.W32 && !m.strobe
    requires Begins(c, m.regs.toThr, p, m.x) && (PassBegun(c, m.regs.toThr, p, m.x) ==> works)
    requires Fine(b, m, v.e, c.toThr, works)
    ensures var n := Boot.Step(b, w, m, v).x;
            Begins(c, m.regs.toThr, p, n) && (PassBegun(c, m.regs.toThr, p, n) ==> works)
  {
    HostIsOld(c, b, w, m);
    StepIgnoresCycle(b, TableOf(w, m.regs), m.x, HostOf(m), 0, v.e);
    HoldStep(c, m.regs.toThr, p, m.x, v.e, works);
  }

  lemma HoldStep(c: Setup, was: nat, p: Plan, x: Core, e: Env, works: bool)
    requires First(c, p, works) && was < Arith.W32 && Begins(c, was, p, x) && (PassBegun(c, was, p, x) ==> works)
    requires !x.tbl.exhausted ==>
               && (x.time.resolverRst ==> !TimeCtrl.Overflow(x.time, was))
               && (x.cfgEn && x.time.phase == 0 && x.time.cc < x.time.fiCycle + 3 ==>
                     x.time.cc < c.toThr && x.time.cc < was && x.time.fiCycle < was && !e.memAbort)
               && (x.cfgEn && x.time.phase == 0 && x.time.cc == x.time.fiCycle + 3 ==>
                     works && x.time.fiCycle + 3 <= was)
               && (x.tbl.ptr > 0 ==> !Executor.Releases(c.b, x, OldTimeout(c, was), e))
    ensures var n := Executor.Step(c.b, c.table, x, OldTimeout(c, was), e);
            Begins(c, was, p, n) && (PassBegun(c, was, p, n) ==> works)
  {
    if PassBegun(c, was, p, x) {
      SameStep(c, was, x, e);
      PassBegunReleases(c, was, p, x);
      PassBegunStep(c, was, p, x, e);
    } else if Rest(c, x, 0, 0, p.cycle) {
      HoldRest(c, was, p, x, e);
    } else {
      HoldWait(c, was, p, x, e, works);
    }
  }

  /** Until the table is exhausted its pointer stands behind the first word. */
  lemma PassBegunReleases(c: Setup, was: nat, p: Plan, x: Core)
    requires First(c, p, true) && PassBegun(c, was, p, x)
    ensures x.tbl.ptr > 0
  {
  }

  lemma HoldRest(c: Setup, was: nat, p: Plan, x: Core, e: Env)
    requires Legal(c) && Loaded(c, p) && p.base == 0 && 1 <= p.cycle < c.toThr && Rest(c, x, 0, 0, p.cycle)
    requires x.time.resolverRst ==> !TimeCtrl.Overflow(x.time, was)
    ensures var n := Executor.Step(c.b, c.table, x, OldTimeout(c, was), e);
            Begins(c, was, p, n) && !PassBegun(c, was, p, n)
  {
    if Executor.Releases(c.b, x, OldTimeout(c, was), e) {
      ReleasedEarly(c, was, p, x, e);
      ReleasedTime(c, was, x, e);
      WaitingIsEarly(c, was, p, Executor.Step(c.b, c.table, x, OldTimeout(c, was), e), 0);
    } else {
      RearmedHolds(c, was, x, e, p.cycle);
      RestedIsEarly(c, was, p, Executor.Step(c.b, c.table, x, OldTimeout(c, was), e));
    }
  }

  lemma WaitingIsEarly(c: Setup, was: nat, p: Plan, x: Core, n: nat)
    requires Legal(c) && Loaded(c, p) && Wait(c, p, x, n) && n <= p.cycle + 3
    ensures !PassBegun(c, was, p, x)
  {
  }

  lemma HoldWait(c: Setup, was: nat, p: Plan, x: Core, e: Env, works: bool)
    requires First(c, p, works) && was < Arith.W32 && Wait(c, p, x, x.time.cc) && !x.time.stopped && x.time.phase == 0
    requires x.time.cc < p.cycle + 3 ==> x.time.cc < c.toThr && x.time.cc < was && p.cycle < was && !e.memAbort
    requires x.time.cc == p.cycle + 3 ==> works && p.cycle + 3 <= was
    ensures var n := Executor.Step(c.b, c.table, x, OldTimeout(c, was), e);
            Begins(c, was, p, n) && (PassBegun(c, was, p, n) ==> works)
  {
    if x.time.cc < p.cycle + 3 {
      OldWaitStep(c, was, p, x, e, x.time.cc);
      OldWaitTime(c, was, p, x, e, x.time.cc);
      WaitCounts(c, p, x, e);
      WaitingIsEarly(c, was, p, Executor.Step(c.b, c.table, x, OldTimeout(c, was), e), x.time.cc + 1);
    } else {
      PassBegins(c, was, p, x, e);
    }
  }

  lemma ReleasedTime(c: Setup, was: nat, x: Core, e: Env)
    requires Executor.Releases(c.b, x, OldTimeout(c, was), e) && Paced(x)
    ensures var n := Executor.Step(c.b, c.table, x, OldTimeout(c, was), e);
            n.time.cc == 0 && !n.time.stopped && n.time.phase == 0
  {
  }

  lemma WaitCounts(c: Setup, p: Plan, x: Core, e: Env)
    requires Legal(c) && Wait(c, p, x, x.time.cc) && x.time.cc < c.toThr
    requires !x.time.stopped && !Next(c, x, e).time.stopped
    ensures var n := Next(c, x, e); n.time.cc == x.time.cc + 1 && n.time.phase == 0
  {
  }

  /** From the strobe on, the timeout's write being the last event. */
  lemma {:induction false} HoldRun(
    c: Setup, b: Build, w: nat, m: Boot.Machine, vs: seq<Event>, n: nat, p: Plan, works: bool)
    requires First(c, p, works) && m.regs.fiCycle == p.cycle && m.regs.toThr < Arith.W32
    requires SameBut(c, b, w, m.regs) && Over(m.x) && m.strobe
    requires 1 <= n <= |vs| && forall k :: 0 <= k < |vs| - 1 ==> vs[k].Nothing?
    requires Undisturbed(b, w, m, vs[..n], c.toThr, works)
    requires vs[|vs| - 1].Put? ==> vs[|vs| - 1].x.addr == 0x66
    ensures var r := Boot.Run(b, w, m, vs[..n]);
            && Begins(c, m.regs.toThr, p, r.x) && (PassBegun(c, m.regs.toThr, p, r.x) ==> works) && !r.strobe
            && r.regs == if n < |vs| || vs[n - 1].Nothing? then m.regs else Host.Apply(m.regs, vs[n - 1].x)
  {
    assert vs[..n][..n - 1] == vs[..n - 1];
    if n == 1 {
      assert vs[..1] == [vs[0]] && vs[..0] == [];
      assert Boot.Run(b, w, m, []) == m;
      StrobeGo(c, b, w, m, vs[0]);
      RestedIsEarly(c, m.regs.toThr, p, Boot.Step(b, w, m, vs[0]).x);
    } else {
      var k: nat := n - 1;
      HoldRun(c, b, w, m, vs, k, p, works);
      HoldGo(c, b, w, Boot.Run(b, w, m, vs[..k]), vs[k], p, works);
    }
  }

  lemma RestedIsEarly(c: Setup, was: nat, p: Plan, x: Core)
    requires Loaded(c, p) && Rest(c, x, 0, 0, p.cycle)
    ensures !PassBegun(c, was, p, x)
  {
  }

  lemma {:induction false} LastPut(vs: seq<Event>) returns (k: nat)
    requires Written(vs) != []
    ensures k < |vs| && vs[k].Put? && (forall i :: k < i < |vs| ==> vs[i].Nothing?)
    ensures Written(vs[..k]) == Written(vs)[..|Written(vs)| - 1] && vs[k].x == Written(vs)[|Written(vs)| - 1]
  {
    if vs[|vs| - 1].Put? {
      k := |vs| - 1;
    } else {
      k := LastPut(vs[..|vs| - 1]);
      assert vs[..|vs| - 1][..k] == vs[..k];
    }
  }

  lemma {:induction false} RunSplits(
    b: Build, w: nat, m: Boot.Machine, a: seq<Event>, z: seq<Event>, thr: nat, works: bool)
    ensures Boot.Run(b, w, m, a + z) == Boot.Run(b, w, Boot.Run(b, w, m, a), z)
    ensures Undisturbed(b, w, m, a + z, thr, works) ==> Undisturbed(b, w, Boot.Run(b, w, m, a), z, thr, works)
  {
    if z == [] {
      assert a + z == a;
    } else {
      assert (a + z)[..|a + z| - 1] == a + z[..|z| - 1];
      RunSplits(b, w, m, a, z[..|z| - 1], thr, works);
    }
  }

  /** What a host program ends with, and what comes before. */
  lemma ProgramEnds(w: nat, ns: seq<Host.Norm>, thr: int, len: int)
    requires ns != []
    ensures var xs := Host.Program(w, ns, thr, len);
            && |xs| >= 2 && xs[|xs| - 1] == Host.Write(0x66, thr) && xs[|xs| - 2] == Host.Write(0x65, ns[0].cycle)
            && forall k :: 0 <= k < |xs| - 2 ==> Reloads(xs[k])
  {
  }

  /** What a chain held before t steps of a pass. */
  function Unrotated(v: seq<bool>, t: nat, steps: set<nat>): seq<bool>
    requires t <= |v|
  {
    seq(|v|, i requires 0 <= i < |v| =>
      if i + t < |v| then v[i + t] else v[i + t - |v|] != (|v| - 1 - i in steps))
  }

  lemma UnrotatedRotates(v: seq<bool>, t: nat, steps: set<nat>)
    requires t <= |v|
    ensures Campaign.Rotated(v, Unrotated(v, t, steps), t, steps)
  {
  }

  ghost predicate Joins(c: Setup, ps: seq<Plan>, x: Core, chain: seq<bool>, y: Campaign.Sys) {
    y.x == x && y.chain == chain && y.trials <= 1 && |y.shots| <= 1 && Campaign.Inv(c, ps, y)
  }

  lemma LeadJoins(c: Setup, was: nat, ps: seq<Plan>, x: Core, chain: seq<bool>)
    requires Campaign.Tabled(c, ps) && Lead(Under(c, was), ps[0], x) && |chain| == c.len
    ensures exists y :: Joins(c, ps, x, chain, y)
  {
    var p := ps[0];
    var y := Campaign.Sys(x, chain, 1, p.cycle + 4, p.cycle, []);
    assert Campaign.Leading(c, p, y);
    assert Joins(c, ps, x, chain, y);
  }

  lemma ShiftJoins(c: Setup, was: nat, ps: seq<Plan>, x: Core, chain: seq<bool>, t: nat)
    requires Campaign.Tabled(c, ps) && |chain| == c.len && t == x.scan.cnt
    requires Shift(Under(c, was), ps[0], x, t, Pass.Head(Steps(ps[0], c.len), t, c.len))
    ensures exists y :: Joins(c, ps, x, chain, y)
  {
    var p := ps[0];
    var s := Campaign.Shot(1, p.cycle, Unrotated(chain, t, Campaign.Targets(c, p)), [], false);
    var y := Campaign.Sys(x, chain, 1, p.cycle + 5 + t, p.cycle, [s]);
    UnrotatedRotates(chain, t, Campaign.Targets(c, p));
    ShiftIsSame(c, was, p, x, t);
    assert Campaign.Log(c, ps, y.shots, 0);
    Campaign.KeepsShifting(c, ps, y, y);
    assert Joins(c, ps, x, chain, y);
  }

  lemma ShiftIsSame(c: Setup, was: nat, p: Plan, x: Core, t: nat)
    requires Shift(Under(c, was), p, x, t, Pass.Head(Steps(p, c.len), t, c.len)) && p.cycle < c.toThr
    ensures Shift(c, p, x, t, Pass.Head(Steps(p, c.len), t, c.len))
  {
  }

  lemma RestJoins(c: Setup, was: nat, ps: seq<Plan>, x: Core, chain: seq<bool>)
    requires Campaign.Tabled(c, ps) && |chain| == c.len
    requires Rest(Under(c, was), x, ps[0].base + |ps[0].idx|, ps[0].off, ps[0].cycle)
    ensures exists y :: Joins(c, ps, x, chain, y)
  {
    var p := ps[0];
    var s := Campaign.Shot(1, p.cycle, chain, Campaign.Inverted(chain, Campaign.Targets(c, p)), true);
    var y := Campaign.Sys(x, chain, 1, p.cycle + 5 + c.len, p.cycle, [s]);
    assert Campaign.Resting(c, p, y);
    assert Joins(c, ps, x, chain, y);
  }

  lemma PassJoins(c: Setup, was: nat, ps: seq<Plan>, x: Core, chain: seq<bool>)
    requires Campaign.Tabled(c, ps) && PassBegun(c, was, ps[0], x) && |chain| == c.len
    ensures exists y :: Joins(c, ps, x, chain, y)
  {
    if Lead(Under(c, was), ps[0], x) {
      LeadJoins(c, was, ps, x, chain);
    } else if Rest(Under(c, was), x, ps[0].base + |ps[0].idx|, ps[0].off, ps[0].cycle) {
      RestJoins(c, was, ps, x, chain);
    } else {
      ShiftJoins(c, was, ps, x, chain, x.scan.cnt);
    }
  }

  /** Either way the new campaign's invariant holds, with nothing recorded but the first trial's pass. */
  lemma BeginsJoins(c: Setup, was: nat, ps: seq<Plan>, x: Core, chain: seq<bool>)
    requires Campaign.Tabled(c, ps) && Begins(c, was, ps[0], x) && |chain| == c.len
    ensures exists y :: Joins(c, ps, x, chain, y)
  {
    if PassBegun(c, was, ps[0], x) {
      PassJoins(c, was, ps, x, chain);
    } else if Rest(c, x, 0, 0, ps[0].cycle) {
      assert Joins(c, ps, x, chain, Observed(x, chain));
    } else {
      var y := Campaign.Sys(x, chain, 1, x.time.cc, ps[0].cycle, []);
      assert Campaign.Waiting(c, ps[0], y);
      assert Joins(c, ps, x, chain, y);
    }
  }

  ghost predicate FirstWorks(j: EndToEnd.Job)
    requires EndToEnd.Allowed(j)
  {
    EndToEnd.Feasible(j.b, EndToEnd.Trials(j)[0], j.len, EndToEnd.Thr(j))
  }

  /** A second session of the host, on a loop whose campaign is over, its writes arriving with any gaps:
      if nothing that `Fine` excludes is met, the new campaign is armed at its end, or its first trial is
      on its way. */
  lemma {:induction false} SecondSession(j: EndToEnd.Job, m: Boot.Machine, vs: seq<Event>, works: bool)
    requires EndToEnd.Allowed(j) && |m.regs.mem| == Host.TBL_WORDS
    requires Over(m.x) && QuietRegs(m.regs) && !m.strobe && m.regs.toThr < Arith.W32
    requires Session(j.w, EndToEnd.Trials(j), EndToEnd.Thr(j), j.len, vs)
    requires Undisturbed(j.b, j.w, m, vs, EndToEnd.Thr(j), works) && (works ==> FirstWorks(j))
    ensures var n := Boot.Run(j.b, j.w, m, vs);
            && n.regs == EndToEnd.Written(j, m.regs) && !n.strobe
            && Begins(EndToEnd.Configured(j, m.regs), m.regs.toThr, EndToEnd.PlansOf(j)[0], n.x)
  {
    var a, v, z := SessionParts(j, vs);
    SessionFrom(j, m, a, v, z, Host.Program(j.w, EndToEnd.Trials(j), EndToEnd.Thr(j), j.len), works);
  }

  /** The writes of xs: the last but one on its own, only the last one behind it. */
  predicate Parts(a: seq<Event>, v: Event, z: seq<Event>, xs: seq<Host.Write>, thr: int) {
    && |xs| >= 3 && xs[0].addr == 0x60 && Written(a) == xs[..|xs| - 2]
    && v.Put? && v.x == xs[|xs| - 2] && v.x.addr == 0x65
    && z != [] && (forall k :: 0 <= k < |z| - 1 ==> z[k].Nothing?)
    && z[|z| - 1].Put? && z[|z| - 1].x == xs[|xs| - 1] == Host.Write(0x66, thr)
    && forall i :: 0 <= i < |xs| - 2 ==> Reloads(xs[i])
  }

  lemma SessionFrom(
    j: EndToEnd.Job, m: Boot.Machine, a: seq<Event>, v: Event, z: seq<Event>, xs: seq<Host.Write>, works: bool)
    requires EndToEnd.Allowed(j) && |m.regs.mem| == Host.TBL_WORDS && Over(m.x) && QuietRegs(m.regs) && !m.strobe
    requires m.regs.toThr < Arith.W32 && (works ==> FirstWorks(j))
    requires Parts(a, v, z, xs, EndToEnd.Thr(j)) && EndToEnd.Written(j, m.regs) == Host.ApplyAll(m.regs, xs)
    requires Undisturbed(j.b, j.w, m, a + [v] + z, EndToEnd.Thr(j), works)
    ensures var n := Boot.Run(j.b, j.w, m, a + [v] + z);
            && n.regs == EndToEnd.Written(j, m.regs) && !n.strobe
            && Begins(EndToEnd.Configured(j, m.regs), m.regs.toThr, EndToEnd.PlansOf(j)[0], n.x)
  {
    StrobeReached(j.b, j.w, m, a, v, xs);
    SessionJoins(j, m, a + [v], z, works);
  }

  lemma SessionJoins(j: EndToEnd.Job, m: Boot.Machine, a: seq<Event>, z: seq<Event>, works: bool)
    requires EndToEnd.Allowed(j) && |m.regs.mem| == Host.TBL_WORDS && m.regs.toThr < Arith.W32
    requires Undisturbed(j.b, j.w, m, a + z, EndToEnd.Thr(j), works) && (works ==> FirstWorks(j))
    requires z != [] && (forall k :: 0 <= k < |z| - 1 ==> z[k].Nothing?)
    requires z[|z| - 1].Put? && z[|z| - 1].x == Host.Write(0x66, EndToEnd.Thr(j))
    requires var s := Boot.Run(j.b, j.w, m, a);
             && Over(s.x) && s.strobe && QuietRegs(s.regs) && s.regs.fiMode && s.regs.toThr == m.regs.toThr
             && EndToEnd.Written(j, m.regs) == Host.Apply(s.regs, z[|z| - 1].x)
    ensures var n := Boot.Run(j.b, j.w, m, a + z);
            && n.regs == EndToEnd.Written(j, m.regs) && !n.strobe
            && Begins(EndToEnd.Configured(j, m.regs), m.regs.toThr, EndToEnd.PlansOf(j)[0], n.x)
  {
    RunSplits(j.b, j.w, m, a, z, EndToEnd.Thr(j), works);
    SessionEnds(j, m, Boot.Run(j.b, j.w, m, a), z, works);
  }

  lemma Around(vs: seq<Event>, k: nat)
    requires k < |vs|
    ensures vs == vs[..k] + [vs[k]] + vs[k + 1..]
  {
  }

  /** Where the session writes CFG_FI_CYCLE. */
  lemma SessionParts(j: EndToEnd.Job, vs: seq<Event>) returns (a: seq<Event>, v: Event, z: seq<Event>)
    requires EndToEnd.Allowed(j) && Session(j.w, EndToEnd.Trials(j), EndToEnd.Thr(j), j.len, vs)
    ensures vs == a + [v] + z
    ensures Parts(a, v, z, Host.Program(j.w, EndToEnd.Trials(j), EndToEnd.Thr(j), j.len), EndToEnd.Thr(j))
  {
    var ns, thr, last := EndToEnd.Trials(j), EndToEnd.Thr(j), |vs| - 1;
    ProgramEnds(j.w, ns, thr, j.len);
    var xs, pre := Host.Program(j.w, ns, thr, j.len), vs[..last];
    assert Written(pre) == xs[..|xs| - 1];
    var k := LastPut(pre);
    a, v, z := vs[..k], vs[k], vs[k + 1..];
    Around(vs, k);
    assert pre[..k] == a && xs[..|xs| - 1][..|xs| - 2] == xs[..|xs| - 2];
    forall i | 0 <= i < |z| - 1 ensures z[i].Nothing? { assert z[i] == pre[k + 1 + i]; }
  }

  lemma StrobeReached(b: Build, w: nat, m: Boot.Machine, a: seq<Event>, v: Event, xs: seq<Host.Write>)
    requires Over(m.x) && QuietRegs(m.regs) && !m.strobe && |xs| >= 3 && Written(a) == xs[..|xs| - 2]
    requires xs[0].addr == 0x60
    requires v.Put? && v.x == xs[|xs| - 2] && v.x.addr == 0x65 && forall i :: 0 <= i < |xs| - 2 ==> Reloads(xs[i])
    ensures var s := Boot.Run(b, w, m, a + [v]);
            && Over(s.x) && s.strobe && QuietRegs(s.regs) && s.regs.fiMode && s.regs.toThr == m.regs.toThr
            && Host.Apply(s.regs, xs[|xs| - 1]) == Host.ApplyAll(m.regs, xs)
  {
    OverRun(b, w, m, a);
    LastTwo(m.regs, xs);
    StrobeAfter(b, w, m, a, v);
  }

  lemma StrobeAfter(b: Build, w: nat, m: Boot.Machine, a: seq<Event>, v: Event)
    requires v.Put? && v.x.addr == 0x65
    requires var n := Boot.Run(b, w, m, a); Over(n.x) && QuietRegs(n.regs) && !n.strobe && n.regs.fiMode
    ensures var n, s := Boot.Run(b, w, m, a), Boot.Run(b, w, m, a + [v]);
            && Over(s.x) && s.strobe && QuietRegs(s.regs) && s.regs == Host.Apply(n.regs, v.x)
            && s.regs.toThr == n.regs.toThr && s.regs.fiMode
  {
    assert (a + [v])[..|a|] == a;
    StrobeSet(b, w, Boot.Run(b, w, m, a), v);
  }

  lemma StrobeSet(b: Build, w: nat, n: Boot.Machine, v: Event)
    requires v.Put? && v.x.addr == 0x65 && Over(n.x) && QuietRegs(n.regs) && !n.strobe && n.regs.fiMode
    ensures var s := Boot.Step(b, w, n, v);
            && Over(s.x) && s.strobe && QuietRegs(s.regs) && s.regs == Host.Apply(n.regs, v.x)
            && s.regs.toThr == n.regs.toThr && s.regs.fiMode
  {
    OverStep(b, TableOf(w, n.regs), n.x, HostOf(n), v.e);
  }

  lemma LastTwo(r: Host.Regs, xs: seq<Host.Write>)
    requires |xs| >= 2
    ensures Host.ApplyAll(r, xs) == Host.Apply(Host.Apply(Host.ApplyAll(r, xs[..|xs| - 2]), xs[|xs| - 2]), xs[|xs| - 1])
  {
    assert xs[..|xs| - 1][..|xs| - 2] == xs[..|xs| - 2];
  }

  /** Behind the write of CFG_FI_CYCLE. */
  lemma SessionEnds(j: EndToEnd.Job, m: Boot.Machine, s: Boot.Machine, z: seq<Event>, works: bool)
    requires EndToEnd.Allowed(j) && |m.regs.mem| == Host.TBL_WORDS && Over(s.x) && s.strobe && QuietRegs(s.regs)
    requires s.regs.fiMode && z != [] && (forall k :: 0 <= k < |z| - 1 ==> z[k].Nothing?)
    requires z[|z| - 1].Put? && z[|z| - 1].x == Host.Write(0x66, EndToEnd.Thr(j))
    requires Undisturbed(j.b, j.w, s, z, EndToEnd.Thr(j), works) && (works ==> FirstWorks(j))
    requires s.regs.toThr == m.regs.toThr < Arith.W32
    requires EndToEnd.Written(j, m.regs) == Host.Apply(s.regs, z[|z| - 1].x)
    ensures var n := Boot.Run(j.b, j.w, s, z);
            && n.regs == EndToEnd.Written(j, m.regs) && !n.strobe
            && Begins(EndToEnd.Configured(j, m.regs), m.regs.toThr, EndToEnd.PlansOf(j)[0], n.x)
  {
    var c := EndToEnd.Configured(j, m.regs);
    EndToEnd.JobTabled(j, m.regs);
    EndToEnd.JobHolds(j, m.regs);
    LastApply(s.regs, EndToEnd.Thr(j));
    assert z[..|z|] == z;
    FirstIs(j, m, works);
    HoldRun(c, j.b, j.w, s, z, |z|, EndToEnd.PlansOf(j)[0], works);
  }

  lemma FirstIs(j: EndToEnd.Job, m: Boot.Machine, works: bool)
    requires EndToEnd.Allowed(j) && |m.regs.mem| == Host.TBL_WORDS && (works ==> FirstWorks(j))
    ensures First(EndToEnd.Configured(j, m.regs), EndToEnd.PlansOf(j)[0], works)
  {
    EndToEnd.JobTabled(j, m.regs);
    OnlyIsLast(EndToEnd.Configured(j, m.regs), EndToEnd.PlansOf(j));
  }

  lemma OnlyIsLast(c: Setup, ps: seq<Plan>)
    requires Campaign.Tabled(c, ps)
    ensures |ps[0].idx| == c.tblLen ==> ps[0].off == 0
  {
    if |ps| > 1 { assert Campaign.Follows(ps[0], ps[1]) && Loaded(c, ps[1]); }
    assert Campaign.Last(c, ps[|ps| - 1]);
  }

  /** Whatever follows: the second campaign is injected like the first one. */
  lemma {:induction false} SecondCampaign(j: EndToEnd.Job, m: Boot.Machine, vs: seq<Event>, chain: seq<bool>)
    requires EndToEnd.Allowed(j) && EndToEnd.AllFeasible(j) && |m.regs.mem| == Host.TBL_WORDS && |chain| == j.len
    requires Over(m.x) && QuietRegs(m.regs) && !m.strobe && m.regs.toThr < Arith.W32
    requires Session(j.w, EndToEnd.Trials(j), EndToEnd.Thr(j), j.len, vs)
    requires Undisturbed(j.b, j.w, m, vs, EndToEnd.Thr(j), true)
    ensures exists y :: FollowsThrough(j, EndToEnd.Configured(j, m.regs), Boot.Run(j.b, j.w, m, vs).x, chain, y)
  {
    var c, ps, x := EndToEnd.Configured(j, m.regs), EndToEnd.PlansOf(j), Boot.Run(j.b, j.w, m, vs).x;
    SecondSession(j, m, vs, true);
    EndToEnd.JobPlanned(j, m.regs);
    EndToEnd.JobHolds(j, m.regs);
    BeginsJoins(c, m.regs.toThr, ps, x, chain);
    var y :| Joins(c, ps, x, chain, y);
    forall ins | Campaign.Wired(c, ins) && Campaign.NeverEarlyAbort(c, ps, y, ins)
      ensures Patterns.Injected(EndToEnd.Trials(j), Campaign.Run(c, y, ins))
    {
      Campaign.InvRuns(c, ps, y, ins);
      Campaign.InvMeansReplayed(c, ps, Campaign.Run(c, y, ins));
      EndToEnd.ReplayedInjects(c, EndToEnd.Trials(j), j.w, Campaign.Run(c, y, ins));
    }
    assert FollowsThrough(j, c, x, chain, y);
  }

  /** Observed as y, the hardware injects the job in every run without an early abort. */
  ghost predicate FollowsThrough(j: EndToEnd.Job, c: Setup, x: Core, chain: seq<bool>, y: Campaign.Sys)
    requires EndToEnd.Allowed(j)
  {
    && y.x == x && y.chain == chain && y.trials <= 1 && |y.shots| <= 1 && Campaign.Sized(c, y)
    && forall ins :: Campaign.Wired(c, ins) && Campaign.NeverEarlyAbort(c, EndToEnd.PlansOf(j), y, ins) ==>
         Patterns.Injected(EndToEnd.Trials(j), Campaign.Run(c, y, ins))
  }
}
