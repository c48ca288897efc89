/** From power-on to the armed campaign: the host's writes reach the registers one per clock
    cycle at most, with any gaps between them, while the executor is clocked all along. */
module Boot {
  import opened Executor
  import opened Trial
  import Campaign
  import EndToEnd
  import Host
  import Patterns
  import TimeCtrl

  /** What one clock cycle brings: a register write or none, and the executor's surroundings. */
  datatype Event = Nothing(e: Env) | Put(x: Host.Write, e: Env)

  /** `strobe` is the one-cycle pulse of a CFG_FI_CYCLE write. */
  datatype Machine = Machine(x: Core, regs: Host.Regs, strobe: bool)

  /** The wrapper comes up transparent. */
  function Cold(mem: seq<nat>): Machine {
    Machine(Executor.POWER_ON, Host.Regs(false, false, false, 0, 0, 0, 0, 0, false, 0, mem), false)
  }

  function HostOf(m: Machine): Executor.Host {
    Executor.Host(m.regs.auto, false, m.regs.len, m.regs.fiIndex, m.regs.end,
                  m.regs.fiCycle, m.strobe, m.regs.toThr, m.regs.tblLen)
  }

  function TableOf(w: nat, r: Host.Regs): seq<Entry> {
    seq(|r.mem|, k requires 0 <= k < |r.mem| => Host.Decode(w, r.mem[k]))
  }

  function Step(b: Build, w: nat, m: Machine, v: Event): Machine {
    Machine(Executor.Step(b, TableOf(w, m.regs), m.x, HostOf(m), v.e),
            if v.Put? then Host.Apply(m.regs, v.x) else m.regs,
            v.Put? && v.x.addr == 0x65 && m.regs.fiMode)
  }

  function Run(b: Build, w: nat, m: Machine, vs: seq<Event>): Machine {
    if vs == [] then m else Step(b, w, Run(b, w, m, vs[..|vs| - 1]), vs[|vs| - 1])
  }

  /** In transparent mode a write that does not switch the mode passes the wrapper by. */
  lemma TransparentIgnores(b: Build, w: nat, m: Machine, x: Host.Write, e: Env)
    requires !m.regs.fiMode && x.addr != 0x60
    ensures Step(b, w, m, Put(x, e)) == Step(b, w, m, Nothing(e))
  {
  }

  /** The writes of a session, in order. */
  function Written(vs: seq<Event>): seq<Host.Write> {
    if vs == [] then []
    else Written(vs[..|vs| - 1]) + match vs[|vs| - 1] case Nothing(_) => [] case Put(x, _) => [x]
  }

  /** No timeout, no static index, no end request. */
  predicate Unarmed(r: Host.Regs) { r.toThr == 0 && r.fiIndex == 0 && !r.end }

  /** The executor before it is armed: it counts, and a start pulse finds nothing ready. */
  predicate Dormant(x: Core) {
    && !x.time.stopped && x.time.phase == 0 && !x.time.resolverRst && !x.time.scrubReq
    && !x.time.testmodeRst && !x.time.memReq && !x.time.memHalt && !x.time.end0 && !x.time.end1
    && Idle(x.scan) && !x.scan.done && !x.scan.scrubDone && !x.cfgEn && !x.rstQ
    && x.tbl.ptr == 0 && x.tbl.la == [] && !x.tbl.fillArmed && !x.tbl.eop && x.tbl.offset == 0
    && !x.tbl.rstQ && !x.tbl.exhausted
  }

  predicate Sleeps(m: Machine) {
    Dormant(m.x) && Unarmed(m.regs) && (m.x.time.fiCycle == m.regs.fiCycle || m.strobe)
  }

  lemma DormantStep(b: Build, w: nat, m: Machine, v: Event)
    requires Dormant(m.x) && Unarmed(m.regs)
    ensures Dormant(Step(b, w, m, v).x)
    ensures Step(b, w, m, v).x.time.fiCycle == if m.strobe then m.regs.fiCycle else m.x.time.fiCycle
  {
  }

  /** A write that leaves the loop unarmed. */
  predicate Harmless(x: Host.Write) {
    && x.addr != 0x66 && (x.addr == 0x60 ==> x.data == 1)
    && (x.addr == 0x64 ==> x.data == 0) && (x.addr == 0x62 ==> x.data == 1)
  }

  lemma HarmlessApply(r: Host.Regs, x: Host.Write)
    requires Unarmed(r) && Harmless(x)
    ensures Host.Apply(r, x).fiMode == (r.fiMode || x.addr == 0x60)
    ensures Unarmed(Host.Apply(r, x)) && (x.addr != 0x65 || !r.fiMode ==> Host.Apply(r, x).fiCycle == r.fiCycle)
  {
  }

  lemma {:induction false} SleepsOn(b: Build, w: nat, mem: seq<nat>, vs: seq<Event>)
    requires forall k :: 0 <= k < |Written(vs)| ==> Harmless(Written(vs)[k])
    ensures var m := Run(b, w, Cold(mem), vs);
            && Sleeps(m) && m.regs == Host.ApplyAll(Cold(mem).regs, Written(vs))
            && (m.regs.fiMode <==> exists k :: 0 <= k < |Written(vs)| && Written(vs)[k].addr == 0x60)
  {
    if vs != [] {
      var pre, v := vs[..|vs| - 1], vs[|vs| - 1];
      forall k | 0 <= k < |Written(pre)| ensures Harmless(Written(pre)[k]) {
        assert Written(pre)[k] == Written(vs)[k];
      }
      SleepsOn(b, w, mem, pre);
      var m := Run(b, w, Cold(mem), pre);
      DormantStep(b, w, m, v);
      if v.Put? {
        assert Written(vs)[|Written(pre)|] == v.x;
        HarmlessApply(m.regs, v.x);
        assert Written(vs)[..|Written(vs)| - 1] == Written(pre);
      } else {
        assert Written(vs) == Written(pre);
      }
    }
  }

  /** The host switches the mode first, and everything it writes before the timeout is harmless. */
  lemma ProgramHarmless(w: nat, ns: seq<Host.Norm>, thr: int, len: int)
    requires ns != []
    ensures var xs := Host.Program(w, ns, thr, len);
            && |xs| >= 2 && xs[0] == Host.Write(0x60, 1) && xs[|xs| - 1] == Host.Write(0x66, thr)
            && forall k :: 0 <= k < |xs| - 1 ==> Harmless(xs[k])
  {
  }

  lemma DormantRests(c: Setup, x: Core, cyc: nat)
    requires Legal(c) && Dormant(x) && x.time.fiCycle == cyc < c.toThr
    ensures Rest(c, x, 0, 0, cyc)
  {
  }

  /** The host's writes have all arrived, the last of them on the last edge. */
  ghost predicate Session(w: nat, ns: seq<Host.Norm>, thr: int, len: int, vs: seq<Event>)
    requires ns != []
  {
    vs != [] && vs[|vs| - 1].Put? && Written(vs) == Host.Program(w, ns, thr, len)
  }

  function BackToBack(xs: seq<Host.Write>, e: Env): seq<Event> {
    seq(|xs|, k requires 0 <= k < |xs| => Put(xs[k], e))
  }

  lemma {:induction false} BackToBackWrites(xs: seq<Host.Write>, e: Env)
    ensures Written(BackToBack(xs, e)) == xs
  {
    if xs != [] {
      BackToBackWrites(xs[..|xs| - 1], e);
      assert BackToBack(xs, e)[..|xs| - 1] == BackToBack(xs[..|xs| - 1], e);
    }
  }

  /** Every program can be written: one write per cycle is a session. */
  lemma {:induction false} SessionExists(w: nat, ns: seq<Host.Norm>, thr: int, len: int, e: Env)
    requires ns != []
    ensures Session(w, ns, thr, len, BackToBack(Host.Program(w, ns, thr, len), e))
  {
    ProgramHarmless(w, ns, thr, len);
    BackToBackWrites(Host.Program(w, ns, thr, len), e);
  }

  lemma SessionArms(b: Build, w: nat, ns: seq<Host.Norm>, thr: int, len: int, mem: seq<nat>, vs: seq<Event>)
    requires ns != [] && Session(w, ns, thr, len, vs)
    ensures var m := Run(b, w, Cold(mem), vs);
            && m.regs == Host.ApplyAll(Cold(mem).regs, Host.Program(w, ns, thr, len))
            && Dormant(m.x) && !m.strobe && m.x.time.fiCycle == m.regs.fiCycle
            && m.regs.fiIndex == 0 && !m.regs.end && m.regs.fiMode
  {
    var pre, v := vs[..|vs| - 1], vs[|vs| - 1];
    LastWrite(w, ns, thr, len, vs);
    SleepsOn(b, w, mem, pre);
    DormantStep(b, w, Run(b, w, Cold(mem), pre), v);
    LastApply(Run(b, w, Cold(mem), pre).regs, thr);
    Host.ApplyConcat(Cold(mem).regs, Written(pre), [v.x]);
    assert Host.ApplyAll(Run(b, w, Cold(mem), pre).regs, [v.x]) == Host.Apply(Run(b, w, Cold(mem), pre).regs, v.x);
  }

  lemma LastApply(r: Host.Regs, thr: int)
    requires r.fiMode
    ensures Host.Apply(r, Host.Write(0x66, thr)) == r.(toThr := thr % Arith.W32)
  {
  }

  lemma LastWrite(w: nat, ns: seq<Host.Norm>, thr: int, len: int, vs: seq<Event>)
    requires ns != [] && Session(w, ns, thr, len, vs)
    ensures var pre := Written(vs[..|vs| - 1]);
            && (forall k :: 0 <= k < |pre| ==> Harmless(pre[k])) && pre != [] && pre[0].addr == 0x60
            && vs[|vs| - 1].x == Host.Write(0x66, thr) && Host.Program(w, ns, thr, len) == pre + [vs[|vs| - 1].x]
  {
    ProgramHarmless(w, ns, thr, len);
    assert Written(vs[..|vs| - 1]) == Written(vs)[..|Written(vs)| - 1];
  }

  lemma TimeIgnoresCycle(x: Core, h: Executor.Host, n: nat, e: Env, p: TimeCtrl.Params)
    requires !h.fiCycleWr
    ensures TimeCtrl.Step(x.time, p, TimeInput(x, h, e)) == TimeCtrl.Step(x.time, p, TimeInput(x, h.(fiCycle := n), e))
  {
  }

  lemma StepIgnoresCycle(b: Build, table: seq<Entry>, x: Core, h: Executor.Host, n: nat, e: Env)
    requires !h.fiCycleWr
    ensures Executor.Step(b, table, x, h, e) == Executor.Step(b, table, x, h.(fiCycle := n), e)
  {
    var h' := h.(fiCycle := n);
    TimeIgnoresCycle(x, h, n, e, TimeParams(b));
    assert ScanInput(b, |table|, x, h, e) == ScanInput(b, |table|, x, h', e);
    assert TableInput(b, table, x, h, e) == TableInput(b, table, x, h', e);
  }

  /** Without a further write the machine steps as the armed setup does. */
  lemma ArmedStep(b: Build, w: nat, m: Machine, e: Env)
    requires m.regs.auto && m.regs.fiIndex == 0 && !m.regs.end && !m.strobe
    ensures Step(b, w, m, Nothing(e)) == m.(x := Next(EndToEnd.SetupOf(b, w, m.regs), m.x, e))
  {
    StepIgnoresCycle(b, TableOf(w, m.regs), m.x, HostOf(m), 0, e);
    assert HostOf(m).(fiCycle := 0) == HostIn(EndToEnd.SetupOf(b, w, m.regs));
  }

  function Observed(x: Core, chain: seq<bool>): Campaign.Sys { Campaign.Sys(x, chain, 0, 0, 0, []) }

  /** The hardware of a job, and the core after a session from power-on. */
  function SetupFor(j: EndToEnd.Job, mem: seq<nat>): Setup
    requires j.ts != []
  {
    EndToEnd.Configured(j, Cold(mem).regs)
  }

  function CoreAfter(j: EndToEnd.Job, mem: seq<nat>, vs: seq<Event>): Core { Run(j.b, j.w, Cold(mem), vs).x }

  ghost predicate SessionOf(j: EndToEnd.Job, mem: seq<nat>, vs: seq<Event>) {
    && EndToEnd.Allowed(j) && |mem| == Host.TBL_WORDS
    && Session(j.w, EndToEnd.Trials(j), EndToEnd.Thr(j), j.len, vs)
  }

  /** The whole way, from power-on: the host's program, its writes arriving with any gaps, and
      then any number of clock cycles inject exactly the campaign. */
  lemma {:induction false} FromPowerOn(
    j: EndToEnd.Job, mem: seq<nat>, vs: seq<Event>, chain: seq<bool>, ins: seq<Campaign.In>)
    requires SessionOf(j, mem, vs) && EndToEnd.AllFeasible(j) && |chain| == j.len
    requires var c, y := SetupFor(j, mem), Observed(CoreAfter(j, mem, vs), chain);
             Campaign.Sized(c, y) && Campaign.Wired(c, ins) && Campaign.NeverEarlyAbort(c, EndToEnd.PlansOf(j), y, ins)
    ensures Patterns.Injected(EndToEnd.Trials(j),
              Campaign.Run(SetupFor(j, mem), Observed(CoreAfter(j, mem, vs), chain), ins))
  {
    SessionIsArmed(j, mem, vs, chain);
    EndToEnd.CampaignInjectsExactly(j, Cold(mem).regs, Observed(CoreAfter(j, mem, vs), chain), ins);
  }

  /** From power-on, the wrapper being transparent, the host's session ends in FI mode and in the armed
      state, for every accepted campaign. */
  lemma {:induction false} SessionIsArmed(j: EndToEnd.Job, mem: seq<nat>, vs: seq<Event>, chain: seq<bool>)
    requires SessionOf(j, mem, vs) && |chain| == j.len
    ensures Campaign.Armed(SetupFor(j, mem), EndToEnd.PlansOf(j), Observed(CoreAfter(j, mem, vs), chain))
    ensures Run(j.b, j.w, Cold(mem), vs).regs.fiMode
  {
    EndToEnd.JobTabled(j, Cold(mem).regs);
    SessionArms(j.b, j.w, EndToEnd.Trials(j), EndToEnd.Thr(j), j.len, mem, vs);
    DormantIsArmed(SetupFor(j, mem), EndToEnd.PlansOf(j), CoreAfter(j, mem, vs), chain);
  }

  lemma DormantIsArmed(c: Setup, ps: seq<Plan>, x: Core, chain: seq<bool>)
    requires Campaign.Tabled(c, ps) && Dormant(x) && x.time.fiCycle == ps[0].cycle && |chain| == c.len
    ensures Campaign.Armed(c, ps, Observed(x, chain))
  {
    DormantRests(c, x, ps[0].cycle);
  }
}
