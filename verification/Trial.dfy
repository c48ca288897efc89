/** One trial of a campaign, stage by stage: what every register of the executor holds from
    the release of the reset to the next release, and that each clock cycle leads from one
    stage to the next. */
module Trial {
  import Arith
  import opened Executor
  import ScanCtrl
  import TableCtrl
  import TimeCtrl
  import Pass

  /** What stays fixed during a campaign. */
  datatype Setup = Setup(b: Build, table: seq<Entry>, len: nat, toThr: nat, tblLen: nat)

  /** One trial: its first table word, its indices in table order, the offset its last
      entry carries, and the cycle it injects at. */
  datatype Plan = Plan(base: nat, idx: seq<nat>, off: nat, cycle: nat)

  function Min(a: nat, b: nat): nat { if a < b then a else b }

  function HostIn(c: Setup): Host {
    Host(true, false, c.len, 0, false, 0, false, c.toThr, c.tblLen)
  }

  function Next(c: Setup, x: Core, e: Env): Core { Step(c.b, c.table, x, HostIn(c), e) }

  predicate Legal(c: Setup) {
    && c.b.rstCyc >= 1 && c.b.lookahead >= 2
    && 1 <= c.len < Arith.W32 && 1 <= c.toThr < Arith.W32
    && 1 <= c.tblLen <= |c.table|
  }

  /** The table holds the trial's pattern at its place. */
  ghost predicate Loaded(c: Setup, p: Plan) {
    && p.idx != [] && p.base + |p.idx| <= c.tblLen <= |c.table|
    && (forall i :: 0 <= i < |p.idx| ==>
          c.table[p.base + i].idx == p.idx[i] && (c.table[p.base + i].eop <==> i == |p.idx| - 1))
    && c.table[p.base + |p.idx| - 1].off == p.off
  }

  function Steps(p: Plan, len: nat): seq<nat> {
    seq(|p.idx|, i requires 0 <= i < |p.idx| => ScanCtrl.HitStep(p.idx[i], len))
  }

  /** The shifts of a scrub on this chain. */
  function ScrubK(c: Setup): nat { ScanCtrl.ScrubShifts(c.b.scrubLen, c.len) }

  /** The prefetch is ready when the start pulse arrives. */
  predicate Prefetches(c: Setup, p: Plan) { p.cycle + 2 >= Min(|p.idx|, c.b.lookahead) }

  /** The start pulse arrives before the scrub of the timeout. */
  predicate BeatsTimeout(c: Setup, p: Plan) { c.toThr >= p.cycle + 2 }

  /** The pattern's last entry is fetched before the pass ends. */
  predicate Fits(c: Setup, p: Plan) {
    |Pass.Left(Steps(p, c.len), 0, c.len)| <= c.b.lookahead + 2
  }

  // ---- pieces of the stages ---------------------------------------------------------

  predicate Idle(s: ScanCtrl.Scan) {
    !s.run && !s.lead && !s.scrub && !s.scanEn && !s.clkGate && !s.tm && !s.tmHalf && !s.vldQ && !s.vldNx
  }

  /** This edge opens an injection pass with the design out of reset. */
  predicate OpensPass(x: Core) { ScanCtrl.Arm1(x.scan) && !x.time.resolverRst }

  /** No start pulse is on its way, and none will come before the next release. */
  predicate Spent(x: Core) { x.time.fired && !x.time.scanStart && !x.s1 && !x.s2 }

  /** The lookahead after q entries have been taken: full, or everything that is left. */
  ghost predicate Streams(t: TableCtrl.Table, c: Setup, p: Plan, q: nat) {
    && q <= |p.idx|
    && t.la == p.idx[q..Min(|p.idx|, q + c.b.lookahead)]
    && t.ptr == p.base + Min(|p.idx|, q + c.b.lookahead)
    && t.fillArmed && !t.exhausted && !t.rstQ
    && (t.eop <==> |p.idx| <= q + c.b.lookahead)
    && (t.eop ==> t.offset == p.off)
  }

  /** The time controller from the start pulse to the end of the pass: the trial still runs,
      or it has stopped and asks for a scrub. */
  predicate Active(c: Setup, t: TimeCtrl.Time, p: Plan) {
    && t.fiCycle == p.cycle < c.toThr && !t.resolverRst && !t.memReq && !t.memHalt
    && !t.end0 && !t.end1
    && (if t.stopped then t.phase == 3 && t.scrubReq else t.phase == 0 && !t.scrubReq)
  }

  // ---- stage 1: counting and prefetching ----------------------------------------------

  function Fetched(c: Setup, p: Plan, cc: nat): nat {
    Min(Min(|p.idx|, c.b.lookahead), if cc == 0 then 0 else cc - 1)
  }

  ghost predicate WaitTable(t: TableCtrl.Table, c: Setup, p: Plan, cc: nat) {
    var m := Fetched(c, p, cc);
    && t.la == p.idx[..m] && t.ptr == p.base + m
    && (t.rstQ <==> cc == 0) && (t.fillArmed <==> cc > 0)
    && (t.eop <==> m == |p.idx|) && (t.eop ==> t.offset == p.off) && !t.exhausted
  }

  /** n clock cycles after the release. The counter may wrap on the edge that stops the trial. */
  ghost predicate Wait(c: Setup, p: Plan, x: Core, n: nat) {
    var t := x.time;
    && Active(c, t, p) && n <= p.cycle + 3
    && (t.cc == n || (t.stopped && n == Arith.W32))
    && (t.stopped <==> n > c.toThr)
    && (t.fired <==> n > p.cycle)
    && (t.scanStart <==> n == p.cycle + 1)
    && (x.s1 <==> n == p.cycle + 2)
    && (x.s2 <==> n == p.cycle + 3)
    && x.cfgEn && Idle(x.scan) && !x.scan.startD && !x.scan.done && !x.scan.scrubDone
    && WaitTable(x.tbl, c, p, n)
  }

  lemma WaitTableStep(c: Setup, p: Plan, t: TableCtrl.Table, i: TableCtrl.TableIn, cc: nat)
    requires Legal(c) && Loaded(c, p) && WaitTable(t, c, p, cc)
    requires !i.resolverRst && !i.batchStart && !i.pop && !i.done && i.tblLen == c.tblLen
    requires i.word == ReadWord(c.table, t.ptr)
    ensures WaitTable(TableCtrl.Step(t, i, c.b.lookahead, |c.table|), c, p, cc + 1)
  {
    var m := Fetched(c, p, cc);
    if TableCtrl.Pushes(t, i, c.b.lookahead, |c.table|) {
      assert i.word == c.table[p.base + m] && i.word.idx == p.idx[m];
      assert p.idx[..m] + [p.idx[m]] == p.idx[..m + 1];
    }
    assert Fetched(c, p, cc + 1) == if TableCtrl.Pushes(t, i, c.b.lookahead, |c.table|) then m + 1 else m;
  }

  lemma WaitStep(c: Setup, p: Plan, x: Core, e: Env, n: nat)
    requires Legal(c) && Loaded(c, p) && p.cycle >= 1
    requires Wait(c, p, x, n) && n < p.cycle + 3 && n <= c.toThr && !e.memAbort
    ensures Wait(c, p, Next(c, x, e), n + 1)
  {
    WaitTableStep(c, p, x.tbl, TableInput(c.b, c.table, x, HostIn(c), e), n);
  }

  // ---- stage 2: the start pulse arms the pass ------------------------------------------

  ghost predicate Lead(c: Setup, p: Plan, x: Core) {
    var s := x.scan;
    && Active(c, x.time, p) && Spent(x) && x.cfgEn
    && s.lead && s.clkGate && !s.run && !s.scrub && !s.scanEn && !s.tm && !s.tmHalf
    && !s.done && !s.scrubDone
    && p.idx != [] && s.vldQ && s.stepQ == Steps(p, c.len)[0] && !s.vldNx && s.end == c.len - 1
    && Streams(x.tbl, c, p, 1)
  }

  lemma StreamsHold(c: Setup, p: Plan, t: TableCtrl.Table, i: TableCtrl.TableIn, q: nat)
    requires Legal(c) && Loaded(c, p) && Streams(t, c, p, q)
    requires !i.resolverRst && !i.batchStart && !i.done && i.tblLen == c.tblLen
    requires !i.pop || q == |p.idx|
    ensures Streams(TableCtrl.Step(t, i, c.b.lookahead, |c.table|), c, p, q)
  {
  }

  lemma StreamsTake(c: Setup, p: Plan, t: TableCtrl.Table, i: TableCtrl.TableIn, q: nat)
    requires Legal(c) && Loaded(c, p) && Streams(t, c, p, q)
    requires !i.resolverRst && !i.batchStart && !i.done && i.tblLen == c.tblLen
    requires i.word == ReadWord(c.table, t.ptr) && i.pop && q < |p.idx|
    ensures Streams(TableCtrl.Step(t, i, c.b.lookahead, |c.table|), c, p, q + 1)
  {
    var n, d := |p.idx|, c.b.lookahead;
    assert t.la[1..] == p.idx[q + 1..Min(n, q + d)];
    if q + d < n {
      assert TableCtrl.Pushes(t, i, d, |c.table|);
      assert i.word.idx == p.idx[q + d];
      assert p.idx[q + 1..q + d] + [p.idx[q + d]] == p.idx[q + 1..q + 1 + d];
    } else {
      assert !TableCtrl.Pushes(t, i, d, |c.table|);
    }
  }

  lemma StreamsPop(c: Setup, p: Plan, t: TableCtrl.Table, i: TableCtrl.TableIn, q: nat)
    requires Legal(c) && Loaded(c, p) && Streams(t, c, p, q)
    requires !i.resolverRst && !i.batchStart && !i.done && i.tblLen == c.tblLen
    requires i.word == ReadWord(c.table, t.ptr)
    ensures Streams(TableCtrl.Step(t, i, c.b.lookahead, |c.table|), c, p,
                    if i.pop && q < |p.idx| then q + 1 else q)
  {
    if i.pop && q < |p.idx| { StreamsTake(c, p, t, i, q); } else { StreamsHold(c, p, t, i, q); }
  }

  /** The start pulse finds the table ready exactly when the prefetch condition holds. */
  lemma ReadyIffPrefetched(c: Setup, p: Plan, x: Core)
    requires Legal(c) && Loaded(c, p) && Wait(c, p, x, p.cycle + 3)
    ensures TableCtrl.Ready(x.tbl, c.b.lookahead, |c.table|, c.tblLen) <==> Prefetches(c, p)
  {
  }

  lemma ArmTable(c: Setup, p: Plan, t: TableCtrl.Table, i: TableCtrl.TableIn)
    requires Legal(c) && Loaded(c, p) && Prefetches(c, p) && WaitTable(t, c, p, p.cycle + 3)
    requires !i.resolverRst && !i.batchStart && !i.done && i.tblLen == c.tblLen && i.pop
    requires i.word == ReadWord(c.table, t.ptr)
    ensures Streams(TableCtrl.Step(t, i, c.b.lookahead, |c.table|), c, p, 1)
  {
    assert Streams(t, c, p, 0);
    StreamsPop(c, p, t, i, 0);
  }

  lemma ArmStep(c: Setup, p: Plan, x: Core, e: Env)
    requires Legal(c) && Loaded(c, p) && BeatsTimeout(c, p) && Prefetches(c, p)
    requires Wait(c, p, x, p.cycle + 3)
    ensures Lead(c, p, Next(c, x, e))
  {
    ReadyIffPrefetched(c, p, x);
    var i := ScanInput(c.b, |c.table|, x, HostIn(c), e);
    assert ScanCtrl.Arm0(x.scan, i);
    assert x.tbl.la[0] == p.idx[0];
    ArmTable(c, p, x.tbl, TableInput(c.b, c.table, x, HostIn(c), e));
  }

  // ---- stage 3: the pass ---------------------------------------------------------------

  /** Shift step t; the front end's head is target number f. */
  ghost predicate Shift(c: Setup, p: Plan, x: Core, t: nat, f: nat) {
    var s, n := x.scan, |p.idx|;
    && Active(c, x.time, p) && Spent(x) && x.cfgEn && f <= n
    && s.run && s.scanEn && s.clkGate && s.tm && s.tmHalf && !s.lead && !s.scrub && !s.done && !s.scrubDone
    && s.cnt == t < c.len && s.end == c.len - 1
    && (s.vldQ <==> f < n) && (f < n ==> s.stepQ == Steps(p, c.len)[f])
    && (s.vldNx <==> f + 1 < n) && (f + 1 < n ==> s.stepNx == Steps(p, c.len)[f + 1])
    && Streams(x.tbl, c, p, Min(n, f + 2))
  }

  predicate Consumes(c: Setup, p: Plan, t: nat, f: nat) {
    Pass.Consumed(Steps(p, c.len)[Min(f, |p.idx|)..], t, c.len)
  }

  lemma LeadTable(c: Setup, p: Plan, x: Core, e: Env)
    requires Legal(c) && Loaded(c, p) && Lead(c, p, x)
    ensures Streams(Next(c, x, e).tbl, c, p, Min(|p.idx|, 2))
  {
    StreamsPop(c, p, x.tbl, TableInput(c.b, c.table, x, HostIn(c), e), 1);
  }

  lemma LeadStep(c: Setup, p: Plan, x: Core, e: Env)
    requires Legal(c) && Loaded(c, p) && Lead(c, p, x)
    ensures Shift(c, p, Next(c, x, e), 0, 0)
  {
    LeadTable(c, p, x, e);
  }

  lemma ShiftScan(c: Setup, p: Plan, x: Core, e: Env, t: nat, f: nat)
    requires Legal(c) && Loaded(c, p) && Shift(c, p, x, t, f)
    ensures ScanCtrl.Advance(x.scan) <==> Consumes(c, p, t, f)
    ensures ScanCtrl.Hit(x.scan) <==> f < |p.idx| && Steps(p, c.len)[f] == t
    ensures ScanCtrl.Stale(x.scan) <==> f < |p.idx| && Steps(p, c.len)[f] < t
  {
  }

  lemma ShiftTable(c: Setup, p: Plan, x: Core, e: Env, t: nat, f: nat)
    requires Legal(c) && Loaded(c, p) && Shift(c, p, x, t, f)
    ensures var f' := if Consumes(c, p, t, f) then f + 1 else f;
            Streams(Next(c, x, e).tbl, c, p, Min(|p.idx|, f' + 2))
  {
    ShiftScan(c, p, x, e, t, f);
    StreamsPop(c, p, x.tbl, TableInput(c.b, c.table, x, HostIn(c), e), Min(|p.idx|, f + 2));
  }

  /** During the pass the trial may stop, but nothing resets. */
  lemma ActiveStep(c: Setup, p: Plan, x: Core, e: Env)
    requires Legal(c) && Active(c, x.time, p) && Spent(x) && x.cfgEn && !x.tbl.exhausted
    requires !x.scan.scrub && !x.scan.scrubDone
    ensures Active(c, Next(c, x, e).time, p) && Spent(Next(c, x, e)) && Next(c, x, e).cfgEn
  {
  }

  lemma ShiftStep(c: Setup, p: Plan, x: Core, e: Env, t: nat, f: nat)
    requires Legal(c) && Loaded(c, p) && Shift(c, p, x, t, f) && t < c.len - 1
    ensures Shift(c, p, Next(c, x, e), t + 1, if Consumes(c, p, t, f) then f + 1 else f)
  {
    ActiveStep(c, p, x, e);
    ShiftScan(c, p, x, e, t, f);
    ShiftTable(c, p, x, e, t, f);
  }

  lemma HeadMoves(c: Setup, p: Plan, t: nat)
    ensures var h := Pass.Head(Steps(p, c.len), t, c.len);
            Pass.Head(Steps(p, c.len), t + 1, c.len) == if Consumes(c, p, t, h) then h + 1 else h
  {
  }

  lemma HeadShifts(c: Setup, p: Plan, x: Core, e: Env, t: nat, h: nat)
    requires Legal(c) && Loaded(c, p) && t < c.len - 1 && h == Pass.Head(Steps(p, c.len), t, c.len)
    requires Shift(c, p, x, t, h)
    ensures Shift(c, p, Next(c, x, e), t + 1, Pass.Head(Steps(p, c.len), t + 1, c.len))
  {
    HeadMoves(c, p, t);
    ShiftStep(c, p, x, e, t, h);
  }

  // ---- stage 4: from the end of the pass to the next release ----------------------------

  predicate ScrubLead(s: ScanCtrl.Scan) {
    && s.lead && s.scrub && s.clkGate && !s.run && !s.scanEn && !s.tm && !s.tmHalf
    && !s.vldQ && !s.vldNx && !s.done && !s.scrubDone
  }

  predicate ScrubShift(s: ScanCtrl.Scan) {
    && s.run && s.scrub && s.scanEn && s.clkGate && s.tm && !s.tmHalf && !s.lead
    && !s.vldQ && !s.vldNx && !s.done && !s.scrubDone && s.cnt <= s.end
  }

  /** The reset window and the scan controller, phase by phase. */
  predicate Paced(x: Core) {
    var t, s := x.time, x.scan;
    && (t.stopped <==> t.phase != 0)
    && (t.scrubReq <==> t.phase == 3)
    && (t.resolverRst <==> t.phase == 2 || t.phase == 5 || t.phase == 6)
    && (t.phase == 0 || t.phase == 2 || t.phase == 3 || t.phase == 5 || t.phase == 6)
    && (t.phase == 3 || Idle(s))
    && (t.phase == 3 ==> Idle(s) || ScrubLead(s) || ScrubShift(s))
    && (t.phase == 0 ==> !s.scrubDone && !t.memReq)
    && (t.phase == 2 || t.phase == 6 ==> t.memReq)
    && (t.memHalt ==> t.phase == 5)
    && (s.done ==> t.phase == 0 || t.phase == 3)
    // a start pulse of the stopped trial has drained before the reset ends
    && (t.phase == 3 && (s.scrubDone || s.lead || s.run) ==> !t.scanStart)
    && (t.phase == 6 ==> !t.scanStart && !x.s1)
    && (t.phase == 2 || t.phase == 5 ==> !t.scanStart && !x.s1 && !x.s2 && x.rstQ)
  }

  /** The lookahead after a trial: no entry can start a pass, and none is fetched. */
  predicate Closed(x: Core) {
    var b := x.tbl;
    && (b.eop || !b.fillArmed || b.exhausted)
    && (b.rstQ ==> x.time.resolverRst || b.exhausted)
    && (|| Spent(x)
        || (b.la == [] && !b.fillArmed && !b.exhausted)
        || (b.la == [] && b.exhausted))
    && (x.time.resolverRst && x.rstQ ==>
          b.la == [] && !b.fillArmed && !b.eop && b.rstQ && (x.cfgEn <==> !b.exhausted))
  }

  /** The trial's pass is over (or there was none); the table stands at word `ptr`, and
      `off` will be added to the cycle at the release. */
  predicate Rest(c: Setup, x: Core, ptr: nat, off: nat, cyc: nat) {
    && Paced(x) && Closed(x)
    && x.tbl.ptr == ptr && x.tbl.offset == off
    && (x.tbl.exhausted <==> ptr >= c.tblLen && !x.scan.done)
    && x.time.fiCycle == cyc < c.toThr && !x.time.end0 && !x.time.end1
  }

  /** No pass starts, and no entry is taken. */
  lemma RestIsQuiet(c: Setup, x: Core, e: Env, ptr: nat, off: nat, cyc: nat)
    requires Legal(c) && Rest(c, x, ptr, off, cyc)
    ensures !ScanCtrl.Arm0(x.scan, ScanInput(c.b, |c.table|, x, HostIn(c), e))
    ensures !ScanCtrl.Pop(x.scan, ScanInput(c.b, |c.table|, x, HostIn(c), e))
    ensures !(x.scan.run && !x.scan.scrub) && !ScanCtrl.Arm1(x.scan)
  {
  }

  lemma RestTable(c: Setup, x: Core, e: Env, ptr: nat, off: nat, cyc: nat)
    requires Legal(c) && Rest(c, x, ptr, off, cyc)
    ensures var b := Next(c, x, e).tbl;
            && b.ptr == ptr && b.offset == off
            && (b.exhausted <==> ptr >= c.tblLen)
            && b.rstQ == x.time.resolverRst
            && (x.time.resolverRst ==> b.la == [] && !b.fillArmed && !b.eop)
            && (!x.time.resolverRst ==> b.la == x.tbl.la && b.eop == x.tbl.eop
                                        && b.fillArmed == (x.tbl.fillArmed || x.tbl.rstQ))
  {
  }

  lemma RestPaced(c: Setup, x: Core, e: Env, ptr: nat, off: nat, cyc: nat)
    requires Legal(c) && Rest(c, x, ptr, off, cyc)
    ensures Paced(Next(c, x, e)) && !Next(c, x, e).scan.done
  {
  }

  lemma RestClosed(c: Setup, x: Core, e: Env, ptr: nat, off: nat, cyc: nat)
    requires Legal(c) && Rest(c, x, ptr, off, cyc) && !Releases(c.b, x, HostIn(c), e)
    ensures Closed(Next(c, x, e))
    ensures Next(c, x, e).time.fiCycle == cyc
  {
  }

  lemma RestStep(c: Setup, x: Core, e: Env, ptr: nat, off: nat, cyc: nat)
    requires Legal(c) && Rest(c, x, ptr, off, cyc) && !Releases(c.b, x, HostIn(c), e)
    ensures Rest(c, Next(c, x, e), ptr, off, cyc)
  {
    RestTable(c, x, e, ptr, off, cyc);
    RestPaced(c, x, e, ptr, off, cyc);
    RestClosed(c, x, e, ptr, off, cyc);
  }

  lemma ShiftEnds(c: Setup, p: Plan, x: Core, e: Env, f: nat)
    requires Legal(c) && Loaded(c, p) && Shift(c, p, x, c.len - 1, f)
    requires var f' := if Consumes(c, p, c.len - 1, f) then f + 1 else f;
             |p.idx| <= f' + 2 + c.b.lookahead
    ensures Rest(c, Next(c, x, e), p.base + |p.idx|, p.off, p.cycle)
    ensures Next(c, x, e).scan.done
  {
    ShiftScan(c, p, x, e, c.len - 1, f);
    ShiftTable(c, p, x, e, c.len - 1, f);
  }

  /** The release starts the next trial on the next pattern, at the advanced cycle. */
  lemma ReleaseStarts(c: Setup, p: Plan, x: Core, e: Env, off: nat, cyc: nat)
    requires Legal(c) && Loaded(c, p) && p.cycle == cyc + off < c.toThr
    requires Rest(c, x, p.base, off, cyc) && Releases(c.b, x, HostIn(c), e)
    ensures Wait(c, p, Next(c, x, e), 0)
  {
  }

  /** After the last pattern a release starts a trial without a pass. */
  lemma ReleaseSpent(c: Setup, x: Core, e: Env, ptr: nat, cyc: nat)
    requires Legal(c) && ptr >= c.tblLen
    requires Rest(c, x, ptr, 0, cyc) && Releases(c.b, x, HostIn(c), e)
    ensures Rest(c, Next(c, x, e), ptr, 0, cyc) && Next(c, x, e).tbl.exhausted
  {
  }
}
