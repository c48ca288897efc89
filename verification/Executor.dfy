/** The FI Executor core (rtl/fi_executor_core.v): the three controllers wired together,
    with the FI Table (rtl/fi_table.v) behind them.

    The memories and the design under test are inputs. So is `junk`, what the lookahead's
    head register shows while it holds no entry. */
module Executor {
  import ScanCtrl
  import TableCtrl
  import TimeCtrl

  type Entry = TableCtrl.Entry

  /** Build parameters: SCRUB = 1, MEM_RESTORE = 1. */
  datatype Build = Build(rstCyc: nat, scrubLen: int, lookahead: nat)

  /** The host's configuration registers, as the core sees them on one edge. */
  datatype Host = Host(
    auto: bool, start: bool, len: nat, fiIndex: nat, end: bool,
    fiCycle: nat, fiCycleWr: bool, toThr: nat, tblLen: nat)

  datatype Env = Env(memDone: bool, memAbort: bool, memBad: bool, junk: nat, scanOut: bool)

  datatype Core = Core(
    time: TimeCtrl.Time, scan: ScanCtrl.Scan, tbl: TableCtrl.Table,
    cfgEn: bool, rstQ: bool, staticFirst: bool, s1: bool, s2: bool)

  const POWER_ON := Core(TimeCtrl.POWER_ON, ScanCtrl.POWER_ON, TableCtrl.POWER_ON,
                        false, false, true, false, false)

  /** The word the exec port shows; past the table it is never taken. */
  function ReadWord(table: seq<Entry>, ptr: nat): Entry {
    if ptr < |table| then table[ptr] else TableCtrl.Entry(false, 0, 0)
  }

  function ScanInput(b: Build, words: nat, x: Core, h: Host, e: Env): ScanCtrl.ScanIn {
    ScanCtrl.ScanIn(
      start := x.s2,
      len := h.len,
      index := if !x.cfgEn then h.fiIndex else if x.tbl.la != [] then x.tbl.la[0] else e.junk,
      valid := if x.cfgEn then x.tbl.la != [] else x.staticFirst,
      ready := if x.cfgEn then TableCtrl.Ready(x.tbl, b.lookahead, words, h.tblLen) else h.fiIndex != 0,
      scrubReq := x.time.scrubReq,
      scanOut := e.scanOut)
  }

  function TimeInput(x: Core, h: Host, e: Env): TimeCtrl.TimeIn {
    TimeCtrl.TimeIn(
      cfgEnd := h.end, cfgFiCycle := h.fiCycle, cfgFiCycleWr := h.fiCycleWr, toThr := h.toThr,
      offset := x.tbl.offset,
      scrubDone := x.scan.scrubDone,
      scrubRun := ScanCtrl.ScrubRun(x.scan),
      scrubLast := ScanCtrl.ScrubLast(x.scan),
      memDone := e.memDone, memAbort := e.memAbort, memBad := e.memBad)
  }

  function TableInput(b: Build, table: seq<Entry>, x: Core, h: Host, e: Env): TableCtrl.TableIn {
    TableCtrl.TableIn(
      resolverRst := x.time.resolverRst, batchStart := h.fiCycleWr, tblLen := h.tblLen,
      done := x.scan.done,
      word := ReadWord(table, x.tbl.ptr),
      pop := x.cfgEn && ScanCtrl.Pop(x.scan, ScanInput(b, |table|, x, h, e)))
  }

  function TimeParams(b: Build): TimeCtrl.Params { TimeCtrl.Params(b.rstCyc, true, true) }

  predicate NextEnable(x: Core, h: Host) {
    if !h.auto || x.tbl.exhausted || TimeCtrl.Overflow(x.time, h.toThr) then false
    else x.cfgEn || (x.time.resolverRst && !x.rstQ)
  }

  /** Every register after one clock cycle. */
  function Step(b: Build, table: seq<Entry>, x: Core, h: Host, e: Env): Core {
    var startUsr := h.start || x.time.scanStart;
    Core(
      time := TimeCtrl.Step(x.time, TimeParams(b), TimeInput(x, h, e)),
      scan := ScanCtrl.Step(x.scan, ScanInput(b, |table|, x, h, e), b.scrubLen),
      tbl := TableCtrl.Step(x.tbl, TableInput(b, table, x, h, e), b.lookahead, |table|),
      cfgEn := NextEnable(x, h),
      rstQ := x.time.resolverRst,
      staticFirst := startUsr || (x.staticFirst && !ScanCtrl.Pop(x.scan, ScanInput(b, |table|, x, h, e))),
      s1 := startUsr,
      s2 := x.s1)
  }

  /** testmode_o of the wrapper: the scan controller's, cut by the time controller's level. */
  predicate TestMode(x: Core) { ScanCtrl.TestMode(x.scan) && !x.time.testmodeRst }

  /** The executor is disabled as soon as the loop is off, the table is spent or the cycle it has come to
      is not below the timeout any more; and while one of these lasts, only a static index makes a
      pass. */
  lemma RetiredMakesNoPass(b: Build, table: seq<Entry>, x: Core, h: Host, e: Env, h': Host, e': Env)
    requires !h.auto || x.tbl.exhausted || (h.toThr != 0 && x.time.fiCycle >= h.toThr)
    requires h'.fiIndex == 0
    ensures var n := Step(b, table, x, h, e);
            && !n.cfgEn && !ScanCtrl.Arm0(n.scan, ScanInput(b, |table|, n, h', e'))
            && (n.scan.run || n.scan.lead || (Step(b, table, n, h', e').scan.lead ==> n.time.scrubReq))
  {
  }

  /** The memories are told to restore by the edge of the scrub's first shift, not before, or by the edge
      behind the request if there is nothing to scrub. */
  lemma RestoreStartsWithTheScrub(b: Build, table: seq<Entry>, x: Core, h: Host, e: Env)
    requires x.time.stopped && x.time.phase == 3 && !x.time.memReq
    ensures Step(b, table, x, h, e).time.memReq <==> (x.scan.run && x.scan.scrub) || x.scan.scrubDone
  {
  }

  /** An END request ends the running trial within two edges, whatever the timeout is. */
  lemma EndStopsTheTrial(b: Build, table: seq<Entry>, x: Core, h: Host, e: Env, h': Host, e': Env)
    requires !x.time.stopped && !x.time.end0 && h.end
    ensures Step(b, table, Step(b, table, x, h, e), h', e').time.stopped
  {
  }

  /** A finished restore that some memory calls bad halts the campaign where the window would end. */
  lemma BadRestoreHalts(b: Build, table: seq<Entry>, x: Core, h: Host, e: Env)
    requires x.time.stopped && x.time.phase == 2 && x.time.memReq && x.time.rstCnt + 1 >= b.rstCyc
    requires e.memDone
    ensures var t := Step(b, table, x, h, e).time;
            if e.memBad then t.memHalt && t.phase == 5 && t.stopped && t.resolverRst == x.time.resolverRst
            else !t.stopped && !t.resolverRst && t.memHalt == x.time.memHalt
  {
  }

  predicate Releases(b: Build, x: Core, h: Host, e: Env) {
    TimeCtrl.Releases(x.time, TimeParams(b), TimeInput(x, h, e))
  }

  /** The core as the source builds it: three controllers with registers of their own, the table's
      storage, and the registers of the glue between them. */
  class Machine {
    const b: Build
    const mem: array<Entry>
    const time: TimeCtrl.Controller
    const scan: ScanCtrl.Controller
    const tbl: TableCtrl.Controller
    var cfgEn: bool
    var rstQ: bool
    var staticFirst: bool
    var s1: bool
    var s2: bool

    ghost predicate Valid()
      reads this, tbl, tbl.laIndex, tbl.laVld
    {
      && tbl.Valid() && tbl.depth == b.lookahead && tbl.words == mem.Length
      && time.p == TimeParams(b) && scan.scrubLen == b.scrubLen
    }

    function State(): Core
      requires tbl.laCnt <= tbl.laIndex.Length
      reads this, time, scan, tbl, tbl.laIndex
    {
      Core(time.r, scan.r, tbl.State(), cfgEn, rstQ, staticFirst, s1, s2)
    }

    constructor (b: Build, mem: array<Entry>)
      requires b.lookahead >= 2
      ensures Valid() && State() == POWER_ON && this.b == b && this.mem == mem
      ensures fresh(time) && fresh(scan) && fresh(tbl) && fresh(tbl.laIndex) && fresh(tbl.laVld)
    {
      this.b, this.mem := b, mem;
      time := new TimeCtrl.Controller(TimeParams(b));
      scan := new ScanCtrl.Controller(b.scrubLen);
      tbl := new TableCtrl.Controller(b.lookahead, mem.Length);
      cfgEn, rstQ, staticFirst, s1, s2 := false, false, true, false, false;
    }

    /** A host write into the table. */
    method Load(addr: nat, word: Entry)
      requires addr < mem.Length
      modifies mem
      ensures mem[..] == old(mem[..])[addr := word]
    {
      mem[addr] := word;
    }

    method Controllers(scanIn: ScanCtrl.ScanIn, timeIn: TimeCtrl.TimeIn, tableIn: TableCtrl.TableIn)
      requires tbl.Valid()
      modifies time, scan, tbl, tbl.laIndex, tbl.laVld
      ensures tbl.Valid()
      ensures scan.r == ScanCtrl.Step(old(scan.r), scanIn, scan.scrubLen)
      ensures time.r == TimeCtrl.Step(old(time.r), time.p, timeIn)
      ensures tbl.State() == TableCtrl.Step(old(tbl.State()), tableIn, tbl.depth, tbl.words)
    {
      scan.Tick(scanIn);
      time.Tick(timeIn);
      tbl.Tick(tableIn);
    }

    /** The registers between the controllers. */
    method Glue(auto: bool, over: bool, rst: bool, startUsr: bool, pop: bool)
      modifies this
      ensures cfgEn == (auto && !over && (old(cfgEn) || (rst && !old(rstQ)))) && rstQ == rst
      ensures staticFirst == (startUsr || (old(staticFirst) && !pop))
      ensures s1 == startUsr && s2 == old(s1)
    {
      if !auto {
        cfgEn := false;
      } else if over {
        cfgEn := false;
      } else if rst && !rstQ {
        cfgEn := true;
      }
      rstQ := rst;
      if startUsr {
        staticFirst := true;
      } else if pop {
        staticFirst := false;
      }
      s2 := s1;
      s1 := startUsr;
    }

    /** One clock cycle: every block reads what the others held before the edge. */
    method Tick(h: Host, e: Env)
      requires Valid()
      modifies this, time, scan, tbl, tbl.laIndex, tbl.laVld
      ensures Valid() && State() == Step(b, mem[..], old(State()), h, e)
    {
      var x := State();
      var scanIn := ScanInput(b, mem.Length, x, h, e);
      var timeIn, tableIn := TimeInput(x, h, e), TableInput(b, mem[..], x, h, e);
      Glue(h.auto, x.tbl.exhausted || TimeCtrl.Overflow(x.time, h.toThr), x.time.resolverRst,
           h.start || x.time.scanStart, ScanCtrl.Pop(x.scan, scanIn));
      Controllers(scanIn, timeIn, tableIn);
    }
  }
}
