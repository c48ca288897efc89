/** The FI Time Controller with the FI Resolver's reset window (rtl/fi_time_ctrl.v),
    paced by a cycle count (RTC_ALIGN_EN = 0). */
module TimeCtrl {
  import opened Arith

  /** A 32-bit counter's increment. */
  function Inc32(x: nat): nat { if x + 1 == W32 then 0 else x + 1 }

  /** 32-bit addition of two 32-bit values. */
  function Add32(x: nat, y: nat): nat {
    if x + y < W32 then x + y else x + y - W32
  }

  datatype Params = Params(rstCyc: nat, scrub: bool, memRestore: bool)

  datatype Time = Time(
    cc: nat, stopped: bool, phase: nat, fiCycle: nat, fired: bool,
    scanStart: bool, resolverRst: bool, testmodeRst: bool, scrubReq: bool,
    memReq: bool, memHalt: bool, memAbortLast: bool,
    end0: bool, end1: bool, rstCnt: nat)

  datatype TimeIn = TimeIn(
    cfgEnd: bool, cfgFiCycle: nat, cfgFiCycleWr: bool, toThr: nat, offset: nat,
    scrubDone: bool, scrubRun: bool, scrubLast: bool,
    memDone: bool, memAbort: bool, memBad: bool)

  const POWER_ON := Time(0, false, 0, 0, false, false, false, false, false,
                        false, false, false, false, false, 0)

  predicate Paces(s: Time, p: Params) { s.rstCnt >= p.rstCyc - 1 }

  predicate StopByMem(p: Params, i: TimeIn) { i.toThr != 0 && p.memRestore && i.memAbort }

  predicate Stops(s: Time, p: Params, i: TimeIn) {
    (s.end0 && !s.end1) || (i.toThr != 0 && s.cc >= i.toThr) || StopByMem(p, i)
  }

  predicate Fires(s: Time) { !s.stopped && s.fiCycle != 0 && !s.fired && s.cc == s.fiCycle }

  /** This edge ends the reset window and starts the next trial. */
  predicate Releases(s: Time, p: Params, i: TimeIn) {
    s.stopped && s.phase == 2 && Paces(s, p)
    && !(s.memReq && i.memDone && i.memBad) && (!s.memReq || i.memDone)
  }

  predicate Overflow(s: Time, toThr: nat) { toThr != 0 && s.fiCycle >= toThr }

  /** This edge stops the running trial. */
  predicate StopsNow(s: Time, p: Params, i: TimeIn) { !s.stopped && Stops(s, p, i) }

  /** This edge raises the DUT reset. */
  predicate Resets(s: Time, p: Params, i: TimeIn) {
    s.stopped && ((s.phase == 3 && (i.scrubLast || i.scrubDone)) || (s.phase == 1 && Paces(s, p)))
  }

  /** This edge halts the campaign: a memory could not be restored. */
  predicate Halts(s: Time, p: Params, i: TimeIn) {
    s.stopped && i.memDone && i.memBad
    && (s.phase == 4 || (s.phase == 2 && Paces(s, p) && s.memReq))
  }

  function NextPhase(s: Time, p: Params, i: TimeIn): nat {
    if !s.stopped then (if Stops(s, p, i) then (if p.scrub then 3 else 1) else s.phase)
    else if Halts(s, p, i) then 5
    else if s.phase == 1 then (if !Paces(s, p) then 1 else if p.memRestore then 4 else 2)
    else if s.phase == 3 then (if i.scrubLast || i.scrubDone then 6 else 3)
    else if s.phase == 6 then (if Paces(s, p) then 2 else 6)
    else if s.phase == 4 then (if i.memDone then 2 else 4)
    else if s.phase == 5 then 5
    else if s.phase == 2 then (if Releases(s, p, i) then 0 else 2)
    else 0
  }

  predicate NextMemReq(s: Time, p: Params, i: TimeIn) {
    if Halts(s, p, i) || Releases(s, p, i) || (s.stopped && s.phase == 4 && i.memDone) then false
    else s.memReq || (p.memRestore && (Resets(s, p, i) || (s.stopped && s.phase == 3 && i.scrubRun)))
  }

  function NextRstCnt(s: Time, p: Params): nat {
    if !s.stopped || Paces(s, p) || s.phase == 3 || s.phase == 4 || s.phase == 5
    then 0 else Inc32(s.rstCnt)
  }

  function NextCc(s: Time, p: Params, i: TimeIn): nat {
    if Releases(s, p, i) then 0 else if s.stopped then s.cc else Inc32(s.cc)
  }

  /** A host write of CFG_FI_CYCLE comes last and wins. */
  function NextFiCycle(s: Time, p: Params, i: TimeIn): nat {
    if i.cfgFiCycleWr then i.cfgFiCycle
    else if Releases(s, p, i) then Add32(s.fiCycle, i.offset) else s.fiCycle
  }

  predicate NextFired(s: Time, p: Params, i: TimeIn) {
    !i.cfgFiCycleWr && !Releases(s, p, i) && (s.fired || Fires(s))
  }

  predicate NextStopped(s: Time, p: Params, i: TimeIn) {
    !Releases(s, p, i) && (s.stopped || StopsNow(s, p, i))
  }

  predicate NextResolverRst(s: Time, p: Params, i: TimeIn) {
    !StopsNow(s, p, i) && !Releases(s, p, i) && (s.resolverRst || Resets(s, p, i))
  }

  predicate NextTestmodeRst(s: Time, p: Params, i: TimeIn) {
    if StopsNow(s, p, i) then !p.scrub
    else !Releases(s, p, i) && (s.testmodeRst || (Resets(s, p, i) && s.phase == 3))
  }

  predicate NextScrubReq(s: Time, p: Params, i: TimeIn) {
    (StopsNow(s, p, i) && p.scrub) || (s.scrubReq && !(Resets(s, p, i) && s.phase == 3))
  }

  /** Every register after one rising edge. */
  function Step(s: Time, p: Params, i: TimeIn): Time {
    Time(
      cc := NextCc(s, p, i),
      stopped := NextStopped(s, p, i),
      phase := NextPhase(s, p, i),
      fiCycle := NextFiCycle(s, p, i),
      fired := NextFired(s, p, i),
      scanStart := Fires(s),
      resolverRst := NextResolverRst(s, p, i),
      testmodeRst := NextTestmodeRst(s, p, i),
      scrubReq := NextScrubReq(s, p, i),
      memReq := NextMemReq(s, p, i),
      memHalt := s.memHalt || Halts(s, p, i),
      memAbortLast := if StopsNow(s, p, i) then StopByMem(p, i) else s.memAbortLast,
      end0 := i.cfgEnd,
      end1 := s.end0,
      rstCnt := NextRstCnt(s, p))
  }

  // ---- the clocked block, in the source's order --------------------------------------------

  /** The counter and the injection target. */
  method Counting(s: Time, p: Params, i: TimeIn) returns (cc: nat, fired: bool, scanStart: bool, fiCycle: nat)
    ensures cc == NextCc(s, p, i) && fired == NextFired(s, p, i)
    ensures scanStart == Fires(s) && fiCycle == NextFiCycle(s, p, i)
  {
    cc, fired, scanStart, fiCycle := s.cc, s.fired, false, s.fiCycle;
    if !s.stopped {
      cc := Inc32(s.cc);
      if s.fiCycle != 0 && !s.fired && s.cc == s.fiCycle {
        scanStart, fired := true, true;
      }
    } else if Releases(s, p, i) {
      cc, fiCycle, fired := 0, Add32(s.fiCycle, i.offset), false;
    }
    if i.cfgFiCycleWr {
      fiCycle, fired := i.cfgFiCycle, false;
    }
  }

  /** The phase of the reset window. */
  method Sequence(s: Time, p: Params, i: TimeIn) returns (phase: nat)
    ensures phase == NextPhase(s, p, i)
  {
    phase := s.phase;
    var paced := Paces(s, p);
    if !s.stopped {
      if Stops(s, p, i) { phase := if p.scrub then 3 else 1; }
    } else {
      match s.phase {
        case 1 => if paced { phase := if p.memRestore then 4 else 2; }
        case 3 => if i.scrubLast || i.scrubDone { phase := 6; }
        case 6 => if paced { phase := 2; }
        case 4 => if i.memDone { phase := if i.memBad then 5 else 2; }
        case 5 =>
        case 2 =>
          if paced && s.memReq && i.memDone && i.memBad {
            phase := 5;
          } else if paced && (!s.memReq || i.memDone) {
            phase := 0;
          }
        case _ => phase := 0;
      }
    }
  }

  /** The restore request and the halt flag. */
  method Request(s: Time, p: Params, i: TimeIn) returns (memReq: bool, memHalt: bool)
    ensures memReq == NextMemReq(s, p, i) && memHalt == (s.memHalt || Halts(s, p, i))
  {
    memReq, memHalt := s.memReq, s.memHalt;
    var paced := Paces(s, p);
    if s.stopped {
      match s.phase {
        case 1 => if paced && p.memRestore { memReq := true; }
        case 3 => if p.memRestore && (i.scrubRun || i.scrubLast || i.scrubDone) { memReq := true; }
        case 4 =>
          if i.memDone {
            memReq := false;
            if i.memBad { memHalt := true; }
          }
        case 2 =>
          if paced && s.memReq && i.memDone && i.memBad {
            memReq, memHalt := false, true;
          } else if paced && (!s.memReq || i.memDone) {
            memReq := false;
          }
        case _ =>
      }
    }
  }

  /** The levels the window drives. */
  method Levels(s: Time, p: Params, i: TimeIn) returns (stopped: bool, resolverRst: bool, testmodeRst: bool)
    ensures stopped == NextStopped(s, p, i) && resolverRst == NextResolverRst(s, p, i)
    ensures testmodeRst == NextTestmodeRst(s, p, i)
  {
    stopped, resolverRst, testmodeRst := s.stopped, s.resolverRst, s.testmodeRst;
    if !s.stopped {
      if Stops(s, p, i) { stopped, resolverRst, testmodeRst := true, false, !p.scrub; }
    } else if s.phase == 1 {
      if Paces(s, p) { resolverRst := true; }
    } else if s.phase == 3 {
      if i.scrubLast || i.scrubDone { resolverRst, testmodeRst := true, true; }
    } else if s.phase == 2 {
      if Releases(s, p, i) { resolverRst, testmodeRst, stopped := false, false, false; }
    }
  }

  method Scrubs(s: Time, p: Params, i: TimeIn) returns (scrubReq: bool, abortLast: bool)
    ensures scrubReq == NextScrubReq(s, p, i)
    ensures abortLast == if StopsNow(s, p, i) then StopByMem(p, i) else s.memAbortLast
  {
    scrubReq, abortLast := s.scrubReq, s.memAbortLast;
    if !s.stopped {
      if Stops(s, p, i) {
        abortLast := i.toThr != 0 && p.memRestore && i.memAbort;
        if p.scrub { scrubReq := true; }
      }
    } else if s.phase == 3 && (i.scrubLast || i.scrubDone) {
      scrubReq := false;
    }
  }

  /** The pacing counter, a block of its own in the source. */
  method Pace(s: Time, p: Params) returns (rstCnt: nat)
    ensures rstCnt == NextRstCnt(s, p)
  {
    if !s.stopped {
      rstCnt := 0;
    } else if Paces(s, p) || s.phase == 3 || s.phase == 4 || s.phase == 5 {
      rstCnt := 0;
    } else {
      rstCnt := Inc32(s.rstCnt);
    }
  }

  /** The controller: its registers change together, on the clock edge. */
  class Controller {
    const p: Params
    var r: Time

    constructor (p: Params)
      ensures r == POWER_ON && this.p == p
    {
      this.p, r := p, POWER_ON;
    }

    method Tick(i: TimeIn)
      modifies this
      ensures r == Step(old(r), p, i)
    {
      var cc, fired, scanStart, fiCycle := Counting(r, p, i);
      var phase := Sequence(r, p, i);
      var stopped, resolverRst, testmodeRst := Levels(r, p, i);
      var scrubReq, abortLast := Scrubs(r, p, i);
      var memReq, memHalt := Request(r, p, i);
      var rstCnt := Pace(r, p);
      r := Time(cc, stopped, phase, fiCycle, fired, scanStart, resolverRst, testmodeRst, scrubReq,
                memReq, memHalt, abortLast, i.cfgEnd, r.end0, rstCnt);
    }
  }

  // ---- what holds in every run -------------------------------------------------

  /** The reset-window invariant. */
  ghost predicate WindowInv(s: Time, p: Params) {
    && (s.stopped <==> s.phase != 0)
    && s.phase <= 6
    && (s.resolverRst <==> s.phase == 2 || s.phase == 4 || s.phase == 5 || s.phase == 6)
    && (s.scrubReq <==> s.phase == 3)
    && (s.memHalt <==> s.phase == 5)
    && (p.scrub ==> s.phase != 1 && s.phase != 4)
    && (!p.scrub ==> s.phase != 3 && s.phase != 6)
    && (s.memReq ==> p.memRestore && (s.phase == 2 || s.phase == 3 || s.phase == 4 || s.phase == 6))
    && (p.memRestore && (s.phase == 4 || s.phase == 6 || (p.scrub && s.phase == 2)) ==> s.memReq)
    && (s.testmodeRst <==> if p.scrub then s.resolverRst else s.stopped)
  }

  lemma WindowInvStep(s: Time, p: Params, i: TimeIn)
    requires WindowInv(s, p)
    ensures WindowInv(Step(s, p, i), p)
  {
  }

  function Run(s: Time, p: Params, ins: seq<TimeIn>): Time {
    if ins == [] then s else Step(Run(s, p, ins[..|ins| - 1]), p, ins[|ins| - 1])
  }

  lemma {:induction false} WindowInvAlways(p: Params, ins: seq<TimeIn>)
    ensures WindowInv(Run(POWER_ON, p, ins), p)
  {
    if ins != [] {
      WindowInvAlways(p, ins[..|ins| - 1]);
      WindowInvStep(Run(POWER_ON, p, ins[..|ins| - 1]), p, ins[|ins| - 1]);
    }
  }

  /** Edges since the controller was last seen stopped. */
  function Since(p: Params, ins: seq<TimeIn>): nat {
    if ins == [] || Run(POWER_ON, p, ins[..|ins| - 1]).stopped then 0 else Since(p, ins[..|ins| - 1]) + 1
  }

  /** The END input rose between the last two edges. */
  predicate EndRose(ins: seq<TimeIn>) {
    ins != [] && ins[|ins| - 1].cfgEnd && (|ins| >= 2 ==> !ins[|ins| - 2].cfgEnd)
  }

  /** In every run the edge registers hold END as the last two edges found it, and the counter counts
      the edges of the running trial, in 32 bits. */
  lemma {:induction false} CountsTheTrial(p: Params, ins: seq<TimeIn>)
    ensures var s := Run(POWER_ON, p, ins);
            && ((s.end0 && !s.end1) <==> EndRose(ins)) && (ins != [] ==> s.end0 == ins[|ins| - 1].cfgEnd)
            && (ins == [] ==> !s.end0) && (!s.stopped ==> s.cc == Since(p, ins) % W32)
  {
    if ins != [] {
      CountsTheTrial(p, ins[..|ins| - 1]);
      NextModulo(Since(p, ins[..|ins| - 1]));
    }
  }

  lemma NextModulo(n: nat)
    ensures (n + 1) % W32 == if n % W32 + 1 == W32 then 0 else n % W32 + 1
  {
  }

  /** What ends a trial, in every run: a rise of END, the timeout, and a memory that asks for it; with
      the timeout at 0 only END does. The edge that stops it enters the window: with a scrub requested
      and test mode let through, or in the wait before the reset with test mode cut; the reset is not up
      yet, and the flag tells whether a memory asked. */
  lemma {:induction false} StopsIff(p: Params, ins: seq<TimeIn>, i: TimeIn)
    requires !Run(POWER_ON, p, ins).stopped
    ensures var r := Step(Run(POWER_ON, p, ins), p, i);
            var asked := i.toThr != 0 && p.memRestore && i.memAbort;
            && (r.stopped <==> EndRose(ins) || (i.toThr != 0 && Since(p, ins) % W32 >= i.toThr) || asked)
            && (r.stopped ==>
                  && r.phase == (if p.scrub then 3 else 1) && r.scrubReq == p.scrub
                  && r.testmodeRst == !p.scrub && !r.resolverRst && r.memAbortLast == asked)
  {
    CountsTheTrial(p, ins);
    WindowInvAlways(p, ins);
  }

  /** scan_start pulses since the cycle counter was last cleared, as an observer of
      the output counts them. A host write of CFG_FI_CYCLE starts a new count. */
  function Starts(s: Time, p: Params, ins: seq<TimeIn>): nat {
    if ins == [] then 0 else
      var was := Run(s, p, ins[..|ins| - 1]);
      var i := ins[|ins| - 1];
      if Releases(was, p, i) || i.cfgFiCycleWr then 0
      else Starts(s, p, ins[..|ins| - 1]) + if Step(was, p, i).scanStart then 1 else 0
  }

  lemma {:induction false} AtMostOneStart(p: Params, ins: seq<TimeIn>)
    ensures Starts(POWER_ON, p, ins) <= 1
    ensures Starts(POWER_ON, p, ins) == 1 <==> Run(POWER_ON, p, ins).fired
  {
    if ins != [] {
      AtMostOneStart(p, ins[..|ins| - 1]);
    }
  }

  /** The flag that tells why the last trial ended stays until the next one ends. */
  lemma FlagStays(s: Time, p: Params, i: TimeIn)
    requires s.stopped || !Step(s, p, i).stopped
    ensures Step(s, p, i).memAbortLast == s.memAbortLast
  {
  }

  /** The injection target: the host's last write and the offsets of the releases since, in 32 bits. */
  function Target(p: Params, ins: seq<TimeIn>): nat {
    if ins == [] then 0 else
      var pre, i := ins[..|ins| - 1], ins[|ins| - 1];
      if i.cfgFiCycleWr then i.cfgFiCycle
      else if Run(POWER_ON, p, pre).stopped && !Run(POWER_ON, p, ins).stopped then (Target(p, pre) + i.offset) % W32
      else Target(p, pre)
  }

  ghost predicate Words(ins: seq<TimeIn>) {
    forall k :: 0 <= k < |ins| ==> ins[k].cfgFiCycle < W32 && ins[k].offset < W32
  }

  lemma {:induction false} SweepsTheTarget(p: Params, ins: seq<TimeIn>)
    requires Words(ins)
    ensures Run(POWER_ON, p, ins).fiCycle == Target(p, ins) < W32
  {
    if ins != [] {
      var pre, i := ins[..|ins| - 1], ins[|ins| - 1];
      SweepsTheTarget(p, pre);
      AddModulo(Target(p, pre), i.offset);
    }
  }

  lemma AddModulo(x: nat, y: nat)
    requires x < W32 && y < W32
    ensures (x + y) % W32 == Add32(x, y)
  {
  }

  /** When the start pulse comes, in every run: on the edge of the running trial whose number is the target,
      if that is not 0 and the trial has had no pulse for it yet. */
  lemma {:induction false} PulseIff(p: Params, ins: seq<TimeIn>, i: TimeIn)
    requires Words(ins)
    ensures Step(Run(POWER_ON, p, ins), p, i).scanStart <==>
              && !Run(POWER_ON, p, ins).stopped && Target(p, ins) != 0
              && Since(p, ins) % W32 == Target(p, ins) && Starts(POWER_ON, p, ins) == 0
  {
    CountsTheTrial(p, ins);
    SweepsTheTarget(p, ins);
    AtMostOneStart(p, ins);
  }

  /** Every wait of the window, with a scrub or without, takes exactly RST_CYC edges: the one in front of
      the reset (phase 1), the one behind a scrub (6), and the last one (2), the memories being done. */
  lemma {:induction false} WaitsItsCycles(s: Time, p: Params, ins: seq<TimeIn>)
    requires WindowInv(s, p) && s.rstCnt == 0 && (s.phase == 1 || s.phase == 6 || (s.phase == 2 && !s.memReq))
    requires |ins| <= p.rstCyc && 1 <= p.rstCyc < W32
    ensures var r := Run(s, p, ins);
            && WindowInv(r, p)
            && (|ins| < p.rstCyc ==> r.phase == s.phase && r.rstCnt == |ins| && r.memReq == s.memReq)
            && (|ins| == p.rstCyc ==>
                  && r.phase == (if s.phase == 6 then 2 else if s.phase == 2 then 0 else if p.memRestore then 4 else 2)
                  && r.rstCnt == 0 && (s.phase == 2 ==> !r.stopped && r.cc == 0))
  {
    if ins != [] {
      WaitsItsCycles(s, p, ins[..|ins| - 1]);
      WindowInvStep(Run(s, p, ins[..|ins| - 1]), p, ins[|ins| - 1]);
    }
  }

  /** With a scrub the memories restore alongside it, from its first shift on, and the reset goes up on its
      last shift, or at once if there is nothing to shift. */
  lemma RestoresWithTheScrub(s: Time, p: Params, i: TimeIn)
    requires WindowInv(s, p) && s.phase == 3
    ensures var r, ends := Step(s, p, i), i.scrubLast || i.scrubDone;
            && r.stopped && r.phase == (if ends then 6 else 3) && r.resolverRst == ends && r.scrubReq == !ends
            && r.memReq == (s.memReq || (p.memRestore && (i.scrubRun || ends)))
  {
  }

  /** Without a scrub the reset waits for the memories, for as long as they take, and for nothing else. */
  lemma RestoresInReset(s: Time, p: Params, i: TimeIn)
    requires WindowInv(s, p) && p.memRestore && s.phase == 4
    ensures var r := Step(s, p, i);
            && r.resolverRst && r.stopped && r.rstCnt == 0
            && r.phase == (if !i.memDone then 4 else if i.memBad then 5 else 2) && r.memReq == !i.memDone
  {
  }

  /** A campaign that was halted stays so, with the design in reset. */
  lemma {:induction false} HaltsForGood(s: Time, p: Params, ins: seq<TimeIn>)
    requires WindowInv(s, p) && s.memHalt
    ensures var r := Run(s, p, ins);
            WindowInv(r, p) && r.memHalt && r.resolverRst && r.stopped && (ins != [] ==> !r.scanStart)
  {
    if ins != [] {
      HaltsForGood(s, p, ins[..|ins| - 1]);
      WindowInvStep(Run(s, p, ins[..|ins| - 1]), p, ins[|ins| - 1]);
    }
  }

  /** What halts it: a finished restore that some memory calls bad, seen where the window waits for one. */
  lemma HaltsIff(s: Time, p: Params, i: TimeIn)
    requires WindowInv(s, p) && !s.memHalt
    ensures Step(s, p, i).memHalt <==>
              i.memDone && i.memBad && (s.phase == 4 || (s.phase == 2 && s.memReq && s.rstCnt + 1 >= p.rstCyc))
  {
  }

  /** Since the reset last went up, a requested restore has finished without being reported bad. */
  predicate Restored(s: Time, p: Params, ins: seq<TimeIn>) {
    ins != []
    && var was := Run(s, p, ins[..|ins| - 1]);
       var i := ins[|ins| - 1];
       if was.memReq && i.memDone && !i.memBad then true
       else !Resets(was, p, i) && Restored(s, p, ins[..|ins| - 1])
  }

  /** Without a scrub the restore comes before the last wait of the window. */
  lemma {:induction false} RestoredBeforeTheWait(p: Params, ins: seq<TimeIn>)
    requires p.memRestore && !p.scrub && Run(POWER_ON, p, ins).phase == 2
    ensures Restored(POWER_ON, p, ins)
  {
    if ins != [] {
      var pre := ins[..|ins| - 1];
      WindowInvAlways(p, pre);
      if Run(POWER_ON, p, pre).phase == 2 { RestoredBeforeTheWait(p, pre); }
    }
  }

  /** A release in any run, with a scrub or without: the restore requested in this window has
      finished and nothing reported it bad. */
  lemma {:induction false} ReleaseIsClean(p: Params, ins: seq<TimeIn>, i: TimeIn)
    requires p.memRestore
    requires var s := Run(POWER_ON, p, ins);
             s.resolverRst && !Step(s, p, i).resolverRst
    ensures var s := Run(POWER_ON, p, ins);
            && Releases(s, p, i) && (s.memReq ==> i.memDone && !i.memBad) && (p.scrub ==> s.memReq)
            && Restored(POWER_ON, p, ins + [i])
            && Step(s, p, i).cc == 0 && !Step(s, p, i).stopped
  {
    WindowInvAlways(p, ins);
    assert (ins + [i])[..|ins|] == ins;
    if !p.scrub { RestoredBeforeTheWait(p, ins); }
  }
}
