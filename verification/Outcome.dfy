/** Campaigns that are not feasible: the first trial that does not work, and what becomes of the run. */
module Outcome {
  import opened Executor
  import opened Trial
  import opened Campaign
  import Alive
  import Arith
  import Exact
  import Pass
  import opened Patterns
  import TableCtrl

  function EndOf(p: Plan): nat { p.base + |p.idx| }

  // ---- a pattern whose end is not reached ----------------------------------------------------------------

  /** The lookahead is full and the pattern's last word is still to come. */
  predicate Full(c: Setup, x: Core) { Exact.Missed(x) && |x.tbl.la| == c.b.lookahead }

  /** Until the release nothing more of the pattern is fetched. */
  predicate Held(c: Setup, p: Plan, x: Core) {
    && Exact.Timely(x.time) && x.tbl.ptr < EndOf(p) && !x.tbl.exhausted && (x.time.resolverRst || Full(c, x))
  }

  lemma FullIsQuiet(c: Setup, x: Core, e: Env)
    requires Exact.Missed(x)
    ensures !TableInput(c.b, c.table, x, HostIn(c), e).pop
  {
  }

  lemma HeldTable(c: Setup, p: Plan, x: Core, e: Env)
    requires Legal(c) && Loaded(c, p) && Held(c, p, x)
    ensures var t := Next(c, x, e).tbl;
            && t.ptr == x.tbl.ptr && !t.exhausted && (x.time.resolverRst ==> !t.eop)
            && (!x.time.resolverRst ==> t.la == x.tbl.la)
  {
    if !x.time.resolverRst { FullIsQuiet(c, x, e); }
  }

  lemma HeldStep(c: Setup, p: Plan, x: Core, e: Env)
    requires Legal(c) && Loaded(c, p) && Held(c, p, x) && !Executor.Releases(c.b, x, HostIn(c), e)
    ensures Held(c, p, Next(c, x, e))
  {
    Exact.TimelyStep(c, x, e);
    HeldTable(c, p, x, e);
    if !x.time.resolverRst { Exact.MissedStep(c, x, e); }
  }

  /** In trial T the table is at most behind the pattern before its own, so the last pattern is never
      reached in the last trial. */
  ghost predicate Behind(c: Setup, ps: seq<Plan>, x: Core, trial: nat)
    requires 2 <= trial <= |ps| + 1
  {
    var e := EndOf(ps[trial - 2]);
    && Exact.Timely(x.time) && !x.tbl.exhausted && x.tbl.ptr <= e
    && (x.tbl.ptr == e ==> x.tbl.eop || x.time.resolverRst)
  }

  lemma EndsGrow(c: Setup, ps: seq<Plan>, k: nat)
    requires Tabled(c, ps) && k < |ps|
    ensures EndOf(ps[k]) <= c.tblLen && c.table[EndOf(ps[k]) - 1].eop
    ensures k + 1 < |ps| ==> EndOf(ps[k]) == ps[k + 1].base < EndOf(ps[k + 1])
  {
    var p := ps[k];
    var i := |p.idx| - 1;
    assert Loaded(c, p) && c.table[p.base + i].idx == p.idx[i];
    if k + 1 < |ps| { assert Follows(p, ps[k + 1]) && Loaded(c, ps[k + 1]); }
  }

  lemma BehindTable(c: Setup, t: TableCtrl.Table, i: TableCtrl.TableIn, e: nat)
    requires Legal(c) && 1 <= e < c.tblLen && c.table[e - 1].eop && t.ptr <= e && !t.exhausted
    requires !i.batchStart && i.tblLen == c.tblLen && i.word == ReadWord(c.table, t.ptr)
    requires t.ptr == e ==> t.eop || i.resolverRst
    ensures var n := TableCtrl.Step(t, i, c.b.lookahead, |c.table|);
            && n.ptr <= e && !n.exhausted && (!i.resolverRst && n.ptr == e ==> n.eop)
  {
  }

  lemma BehindStep(c: Setup, ps: seq<Plan>, x: Core, e: Env, trial: nat)
    requires Tabled(c, ps) && 2 <= trial <= |ps| && Behind(c, ps, x, trial)
    ensures Behind(c, ps, Next(c, x, e), if Executor.Releases(c.b, x, HostIn(c), e) then trial + 1 else trial)
  {
    Exact.TimelyStep(c, x, e);
    EndsGrow(c, ps, trial - 2);
    EndsGrow(c, ps, trial - 1);
    BehindTable(c, x.tbl, TableInput(c.b, c.table, x, HostIn(c), e), EndOf(ps[trial - 2]));
  }

  lemma HeldReleases(c: Setup, ps: seq<Plan>, x: Core, e: Env, k: nat)
    requires Tabled(c, ps) && k < |ps| && Held(c, ps[k], x) && Executor.Releases(c.b, x, HostIn(c), e)
    ensures Behind(c, ps, Next(c, x, e), k + 2)
  {
    Exact.TimelyStep(c, x, e);
    HeldTable(c, ps[k], x, e);
  }

  lemma StreamsFull(t: TableCtrl.Table, c: Setup, p: Plan, q: nat)
    requires Streams(t, c, p, q) && q + c.b.lookahead < |p.idx|
    ensures |t.la| == c.b.lookahead && t.ptr < EndOf(p) && !t.exhausted
  {
  }

  lemma TailUnfit(c: Setup, p: Plan, t: nat, h: nat)
    requires !Fits(c, p) && t + 1 == c.len && h == Pass.Head(Steps(p, c.len), t, c.len)
    ensures (if Consumes(c, p, t, h) then h + 1 else h) + 2 + c.b.lookahead < |p.idx|
  {
    Pass.LeftIsTail(Steps(p, c.len), c.len);
    HeadMoves(c, p, t);
  }

  lemma UnfitCore(c: Setup, p: Plan, x: Core, e: Env, t: nat, h: nat)
    requires Legal(c) && Shift(c, p, x, t, h) && t + 1 == c.len
    ensures Exact.Timely(Next(c, x, e).time) && Exact.Missed(Next(c, x, e))
  {
  }

  lemma UnfitTable(c: Setup, p: Plan, x: Core, e: Env, t: nat, h: nat)
    requires Legal(c) && Loaded(c, p) && Shift(c, p, x, t, h)
    requires (if Consumes(c, p, t, h) then h + 1 else h) + 2 + c.b.lookahead < |p.idx|
    ensures var n := Next(c, x, e).tbl; |n.la| == c.b.lookahead && n.ptr < EndOf(p) && !n.exhausted
  {
    ShiftTable(c, p, x, e, t, h);
    StreamsFull(Next(c, x, e).tbl, c, p, (if Consumes(c, p, t, h) then h + 1 else h) + 2);
  }

  /** The pass of a pattern that is not fetched to its end leaves the table in the middle of it. */
  lemma UnfitEnds(c: Setup, p: Plan, x: Core, e: Env, t: nat, h: nat)
    requires Legal(c) && Loaded(c, p) && !Fits(c, p) && t + 1 == c.len
    requires h == Pass.Head(Steps(p, c.len), t, c.len) && Shift(c, p, x, t, h)
    ensures Held(c, p, Next(c, x, e))
  {
    TailUnfit(c, p, t, h);
    UnfitTable(c, p, x, e, t, h);
    UnfitCore(c, p, x, e, t, h);
  }

  // ---- the first trial that does not work, stage by stage ---------------------------------------------------

  /** Its pass has inverted the wrong cells. */
  ghost predicate Spoilt(ps: seq<Plan>, k: nat, y: Sys) {
    k < |ps| && k < |y.shots| && y.shots[k].closed && y.shots[k].after != Flipped(y.shots[k].before, ps[k].idx)
  }

  ghost predicate Astray(c: Setup, ps: seq<Plan>, k: nat, y: Sys)
    requires k < |ps|
  {
    var p := ps[k];
    && Sized(c, y) && y.trials == k + 1
    && (|| (Log(c, ps, y.shots, k) && |y.shots| == k && Waiting(c, p, y) && y.since <= c.toThr + 1)
        || (Log(c, ps, y.shots, k) && |y.shots| == k && Leading(c, p, y) && Prefetches(c, p) && BeatsTimeout(c, p))
        || (Log(c, ps, y.shots, k) && |y.shots| == k && Exact.Missing(y.x))
        || (&& Log(c, ps, y.shots, k) && |y.shots| == k + 1 && Shifting(c, p, y)
            && Prefetches(c, p) && BeatsTimeout(c, p))
        || Spoilt(ps, k, y)
        || Held(c, p, y.x))
  }

  lemma SpoiltStays(c: Setup, ps: seq<Plan>, k: nat, y: Sys, i: In)
    requires Sized(c, y) && |i.dut| == c.len && Spoilt(ps, k, y)
    ensures Spoilt(ps, k, Tick(c, y, i))
  {
  }

  lemma SpoiltIsNotAsPlanned(ps: seq<Plan>, k: nat, y: Sys)
    requires Spoilt(ps, k, y)
    ensures !Injected(Asked(ps), y)
  {
  }

  /** What an edge does to the trial count, when it cannot release and when it does. */
  lemma TickTrials(c: Setup, y: Sys, i: In)
    requires Sized(c, y) && |i.dut| == c.len
    ensures var r, rel := Tick(c, y, i), Executor.Releases(c.b, y.x, HostIn(c), EnvOf(c, y, i));
            r.trials == (if rel then y.trials + 1 else y.trials) && r.since == (if rel then 0 else y.since + 1)
  {
  }

  lemma WaitGoesOn(c: Setup, ps: seq<Plan>, k: nat, y: Sys, i: In)
    requires Tabled(c, ps) && k < |ps| && Sized(c, y) && |i.dut| == c.len && NoEarlyAbort(ps, y, i)
    requires y.trials == k + 1 && Log(c, ps, y.shots, k) && |y.shots| == k
    requires Waiting(c, ps[k], y) && y.since <= c.toThr && y.since < ps[k].cycle + 3
    ensures Astray(c, ps, k, Tick(c, y, i))
  {
    WaitingBooks(c, ps[k], y, i);
    TickCore(c, y, i);
    WaitStep(c, ps[k], y.x, EnvOf(c, y, i), y.since);
    StillWaiting(c, ps[k], y, Tick(c, y, i), Next(c, y.x, EnvOf(c, y, i)));
  }

  lemma WaitArms(c: Setup, ps: seq<Plan>, k: nat, y: Sys, i: In)
    requires Tabled(c, ps) && k < |ps| && Sized(c, y) && |i.dut| == c.len
    requires y.trials == k + 1 && Log(c, ps, y.shots, k) && |y.shots| == k
    requires Waiting(c, ps[k], y) && y.since == ps[k].cycle + 3 && Prefetches(c, ps[k]) && BeatsTimeout(c, ps[k])
    ensures Astray(c, ps, k, Tick(c, y, i))
  {
    WaitingBooks(c, ps[k], y, i);
    TickCore(c, y, i);
    ArmStep(c, ps[k], y.x, EnvOf(c, y, i));
    StillLeading(c, ps[k], y, Tick(c, y, i), Next(c, y.x, EnvOf(c, y, i)));
  }

  lemma StillLeading(c: Setup, p: Plan, y: Sys, r: Sys, n: Core)
    requires r.x == n && r.since == y.since + 1 == p.cycle + 4 && Lead(c, p, n)
    requires r.since > p.cycle ==> r.fire == p.cycle
    ensures Leading(c, p, r)
  {
  }

  lemma WaitIsMissed(c: Setup, ps: seq<Plan>, k: nat, y: Sys, i: In)
    requires Tabled(c, ps) && k < |ps| && Sized(c, y) && |i.dut| == c.len
    requires y.trials == k + 1 && Log(c, ps, y.shots, k) && |y.shots| == k && Waiting(c, ps[k], y)
    requires var p := ps[k];
             (y.since == p.cycle + 3 && !Prefetches(c, p)) || (y.since == p.cycle + 2 && !BeatsTimeout(c, p))
    ensures Astray(c, ps, k, Tick(c, y, i))
  {
    WaitingBooks(c, ps[k], y, i);
    TickCore(c, y, i);
    Exact.WaitMisses(c, ps[k], y.x, EnvOf(c, y, i), y.since);
  }

  lemma WaitGoesAstray(c: Setup, ps: seq<Plan>, k: nat, y: Sys, i: In)
    requires Tabled(c, ps) && k < |ps| && Sized(c, y) && |i.dut| == c.len && NoEarlyAbort(ps, y, i)
    requires y.trials == k + 1 && Log(c, ps, y.shots, k) && |y.shots| == k
    requires Waiting(c, ps[k], y) && y.since <= c.toThr + 1
    ensures Astray(c, ps, k, Tick(c, y, i))
  {
    if y.since < ps[k].cycle + 3 && y.since <= c.toThr { WaitGoesOn(c, ps, k, y, i); }
    else if y.since == ps[k].cycle + 3 && Prefetches(c, ps[k]) { WaitArms(c, ps, k, y, i); }
    else { WaitIsMissed(c, ps, k, y, i); }
  }

  lemma StillWaiting(c: Setup, p: Plan, y: Sys, r: Sys, n: Core)
    requires r.x == n && r.since == y.since + 1 && Wait(c, p, n, r.since) && (r.since > p.cycle ==> r.fire == p.cycle)
    ensures Waiting(c, p, r)
  {
  }

  lemma OpenIsShifting(c: Setup, ps: seq<Plan>, k: nat, r: Sys)
    requires k < |ps| && Inv(c, ps, r) && r.trials == k + 1 == |r.shots| && !r.shots[k].closed
    ensures Log(c, ps, r.shots, k) && Shifting(c, ps[k], r)
  {
  }

  lemma LeadGoesAstray(c: Setup, ps: seq<Plan>, k: nat, y: Sys, i: In)
    requires Tabled(c, ps) && k < |ps| && Sized(c, y) && |i.dut| == c.len
    requires y.trials == k + 1 && Log(c, ps, y.shots, k) && |y.shots| == k && Leading(c, ps[k], y)
    requires Prefetches(c, ps[k]) && BeatsTimeout(c, ps[k])
    ensures Astray(c, ps, k, Tick(c, y, i))
  {
    LeadingStep(c, ps, y, i);
    NotReleasing(c, ps[k], y.x, EnvOf(c, y, i));
    LeadOpens(c, ps[k], y, i);
    OpenIsShifting(c, ps, k, Tick(c, y, i));
  }

  lemma LeadOpens(c: Setup, p: Plan, y: Sys, i: In)
    requires Sized(c, y) && |i.dut| == c.len && Lead(c, p, y.x)
    ensures Tick(c, y, i).shots == y.shots + [Shot(y.trials, y.fire, NextChain(c, y, i), [], false)]
  {
  }

  lemma ShiftGoesOn(c: Setup, ps: seq<Plan>, k: nat, y: Sys, i: In)
    requires Tabled(c, ps) && k < |ps| && Sized(c, y) && |i.dut| == c.len && y.x.scan.cnt < c.len - 1
    requires y.trials == k + 1 && Log(c, ps, y.shots, k) && |y.shots| == k + 1 && Shifting(c, ps[k], y)
    requires Prefetches(c, ps[k]) && BeatsTimeout(c, ps[k])
    ensures Astray(c, ps, k, Tick(c, y, i))
  {
    ShiftsOn(c, ps[k], y, i);
    ShiftingBooks(c, ps[k], y, i);
  }

  /** The pass ends: with the wrong cells inverted, or in the middle of the pattern. */
  lemma ShiftGoesAstray(c: Setup, ps: seq<Plan>, k: nat, y: Sys, i: In)
    requires Tabled(c, ps) && k < |ps| && Sized(c, y) && |i.dut| == c.len && y.x.scan.cnt == c.len - 1
    requires Descends(ps[k].idx) && !Works(c, ps[k])
    requires y.trials == k + 1 && Log(c, ps, y.shots, k) && |y.shots| == k + 1 && Shifting(c, ps[k], y)
    requires Prefetches(c, ps[k]) && BeatsTimeout(c, ps[k])
    ensures Spoilt(ps, k, Tick(c, y, i)) || Held(c, ps[k], Tick(c, y, i).x)
    ensures Tick(c, y, i).trials == k + 1
  {
    var p := ps[k];
    EndBooks(c, p, y, i);
    EndChain(c, p, y, i);
    if Shows(p.idx, c.len) {
      TickCore(c, y, i);
      EndHeld(c, p, y.x, EnvOf(c, y, i), y.x.scan.cnt, y);
    } else {
      assert Recorded(c, p, k, y.shots[k]);
      FlipsTheSetIff(c, p, y.shots[k].before);
    }
  }

  lemma EndHeld(c: Setup, p: Plan, x: Core, e: Env, t: nat, y: Sys)
    requires Legal(c) && Loaded(c, p) && !Fits(c, p) && Shifting(c, p, y)
    requires x == y.x && t == x.scan.cnt && t + 1 == c.len
    ensures Held(c, p, Next(c, x, e))
  {
    UnfitEnds(c, p, x, e, t, Pass.Head(Steps(p, c.len), t, c.len));
  }

  lemma MissingGoesOn(c: Setup, ps: seq<Plan>, k: nat, y: Sys, i: In)
    requires k < |ps| && Sized(c, y) && |i.dut| == c.len
    requires y.trials == k + 1 && Log(c, ps, y.shots, k) && |y.shots| == k && Exact.Missing(y.x)
    ensures var r := Tick(c, y, i);
            if r.trials == k + 1 then Astray(c, ps, k, r) else r.trials == k + 2 && !Injected(Asked(ps), r)
  {
    var e := EnvOf(c, y, i);
    Exact.MissingOpensNothing(y.x);
    TickTrials(c, y, i);
    MissingBooks(c, ps, k, y, i);
    if !Executor.Releases(c.b, y.x, HostIn(c), e) {
      Exact.MissingStep(c, y.x, e);
      TickCore(c, y, i);
    } else {
      NotMade(ps, k, Tick(c, y, i));
    }
  }

  lemma MissingBooks(c: Setup, ps: seq<Plan>, k: nat, y: Sys, i: In)
    requires Sized(c, y) && |i.dut| == c.len && !OpensPass(y.x) && Log(c, ps, y.shots, k) && |y.shots| == k
    ensures Tick(c, y, i).shots == y.shots
  {
  }

  lemma NotMade(ps: seq<Plan>, k: nat, r: Sys)
    requires k < |ps| && r.trials == k + 2 && |r.shots| == k
    ensures !Injected(Asked(ps), r)
  {
    assert !Made(r, k);
  }

  // ---- the whole run -------------------------------------------------------------------------------------------

  /** Trial k is the first that does not work. */
  ghost predicate FirstBad(c: Setup, ps: seq<Plan>, k: nat) {
    && Tabled(c, ps) && k < |ps| && !Works(c, ps[k]) && (forall j :: 0 <= j < k ==> Works(c, ps[j]))
    && forall j :: 0 <= j < |ps| ==> Descends(ps[j].idx)
  }

  ghost predicate OnTheWay(c: Setup, ps: seq<Plan>, k: nat, y: Sys)
    requires k < |ps|
  {
    && Sized(c, y) && y.trials <= |ps|
    && if y.trials <= k then Inv(c, ps, y)
       else if y.trials == k + 1 then Astray(c, ps, k, y)
       else Behind(c, ps, y.x, y.trials)
  }

  lemma FreshIsAstray(c: Setup, ps: seq<Plan>, k: nat, r: Sys)
    requires Tabled(c, ps) && k < |ps| && Inv(c, ps, r) && r.trials == k + 1 && r.since == 0
    ensures Astray(c, ps, k, r)
  {
  }

  lemma NotExhausted(c: Setup, ps: seq<Plan>, r: Sys)
    requires |ps| >= 1 && r.trials == |ps| + 1 && Behind(c, ps, r.x, r.trials)
    ensures !Injected(Asked(ps), r)
  {
  }

  lemma WayBefore(c: Setup, ps: seq<Plan>, k: nat, y: Sys, i: In)
    requires FirstBad(c, ps, k) && OnTheWay(c, ps, k, y) && y.trials <= k && |i.dut| == c.len && NoEarlyAbort(ps, y, i)
    ensures OnTheWay(c, ps, k, Tick(c, y, i))
  {
    InvStep(c, ps, y, i);
    TickTrials(c, y, i);
    if Tick(c, y, i).trials == k + 1 { FreshIsAstray(c, ps, k, Tick(c, y, i)); }
  }

  lemma AstrayTrials(c: Setup, ps: seq<Plan>, k: nat, y: Sys, i: In)
    requires k < |ps| && Sized(c, y) && |i.dut| == c.len && Active(c, y.x.time, ps[k])
    ensures Tick(c, y, i).trials == y.trials
  {
    NotReleasing(c, ps[k], y.x, EnvOf(c, y, i));
  }

  lemma HeldGoesOn(c: Setup, ps: seq<Plan>, k: nat, y: Sys, i: In)
    requires FirstBad(c, ps, k) && Sized(c, y) && |i.dut| == c.len && y.trials == k + 1 && Held(c, ps[k], y.x)
    ensures !Injected(Asked(ps), Tick(c, y, i)) || OnTheWay(c, ps, k, Tick(c, y, i))
  {
    var e, r := EnvOf(c, y, i), Tick(c, y, i);
    TickTrials(c, y, i);
    TickCore(c, y, i);
    if Executor.Releases(c.b, y.x, HostIn(c), e) {
      HeldReleases(c, ps, y.x, e, k);
      if k + 1 == |ps| { NotExhausted(c, ps, r); }
    } else {
      HeldStep(c, ps[k], y.x, e);
    }
  }

  lemma WayAstray(c: Setup, ps: seq<Plan>, k: nat, y: Sys, i: In)
    requires FirstBad(c, ps, k) && Astray(c, ps, k, y) && |i.dut| == c.len && NoEarlyAbort(ps, y, i)
    ensures !Injected(Asked(ps), Tick(c, y, i)) || OnTheWay(c, ps, k, Tick(c, y, i))
  {
    var p := ps[k];
    if Spoilt(ps, k, y) {
      SpoiltStays(c, ps, k, y, i);
      SpoiltIsNotAsPlanned(ps, k, Tick(c, y, i));
    } else if Held(c, p, y.x) {
      HeldGoesOn(c, ps, k, y, i);
    } else if |y.shots| == k + 1 {
      AstrayTrials(c, ps, k, y, i);
      if y.x.scan.cnt < c.len - 1 {
        ShiftGoesOn(c, ps, k, y, i);
      } else {
        ShiftGoesAstray(c, ps, k, y, i);
        if Spoilt(ps, k, Tick(c, y, i)) { SpoiltIsNotAsPlanned(ps, k, Tick(c, y, i)); }
      }
    } else {
      WayWaiting(c, ps, k, y, i);
    }
  }

  lemma WayWaiting(c: Setup, ps: seq<Plan>, k: nat, y: Sys, i: In)
    requires FirstBad(c, ps, k) && Astray(c, ps, k, y) && |i.dut| == c.len && NoEarlyAbort(ps, y, i)
    requires !Spoilt(ps, k, y) && !Held(c, ps[k], y.x) && |y.shots| != k + 1
    ensures !Injected(Asked(ps), Tick(c, y, i)) || OnTheWay(c, ps, k, Tick(c, y, i))
  {
    if Exact.Missing(y.x) {
      MissingGoesOn(c, ps, k, y, i);
    } else if Leading(c, ps[k], y) && Prefetches(c, ps[k]) && BeatsTimeout(c, ps[k]) {
      AstrayTrials(c, ps, k, y, i);
      LeadGoesAstray(c, ps, k, y, i);
    } else {
      AstrayTrials(c, ps, k, y, i);
      WaitGoesAstray(c, ps, k, y, i);
    }
  }

  lemma WayBehind(c: Setup, ps: seq<Plan>, k: nat, y: Sys, i: In)
    requires FirstBad(c, ps, k) && OnTheWay(c, ps, k, y) && y.trials >= k + 2 && |i.dut| == c.len
    ensures !Injected(Asked(ps), Tick(c, y, i)) || OnTheWay(c, ps, k, Tick(c, y, i))
  {
    var r := Tick(c, y, i);
    TickTrials(c, y, i);
    TickCore(c, y, i);
    BehindStep(c, ps, y.x, EnvOf(c, y, i), y.trials);
    if r.trials == |ps| + 1 { NotExhausted(c, ps, r); }
  }

  /** Some moment of the run is not as planned. */
  ghost predicate GoesWrong(c: Setup, ps: seq<Plan>, y: Sys, ins: seq<In>)
    requires Sized(c, y) && Wired(c, ins)
  {
    !Injected(Asked(ps), Run(c, y, ins)) || (ins != [] && GoesWrong(c, ps, y, ins[..|ins| - 1]))
  }

  lemma WayStep(c: Setup, ps: seq<Plan>, k: nat, y: Sys, i: In)
    requires FirstBad(c, ps, k) && OnTheWay(c, ps, k, y) && |i.dut| == c.len && NoEarlyAbort(ps, y, i)
    ensures !Injected(Asked(ps), Tick(c, y, i)) || OnTheWay(c, ps, k, Tick(c, y, i))
  {
    if y.trials <= k { WayBefore(c, ps, k, y, i); }
    else if y.trials == k + 1 { WayAstray(c, ps, k, y, i); }
    else { WayBehind(c, ps, k, y, i); }
  }

  lemma {:induction false} WayAlways(c: Setup, ps: seq<Plan>, k: nat, y: Sys, ins: seq<In>)
    requires FirstBad(c, ps, k) && Armed(c, ps, y) && Wired(c, ins) && NeverEarlyAbort(c, ps, y, ins)
    ensures GoesWrong(c, ps, y, ins) || OnTheWay(c, ps, k, Run(c, y, ins))
  {
    if ins != [] {
      var pre := ins[..|ins| - 1];
      WayAlways(c, ps, k, y, pre);
      if !GoesWrong(c, ps, y, pre) { WayOn(c, ps, k, y, ins); }
    }
  }

  lemma WayOn(c: Setup, ps: seq<Plan>, k: nat, y: Sys, ins: seq<In>)
    requires FirstBad(c, ps, k) && Sized(c, y) && Wired(c, ins) && NeverEarlyAbort(c, ps, y, ins) && ins != []
    requires OnTheWay(c, ps, k, Run(c, y, ins[..|ins| - 1]))
    ensures GoesWrong(c, ps, y, ins) || OnTheWay(c, ps, k, Run(c, y, ins))
  {
    WayStep(c, ps, k, Run(c, y, ins[..|ins| - 1]), ins[|ins| - 1]);
  }

  // ---- when everything works -------------------------------------------------------------------------------------

  ghost predicate AllWork(c: Setup, ps: seq<Plan>) { forall k :: 0 <= k < |ps| ==> Works(c, ps[k]) }

  ghost predicate AllDescend(ps: seq<Plan>) { forall k :: 0 <= k < |ps| ==> Descends(ps[k].idx) }

  lemma WorkingIsInjected(c: Setup, ps: seq<Plan>, y: Sys, ins: seq<In>)
    requires Tabled(c, ps) && AllDescend(ps) && AllWork(c, ps)
    requires Armed(c, ps, y) && Wired(c, ins) && NeverEarlyAbort(c, ps, y, ins)
    ensures Injected(Asked(ps), Run(c, y, ins))
  {
    ReplaysThePlan(c, ps, y, ins);
    ReplayedIsInjected(c, ps, Run(c, y, ins));
  }

  lemma {:induction false} WorkingNeverGoesWrong(c: Setup, ps: seq<Plan>, y: Sys, ins: seq<In>)
    requires Tabled(c, ps) && AllDescend(ps) && AllWork(c, ps)
    requires Armed(c, ps, y) && Wired(c, ins) && NeverEarlyAbort(c, ps, y, ins)
    ensures !GoesWrong(c, ps, y, ins)
  {
    WorkingIsInjected(c, ps, y, ins);
    if ins != [] { WorkingNeverGoesWrong(c, ps, y, ins[..|ins| - 1]); }
  }

  lemma {:induction false} FirstOf(c: Setup, ps: seq<Plan>, n: nat) returns (k: nat)
    requires n <= |ps| && exists j :: 0 <= j < n && !Works(c, ps[j])
    ensures k < n && !Works(c, ps[k]) && forall j :: 0 <= j < k ==> Works(c, ps[j])
  {
    if exists j :: 0 <= j < n - 1 && !Works(c, ps[j]) {
      k := FirstOf(c, ps, n - 1);
    } else {
      k := n - 1;
    }
  }

  /** For every run past the last trial in which no memory ends a trial early: it is as planned at
      every moment if and only if every trial works. */
  lemma {:induction false} CompleteRunIff(c: Setup, ps: seq<Plan>, y: Sys, ins: seq<In>)
    requires Tabled(c, ps) && AllDescend(ps)
    requires Armed(c, ps, y) && Wired(c, ins) && NeverEarlyAbort(c, ps, y, ins) && Run(c, y, ins).trials > |ps|
    ensures !GoesWrong(c, ps, y, ins) <==> AllWork(c, ps)
  {
    if AllWork(c, ps) {
      WorkingNeverGoesWrong(c, ps, y, ins);
    } else {
      var k := FirstOf(c, ps, |ps|);
      WayAlways(c, ps, k, y, ins);
    }
  }

  // ---- complete runs exist ------------------------------------------------------------------------------

  /** The memories are done at once and never abort. */
  function QuietIn(c: Setup): In { In(true, false, false, 0, seq(c.len, _ => false)) }

  function Quiets(c: Setup, n: nat): seq<In> { seq(n, _ => QuietIn(c)) }

  ghost predicate Pays(c: Setup, y: Sys, r: Sys, all: nat, n: nat) {
    var b := Alive.Bound(c, 0);
    && Alive.Lives(c, r.x)
    && (|| r.trials >= all
        || Alive.Owed(r.trials, all, b, Alive.Left(c, r.x, 0, 0)) + n
           <= Alive.Owed(0, all, b, Alive.Left(c, y.x, 0, 0)))
  }

  lemma QuietStep(c: Setup, m: Sys, all: nat)
    requires Legal(c) && c.b.rstCyc < Arith.W32 && Sized(c, m) && Alive.Lives(c, m.x) && m.trials < all
    ensures var r, b := Tick(c, m, QuietIn(c)), Alive.Bound(c, 0);
            && Alive.Lives(c, r.x) && r.trials <= all
            && Alive.Owed(r.trials, all, b, Alive.Left(c, r.x, 0, 0))
               < Alive.Owed(m.trials, all, b, Alive.Left(c, m.x, 0, 0))
  {
    var e := EnvOf(c, m, QuietIn(c));
    TickCore(c, m, QuietIn(c));
    TickTrials(c, m, QuietIn(c));
    Alive.LivesOn(c, m.x, e);
    Alive.LeftBounds(c, m.x, 0, 0);
    Alive.LeftBounds(c, Next(c, m.x, e), 0, 0);
    if Executor.Releases(c.b, m.x, HostIn(c), e) {
      Alive.ReleasePays(m.trials, all, Alive.Bound(c, 0),
                        Alive.Left(c, m.x, 0, 0), Alive.Left(c, Next(c, m.x, e), 0, 0));
    } else {
      Alive.LeftStep(c, m.x, e, 0, 0, 0);
    }
  }

  lemma QuietOn(c: Setup, m: Sys)
    requires Legal(c) && Sized(c, m) && Alive.Lives(c, m.x)
    ensures Alive.Lives(c, Tick(c, m, QuietIn(c)).x) && Tick(c, m, QuietIn(c)).trials >= m.trials
  {
    TickCore(c, m, QuietIn(c));
    Alive.LivesOn(c, m.x, EnvOf(c, m, QuietIn(c)));
  }

  lemma PaysNext(c: Setup, y: Sys, m: Sys, all: nat, n: nat)
    requires Legal(c) && c.b.rstCyc < Arith.W32 && Sized(c, m) && Pays(c, y, m, all, n)
    ensures Pays(c, y, Tick(c, m, QuietIn(c)), all, n + 1)
  {
    if m.trials < all { QuietStep(c, m, all); } else { QuietOn(c, m); }
  }

  lemma {:induction false} QuietRun(c: Setup, y: Sys, all: nat, n: nat)
    requires Legal(c) && c.b.rstCyc < Arith.W32 && Sized(c, y) && Alive.Lives(c, y.x) && y.trials == 0
    ensures Pays(c, y, Run(c, y, Quiets(c, n)), all, n)
  {
    if n > 0 {
      QuietRun(c, y, all, n - 1);
      assert Quiets(c, n)[..n - 1] == Quiets(c, n - 1);
      PaysNext(c, y, Run(c, y, Quiets(c, n - 1)), all, n - 1);
    }
  }

  /** A run past the last trial in which no memory ends a trial early. */
  ghost predicate Complete(c: Setup, ps: seq<Plan>, y: Sys, ins: seq<In>)
    requires Sized(c, y)
  {
    Wired(c, ins) && NeverEarlyAbort(c, ps, y, ins) && Run(c, y, ins).trials > |ps|
  }

  /** From every armed state some run goes past the last trial. */
  lemma {:induction false} CompleteRunExists(c: Setup, ps: seq<Plan>, y: Sys)
    requires Legal(c) && c.b.rstCyc < Arith.W32 && Armed(c, ps, y) && Alive.Lives(c, y.x)
    ensures exists ins :: Complete(c, ps, y, ins)
  {
    var all, b := |ps| + 1, Alive.Bound(c, 0);
    var n := (all + 1) * (b + 1);
    var ins := Quiets(c, n);
    QuietMemories(c, ps, y, ins);
    QuietRun(c, y, all, n);
    var r := Run(c, y, ins);
    Alive.LeftBounds(c, y.x, 0, 0);
    Alive.LeftBounds(c, r.x, 0, 0);
    if r.trials < all { Alive.Paid(r.trials, all, b, Alive.Left(c, r.x, 0, 0), Alive.Left(c, y.x, 0, 0), n); }
    assert Complete(c, ps, y, ins);
  }

  /** Every run in which no memory ends a trial early is as planned. */
  ghost predicate AlwaysAsPlanned(c: Setup, ps: seq<Plan>, y: Sys)
    requires Sized(c, y)
  {
    forall ins :: Wired(c, ins) && NeverEarlyAbort(c, ps, y, ins) ==> Injected(Asked(ps), Run(c, y, ins))
  }

  lemma {:induction false} AlwaysMeansNeverWrong(c: Setup, ps: seq<Plan>, y: Sys, ins: seq<In>)
    requires Sized(c, y) && AlwaysAsPlanned(c, ps, y) && Wired(c, ins) && NeverEarlyAbort(c, ps, y, ins)
    ensures !GoesWrong(c, ps, y, ins)
  {
    if ins != [] { AlwaysMeansNeverWrong(c, ps, y, ins[..|ins| - 1]); }
  }

  /** The armed hardware replays the plan in every run if and only if every trial works. */
  lemma {:induction false} AsPlannedIff(c: Setup, ps: seq<Plan>, y: Sys)
    requires Tabled(c, ps) && AllDescend(ps) && c.b.rstCyc < Arith.W32 && Armed(c, ps, y) && Alive.Lives(c, y.x)
    ensures AlwaysAsPlanned(c, ps, y) <==> AllWork(c, ps)
  {
    if AllWork(c, ps) {
      forall ins | Wired(c, ins) && NeverEarlyAbort(c, ps, y, ins) ensures Injected(Asked(ps), Run(c, y, ins)) {
        WorkingNeverGoesWrong(c, ps, y, ins);
      }
    } else {
      CompleteRunExists(c, ps, y);
      var ins :| Complete(c, ps, y, ins);
      CompleteRunIff(c, ps, y, ins);
      if AlwaysAsPlanned(c, ps, y) { AlwaysMeansNeverWrong(c, ps, y, ins); }
    }
  }
}
