/** A whole campaign: the executor on a scan chain, run for any number of clock cycles, with
    an observer that records every scan pass.

    On a functional edge, and when the reset goes up, the chain takes whatever the design gives
    it (an input here); on a shift edge it takes the scan controller's bit. */
module Campaign {
  import opened Executor
  import opened Trial
  import ScanCtrl
  import TimeCtrl
  import Pass

  /** One clock cycle's inputs; `dut` is the chain after the edge if it is a functional one. */
  datatype In = In(memDone: bool, memAbort: bool, memBad: bool, junk: nat, dut: seq<bool>)

  /** One recorded pass: the trial it belongs to, the cycle counter when it was started, the
      chain before its first shift and after its last. */
  datatype Shot = Shot(trial: nat, cycle: nat, before: seq<bool>, after: seq<bool>, closed: bool)

  /** `trials` counts releases, `since` the clock cycles after the last one. */
  datatype Sys = Sys(x: Core, chain: seq<bool>, trials: nat, since: nat, fire: nat, shots: seq<Shot>)

  predicate Sized(c: Setup, y: Sys) { c.len >= 1 && |y.chain| == c.len }

  function EnvOf(c: Setup, y: Sys, i: In): Env
    requires Sized(c, y)
  {
    Env(i.memDone, i.memAbort, i.memBad, i.junk, y.chain[c.len - 1])
  }

  /** This edge raises the design's asynchronous reset. */
  predicate ResetRises(c: Setup, x: Core, e: Env) {
    TimeCtrl.Resets(x.time, TimeParams(c.b), TimeInput(x, HostIn(c), e))
  }

  function Shifted(c: Setup, y: Sys): seq<bool>
    requires Sized(c, y)
  {
    [ScanCtrl.ScanBit(y.x.scan, y.chain[c.len - 1])] + y.chain[..c.len - 1]
  }

  /** A shift edge moves the chain, outside the reset; otherwise the design decides. */
  function NextChain(c: Setup, y: Sys, i: In): seq<bool>
    requires Sized(c, y)
  {
    if y.x.scan.scanEn && !y.x.time.resolverRst && !ResetRises(c, y.x, EnvOf(c, y, i)) then Shifted(c, y) else i.dut
  }

  function NextShots(c: Setup, y: Sys, i: In): seq<Shot>
    requires Sized(c, y)
  {
    if OpensPass(y.x)
    then y.shots + [Shot(y.trials, y.fire, NextChain(c, y, i), [], false)]
    else if ScanCtrl.Ends(y.x.scan) && !y.x.scan.scrub && y.shots != [] && !y.shots[|y.shots| - 1].closed
    then y.shots[|y.shots| - 1 := y.shots[|y.shots| - 1].(after := NextChain(c, y, i), closed := true)]
    else y.shots
  }

  function Tick(c: Setup, y: Sys, i: In): (r: Sys)
    requires Sized(c, y) && |i.dut| == c.len
    ensures Sized(c, r)
  {
    var e := EnvOf(c, y, i);
    var rel := Releases(c.b, y.x, HostIn(c), e);
    Sys(x := Next(c, y.x, e),
        chain := NextChain(c, y, i),
        trials := if rel then y.trials + 1 else y.trials,
        since := if rel then 0 else y.since + 1,
        fire := if TimeCtrl.Fires(y.x.time) then y.x.time.cc else y.fire,
        shots := NextShots(c, y, i))
  }

  ghost predicate Wired(c: Setup, ins: seq<In>) { forall k :: 0 <= k < |ins| ==> |ins[k].dut| == c.len }

  function Run(c: Setup, y: Sys, ins: seq<In>): (r: Sys)
    requires Sized(c, y) && Wired(c, ins)
    ensures Sized(c, r)
  {
    if ins == [] then y else Tick(c, Run(c, y, ins[..|ins| - 1]), ins[|ins| - 1])
  }

  // ---- the plan ---------------------------------------------------------------------

  /** The table holds these trials one behind the other, at cycles within the timeout. */
  ghost predicate InRows(c: Setup, ps: seq<Plan>) {
    && Legal(c) && ps != []
    && (forall k :: 0 <= k < |ps| ==> Loaded(c, ps[k]) && 1 <= ps[k].cycle < c.toThr)
    && (forall k :: 0 <= k < |ps| - 1 ==> Follows(ps[k], ps[k + 1]))
    && Last(c, ps[|ps| - 1])
  }

  /** From its first word on. */
  ghost predicate Tabled(c: Setup, ps: seq<Plan>) { InRows(c, ps) && ps[0].base == 0 }

  /** And each meets the conditions under which it is replayed. */
  ghost predicate Planned(c: Setup, ps: seq<Plan>) {
    Tabled(c, ps) && forall k :: 0 <= k < |ps| ==> Replayable(c, ps[k])
  }

  predicate Replayable(c: Setup, p: Plan) {
    Prefetches(c, p) && BeatsTimeout(c, p) && Fits(c, p)
  }

  predicate Follows(p: Plan, q: Plan) { q.base == p.base + |p.idx| && q.cycle == p.cycle + p.off }

  predicate Last(c: Setup, p: Plan) { p.base + |p.idx| == c.tblLen && p.off == 0 }

  /** The steps at which the trial's pass inverts a bit. */
  function Targets(c: Setup, p: Plan): set<nat> { Pass.Flips(Steps(p, c.len), 0, c.len) }

  /** A chain with the cells of these steps inverted: step t is cell L-1-t. */
  function Inverted(v: seq<bool>, steps: set<nat>): seq<bool> {
    seq(|v|, i requires 0 <= i < |v| => v[i] != (|v| - 1 - i in steps))
  }

  // ---- the invariant ----------------------------------------------------------------

  /** The chain in the middle of a pass: t cells came round, the others moved up. */
  ghost predicate Rotated(v: seq<bool>, before: seq<bool>, t: nat, steps: set<nat>) {
    && |v| == |before| && t <= |v|
    && (forall i :: 0 <= i < t ==> v[i] == (before[|v| - t + i] != (t - 1 - i in steps)))
    && (forall i :: t <= i < |v| ==> v[i] == before[i - t])
  }

  ghost predicate Recorded(c: Setup, p: Plan, k: nat, s: Shot) {
    && s.trial == k + 1 && s.cycle == p.cycle && |s.before| == c.len
    && (s.closed ==> s.after == Inverted(s.before, Targets(c, p)))
  }

  ghost predicate Log(c: Setup, ps: seq<Plan>, shots: seq<Shot>, closed: nat) {
    && closed <= |shots| <= |ps|
    && (forall k :: 0 <= k < |shots| ==> Recorded(c, ps[k], k, shots[k]))
    && (forall k :: 0 <= k < |shots| ==> (shots[k].closed <==> k < closed))
  }

  ghost predicate Waiting(c: Setup, p: Plan, y: Sys) {
    Wait(c, p, y.x, y.since) && (y.since > p.cycle ==> y.fire == p.cycle)
  }

  ghost predicate Leading(c: Setup, p: Plan, y: Sys) {
    Lead(c, p, y.x) && y.since == p.cycle + 4 && y.fire == p.cycle
  }

  ghost predicate Shifting(c: Setup, p: Plan, y: Sys) {
    var t := y.x.scan.cnt;
    && Shift(c, p, y.x, t, Pass.Head(Steps(p, c.len), t, c.len))
    && y.since == p.cycle + 5 + t
    && y.shots != [] && Rotated(y.chain, y.shots[|y.shots| - 1].before, t, Targets(c, p))
  }

  ghost predicate Resting(c: Setup, p: Plan, y: Sys) {
    Rest(c, y.x, p.base + |p.idx|, p.off, p.cycle) && y.since >= p.cycle + 5 + c.len
  }

  /** Where the run stands, by the number of releases so far. */
  ghost predicate Inv(c: Setup, ps: seq<Plan>, y: Sys) {
    && Sized(c, y) && ps != []
    && if y.trials == 0 then
         Rest(c, y.x, ps[0].base, 0, ps[0].cycle) && y.shots == []
       else if y.trials <= |ps| then
         var p := ps[y.trials - 1];
         || (Log(c, ps, y.shots, y.trials - 1) && |y.shots| == y.trials - 1 && (Waiting(c, p, y) || Leading(c, p, y)))
         || (Log(c, ps, y.shots, y.trials - 1) && |y.shots| == y.trials && Shifting(c, p, y))
         || (Log(c, ps, y.shots, y.trials) && |y.shots| == y.trials && Resting(c, p, y))
       else
         && Log(c, ps, y.shots, |ps|) && |y.shots| == |ps|
         && Rest(c, y.x, c.tblLen, 0, ps[|ps| - 1].cycle) && y.x.tbl.exhausted
  }

  /** No memory ends a trial before its start pulse has gone by. */
  predicate NoEarlyAbort(ps: seq<Plan>, y: Sys, i: In) {
    i.memAbort ==> y.trials == 0 || y.trials > |ps| || y.since >= ps[y.trials - 1].cycle + 3
  }

  lemma RotateStep(v: seq<bool>, before: seq<bool>, t: nat, steps: set<nat>, w: seq<bool>)
    requires Rotated(v, before, t, steps) && t < |v|
    requires w == [v[|v| - 1] != (t in steps)] + v[..|v| - 1]
    ensures Rotated(w, before, t + 1, steps)
  {
  }

  lemma NotReleasing(c: Setup, p: Plan, x: Core, e: Env)
    requires Active(c, x.time, p)
    ensures !Releases(c.b, x, HostIn(c), e)
  {
  }

  lemma TickCore(c: Setup, y: Sys, i: In)
    requires Sized(c, y) && |i.dut| == c.len
    ensures Tick(c, y, i).x == Next(c, y.x, EnvOf(c, y, i))
  {
  }

  lemma WaitsOn(c: Setup, ps: seq<Plan>, y: Sys, r: Sys, n: Core)
    requires Sized(c, r) && 1 <= y.trials <= |ps| && |y.shots| == y.trials - 1
    requires Log(c, ps, y.shots, y.trials - 1)
    requires r.trials == y.trials && r.shots == y.shots && r.since == y.since + 1 && r.x == n
    requires var p := ps[y.trials - 1];
             && (r.since > p.cycle ==> r.fire == p.cycle)
             && (Wait(c, p, n, r.since) || (Lead(c, p, n) && r.since == p.cycle + 4))
    ensures Inv(c, ps, r)
  {
  }

  /** What an edge of stage 1 does to the observer. */
  lemma WaitingBooks(c: Setup, p: Plan, y: Sys, i: In)
    requires Sized(c, y) && |i.dut| == c.len && Waiting(c, p, y) && p.cycle >= 1
    ensures var r := Tick(c, y, i);
            && r.trials == y.trials && r.since == y.since + 1 && r.shots == y.shots
            && (r.since > p.cycle ==> r.fire == p.cycle)
  {
  }

  lemma WaitingStep(c: Setup, ps: seq<Plan>, y: Sys, i: In)
    requires Sized(c, y) && |i.dut| == c.len && 1 <= y.trials <= |ps|
    requires Legal(c) && Loaded(c, ps[y.trials - 1]) && ps[y.trials - 1].cycle >= 1 && y.since <= c.toThr
    requires |y.shots| == y.trials - 1 && NoEarlyAbort(ps, y, i)
    requires Log(c, ps, y.shots, y.trials - 1) && Waiting(c, ps[y.trials - 1], y)
    requires y.since < ps[y.trials - 1].cycle + 3
    ensures Inv(c, ps, Tick(c, y, i))
  {
    WaitingBooks(c, ps[y.trials - 1], y, i);
    WaitStep(c, ps[y.trials - 1], y.x, EnvOf(c, y, i), y.since);
    TickCore(c, y, i);
    WaitsOn(c, ps, y, Tick(c, y, i), Next(c, y.x, EnvOf(c, y, i)));
  }

  lemma ArmingStep(c: Setup, ps: seq<Plan>, y: Sys, i: In)
    requires Sized(c, y) && |i.dut| == c.len && 1 <= y.trials <= |ps|
    requires Legal(c) && Loaded(c, ps[y.trials - 1]) && ps[y.trials - 1].cycle >= 1
    requires Prefetches(c, ps[y.trials - 1]) && BeatsTimeout(c, ps[y.trials - 1])
    requires |y.shots| == y.trials - 1
    requires Log(c, ps, y.shots, y.trials - 1) && Waiting(c, ps[y.trials - 1], y)
    requires y.since == ps[y.trials - 1].cycle + 3
    ensures Inv(c, ps, Tick(c, y, i))
  {
    WaitingBooks(c, ps[y.trials - 1], y, i);
    ArmStep(c, ps[y.trials - 1], y.x, EnvOf(c, y, i));
    TickCore(c, y, i);
    WaitsOn(c, ps, y, Tick(c, y, i), Next(c, y.x, EnvOf(c, y, i)));
  }

  lemma LogOpens(c: Setup, ps: seq<Plan>, shots: seq<Shot>, s: Shot)
    requires Log(c, ps, shots, |shots|) && |shots| < |ps|
    requires Recorded(c, ps[|shots|], |shots|, s) && !s.closed
    ensures Log(c, ps, shots + [s], |shots|)
  {
  }

  lemma LeadingStep(c: Setup, ps: seq<Plan>, y: Sys, i: In)
    requires Sized(c, y) && |i.dut| == c.len && 1 <= y.trials <= |ps|
    requires Legal(c) && Loaded(c, ps[y.trials - 1])
    requires |y.shots| == y.trials - 1
    requires Log(c, ps, y.shots, y.trials - 1) && Leading(c, ps[y.trials - 1], y)
    ensures Inv(c, ps, Tick(c, y, i))
  {
    var p, e, r := ps[y.trials - 1], EnvOf(c, y, i), Tick(c, y, i);
    NotReleasing(c, p, y.x, e);
    var s := Shot(y.trials, y.fire, r.chain, [], false);
    assert r.shots == y.shots + [s];
    LogOpens(c, ps, y.shots, s);
    LeadStep(c, p, y.x, e);
    EntersShift(c, ps, r);
  }

  lemma EntersShift(c: Setup, ps: seq<Plan>, r: Sys)
    requires Sized(c, r) && 1 <= r.trials <= |ps| && |r.shots| == r.trials
    requires Log(c, ps, r.shots, r.trials - 1) && r.since == ps[r.trials - 1].cycle + 5
    requires Shift(c, ps[r.trials - 1], r.x, 0, 0) && r.shots[|r.shots| - 1].before == r.chain
    ensures Inv(c, ps, r)
  {
  }

  /** The bit is inverted exactly on the targets' steps. */
  lemma ShiftingBit(c: Setup, p: Plan, y: Sys, e: Env)
    requires Legal(c) && Loaded(c, p) && Shifting(c, p, y)
    ensures ScanCtrl.Hit(y.x.scan) <==> y.x.scan.cnt in Targets(c, p)
    ensures y.x.scan.scanEn && !y.x.scan.scrub && !y.x.time.resolverRst && !ResetRises(c, y.x, e)
  {
    var t := y.x.scan.cnt;
    ShiftScan(c, p, y.x, e, t, Pass.Head(Steps(p, c.len), t, c.len));
    Pass.FlipsAtHead(Steps(p, c.len), t, c.len);
  }

  lemma ShiftEdge(c: Setup, y: Sys, i: In, steps: set<nat>)
    requires Sized(c, y) && |i.dut| == c.len && y.x.scan.scanEn && !y.x.scan.scrub
    requires !y.x.time.resolverRst && !ResetRises(c, y.x, EnvOf(c, y, i))
    requires ScanCtrl.Hit(y.x.scan) <==> y.x.scan.cnt in steps
    ensures NextChain(c, y, i) == [y.chain[c.len - 1] != (y.x.scan.cnt in steps)] + y.chain[..c.len - 1]
  {
  }

  lemma Rotates(c: Setup, p: Plan, y: Sys, v: seq<bool>)
    requires Sized(c, y) && y.shots != [] && y.x.scan.cnt < c.len
    requires Rotated(y.chain, y.shots[|y.shots| - 1].before, y.x.scan.cnt, Targets(c, p))
    requires v == [y.chain[c.len - 1] != (y.x.scan.cnt in Targets(c, p))] + y.chain[..c.len - 1]
    ensures Rotated(v, y.shots[|y.shots| - 1].before, y.x.scan.cnt + 1, Targets(c, p))
  {
    RotateStep(y.chain, y.shots[|y.shots| - 1].before, y.x.scan.cnt, Targets(c, p), v);
  }

  lemma ShiftingChain(c: Setup, p: Plan, y: Sys, i: In)
    requires Legal(c) && Loaded(c, p) && Sized(c, y) && |i.dut| == c.len && Shifting(c, p, y)
    ensures Rotated(NextChain(c, y, i), y.shots[|y.shots| - 1].before, y.x.scan.cnt + 1, Targets(c, p))
  {
    ShiftingBit(c, p, y, EnvOf(c, y, i));
    ShiftEdge(c, y, i, Targets(c, p));
    Rotates(c, p, y, NextChain(c, y, i));
  }

  lemma KeepsShifting(c: Setup, ps: seq<Plan>, y: Sys, r: Sys)
    requires Sized(c, r) && 1 <= y.trials <= |ps| && |y.shots| == y.trials && Log(c, ps, y.shots, y.trials - 1)
    requires r.trials == y.trials && r.shots == y.shots && Shifting(c, ps[y.trials - 1], r)
    ensures Inv(c, ps, r)
  {
  }

  /** What a shift edge before the last does to the observer and to the controllers. */
  lemma ShiftingBooks(c: Setup, p: Plan, y: Sys, i: In)
    requires Sized(c, y) && |i.dut| == c.len && Shifting(c, p, y) && y.x.scan.cnt < c.len - 1
    ensures var r := Tick(c, y, i);
            r.trials == y.trials && r.since == y.since + 1 && r.shots == y.shots
  {
  }

  lemma ShiftingCore(c: Setup, p: Plan, y: Sys, e: Env)
    requires Legal(c) && Loaded(c, p) && Shifting(c, p, y) && y.x.scan.cnt < c.len - 1
    ensures var t := y.x.scan.cnt + 1;
            Shift(c, p, Next(c, y.x, e), t, Pass.Head(Steps(p, c.len), t, c.len))
  {
    HeadShifts(c, p, y.x, e, y.x.scan.cnt, Pass.Head(Steps(p, c.len), y.x.scan.cnt, c.len));
  }

  lemma StillShifting(c: Setup, p: Plan, y: Sys, r: Sys, n: Core)
    requires Sized(c, y) && Shifting(c, p, y) && r.since == y.since + 1 && r.shots == y.shots && r.x == n
    requires Shift(c, p, n, y.x.scan.cnt + 1, Pass.Head(Steps(p, c.len), y.x.scan.cnt + 1, c.len))
    requires Rotated(r.chain, y.shots[|y.shots| - 1].before, y.x.scan.cnt + 1, Targets(c, p))
    ensures Shifting(c, p, r)
  {
  }

  lemma ShiftsOn(c: Setup, p: Plan, y: Sys, i: In)
    requires Legal(c) && Loaded(c, p) && Sized(c, y) && |i.dut| == c.len && Shifting(c, p, y)
    requires y.x.scan.cnt < c.len - 1
    ensures Shifting(c, p, Tick(c, y, i))
  {
    ShiftingBooks(c, p, y, i);
    ShiftingChain(c, p, y, i);
    ShiftingCore(c, p, y, EnvOf(c, y, i));
    TickCore(c, y, i);
    StillShifting(c, p, y, Tick(c, y, i), Next(c, y.x, EnvOf(c, y, i)));
  }

  lemma ShiftingStep(c: Setup, ps: seq<Plan>, y: Sys, i: In)
    requires Sized(c, y) && |i.dut| == c.len && 1 <= y.trials <= |ps|
    requires Legal(c) && Loaded(c, ps[y.trials - 1])
    requires |y.shots| == y.trials
    requires Log(c, ps, y.shots, y.trials - 1) && Shifting(c, ps[y.trials - 1], y)
    requires y.x.scan.cnt < c.len - 1
    ensures Inv(c, ps, Tick(c, y, i))
  {
    ShiftingBooks(c, ps[y.trials - 1], y, i);
    ShiftsOn(c, ps[y.trials - 1], y, i);
    KeepsShifting(c, ps, y, Tick(c, y, i));
  }

  lemma EntersRest(c: Setup, ps: seq<Plan>, r: Sys)
    requires Sized(c, r) && 1 <= r.trials <= |ps| && |r.shots| == r.trials
    requires Log(c, ps, r.shots, r.trials) && Resting(c, ps[r.trials - 1], r)
    ensures Inv(c, ps, r)
  {
  }

  lemma ComesRound(v: seq<bool>, before: seq<bool>, steps: set<nat>)
    requires Rotated(v, before, |v|, steps)
    ensures v == Inverted(before, steps)
  {
  }

  /** What the last shift edge does to the observer. */
  lemma EndBooks(c: Setup, p: Plan, y: Sys, i: In)
    requires Sized(c, y) && |i.dut| == c.len && Shifting(c, p, y) && y.x.scan.cnt == c.len - 1
    requires !y.shots[|y.shots| - 1].closed
    ensures var r, k := Tick(c, y, i), |y.shots| - 1;
            && r.trials == y.trials && r.since == y.since + 1
            && r.shots == y.shots[k := y.shots[k].(after := NextChain(c, y, i), closed := true)]
  {
  }

  lemma TailFits(c: Setup, p: Plan)
    requires Fits(c, p)
    ensures |p.idx| <= Pass.Head(Steps(p, c.len), c.len, c.len) + 2 + c.b.lookahead
  {
    Pass.LeftIsTail(Steps(p, c.len), c.len);
  }

  lemma EndFits(c: Setup, p: Plan, t: nat, h: nat)
    requires Fits(c, p) && t + 1 == c.len && h == Pass.Head(Steps(p, c.len), t, c.len)
    ensures |p.idx| <= (if Consumes(c, p, t, h) then h + 1 else h) + 2 + c.b.lookahead
  {
    TailFits(c, p);
    HeadMoves(c, p, t);
  }

  lemma EndRests(c: Setup, p: Plan, x: Core, e: Env, t: nat, h: nat)
    requires Legal(c) && Loaded(c, p) && Fits(c, p) && t == c.len - 1
    requires h == Pass.Head(Steps(p, c.len), t, c.len) && Shift(c, p, x, t, h)
    ensures Rest(c, Next(c, x, e), p.base + |p.idx|, p.off, p.cycle)
  {
    EndFits(c, p, t, h);
    ShiftEnds(c, p, x, e, h);
  }

  lemma EndResting(c: Setup, p: Plan, r: Sys, n: Core)
    requires Rest(c, n, p.base + |p.idx|, p.off, p.cycle) && r.x == n && r.since >= p.cycle + 5 + c.len
    ensures Resting(c, p, r)
  {
  }

  lemma EndChain(c: Setup, p: Plan, y: Sys, i: In)
    requires Legal(c) && Loaded(c, p) && Sized(c, y) && |i.dut| == c.len
    requires Shifting(c, p, y) && y.x.scan.cnt == c.len - 1
    ensures NextChain(c, y, i) == Inverted(y.shots[|y.shots| - 1].before, Targets(c, p))
  {
    ShiftingChain(c, p, y, i);
    ComesRound(NextChain(c, y, i), y.shots[|y.shots| - 1].before, Targets(c, p));
  }

  lemma EndSince(c: Setup, p: Plan, y: Sys, i: In)
    requires Sized(c, y) && |i.dut| == c.len && Shifting(c, p, y) && y.x.scan.cnt == c.len - 1
    ensures Tick(c, y, i).since == p.cycle + 5 + c.len
  {
  }

  lemma EndCore(c: Setup, p: Plan, y: Sys, e: Env)
    requires Legal(c) && Loaded(c, p) && Fits(c, p) && Shifting(c, p, y) && y.x.scan.cnt == c.len - 1
    ensures Rest(c, Next(c, y.x, e), p.base + |p.idx|, p.off, p.cycle)
  {
    EndRests(c, p, y.x, e, y.x.scan.cnt, Pass.Head(Steps(p, c.len), y.x.scan.cnt, c.len));
  }

  lemma EndRested(c: Setup, p: Plan, y: Sys, i: In)
    requires Legal(c) && Loaded(c, p) && Fits(c, p) && Sized(c, y) && |i.dut| == c.len
    requires Shifting(c, p, y) && y.x.scan.cnt == c.len - 1
    ensures Resting(c, p, Tick(c, y, i))
  {
    EndSince(c, p, y, i);
    EndCore(c, p, y, EnvOf(c, y, i));
    TickCore(c, y, i);
    EndResting(c, p, Tick(c, y, i), Next(c, y.x, EnvOf(c, y, i)));
  }

  lemma ShiftingEnds(c: Setup, ps: seq<Plan>, y: Sys, i: In)
    requires Sized(c, y) && |i.dut| == c.len && 1 <= y.trials <= |ps|
    requires Legal(c) && Loaded(c, ps[y.trials - 1]) && Fits(c, ps[y.trials - 1])
    requires |y.shots| == y.trials
    requires Log(c, ps, y.shots, y.trials - 1) && Shifting(c, ps[y.trials - 1], y)
    requires y.x.scan.cnt == c.len - 1
    ensures Inv(c, ps, Tick(c, y, i))
  {
    EndChain(c, ps[y.trials - 1], y, i);
    EndBooks(c, ps[y.trials - 1], y, i);
    EndRested(c, ps[y.trials - 1], y, i);
    CloseShot(c, ps, y, NextChain(c, y, i), Tick(c, y, i));
  }

  lemma CloseShot(c: Setup, ps: seq<Plan>, y: Sys, v: seq<bool>, r: Sys)
    requires 1 <= y.trials <= |ps| && |y.shots| == y.trials && Log(c, ps, y.shots, y.trials - 1)
    requires v == Inverted(y.shots[|y.shots| - 1].before, Targets(c, ps[y.trials - 1]))
    requires Sized(c, r) && r.trials == y.trials && Resting(c, ps[y.trials - 1], r)
    requires r.shots == y.shots[|y.shots| - 1 := y.shots[|y.shots| - 1].(after := v, closed := true)]
    ensures Inv(c, ps, r)
  {
  }

  lemma RestingStep(c: Setup, ps: seq<Plan>, y: Sys, i: In)
    requires InRows(c, ps) && Sized(c, y) && |i.dut| == c.len
    requires 1 <= y.trials <= |ps| && |y.shots| == y.trials
    requires Log(c, ps, y.shots, y.trials) && Resting(c, ps[y.trials - 1], y)
    requires !Releases(c.b, y.x, HostIn(c), EnvOf(c, y, i))
    ensures Inv(c, ps, Tick(c, y, i))
  {
    var p, r := ps[y.trials - 1], Tick(c, y, i);
    RestingIsQuiet(c, p, y, i);
    RestingBooks(c, ps, y, i);
    RestGoesOn(c, p, y, i, r);
    RestsOn(c, ps, y, r);
  }

  lemma RestingIsQuiet(c: Setup, p: Plan, y: Sys, i: In)
    requires Legal(c) && Sized(c, y) && Resting(c, p, y)
    ensures !(y.x.scan.run && !y.x.scan.scrub) && !ScanCtrl.Arm1(y.x.scan)
  {
    RestIsQuiet(c, y.x, EnvOf(c, y, i), p.base + |p.idx|, p.off, p.cycle);
  }

  lemma RestsOn(c: Setup, ps: seq<Plan>, y: Sys, r: Sys)
    requires Sized(c, r) && 1 <= y.trials <= |ps| && |y.shots| == y.trials && Log(c, ps, y.shots, y.trials)
    requires r.trials == y.trials && r.shots == y.shots && Resting(c, ps[y.trials - 1], r)
    ensures Inv(c, ps, r)
  {
    EntersRest(c, ps, r);
  }

  lemma RestGoesOn(c: Setup, p: Plan, y: Sys, i: In, r: Sys)
    requires Legal(c) && Sized(c, y) && |i.dut| == c.len && Resting(c, p, y)
    requires !Releases(c.b, y.x, HostIn(c), EnvOf(c, y, i)) && r == Tick(c, y, i) && r.since == y.since + 1
    ensures Resting(c, p, r)
  {
    RestStep(c, y.x, EnvOf(c, y, i), p.base + |p.idx|, p.off, p.cycle);
    TickCore(c, y, i);
    EndResting(c, p, r, Next(c, y.x, EnvOf(c, y, i)));
  }

  lemma RestingBooks(c: Setup, ps: seq<Plan>, y: Sys, i: In)
    requires Sized(c, y) && |i.dut| == c.len && !Releases(c.b, y.x, HostIn(c), EnvOf(c, y, i))
    requires 1 <= y.trials <= |ps| && |y.shots| == y.trials && Log(c, ps, y.shots, y.trials)
    requires !(y.x.scan.run && !y.x.scan.scrub) && !ScanCtrl.Arm1(y.x.scan)
    ensures var r := Tick(c, y, i); r.trials == y.trials && r.since == y.since + 1 && r.shots == y.shots
  {
  }

  lemma EntersWait(c: Setup, ps: seq<Plan>, r: Sys)
    requires Sized(c, r) && 1 <= r.trials <= |ps| && |r.shots| == r.trials - 1
    requires Log(c, ps, r.shots, r.trials - 1) && r.since == 0 && Wait(c, ps[r.trials - 1], r.x, 0)
    ensures Inv(c, ps, r)
  {
  }

  lemma EntersSpent(c: Setup, ps: seq<Plan>, r: Sys)
    requires Sized(c, r) && ps != [] && r.trials > |ps| && Log(c, ps, r.shots, |ps|)
    requires Rest(c, r.x, c.tblLen, 0, ps[|ps| - 1].cycle) && r.x.tbl.exhausted
    ensures Inv(c, ps, r)
  {
  }

  lemma RestingReleases(c: Setup, ps: seq<Plan>, y: Sys, i: In)
    requires InRows(c, ps) && Sized(c, y) && |i.dut| == c.len
    requires 1 <= y.trials <= |ps| && |y.shots| == y.trials
    requires Log(c, ps, y.shots, y.trials) && Resting(c, ps[y.trials - 1], y)
    requires Releases(c.b, y.x, HostIn(c), EnvOf(c, y, i))
    ensures Inv(c, ps, Tick(c, y, i))
  {
    var p, e, r := ps[y.trials - 1], EnvOf(c, y, i), Tick(c, y, i);
    RestIsQuiet(c, y.x, e, p.base + |p.idx|, p.off, p.cycle);
    ReleasingBooks(c, ps, y, i);
    TickCore(c, y, i);
    if y.trials < |ps| {
      assert Follows(p, ps[y.trials]);
      NextWaits(c, p, ps[y.trials], y.x, e);
      NextEnters(c, ps, y, r, ps[y.trials]);
    } else {
      LastIsSpent(c, p, y.x, e);
      EntersSpent(c, ps, r);
    }
  }

  lemma NextEnters(c: Setup, ps: seq<Plan>, y: Sys, r: Sys, q: Plan)
    requires Sized(c, r) && y.trials < |ps| && r.trials == y.trials + 1 && r.since == 0 && r.shots == y.shots
    requires |y.shots| == y.trials && Log(c, ps, y.shots, y.trials) && q == ps[y.trials] && Wait(c, q, r.x, 0)
    ensures Inv(c, ps, r)
  {
    EntersWait(c, ps, r);
  }

  lemma NextWaits(c: Setup, p: Plan, q: Plan, x: Core, e: Env)
    requires Legal(c) && Loaded(c, q) && Follows(p, q) && q.cycle < c.toThr
    requires Rest(c, x, p.base + |p.idx|, p.off, p.cycle) && Releases(c.b, x, HostIn(c), e)
    ensures Wait(c, q, Next(c, x, e), 0)
  {
    ReleaseStarts(c, q, x, e, p.off, p.cycle);
  }

  lemma LastIsSpent(c: Setup, p: Plan, x: Core, e: Env)
    requires Legal(c) && Last(c, p) && Rest(c, x, p.base + |p.idx|, p.off, p.cycle)
    requires Releases(c.b, x, HostIn(c), e)
    ensures Rest(c, Next(c, x, e), c.tblLen, 0, p.cycle) && Next(c, x, e).tbl.exhausted
  {
    ReleaseSpent(c, x, e, c.tblLen, p.cycle);
  }

  lemma ReleasingBooks(c: Setup, ps: seq<Plan>, y: Sys, i: In)
    requires Sized(c, y) && |i.dut| == c.len && Releases(c.b, y.x, HostIn(c), EnvOf(c, y, i))
    requires 1 <= y.trials <= |ps| && |y.shots| == y.trials && Log(c, ps, y.shots, y.trials)
    requires !(y.x.scan.run && !y.x.scan.scrub) && !ScanCtrl.Arm1(y.x.scan)
    ensures var r := Tick(c, y, i); r.trials == y.trials + 1 && r.since == 0 && r.shots == y.shots
  {
  }

  lemma OutsideStep(c: Setup, ps: seq<Plan>, y: Sys, i: In)
    requires InRows(c, ps) && Inv(c, ps, y) && |i.dut| == c.len
    requires y.trials == 0 || y.trials > |ps|
    ensures Inv(c, ps, Tick(c, y, i))
  {
    var e := EnvOf(c, y, i);
    var ptr, cyc := if y.trials == 0 then ps[0].base else c.tblLen, ps[if y.trials == 0 then 0 else |ps| - 1].cycle;
    RestIsQuiet(c, y.x, e, ptr, 0, cyc);
    if !Releases(c.b, y.x, HostIn(c), e) {
      RestStep(c, y.x, e, ptr, 0, cyc);
      RestTable(c, y.x, e, ptr, 0, cyc);
    } else if y.trials == 0 {
      ReleaseStarts(c, ps[0], y.x, e, 0, cyc);
      EntersWait(c, ps, Tick(c, y, i));
    } else {
      ReleaseSpent(c, y.x, e, ptr, cyc);
      RestTable(c, y.x, e, ptr, 0, cyc);
    }
  }

  lemma {:induction false} InvStep(c: Setup, ps: seq<Plan>, y: Sys, i: In)
    requires InRows(c, ps) && Inv(c, ps, y) && |i.dut| == c.len && NoEarlyAbort(ps, y, i)
    requires 1 <= y.trials <= |ps| ==> Replayable(c, ps[y.trials - 1])
    ensures Inv(c, ps, Tick(c, y, i))
  {
    if y.trials == 0 || y.trials > |ps| {
      OutsideStep(c, ps, y, i);
    } else if |y.shots| < y.trials {
      if !Waiting(c, ps[y.trials - 1], y) {
        LeadingStep(c, ps, y, i);
      } else if y.since < ps[y.trials - 1].cycle + 3 {
        WaitingStep(c, ps, y, i);
      } else {
        ArmingStep(c, ps, y, i);
      }
    } else if Log(c, ps, y.shots, y.trials) && Resting(c, ps[y.trials - 1], y) {
      if Releases(c.b, y.x, HostIn(c), EnvOf(c, y, i)) {
        RestingReleases(c, ps, y, i);
      } else {
        RestingStep(c, ps, y, i);
      }
    } else if y.x.scan.cnt < c.len - 1 {
      ShiftingStep(c, ps, y, i);
    } else {
      ShiftingEnds(c, ps, y, i);
    }
  }

  // ---- every run --------------------------------------------------------------------

  ghost predicate NeverEarlyAbort(c: Setup, ps: seq<Plan>, y: Sys, ins: seq<In>)
    requires Sized(c, y) && Wired(c, ins)
  {
    ins == [] || (&& NeverEarlyAbort(c, ps, y, ins[..|ins| - 1])
                  && NoEarlyAbort(ps, Run(c, y, ins[..|ins| - 1]), ins[|ins| - 1]))
  }

  /** Memories that never abort meet the condition. */
  lemma {:induction false} QuietMemories(c: Setup, ps: seq<Plan>, y: Sys, ins: seq<In>)
    requires Sized(c, y) && Wired(c, ins) && forall k :: 0 <= k < |ins| ==> !ins[k].memAbort
    ensures NeverEarlyAbort(c, ps, y, ins)
  {
    if ins != [] { QuietMemories(c, ps, y, ins[..|ins| - 1]); }
  }

  /** The campaign has been armed: no trial counted, no pass recorded, the table at word 0. */
  ghost predicate Armed(c: Setup, ps: seq<Plan>, y: Sys) {
    Sized(c, y) && ps != [] && y.trials == 0 && y.shots == [] && Rest(c, y.x, 0, 0, ps[0].cycle)
  }

  /** From any stage of the plan on. */
  lemma {:induction false} InvRuns(c: Setup, ps: seq<Plan>, y: Sys, ins: seq<In>)
    requires InRows(c, ps) && (forall k :: 0 <= k < |ps| ==> Replayable(c, ps[k]))
    requires Inv(c, ps, y) && Wired(c, ins) && NeverEarlyAbort(c, ps, y, ins)
    ensures Inv(c, ps, Run(c, y, ins))
  {
    if ins != [] {
      InvRuns(c, ps, y, ins[..|ins| - 1]);
      InvStep(c, ps, Run(c, y, ins[..|ins| - 1]), ins[|ins| - 1]);
    }
  }

  lemma InvAlways(c: Setup, ps: seq<Plan>, y: Sys, ins: seq<In>)
    requires Planned(c, ps) && Armed(c, ps, y) && Wired(c, ins) && NeverEarlyAbort(c, ps, y, ins)
    ensures Inv(c, ps, Run(c, y, ins))
  {
    InvRuns(c, ps, y, ins);
  }

  /** What a campaign replays, in every run of any length: at most one pass per trial, in order,
      started when the counter reaches the trial's cycle, and a finished pass has inverted
      exactly the trial's targets. A trial whose successor has been released has its pass
      behind it. After the last one the table is exhausted and no pass is ever recorded again. */
  lemma {:induction false} ReplaysThePlan(c: Setup, ps: seq<Plan>, y: Sys, ins: seq<In>)
    requires Planned(c, ps) && Armed(c, ps, y) && Wired(c, ins) && NeverEarlyAbort(c, ps, y, ins)
    ensures Replayed(c, ps, Run(c, y, ins))
  {
    InvAlways(c, ps, y, ins);
    InvMeansReplayed(c, ps, Run(c, y, ins));
  }

  lemma InvMeansReplayed(c: Setup, ps: seq<Plan>, r: Sys)
    requires Inv(c, ps, r)
    ensures Replayed(c, ps, r)
  {
  }

  /** Pass number k has been made. */
  predicate Made(r: Sys, k: nat) { k < |r.shots| && r.shots[k].closed }

  ghost predicate Replayed(c: Setup, ps: seq<Plan>, r: Sys) {
    && |r.shots| <= |ps| && |r.shots| <= r.trials
    && (forall k :: 0 <= k < |r.shots| ==> Recorded(c, ps[k], k, r.shots[k]))
    && (forall k :: 0 <= k < |ps| && k + 1 < r.trials ==> Made(r, k))
    && (r.trials > |ps| ==> r.x.tbl.exhausted && |r.shots| == |ps|)
  }
}
