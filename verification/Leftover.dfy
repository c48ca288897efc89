/** What a trial leaves in the table when its pattern has not been fetched to the end: the rest of
    the pattern is the next trial, at this trial's cycle plus the offset that was latched before. */
module Leftover {
  import opened Executor
  import opened Trial
  import opened Campaign
  import Exact
  import TableCtrl
  import TimeCtrl

  /** The offset the release will add, m words of the pattern being fetched and `o` latched before. */
  function OffsetAt(p: Plan, m: nat, o: nat): nat { if m == |p.idx| then p.off else o }

  predicate Fetched(t: TableCtrl.Table, p: Plan, m: nat, o: nat) {
    && m <= |p.idx| && t.ptr == p.base + m && t.fillArmed && !t.exhausted && !t.rstQ
    && (t.eop <==> m == |p.idx|) && t.offset == OffsetAt(p, m, o)
  }

  /** No pass is coming in this trial; the lookahead still fills until the reset. */
  predicate Skips(c: Setup, p: Plan, x: Core, m: nat, o: nat) {
    && (Exact.Missed(x) || Exact.Late(x)) && Fetched(x.tbl, p, m, o)
    && x.cfgEn && !x.rstQ && (x.scan.done ==> m < |p.idx|)
    && x.time.fiCycle == p.cycle < c.toThr && !x.time.end0 && !x.time.end1
  }

  /** Inside the reset the lookahead is empty; word pointer and offset wait for the release. */
  predicate Parked(c: Setup, p: Plan, x: Core, m: nat, o: nat) {
    && Paced(x) && x.time.resolverRst && x.rstQ && x.tbl.rstQ && x.cfgEn && !x.scan.done
    && x.tbl.la == [] && !x.tbl.fillArmed && !x.tbl.eop && !x.tbl.exhausted
    && m <= |p.idx| && x.tbl.ptr == p.base + m && x.tbl.offset == OffsetAt(p, m, o)
    && x.time.fiCycle == p.cycle < c.toThr && !x.time.end0 && !x.time.end1
  }

  /** With nothing to scrub (K = 0): the start pulse arrives on the edge that raises the reset. */
  predicate Due(c: Setup, p: Plan, x: Core, m: nat, o: nat) {
    && Exact.ResetIsDue(x) && Exact.Timely(x.time) && Fetched(x.tbl, p, m, o)
    && x.cfgEn && !x.rstQ && !x.scan.done && !x.time.scanStart && !x.s1 && x.time.fired && !x.time.memHalt
    && x.time.fiCycle == p.cycle < c.toThr && !x.time.end0 && !x.time.end1
  }

  /** Then a pass may be under way inside the reset, but it finds no entries. */
  predicate Under(c: Setup, p: Plan, x: Core, m: nat, o: nat) {
    && Exact.Timely(x.time) && x.time.resolverRst && x.cfgEn && !x.tbl.exhausted
    && (x.time.memHalt ==> x.time.phase == 5)
    && x.time.fired && !x.time.scanStart && !x.s1 && (x.rstQ ==> !x.s2) && !x.time.scrubReq
    && (x.time.phase == 2 || x.time.phase == 6 ==> x.time.memReq) && (x.time.phase == 2 ==> x.rstQ)
    && (x.rstQ ==> x.tbl.la == [] && !x.tbl.fillArmed && !x.tbl.eop && x.tbl.rstQ)
    && m <= |p.idx| && x.tbl.ptr == p.base + m && x.tbl.offset == OffsetAt(p, m, o)
    && x.time.fiCycle == p.cycle < c.toThr && !x.time.end0 && !x.time.end1
  }

  predicate LeavesAt(c: Setup, p: Plan, x: Core, m: nat, o: nat) {
    || Skips(c, p, x, m, o) || Parked(c, p, x, m, o)
    || (ScrubK(c) == 0 && (Due(c, p, x, m, o) || Under(c, p, x, m, o)))
  }

  /** Some m words of the pattern have been fetched, and the trial has no pass any more. */
  ghost predicate Leaves(c: Setup, p: Plan, x: Core, o: nat) { exists m: nat :: LeavesAt(c, p, x, m, o) }

  lemma LeavesWith(c: Setup, p: Plan, x: Core, m: nat, o: nat)
    requires LeavesAt(c, p, x, m, o)
    ensures Leaves(c, p, x, o)
  {
  }

  lemma NothingPops(c: Setup, x: Core, e: Env)
    requires Exact.Missed(x) || Exact.Late(x)
    ensures Exact.Missed(x) ==> !TableInput(c.b, c.table, x, HostIn(c), e).pop
    ensures Exact.Late(x) ==> !TableInput(c.b, c.table, x, HostIn(c), e).pop
  {
  }

  lemma FetchedStep(c: Setup, p: Plan, t: TableCtrl.Table, i: TableCtrl.TableIn, m: nat, o: nat)
    requires Legal(c) && Loaded(c, p) && Fetched(t, p, m, o)
    requires !i.resolverRst && !i.batchStart && i.tblLen == c.tblLen && i.word == ReadWord(c.table, t.ptr)
    requires i.done ==> m < |p.idx|
    ensures var n := TableCtrl.Step(t, i, c.b.lookahead, |c.table|);
            Fetched(n, p, if TableCtrl.Pushes(t, i, c.b.lookahead, |c.table|) then m + 1 else m, o)
  {
    if m < |p.idx| { assert c.table[p.base + m].idx == p.idx[m]; }
  }

  lemma SkipsCore(c: Setup, p: Plan, x: Core, e: Env, m: nat, o: nat)
    requires Legal(c) && Loaded(c, p) && Skips(c, p, x, m, o)
    ensures Exact.Missed(Next(c, x, e)) && !Next(c, x, e).scan.done
    ensures var n := Next(c, x, e);
            n.cfgEn && n.rstQ == x.time.resolverRst && n.time.fiCycle == p.cycle && !n.time.end0 && !n.time.end1
  {
    NothingPops(c, x, e);
    if Exact.Late(x) { Exact.LateStep(c, x, e); } else { Exact.MissedStep(c, x, e); }
  }

  lemma SkipsOn(c: Setup, p: Plan, x: Core, e: Env, m: nat, o: nat) returns (n: nat)
    requires Legal(c) && Loaded(c, p) && Skips(c, p, x, m, o) && !x.time.resolverRst
    ensures Skips(c, p, Next(c, x, e), n, o)
  {
    NothingPops(c, x, e);
    SkipsCore(c, p, x, e, m, o);
    FetchedStep(c, p, x.tbl, TableInput(c.b, c.table, x, HostIn(c), e), m, o);
    var i := TableInput(c.b, c.table, x, HostIn(c), e);
    n := if TableCtrl.Pushes(x.tbl, i, c.b.lookahead, |c.table|) then m + 1 else m;
  }

  /** The first cycle of the reset. */
  lemma SkipsPark(c: Setup, p: Plan, x: Core, e: Env, m: nat, o: nat)
    requires Legal(c) && Loaded(c, p) && Skips(c, p, x, m, o) && x.time.resolverRst
    ensures Parked(c, p, Next(c, x, e), m, o)
  {
    SkipsCore(c, p, x, e, m, o);
  }

  lemma ParkedOn(c: Setup, p: Plan, x: Core, e: Env, m: nat, o: nat)
    requires Legal(c) && Parked(c, p, x, m, o) && !Executor.Releases(c.b, x, HostIn(c), e)
    ensures Parked(c, p, Next(c, x, e), m, o)
  {
  }

  lemma DueOn(c: Setup, p: Plan, x: Core, e: Env, m: nat, o: nat) returns (n: nat)
    requires Legal(c) && Loaded(c, p) && ScrubK(c) == 0 && Due(c, p, x, m, o)
    ensures Under(c, p, Next(c, x, e), n, o)
  {
    var i := TableInput(c.b, c.table, x, HostIn(c), e);
    FetchedStep(c, p, x.tbl, i, m, o);
    n := if TableCtrl.Pushes(x.tbl, i, c.b.lookahead, |c.table|) then m + 1 else m;
    Exact.TimelyStep(c, x, e);
    DueTime(c, p, x, e, m, o);
  }

  lemma DueTime(c: Setup, p: Plan, x: Core, e: Env, m: nat, o: nat)
    requires Legal(c) && ScrubK(c) == 0 && Due(c, p, x, m, o)
    ensures var n := Next(c, x, e);
            && n.time.phase == 6 && n.time.resolverRst && n.cfgEn && !n.rstQ && !n.time.memHalt && n.time.memReq
            && n.time.fired && !n.time.scanStart && !n.s1 && !n.time.scrubReq
            && n.time.fiCycle == p.cycle && !n.time.end0 && !n.time.end1
  {
  }

  lemma UnderOn(c: Setup, p: Plan, x: Core, e: Env, m: nat, o: nat)
    requires Legal(c) && Under(c, p, x, m, o) && !Executor.Releases(c.b, x, HostIn(c), e)
    ensures Under(c, p, Next(c, x, e), m, o)
  {
    Exact.TimelyStep(c, x, e);
  }

  /** Nothing changes about it until the release. */
  lemma LeavesOn(c: Setup, p: Plan, x: Core, e: Env, o: nat)
    requires Legal(c) && Loaded(c, p) && Leaves(c, p, x, o) && !Executor.Releases(c.b, x, HostIn(c), e)
    ensures Leaves(c, p, Next(c, x, e), o)
  {
    var m: nat :| LeavesAt(c, p, x, m, o);
    var n := m;
    if Parked(c, p, x, m, o) {
      ParkedOn(c, p, x, e, m, o);
    } else if Skips(c, p, x, m, o) {
      if x.time.resolverRst { SkipsPark(c, p, x, e, m, o); } else { n := SkipsOn(c, p, x, e, m, o); }
    } else if Due(c, p, x, m, o) {
      n := DueOn(c, p, x, e, m, o);
    } else {
      UnderOn(c, p, x, e, m, o);
    }
    LeavesWith(c, p, Next(c, x, e), n, o);
  }

  /** The rest of a pattern, as a trial of its own. */
  function RestOf(p: Plan, m: nat, o: nat): Plan
    requires m < |p.idx|
  {
    Plan(p.base + m, p.idx[m..], p.off, p.cycle + o)
  }

  lemma RestIsLoaded(c: Setup, p: Plan, m: nat, o: nat)
    requires Loaded(c, p) && m < |p.idx|
    ensures Loaded(c, RestOf(p, m, o))
  {
    var r := RestOf(p, m, o);
    forall i | 0 <= i < |r.idx|
      ensures c.table[r.base + i].idx == r.idx[i] && (c.table[r.base + i].eop <==> i == |r.idx| - 1)
    {
      assert c.table[p.base + (m + i)].idx == p.idx[m + i];
      assert r.base + i == p.base + (m + i) && r.idx[i] == p.idx[m + i];
    }
    assert r.base + |r.idx| - 1 == p.base + |p.idx| - 1;
    assert Loaded(c, r);
  }

  /** The release starts a trial on whatever pattern stands at the pointer. */
  lemma ParkedStarts(c: Setup, p: Plan, x: Core, e: Env, m: nat, o: nat, q: Plan)
    requires Legal(c) && Loaded(c, q) && Parked(c, p, x, m, o) && Executor.Releases(c.b, x, HostIn(c), e)
    requires q.base == p.base + m && q.cycle == p.cycle + OffsetAt(p, m, o) < c.toThr
    ensures Wait(c, q, Next(c, x, e), 0)
  {
    ReleaseStarts(c, q, x, e, OffsetAt(p, m, o), p.cycle);
  }

  /** At the release nothing is left of the trial but its pass, if one opened inside the reset. */
  lemma ReleaseFinds(c: Setup, p: Plan, x: Core, e: Env, m: nat, o: nat)
    requires Legal(c) && LeavesAt(c, p, x, m, o) && Executor.Releases(c.b, x, HostIn(c), e)
    ensures m <= |p.idx| && x.tbl.ptr == p.base + m && x.tbl.offset == OffsetAt(p, m, o) && x.time.fiCycle == p.cycle
    ensures ScrubK(c) >= 1 || (Idle(x.scan) && !x.scan.done) ==> Parked(c, p, x, m, o)
  {
  }

  /** What the release makes of it: with m words fetched, the next trial is the rest of the pattern at
      this trial's cycle plus the old offset, or, with all of it fetched, the next pattern in its place. */
  lemma LeavesNext(c: Setup, p: Plan, x: Core, e: Env, o: nat) returns (m: nat)
    requires Legal(c) && Loaded(c, p) && Leaves(c, p, x, o) && Executor.Releases(c.b, x, HostIn(c), e)
    ensures m <= |p.idx|
    ensures var n := Next(c, x, e);
            n.tbl.ptr == p.base + m && n.time.fiCycle == TimeCtrl.Add32(p.cycle, OffsetAt(p, m, o))
    ensures ScrubK(c) >= 1 || (Idle(x.scan) && !x.scan.done) ==>
              && (m < |p.idx| && p.cycle + o < c.toThr ==> Wait(c, RestOf(p, m, o), Next(c, x, e), 0))
              && (m == |p.idx| ==>
                    forall q :: Loaded(c, q) && Follows(p, q) && q.cycle < c.toThr ==> Wait(c, q, Next(c, x, e), 0))
  {
    m :| LeavesAt(c, p, x, m, o);
    ReleaseFinds(c, p, x, e, m, o);
    ReleaseMoves(c, x, e);
    if Parked(c, p, x, m, o) {
      if m < |p.idx| && p.cycle + o < c.toThr {
        RestIsLoaded(c, p, m, o);
        ParkedStarts(c, p, x, e, m, o, RestOf(p, m, o));
      }
      forall q | m == |p.idx| && Loaded(c, q) && Follows(p, q) && q.cycle < c.toThr
        ensures Wait(c, q, Next(c, x, e), 0)
      {
        ParkedStarts(c, p, x, e, m, o, q);
      }
    }
  }

  lemma ReleaseMoves(c: Setup, x: Core, e: Env)
    requires Executor.Releases(c.b, x, HostIn(c), e) && x.time.resolverRst
    ensures var n := Next(c, x, e);
            n.tbl.ptr == x.tbl.ptr && n.time.fiCycle == TimeCtrl.Add32(x.time.fiCycle, x.tbl.offset)
  {
  }

  // ---- the campaign after it -----------------------------------------------------------------------------

  /** The patterns behind it, later by the same offset. */
  function Later(ps: seq<Plan>, o: nat): seq<Plan> {
    seq(|ps|, k requires 0 <= k < |ps| => ps[k].(cycle := ps[k].cycle + o))
  }

  /** What is left of the campaign behind trial k, with m words of its pattern fetched: the rest of that
      pattern first, and every later trial one behind its place and later by the old offset. */
  function LeftOf(ps: seq<Plan>, k: nat, m: nat, o: nat): seq<Plan>
    requires k < |ps|
  {
    if m < |ps[k].idx| then [RestOf(ps[k], m, o)] + Later(ps[k + 1..], o) else ps[k + 1..]
  }

  lemma LeftIsInRows(c: Setup, ps: seq<Plan>, k: nat, m: nat, o: nat)
    requires Tabled(c, ps) && k < |ps| && m <= |ps[k].idx| && LeftOf(ps, k, m, o) != []
    requires forall j :: 0 <= j < |LeftOf(ps, k, m, o)| ==> LeftOf(ps, k, m, o)[j].cycle < c.toThr
    ensures InRows(c, LeftOf(ps, k, m, o))
  {
    var qs := LeftOf(ps, k, m, o);
    var d := if m < |ps[k].idx| then k else k + 1;
    forall j | 0 <= j < |qs| ensures Loaded(c, qs[j]) && qs[j].cycle >= 1 {
      assert Loaded(c, ps[d + j]);
      LeftIsLoaded(c, ps, k, m, o, j, d + j, qs[j]);
    }
    forall j | 0 <= j < |qs| - 1 ensures Follows(qs[j], qs[j + 1]) {
      assert Follows(ps[d + j], ps[d + j + 1]);
    }
    assert Last(c, ps[|ps| - 1]);
  }

  lemma LeftIsLoaded(c: Setup, ps: seq<Plan>, k: nat, m: nat, o: nat, j: nat, d: nat, q: Plan)
    requires k < |ps| && m <= |ps[k].idx| && j < |LeftOf(ps, k, m, o)| && q == LeftOf(ps, k, m, o)[j]
    requires d == (if m < |ps[k].idx| then k + j else k + 1 + j) && d < |ps| && Loaded(c, ps[d]) && ps[d].cycle >= 1
    ensures Loaded(c, q) && q.cycle >= 1
  {
    LeftAt(ps, k, m, o, j);
    if m >= |ps[k].idx| {
      SameLoaded(c, ps[d], q);
    } else if j == 0 {
      RestIsLoaded(c, ps[d], m, o);
      SameLoaded(c, RestOf(ps[d], m, o), q);
    } else {
      LoadedLater(c, ps[d], o);
      SameLoaded(c, ps[d].(cycle := ps[d].cycle + o), q);
    }
  }

  lemma SameLoaded(c: Setup, p: Plan, q: Plan)
    requires Loaded(c, p) && p.cycle >= 1 && q == p
    ensures Loaded(c, q) && q.cycle >= 1
  {
  }

  lemma LeftAt(ps: seq<Plan>, k: nat, m: nat, o: nat, j: nat)
    requires k < |ps| && j < |LeftOf(ps, k, m, o)|
    ensures m < |ps[k].idx| ==> k + j < |ps|
    ensures m < |ps[k].idx| && j == 0 ==> LeftOf(ps, k, m, o)[j] == RestOf(ps[k], m, o)
    ensures m < |ps[k].idx| && j > 0 ==> LeftOf(ps, k, m, o)[j] == ps[k + j].(cycle := ps[k + j].cycle + o)
    ensures m >= |ps[k].idx| ==> k + 1 + j < |ps| && LeftOf(ps, k, m, o)[j] == ps[k + 1 + j]
  {
  }

  lemma LoadedLater(c: Setup, p: Plan, o: nat)
    requires Loaded(c, p)
    ensures Loaded(c, p.(cycle := p.cycle + o))
  {
    var q := p.(cycle := p.cycle + o);
    forall i | 0 <= i < |q.idx|
      ensures c.table[q.base + i].idx == q.idx[i] && (c.table[q.base + i].eop <==> i == |q.idx| - 1)
    {
      assert c.table[p.base + i].idx == p.idx[i];
    }
    assert c.table[q.base + |q.idx| - 1].off == q.off;
    assert Loaded(c, q);
  }

  /** Trials and passes counted from here on. */
  function Recount(y: Sys): Sys { y.(trials := 1, shots := []) }

  lemma RecountIsInv(c: Setup, qs: seq<Plan>, r: Sys)
    requires Sized(c, r) && qs != [] && r.since == 0 && Wait(c, qs[0], r.x, 0)
    ensures Inv(c, qs, Recount(r))
  {
  }

  lemma ReleaseTick(c: Setup, y: Sys, i: In)
    requires Sized(c, y) && |i.dut| == c.len && Executor.Releases(c.b, y.x, HostIn(c), EnvOf(c, y, i))
    ensures Tick(c, y, i).since == 0 && Tick(c, y, i).x == Next(c, y.x, EnvOf(c, y, i))
  {
  }

  /** In every run behind a trial without a pass, or with one too short: what is left of the campaign is
      replayed, as long as it meets the conditions itself. */
  lemma {:induction false} RestIsReplayed(c: Setup, ps: seq<Plan>, k: nat, y: Sys, i: In, o: nat) returns (m: nat)
    requires Tabled(c, ps) && k < |ps| && Sized(c, y) && |i.dut| == c.len
    requires Leaves(c, ps[k], y.x, o) && Executor.Releases(c.b, y.x, HostIn(c), EnvOf(c, y, i))
    requires ScrubK(c) >= 1 || (Idle(y.x.scan) && !y.x.scan.done)
    ensures m <= |ps[k].idx|
    ensures var qs := LeftOf(ps, k, m, o);
            qs != [] && (forall j :: 0 <= j < |qs| ==> qs[j].cycle < c.toThr && Replayable(c, qs[j])) ==>
              forall ins :: Wired(c, ins) && NeverEarlyAbort(c, qs, Recount(Tick(c, y, i)), ins) ==>
                Replayed(c, qs, Run(c, Recount(Tick(c, y, i)), ins))
  {
    var r := Tick(c, y, i);
    m := LeavesNext(c, ps[k], y.x, EnvOf(c, y, i), o);
    ReleaseTick(c, y, i);
    var qs := LeftOf(ps, k, m, o);
    if qs != [] && forall j :: 0 <= j < |qs| ==> qs[j].cycle < c.toThr && Replayable(c, qs[j]) {
      LeftIsInRows(c, ps, k, m, o);
      if m == |ps[k].idx| { assert Follows(ps[k], ps[k + 1]); }
      assert qs[0].cycle < c.toThr;
      RecountIsInv(c, qs, r);
      forall ins | Wired(c, ins) && NeverEarlyAbort(c, qs, Recount(r), ins)
        ensures Replayed(c, qs, Run(c, Recount(r), ins))
      {
        InvRuns(c, qs, Recount(r), ins);
        InvMeansReplayed(c, qs, Run(c, Recount(r), ins));
      }
    }
  }

  // ---- how a trial comes to it --------------------------------------------------------------------------

  lemma WaitFetched(c: Setup, p: Plan, x: Core, n: nat)
    requires Legal(c) && Loaded(c, p) && Wait(c, p, x, n) && n >= 1
    ensures Fetched(x.tbl, p, Trial.Fetched(c, p, n), x.tbl.offset)
  {
  }

  /** The start pulse finds too little: at most the lookahead's depth of the pattern has been fetched
      and nothing of it is used. */
  lemma NotReadyLeaves(c: Setup, p: Plan, x: Core, e: Env)
    requires Legal(c) && Loaded(c, p) && Wait(c, p, x, p.cycle + 3) && !Prefetches(c, p)
    ensures Leaves(c, p, Next(c, x, e), x.tbl.offset)
  {
    var i, m := TableInput(c.b, c.table, x, HostIn(c), e), Trial.Fetched(c, p, p.cycle + 3);
    Exact.NotReady(c, p, x, e);
    WaitFetched(c, p, x, p.cycle + 3);
    NotReadyPops(c, p, x, e);
    FetchedStep(c, p, x.tbl, i, m, x.tbl.offset);
    var n: nat := if TableCtrl.Pushes(x.tbl, i, c.b.lookahead, |c.table|) then m + 1 else m;
    WaitCore(c, p, x, e, p.cycle + 3);
    LeavesWith(c, p, Next(c, x, e), n, x.tbl.offset);
  }

  lemma NotReadyPops(c: Setup, p: Plan, x: Core, e: Env)
    requires Legal(c) && Loaded(c, p) && Wait(c, p, x, p.cycle + 3) && !Prefetches(c, p)
    ensures !TableInput(c.b, c.table, x, HostIn(c), e).pop
  {
    ReadyIffPrefetched(c, p, x);
  }

  lemma WaitCore(c: Setup, p: Plan, x: Core, e: Env, n: nat)
    requires Legal(c) && Wait(c, p, x, n)
    ensures var r := Next(c, x, e);
            r.cfgEn && !r.rstQ && !r.scan.done && r.time.fiCycle == p.cycle < c.toThr && !r.time.end0 && !r.time.end1
  {
  }

  /** The timeout leaves too little: the scrub comes before the start pulse, or, with nothing to scrub,
      the reset does. */
  lemma LateLeaves(c: Setup, p: Plan, x: Core, e: Env)
    requires Legal(c) && Loaded(c, p) && Wait(c, p, x, p.cycle + 2) && !BeatsTimeout(c, p) && p.cycle >= 1
    ensures Leaves(c, p, Next(c, x, e), x.tbl.offset)
  {
    var i, m := TableInput(c.b, c.table, x, HostIn(c), e), Trial.Fetched(c, p, p.cycle + 2);
    WaitFetched(c, p, x, p.cycle + 2);
    FetchedStep(c, p, x.tbl, i, m, x.tbl.offset);
    var n: nat := if TableCtrl.Pushes(x.tbl, i, c.b.lookahead, |c.table|) then m + 1 else m;
    WaitCore(c, p, x, e, p.cycle + 2);
    if ScrubK(c) >= 1 { Exact.ScrubComesFirst(c, p, x, e); } else { LateIsDue(c, p, x, e, n); }
    LeavesWith(c, p, Next(c, x, e), n, x.tbl.offset);
  }

  lemma LateIsDue(c: Setup, p: Plan, x: Core, e: Env, n: nat)
    requires Legal(c) && Loaded(c, p) && Wait(c, p, x, p.cycle + 2) && !BeatsTimeout(c, p) && p.cycle >= 1
    requires ScrubK(c) == 0 && Fetched(Next(c, x, e).tbl, p, n, x.tbl.offset)
    ensures Due(c, p, Next(c, x, e), n, x.tbl.offset)
  {
    assert Exact.Timely(x.time);
    Exact.TimelyStep(c, x, e);
    Exact.LatePulse(c, p, x, e);
    WaitCore(c, p, x, e, p.cycle + 2);
    LateTime(c, p, x, e);
  }

  lemma LateTime(c: Setup, p: Plan, x: Core, e: Env)
    requires Legal(c) && Wait(c, p, x, p.cycle + 2) && !BeatsTimeout(c, p) && p.cycle >= 1 && ScrubK(c) == 0
    ensures var n := Next(c, x, e); n.time.fired && !n.time.scanStart && !n.s1 && !n.time.memHalt && !n.time.resolverRst
  {
  }

  lemma StreamsFetched(t: TableCtrl.Table, c: Setup, p: Plan, q: nat)
    requires Loaded(c, p) && Streams(t, c, p, q) && q + c.b.lookahead < |p.idx|
    ensures Fetched(t, p, q + c.b.lookahead, t.offset)
  {
  }

  lemma ShiftCore(c: Setup, p: Plan, x: Core, e: Env, t: nat, h: nat)
    requires Legal(c) && Shift(c, p, x, t, h) && t + 1 == c.len
    ensures var r := Next(c, x, e);
            && Exact.Missed(r) && r.cfgEn && !r.rstQ
            && r.time.fiCycle == p.cycle < c.toThr && !r.time.end0 && !r.time.end1
  {
  }

  /** The pass of a pattern with more entries than it takes in ends in the middle of it. */
  lemma UnfitLeaves(c: Setup, p: Plan, x: Core, e: Env, t: nat, h: nat)
    requires Legal(c) && Loaded(c, p) && Shift(c, p, x, t, h) && t + 1 == c.len
    requires (if Consumes(c, p, t, h) then h + 1 else h) + 2 + c.b.lookahead < |p.idx|
    ensures Leaves(c, p, Next(c, x, e), Next(c, x, e).tbl.offset)
  {
    var q, r := (if Consumes(c, p, t, h) then h + 1 else h) + 2, Next(c, x, e);
    ShiftTable(c, p, x, e, t, h);
    StreamsFetched(r.tbl, c, p, q);
    ShiftCore(c, p, x, e, t, h);
    LeavesWith(c, p, r, q + c.b.lookahead, r.tbl.offset);
  }
}
