/** What holds of the executor in every run without a bad memory, whatever the table says, and how
    far it is from the next release. */
module Alive {
  import Arith
  import opened Executor
  import opened Trial
  import TimeCtrl

  predicate Lives(c: Setup, x: Core) {
    var t, s := x.time, x.scan;
    && (t.phase == 0 || t.phase == 2 || t.phase == 3 || t.phase == 6)
    && (t.stopped <==> t.phase != 0) && (t.scrubReq <==> t.phase == 3)
    && !(s.run && s.lead)
    && (s.scrub ==> t.phase == 3 && (s.run || s.lead) && s.end + 1 == ScrubK(c))
    && (!s.scrub && (s.run || s.lead) ==> s.end == c.len - 1)
    && (s.run ==> s.cnt <= s.end)
    && (t.phase == 3 && s.scrubDone ==> ScrubK(c) == 0)
  }

  lemma LivesOn(c: Setup, x: Core, e: Env)
    requires Legal(c) && Lives(c, x) && !e.memBad
    ensures Lives(c, Next(c, x, e))
  {
  }

  // ---- a measure -------------------------------------------------------------------------------------

  /** Start pulses on their way to the scan controller. */
  function Pulses(x: Core): int {
    (if x.time.scanStart then 1 else 0) + (if x.s1 then 1 else 0) + if x.s2 then 1 else 0
  }

  /** Cycles until the scrub's last shift, at most: every pulse may still make a pass. */
  function ScanLeft(c: Setup, x: Core): int {
    var s := x.scan;
    if s.scrub then (if s.run then s.end + 1 - s.cnt else ScrubK(c) + 1)
    else if s.scrubDone then 1
    else
      Pulses(x) * (c.len + 2) + (if s.run then s.end + 1 - s.cnt else if s.lead then c.len + 1 else 0) + ScrubK(c) + 2
  }

  /** Cycles until the next pacing event. */
  function PaceLeft(c: Setup, t: TimeCtrl.Time): int {
    if t.rstCnt < c.b.rstCyc then c.b.rstCyc - t.rstCnt else 1
  }

  function RunLeft(c: Setup, t: TimeCtrl.Time): int { 1 + if t.cc < c.toThr then c.toThr - t.cc else 0 }

  /** Cycles from a stop to the scrub's last shift, at most. */
  function ScanBound(c: Setup): int { 4 * (c.len + 2) + ScrubK(c) + 2 }

  /** Cycles until the next release, at most, when the memories need `left` more and never more than
      `cap` cycles to restore themselves. */
  function Left(c: Setup, x: Core, left: int, cap: int): int {
    match x.time.phase
    case 0 => RunLeft(c, x.time) + ScanBound(c) + 2 * c.b.rstCyc + cap
    case 3 => ScanLeft(c, x) + 2 * c.b.rstCyc + cap
    case 6 => PaceLeft(c, x.time) + left + c.b.rstCyc
    case 2 => if left == 0 then PaceLeft(c, x.time) else left + c.b.rstCyc
    case _ => 0
  }

  /** A trial with its reset window takes no longer than this. */
  function Bound(c: Setup, cap: nat): nat { c.toThr + 1 + ScanBound(c) + 2 * c.b.rstCyc + cap }

  lemma PulsesShift(c: Setup, x: Core, e: Env)
    requires x.time.stopped
    ensures Pulses(Next(c, x, e)) == Pulses(x) - (if x.s2 then 1 else 0) && Pulses(x) <= 3
  {
  }

  lemma PulseProduct(p: int, q: int, n: int)
    requires 0 <= q <= p <= 3 && n >= 0
    ensures 0 <= q * n <= p * n <= 3 * n && (q < p ==> q * n + n <= p * n)
  {
  }

  lemma ScanLeftBound(c: Setup, x: Core)
    requires Legal(c) && Lives(c, x)
    ensures 1 <= ScanLeft(c, x) <= ScanBound(c)
  {
    PulseProduct(3, Pulses(x), c.len + 2);
  }

  lemma LeftBounds(c: Setup, x: Core, left: nat, cap: nat)
    requires Legal(c) && Lives(c, x) && left <= cap
    ensures 1 <= Left(c, x, left, cap) <= Bound(c, cap)
  {
    ScanLeftBound(c, x);
  }

  /** The scrub comes closer with every cycle of phase 3. */
  lemma ScanStep(c: Setup, x: Core, e: Env)
    requires Legal(c) && Lives(c, x) && !e.memBad && x.time.phase == 3 && Next(c, x, e).time.phase == 3
    ensures ScanLeft(c, Next(c, x, e)) < ScanLeft(c, x)
  {
    LivesOn(c, x, e);
    PulsesShift(c, x, e);
    PulseProduct(Pulses(x), Pulses(Next(c, x, e)), c.len + 2);
  }

  /** Every cycle that does not release comes closer to the release. */
  lemma LeftStep(c: Setup, x: Core, e: Env, left: nat, left': nat, cap: nat)
    requires Legal(c) && c.b.rstCyc < Arith.W32 && Lives(c, x)
    requires !e.memBad && (x.time.memReq ==> (e.memDone <==> left == 0))
    requires left' <= cap && (x.time.phase == 2 || x.time.phase == 6 ==> left' == if left == 0 then 0 else left - 1)
    requires !Executor.Releases(c.b, x, HostIn(c), e)
    ensures Left(c, Next(c, x, e), left', cap) < Left(c, x, left, cap)
  {
    LivesOn(c, x, e);
    ScanLeftBound(c, x);
    ScanLeftBound(c, Next(c, x, e));
    if x.time.phase == 3 && Next(c, x, e).time.phase == 3 { ScanStep(c, x, e); }
  }

  // ---- many trials ---------------------------------------------------------------------------------------

  /** What is owed to a campaign: the releases to come, each with a full trial, and the rest of
      the current one. */
  function Owed(trials: nat, all: nat, bound: nat, left: int): int
    requires trials <= all
  {
    (all - trials) * (bound + 1) + left
  }

  lemma ReleasePays(trials: nat, all: nat, bound: nat, left: int, left': int)
    requires trials < all && 0 <= left && left' <= bound
    ensures Owed(trials + 1, all, bound, left') < Owed(trials, all, bound, left)
  {
    assert (all - trials) * (bound + 1) == (all - (trials + 1)) * (bound + 1) + (bound + 1);
  }

  /** A run that has paid for every release has had them all. */
  lemma Paid(trials: nat, all: nat, bound: nat, left: int, left0: int, n: nat)
    requires trials <= all && 0 <= left && left0 <= bound
    requires Owed(trials, all, bound, left) + n <= Owed(0, all, bound, left0)
    ensures n < (all + 1) * (bound + 1)
  {
    assert (all - trials) * (bound + 1) >= 0;
    assert (all + 1) * (bound + 1) == all * (bound + 1) + (bound + 1);
  }
}
