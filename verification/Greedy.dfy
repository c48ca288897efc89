/** One pass of the hardware against the greedy specification, for any stream of entries:
    unsorted, null, or longer than the lookahead and the chain. */
module Greedy {
  import opened Executor
  import opened Trial
  import Pass
  import ScanCtrl

  /** Before step t some target was found already passed. */
  predicate StaleBy(q: seq<nat>, t: nat, len: nat) {
    t > 0 && (StaleBy(q, t - 1, len)
              || (Pass.Head(q, t - 1, len) < |q| && q[Pass.Head(q, t - 1, len)] < t - 1))
  }

  lemma StaledSplits(q: seq<nat>, h: nat, t: nat, len: nat)
    requires h <= |q| && t < len
    ensures Pass.Staled(q[h..], t, len) <==>
            (h < |q| && q[h] < t) || Pass.Staled(Pass.After(q[h..], t, len), t + 1, len)
  {
  }

  lemma {:induction false} StaledFromHead(q: seq<nat>, t: nat, len: nat)
    requires t <= len
    ensures Pass.Staled(q, 0, len) <==> StaleBy(q, t, len) || Pass.Staled(q[Pass.Head(q, t, len)..], t, len)
  {
    if t == 0 {
      assert q[0..] == q;
    } else {
      var u: nat := t - 1;
      StaledFromHead(q, u, len);
      StaledSplits(q, Pass.Head(q, u, len), u, len);
      Pass.HeadStep(q, u, len);
    }
  }

  /** Step t of the pass; `flag` is the order flag before it. */
  ghost predicate InPass(c: Setup, p: Plan, flag: bool, x: Core, t: nat) {
    && Shift(c, p, x, t, Pass.Head(Steps(p, c.len), t, c.len))
    && x.scan.errOrder == (flag || StaleBy(Steps(p, c.len), t, c.len))
  }

  lemma PassBegins(c: Setup, p: Plan, x: Core, e: Env)
    requires Legal(c) && Loaded(c, p) && Lead(c, p, x)
    ensures InPass(c, p, x.scan.errOrder, Next(c, x, e), 0)
  {
    LeadStep(c, p, x, e);
    LeadKeepsFlag(c, p, x, e);
  }

  lemma LeadKeepsFlag(c: Setup, p: Plan, x: Core, e: Env)
    requires Lead(c, p, x)
    ensures Next(c, x, e).scan.errOrder == x.scan.errOrder
  {
  }

  lemma PassFlag(c: Setup, p: Plan, flag: bool, x: Core, e: Env, t: nat)
    requires Legal(c) && Loaded(c, p) && InPass(c, p, flag, x, t)
    ensures Next(c, x, e).scan.errOrder == (flag || StaleBy(Steps(p, c.len), t + 1, c.len))
  {
  }

  lemma PassStep(c: Setup, p: Plan, flag: bool, x: Core, e: Env, t: nat)
    requires Legal(c) && Loaded(c, p) && InPass(c, p, flag, x, t) && t < c.len - 1
    ensures InPass(c, p, flag, Next(c, x, e), t + 1)
  {
    HeadShifts(c, p, x, e, t, Pass.Head(Steps(p, c.len), t, c.len));
    PassFlag(c, p, flag, x, e, t);
  }

  /** The last shift. */
  lemma LastShift(c: Setup, p: Plan, x: Core, e: Env, t: nat, h: nat)
    requires Shift(c, p, x, t, h) && t + 1 == c.len
    ensures Next(c, x, e).scan.done && !Next(c, x, e).scan.run
  {
  }

  lemma DoneNext(c: Setup, p: Plan, flag: bool, x: Core, e: Env, n: Core, t: nat)
    requires InPass(c, p, flag, x, t) && t + 1 == c.len && n == Next(c, x, e)
    ensures n.scan.done && !n.scan.run
  {
    LastShift(c, p, x, e, t, Pass.Head(Steps(p, c.len), t, c.len));
  }

  lemma FlagNext(c: Setup, p: Plan, flag: bool, x: Core, e: Env, n: Core, t: nat)
    requires Legal(c) && Loaded(c, p) && InPass(c, p, flag, x, t) && n == Next(c, x, e)
    ensures n.scan.errOrder == (flag || StaleBy(Steps(p, c.len), t + 1, c.len))
  {
    PassFlag(c, p, flag, x, e, t);
  }

  /** A run of the core, state by state. */
  ghost predicate Trace(c: Setup, xs: seq<Core>, es: seq<Env>) {
    |xs| == |es| + 1 && forall k {:trigger es[k]} :: 0 <= k < |es| ==> xs[k + 1] == Next(c, xs[k], es[k])
  }

  /** One edge of a trace keeps the pass going. */
  lemma PassOn(c: Setup, p: Plan, flag: bool, x: Core, e: Env, n: Core, t: nat)
    requires Legal(c) && Loaded(c, p) && InPass(c, p, flag, x, t) && t + 1 < c.len && n == Next(c, x, e)
    ensures InPass(c, p, flag, n, t + 1)
  {
    PassStep(c, p, flag, x, e, t);
    assert InPass(c, p, flag, n, t + 1) == InPass(c, p, flag, Next(c, x, e), t + 1);
  }

  lemma PassAtNext(c: Setup, p: Plan, xs: seq<Core>, es: seq<Env>, flag: bool, t: nat)
    requires Legal(c) && Loaded(c, p) && Trace(c, xs, es) && t + 1 < c.len && t + 1 < |es|
    requires InPass(c, p, flag, xs[t + 1], t)
    ensures InPass(c, p, flag, xs[t + 2], t + 1)
  {
    PassOn(c, p, flag, xs[t + 1], es[t + 1], xs[t + 2], t);
  }

  lemma {:induction false} PassFrom(c: Setup, p: Plan, xs: seq<Core>, es: seq<Env>, flag: bool, t: nat)
    requires Legal(c) && Loaded(c, p) && Trace(c, xs, es) && t < c.len && t < |es| && InPass(c, p, flag, xs[1], 0)
    ensures InPass(c, p, flag, xs[t + 1], t)
  {
    if t > 0 {
      PassFrom(c, p, xs, es, flag, t - 1);
      PassAtNext(c, p, xs, es, flag, t - 1);
    }
  }

  lemma PassAt(c: Setup, p: Plan, xs: seq<Core>, es: seq<Env>, t: nat)
    requires Legal(c) && Loaded(c, p) && Trace(c, xs, es) && Lead(c, p, xs[0]) && t < c.len && t < |es|
    ensures InPass(c, p, xs[0].scan.errOrder, xs[t + 1], t)
  {
    PassFirst(c, p, xs[0], es[0], xs[1]);
    PassFrom(c, p, xs, es, xs[0].scan.errOrder, t);
  }

  lemma PassFirst(c: Setup, p: Plan, x: Core, e: Env, n: Core)
    requires Legal(c) && Loaded(c, p) && Lead(c, p, x) && n == Next(c, x, e)
    ensures InPass(c, p, x.scan.errOrder, n, 0)
  {
    PassBegins(c, p, x, e);
    assert InPass(c, p, x.scan.errOrder, n, 0) == InPass(c, p, x.scan.errOrder, Next(c, x, e), 0);
  }

  lemma HitIsServed(c: Setup, p: Plan, flag: bool, x: Core, e: Env, t: nat)
    requires Legal(c) && Loaded(c, p) && InPass(c, p, flag, x, t)
    ensures ScanCtrl.Hit(x.scan) <==> t in Pass.Served(Steps(p, c.len), 0, c.len)
  {
    var q := Steps(p, c.len);
    ShiftScan(c, p, x, e, t, Pass.Head(q, t, c.len));
    Pass.FlipsAtHead(q, t, c.len);
    Pass.FlipsAreServed(q, 0, c.len);
  }

  /** A cell is flipped at step t exactly when the greedy specification serves it: a target not yet
      passed is hit at its step, any other is dropped and costs one step. */
  lemma {:induction false} FlipsGreedily(c: Setup, p: Plan, xs: seq<Core>, es: seq<Env>, t: nat)
    requires Legal(c) && Loaded(c, p) && Trace(c, xs, es) && Lead(c, p, xs[0]) && t < c.len && t < |es|
    ensures ScanCtrl.Hit(xs[t + 1].scan) <==> t in Pass.Served(Steps(p, c.len), 0, c.len)
  {
    PassAt(c, p, xs, es, t);
    HitIsServed(c, p, xs[0].scan.errOrder, xs[t + 1], es[t], t);
  }

  lemma StaleIsDropped(q: seq<nat>, len: nat)
    ensures StaleBy(q, len, len) == Pass.Dropped(q, 0, len)
  {
    StaledFromHead(q, len, len);
    Pass.FlipsAreServed(q, 0, len);
  }

  lemma FlagAfter(c: Setup, p: Plan, xs: seq<Core>, es: seq<Env>, t: nat)
    requires Legal(c) && Loaded(c, p) && Trace(c, xs, es) && Lead(c, p, xs[0]) && t + 1 == c.len && t + 1 < |es|
    ensures xs[t + 2].scan.errOrder == (xs[0].scan.errOrder || StaleBy(Steps(p, c.len), t + 1, c.len))
  {
    PassAt(c, p, xs, es, t);
    FlagNext(c, p, xs[0].scan.errOrder, xs[t + 1], es[t + 1], xs[t + 2], t);
  }

  lemma DoneAfter(c: Setup, p: Plan, xs: seq<Core>, es: seq<Env>, t: nat)
    requires Legal(c) && Loaded(c, p) && Trace(c, xs, es) && Lead(c, p, xs[0]) && t + 1 == c.len && t + 1 < |es|
    ensures xs[t + 2].scan.done && !xs[t + 2].scan.run
  {
    PassAt(c, p, xs, es, t);
    DoneNext(c, p, xs[0].scan.errOrder, xs[t + 1], es[t + 1], xs[t + 2], t);
  }

  /** The pass takes exactly L shifts, and raises the order flag exactly when a target that is a
      cell was dropped. */
  lemma {:induction false} FlagsTheDropped(c: Setup, p: Plan, xs: seq<Core>, es: seq<Env>)
    requires Legal(c) && Loaded(c, p) && Trace(c, xs, es) && Lead(c, p, xs[0]) && |es| == c.len + 1
    ensures var n := xs[c.len + 1].scan;
            && n.done && !n.run
            && n.errOrder == (xs[0].scan.errOrder || Pass.Dropped(Steps(p, c.len), 0, c.len))
  {
    FlagAfter(c, p, xs, es, c.len - 1);
    DoneAfter(c, p, xs, es, c.len - 1);
    StaleIsDropped(Steps(p, c.len), c.len);
  }
}
