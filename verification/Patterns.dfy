/** What a pattern in the host's order does in one pass: indices past the chain come first and cost
    one step each, the cells follow by ascending step. */
module Patterns {
  import opened Trial
  import Campaign
  import Host
  import Pass

  ghost predicate Descends(idx: seq<int>) { forall i, j :: 0 <= i < j < |idx| ==> idx[i] > idx[j] }

  /** How many indices in front are past the chain. */
  function NullCount(idx: seq<int>, len: nat): (z: nat)
    ensures z <= |idx|
  {
    if idx == [] || idx[0] < len then 0 else 1 + NullCount(idx[1..], len)
  }

  /** The indices past the chain leave the first cell's step ahead. */
  predicate Shows(idx: seq<int>, len: nat) {
    var z := NullCount(idx, len);
    z == |idx| || z + idx[z] < len
  }

  /** And if there is no cell at all, they are not more than a pass and the lookahead take in. */
  predicate Harmless(idx: seq<int>, len: nat, depth: nat) {
    Shows(idx, len) && (NullCount(idx, len) == |idx| ==> |idx| <= len + depth + 2)
  }

  lemma {:induction false} NullsInFront(idx: seq<int>, len: nat)
    requires Descends(idx)
    ensures var z := NullCount(idx, len);
            && (forall i :: 0 <= i < z ==> idx[i] >= len) && (forall i :: z <= i < |idx| ==> idx[i] < len)
  {
    if idx != [] && idx[0] >= len {
      NullsInFront(idx[1..], len);
      var z := NullCount(idx, len);
      forall i | 0 <= i < |idx| ensures i < z <==> idx[i] >= len {
        if i > 0 { assert idx[i] == idx[1..][i - 1]; }
      }
    } else {
      forall i | 0 <= i < |idx| ensures idx[i] < len { assert i > 0 ==> idx[0] > idx[i]; }
    }
  }

  /** The steps of the cells of a pattern. */
  function CellSteps(p: Plan, len: nat): seq<nat> { Steps(p, len)[NullCount(p.idx, len)..] }

  /** A host pattern is nulls and then ascending steps on the chain. */
  lemma StepsSplit(p: Plan, len: nat)
    requires Descends(p.idx)
    ensures Steps(p, len) == Pass.Nulls(NullCount(p.idx, len), len) + CellSteps(p, len)
    ensures Pass.Ascending(CellSteps(p, len)) && forall s :: s in CellSteps(p, len) ==> s < len
  {
    NullsInFront(p.idx, len);
    var z, q := NullCount(p.idx, len), CellSteps(p, len);
    forall k | 0 <= k < |q| ensures q[k] == len - 1 - p.idx[z + k] && p.idx[z + k] < len { StepAt(p, len, z + k); }
    forall k | 0 <= k < z ensures Steps(p, len)[k] == len { StepAt(p, len, k); }
    assert Steps(p, len)[..z] == Pass.Nulls(z, len);
  }

  lemma StepAt(p: Plan, len: nat, k: nat)
    requires Descends(p.idx) && k < |p.idx|
    ensures Steps(p, len)[k] == (if k < NullCount(p.idx, len) then len else len - 1 - p.idx[k])
    ensures k >= NullCount(p.idx, len) ==> p.idx[k] < len
  {
    NullsInFront(p.idx, len);
  }

  lemma CellsSplit(z: nat, q: seq<nat>, len: nat)
    ensures Pass.Cells(Pass.Nulls(z, len) + q, len) == Pass.Cells(q, len)
  {
    assert forall s :: s in Pass.Cells(Pass.Nulls(z, len) + q, len) ==> s in q;
    assert forall s :: s in q ==> s in Pass.Nulls(z, len) + q;
  }

  /** The pass hits all cells of the pattern exactly when its nulls leave the first one ahead. */
  lemma TargetsIff(c: Setup, p: Plan)
    requires Descends(p.idx)
    ensures Campaign.Targets(c, p) == Pass.Cells(Steps(p, c.len), c.len) <==> Shows(p.idx, c.len)
  {
    var z, q := NullCount(p.idx, c.len), CellSteps(p, c.len);
    StepsSplit(p, c.len);
    CellsSplit(z, q, c.len);
    Pass.FlipsAreServed(Steps(p, c.len), 0, c.len);
    Pass.NullsMayHideCells(z, q, c.len);
    NullsInFront(p.idx, c.len);
    assert q != [] ==> q[0] == c.len - 1 - p.idx[z];
  }

  /** A pattern that shows its cells is fetched to its end in its pass, unless it has no cell and
      too many nulls. */
  lemma FitsIff(c: Setup, p: Plan)
    requires Descends(p.idx) && Shows(p.idx, c.len)
    ensures Fits(c, p) <==> Harmless(p.idx, c.len, c.b.lookahead)
  {
    var z, q := NullCount(p.idx, c.len), CellSteps(p, c.len);
    StepsSplit(p, c.len);
    if z == |p.idx| {
      assert Steps(p, c.len) == Pass.Nulls(z, c.len);
      Pass.NullsLeft(z, 0, c.len);
    } else {
      assert q[0] == c.len - 1 - p.idx[z];
      CellsLeave(z, q, c.len);
    }
  }

  lemma CellsLeave(z: nat, q: seq<nat>, len: nat)
    requires q != [] && Pass.Ascending(q) && z <= q[0] && forall s :: s in q ==> s < len
    ensures Pass.Left(Pass.Nulls(z, len) + q, 0, len) == []
  {
    assert q[0] in q;
    forall s | s in q ensures z <= s {
      var k :| 0 <= k < |q| && q[k] == s;
      assert q[0] <= q[k];
    }
    Pass.NullsLeave(z, q, 0, len);
    Pass.AscendingLeavesNone(q, z, len);
  }

  /** A chain with these cells inverted; cell 0 is next to Scan_In. */
  function Flipped(v: seq<bool>, cells: seq<int>): seq<bool> {
    seq(|v|, i requires 0 <= i < |v| => v[i] != (i in cells))
  }

  lemma CellOfStep(p: Plan, len: nat, i: nat)
    requires i < len
    ensures len - 1 - i in Pass.Cells(Steps(p, len), len) <==> i in p.idx
  {
    var q := Steps(p, len);
    if i in p.idx {
      var k :| 0 <= k < |p.idx| && p.idx[k] == i;
      assert q[k] == len - 1 - i;
    }
    if len - 1 - i in q {
      var k :| 0 <= k < |q| && q[k] == len - 1 - i;
      assert p.idx[k] == i;
    }
  }

  lemma FlippedIsInverted(p: Plan, len: nat, v: seq<bool>)
    requires |v| == len
    ensures Flipped(v, p.idx) == Campaign.Inverted(v, Pass.Cells(Steps(p, len), len))
  {
    forall i | 0 <= i < |v| ensures (i in p.idx) == (len - 1 - i in Pass.Cells(Steps(p, len), len)) {
      CellOfStep(p, len, i);
    }
  }

  lemma InvertedSame(v: seq<bool>, a: set<nat>, b: set<nat>)
    requires forall s :: s in a || s in b ==> s < |v|
    ensures Campaign.Inverted(v, a) == Campaign.Inverted(v, b) <==> a == b
  {
    if Campaign.Inverted(v, a) == Campaign.Inverted(v, b) {
      forall s | 0 <= s < |v| ensures s in a <==> s in b {
        assert Campaign.Inverted(v, a)[|v| - 1 - s] == Campaign.Inverted(v, b)[|v| - 1 - s];
      }
    }
  }

  /** The pass inverts exactly the pattern's cells, whatever the chain holds, if and only if the
      nulls leave the first cell ahead. */
  lemma {:induction false} FlipsTheSetIff(c: Setup, p: Plan, v: seq<bool>)
    requires |v| == c.len && Descends(p.idx)
    ensures Campaign.Inverted(v, Campaign.Targets(c, p)) == Flipped(v, p.idx) <==> Shows(p.idx, c.len)
  {
    TargetsIff(c, p);
    Pass.FlipsAhead(Steps(p, c.len), 0, c.len);
    FlippedIsInverted(p, c.len, v);
    InvertedSame(v, Campaign.Targets(c, p), Pass.Cells(Steps(p, c.len), c.len));
  }

  // ---- what a run should show ------------------------------------------------------------------------

  /** The conditions under which a trial is injected. */
  predicate Works(c: Setup, p: Plan) { Campaign.Replayable(c, p) && Shows(p.idx, c.len) }

  /** The trials a plan makes. */
  function Asked(ps: seq<Plan>): seq<Host.Norm> {
    seq(|ps|, k requires 0 <= k < |ps| => Host.Norm(ps[k].cycle, ps[k].idx))
  }

  predicate Answers(n: Host.Norm, k: nat, s: Campaign.Shot) {
    s.trial == k + 1 && s.cycle == n.cycle && (s.closed ==> s.after == Flipped(s.before, n.idx))
  }

  /** The outcome: pass number k is trial k of the schedule, started when the cycle counter holds
      that trial's cycle, and it turns the chain into the same chain with exactly that trial's
      flops inverted; once trial k's successor runs, that pass has happened; after the last trial
      the table is exhausted and no further pass has been made. */
  ghost predicate Injected(ns: seq<Host.Norm>, r: Campaign.Sys) {
    && |r.shots| <= |ns| && |r.shots| <= r.trials
    && (forall k :: 0 <= k < |r.shots| ==> Answers(ns[k], k, r.shots[k]))
    && (forall k :: 0 <= k < |ns| && k + 1 < r.trials ==> Campaign.Made(r, k))
    && (r.trials > |ns| ==> r.x.tbl.exhausted && |r.shots| == |ns|)
  }

  lemma ReplayedIsInjected(c: Setup, ps: seq<Plan>, r: Campaign.Sys)
    requires Campaign.Replayed(c, ps, r)
    requires forall k :: 0 <= k < |ps| ==> Descends(ps[k].idx) && Shows(ps[k].idx, c.len)
    ensures Injected(Asked(ps), r)
  {
    forall k | 0 <= k < |r.shots| ensures Answers(Asked(ps)[k], k, r.shots[k]) {
      assert Campaign.Recorded(c, ps[k], k, r.shots[k]);
      FlipsTheSetIff(c, ps[k], r.shots[k].before);
    }
  }
}
