/** What one scan pass does to a stream of targets, without the lookahead and the
    two-deep front end: the specification the hardware is proved against.

    A target is a shift step; `len` (the chain length) stands for "no cell". */
module Pass {

  /** The head of the queue leaves at step t: it is hit, already passed, or no cell. */
  predicate Consumed(q: seq<nat>, t: nat, len: nat) {
    q != [] && (q[0] <= t || q[0] >= len)
  }

  function After(q: seq<nat>, t: nat, len: nat): seq<nat> {
    if Consumed(q, t, len) then q[1..] else q
  }

  /** Cycle by cycle: the steps from t on at which the shifted bit is inverted. */
  function Flips(q: seq<nat>, t: nat, len: nat): set<nat>
    decreases len - t
  {
    if t >= len then {}
    else (if q != [] && q[0] == t then {t} else {}) + Flips(After(q, t, len), t + 1, len)
  }

  /** Cycle by cycle: some target is found already passed. */
  predicate Staled(q: seq<nat>, t: nat, len: nat)
    decreases len - t
  {
    t < len && ((q != [] && q[0] < t) || Staled(After(q, t, len), t + 1, len))
  }

  /** Cycle by cycle: the targets still queued when the pass ends. */
  function Left(q: seq<nat>, t: nat, len: nat): seq<nat>
    decreases len - t
  {
    if t >= len then q else Left(After(q, t, len), t + 1, len)
  }

  /** Target by target, t being the first step the head is looked at: a target not yet
      passed is flipped at its own step; any other is dropped and costs one step. */
  function Served(q: seq<nat>, t: nat, len: nat): set<nat> {
    if q == [] || t >= len then {}
    else if t <= q[0] < len then {q[0]} + Served(q[1..], q[0] + 1, len)
    else Served(q[1..], t + 1, len)
  }

  /** Target by target: some target that is a cell was dropped. */
  predicate Dropped(q: seq<nat>, t: nat, len: nat) {
    q != [] && t < len
    && if t <= q[0] < len then Dropped(q[1..], q[0] + 1, len)
       else q[0] < t || Dropped(q[1..], t + 1, len)
  }

  lemma {:induction false} FlipsAreServed(q: seq<nat>, t: nat, len: nat)
    ensures Flips(q, t, len) == Served(q, t, len)
    ensures Staled(q, t, len) == Dropped(q, t, len)
    decreases len - t
  {
    if t < len {
      FlipsAreServed(After(q, t, len), t + 1, len);
    }
  }

  lemma {:induction false} FlipsAhead(q: seq<nat>, t: nat, len: nat)
    ensures forall s :: s in Flips(q, t, len) ==> t <= s < len && s in q
    decreases len - t
  {
    if t < len {
      FlipsAhead(After(q, t, len), t + 1, len);
    }
  }

  ghost predicate Ascending(q: seq<nat>) {
    forall i, j :: 0 <= i < j < |q| ==> q[i] < q[j]
  }

  function Cells(q: seq<nat>, len: nat): set<nat> { set s | s in q && s < len }

  /** Ascending targets from t on all flip, none is dropped, none is left over. */
  lemma {:induction false} AscendingFlipsAll(q: seq<nat>, t: nat, len: nat)
    requires Ascending(q) && forall s :: s in q ==> t <= s < len
    ensures Served(q, t, len) == Cells(q, len)
    ensures !Dropped(q, t, len)
  {
    if q != [] {
      assert q[0] in q;
      assert q == [q[0]] + q[1..];
      forall s | s in q[1..] ensures q[0] + 1 <= s < len {
        var k :| 0 <= k < |q[1..]| && q[1..][k] == s;
        assert q[k + 1] == s && q[k + 1] in q;
      }
      assert |q| > 1 ==> q[1] in q;
      if q[0] + 1 < len {
        AscendingFlipsAll(q[1..], q[0] + 1, len);
      }
      assert Cells(q, len) == {q[0]} + Cells(q[1..], len);
    }
  }

  /** At most one target leaves per step, so long queues are left over; ascending
      targets inside the chain never are. */
  lemma {:induction false} AscendingLeavesNone(q: seq<nat>, t: nat, len: nat)
    requires Ascending(q) && t <= len && forall s :: s in q ==> t <= s < len
    ensures Left(q, t, len) == []
    decreases len - t
  {
    assert q == [] || q[0] in q;
    if t < len {
      var r := After(q, t, len);
      forall s | s in r ensures t + 1 <= s < len {
        var k :| 0 <= k < |r| && r[k] == s;
        if Consumed(q, t, len) {
          assert q[k + 1] == s && q[k + 1] in q && q[0] in q;
        } else {
          assert q[0] in q && q[k] in q;
        }
      }
      AscendingLeavesNone(r, t + 1, len);
    }
  }

  // ---- targets past the end of the chain -----------------------------------------

  function Nulls(n: nat, len: nat): seq<nat> { seq(n, _ => len) }

  lemma {:induction false} NullsCostOneStepEach(n: nat, q: seq<nat>, t: nat, len: nat)
    requires t + n <= len
    ensures Served(Nulls(n, len) + q, t, len) == Served(q, t + n, len)
    ensures Dropped(Nulls(n, len) + q, t, len) == Dropped(q, t + n, len)
    decreases n
  {
    if n == 0 {
      assert Nulls(0, len) + q == q;
    } else {
      assert (Nulls(n, len) + q)[1..] == Nulls(n - 1, len) + q;
      NullsCostOneStepEach(n - 1, q, t + 1, len);
    }
  }

  lemma {:induction false} NullsOnly(n: nat, q: seq<nat>, t: nat, len: nat)
    requires t <= len <= t + n
    ensures Served(Nulls(n, len) + q, t, len) == {}
    decreases n
  {
    if t < len {
      assert (Nulls(n, len) + q)[1..] == Nulls(n - 1, len) + q;
      NullsOnly(n - 1, q, t + 1, len);
    }
  }

  lemma {:induction false} ServedAhead(q: seq<nat>, t: nat, len: nat)
    ensures forall s :: s in Served(q, t, len) ==> t <= s < len
  {
    FlipsAreServed(q, t, len);
    FlipsAhead(q, t, len);
  }

  /** A pattern in the host's order, `nulls` indices past the chain and then ascending cells:
      it flips every cell exactly when the dropped indices leave the first cell's step ahead. */
  lemma {:induction false} NullsMayHideCells(nulls: nat, q: seq<nat>, len: nat)
    requires Ascending(q) && forall s :: s in q ==> s < len
    ensures Served(Nulls(nulls, len) + q, 0, len) == Cells(q, len)
            <==> q == [] || nulls <= q[0]
  {
    if nulls < len {
      NullsCostOneStepEach(nulls, q, 0, len);
      ServedAhead(q, nulls, len);
      if q != [] && q[0] < nulls {
        assert q[0] in q && q[0] in Cells(q, len);
      } else {
        forall s | s in q ensures nulls <= s < len {
          var k :| 0 <= k < |q| && q[k] == s;
          assert q[0] <= q[k];
        }
        AscendingFlipsAll(q, nulls, len);
      }
    } else {
      NullsOnly(nulls, q, 0, len);
      if q != [] { assert q[0] in q && q[0] in Cells(q, len); }
    }
  }

  /** Nulls in front only delay what is behind them. */
  lemma {:induction false} NullsLeave(n: nat, q: seq<nat>, t: nat, len: nat)
    requires t + n <= len
    ensures Left(Nulls(n, len) + q, t, len) == Left(q, t + n, len)
    decreases n
  {
    if n == 0 {
      assert Nulls(0, len) + q == q;
    } else {
      assert (Nulls(n, len) + q)[1..] == Nulls(n - 1, len) + q;
      NullsLeave(n - 1, q, t + 1, len);
    }
  }

  /** Of nulls alone, one per step is dropped. */
  lemma {:induction false} NullsLeft(n: nat, t: nat, len: nat)
    requires t <= len
    ensures |Left(Nulls(n, len), t, len)| == if n <= len - t then 0 else n - (len - t)
    decreases n
  {
    if t < len && n > 0 {
      assert Nulls(n, len)[1..] == Nulls(n - 1, len);
      NullsLeft(n - 1, t + 1, len);
    } else if n == 0 {
      NullsLeave(0, [], t, len);
      EmptyLeft(t, len);
    }
  }

  lemma {:induction false} EmptyLeft(t: nat, len: nat)
    ensures Left([], t, len) == []
    decreases len - t
  {
    if t < len { EmptyLeft(t + 1, len); }
  }

  // ---- the pass seen from step t ----------------------------------------------------

  /** How many targets have left the queue before step t. */
  function Head(q: seq<nat>, t: nat, len: nat): (h: nat)
    ensures h <= |q|
  {
    if t == 0 then 0 else
      var h := Head(q, t - 1, len);
      if Consumed(q[h..], t - 1, len) then h + 1 else h
  }

  lemma HeadStep(q: seq<nat>, t: nat, len: nat)
    ensures q[Head(q, t + 1, len)..] == After(q[Head(q, t, len)..], t, len)
  {
  }

  /** The rest of the pass depends only on what is still queued. */
  lemma {:induction false} FromHead(q: seq<nat>, t: nat, len: nat)
    requires t <= len
    ensures forall s :: t <= s ==> (s in Flips(q, 0, len) <==> s in Flips(q[Head(q, t, len)..], t, len))
    ensures Left(q, 0, len) == Left(q[Head(q, t, len)..], t, len)
  {
    if t == 0 {
      assert q[0..] == q;
    } else {
      var u: nat := t - 1;
      FromHead(q, u, len);
      HeadStep(q, u, len);
    }
  }

  /** Step t flips exactly when the head of the queue is t. */
  lemma FlipsAtHead(q: seq<nat>, t: nat, len: nat)
    requires t < len
    ensures t in Flips(q, 0, len) <==> Head(q, t, len) < |q| && q[Head(q, t, len)] == t
  {
    FromHead(q, t, len);
    var r := q[Head(q, t, len)..];
    FlipsAhead(After(r, t, len), t + 1, len);
    assert t in Flips(r, t, len) <==> r != [] && r[0] == t;
  }

  lemma LeftIsTail(q: seq<nat>, len: nat)
    ensures Left(q, 0, len) == q[Head(q, len, len)..]
  {
    FromHead(q, len, len);
  }
}
