/** All memories of a design together, undo and fill ones (rtl/fi_sram_restore.vh), as the wrapper sees
    them: done when all are, an abort or a bad restore when any is (rtl/fi_wrapper_top.v). */
module Memories {
  import opened MemRestore

  /** What a memory is built as: an undo log of some depth over a power-on content, or banks of `rows`
      words that are filled with one word. */
  datatype Spec = UndoSpec(depth: nat, power: seq<Word>) | FillSpec(rows: nat, size: nat, word: Word)

  datatype Mem = UndoMem(u: Undo) | FillMem(f: Fill)

  function SizeOf(s: Spec): nat { if s.UndoSpec? then |s.power| else s.size }

  predicate Built(s: Spec) { SizeOf(s) >= 1 && (s.FillSpec? ==> s.rows >= 1) }

  function Ram(m: Mem): seq<Word> { if m.UndoMem? then m.u.ram else m.f.ram }

  predicate Fits(m: Mem, s: Spec) { (m.UndoMem? <==> s.UndoSpec?) && |Ram(m)| == SizeOf(s) }

  function Step(m: Mem, i: MemIn, s: Spec): (r: Mem)
    requires Built(s) && Fits(m, s) && i.a < SizeOf(s)
    ensures Fits(r, s)
  {
    match m
    case UndoMem(u) => UndoMem(MemRestore.Step(u, i, s.depth))
    case FillMem(f) => FillMem(FillStep(f, i, s.rows, s.word))
  }

  predicate Done(m: Mem) { if m.UndoMem? then m.u.log == [] else m.f.done }

  predicate Aborts(m: Mem) { m.UndoMem? && m.u.full }

  predicate Bad(m: Mem) { if m.UndoMem? then m.u.bad else m.f.bad }

  /** The content every trial starts from. */
  function StartOf(s: Spec): (m: Mem)
    ensures Fits(m, s)
  {
    match s
    case UndoSpec(_, power) => UndoMem(Undo(power, [], false, false))
    case FillSpec(_, size, word) => FillMem(Fill(seq(size, _ => word), 0, false, false))
  }

  /** The memory without the fill's own counter, which the design does not see. */
  function Seen(m: Mem): Mem { if m.UndoMem? then m else FillMem(m.f.(k := 0, done := false)) }

  ghost predicate Ok(m: Mem, s: Spec) {
    && Built(s) && Fits(m, s) && !Bad(m)
    && if m.UndoMem? then Undoable(m.u, s.power, s.depth) else Filling(m.f, s.rows, s.word)
  }

  predicate Clean(i: MemIn) { !(i.ce && i.restore && Writes(i.we)) }

  lemma OkStep(m: Mem, i: MemIn, s: Spec)
    requires Ok(m, s) && i.a < SizeOf(s) && Clean(i)
    ensures Ok(Step(m, i, s), s)
  {
    if m.UndoMem? { UndoableStep(m.u, i, s.power, s.depth); } else { FillingStep(m.f, i, s.rows, s.word); }
  }

  /** A finished restore leaves the start content. */
  lemma RestoredIsStart(m: Mem, i: MemIn, s: Spec)
    requires Ok(m, s) && i.a < SizeOf(s) && Clean(i) && i.restore && Done(m)
    ensures Seen(Step(m, i, s)) == StartOf(s)
  {
    if m.FillMem? { assert m.f.ram == StartOf(s).f.ram; }
  }

  /** Outside a restore the design sees a plain memory with its log; a stopped clock changes nothing. */
  lemma SeenStep(m: Mem, i: MemIn, s: Spec)
    requires Built(s) && Fits(m, s) && i.a < SizeOf(s) && !i.restore
    ensures Fits(Seen(m), s) && Seen(Step(m, i, s)) == Step(Seen(m), i, s)
    ensures !i.ce ==> Seen(Step(m, i, s)) == Seen(m)
  {
  }

  /** Cycles a held restore still takes. */
  function Left(m: Mem, s: Spec): int
    requires m.FillMem? ==> s.FillSpec?
  {
    if m.UndoMem? then |m.u.log| else RowsLeft(m.f, s.rows)
  }

  function Cap(s: Spec): nat { if s.UndoSpec? then s.depth else s.rows }

  function Less(n: int): int { if n == 0 then 0 else n - 1 }

  lemma LeftBounds(m: Mem, s: Spec)
    requires Ok(m, s)
    ensures 0 <= Left(m, s) <= Cap(s) && (Done(m) <==> Left(m, s) == 0)
  {
  }

  lemma LeftStep(m: Mem, i: MemIn, s: Spec)
    requires Ok(m, s) && i.a < SizeOf(s) && i.restore
    ensures Left(Step(m, i, s), s) == Less(Left(m, s))
  {
  }

  // ---- all of them -------------------------------------------------------------------------------------

  predicate AllBuilt(ss: seq<Spec>) { forall k :: 0 <= k < |ss| ==> Built(ss[k]) }

  predicate AllFit(ms: seq<Mem>, ss: seq<Spec>) { |ms| == |ss| && forall k :: 0 <= k < |ms| ==> Fits(ms[k], ss[k]) }

  predicate AllReach(ins: seq<MemIn>, ss: seq<Spec>) {
    |ins| == |ss| && forall k :: 0 <= k < |ins| ==> ins[k].a < SizeOf(ss[k])
  }

  function StepAll(ms: seq<Mem>, ins: seq<MemIn>, ss: seq<Spec>): (r: seq<Mem>)
    requires AllBuilt(ss) && AllFit(ms, ss) && AllReach(ins, ss)
    ensures AllFit(r, ss)
  {
    seq(|ms|, k requires 0 <= k < |ms| => Step(ms[k], ins[k], ss[k]))
  }

  predicate AllDone(ms: seq<Mem>, restore: bool) { restore && forall k :: 0 <= k < |ms| ==> Done(ms[k]) }

  predicate AnyAborts(ms: seq<Mem>) { exists k :: 0 <= k < |ms| && Aborts(ms[k]) }

  predicate AnyBad(ms: seq<Mem>) { exists k :: 0 <= k < |ms| && Bad(ms[k]) }

  /** The wrapper's three flags, by the memories' own: done while a restore is requested, when every undo log
      is empty and every fill is through; the other two when one memory raises its own. */
  lemma {:induction false} FlagsOfAll(ms: seq<Mem>, restore: bool)
    ensures AllDone(ms, restore) <==>
              restore && forall k :: 0 <= k < |ms| ==> if ms[k].UndoMem? then ms[k].u.log == [] else ms[k].f.done
    ensures AnyAborts(ms) <==> exists k :: 0 <= k < |ms| && ms[k].UndoMem? && ms[k].u.full
    ensures AnyBad(ms) <==> exists k :: 0 <= k < |ms| && if ms[k].UndoMem? then ms[k].u.bad else ms[k].f.bad
  {
    if AnyAborts(ms) { var k :| 0 <= k < |ms| && Aborts(ms[k]); }
    if k :| 0 <= k < |ms| && ms[k].UndoMem? && ms[k].u.full { assert Aborts(ms[k]); }
    if AnyBad(ms) { var k :| 0 <= k < |ms| && Bad(ms[k]); }
    if k :| 0 <= k < |ms| && if ms[k].UndoMem? then ms[k].u.bad else ms[k].f.bad { assert Bad(ms[k]); }
    if forall k :: 0 <= k < |ms| ==> if ms[k].UndoMem? then ms[k].u.log == [] else ms[k].f.done {
      forall k | 0 <= k < |ms| ensures Done(ms[k]) {}
    }
  }

  function Rams(ms: seq<Mem>): seq<seq<Word>> { seq(|ms|, k requires 0 <= k < |ms| => Ram(ms[k])) }

  function SeenAll(ms: seq<Mem>): seq<Mem> { seq(|ms|, k requires 0 <= k < |ms| => Seen(ms[k])) }

  function Starts(ss: seq<Spec>): (ms: seq<Mem>)
    ensures AllFit(ms, ss)
  {
    seq(|ss|, k requires 0 <= k < |ss| => StartOf(ss[k]))
  }

  ghost predicate AllOk(ms: seq<Mem>, ss: seq<Spec>) { |ms| == |ss| && forall k :: 0 <= k < |ms| ==> Ok(ms[k], ss[k]) }

  predicate AllClean(ins: seq<MemIn>) { forall k :: 0 <= k < |ins| ==> Clean(ins[k]) }

  predicate AllRestore(ins: seq<MemIn>, restore: bool) { forall k :: 0 <= k < |ins| ==> ins[k].restore == restore }

  lemma AllOkStep(ms: seq<Mem>, ins: seq<MemIn>, ss: seq<Spec>)
    requires AllOk(ms, ss) && AllReach(ins, ss) && AllClean(ins)
    ensures AllBuilt(ss) && AllFit(ms, ss) && AllOk(StepAll(ms, ins, ss), ss)
  {
    forall k | 0 <= k < |ms| ensures Ok(Step(ms[k], ins[k], ss[k]), ss[k]) { OkStep(ms[k], ins[k], ss[k]); }
  }

  lemma AllOkFacts(ms: seq<Mem>, ss: seq<Spec>)
    requires AllOk(ms, ss)
    ensures AllBuilt(ss) && AllFit(ms, ss) && !AnyBad(ms)
  {
  }

  lemma {:induction false} AllRestored(ms: seq<Mem>, ins: seq<MemIn>, ss: seq<Spec>)
    requires AllOk(ms, ss) && AllReach(ins, ss) && AllClean(ins) && AllRestore(ins, true) && AllDone(ms, true)
    ensures AllBuilt(ss) && AllFit(ms, ss) && SeenAll(StepAll(ms, ins, ss)) == Starts(ss)
  {
    forall k | 0 <= k < |ms| ensures Seen(Step(ms[k], ins[k], ss[k])) == StartOf(ss[k]) {
      RestoredIsStart(ms[k], ins[k], ss[k]);
    }
  }

  /** Outside a restore a full log stays full. */
  lemma AbortsOn(ms: seq<Mem>, ins: seq<MemIn>, ss: seq<Spec>)
    requires AllBuilt(ss) && AllFit(ms, ss) && AllReach(ins, ss) && AllRestore(ins, false) && AnyAborts(ms)
    ensures AnyAborts(StepAll(ms, ins, ss))
  {
    var k :| 0 <= k < |ms| && Aborts(ms[k]);
    assert !ins[k].restore && Aborts(StepAll(ms, ins, ss)[k]);
  }

  lemma SeenRams(ms: seq<Mem>)
    ensures Rams(SeenAll(ms)) == Rams(ms) && AnyAborts(SeenAll(ms)) == AnyAborts(ms)
  {
    assert forall k :: 0 <= k < |ms| ==> SeenAll(ms)[k] == Seen(ms[k]);
    if AnyAborts(ms) {
      var k :| 0 <= k < |ms| && Aborts(ms[k]);
      assert Aborts(SeenAll(ms)[k]);
    }
  }

  lemma {:induction false} SeenStepAll(ms: seq<Mem>, ins: seq<MemIn>, ss: seq<Spec>)
    requires AllBuilt(ss) && AllFit(ms, ss) && AllReach(ins, ss) && AllRestore(ins, false)
    ensures AllFit(SeenAll(ms), ss) && SeenAll(StepAll(ms, ins, ss)) == StepAll(SeenAll(ms), ins, ss)
    ensures (forall k :: 0 <= k < |ins| ==> !ins[k].ce) ==> SeenAll(StepAll(ms, ins, ss)) == SeenAll(ms)
  {
    forall k | 0 <= k < |ms|
      ensures Fits(Seen(ms[k]), ss[k]) && Seen(Step(ms[k], ins[k], ss[k])) == Step(Seen(ms[k]), ins[k], ss[k])
      ensures !ins[k].ce ==> Seen(Step(ms[k], ins[k], ss[k])) == Seen(ms[k])
    {
      SeenStep(ms[k], ins[k], ss[k]);
    }
  }

  // ---- how long a restore takes ---------------------------------------------------------------------------

  function Max(a: int, b: int): int { if a < b then b else a }

  /** The slowest memory decides. */
  function LeftAll(ms: seq<Mem>, ss: seq<Spec>): int
    requires AllFit(ms, ss)
  {
    if ms == [] then 0
    else var n := |ms| - 1; Max(LeftAll(ms[..n], ss[..n]), Left(ms[n], ss[n]))
  }

  function CapAll(ss: seq<Spec>): nat {
    if ss == [] then 0 else Max(CapAll(ss[..|ss| - 1]), Cap(ss[|ss| - 1]))
  }

  lemma DoneSplits(ms: seq<Mem>)
    requires ms != []
    ensures AllDone(ms, true) <==> AllDone(ms[..|ms| - 1], true) && Done(ms[|ms| - 1])
  {
    var a := ms[..|ms| - 1];
    if AllDone(a, true) && Done(ms[|ms| - 1]) {
      forall k | 0 <= k < |ms| ensures Done(ms[k]) { assert k < |a| ==> ms[k] == a[k]; }
    }
    if AllDone(ms, true) { forall k | 0 <= k < |a| ensures Done(a[k]) { assert a[k] == ms[k]; } }
  }

  lemma {:induction false} LeftAllBounds(ms: seq<Mem>, ss: seq<Spec>)
    requires AllOk(ms, ss)
    ensures AllBuilt(ss) && AllFit(ms, ss)
    ensures 0 <= LeftAll(ms, ss) <= CapAll(ss) && (AllDone(ms, true) <==> LeftAll(ms, ss) == 0)
  {
    AllOkFacts(ms, ss);
    if ms != [] {
      LeftAllBounds(ms[..|ms| - 1], ss[..|ss| - 1]);
      DoneSplits(ms);
      LeftBounds(ms[|ms| - 1], ss[|ss| - 1]);
    }
  }

  lemma MaxLess(a: int, b: int)
    requires a >= 0 && b >= 0
    ensures Max(Less(a), Less(b)) == Less(Max(a, b))
  {
  }

  lemma StepAllSplits(ms: seq<Mem>, ins: seq<MemIn>, ss: seq<Spec>)
    requires AllBuilt(ss) && AllFit(ms, ss) && AllReach(ins, ss) && ms != []
    ensures var n := |ms| - 1;
            && AllBuilt(ss[..n]) && AllFit(ms[..n], ss[..n]) && AllReach(ins[..n], ss[..n])
            && StepAll(ms, ins, ss)[..n] == StepAll(ms[..n], ins[..n], ss[..n])
            && StepAll(ms, ins, ss)[n] == Step(ms[n], ins[n], ss[n])
  {
  }

  lemma LeftAllLast(ms: seq<Mem>, ss: seq<Spec>)
    requires AllFit(ms, ss) && ms != []
    ensures var n := |ms| - 1;
            && AllFit(ms[..n], ss[..n])
            && LeftAll(ms, ss) == Max(LeftAll(ms[..n], ss[..n]), Left(ms[n], ss[n]))
  {
  }

  lemma {:induction false} LeftAllStep(ms: seq<Mem>, ins: seq<MemIn>, ss: seq<Spec>)
    requires AllOk(ms, ss) && AllReach(ins, ss) && AllRestore(ins, true)
    ensures AllBuilt(ss) && AllFit(ms, ss) && LeftAll(StepAll(ms, ins, ss), ss) == Less(LeftAll(ms, ss))
  {
    AllOkFacts(ms, ss);
    if ms != [] {
      var n := |ms| - 1;
      LeftAllStep(ms[..n], ins[..n], ss[..n]);
      LeftBounds(ms[n], ss[n]);
      LeftAllBounds(ms[..n], ss[..n]);
      LeftStep(ms[n], ins[n], ss[n]);
      StepAllSplits(ms, ins, ss);
      LeftAllLast(ms, ss);
      LeftAllLast(StepAll(ms, ins, ss), ss);
      MaxLess(LeftAll(ms[..n], ss[..n]), Left(ms[n], ss[n]));
    }
  }
}
