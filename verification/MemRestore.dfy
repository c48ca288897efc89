/** The memory restore of a DUT memory model (rtl/fi_sram_restore.vh).

    A word is the sequence of its byte lanes, so a byte-enabled write is a lane-wise choice. */
module MemRestore {
  import opened Arith

  type Word = seq<int>

  /** An edge as the memory sees it: `ce` is an edge of its own clock, the restore runs on the
      free-running one. */
  datatype MemIn = MemIn(ce: bool, a: nat, d: Word, we: seq<bool>, restore: bool)

  /** The word after a write with these byte enables. */
  function Merge(w: Word, d: Word, we: seq<bool>): Word {
    seq(|w|, i requires 0 <= i < |w| => if i < |we| && i < |d| && we[i] then d[i] else w[i])
  }

  /** The loop over the byte lanes. */
  method NewWord(w: Word, d: Word, we: seq<bool>) returns (n: Word)
    ensures |n| == |w|
    ensures forall k :: 0 <= k < |w| ==> n[k] == if k < |we| && k < |d| && we[k] then d[k] else w[k]
  {
    n := w;
    for k := 0 to |w|
      invariant |n| == |w| && forall j :: k <= j < |w| ==> n[j] == w[j]
      invariant forall j :: 0 <= j < k ==> n[j] == if j < |we| && j < |d| && we[j] then d[j] else w[j]
    {
      if k < |we| && k < |d| && we[k] { n := n[k := d[k]]; }
    }
  }

  predicate Writes(we: seq<bool>) { exists i :: 0 <= i < |we| && we[i] }

  // ---- UNDO ---------------------------------------------------------------------------

  datatype Logged = Logged(a: nat, w: Word)

  datatype Undo = Undo(ram: seq<Word>, log: seq<Logged>, full: bool, bad: bool)

  /** This edge's DUT write changes its word. */
  predicate Changes(m: Undo, i: MemIn)
    requires i.a < |m.ram|
  {
    i.ce && !i.restore && Merge(m.ram[i.a], i.d, i.we) != m.ram[i.a]
  }

  function Step(m: Undo, i: MemIn, depth: nat): Undo
    requires i.a < |m.ram|
  {
    var bad := m.bad || (i.ce && i.restore && Writes(i.we));
    if !i.restore then
      if !Changes(m, i) then m.(bad := bad)
      else if |m.log| < depth
      then Undo(m.ram[i.a := Merge(m.ram[i.a], i.d, i.we)], m.log + [Logged(i.a, m.ram[i.a])], m.full, bad)
      else m.(full := true, bad := bad)
    else if m.log != [] then
      var top := m.log[|m.log| - 1];
      Undo(if top.a < |m.ram| then m.ram[top.a := top.w] else m.ram, m.log[..|m.log| - 1], m.full, bad)
    else m.(full := false, bad := bad)
  }

  /** What a DUT write leaves, lane by lane: with room in the log the enabled lanes of its word are the
      data's; every other lane of that word and every other word stay as they were, and with the log
      full so does everything. */
  lemma DutWritesLanes(m: Undo, i: MemIn, depth: nat, x: nat, k: nat)
    requires i.a < |m.ram| && x < |m.ram| && k < |m.ram[x]| && !i.restore
    ensures var r := Step(m, i, depth);
            var hit := i.ce && x == i.a && k < |i.we| && k < |i.d| && i.we[k];
            && |r.ram| == |m.ram| && |r.ram[x]| == |m.ram[x]|
            && r.ram[x][k] == if hit && |m.log| < depth then i.d[k] else m.ram[x][k]
  {
    assert Merge(m.ram[i.a], i.d, i.we) != m.ram[i.a] || x != i.a ||
           m.ram[x][k] == Merge(m.ram[i.a], i.d, i.we)[k];
  }

  /** And what it leaves beside the content: the word is logged if some enabled lane differs and there is
      room; if there is none, the memory asks for an end of the trial. */
  lemma DutWriteLogs(m: Undo, i: MemIn, depth: nat)
    requires i.a < |m.ram| && !i.restore
    ensures var r, w := Step(m, i, depth), m.ram[i.a];
            var differs := i.ce && exists k :: 0 <= k < |w| && k < |i.we| && k < |i.d| && i.we[k] && i.d[k] != w[k];
            && r.log == (if differs && |m.log| < depth then m.log + [Logged(i.a, w)] else m.log)
            && r.full == (m.full || (differs && |m.log| >= depth)) && r.bad == m.bad
  {
    var w := m.ram[i.a];
    if Merge(w, i.d, i.we) != w {
      var k :| 0 <= k < |w| && Merge(w, i.d, i.we)[k] != w[k];
    }
  }

  predicate LogInRange(m: Undo) { forall k :: 0 <= k < |m.log| ==> m.log[k].a < |m.ram| }

  predicate Done(m: Undo, restore: bool) { restore && m.log == [] }

  /** The content with the log undone, newest first. */
  function Rollback(ram: seq<Word>, log: seq<Logged>): (r: seq<Word>)
    requires forall k :: 0 <= k < |log| ==> log[k].a < |ram|
    ensures |r| == |ram|
    decreases |log|
  {
    if log == [] then ram
    else
      var top := log[|log| - 1];
      Rollback(ram[top.a := top.w], log[..|log| - 1])
  }

  /** The log can always take the memory back to its power-on content. */
  ghost predicate Undoable(m: Undo, power: seq<Word>, depth: nat) {
    && LogInRange(m) && |m.log| <= depth && |m.ram| == |power|
    && Rollback(m.ram, m.log) == power
  }

  lemma {:induction false} UndoableStep(m: Undo, i: MemIn, power: seq<Word>, depth: nat)
    requires Undoable(m, power, depth) && i.a < |m.ram|
    ensures Undoable(Step(m, i, depth), power, depth)
  {
    if Changes(m, i) && |m.log| < depth {
      var n := Step(m, i, depth);
      assert n.log[..|n.log| - 1] == m.log;
      assert n.ram[i.a := m.ram[i.a]] == m.ram;
    }
  }

  function Run(m: Undo, ins: seq<MemIn>, depth: nat): (r: Undo)
    requires forall k :: 0 <= k < |ins| ==> ins[k].a < |m.ram|
    ensures |r.ram| == |m.ram|
  {
    if ins == [] then m else Step(Run(m, ins[..|ins| - 1], depth), ins[|ins| - 1], depth)
  }

  /** In every run, dropped writes and interrupted restores included, the log is complete; so
      whenever done is reported the memory holds its power-on content. */
  lemma {:induction false} DoneMeansPowerOn(power: seq<Word>, ins: seq<MemIn>, depth: nat)
    requires forall k :: 0 <= k < |ins| ==> ins[k].a < |power|
    ensures var m := Run(Undo(power, [], false, false), ins, depth);
            Undoable(m, power, depth) && forall restore :: Done(m, restore) ==> m.ram == power
  {
    if ins != [] {
      var pre := ins[..|ins| - 1];
      DoneMeansPowerOn(power, pre, depth);
      UndoableStep(Run(Undo(power, [], false, false), pre, depth), ins[|ins| - 1], power, depth);
    }
  }

  /** An edge on which the design writes into a memory that is being restored. */
  predicate Disturbs(i: MemIn) { i.ce && i.restore && exists k :: 0 <= k < |i.we| && i.we[k] }

  /** The bad flag of a run: up exactly if some edge disturbed a restore. */
  lemma {:induction false} BadIffDisturbed(m: Undo, ins: seq<MemIn>, depth: nat)
    requires !m.bad && forall k :: 0 <= k < |ins| ==> ins[k].a < |m.ram|
    ensures Run(m, ins, depth).bad <==> exists k :: 0 <= k < |ins| && Disturbs(ins[k])
  {
    if ins != [] { BadIffDisturbed(m, ins[..|ins| - 1], depth); }
  }

  /** A restore held long enough takes exactly as many cycles as the log has entries. */
  lemma {:induction false} RestoreTakesLogLength(m: Undo, ins: seq<MemIn>, depth: nat)
    requires forall k :: 0 <= k < |ins| ==> ins[k].a < |m.ram| && ins[k].restore
    ensures var r := Run(m, ins, depth);
            |r.log| == if |ins| <= |m.log| then |m.log| - |ins| else 0
  {
    if ins != [] {
      RestoreTakesLogLength(m, ins[..|ins| - 1], depth);
    }
  }

  /** The memory model itself: content and log are arrays, updated in place. */
  class UndoMemory {
    const ram: array<Word>
    const log: array<Logged>
    var logN: nat
    var full: bool
    var bad: bool
    ghost const power: seq<Word>

    ghost predicate Valid()
      reads this, ram, log
    {
      logN <= log.Length && Undoable(State(), power, log.Length)
    }

    ghost function State(): Undo
      requires logN <= log.Length
      reads this, ram, log
    {
      Undo(ram[..], log[..logN], full, bad)
    }

    constructor (init: array<Word>, depth: nat)
      ensures Valid() && ram == init && log.Length == depth && power == init[..]
      ensures State() == Undo(init[..], [], false, false) && fresh(log)
    {
      ram := init;
      log := new Logged[depth](_ => Logged(0, []));
      logN, full, bad := 0, false, false;
      power := init[..];
    }

    /** An edge of the memory's own clock. */
    method DutEdge(i: MemIn)
      requires Valid() && i.ce && i.a < ram.Length
      modifies this, ram, log
      ensures Valid() && State() == Step(old(State()), i.(restore := false), log.Length)
      ensures forall x, k :: 0 <= x < ram.Length && 0 <= k < |old(ram[x])| ==>
                && |ram[x]| == |old(ram[x])|
                && ram[x][k] == if x == i.a && k < |i.we| && k < |i.d| && i.we[k] && old(logN) < log.Length
                                then i.d[k] else old(ram[x][k])
    {
      ghost var was := State();
      var changed := NewWord(ram[i.a], i.d, i.we);
      assert changed == Merge(ram[i.a], i.d, i.we);
      if changed != ram[i.a] {
        if logN < log.Length {
          log[logN] := Logged(i.a, ram[i.a]);
          ram[i.a] := changed;
          logN := logN + 1;
          assert State().log == was.log + [Logged(i.a, was.ram[i.a])];
        } else {
          full := true;
        }
      }
      UndoableStep(was, i.(restore := false), power, log.Length);
    }

    /** An edge of the free-running clock while the restore is requested; `i` carries what the
        DUT does on that edge. */
    method RestoreEdge(i: MemIn)
      requires Valid() && i.a < ram.Length
      modifies this, ram
      ensures Valid() && State() == Step(old(State()), i.(restore := true), log.Length)
    {
      ghost var was := State();
      if i.ce && Writes(i.we) { bad := true; }
      if logN != 0 {
        var top := log[logN - 1];
        assert was.log[logN - 1] == top;
        ram[top.a] := top.w;
        logN := logN - 1;
        assert State().log == was.log[..|was.log| - 1];
      } else {
        full := false;
      }
      UndoableStep(was, i.(restore := true), power, log.Length);
    }
  }

  // ---- FILL ---------------------------------------------------------------------------

  /** A memory that is filled with one word, `k` being the next row of every bank. */
  datatype Fill = Fill(ram: seq<Word>, k: nat, done: bool, bad: bool)

  /** The content with row k of every bank filled; a bank has `rows` words. */
  function FillRow(ram: seq<Word>, k: nat, rows: nat, word: Word): (r: seq<Word>)
    requires rows >= 1
  {
    seq(|ram|, x requires 0 <= x < |ram| => if x % rows == k then word else ram[x])
  }

  function FillStep(f: Fill, i: MemIn, rows: nat, word: Word): Fill
    requires i.a < |f.ram| && rows >= 1
  {
    var bad := f.bad || (i.ce && i.restore && Writes(i.we));
    if !i.restore then
      Fill(if i.ce then f.ram[i.a := Merge(f.ram[i.a], i.d, i.we)] else f.ram, 0, false, bad)
    else if f.done then f.(bad := bad)
    else Fill(FillRow(f.ram, f.k, rows, word), if f.k + 1 == rows then f.k else f.k + 1, f.k + 1 == rows, bad)
  }

  /** A DUT write lands on its enabled lanes and nowhere else; a restore cycle fills its row of every
      bank and nothing else. */
  lemma FillEdgeLanes(f: Fill, i: MemIn, rows: nat, word: Word, x: nat, k: nat)
    requires i.a < |f.ram| && rows >= 1 && x < |f.ram| && k < |f.ram[x]| && k < |word|
    ensures var r := FillStep(f, i, rows, word);
            && |r.ram| == |f.ram| && k < |r.ram[x]|
            && (!i.restore ==>
                  r.ram[x][k] == if i.ce && x == i.a && k < |i.we| && k < |i.d| && i.we[k] then i.d[k] else f.ram[x][k])
            && (i.restore ==> r.ram[x][k] == if !f.done && x % rows == f.k then word[k] else f.ram[x][k])
  {
  }

  /** The rows behind `k` are filled, and all of them once it is done. */
  ghost predicate Filling(f: Fill, rows: nat, word: Word) {
    && rows >= 1 && f.k < rows
    && forall x :: 0 <= x < |f.ram| && (f.done || x % rows < f.k) ==> f.ram[x] == word
  }

  lemma FillingStep(f: Fill, i: MemIn, rows: nat, word: Word)
    requires Filling(f, rows, word) && i.a < |f.ram|
    ensures Filling(FillStep(f, i, rows, word), rows, word)
  {
  }

  /** Cycles of a held restore until it is done. */
  function RowsLeft(f: Fill, rows: nat): int { if f.done then 0 else rows - f.k }

  function RunFill(f: Fill, ins: seq<MemIn>, rows: nat, word: Word): (r: Fill)
    requires rows >= 1 && forall k :: 0 <= k < |ins| ==> ins[k].a < |f.ram|
    ensures |r.ram| == |f.ram|
  {
    if ins == [] then f else FillStep(RunFill(f, ins[..|ins| - 1], rows, word), ins[|ins| - 1], rows, word)
  }

  /** A held restore is done after exactly the bank's rows, and then every word is the fill word. */
  lemma {:induction false} FillTakesItsRows(f: Fill, ins: seq<MemIn>, rows: nat, word: Word)
    requires rows >= 1 && f.k == 0 && !f.done
    requires forall k :: 0 <= k < |ins| ==> ins[k].a < |f.ram| && ins[k].restore
    ensures var r := RunFill(f, ins, rows, word);
            && Filling(r, rows, word) && (r.done <==> |ins| >= rows)
            && (r.done ==> forall x :: 0 <= x < |r.ram| ==> r.ram[x] == word)
            && RowsLeft(r, rows) == if |ins| >= rows then 0 else rows - |ins|
  {
    if ins != [] {
      var pre := ins[..|ins| - 1];
      FillTakesItsRows(f, pre, rows, word);
      FillingStep(RunFill(f, pre, rows, word), ins[|ins| - 1], rows, word);
    }
  }

  lemma {:induction false} FillBadIffDisturbed(f: Fill, ins: seq<MemIn>, rows: nat, word: Word)
    requires !f.bad && rows >= 1 && forall k :: 0 <= k < |ins| ==> ins[k].a < |f.ram|
    ensures RunFill(f, ins, rows, word).bad <==> exists k :: 0 <= k < |ins| && Disturbs(ins[k])
  {
    if ins != [] { FillBadIffDisturbed(f, ins[..|ins| - 1], rows, word); }
  }

  /** The memory itself, `banks` groups of `rows` words; the restore fills one row of every bank per
      cycle. */
  class FillMemory {
    const ram: array<Word>
    const banks: nat
    const rows: nat
    const word: Word
    var fillK: nat
    var fillDone: bool
    var bad: bool

    ghost predicate Valid()
      reads this, ram
    {
      banks >= 1 && rows >= 1 && ram.Length == banks * rows && Filling(State(), rows, word)
    }

    ghost function State(): Fill
      reads this, ram
    {
      Fill(ram[..], fillK, fillDone, bad)
    }

    constructor (init: array<Word>, banks: nat, rows: nat, word: Word)
      requires banks >= 1 && rows >= 1 && init.Length == banks * rows
      ensures Valid() && ram == init && State() == Fill(init[..], 0, false, false)
      ensures this.banks == banks && this.rows == rows && this.word == word
    {
      ram := init;
      this.banks, this.rows, this.word := banks, rows, word;
      fillK, fillDone, bad := 0, false, false;
    }

    /** An edge without a restore request: the DUT may write, and the fill starts over. */
    method DutEdge(i: MemIn)
      requires Valid() && i.a < ram.Length
      modifies this, ram
      ensures Valid() && State() == FillStep(old(State()), i.(restore := false), rows, word)
      ensures forall x, k :: 0 <= x < ram.Length && 0 <= k < |old(ram[x])| ==>
                && |ram[x]| == |old(ram[x])|
                && ram[x][k] == if i.ce && x == i.a && k < |i.we| && k < |i.d| && i.we[k]
                                then i.d[k] else old(ram[x][k])
    {
      ghost var was := State();
      if i.ce {
        var changed := NewWord(ram[i.a], i.d, i.we);
        assert changed == Merge(ram[i.a], i.d, i.we);
        ram[i.a] := changed;
      }
      fillK, fillDone := 0, false;
      FillingStep(was, i.(restore := false), rows, word);
    }

    /** One restore cycle; `i` carries what the DUT does on that edge. */
    method RestoreEdge(i: MemIn)
      requires Valid() && i.a < ram.Length
      modifies this, ram
      ensures Valid() && State() == FillStep(old(State()), i.(restore := true), rows, word)
    {
      ghost var was := State();
      FillingStep(was, i.(restore := true), rows, word);
      if i.ce && Writes(i.we) { bad := true; }
      if !fillDone {
        Rows();
        if fillK == rows - 1 { fillDone := true; } else { fillK := fillK + 1; }
      }
    }

    /** The loop over the banks. */
    method Rows()
      requires banks >= 1 && rows >= 1 && ram.Length == banks * rows && fillK < rows
      modifies ram
      ensures ram[..] == FillRow(old(ram[..]), fillK, rows, word)
    {
      for j := 0 to banks
        invariant forall x :: 0 <= x < ram.Length ==>
                    ram[x] == if x % rows == fillK && x / rows < j then word else old(ram[x])
      {
        InBank(j, fillK);
        ghost var at := j * rows + fillK;
        forall x | 0 <= x < ram.Length && x % rows == fillK && x / rows == j ensures x == at {
          assert x == rows * (x / rows) + x % rows;
        }
        ram[j * rows + fillK] := word;
      }
      forall x | 0 <= x < ram.Length ensures x / rows < banks { BankOf(x); }
    }

    /** Word k of bank j. */
    lemma InBank(j: nat, k: nat)
      requires j < banks && k < rows
      ensures j * rows + k < banks * rows && (j * rows + k) / rows == j && (j * rows + k) % rows == k
    {
      MulLess(j, banks, rows);
      DivUnique(j * rows + k, rows, j, k);
    }

    lemma BankOf(x: nat)
      requires rows >= 1 && x < banks * rows
      ensures x / rows < banks
    {
      assert x == rows * (x / rows) + x % rows;
      if x / rows >= banks { MulLeq(banks, x / rows, rows); }
    }
  }
}
