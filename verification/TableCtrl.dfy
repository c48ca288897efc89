/** The FI Table Controller (rtl/fi_table_ctrl.v): it streams table entries through
    a small lookahead towards the Scan Controller.

    The specification state keeps the lookahead as a queue; `Controller` keeps it as
    the source does, a shift register of index and valid bits filled in place, and
    its `Tick` is proved to act as the queue. */
module TableCtrl {

  /** One FI_Entry, split into its fields. */
  datatype Entry = Entry(eop: bool, off: nat, idx: nat)

  datatype Table = Table(
    ptr: nat, la: seq<nat>, fillArmed: bool, eop: bool, offset: nat,
    rstQ: bool, exhausted: bool, malformed: bool)

  datatype TableIn = TableIn(
    resolverRst: bool, batchStart: bool, tblLen: nat, done: bool,
    word: Entry, pop: bool)

  const POWER_ON := Table(0, [], false, false, 0, false, false, false)

  function Min(a: int, b: int): int { if a < b then a else b }

  predicate AtEnd(t: Table, words: nat, tblLen: nat) { t.ptr >= Min(tblLen, words) }

  predicate Pops(t: Table, i: TableIn) { i.pop && t.la != [] }

  predicate Pushes(t: Table, i: TableIn, depth: nat, words: nat) {
    t.fillArmed && !t.eop && !AtEnd(t, words, i.tblLen) && !t.exhausted
    && (|t.la| < depth || Pops(t, i))
  }

  /** The table ran out before an EOP entry. */
  predicate RunsDry(t: Table, i: TableIn, words: nat) {
    t.fillArmed && !t.eop && AtEnd(t, words, i.tblLen) && !t.exhausted
  }

  /** entry_ready_o: enough of the pattern is in hand to start a pass. */
  predicate Ready(t: Table, depth: nat, words: nat, tblLen: nat) {
    t.la != [] && (t.eop || |t.la| == depth || AtEnd(t, words, tblLen))
  }

  /** Every register after one rising edge. */
  function Step(t: Table, i: TableIn, depth: nat, words: nat): Table {
    var push, dry := Pushes(t, i, depth, words), RunsDry(t, i, words);
    var clear := i.resolverRst || i.batchStart;
    var act := !i.resolverRst;
    Table(
      ptr := if i.batchStart then 0 else if act && push then t.ptr + 1 else t.ptr,
      la := if clear then []
            else (if Pops(t, i) then t.la[1..] else t.la) + (if push then [i.word.idx] else []),
      fillArmed := !clear && (t.fillArmed || t.rstQ),
      eop := !clear && (t.eop || (push && i.word.eop) || dry),
      offset := if i.batchStart || (act && dry) then 0
                else if act && push && i.word.eop then i.word.off else t.offset,
      rstQ := i.resolverRst,
      exhausted := !i.batchStart && (t.exhausted || (act && i.done && AtEnd(t, words, i.tblLen))),
      malformed := !i.batchStart && (t.malformed || (act && dry)))
  }

  /** The clocked block for everything outside the lookahead, in source order. */
  method Registers(t: Table, i: TableIn, depth: nat, words: nat) returns (n: Table)
    ensures n == Step(t, i, depth, words).(la := [])
  {
    var push, dry := Pushes(t, i, depth, words), RunsDry(t, i, words);
    var ptr, armed, eop, off, exh, mal := t.ptr, t.fillArmed, t.eop, t.offset, t.exhausted, t.malformed;
    if i.resolverRst {
      armed, eop := false, false;
    } else {
      if t.rstQ { armed := true; }
      if push {
        ptr := t.ptr + 1;
        if i.word.eop { off, eop := i.word.off, true; }
      }
      if dry { mal, eop, off := true, true, 0; }
      if i.done && AtEnd(t, words, i.tblLen) { exh := true; }
    }
    if i.batchStart {
      ptr, armed, eop, off, exh, mal := 0, false, false, 0, false, false;
    }
    n := Table(ptr, [], armed, eop, off, i.resolverRst, exh, mal);
  }

  class Controller {
    const depth: nat
    const words: nat
    const laIndex: array<nat>
    const laVld: array<bool>
    var laCnt: nat
    /** The registers outside the lookahead; its own queue field stays empty. */
    var r: Table

    ghost predicate Valid()
      reads this, laIndex, laVld
    {
      2 <= depth && laIndex.Length == depth && laVld.Length == depth && laCnt <= depth
      && forall k :: 0 <= k < depth ==> laVld[k] == (k < laCnt)
    }

    function State(): Table
      requires laCnt <= laIndex.Length
      reads this, laIndex
    {
      r.(la := laIndex[..laCnt])
    }

    constructor (depth: nat, words: nat)
      requires 2 <= depth
      ensures Valid() && State() == POWER_ON && fresh(laIndex) && fresh(laVld)
      ensures this.depth == depth && this.words == words
    {
      this.depth, this.words := depth, words;
      laIndex := new nat[depth](_ => 0);
      laVld := new bool[depth](_ => false);
      laCnt, r := 0, POWER_ON;
    }

    method ClearValid()
      requires laVld.Length == depth
      modifies laVld
      ensures forall k :: 0 <= k < depth ==> !laVld[k]
    {
      for i := 0 to depth
        invariant forall k :: 0 <= k < i ==> !laVld[k]
      {
        laVld[i] := false;
      }
    }

    /** Every slot takes the one behind it. */
    method ShiftDown()
      requires Valid() && laCnt > 0
      modifies laIndex, laVld
      ensures laIndex[..laCnt - 1] == old(laIndex[1..laCnt])
      ensures forall k :: 0 <= k < depth ==> laVld[k] == (k < laCnt - 1)
    {
      for i := 0 to depth - 1
        invariant forall k :: 0 <= k < i ==> laIndex[k] == old(laIndex[k + 1]) && laVld[k] == (k < laCnt - 1)
        invariant forall k :: i <= k < depth ==> laIndex[k] == old(laIndex[k]) && laVld[k] == (k < laCnt)
      {
        laIndex[i] := laIndex[i + 1];
        laVld[i] := laVld[i + 1];
      }
      laVld[depth - 1] := false;
    }

    /** The first free slot takes the index. */
    method Insert(slot: nat, index: nat)
      requires Valid() && slot < depth && slot <= laCnt
      modifies laIndex, laVld
      ensures laIndex[..slot + 1] == old(laIndex[..slot]) + [index]
      ensures forall k :: 0 <= k < depth ==> laVld[k] == (k == slot || old(laVld[k]))
    {
      laIndex[slot] := index;
      laVld[slot] := true;
    }

    method PopFirst()
      requires Valid() && laCnt > 0
      modifies `laCnt, laIndex, laVld
      ensures Valid() && laCnt == old(laCnt) - 1 && laIndex[..laCnt] == old(laIndex[1..laCnt]) && r == old(r)
    {
      ShiftDown();
      laCnt := laCnt - 1;
    }

    method PushLast(index: nat)
      requires Valid() && laCnt < depth
      modifies `laCnt, laIndex, laVld
      ensures Valid() && laIndex[..laCnt] == old(laIndex[..laCnt]) + [index] && r == old(r)
    {
      Insert(laCnt, index);
      laCnt := laCnt + 1;
    }

    /** The lookahead: shift on a pop, insert on a push. */
    method MoveLookahead(pop: bool, push: bool, index: nat)
      requires Valid() && (pop ==> laCnt > 0) && (push ==> pop || laCnt < depth)
      modifies `laCnt, laIndex, laVld
      ensures Valid()
      ensures laIndex[..laCnt] == old(laIndex[if pop then 1 else 0..laCnt]) + if push then [index] else []
      ensures r == old(r)
    {
      if pop { PopFirst(); }
      if push { PushLast(index); }
    }

    method Tick(i: TableIn)
      requires Valid()
      modifies this, laIndex, laVld
      ensures Valid()
      ensures State() == Step(old(State()), i, depth, words)
    {
      var t := State();
      var pop, push := Pops(t, i), Pushes(t, i, depth, words);
      if i.resolverRst || i.batchStart {
        laCnt := 0;
        ClearValid();
      } else {
        MoveLookahead(pop, push, i.word.idx);
      }
      r := Registers(t, i, depth, words);
    }
  }
}
