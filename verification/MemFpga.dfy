/** The block-RAM form of a restored memory (fpga/rtl/fi_sram_fpga.v).

    The old word leaves port A one cycle after a write, so this form logs a write one cycle
    late; it is proved to agree with the reference model step by step. A bypass register covers
    the block RAM's late second port; the read data is proved to be the stored word. */
module MemFpga {
  import opened MemRestore
  import Arith

  /** The UNDO bookkeeping and the content. `ra` is port A's read-first output. */
  datatype Fpga = Fpga(
    ram: seq<Word>, ra: Word,
    pend: bool, pendBlk: bool, pendA: nat, pendD: Word, pendBe: seq<bool>,
    log: seq<Logged>, full: bool, bad: bool)

  /** Some enabled byte lane differs. */
  predicate Differs(w: Word, d: Word, we: seq<bool>) {
    exists k :: 0 <= k < |w| && k < |we| && k < |d| && we[k] && d[k] != w[k]
  }

  /** Port A's write, lane by lane. */
  lemma PutLanes(ram: seq<Word>, rows: nat, a: nat, d: Word, we: seq<bool>, x: nat, k: nat)
    requires rows >= 1 && x < |ram| && k < |ram[x]|
    ensures var r := Put(ram, Bytes(a, d, we), rows);
            && |r[x]| == |ram[x]|
            && r[x][k] == if x == a && k < |we| && k < |d| && we[k] then d[k] else ram[x][k]
  {
  }

  lemma DiffersIsMerge(w: Word, d: Word, we: seq<bool>)
    ensures Differs(w, d, we) <==> Merge(w, d, we) != w
  {
  }

  predicate PendChg(f: Fpga) { f.pend && Differs(f.ra, f.pendD, f.pendBe) }

  predicate BlkChg(f: Fpga) { f.pendBlk && Differs(f.ra, f.pendD, f.pendBe) }

  predicate Room(f: Fpga, depth: nat) { |f.log| + (if PendChg(f) then 1 else 0) < depth }

  predicate DutWrite(i: MemIn) { i.ce && !i.restore && Writes(i.we) }

  predicate UndoBack(f: Fpga, i: MemIn) { i.restore && PendChg(f) }

  predicate UndoPop(f: Fpga, i: MemIn) { i.restore && !PendChg(f) && f.log != [] }

  /** What this edge writes into the content. */
  datatype Port = NoWrite | Bytes(a: nat, d: Word, we: seq<bool>) | Whole(a: nat, w: Word) | Row(k: nat, w: Word)

  function PortA(f: Fpga, i: MemIn, depth: nat): Port {
    if UndoBack(f, i) then Whole(f.pendA, f.ra)
    else if UndoPop(f, i) then Whole(f.log[|f.log| - 1].a, f.log[|f.log| - 1].w)
    else if DutWrite(i) && Room(f, depth) then Bytes(i.a, i.d, i.we)
    else NoWrite
  }

  function Put(ram: seq<Word>, p: Port, rows: nat): (r: seq<Word>)
    requires rows >= 1
    ensures |r| == |ram|
  {
    match p
    case NoWrite => ram
    case Bytes(a, d, we) => if a < |ram| then ram[a := Merge(ram[a], d, we)] else ram
    case Whole(a, w) => if a < |ram| then ram[a := w] else ram
    case Row(k, w) => seq(|ram|, x requires 0 <= x < |ram| => if x % rows == k then w else ram[x])
  }

  function Clocked(f: Fpga, i: MemIn, depth: nat): Fpga
    requires i.a < |f.ram|
  {
    var wr := DutWrite(i);
    var addr := match PortA(f, i, depth) case Whole(a, _) => a case _ => i.a;
    var en := UndoBack(f, i) || UndoPop(f, i) || (i.ce && !i.restore);
    Fpga(
      ram := Put(f.ram, PortA(f, i, depth), |f.ram|),
      ra := if en && addr < |f.ram| then f.ram[addr] else f.ra,
      pend := wr && Room(f, depth),
      pendBlk := wr && !Room(f, depth),
      pendA := if wr then i.a else f.pendA,
      pendD := if wr then i.d else f.pendD,
      pendBe := if wr then i.we else f.pendBe,
      log := if !i.restore && PendChg(f) then f.log + [Logged(f.pendA, f.ra)]
             else if UndoPop(f, i) then f.log[..|f.log| - 1] else f.log,
      full := if BlkChg(f) then true else if i.restore && !PendChg(f) && f.log == [] then false else f.full,
      bad := f.bad || (i.ce && i.restore && Writes(i.we)))
  }

  predicate Done(f: Fpga, restore: bool) { restore && f.log == [] && !PendChg(f) }

  /** The reference model this form stands for. */
  function Abstract(f: Fpga): Undo {
    Undo(f.ram, f.log + (if PendChg(f) then [Logged(f.pendA, f.ra)] else []), f.full || BlkChg(f), f.bad)
  }

  ghost predicate Coherent(f: Fpga, depth: nat) {
    && depth >= 1 && f.ram != [] && f.pendA < |f.ram| && !(f.pend && f.pendBlk)
    && LogInRange(Abstract(f)) && |Abstract(f).log| <= depth
    && (f.pend ==> f.ram[f.pendA] == Merge(f.ra, f.pendD, f.pendBe))
    && (f.pendBlk ==> f.ra == f.ram[f.pendA] && |f.log| == depth)
  }

  function PowerOn(power: seq<Word>): Fpga { Fpga(power, [], false, false, 0, [], [], [], false, false) }

  lemma NoWriteNoChange(w: Word, d: Word, we: seq<bool>)
    requires !Writes(we)
    ensures Merge(w, d, we) == w
  {
  }

  lemma RestoreLog(f: Fpga, i: MemIn, depth: nat)
    requires Coherent(f, depth) && i.a < |f.ram| && i.restore
    ensures var n, m := Clocked(f, i, depth), MemRestore.Step(Abstract(f), i, depth);
            Abstract(n).log == n.log == m.log && n.ram == m.ram && !n.pend && !n.pendBlk
  {
  }

  /** A restore edge. */
  lemma RestoreAgrees(f: Fpga, i: MemIn, depth: nat)
    requires Coherent(f, depth) && i.a < |f.ram| && i.restore
    ensures Coherent(Clocked(f, i, depth), depth)
    ensures Abstract(Clocked(f, i, depth)) == MemRestore.Step(Abstract(f), i, depth)
  {
    RestoreLog(f, i, depth);
    RestoreFlags(f, i, depth);
  }

  lemma RestoreFlags(f: Fpga, i: MemIn, depth: nat)
    requires Coherent(f, depth) && i.a < |f.ram| && i.restore
    ensures var n, m := Clocked(f, i, depth), MemRestore.Step(Abstract(f), i, depth);
            n.bad == m.bad && n.full == m.full
  {
  }

  /** A DUT edge: this form's delayed log entry and its room test match the reference. */
  lemma DutAgrees(f: Fpga, i: MemIn, depth: nat)
    requires Coherent(f, depth) && i.a < |f.ram| && !i.restore
    ensures Coherent(Clocked(f, i, depth), depth)
    ensures Abstract(Clocked(f, i, depth)) == MemRestore.Step(Abstract(f), i, depth)
  {
    var w := f.ram[i.a];
    DiffersIsMerge(w, i.d, i.we);
    if !Writes(i.we) { NoWriteNoChange(w, i.d, i.we); }
    var n := Clocked(f, i, depth);
    assert n.log == Abstract(f).log;
    if DutWrite(i) {
      assert n.ra == w && n.pendA == i.a && n.pendD == i.d && n.pendBe == i.we;
      assert Room(f, depth) <==> |Abstract(f).log| < depth;
    }
  }

  function Run(f: Fpga, ins: seq<MemIn>, depth: nat): (r: Fpga)
    requires forall k :: 0 <= k < |ins| ==> ins[k].a < |f.ram|
    ensures |r.ram| == |f.ram|
  {
    if ins == [] then f else Clocked(Run(f, ins[..|ins| - 1], depth), ins[|ins| - 1], depth)
  }

  /** For every sequence of writes and restores the two forms agree after every edge: the same
      content, the same log once the write still being checked is counted, done on the same
      cycle, and abort at the latest one cycle later. */
  lemma {:induction false} AgreesWithReference(power: seq<Word>, ins: seq<MemIn>, depth: nat)
    requires depth >= 1 && power != [] && forall k :: 0 <= k < |ins| ==> ins[k].a < |power|
    ensures var f := Run(PowerOn(power), ins, depth);
            var m := MemRestore.Run(Undo(power, [], false, false), ins, depth);
            && Coherent(f, depth) && Abstract(f) == m && f.ram == m.ram && f.bad == m.bad
            && (forall restore :: Done(f, restore) <==> MemRestore.Done(m, restore))
            && (f.full ==> m.full) && (m.full && !f.full ==> BlkChg(f))
  {
    if ins != [] {
      var pre, i := ins[..|ins| - 1], ins[|ins| - 1];
      AgreesWithReference(power, pre, depth);
      var f := Run(PowerOn(power), pre, depth);
      if i.restore { RestoreAgrees(f, i, depth); } else { DutAgrees(f, i, depth); }
    }
  }

  lemma KeepsCoherent(f: Fpga, i: MemIn, depth: nat)
    requires Coherent(f, depth) && i.a < |f.ram|
    ensures Coherent(Clocked(f, i, depth), depth)
  {
    if i.restore { RestoreAgrees(f, i, depth); } else { DutAgrees(f, i, depth); }
  }

  /** What a DUT edge leaves, lane by lane, the log being counted as the reference does. */
  lemma DutEdgeLanes(f: Fpga, i: MemIn, depth: nat)
    requires Coherent(f, depth) && i.a < |f.ram| && !i.restore
    ensures |Clocked(f, i, depth).ram| == |f.ram|
    ensures forall x, k :: 0 <= x < |f.ram| && 0 <= k < |f.ram[x]| ==>
              && |Clocked(f, i, depth).ram[x]| == |f.ram[x]|
              && Clocked(f, i, depth).ram[x][k] ==
                   if i.ce && x == i.a && k < |i.we| && k < |i.d| && i.we[k] && |Abstract(f).log| < depth
                   then i.d[k] else f.ram[x][k]
  {
    forall x, k | 0 <= x < |f.ram| && 0 <= k < |f.ram[x]|
      ensures && |Clocked(f, i, depth).ram[x]| == |f.ram[x]|
              && Clocked(f, i, depth).ram[x][k] ==
                   if i.ce && x == i.a && k < |i.we| && k < |i.d| && i.we[k] && |Abstract(f).log| < depth
                   then i.d[k] else f.ram[x][k]
    {
      PutLanes(f.ram, |f.ram|, i.a, i.d, i.we, x, k);
    }
  }

  /** The memory itself: content and log are arrays; `r` holds the other registers. */
  class BlockRam {
    const ram: array<Word>
    const log: array<Logged>
    var logN: nat
    var r: Fpga

    ghost predicate Valid()
      reads this, ram, log
    {
      logN <= log.Length && Coherent(State(), log.Length)
    }

    ghost function State(): Fpga
      requires logN <= log.Length
      reads this, ram, log
    {
      r.(ram := ram[..], log := log[..logN])
    }

    constructor (init: array<Word>, depth: nat)
      requires init.Length >= 1 && depth >= 1
      ensures Valid() && State() == PowerOn(init[..]) && ram == init && log.Length == depth && fresh(log)
    {
      ram := init;
      log := new Logged[depth](_ => Logged(0, []));
      logN, r := 0, PowerOn([]);
    }

    /** Port A's write. */
    method Write(i: MemIn, back: bool, pop: bool, put: bool)
      requires logN <= log.Length && i.a < ram.Length && (pop ==> logN > 0)
      modifies ram
      ensures ram[..] == Put(old(ram[..]),
                             if back then Whole(r.pendA, r.ra)
                             else if pop then Whole(log[logN - 1].a, log[logN - 1].w)
                             else if put then Bytes(i.a, i.d, i.we) else NoWrite, 1)
    {
      if back {
        if r.pendA < ram.Length { ram[r.pendA] := r.ra; }
      } else if pop {
        if log[logN - 1].a < ram.Length { ram[log[logN - 1].a] := log[logN - 1].w; }
      } else if put {
        var changed := NewWord(ram[i.a], i.d, i.we);
        assert changed == Merge(ram[i.a], i.d, i.we);
        ram[i.a] := changed;
      }
    }

    /** The delayed log entry, or the entry just undone. */
    method Record(chg: bool, restore: bool, pop: bool)
      requires logN <= log.Length && (!restore && chg ==> logN < log.Length) && (pop ==> logN > 0 && restore)
      modifies this`logN, log
      ensures logN <= log.Length
      ensures log[..logN] == if !restore && chg then old(log[..logN]) + [Logged(r.pendA, r.ra)]
                             else if pop then old(log[..logN])[..old(logN) - 1] else old(log[..logN])
    {
      if !restore && chg {
        log[logN] := Logged(r.pendA, r.ra);
        logN := logN + 1;
      } else if pop {
        logN := logN - 1;
      }
    }

    /** The pending write, the flags and port A's output register. */
    method Registers(i: MemIn) returns (n: Fpga)
      requires Valid() && i.a < ram.Length
      ensures n == Clocked(State(), i, log.Length).(ram := [], log := [])
    {
      var chg := PendChg(r);
      var back, pop, wr := i.restore && chg, i.restore && !chg && logN > 0, DutWrite(i);
      var room := logN + (if chg then 1 else 0) < log.Length;
      var addr := if back then r.pendA else if pop then log[logN - 1].a else i.a;
      var ra := if (back || pop || (i.ce && !i.restore)) && addr < ram.Length then ram[addr] else r.ra;
      var full := if BlkChg(r) then true else if i.restore && !chg && logN == 0 then false else r.full;
      n := Fpga([], ra, wr && room, wr && !room,
                if wr then i.a else r.pendA, if wr then i.d else r.pendD, if wr then i.we else r.pendBe,
                [], full, r.bad || (i.ce && i.restore && Writes(i.we)));
    }

    lemma LogHasRoom()
      requires Valid()
      ensures PendChg(r) ==> logN < log.Length
    {
    }

    method Clock(i: MemIn)
      requires Valid() && i.a < ram.Length
      modifies this, ram, log
      ensures Valid() && State() == Clocked(old(State()), i, log.Length)
    {
      ghost var f := State();
      KeepsCoherent(f, i, log.Length);
      LogHasRoom();
      var n := Registers(i);
      var chg := PendChg(r);
      var pop := i.restore && !chg && logN > 0;
      Write(i, i.restore && chg, pop, DutWrite(i) && logN + (if chg then 1 else 0) < log.Length);
      Record(chg, i.restore, pop);
      r := n;
      assert State() == Clocked(f, i, log.Length);
    }

    /** One edge; of a DUT write the enabled lanes land, if the reference has room. */
    method Tick(i: MemIn)
      requires Valid() && i.a < ram.Length
      modifies this, ram, log
      ensures Valid() && State() == Clocked(old(State()), i, log.Length)
      ensures !i.restore ==>
                forall x, k :: 0 <= x < ram.Length && 0 <= k < |old(ram[x])| ==>
                  && |ram[x]| == |old(ram[x])|
                  && ram[x][k] == if i.ce && x == i.a && k < |i.we| && k < |i.d| && i.we[k]
                                     && |old(Abstract(State()).log)| < log.Length
                                  then i.d[k] else old(ram[x][k])
    {
      ghost var f := State();
      if !i.restore { DutEdgeLanes(f, i, log.Length); }
      Clock(i);
      assert State().ram == ram[..] && f.ram == old(ram[..]);
    }
  }

  // ---- the fill form: banks of block RAM ----------------------------------------------------

  /** Every bank is a block RAM of its own; the fill counter and the flags are common. */
  datatype Banked = Banked(banks: seq<seq<Word>>, k: nat, done: bool, bad: bool)

  ghost predicate Shaped(b: Banked, rows: nat) {
    rows >= 1 && forall j :: 0 <= j < |b.banks| ==> |b.banks[j]| == rows
  }

  /** An address is a bank and a row. */
  lemma Splits(a: nat, n: nat, rows: nat)
    requires rows >= 1 && a < n * rows
    ensures a / rows < n && a % rows < rows && a == (a / rows) * rows + a % rows
  {
    assert a == rows * (a / rows) + a % rows;
    if a / rows >= n { Arith.MulLeq(n, a / rows, rows); }
  }

  /** The banks one behind the other. */
  ghost function Flat(banks: seq<seq<Word>>, rows: nat): (r: seq<Word>)
    requires rows >= 1 && forall j :: 0 <= j < |banks| ==> |banks[j]| == rows
  {
    seq(|banks| * rows, a requires 0 <= a < |banks| * rows => Splits(a, |banks|, rows); banks[a / rows][a % rows])
  }

  /** One edge: the fill writes its row in every bank, a DUT write goes to its own bank. */
  function BankedStep(b: Banked, i: MemIn, rows: nat, word: Word): Banked
    requires rows >= 1
  {
    var fillWr, dutWr := i.restore && !b.done, DutWrite(i);
    var banks := seq(|b.banks|, j requires 0 <= j < |b.banks| =>
      if fillWr && b.k < |b.banks[j]| then b.banks[j][b.k := word]
      else if dutWr && i.a / rows == j && i.a % rows < |b.banks[j]|
      then b.banks[j][i.a % rows := Merge(b.banks[j][i.a % rows], i.d, i.we)]
      else b.banks[j]);
    Banked(banks,
           if !i.restore then 0 else if fillWr && b.k != rows - 1 then b.k + 1 else b.k,
           i.restore && (b.done || b.k == rows - 1),
           b.bad || (i.ce && i.restore && Writes(i.we)))
  }

  ghost function AbstractFill(b: Banked, rows: nat): Fill
    requires Shaped(b, rows)
  {
    Fill(Flat(b.banks, rows), b.k, b.done, b.bad)
  }

  lemma BankedShaped(b: Banked, i: MemIn, rows: nat, word: Word)
    requires Shaped(b, rows)
    ensures Shaped(BankedStep(b, i, rows, word), rows) && |BankedStep(b, i, rows, word).banks| == |b.banks|
  {
  }

  /** What a word becomes: filled, or hit by the DUT's write, or kept. */
  function Chosen(fill: bool, hit: bool, i: MemIn, word: Word, w: Word): Word {
    if fill then word else if hit then Merge(w, i.d, i.we) else w
  }

  /** Row r of bank j after the edge. */
  lemma BankedAt(b: Banked, i: MemIn, rows: nat, word: Word, j: nat, r: nat)
    requires Shaped(b, rows) && j < |b.banks| && r < rows
    ensures Shaped(BankedStep(b, i, rows, word), rows) && |BankedStep(b, i, rows, word).banks| == |b.banks|
    ensures BankedStep(b, i, rows, word).banks[j][r] ==
            Chosen(i.restore && !b.done && r == b.k, DutWrite(i) && i.a / rows == j && i.a % rows == r, i, word,
                   b.banks[j][r])
  {
  }

  /** The reference's word at the same place. */
  lemma FillAt(f: Fill, i: MemIn, rows: nat, word: Word, a: nat)
    requires rows >= 1 && a < |f.ram| && i.a < |f.ram|
    ensures |FillStep(f, i, rows, word).ram| == |f.ram|
    ensures FillStep(f, i, rows, word).ram[a] ==
            Chosen(i.restore && !f.done && a % rows == f.k, DutWrite(i) && i.a == a, i, word, f.ram[a])
  {
    if !Writes(i.we) { NoWriteNoChange(f.ram[i.a], i.d, i.we); }
  }

  lemma FlatAt(banks: seq<seq<Word>>, rows: nat, a: nat)
    requires rows >= 1 && (forall j :: 0 <= j < |banks| ==> |banks[j]| == rows) && a < |banks| * rows
    ensures a / rows < |banks| && a % rows < rows && Flat(banks, rows)[a] == banks[a / rows][a % rows]
  {
    Splits(a, |banks|, rows);
  }

  lemma SamePlace(a: nat, i: nat, rows: nat)
    requires rows >= 1
    ensures i == a <==> i / rows == a / rows && i % rows == a % rows
  {
    assert a == rows * (a / rows) + a % rows && i == rows * (i / rows) + i % rows;
  }

  lemma BankedWord(b: Banked, i: MemIn, rows: nat, word: Word, a: nat)
    requires Shaped(b, rows) && a < |b.banks| * rows && i.a < |b.banks| * rows
    ensures Shaped(BankedStep(b, i, rows, word), rows) && |BankedStep(b, i, rows, word).banks| == |b.banks|
    ensures Flat(BankedStep(b, i, rows, word).banks, rows)[a] ==
            Chosen(i.restore && !b.done && a % rows == b.k, DutWrite(i) && i.a == a, i, word, Flat(b.banks, rows)[a])
  {
    var n := BankedStep(b, i, rows, word);
    FlatAt(b.banks, rows, a);
    BankedAt(b, i, rows, word, a / rows, a % rows);
    FlatAt(n.banks, rows, a);
    SamePlace(a, i.a, rows);
  }

  /** An edge of the banked form is one of the reference, whatever the DUT does on it. */
  lemma FillAgrees(b: Banked, i: MemIn, rows: nat, word: Word)
    requires Shaped(b, rows) && b.k < rows && i.a < |b.banks| * rows
    ensures var n := BankedStep(b, i, rows, word);
            Shaped(n, rows) && n.k < rows && |n.banks| == |b.banks|
            && AbstractFill(n, rows) == FillStep(AbstractFill(b, rows), i, rows, word)
  {
    var n, f := BankedStep(b, i, rows, word), FillStep(AbstractFill(b, rows), i, rows, word);
    BankedShaped(b, i, rows, word);
    forall a | 0 <= a < |b.banks| * rows ensures Flat(n.banks, rows)[a] == f.ram[a] {
      BankedWord(b, i, rows, word, a);
      FillAt(AbstractFill(b, rows), i, rows, word, a);
    }
    assert Flat(n.banks, rows) == f.ram;
  }

  function RunBanked(b: Banked, ins: seq<MemIn>, rows: nat, word: Word): Banked
    requires rows >= 1
  {
    if ins == [] then b else BankedStep(RunBanked(b, ins[..|ins| - 1], rows, word), ins[|ins| - 1], rows, word)
  }

  /** Every run of writes and restores: the banked form and the reference stay the same, so both
      are done on the same cycle and report the same writes as bad. */
  lemma {:induction false} FillAlwaysAgrees(b: Banked, ins: seq<MemIn>, rows: nat, word: Word)
    requires Shaped(b, rows) && b.k < rows && forall k :: 0 <= k < |ins| ==> ins[k].a < |b.banks| * rows
    ensures var n := RunBanked(b, ins, rows, word);
            Shaped(n, rows) && n.k < rows && |n.banks| == |b.banks|
            && AbstractFill(n, rows) == RunFill(AbstractFill(b, rows), ins, rows, word)
  {
    if ins != [] {
      var pre := ins[..|ins| - 1];
      FillAlwaysAgrees(b, pre, rows, word);
      FillAgrees(RunBanked(b, pre, rows, word), ins[|ins| - 1], rows, word);
    }
  }

  /** Port B reads the same row of every bank; the bank register picks the word. */
  lemma {:induction false} BankRead(banks: seq<seq<Word>>, rows: nat, a: nat)
    requires rows >= 1 && (forall j :: 0 <= j < |banks| ==> |banks[j]| == rows) && a < |banks| * rows
    ensures a / rows < |banks| && a % rows < rows
    ensures var rb := seq(|banks|, j requires 0 <= j < |banks| => banks[j][a % rows]);
            rb[a / rows] == Flat(banks, rows)[a]
  {
    Splits(a, |banks|, rows);
  }

  // ---- the read port --------------------------------------------------------------------

  /** The read address register, the bypass and port B's output register. */
  datatype Reader = Reader(addr: nat, bypV: bool, bypW: Word, rb: Word)

  /** `rd` loads the address register from `a`; `clr` sends it to 0 (RESTORE_CLEARS_ADDR). */
  datatype ReadIn = ReadIn(rd: bool, a: nat, clr: bool)

  function Q(r: Reader): Word { if r.bypV then r.bypW else r.rb }

  function NextAddr(r: Reader, i: ReadIn): nat { if i.rd then i.a else if i.clr then 0 else r.addr }

  /** This edge writes the word the address register will point to, and what it writes. */
  predicate Hits(r: Reader, i: ReadIn, p: Port, rows: nat)
    requires rows >= 1
  {
    match p
    case NoWrite => false
    case Bytes(a, _, _) => a == NextAddr(r, i)
    case Whole(a, _) => a == NextAddr(r, i)
    case Row(k, _) => NextAddr(r, i) % rows == k
  }

  function HitWord(r: Reader, p: Port): Word {
    match p
    case NoWrite => []
    case Bytes(_, d, we) => Merge(Q(r), d, we)
    case Whole(_, w) => w
    case Row(_, w) => w
  }

  function ReadStep(r: Reader, i: ReadIn, ram: seq<Word>, p: Port, rows: nat): Reader
    requires rows >= 1 && NextAddr(r, i) < |ram|
  {
    var load := i.rd || i.clr;
    Reader(
      addr := NextAddr(r, i),
      bypV := Hits(r, i, p, rows) || (!load && r.bypV),
      bypW := if Hits(r, i, p, rows) then HitWord(r, p) else r.bypW,
      rb := if load then ram[NextAddr(r, i)] else r.rb)
  }

  predicate Shows(r: Reader, ram: seq<Word>) { r.addr < |ram| && Q(r) == ram[r.addr] }

  /** The read data is the stored word at the address register after every edge, through DUT
      writes, undo writes, fill writes and address clears, as long as a read and a DUT write
      never share an edge. The first load establishes it; nothing later breaks it. */
  lemma ReadsTheStoredWord(r: Reader, i: ReadIn, ram: seq<Word>, p: Port, rows: nat)
    requires rows >= 1 && NextAddr(r, i) < |ram|
    requires Shows(r, ram) || i.rd || i.clr
    requires p.Bytes? ==> !i.rd && !i.clr
    ensures Shows(ReadStep(r, i, ram, p, rows), Put(ram, p, rows))
  {
  }

  /** Read data that is the stored word stays so under a DUT write: its enabled lanes are the data's if the
      write goes to the word being read, and all lanes stay otherwise. */
  lemma ReadsTheLanes(r: Reader, addr: nat, ram: seq<Word>, a: nat, d: Word, we: seq<bool>, rows: nat, k: nat)
    requires rows >= 1 && Shows(r, ram) && k < |Q(r)|
    ensures var n := ReadStep(r, ReadIn(false, addr, false), ram, Bytes(a, d, we), rows);
            && n.addr == r.addr && |Q(n)| == |Q(r)|
            && Q(n)[k] == if a == r.addr && k < |we| && k < |d| && we[k] then d[k] else Q(r)[k]
  {
  }

  datatype Access = Access(i: ReadIn, p: Port)

  /** The read port and the content after a run of accesses, and whether any of them loaded the
      address register. */
  datatype Session = Session(r: Reader, ram: seq<Word>, loaded: bool)

  ghost predicate InRange(xs: seq<Access>, size: nat) { forall k :: 0 <= k < |xs| ==> xs[k].i.a < size }

  function Reads(ram: seq<Word>, rows: nat, xs: seq<Access>): (s: Session)
    requires rows >= 1 && |ram| >= 1 && InRange(xs, |ram|)
    ensures s.r.addr < |ram| == |s.ram|
  {
    if xs == [] then Session(Reader(0, false, [], []), ram, false)
    else
      var s, x := Reads(ram, rows, xs[..|xs| - 1]), xs[|xs| - 1];
      Session(ReadStep(s.r, x.i, s.ram, x.p, rows), Put(s.ram, x.p, rows), s.loaded || x.i.rd || x.i.clr)
  }

  /** The address read last; a clear that shares an edge with a read does not count. */
  function LastRead(xs: seq<Access>): nat {
    if xs == [] then 0
    else var i := xs[|xs| - 1].i; if i.rd then i.a else if i.clr then 0 else LastRead(xs[..|xs| - 1])
  }

  /** From the first read on, after every edge of every run in which a read and a DUT write never
      share an edge, the read data is the stored word at the address read last. */
  lemma {:induction false} AlwaysReadsTheStoredWord(ram: seq<Word>, rows: nat, xs: seq<Access>)
    requires rows >= 1 && |ram| >= 1 && InRange(xs, |ram|)
    requires forall k :: 0 <= k < |xs| && xs[k].p.Bytes? ==> !xs[k].i.rd && !xs[k].i.clr
    ensures var s := Reads(ram, rows, xs);
            s.r.addr == LastRead(xs) && (s.loaded ==> Shows(s.r, s.ram) && Q(s.r) == s.ram[LastRead(xs)])
  {
    if xs != [] {
      AlwaysReadsTheStoredWord(ram, rows, xs[..|xs| - 1]);
      var s, x := Reads(ram, rows, xs[..|xs| - 1]), xs[|xs| - 1];
      if s.loaded || x.i.rd || x.i.clr { ReadsTheStoredWord(s.r, x.i, s.ram, x.p, rows); }
    }
  }

  /** The condition is needed: a read of the very word a DUT write changes on the same edge
      shows a mixture with the previously read word. */
  lemma SharedEdgeReadsWrong()
    ensures var r, ram := Reader(0, false, [], [7, 7]), [[7, 7], [1, 2]];
            var i, p := ReadIn(true, 1, false), Bytes(1, [9, 9], [true, false]);
            Shows(r, ram) && !Shows(ReadStep(r, i, ram, p, 2), Put(ram, p, 2))
  {
  }
}
