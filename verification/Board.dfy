/** The board's byte sequencer (fpga/rtl/fi_board_uart.v): a record in front of every trial, the
    DUT's bytes behind it, escaped, one push per cycle while the FIFO has room. */
module Board {
  import opened Slip

  datatype Seq = Seq(
    trial: nat, cyc: nat, fAbort: bool, fLost: bool,
    recGo: bool, rec: seq<nat>, rp: nat, esc: bool, escB: nat,
    dbuf: nat, dbufV: bool, push: bool, pushD: nat)

  /** One edge: the FIFO's flag, a trial start, a byte the decoder completed inside the trial's
      window, a memory's abort. */
  datatype Byte = NoByte | Byte(x: nat)
  datatype In = In(full: bool, start: bool, obs: Byte, abort: bool)

  const ZEROS: seq<nat> := [0, 0, 0, 0, 0, 0, 0, 0, 0]

  const POWER_ON := Seq(0, 0, false, false, false, ZEROS, 0, false, 0, 0, false, false, 0)

  predicate Valid(s: Seq) {
    && s.trial < 0x1_0000 && s.cyc < 0x1_0000_0000 && |s.rec| == 9 && s.dbuf < 0x100
    && (s.recGo ==> s.rp <= 8)
  }

  predicate ByteOk(i: In) { i.obs.Byte? ==> i.obs.x < 0x100 }

  /** The sequencer sends dbuf on this edge. */
  predicate TakesByte(s: Seq, i: In) { !i.full && !s.esc && !s.recGo && s.dbufV }

  /** The sequencer sends a record byte on this edge. */
  predicate TakesRec(s: Seq, i: In) { !i.full && !s.esc && s.recGo }

  predicate Drops(s: Seq, i: In) { i.obs.Byte? && s.dbufV && !TakesByte(s, i) }

  predicate Accepts(s: Seq, i: In) { i.obs.Byte? && !Drops(s, i) }

  /** A trial start whose record is taken up; otherwise the previous one is still going out. */
  predicate Opens(s: Seq, i: In) { i.start && !s.recGo }

  function Flags(s: Seq, i: In): nat { (if s.fLost then 2 else 0) + if s.fAbort || i.abort then 1 else 0 }

  function NewRecord(s: Seq, i: In): Item { Record(s.trial, s.cyc, Flags(s, i)) }

  /** The byte the sequencer looks at; the record's first one is never escaped. */
  function Current(s: Seq): nat
    requires Valid(s)
  {
    if s.recGo then s.rec[s.rp] else s.dbuf
  }

  predicate Splits(s: Seq, i: In)
    requires Valid(s)
  {
    (TakesRec(s, i) && s.rp != 0 && Special(s.rec[s.rp])) || (TakesByte(s, i) && Special(s.dbuf))
  }

  /** Every register after one clock edge. */
  function Step(s: Seq, i: In): Seq
    requires Valid(s)
  {
    var opens := Opens(s, i);
    Seq(
      trial := if i.start then (s.trial + 1) % 0x1_0000 else s.trial,
      cyc := if i.start then 1 else (s.cyc + 1) % 0x1_0000_0000,
      fAbort := !opens && (s.fAbort || i.abort),
      fLost := !opens && (s.fLost || Drops(s, i) || i.start),
      recGo := opens || (s.recGo && !(TakesRec(s, i) && s.rp == 8)),
      rec := if opens then [0xC0] + Body(NewRecord(s, i)) else s.rec,
      rp := if opens then 0 else if TakesRec(s, i) then s.rp + 1 else s.rp,
      esc := Splits(s, i) || (s.esc && i.full),
      escB := if Splits(s, i) then (if Current(s) == 0xC0 then 0xDC else 0xDD) else s.escB,
      dbuf := if Accepts(s, i) then i.obs.x else s.dbuf,
      dbufV := Accepts(s, i) || (s.dbufV && !TakesByte(s, i)),
      push := !i.full && (s.esc || s.recGo || s.dbufV),
      pushD := if i.full then s.pushD else if s.esc then s.escB
               else if !s.recGo && !s.dbufV then s.pushD
               else if Splits(s, i) then 0xDB else Current(s))
  }

  /** The clocked block in the source's order: the byte from the decoder. */
  method Buffer(s: Seq, i: In) returns (dbuf: nat, dbufV: bool, lost: bool)
    requires Valid(s)
    ensures dbuf == (if Accepts(s, i) then i.obs.x else s.dbuf)
    ensures dbufV == (Accepts(s, i) || (s.dbufV && !TakesByte(s, i))) && lost == Drops(s, i)
  {
    dbuf, dbufV, lost := s.dbuf, s.dbufV, false;
    var taken := TakesByte(s, i);
    if i.obs.Byte? {
      if s.dbufV && !taken { lost := true; } else { dbuf, dbufV := i.obs.x, true; }
    } else if taken {
      dbufV := false;
    }
  }

  /** The trial boundary. */
  method Boundary(s: Seq, i: In, lost: bool) returns (trial: nat, cyc: nat, fAbort: bool, fLost: bool, rec: seq<nat>)
    requires Valid(s) && lost == Drops(s, i)
    ensures var n := Step(s, i);
            trial == n.trial && cyc == n.cyc && fAbort == n.fAbort && fLost == n.fLost && rec == n.rec
  {
    trial, cyc, fAbort, fLost, rec := s.trial, (s.cyc + 1) % 0x1_0000_0000, s.fAbort, s.fLost || lost, s.rec;
    if i.abort { fAbort := true; }
    if i.start {
      if s.recGo {
        fLost := true;
      } else {
        rec := [0xC0] + Body(Record(s.trial, s.cyc, (if s.fLost then 2 else 0) + if s.fAbort || i.abort then 1 else 0));
        fAbort, fLost := false, false;
      }
      trial, cyc := (s.trial + 1) % 0x1_0000, 1;
    }
  }

  /** One push per cycle: the second half of an escape, a record byte, or the DUT's byte. */
  method Sequence(s: Seq, i: In) returns (recGo: bool, rp: nat, esc: bool, escB: nat, push: bool, pushD: nat)
    requires Valid(s)
    ensures var n := Step(s, i);
            recGo == n.recGo && rp == n.rp && esc == n.esc && escB == n.escB && push == n.push && pushD == n.pushD
  {
    recGo, rp, esc, escB, push, pushD := s.recGo, s.rp, s.esc, s.escB, false, s.pushD;
    if i.start && !s.recGo { recGo, rp := true, 0; }
    if !i.full {
      if s.esc {
        push, pushD, esc := true, s.escB, false;
      } else if s.recGo {
        push := true;
        var cur := s.rec[s.rp];
        if s.rp != 0 && Special(cur) {
          pushD, esc, escB := 0xDB, true, if cur == 0xC0 then 0xDC else 0xDD;
        } else {
          pushD := cur;
        }
        if s.rp == 8 { recGo := false; }
        rp := s.rp + 1;
      } else if s.dbufV {
        push := true;
        if Special(s.dbuf) {
          pushD, esc, escB := 0xDB, true, if s.dbuf == 0xC0 then 0xDC else 0xDD;
        } else {
          pushD := s.dbuf;
        }
      }
    }
  }

  // ---- what is on its way ---------------------------------------------------------------------------

  /** What is left of a record from byte p on. */
  function Tail(rec: seq<nat>, p: nat): seq<nat>
    requires p <= |rec|
  {
    if p == 0 && |rec| > 0 then [rec[0]] + EscapeAll(rec[1..]) else EscapeAll(rec[p..])
  }

  /** What the sequencer holds, in the order it will send it. */
  function Pending(s: Seq): seq<nat>
    requires Valid(s)
  {
    (if s.esc then [s.escB] else []) + (if s.recGo then Tail(s.rec, s.rp) else [])
    + if s.dbufV then Escape(s.dbuf) else []
  }

  /** The byte put into the push register on this edge. */
  function Pushed(s: Seq, i: In): seq<nat>
    requires Valid(s)
  {
    if Step(s, i).push then [Step(s, i).pushD] else []
  }

  /** The items accepted so far. A byte still waiting when a record is taken up goes behind it. */
  function Extend(items: seq<Item>, s: Seq, i: In): seq<Item>
    requires Valid(s)
  {
    var waits := s.dbufV && !TakesByte(s, i) && items != [];
    var a := if !Opens(s, i) then items
             else if waits then items[..|items| - 1] + [NewRecord(s, i)] + [items[|items| - 1]]
             else items + [NewRecord(s, i)];
    if Accepts(s, i) then a + [Data(i.obs.x)] else a
  }

  datatype Log = Log(s: Seq, sent: seq<nat>, items: seq<Item>)

  function Watch(l: Log, i: In): Log
    requires Valid(l.s)
  {
    Log(Step(l.s, i), l.sent + Pushed(l.s, i), Extend(l.items, l.s, i))
  }

  /** Everything accepted is on the wire or on its way, in order. */
  ghost predicate Faithful(l: Log) {
    && Valid(l.s) && AllFit(l.items)
    && (l.s.dbufV ==> l.items != [] && l.items[|l.items| - 1] == Data(l.s.dbuf))
    && l.sent + Pending(l.s) == WireAll(l.items)
  }

  // ---- the invariant ----------------------------------------------------------------------------------

  function EscLeft(s: Seq, i: In): seq<nat>
    requires Valid(s)
  {
    if Step(s, i).esc then [Step(s, i).escB] else []
  }

  function RecLeft(s: Seq, i: In): seq<nat>
    requires Valid(s)
  {
    if !s.recGo then [] else Tail(s.rec, if TakesRec(s, i) then s.rp + 1 else s.rp)
  }

  function ByteLeft(s: Seq, i: In): seq<nat> { if s.dbufV && !TakesByte(s, i) then Escape(s.dbuf) else [] }

  lemma TailStep(rec: seq<nat>, p: nat)
    requires p < |rec|
    ensures Tail(rec, p) == (if p == 0 then [rec[0]] else Escape(rec[p])) + Tail(rec, p + 1)
  {
  }

  /** The edge sends the front of what is pending and keeps the rest. */
  lemma Drains(s: Seq, i: In)
    requires Valid(s)
    ensures Pushed(s, i) + EscLeft(s, i) + RecLeft(s, i) + ByteLeft(s, i) == Pending(s)
  {
    if TakesRec(s, i) { TailStep(s.rec, s.rp); }
  }

  /** A record opens only behind a finished one, a byte is accepted only behind a taken one. */
  lemma OneAtATime(s: Seq, i: In)
    requires Valid(s)
    ensures RecLeft(s, i) == [] || NewWire(s, i) == []
    ensures ByteLeft(s, i) == [] || NewByte(s, i) == []
  {
  }

  lemma GathersRecord(s: Seq, i: In)
    requires Valid(s) && ByteOk(i)
    ensures Valid(Step(s, i))
    ensures var n := Step(s, i); (if n.recGo then Tail(n.rec, n.rp) else []) == RecLeft(s, i) + NewWire(s, i)
  {
  }

  lemma GathersByte(s: Seq, i: In)
    requires Valid(s)
    ensures var n := Step(s, i); (if n.dbufV then Escape(n.dbuf) else []) == ByteLeft(s, i) + NewByte(s, i)
  {
  }

  /** What is pending afterwards. */
  lemma Gathers(s: Seq, i: In)
    requires Valid(s) && ByteOk(i)
    ensures Valid(Step(s, i))
    ensures Pending(Step(s, i)) == EscLeft(s, i) + (RecLeft(s, i) + NewWire(s, i)) + (ByteLeft(s, i) + NewByte(s, i))
  {
    GathersRecord(s, i);
    GathersByte(s, i);
  }

  lemma WireSnoc(items: seq<Item>, x: Item)
    ensures WireAll(items + [x]) == WireAll(items) + Wire(x)
  {
  }

  /** The items in front of a byte that is still waiting. */
  function Ahead(items: seq<Item>, s: Seq, i: In): seq<Item> {
    if s.dbufV && !TakesByte(s, i) && items != [] then items[..|items| - 1] else items
  }

  lemma AheadWire(l: Log, i: In)
    requires Faithful(l)
    ensures WireAll(l.items) == WireAll(Ahead(l.items, l.s, i)) + ByteLeft(l.s, i)
  {
  }

  function NewWire(s: Seq, i: In): seq<nat> { if Opens(s, i) then Wire(NewRecord(s, i)) else [] }

  function NewByte(s: Seq, i: In): seq<nat> { if Accepts(s, i) then Escape(i.obs.x) else [] }

  lemma OpenedWire(l: Log, i: In)
    requires Faithful(l) && Opens(l.s, i)
    ensures WireAll(Extend(l.items, l.s, i.(obs := NoByte)))
            == WireAll(Ahead(l.items, l.s, i)) + NewWire(l.s, i) + ByteLeft(l.s, i)
  {
    var init, r := Ahead(l.items, l.s, i), NewRecord(l.s, i);
    WireSnoc(init, r);
    if l.s.dbufV && !TakesByte(l.s, i) {
      WireSnoc(init + [r], l.items[|l.items| - 1]);
    }
  }

  lemma AcceptedWire(items: seq<Item>, s: Seq, i: In)
    requires Valid(s)
    ensures WireAll(Extend(items, s, i)) == WireAll(Extend(items, s, i.(obs := NoByte))) + NewByte(s, i)
  {
  }

  /** The wire of the extended items. */
  lemma Extends(l: Log, i: In)
    requires Faithful(l)
    ensures WireAll(Extend(l.items, l.s, i))
            == WireAll(Ahead(l.items, l.s, i)) + NewWire(l.s, i) + ByteLeft(l.s, i) + NewByte(l.s, i)
  {
    AcceptedWire(l.items, l.s, i);
    if Opens(l.s, i) {
      OpenedWire(l, i);
    } else {
      AheadWire(l, i);
      assert Extend(l.items, l.s, i.(obs := NoByte)) == l.items;
    }
  }

  /** Appending behind what is pending is appending to the wire. */
  lemma Splice(sent: seq<nat>, p: seq<nat>, e: seq<nat>, r: seq<nat>, b: seq<nat>, ahead: seq<nat>,
               rec: seq<nat>, x: seq<nat>)
    requires sent + (p + e + r + b) == ahead + b && (b == [] || x == []) && (r == [] || rec == [])
    ensures sent + p + (e + (r + rec) + (b + x)) == ahead + rec + b + x
  {
    assert sent + (p + e + r + b) == (sent + p + e + r) + b;
    assert sent + p + e + r == ahead by {
      assert |sent + p + e + r| == |ahead|;
      assert (sent + p + e + r) == ((sent + p + e + r) + b)[..|ahead|];
      assert ahead == (ahead + b)[..|ahead|];
    }
    assert sent + p + (e + (r + rec) + (b + x)) == (sent + p + e + r) + (rec + (b + x));
  }

  lemma ItemsKeep(l: Log, i: In)
    requires Faithful(l) && ByteOk(i)
    ensures AllFit(Extend(l.items, l.s, i))
    ensures var n, items := Step(l.s, i), Extend(l.items, l.s, i);
            n.dbufV ==> items != [] && items[|items| - 1] == Data(n.dbuf)
  {
  }

  lemma WireKeeps(l: Log, i: In)
    requires Faithful(l) && ByteOk(i)
    ensures l.sent + Pushed(l.s, i) + Pending(Step(l.s, i)) == WireAll(Extend(l.items, l.s, i))
  {
    Drains(l.s, i);
    Gathers(l.s, i);
    Extends(l, i);
    AheadWire(l, i);
    OneAtATime(l.s, i);
    SpliceAll(l.sent, Pushed(l.s, i), EscLeft(l.s, i), RecLeft(l.s, i), ByteLeft(l.s, i),
              WireAll(Ahead(l.items, l.s, i)), NewWire(l.s, i), NewByte(l.s, i),
              Pending(l.s), Pending(Step(l.s, i)), WireAll(l.items), WireAll(Extend(l.items, l.s, i)));
  }

  lemma SpliceAll(sent: seq<nat>, p: seq<nat>, e: seq<nat>, r: seq<nat>, b: seq<nat>, ahead: seq<nat>,
                  rec: seq<nat>, x: seq<nat>, pend: seq<nat>, pend': seq<nat>, w: seq<nat>, w': seq<nat>)
    requires pend == p + e + r + b && pend' == e + (r + rec) + (b + x)
    requires w == ahead + b && w' == ahead + rec + b + x && sent + pend == w
    requires (b == [] || x == []) && (r == [] || rec == [])
    ensures sent + p + pend' == w'
  {
    Splice(sent, p, e, r, b, ahead, rec, x);
  }

  lemma WatchKeeps(l: Log, i: In)
    requires Faithful(l) && ByteOk(i)
    ensures Faithful(Watch(l, i))
  {
    Gathers(l.s, i);
    ItemsKeep(l, i);
    WireKeeps(l, i);
  }

  // ---- every run --------------------------------------------------------------------------------------

  ghost predicate Bytes(ins: seq<In>) { forall k :: 0 <= k < |ins| ==> ByteOk(ins[k]) }

  ghost function Run(ins: seq<In>): (l: Log)
    requires Bytes(ins)
    ensures Faithful(l)
  {
    if ins == [] then Log(POWER_ON, [], [])
    else
      var l := Run(ins[..|ins| - 1]);
      WatchKeeps(l, ins[|ins| - 1]);
      Watch(l, ins[|ins| - 1])
  }

  /** In every run, whatever the FIFO does: what has been pushed and what is still held decodes to
      exactly the accepted records and bytes. */
  lemma {:induction false} StreamDecodes(ins: seq<In>)
    requires Bytes(ins)
    ensures var l := Run(ins);
            FeedAll(EMPTY, l.sent + Pending(l.s)) == Reading(Runs(l.items), false, NoRec)
  {
    DecodesTheWire(Run(ins).items);
  }

  /** What really happened: trial starts with the cycles between them, bytes in the windows. */
  datatype Truth = Truth(starts: nat, since: nat, aborted: bool, missed: bool, events: seq<Item>, bytes: seq<nat>)

  function TrueRecord(t: Truth, i: In): Item {
    Record(t.starts % 0x1_0000, t.since % 0x1_0000_0000,
           (if t.missed then 2 else 0) + if t.aborted || i.abort then 1 else 0)
  }

  /** `missed`: a byte or a record has been refused since the last record taken up. */
  function Happens(t: Truth, s: Seq, i: In): Truth {
    Truth(
      starts := if i.start then t.starts + 1 else t.starts,
      since := if i.start then 1 else t.since + 1,
      aborted := !Opens(s, i) && (t.aborted || i.abort),
      missed := if Opens(s, i) then Drops(s, i) else t.missed || Drops(s, i) || i.start,
      events := t.events + (if i.start then [TrueRecord(t, i)] else [])
                + match i.obs case NoByte => [] case Byte(x) => [Data(x)],
      bytes := if Accepts(s, i) then t.bytes + [i.obs.x] else t.bytes)
  }

  ghost function History(ins: seq<In>): Truth
    requires Bytes(ins)
  {
    if ins == [] then Truth(0, 0, false, false, [], [])
    else Happens(History(ins[..|ins| - 1]), Run(ins[..|ins| - 1]).s, ins[|ins| - 1])
  }

  /** No byte is refused on the edge a record is taken up. */
  predicate Quiet(s: Seq, i: In) { !(Opens(s, i) && Drops(s, i)) }

  /** Nothing is refused, and a trial start finds no byte waiting. */
  predicate Calm(s: Seq, i: In) {
    !Drops(s, i) && (i.start ==> !s.recGo && (!s.dbufV || TakesByte(s, i)))
  }

  ghost predicate AlwaysQuiet(ins: seq<In>)
    requires Bytes(ins)
  {
    ins == [] || (AlwaysQuiet(ins[..|ins| - 1]) && Quiet(Run(ins[..|ins| - 1]).s, ins[|ins| - 1]))
  }

  ghost predicate AlwaysCalm(ins: seq<In>)
    requires Bytes(ins)
  {
    ins == [] || (AlwaysCalm(ins[..|ins| - 1]) && Calm(Run(ins[..|ins| - 1]).s, ins[|ins| - 1]))
  }

  function Datas(items: seq<Item>): seq<nat> {
    if items == [] then [] else
      Datas(items[..|items| - 1]) + match items[|items| - 1] case Data(x) => [x] case Record(_, _, _) => []
  }

  lemma DatasExtend(items: seq<Item>, s: Seq, i: In)
    requires Valid(s)
    ensures Datas(Extend(items, s, i)) == Datas(items) + if Accepts(s, i) then [i.obs.x] else []
  {
  }

  /** Conservation: every byte not refused is in the stream once, in order; and a refusal is
      flagged, and stays flagged until the next record carries it. */
  lemma {:induction false} BytesAreConserved(ins: seq<In>)
    requires Bytes(ins)
    ensures Datas(Run(ins).items) == History(ins).bytes
    ensures AlwaysQuiet(ins) ==> Run(ins).s.fLost == History(ins).missed
  {
    if ins != [] {
      var pre := ins[..|ins| - 1];
      BytesAreConserved(pre);
      DatasExtend(Run(pre).items, Run(pre).s, ins[|ins| - 1]);
    }
  }

  /** The flag stays true to what was refused on every edge but one kind: a byte refused on the
      edge a record is taken up leaves no trace. */
  lemma LossIsFlaggedIff(s: Seq, t: Truth, i: In)
    requires Valid(s) && s.fLost == t.missed
    ensures Step(s, i).fLost == Happens(t, s, i).missed <==> Quiet(s, i)
    ensures !Quiet(s, i) ==> !Step(s, i).fLost && NewRecord(s, i) == NewRecord(s, i.(obs := NoByte))
  {
  }

  lemma CalmExtend(items: seq<Item>, s: Seq, i: In)
    requires Valid(s) && Calm(s, i)
    ensures Extend(items, s, i) == items + (if i.start then [NewRecord(s, i)] else [])
                                   + match i.obs case NoByte => [] case Byte(x) => [Data(x)]
  {
  }

  ghost predicate Counts(s: Seq, t: Truth) {
    s.trial == t.starts % 0x1_0000 && s.cyc == t.since % 0x1_0000_0000 && s.fAbort == t.aborted
  }

  lemma CountsStep(s: Seq, t: Truth, i: In)
    requires Valid(s) && Counts(s, t)
    ensures Counts(Step(s, i), Happens(t, s, i))
  {
  }

  lemma {:induction false} CountersAreTrue(ins: seq<In>)
    requires Bytes(ins)
    ensures Counts(Run(ins).s, History(ins))
  {
    if ins != [] {
      var pre := ins[..|ins| - 1];
      CountersAreTrue(pre);
      CountsStep(Run(pre).s, History(pre), ins[|ins| - 1]);
    }
  }

  lemma {:induction false} CalmIsTrue(ins: seq<In>)
    requires Bytes(ins) && AlwaysCalm(ins)
    ensures AlwaysQuiet(ins) && Run(ins).items == History(ins).events && !History(ins).missed
  {
    if ins != [] {
      var pre, i := ins[..|ins| - 1], ins[|ins| - 1];
      CalmIsTrue(pre);
      BytesAreConserved(pre);
      CountersAreTrue(pre);
      CalmExtend(Run(pre).items, Run(pre).s, i);
      assert NewRecord(Run(pre).s, i) == TrueRecord(History(pre), i);
    }
  }
}
