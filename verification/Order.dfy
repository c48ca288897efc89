/** When the board's stream tells what happened (fpga/rtl/fi_board_uart.v): exactly when, on the
    block's ports alone, and what the wiring around it adds. */
module Order {
  import opened Slip
  import opened Board

  // ---- refusals and true order ----------------------------------------------------------------

  /** A byte or a record is refused. */
  predicate Refuses(s: Seq, i: In) { Drops(s, i) || (i.start && s.recGo) }

  ghost predicate NeverRefuses(ins: seq<In>)
    requires Bytes(ins)
  {
    ins == [] || (NeverRefuses(ins[..|ins| - 1]) && !Refuses(Run(ins[..|ins| - 1]).s, ins[|ins| - 1]))
  }

  /** What is refused is missing for good. */
  lemma {:induction false} RefusedIsMissing(ins: seq<In>)
    requires Bytes(ins)
    ensures |Run(ins).items| <= |History(ins).events|
    ensures !NeverRefuses(ins) ==> |Run(ins).items| < |History(ins).events|
  {
    if ins != [] { RefusedIsMissing(ins[..|ins| - 1]); }
  }

  lemma {:induction false} CalmRefusesNothing(ins: seq<In>)
    requires Bytes(ins) && AlwaysCalm(ins)
    ensures NeverRefuses(ins)
  {
    if ins != [] { CalmRefusesNothing(ins[..|ins| - 1]); }
  }

  /** Some record stands in front of a byte that came before it. */
  ghost predicate Diverged(items: seq<Item>, events: seq<Item>) {
    exists k :: 0 <= k < |items| - 1 && k < |events| && items[k].Record? && events[k].Data?
  }

  lemma DivergedStays(items: seq<Item>, events: seq<Item>, s: Seq, i: In, more: seq<Item>)
    requires Valid(s) && Diverged(items, events)
    ensures Diverged(Extend(items, s, i), events + more)
  {
    var k :| 0 <= k < |items| - 1 && k < |events| && items[k].Record? && events[k].Data?;
    var n := Extend(items, s, i);
    assert n[k] == items[k] && (events + more)[k] == events[k];
  }

  /** A record taken up while a byte waits goes in front of it. */
  lemma Diverges(l: Log, t: Truth, i: In)
    requires Faithful(l) && l.items == t.events && !Refuses(l.s, i) && !Calm(l.s, i)
    ensures Diverged(Extend(l.items, l.s, i), Happens(t, l.s, i).events)
  {
    var k := |l.items| - 1;
    var n, e := Extend(l.items, l.s, i), Happens(t, l.s, i).events;
    assert n[k] == NewRecord(l.s, i) && e[k] == l.items[k];
  }

  lemma {:induction false} LateDiverges(ins: seq<In>)
    requires Bytes(ins) && NeverRefuses(ins) && !AlwaysCalm(ins)
    ensures Diverged(Run(ins).items, History(ins).events)
  {
    var pre, i := ins[..|ins| - 1], ins[|ins| - 1];
    var l, t := Run(pre), History(pre);
    if AlwaysCalm(pre) {
      CalmIsTrue(pre);
      Diverges(l, t, i);
    } else {
      LateDiverges(pre);
      DivergedOn(l, t, i);
    }
  }

  lemma DivergedOn(l: Log, t: Truth, i: In)
    requires Valid(l.s) && Diverged(l.items, t.events)
    ensures Diverged(Watch(l, i).items, Happens(t, l.s, i).events)
  {
    var more := (if i.start then [TrueRecord(t, i)] else [])
                + match i.obs case NoByte => [] case Byte(x) => [Data(x)];
    assert Happens(t, l.s, i).events == t.events + more;
    DivergedStays(l.items, t.events, l.s, i, more);
  }

  /** The stream carries what happened, all of it and in order, if and only if nothing is refused and
      no trial start finds a byte still waiting. */
  lemma {:induction false} StreamIsTrueIff(ins: seq<In>)
    requires Bytes(ins)
    ensures Run(ins).items == History(ins).events <==> AlwaysCalm(ins)
  {
    if AlwaysCalm(ins) {
      CalmIsTrue(ins);
    } else {
      RefusedIsMissing(ins);
      if NeverRefuses(ins) { LateDiverges(ins); }
    }
  }

  // ---- the same on the ports ---------------------------------------------------------------------

  /** What happened, as far as the ports tell, nothing being refused. */
  function Passes(t: Truth, i: In): Truth {
    Truth(
      starts := if i.start then t.starts + 1 else t.starts,
      since := if i.start then 1 else t.since + 1,
      aborted := !i.start && (t.aborted || i.abort),
      missed := !i.start && t.missed,
      events := t.events + (if i.start then [TrueRecord(t, i)] else [])
                + match i.obs case NoByte => [] case Byte(x) => [Data(x)],
      bytes := t.bytes + match i.obs case NoByte => [] case Byte(x) => [x])
  }

  /** An outbox without a limit: every event's encoding is put in, and every edge on which the FIFO has
      room takes one byte out. `due` counts what is in it. */
  datatype Outbox = Outbox(due: nat, t: Truth)

  function Left(o: Outbox, i: In): nat { if i.full || o.due == 0 then o.due else o.due - 1 }

  function Put(o: Outbox, i: In): Outbox {
    Outbox(Left(o, i) + (if i.start then |Wire(TrueRecord(o.t, i))| else 0)
           + (match i.obs case NoByte => 0 case Byte(x) => |Escape(x)|),
           Passes(o.t, i))
  }

  /** No trial start or byte comes before the byte in front of it has begun to leave, and no trial start
      before the record in front of it has left. */
  predicate InTime(o: Outbox, i: In) {
    o.t.events == [] ||
    match o.t.events[|o.t.events| - 1]
    case Data(x) => (i.start || i.obs.Byte?) ==> Left(o, i) < |Escape(x)|
    case Record(_, _, _) => i.start ==> o.due == 0
  }

  function Posted(ins: seq<In>): Outbox {
    if ins == [] then Outbox(0, Truth(0, 0, false, false, [], [])) else Put(Posted(ins[..|ins| - 1]), ins[|ins| - 1])
  }

  /** On every edge of the run. */
  predicate Smooth(ins: seq<In>) {
    ins == [] || (Smooth(ins[..|ins| - 1]) && InTime(Posted(ins[..|ins| - 1]), ins[|ins| - 1]))
  }

  /** The last byte of a record, its flags, is never escaped. */
  predicate Flagged(s: Seq)
    requires Valid(s)
  {
    s.recGo ==> s.rec[8] <= 3
  }

  /** How the registers stand to the outbox when nothing has been late. */
  ghost predicate Tracks(l: Log, o: Outbox) {
    && Faithful(l) && Flagged(l.s) && l.items == o.t.events && |Pending(l.s)| == o.due
    && Counts(l.s, o.t) && !l.s.fLost && !o.t.missed
    && if l.items == [] then o.due == 0
       else match l.items[|l.items| - 1]
         case Data(x) => (l.s.dbufV <==> o.due >= |Escape(x)|) && (l.s.dbufV || !l.s.recGo)
         case Record(_, _, _) => !l.s.dbufV && (l.s.recGo <==> o.due > 0)
  }

  lemma TailHolds(rec: seq<nat>, p: nat)
    requires p < |rec|
    ensures |Tail(rec, p)| >= 1
  {
    TailStep(rec, p);
  }

  lemma CalmIffInTime(l: Log, o: Outbox, i: In)
    requires Tracks(l, o)
    ensures Calm(l.s, i) <==> InTime(o, i)
  {
    if l.s.recGo { TailHolds(l.s.rec, l.s.rp); }
  }

  /** One byte leaves on an edge with room, and the events' encodings come in. */
  lemma PendingCount(l: Log, i: In)
    requires Faithful(l) && ByteOk(i) && Calm(l.s, i)
    ensures Valid(Step(l.s, i))
    ensures |Pending(Step(l.s, i))|
            == (if i.full || Pending(l.s) == [] then |Pending(l.s)| else |Pending(l.s)| - 1)
               + (if i.start then |Wire(NewRecord(l.s, i))| else 0)
               + match i.obs case NoByte => 0 case Byte(x) => |Escape(x)|
  {
    Drains(l.s, i);
    Gathers(l.s, i);
    if l.s.recGo { TailHolds(l.s.rec, l.s.rp); }
  }

  lemma NoRecordNoByte(s: Seq)
    requires Valid(s)
    ensures |Pending(s)| == (if s.esc then 1 else 0) + (if s.recGo then |Tail(s.rec, s.rp)| else 0)
                            + if s.dbufV then |Escape(s.dbuf)| else 0
    ensures s.recGo ==> |Tail(s.rec, s.rp)| >= 1
  {
    if s.recGo { TailHolds(s.rec, s.rp); }
  }

  lemma FlaggedStep(s: Seq, i: In)
    requires Valid(s) && Flagged(s)
    ensures Valid(Step(s, i).(dbuf := 0)) && Flagged(Step(s, i).(dbuf := 0))
  {
  }

  lemma NothingLost(s: Seq, t: Truth, i: In)
    requires Valid(s) && Calm(s, i) && !s.fLost && !t.missed && Counts(s, t)
    ensures !Step(s, i).fLost && !Passes(t, i).missed && Counts(Step(s, i), Passes(t, i))
    ensures i.start ==> NewRecord(s, i) == TrueRecord(t, i)
  {
  }

  lemma TracksBooks(l: Log, o: Outbox, i: In)
    requires Tracks(l, o) && ByteOk(i) && Calm(l.s, i)
    ensures var n, p := Watch(l, i), Put(o, i);
            && Faithful(n) && n.items == p.t.events && |Pending(n.s)| == p.due
            && Counts(n.s, p.t) && !n.s.fLost && !p.t.missed
  {
    WatchKeeps(l, i);
    PendingCount(l, i);
    CalmExtend(l.items, l.s, i);
    NothingLost(l.s, o.t, i);
  }

  lemma TracksStep(l: Log, o: Outbox, i: In)
    requires Tracks(l, o) && ByteOk(i) && Calm(l.s, i)
    ensures Tracks(Watch(l, i), Put(o, i))
  {
    TracksBooks(l, o, i);
    FlaggedStep(l.s, i);
    CalmExtend(l.items, l.s, i);
    NoRecordNoByte(l.s);
    NoRecordNoByte(Step(l.s, i));
  }

  lemma {:induction false} CalmIff(ins: seq<In>)
    requires Bytes(ins)
    ensures AlwaysCalm(ins) <==> Smooth(ins)
    ensures AlwaysCalm(ins) ==> Tracks(Run(ins), Posted(ins)) && Posted(ins).t.events == History(ins).events
  {
    if ins != [] {
      var pre, i := ins[..|ins| - 1], ins[|ins| - 1];
      CalmIff(pre);
      if AlwaysCalm(pre) {
        CalmIffInTime(Run(pre), Posted(pre), i);
        if Calm(Run(pre).s, i) {
          TracksStep(Run(pre), Posted(pre), i);
          CalmIsTrue(ins);
        }
      }
    }
  }

  // ---- what the host reads -------------------------------------------------------------------------

  /** Nothing comes before the first record. */
  predicate Headed(items: seq<Item>) { items == [] || items[0].Record? }

  function Bytewise(data: seq<nat>): seq<Item> { seq(|data|, k requires 0 <= k < |data| => Data(data[k])) }

  /** The items a list of runs was read from. */
  function Unread(rs: seq<TrialRun>): seq<Item> {
    if rs == [] then [] else
      var r := rs[|rs| - 1];
      Unread(rs[..|rs| - 1]) + [Record(r.trial, r.cyclesPrev, r.flagsPrev)] + Bytewise(r.data)
  }

  lemma {:induction false} UnreadRuns(items: seq<Item>)
    requires Headed(items)
    ensures Unread(Runs(items)) == items && (items != [] ==> Runs(items) != [])
  {
    if items != [] {
      var pre, i := items[..|items| - 1], items[|items| - 1];
      UnreadRuns(pre);
      var rs, n := Runs(pre), Runs(items);
      assert items == pre + [i];
      assert n[..|n| - 1] == if i.Record? then rs else rs[..|rs| - 1];
      if i.Data? {
        var r := rs[|rs| - 1];
        assert Bytewise(r.data + [i.x]) == Bytewise(r.data) + [i];
      } else {
        assert Bytewise([]) == [];
      }
    }
  }

  lemma {:induction false} HeadedRun(ins: seq<In>)
    requires Bytes(ins) && Headed(History(ins).events)
    ensures Headed(Run(ins).items) && (History(ins).events != [] ==> Run(ins).items != [])
    ensures History(ins).events == [] ==> !Run(ins).s.recGo && Run(ins).items == []
  {
    if ins != [] {
      var pre, i := ins[..|ins| - 1], ins[|ins| - 1];
      assert History(pre).events <= History(ins).events;
      HeadedRun(pre);
    }
  }

  /** What the host reads of everything pushed and pending: what happened, or not. */
  ghost predicate ReadsTruly(ins: seq<In>)
    requires Bytes(ins)
  {
    var l := Run(ins);
    FeedAll(EMPTY, l.sent + Pending(l.s)) == Reading(Runs(History(ins).events), false, NoRec)
  }

  /** The host reads exactly what happened, one run per trial start with its number, its cycles, its
      flags (modulo their widths) and that trial's bytes, if and only if no event on the ports comes
      before the one in front of it has left. */
  lemma {:induction false} HostReadsIff(ins: seq<In>)
    requires Bytes(ins) && Headed(History(ins).events)
    ensures ReadsTruly(ins) <==> Smooth(ins)
  {
    StreamDecodes(ins);
    StreamIsTrueIff(ins);
    CalmIff(ins);
    HeadedRun(ins);
    UnreadRuns(Run(ins).items);
    UnreadRuns(History(ins).events);
  }

  // ---- what the wiring adds ----------------------------------------------------------------------

  /** The design is in reset on the edge before a trial start, and the decoder with it: no byte comes
      on either edge, and no other start on the first. */
  ghost predicate Gapped(ins: seq<In>) {
    forall k :: 0 <= k < |ins| && ins[k].start ==>
      ins[k].obs.NoByte? && (k > 0 ==> ins[k - 1].obs.NoByte? && !ins[k - 1].start)
  }

  function Records(items: seq<Item>): seq<Item> {
    if items == [] then [] else
      Records(items[..|items| - 1]) + if items[|items| - 1].Record? then [items[|items| - 1]] else []
  }

  /** The true records of the trial starts that were taken up. */
  ghost function Taken(ins: seq<In>): seq<Item>
    requires Bytes(ins)
  {
    if ins == [] then [] else
      var pre, i := ins[..|ins| - 1], ins[|ins| - 1];
      Taken(pre) + if Opens(Run(pre).s, i) then [TrueRecord(History(pre), i)] else []
  }

  lemma RecordsSnoc(items: seq<Item>, x: Item)
    ensures Records(items + [x]) == Records(items) + if x.Record? then [x] else []
  {
    assert (items + [x])[..|items|] == items;
  }

  lemma RecordsExtend(l: Log, i: In)
    requires Faithful(l)
    ensures Records(Extend(l.items, l.s, i)) == Records(l.items) + if Opens(l.s, i) then [NewRecord(l.s, i)] else []
  {
    var a := Extend(l.items, l.s, i.(obs := NoByte));
    if Opens(l.s, i) { RecordsOpen(l, i); } else { assert a == l.items; }
    if Accepts(l.s, i) {
      RecordsSnoc(a, Data(i.obs.x));
      assert Extend(l.items, l.s, i) == a + [Data(i.obs.x)];
    } else {
      assert Extend(l.items, l.s, i) == a;
    }
  }

  lemma RecordsOpen(l: Log, i: In)
    requires Faithful(l) && Opens(l.s, i)
    ensures Records(Extend(l.items, l.s, i.(obs := NoByte))) == Records(l.items) + [NewRecord(l.s, i)]
  {
    var r := NewRecord(l.s, i);
    if l.s.dbufV && !TakesByte(l.s, i) {
      var ahead, last := l.items[..|l.items| - 1], l.items[|l.items| - 1];
      assert l.items == ahead + [last];
      RecordsSnoc(ahead, last);
      RecordsSnoc(ahead, r);
      RecordsSnoc(ahead + [r], last);
    } else {
      RecordsSnoc(l.items, r);
    }
  }

  /** Every loss is flagged: each record in the stream has the true trial number and cycles, and its
      flag says exactly whether a byte or a record was refused since the record before it. */
  lemma {:induction false} EveryLossIsFlagged(ins: seq<In>)
    requires Bytes(ins) && Gapped(ins)
    ensures AlwaysQuiet(ins) && Run(ins).s.fLost == History(ins).missed
    ensures Records(Run(ins).items) == Taken(ins)
  {
    if ins != [] {
      var pre, i := ins[..|ins| - 1], ins[|ins| - 1];
      GappedBefore(ins);
      EveryLossIsFlagged(pre);
      CountersAreTrue(pre);
      RecordsExtend(Run(pre), i);
      assert ins[|ins| - 1].start ==> ins[|ins| - 1].obs.NoByte?;
    }
  }

  lemma GappedBefore(ins: seq<In>)
    requires Gapped(ins) && ins != []
    ensures Gapped(ins[..|ins| - 1])
  {
    var pre := ins[..|ins| - 1];
    assert forall k :: 0 <= k < |pre| ==> pre[k] == ins[k];
  }

  /** The FIFO has room at a trial start and on the edge before it. */
  ghost predicate RoomAtStarts(ins: seq<In>) {
    forall k :: 0 <= k < |ins| && ins[k].start ==> !ins[k].full && (k > 0 ==> !ins[k - 1].full)
  }

  /** Two edges with room and no byte, a record not going out: nothing waits any more. */
  lemma TwoEdges(s: Seq, i: In, j: In)
    requires Valid(s) && Flagged(s) && !i.full && !j.full && !i.start && i.obs.NoByte? && j.obs.NoByte?
    requires Valid(Step(s, i)) && !Refuses(Step(s, i), j)
    ensures j.start ==> Calm(Step(s, i), j)
  {
  }

  lemma {:induction false} FlaggedRun(ins: seq<In>)
    requires Bytes(ins)
    ensures Flagged(Run(ins).s)
  {
    if ins != [] {
      FlaggedRun(ins[..|ins| - 1]);
      FlaggedStep(Run(ins[..|ins| - 1]).s, ins[|ins| - 1]);
    }
  }

  lemma RoomAtLast(ins: seq<In>)
    requires Bytes(ins) && ins != [] && ins[|ins| - 1].start && Gapped(ins) && RoomAtStarts(ins)
    requires !Refuses(Run(ins[..|ins| - 1]).s, ins[|ins| - 1])
    ensures Calm(Run(ins[..|ins| - 1]).s, ins[|ins| - 1])
  {
    var n, pre, i := |ins| - 1, ins[..|ins| - 1], ins[|ins| - 1];
    assert ins[n].start;
    if pre != [] {
      assert ins[n - 1] == pre[|pre| - 1];
      FlaggedRun(pre[..|pre| - 1]);
      TwoEdges(Run(pre[..|pre| - 1]).s, pre[|pre| - 1], i);
    }
  }

  lemma RoomBefore(ins: seq<In>)
    requires ins != [] && Gapped(ins) && RoomAtStarts(ins)
    ensures Gapped(ins[..|ins| - 1]) && RoomAtStarts(ins[..|ins| - 1])
  {
    var pre := ins[..|ins| - 1];
    assert forall k :: 0 <= k < |pre| ==> pre[k] == ins[k];
  }

  /** A byte is held back behind the next trial's record only by a full FIFO: with room at the trial
      starts and on the edges before them, and nothing refused, all is in its true order. */
  lemma {:induction false} RoomKeepsOrder(ins: seq<In>)
    requires Bytes(ins) && Gapped(ins) && RoomAtStarts(ins) && NeverRefuses(ins)
    ensures AlwaysCalm(ins)
  {
    if ins != [] {
      RoomBefore(ins);
      RoomKeepsOrder(ins[..|ins| - 1]);
      if ins[|ins| - 1].start { RoomAtLast(ins); }
    }
  }

  ghost predicate NeverFull(ins: seq<In>) { forall k :: 0 <= k < |ins| ==> !ins[k].full }

  /** In short: the FIFO never full, no record still going out at a start, no byte lost. */
  lemma {:induction false} NeverFullIsTrue(ins: seq<In>)
    requires Bytes(ins) && Gapped(ins) && NeverFull(ins) && NeverRefuses(ins) && Headed(History(ins).events)
    ensures ReadsTruly(ins)
  {
    RoomKeepsOrder(ins);
    CalmIff(ins);
    HostReadsIff(ins);
  }

  // ---- events far enough apart ----------------------------------------------------------------------

  /** Two bits' edges for each of a byte's ten bits; a record takes no more than 18. */
  const SPACING: nat := 20

  /** Bytes and starts are so many edges apart from their like. */
  ghost predicate Spaced(ins: seq<In>) {
    && (forall j, k :: 0 <= j < k < |ins| && ins[j].start && ins[k].start ==> k - j >= SPACING)
    && (forall j, k :: 0 <= j < k < |ins| && ins[j].obs.Byte? && ins[k].obs.Byte? ==> k - j >= SPACING)
  }

  function SinceStart(ins: seq<In>): nat {
    if ins == [] then SPACING else if ins[|ins| - 1].start then 0 else SinceStart(ins[..|ins| - 1]) + 1
  }

  function SinceByte(ins: seq<In>): nat {
    if ins == [] then SPACING else if ins[|ins| - 1].obs.Byte? then 0 else SinceByte(ins[..|ins| - 1]) + 1
  }

  lemma {:induction false} SinceMeans(ins: seq<In>)
    ensures var a := SinceStart(ins); a < SPACING ==> a < |ins| && ins[|ins| - 1 - a].start
    ensures var b := SinceByte(ins); b < SPACING ==> b < |ins| && ins[|ins| - 1 - b].obs.Byte?
  {
    if ins != [] { SinceMeans(ins[..|ins| - 1]); }
  }

  lemma Distances(ins: seq<In>)
    requires Gapped(ins) && Spaced(ins) && ins != []
    ensures var n, pre := |ins| - 1, ins[..|ins| - 1];
            && (ins[n].start ==> ins[n].obs.NoByte? && SinceStart(pre) >= 19 && SinceByte(pre) >= 1)
            && (ins[n].obs.Byte? ==> SinceByte(pre) >= 19)
  {
    var n, pre := |ins| - 1, ins[..|ins| - 1];
    SinceMeans(pre);
    var a, b := n - 1 - SinceStart(pre), n - 1 - SinceByte(pre);
    assert SinceStart(pre) < SPACING ==> 0 <= a < n && ins[a].start;
    assert SinceByte(pre) < SPACING ==> 0 <= b < n && ins[b].obs.Byte?;
  }

  function Max(a: int, b: int): int { if a < b then b else a }

  ghost predicate Light(o: Outbox, a: nat, b: nat) {
    if o.t.events == [] then o.due == 0
    else match o.t.events[|o.t.events| - 1]
      case Data(_) => b <= a && o.due <= Max(0, Max(19 - a, 2 - b))
      case Record(_, _, _) => o.due <= Max(0, 17 - a)
  }

  lemma {:induction false} EscapeLength(xs: seq<nat>)
    ensures |EscapeAll(xs)| <= 2 * |xs|
  {
    if xs != [] { EscapeLength(xs[1..]); }
  }

  lemma WireLength(r: Item)
    requires r.Record?
    ensures |Wire(r)| <= 17
  {
    EscapeLength(Body(r));
  }

  lemma LightStep(o: Outbox, i: In, a: nat, b: nat)
    requires Light(o, a, b) && !i.full
    requires i.start ==> i.obs.NoByte? && a >= 19 && b >= 1
    requires i.obs.Byte? ==> b >= 19
    ensures InTime(o, i) && Light(Put(o, i), if i.start then 0 else a + 1, if i.obs.Byte? then 0 else b + 1)
  {
    if i.start { WireLength(TrueRecord(o.t, i)); }
  }

  lemma {:induction false} SpacedIsLight(ins: seq<In>)
    requires Gapped(ins) && NeverFull(ins) && Spaced(ins)
    ensures Smooth(ins) && Light(Posted(ins), SinceStart(ins), SinceByte(ins))
  {
    if ins != [] {
      var pre, i := ins[..|ins| - 1], ins[|ins| - 1];
      GappedBefore(ins);
      assert forall k :: 0 <= k < |pre| ==> pre[k] == ins[k];
      SpacedIsLight(pre);
      Distances(ins);
      LightStep(Posted(pre), i, SinceStart(pre), SinceByte(pre));
    }
  }

  /** On the ports alone: with a FIFO that never fills, trial starts 20 edges apart and bytes 20 edges
      apart (a serial line of two edges per bit or more), nothing is refused and the host reads exactly
      what happened. */
  lemma {:induction false} SpacedIsRead(ins: seq<In>)
    requires Bytes(ins) && Gapped(ins) && NeverFull(ins) && Spaced(ins) && Headed(History(ins).events)
    ensures NeverRefuses(ins) && !History(ins).missed && ReadsTruly(ins)
  {
    SpacedIsLight(ins);
    CalmIff(ins);
    CalmRefusesNothing(ins);
    CalmIsTrue(ins);
    HostReadsIff(ins);
  }
}
