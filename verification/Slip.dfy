/** The board's byte stream: records and data escaped on the wire, and the host's decoder
    (fpga/host/board_campaign.py, class Stream). */
module Slip {

  /** A record of a trial start, or a byte of the DUT's output. */
  datatype Item = Record(trial: nat, cycles: nat, flags: nat) | Data(x: nat)

  predicate Fits(i: Item) {
    match i
    case Record(t, c, f) => t < 0x1_0000 && c < 0x1_0000_0000 && f < 0x100
    case Data(x) => x < 0x100
  }

  ghost predicate AllFit(items: seq<Item>) { forall k :: 0 <= k < |items| ==> Fits(items[k]) }

  predicate Special(x: nat) { x == 0xC0 || x == 0xDB }

  function Escape(x: nat): seq<nat> {
    if x == 0xC0 then [0xDB, 0xDC] else if x == 0xDB then [0xDB, 0xDD] else [x]
  }

  function EscapeAll(s: seq<nat>): seq<nat> {
    if s == [] then [] else Escape(s[0]) + EscapeAll(s[1..])
  }

  /** The record's bytes behind its start byte, fields big-endian. */
  function Body(r: Item): seq<nat>
    requires r.Record?
  {
    [0x54, r.trial / 0x100 % 0x100, r.trial % 0x100,
     r.cycles / 0x100_0000 % 0x100, r.cycles / 0x1_0000 % 0x100, r.cycles / 0x100 % 0x100, r.cycles % 0x100,
     r.flags]
  }

  function Wire(i: Item): seq<nat> {
    match i
    case Record(_, _, _) => [0xC0] + EscapeAll(Body(i))
    case Data(x) => Escape(x)
  }

  function WireAll(items: seq<Item>): seq<nat> {
    if items == [] then [] else WireAll(items[..|items| - 1]) + Wire(items[|items| - 1])
  }

  /** Start bytes on the wire, and records among the items. */
  function StartBytes(s: seq<nat>): nat {
    if s == [] then 0 else StartBytes(s[..|s| - 1]) + if s[|s| - 1] == 0xC0 then 1 else 0
  }

  function RecordCount(items: seq<Item>): nat {
    if items == [] then 0 else RecordCount(items[..|items| - 1]) + if items[|items| - 1].Record? then 1 else 0
  }

  lemma {:induction false} StartsConcat(a: seq<nat>, b: seq<nat>)
    ensures StartBytes(a + b) == StartBytes(a) + StartBytes(b)
  {
    if b == [] {
      assert a + b == a;
    } else {
      assert (a + b)[..|a + b| - 1] == a + b[..|b| - 1];
      StartsConcat(a, b[..|b| - 1]);
    }
  }

  lemma {:induction false} EscapedHidesStarts(s: seq<nat>)
    ensures StartBytes(EscapeAll(s)) == 0
  {
    if s != [] {
      EscapeHidesStarts(s[0]);
      EscapedHidesStarts(s[1..]);
      StartsConcat(Escape(s[0]), EscapeAll(s[1..]));
    }
  }

  lemma EscapeHidesStarts(x: nat)
    ensures StartBytes(Escape(x)) == 0
  {
    if Special(x) { assert Escape(x)[..1] == [0xDB] && [0xDB][..0] == []; } else { assert Escape(x)[..0] == []; }
  }

  /** A record begins with the start byte and the type byte and has no other start byte; data take one
      byte, or two if they look like a start or an escape, and never show a start. */
  lemma FramesItem(i: Item)
    ensures StartBytes(Wire(i)) == if i.Record? then 1 else 0
    ensures i.Record? ==> 9 <= |Wire(i)| <= 17 && Wire(i)[0] == 0xC0 && Wire(i)[1] == 0x54
    ensures i.Data? ==> |Wire(i)| == if i.x == 0xC0 || i.x == 0xDB then 2 else 1
  {
    if i.Record? {
      StartsConcat([0xC0], EscapeAll(Body(i)));
      EscapedHidesStarts(Body(i));
      EscapedLength(Body(i));
      assert [0xC0][..0] == [] && Body(i)[0] == 0x54;
    } else {
      EscapeHidesStarts(i.x);
    }
  }

  /** So the wire shows a start byte exactly once for every record. */
  lemma {:induction false} FramesTheWire(items: seq<Item>)
    ensures StartBytes(WireAll(items)) == RecordCount(items)
  {
    if items != [] {
      var pre, i := items[..|items| - 1], items[|items| - 1];
      FramesTheWire(pre);
      StartsConcat(WireAll(pre), Wire(i));
      FramesItem(i);
    }
  }

  lemma {:induction false} EscapedLength(s: seq<nat>)
    ensures |s| <= |EscapeAll(s)| <= 2 * |s|
  {
    if s != [] { EscapedLength(s[1..]); }
  }

  // ---- the host's decoder ------------------------------------------------------------------------

  datatype TrialRun = TrialRun(trial: nat, cyclesPrev: nat, flagsPrev: nat, data: seq<nat>)

  datatype Rec = NoRec | Rec(bytes: seq<nat>)

  /** What Stream keeps between bytes. */
  datatype Reading = Reading(runs: seq<TrialRun>, esc: bool, rec: Rec)

  const EMPTY := Reading([], false, NoRec)

  function Parse(r: seq<nat>): TrialRun
    requires |r| == 8
  {
    TrialRun(r[1] * 0x100 + r[2], r[3] * 0x100_0000 + r[4] * 0x1_0000 + r[5] * 0x100 + r[6], r[7], [])
  }

  /** One unescaped byte. */
  function Take(s: Reading, x: nat): Reading {
    match s.rec
    case Rec(bytes) =>
      if |bytes| == 7 then Reading(s.runs + [Parse(bytes + [x])], s.esc, NoRec)
      else s.(rec := Rec(bytes + [x]))
    case NoRec =>
      if s.runs == [] then s
      else
        var last := s.runs[|s.runs| - 1];
        s.(runs := s.runs[|s.runs| - 1 := last.(data := last.data + [x])])
  }

  function Feed(s: Reading, x: nat): Reading {
    if x == 0xC0 then s.(rec := Rec([]), esc := false)
    else if x == 0xDB then s.(esc := true)
    else if s.esc then Take(s.(esc := false), if x == 0xDC then 0xC0 else 0xDB)
    else Take(s, x)
  }

  function FeedAll(s: Reading, xs: seq<nat>): Reading {
    if xs == [] then s else Feed(FeedAll(s, xs[..|xs| - 1]), xs[|xs| - 1])
  }

  /** The decoder, one byte at a time. */
  class Stream {
    var runs: seq<TrialRun>
    var esc: bool
    var rec: Rec

    function State(): Reading
      reads this
    {
      Reading(runs, esc, rec)
    }

    constructor ()
      ensures State() == EMPTY
    {
      runs, esc, rec := [], false, NoRec;
    }

    method Byte(b: nat)
      modifies this
      ensures State() == Feed(old(State()), b)
    {
      var x := b;
      if x == 0xC0 {
        rec, esc := Rec([]), false;
        return;
      }
      if x == 0xDB {
        esc := true;
        return;
      }
      if esc {
        x := if x == 0xDC then 0xC0 else 0xDB;
        esc := false;
      }
      if rec.Rec? {
        if |rec.bytes| == 7 {
          runs := runs + [Parse(rec.bytes + [x])];
          rec := NoRec;
        } else {
          rec := Rec(rec.bytes + [x]);
        }
        return;
      }
      if runs != [] {
        var last := runs[|runs| - 1];
        runs := runs[|runs| - 1 := last.(data := last.data + [x])];
      }
    }

    method FeedBytes(data: seq<nat>)
      modifies this
      ensures State() == FeedAll(old(State()), data)
    {
      for k := 0 to |data|
        invariant State() == FeedAll(old(State()), data[..k])
      {
        assert data[..k + 1][..k] == data[..k];
        Byte(data[k]);
      }
      assert data[..|data|] == data;
    }
  }

  // ---- the round trip ------------------------------------------------------------------------------

  /** The trials' runs: every record opens one, every later byte belongs to it. */
  function Runs(items: seq<Item>): seq<TrialRun> {
    if items == [] then [] else
      var rs := Runs(items[..|items| - 1]);
      match items[|items| - 1]
      case Record(t, c, f) => rs + [TrialRun(t, c, f, [])]
      case Data(x) =>
        if rs == [] then rs else rs[|rs| - 1 := rs[|rs| - 1].(data := rs[|rs| - 1].data + [x])]
  }

  lemma {:induction false} FeedConcat(s: Reading, a: seq<nat>, b: seq<nat>)
    ensures FeedAll(s, a + b) == FeedAll(FeedAll(s, a), b)
  {
    if b == [] {
      assert a + b == a;
    } else {
      assert (a + b)[..|a + b| - 1] == a + b[..|b| - 1];
      FeedConcat(s, a, b[..|b| - 1]);
    }
  }

  lemma FeedOne(s: Reading, x: nat)
    ensures FeedAll(s, [x]) == Feed(s, x)
  {
  }

  lemma FeedEscape(s: Reading, x: nat)
    requires !s.esc
    ensures FeedAll(s, Escape(x)) == Take(s, x)
  {
    if Special(x) {
      var y := if x == 0xC0 then 0xDC else 0xDD;
      assert Escape(x) == [0xDB] + [y];
      FeedConcat(s, [0xDB], [y]);
      FeedOne(s, 0xDB);
      FeedOne(Feed(s, 0xDB), y);
    } else {
      FeedOne(s, x);
    }
  }

  /** Any escape pair, one the board never sends included. */
  lemma FeedPair(s: Reading, x: nat)
    requires x != 0xC0 && x != 0xDB
    ensures FeedAll(s, [0xDB, x]) == Take(s.(esc := false), if x == 0xDC then 0xC0 else 0xDB)
  {
    assert [0xDB, x] == [0xDB] + [x];
    FeedConcat(s, [0xDB], [x]);
    FeedOne(s, 0xDB);
    FeedOne(Feed(s, 0xDB), x);
  }

  function TakeAll(s: Reading, xs: seq<nat>): Reading
    decreases |xs|
  {
    if xs == [] then s else TakeAll(Take(s, xs[0]), xs[1..])
  }

  lemma {:induction false} FeedEscapeAll(s: Reading, xs: seq<nat>)
    requires !s.esc
    ensures FeedAll(s, EscapeAll(xs)) == TakeAll(s, xs)
    decreases |xs|
  {
    if xs != [] {
      FeedConcat(s, Escape(xs[0]), EscapeAll(xs[1..]));
      FeedEscape(s, xs[0]);
      FeedEscapeAll(Take(s, xs[0]), xs[1..]);
    }
  }

  lemma {:induction false} TakesRecord(s: Reading, done: seq<nat>, xs: seq<nat>)
    requires s.rec == Rec(done) && |done| + |xs| == 8 && |xs| >= 1
    ensures TakeAll(s, xs) == Reading(s.runs + [Parse(done + xs)], s.esc, NoRec)
    decreases |xs|
  {
    var n := Take(s, xs[0]);
    assert done + [xs[0]] + xs[1..] == done + xs;
    if |xs| == 1 {
      assert xs == [xs[0]];
    } else {
      TakesRecord(n, done + [xs[0]], xs[1..]);
    }
  }

  lemma BigEndian(c: nat)
    requires c < 0x1_0000_0000
    ensures (c / 0x100_0000 % 0x100) * 0x100_0000 + (c / 0x1_0000 % 0x100) * 0x1_0000
            + (c / 0x100 % 0x100) * 0x100 + c % 0x100 == c
  {
    var d := c / 0x100;
    var e := d / 0x100;
    assert c / 0x1_0000 == e && c / 0x100_0000 == e / 0x100;
  }

  lemma ParseBody(r: Item)
    requires r.Record? && Fits(r)
    ensures Parse(Body(r)) == TrialRun(r.trial, r.cycles, r.flags, [])
  {
    BigEndian(r.cycles);
  }

  /** Whatever the decoder was in the middle of, a record is read whole. */
  lemma FeedRecord(s: Reading, r: Item)
    requires r.Record? && Fits(r)
    ensures FeedAll(s, Wire(r)) == Reading(s.runs + [TrialRun(r.trial, r.cycles, r.flags, [])], false, NoRec)
  {
    FeedConcat(s, [0xC0], EscapeAll(Body(r)));
    FeedOne(s, 0xC0);
    FeedEscapeAll(Feed(s, 0xC0), Body(r));
    TakesRecord(Feed(s, 0xC0), [], Body(r));
    assert [] + Body(r) == Body(r);
    ParseBody(r);
  }

  /** The decoder undoes the encoding of every list of records and bytes. */
  lemma {:induction false} DecodesTheWire(items: seq<Item>)
    requires AllFit(items)
    ensures FeedAll(EMPTY, WireAll(items)) == Reading(Runs(items), false, NoRec)
  {
    if items != [] {
      var pre, i := items[..|items| - 1], items[|items| - 1];
      DecodesTheWire(pre);
      FeedConcat(EMPTY, WireAll(pre), Wire(i));
      var s := FeedAll(EMPTY, WireAll(pre));
      if i.Record? { FeedRecord(s, i); } else { FeedEscape(s, i.x); }
    }
  }
}
