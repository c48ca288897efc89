/** A real run in which the host reads a trial's last byte as the next trial's: the design sends faster
    than the transmitter, the FIFO fills, and the reset comes while the last byte has no room. */
module FullFifo {
  import opened Slip
  import opened Board
  import opened Line
  import Arith
  import Order

  /** The design running, the decoder quiet; a byte decoded; the design in reset. */
  const QUIET := Pin(true, false, false, 0x41, false)
  const DONE := QUIET.(done := true)
  const RESET := QUIET.(rst := false)

  function Quiets(n: nat): seq<Pin> { seq(n, _ => QUIET) }

  datatype Option<T> = None | Some(value: T)

  /** Where a run leads in which nothing is late. */
  function Trace(ps: seq<Pin>, depth: nat, frame: nat): Option<State> {
    if ps == [] then Some(POWERED)
    else
      var p := ps[|ps| - 1];
      match Trace(ps[..|ps| - 1], depth, frame)
      case None => None
      case Some(l) =>
        if PinOk(p) && Valid(l.log.s) && Calm(l.log.s, InOf(l.f, p, Full(l, depth)))
        then Some(Tick(l, p, depth, frame)) else None
  }

  predicate At(ps: seq<Pin>, l: State, depth: nat, frame: nat) { Trace(ps, depth, frame) == Some(l) }

  lemma Next(ps: seq<Pin>, l: State, p: Pin, depth: nat, frame: nat)
    requires At(ps, l, depth, frame) && Valid(l.log.s) && PinOk(p) && Calm(l.log.s, InOf(l.f, p, Full(l, depth)))
    ensures At(ps + [p], Tick(l, p, depth, frame), depth, frame)
  {
    assert (ps + [p])[..|ps|] == ps;
  }

  lemma TraceBack(ps: seq<Pin>, l: State, depth: nat, frame: nat) returns (k: State)
    requires At(ps, l, depth, frame) && ps != []
    ensures At(ps[..|ps| - 1], k, depth, frame) && PinOk(ps[|ps| - 1]) && Valid(k.log.s)
    ensures Calm(k.log.s, InOf(k.f, ps[|ps| - 1], Full(k, depth))) && l == Tick(k, ps[|ps| - 1], depth, frame)
  {
    k := Trace(ps[..|ps| - 1], depth, frame).value;
  }

  lemma CalmOn(ps: seq<Pin>, depth: nat, frame: nat)
    requires ps != [] && AllOk(ps) && AlwaysCalm(Ports(ps[..|ps| - 1], depth, frame))
    requires var l := Line.Run(ps[..|ps| - 1], depth, frame); Calm(l.log.s, InOf(l.f, ps[|ps| - 1], Full(l, depth)))
    ensures AlwaysCalm(Ports(ps, depth, frame))
  {
    var ins := Ports(ps, depth, frame);
    PortsRun(ps[..|ps| - 1], depth, frame);
    assert ins[..|ins| - 1] == Ports(ps[..|ps| - 1], depth, frame);
  }

  lemma AllOkOn(ps: seq<Pin>)
    requires ps != [] && AllOk(ps[..|ps| - 1]) && PinOk(ps[|ps| - 1])
    ensures AllOk(ps)
  {
    assert forall k :: 0 <= k < |ps| - 1 ==> ps[k] == ps[..|ps| - 1][k];
  }

  lemma {:induction false} TraceIsRun(ps: seq<Pin>, l: State, depth: nat, frame: nat)
    requires At(ps, l, depth, frame)
    ensures AllOk(ps) && Line.Run(ps, depth, frame) == l && AlwaysCalm(Ports(ps, depth, frame))
  {
    if ps != [] {
      var k := TraceBack(ps, l, depth, frame);
      TraceIsRun(ps[..|ps| - 1], k, depth, frame);
      AllOkOn(ps);
      CalmOn(ps, depth, frame);
    }
  }

  // ---- the stages --------------------------------------------------------------------------------

  const RECORD: seq<nat> := [0xC0, 0x54, 0, 0, 0, 0, 0, 0, 0]

  /** The first record after j edges. */
  predicate Recording(l: State, j: nat, frame: nat) {
    var s := l.log.s;
    && j <= 9 && l.f == Front(true, false, false) && Valid(s)
    && !s.esc && !s.dbufV && (s.recGo <==> j < 9) && (j < 9 ==> s.rp == j && s.rec == RECORD)
    && (s.push <==> j >= 1) && |l.log.sent| == j
    && l.out == (if j >= 3 then 1 else 0) && l.busy == if j >= 3 then frame + 3 - j else 0
  }

  /** What the transmitter has to do: the bytes in the FIFO, and the rest of its frame. */
  function Load(l: State, frame: nat): int { Stored(l) * (frame + 1) + l.busy }

  predicate Loaded(l: State, load: nat, frame: nat) {
    Valid(l.log.s) && Stored(l) >= 1 && l.busy <= frame && Load(l, frame) == load
  }

  /** The sequencer at rest; a byte due in the flops, then in dbuf, then in the push register. */
  predicate Settled(l: State, load: nat, frame: nat) {
    var s := l.log.s;
    Loaded(l, load, frame) && l.f == Front(true, false, false) && !s.esc && !s.recGo && !s.dbufV && !s.push
  }

  predicate Decoded(l: State, load: nat, frame: nat) {
    var s := l.log.s;
    Loaded(l, load, frame) && l.f == Front(true, true, false) && !s.esc && !s.recGo && !s.dbufV && !s.push
  }

  predicate Heard(l: State, load: nat, frame: nat) {
    var s := l.log.s;
    && Loaded(l, load, frame) && l.f == Front(true, false, true)
    && !s.esc && !s.recGo && s.dbufV && s.dbuf == 0x41 && !s.push
  }

  predicate Sending(l: State, load: nat, frame: nat) {
    var s := l.log.s;
    Loaded(l, load, frame) && l.f == Front(true, false, false) && !s.esc && !s.recGo && !s.dbufV && s.push
  }

  function InAt(l: State, p: Pin, depth: nat): In { InOf(l.f, p, Full(l, depth)) }

  /** The load of a FIFO with this many bytes. */
  function Weight(n: nat, frame: nat): nat { n * (frame + 1) }

  lemma LoadTells(l: State, load: nat, n: nat, frame: nat)
    requires Loaded(l, load, frame)
    ensures load >= Weight(n, frame) <==> Stored(l) >= n
    ensures load < Weight(n, frame) <==> Stored(l) < n
  {
    if Stored(l) >= n { Arith.MulLeq(n, Stored(l), frame + 1); } else { Arith.MulLess(Stored(l), n, frame + 1); }
  }

  /** Every edge takes one off the load, and a byte that comes into the FIFO adds a frame and one. */
  lemma LoadTick(l: State, r: State, load: nat, frame: nat)
    requires Loaded(l, load, frame) && load >= Weight(2, frame) && Valid(r.log.s)
    requires r.out == (if Takes(l) then l.out + 1 else l.out)
    requires r.busy == if Takes(l) then frame else if l.busy > 0 then l.busy - 1 else 0
    requires |r.log.sent| - (if r.log.s.push then 1 else 0) == |l.log.sent|
    ensures Loaded(r, if l.log.s.push then load + frame else load - 1, frame)
  {
    LoadTells(l, load, 2, frame);
    var s, k := Stored(l), frame + 1;
    assert (s - 1) * k == s * k - k && (s + 1) * k == s * k + k;
  }

  lemma StartTick(depth: nat, frame: nat)
    requires depth >= 16
    ensures Calm(POWER_ON, InAt(POWERED, QUIET, depth)) && Recording(Tick(POWERED, QUIET, depth, frame), 0, frame)
  {
  }

  lemma RecordTick(l: State, j: nat, depth: nat, frame: nat)
    requires depth >= 16 && frame >= 16 && j < 9 && Recording(l, j, frame)
    ensures Calm(l.log.s, InAt(l, QUIET, depth)) && Recording(Tick(l, QUIET, depth, frame), j + 1, frame)
  {
  }

  lemma RecordedTick(l: State, depth: nat, frame: nat)
    requires depth >= 16 && frame >= 16 && Recording(l, 9, frame)
    ensures Calm(l.log.s, InAt(l, QUIET, depth))
    ensures Settled(Tick(l, QUIET, depth, frame), Weight(8, frame) + frame - 7, frame)
  {
  }

  lemma QuietTick(l: State, load: nat, depth: nat, frame: nat)
    requires Settled(l, load, frame) && load >= Weight(2, frame)
    ensures Calm(l.log.s, InAt(l, QUIET, depth)) && Settled(Tick(l, QUIET, depth, frame), load - 1, frame)
  {
    LoadTick(l, Tick(l, QUIET, depth, frame), load, frame);
  }

  lemma DoneTick(l: State, load: nat, depth: nat, frame: nat)
    requires Settled(l, load, frame) && load >= Weight(2, frame)
    ensures Calm(l.log.s, InAt(l, DONE, depth)) && Decoded(Tick(l, DONE, depth, frame), load - 1, frame)
  {
    LoadTick(l, Tick(l, DONE, depth, frame), load, frame);
  }

  lemma DecodedTick(l: State, load: nat, depth: nat, frame: nat)
    requires Decoded(l, load, frame) && load >= Weight(2, frame)
    ensures Calm(l.log.s, InAt(l, QUIET, depth)) && Heard(Tick(l, QUIET, depth, frame), load - 1, frame)
  {
    LoadTick(l, Tick(l, QUIET, depth, frame), load, frame);
  }

  lemma HeardTick(l: State, load: nat, depth: nat, frame: nat)
    requires Heard(l, load, frame) && depth >= 2 && Weight(2, frame) <= load < Weight(depth - 2, frame)
    ensures Calm(l.log.s, InAt(l, QUIET, depth)) && Sending(Tick(l, QUIET, depth, frame), load - 1, frame)
  {
    LoadTells(l, load, depth - 2, frame);
    LoadTick(l, Tick(l, QUIET, depth, frame), load, frame);
  }

  lemma SendingTick(l: State, load: nat, depth: nat, frame: nat)
    requires Sending(l, load, frame) && load >= Weight(2, frame)
    ensures Calm(l.log.s, InAt(l, QUIET, depth)) && Settled(Tick(l, QUIET, depth, frame), load + frame, frame)
  {
    LoadTick(l, Tick(l, QUIET, depth, frame), load, frame);
  }

  // ---- the run ---------------------------------------------------------------------------------------

  /** Edges since the decoder's last byte. */
  function Since(ps: seq<Pin>, gap: nat): nat {
    if ps == [] then gap else if ps[|ps| - 1].done then 1 else Since(ps[..|ps| - 1], gap) + 1
  }

  /** Its bytes come at least `gap` edges apart. */
  predicate Spaced(ps: seq<Pin>, gap: nat) {
    ps == [] || (Spaced(ps[..|ps| - 1], gap) && (ps[|ps| - 1].done ==> Since(ps[..|ps| - 1], gap) >= gap))
  }

  lemma SpacedOn(ps: seq<Pin>, p: Pin, gap: nat)
    requires Spaced(ps, gap) && (p.done ==> Since(ps, gap) >= gap)
    ensures Spaced(ps + [p], gap) && Since(ps + [p], gap) == if p.done then 1 else Since(ps, gap) + 1
  {
    assert (ps + [p])[..|ps|] == ps;
  }

  /** The run has come to l, nothing has been late, and the next byte may come. */
  predicate Here(ps: seq<Pin>, l: State, gap: nat, since: nat, depth: nat, frame: nat) {
    At(ps, l, depth, frame) && Spaced(ps, gap) && Since(ps, gap) == since
  }

  lemma Go(ps: seq<Pin>, l: State, p: Pin, gap: nat, since: nat, depth: nat, frame: nat) returns (r: State)
    requires Here(ps, l, gap, since, depth, frame) && Valid(l.log.s) && PinOk(p) && Calm(l.log.s, InAt(l, p, depth))
    requires p.done ==> since >= gap
    ensures r == Tick(l, p, depth, frame) && Here(ps + [p], r, gap, if p.done then 1 else since + 1, depth, frame)
  {
    Next(ps, l, p, depth, frame);
    SpacedOn(ps, p, gap);
    r := Tick(l, p, depth, frame);
  }

  lemma {:induction false} RecordRun(j: nat, gap: nat, depth: nat, frame: nat) returns (r: State)
    requires depth >= 16 && frame >= 16 && j <= 9
    ensures Here([QUIET] + Quiets(j), r, gap, gap + 1 + j, depth, frame) && Recording(r, j, frame)
  {
    if j == 0 {
      StartTick(depth, frame);
      r := Go([], POWERED, QUIET, gap, gap, depth, frame);
      assert [] + [QUIET] == [QUIET] + Quiets(0);
    } else {
      var l := RecordRun(j - 1, gap, depth, frame);
      RecordTick(l, j - 1, depth, frame);
      r := Go([QUIET] + Quiets(j - 1), l, QUIET, gap, gap + j, depth, frame);
      assert [QUIET] + Quiets(j - 1) + [QUIET] == [QUIET] + Quiets(j);
    }
  }

  lemma FirstRecord(gap: nat, depth: nat, frame: nat) returns (ps: seq<Pin>, r: State)
    requires depth >= 16 && frame >= 16
    ensures Here(ps, r, gap, gap + 11, depth, frame) && Settled(r, Weight(8, frame) + frame - 7, frame)
  {
    var l := RecordRun(9, gap, depth, frame);
    RecordedTick(l, depth, frame);
    r := Go([QUIET] + Quiets(9), l, QUIET, gap, gap + 10, depth, frame);
    ps := [QUIET] + Quiets(9) + [QUIET];
  }

  lemma {:induction false} Idle(ps: seq<Pin>, l: State, load: nat, k: nat, gap: nat, since: nat, depth: nat, frame: nat)
    returns (qs: seq<Pin>, r: State)
    requires Here(ps, l, gap, since, depth, frame) && Settled(l, load, frame) && load >= Weight(2, frame) + k
    ensures Here(qs, r, gap, since + k, depth, frame) && Settled(r, load - k, frame)
  {
    if k == 0 {
      qs, r := ps, l;
    } else {
      var m, a := Idle(ps, l, load, k - 1, gap, since, depth, frame);
      QuietTick(a, load - (k - 1), depth, frame);
      r := Go(m, a, QUIET, gap, since + (k - 1), depth, frame);
      qs := m + [QUIET];
    }
  }

  /** A byte of the design is decoded and reaches dbuf. */
  lemma Hear(ps: seq<Pin>, l: State, load: nat, gap: nat, since: nat, depth: nat, frame: nat)
    returns (qs: seq<Pin>, r: State)
    requires Here(ps, l, gap, since, depth, frame) && Settled(l, load, frame)
    requires load >= Weight(2, frame) + 2 && since >= gap
    ensures Here(qs, r, gap, 2, depth, frame) && Heard(r, load - 2, frame)
  {
    DoneTick(l, load, depth, frame);
    var a := Go(ps, l, DONE, gap, since, depth, frame);
    DecodedTick(a, load - 1, depth, frame);
    r := Go(ps + [DONE], a, QUIET, gap, 1, depth, frame);
    qs := ps + [DONE] + [QUIET];
  }

  /** With room it goes on into the FIFO, and its frame runs out. */
  lemma Send(ps: seq<Pin>, l: State, load: nat, gap: nat, since: nat, depth: nat, frame: nat)
    returns (qs: seq<Pin>, r: State)
    requires Here(ps, l, gap, since, depth, frame) && Settled(l, load, frame) && since >= gap >= 20 && frame >= gap
    requires depth >= 16 && Weight(3, frame) <= load < Weight(depth - 2, frame)
    ensures Here(qs, r, gap, gap, depth, frame) && Settled(r, load + frame + 1 - gap, frame)
  {
    var m, a := Hear(ps, l, load, gap, since, depth, frame);
    HeardTick(a, load - 2, depth, frame);
    var b := Go(m, a, QUIET, gap, 2, depth, frame);
    SendingTick(b, load - 3, depth, frame);
    var d := Go(m + [QUIET], b, QUIET, gap, 3, depth, frame);
    qs, r := Idle(m + [QUIET] + [QUIET], d, load - 3 + frame, gap - 4, gap, 4, depth, frame);
  }

  /** Frame by frame the FIFO fills up. */
  lemma {:induction false} Fill(ps: seq<Pin>, l: State, load: nat, gap: nat, since: nat, depth: nat, frame: nat)
    returns (qs: seq<Pin>, r: State, full: nat)
    requires Here(ps, l, gap, since, depth, frame) && Settled(l, load, frame) && since >= gap >= 20 && frame >= gap + 4
    requires depth >= 16 && Weight(3, frame) <= load
    ensures Here(qs, r, gap, gap, depth, frame) || Here(qs, r, gap, since, depth, frame)
    ensures Settled(r, full, frame) && full >= Weight(depth - 2, frame)
    decreases Weight(depth - 2, frame) - load
  {
    if load >= Weight(depth - 2, frame) {
      qs, r, full := ps, l, load;
    } else {
      var m, a := Send(ps, l, load, gap, since, depth, frame);
      qs, r, full := Fill(m, a, load + frame + 1 - gap, gap, gap, depth, frame);
    }
  }

  /** And with four edges of the transmitter's frame to spare. */
  lemma TopUp(ps: seq<Pin>, l: State, load: nat, gap: nat, since: nat, depth: nat, frame: nat)
    returns (qs: seq<Pin>, r: State, full: nat, s: nat)
    requires Here(ps, l, gap, since, depth, frame) && Settled(l, load, frame) && since >= gap >= 20 && frame >= gap + 4
    requires depth >= 16 && load >= Weight(depth - 2, frame)
    ensures s >= gap && Here(qs, r, gap, s, depth, frame)
    ensures Settled(r, full, frame) && full >= Weight(depth - 2, frame) + 4
  {
    if load >= Weight(depth - 2, frame) + 4 {
      qs, r, full, s := ps, l, load, since;
    } else {
      var top, k := Weight(depth - 2, frame), load - Weight(depth - 2, frame) + 1;
      Arith.MulLess(3, depth - 2, frame + 1);
      var m, a := Idle(ps, l, load, k, gap, since, depth, frame);
      qs, r := Send(m, a, top - 1, gap, since + k, depth, frame);
      full, s := top - 1 + frame + 1 - gap, gap;
    }
  }

  // ---- the last byte ------------------------------------------------------------------------------------

  /** No room, and the design in reset: the byte stays where it is. */
  lemma ResetTick(l: State, load: nat, depth: nat, frame: nat)
    requires Heard(l, load, frame) && depth >= 16 && load >= Weight(depth - 2, frame) + 1
    ensures Calm(l.log.s, InAt(l, RESET, depth))
    ensures var r := Tick(l, RESET, depth, frame);
            r.f == POWERED.f && Heard(r.(f := Front(true, false, true)), load - 1, frame)
  {
    LoadTells(l, load, depth - 2, frame);
    Arith.MulLess(2, depth - 2, frame + 1);
    LoadTick(l, Tick(l, RESET, depth, frame), load, frame);
  }

  lemma LateStart(l: State, load: nat, depth: nat, frame: nat)
    requires l.f == POWERED.f && Heard(l.(f := Front(true, false, true)), load, frame)
    requires depth >= 16 && load >= Weight(depth - 2, frame)
    ensures !Calm(l.log.s, InAt(l, QUIET, depth)) && !Order.Refuses(l.log.s, InAt(l, QUIET, depth))
  {
    LoadTells(l.(f := Front(true, false, true)), load, depth - 2, frame);
  }

  lemma LateIsMisread(ps: seq<Pin>, l: State, depth: nat, frame: nat)
    requires At(ps, l, depth, frame)
    requires !Calm(l.log.s, InAt(l, QUIET, depth)) && !Order.Refuses(l.log.s, InAt(l, QUIET, depth))
    ensures AllOk(ps + [QUIET])
    ensures var ins := Ports(ps + [QUIET], depth, frame); Order.NeverRefuses(ins) && !Order.ReadsTruly(ins)
  {
    var qs := ps + [QUIET];
    TraceIsRun(ps, l, depth, frame);
    assert qs[..|ps|] == ps;
    var ins := Ports(qs, depth, frame);
    assert ins[..|ins| - 1] == Ports(ps, depth, frame);
    PortsRun(ps, depth, frame);
    Order.CalmRefusesNothing(Ports(ps, depth, frame));
    Order.CalmIff(ins);
    BoardReadsIff(qs, depth, frame);
  }

  lemma LateGo(ps: seq<Pin>, l: State, load: nat, gap: nat, since: nat, depth: nat, frame: nat) returns (qs: seq<Pin>)
    requires Here(ps, l, gap, since, depth, frame) && Heard(l, load, frame)
    requires depth >= 16 && load >= Weight(depth - 2, frame) + 1
    ensures Spaced(qs, gap) && AllOk(qs)
    ensures var ins := Ports(qs, depth, frame); Order.NeverRefuses(ins) && !Order.ReadsTruly(ins)
  {
    ResetTick(l, load, depth, frame);
    var a := Go(ps, l, RESET, gap, since, depth, frame);
    LateStart(a, load - 1, depth, frame);
    LateIsMisread(ps + [RESET], a, depth, frame);
    SpacedOn(ps + [RESET], QUIET, gap);
    qs := ps + [RESET] + [QUIET];
  }

  /** For every FIFO of 16 bytes or more and every decoder whose bytes come somewhat faster than the
      transmitter's leave: a run from power-on in which nothing is refused, and the host reads something
      that did not happen. */
  lemma {:induction false} FullFifoMisreads(gap: nat, depth: nat, frame: nat) returns (ps: seq<Pin>)
    requires depth >= 16 && gap >= 20 && frame >= gap + 4
    ensures AllOk(ps) && Spaced(ps, gap)
    ensures var ins := Ports(ps, depth, frame); Order.NeverRefuses(ins) && !Order.ReadsTruly(ins)
  {
    var a, l := FirstRecord(gap, depth, frame);
    Arith.MulLess(3, 8, frame + 1);
    var b, m, full := Fill(a, l, Weight(8, frame) + frame - 7, gap, gap + 11, depth, frame);
    var since := Since(b, gap);
    var d, n, top, s := TopUp(b, m, full, gap, since, depth, frame);
    Arith.MulLess(2, depth - 2, frame + 1);
    var e, r := Hear(d, n, top, gap, s, depth, frame);
    ps := LateGo(e, r, top - 2, gap, 2, depth, frame);
  }
}
