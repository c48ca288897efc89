/** The output observer (rtl/fi_uart_obs.v): an 8N1 receiver that advances only on functional
    edges. A byte is its eight bits, least significant first. */
module UartObs {

  type Byte = b: seq<bool> | |b| == 8 witness [false, false, false, false, false, false, false, false]

  datatype St = Idle | Start | Data | Stop

  datatype Rx = Rx(st: St, cnt: nat, bitI: nat, sh: Byte, rxQ: bool, data: Byte, valid: bool, ferr: bool)

  const ZERO: Byte := [false, false, false, false, false, false, false, false]

  const POWER_ON := Rx(Idle, 0, 0, ZERO, true, ZERO, false, false)

  /** One clock edge; `c` is CLKS_PER_BIT. */
  function Step(s: Rx, run: bool, rx: bool, c: nat): Rx
    requires c >= 2
  {
    var n := s.(valid := false, ferr := false);
    if !run then n else
      var m := n.(rxQ := rx);
      match s.st
      case Idle => if s.rxQ then m else m.(st := Start, cnt := c / 2 - 1)
      case Start =>
        if s.cnt != 0 then m.(cnt := s.cnt - 1)
        else if s.rxQ then m.(st := Idle) else m.(st := Data, cnt := c - 1, bitI := 0)
      case Data =>
        if s.cnt != 0 then m.(cnt := s.cnt - 1)
        else m.(sh := s.sh[1..] + [s.rxQ], cnt := c - 1, bitI := (s.bitI + 1) % 8,
                st := if s.bitI == 7 then Stop else Data)
      case Stop =>
        if s.cnt != 0 then m.(cnt := s.cnt - 1)
        else if s.rxQ then m.(st := Idle, data := s.sh, valid := true) else m.(st := Idle, ferr := true)
  }

  /** The observer's clocked block. */
  class Receiver {
    const c: nat
    var r: Rx

    constructor (c: nat)
      ensures r == POWER_ON && this.c == c
    {
      this.c, r := c, POWER_ON;
    }

    method Tick(run: bool, rx: bool)
      requires c >= 2
      modifies this
      ensures r == Step(old(r), run, rx, c)
    {
      var s := r;
      r := r.(valid := false, ferr := false);
      if run {
        r := r.(rxQ := rx);
        match s.st {
          case Idle =>
            if !s.rxQ { r := r.(st := Start, cnt := c / 2 - 1); }
          case Start =>
            if s.cnt == 0 {
              if !s.rxQ { r := r.(st := Data, cnt := c - 1, bitI := 0); } else { r := r.(st := Idle); }
            } else {
              r := r.(cnt := s.cnt - 1);
            }
          case Data =>
            if s.cnt == 0 {
              r := r.(sh := s.sh[1..] + [s.rxQ], cnt := c - 1, bitI := (s.bitI + 1) % 8);
              if s.bitI == 7 { r := r.(st := Stop); }
            } else {
              r := r.(cnt := s.cnt - 1);
            }
          case Stop =>
            if s.cnt == 0 {
              r := r.(st := Idle);
              if s.rxQ { r := r.(data := s.sh, valid := true); } else { r := r.(ferr := true); }
            } else {
              r := r.(cnt := s.cnt - 1);
            }
        }
      }
    }
  }

  // ---- what an observer of the outputs collects -------------------------------------------------

  datatype Obs = Obs(r: Rx, out: seq<Byte>, errs: nat)

  function Watch(o: Obs, run: bool, rx: bool, c: nat): Obs
    requires c >= 2
  {
    var n := Step(o.r, run, rx, c);
    Obs(n, if n.valid then o.out + [n.data] else o.out, if n.ferr then o.errs + 1 else o.errs)
  }

  /** Functional edges only. */
  function Hear(o: Obs, line: seq<bool>, c: nat): Obs
    requires c >= 2
  {
    if line == [] then o else Watch(Hear(o, line[..|line| - 1], c), true, line[|line| - 1], c)
  }

  /** All clock edges, frozen ones included. */
  datatype Edge = Edge(run: bool, rx: bool)

  function HearAll(o: Obs, edges: seq<Edge>, c: nat): Obs
    requires c >= 2
  {
    if edges == [] then o
    else Watch(HearAll(o, edges[..|edges| - 1], c), edges[|edges| - 1].run, edges[|edges| - 1].rx, c)
  }

  /** The levels on the functional edges. */
  function Functional(edges: seq<Edge>): seq<bool> {
    if edges == [] then []
    else Functional(edges[..|edges| - 1]) + if edges[|edges| - 1].run then [edges[|edges| - 1].rx] else []
  }

  /** Apart from the output strobes. */
  predicate Same(o: Obs, p: Obs) {
    o.out == p.out && o.errs == p.errs && o.r.(valid := false, ferr := false) == p.r.(valid := false, ferr := false)
  }

  lemma WatchSame(o: Obs, p: Obs, rx: bool, c: nat)
    requires c >= 2 && Same(o, p)
    ensures Same(Watch(o, true, rx, c), Watch(p, true, rx, c)) && Same(Watch(o, false, rx, c), p)
  {
  }

  /** Frozen edges are never seen, whatever the pin does on them. */
  lemma {:induction false} FrozenEdgesVanish(o: Obs, edges: seq<Edge>, c: nat)
    requires c >= 2
    ensures Same(HearAll(o, edges, c), Hear(o, Functional(edges), c))
  {
    if edges != [] {
      var pre, e := edges[..|edges| - 1], edges[|edges| - 1];
      FrozenEdgesVanish(o, pre, c);
      WatchSame(HearAll(o, pre, c), Hear(o, Functional(pre), c), e.rx, c);
      if e.run {
        assert Functional(edges)[..|Functional(edges)| - 1] == Functional(pre);
      } else {
        assert Functional(edges) == Functional(pre);
      }
    }
  }

  // ---- the transmitter --------------------------------------------------------------------------

  function Hold(bit: bool, c: nat): seq<bool> { seq(c, _ => bit) }

  /** Each bit for c functional edges. */
  function Spread(bits: seq<bool>, c: nat): seq<bool> {
    if bits == [] then [] else Spread(bits[..|bits| - 1], c) + Hold(bits[|bits| - 1], c)
  }

  /** Start bit, eight data bits, and the stop bit, which is high in a good frame. */
  function Bits(b: Byte, stop: bool): seq<bool> { [false] + b + [stop] }

  function Frame(b: Byte, stop: bool, c: nat): seq<bool> { Spread(Bits(b, stop), c) }

  lemma {:induction false} SpreadLength(bits: seq<bool>, c: nat)
    ensures |Spread(bits, c)| == |bits| * c
  {
    if bits != [] {
      SpreadLength(bits[..|bits| - 1], c);
      assert |bits| * c == (|bits| - 1) * c + c;
    }
  }

  lemma BlockEnds(p: nat, n: nat, c: nat)
    requires p < n
    ensures p * c + c <= n * c
  {
    assert n * c == p * c + (n - p) * c;
    assert (n - p) * c >= c by { assert (n - p - 1) * c >= 0; }
  }

  lemma {:induction false} SpreadAt(bits: seq<bool>, c: nat, p: nat, k: nat)
    requires p < |bits| && k < c
    ensures p * c + k < |Spread(bits, c)| && Spread(bits, c)[p * c + k] == bits[p]
  {
    var pre := bits[..|bits| - 1];
    SpreadLength(bits, c);
    SpreadLength(pre, c);
    BlockEnds(p, |bits|, c);
    if p < |pre| {
      SpreadAt(pre, c, p, k);
    }
  }

  /** The level p*c + k edges into a frame. */
  lemma LevelAt(b: Byte, stop: bool, c: nat, p: nat, k: nat)
    requires p < 10 && k < c
    ensures |Frame(b, stop, c)| == 10 * c && p * c + k < 10 * c
    ensures Frame(b, stop, c)[p * c + k] == Bits(b, stop)[p]
  {
    SpreadLength(Bits(b, stop), c);
    SpreadAt(Bits(b, stop), c, p, k);
  }

  // ---- one frame ----------------------------------------------------------------------------------

  /** Before this frame: nothing, or the previous byte waiting for the edge that reports it (with
      two edges per bit, that edge is already the next frame's first), or the edge that tells the end of
      a low stop bit from a start bit. */
  ghost predicate Rested(o: Obs, done: seq<Byte>, errs: nat) {
    && o.errs == errs && o.r.rxQ
    && (|| (o.r.st == Idle && o.out == done)
        || (o.r.st == Start && o.r.cnt == 0 && o.out == done)
        || (o.r.st == Stop && o.r.cnt == 0 && o.out + [o.r.sh] == done))
  }

  /** What the receiver is at after p samples of the frame. */
  ghost predicate Sampled(r: Rx, b: Byte, p: nat) {
    if p == 0 then r.st == Start
    else if p <= 8 then r.st == Data && r.bitI == p - 1 && r.sh[9 - p..] == b[..p - 1]
    else r.st == Stop && r.sh == b
  }

  /** u edges into the frame of byte b, with p of its bits sampled. */
  ghost predicate InFrame(o: Obs, b: Byte, stop: bool, u: nat, p: nat, done: seq<Byte>, errs: nat, c: nat) {
    && c >= 2 && 1 <= u <= 10 * c == |Frame(b, stop, c)| && p <= 10
    && o.errs == (if p == 10 && !stop then errs + 1 else errs)
    && o.r.rxQ == Frame(b, stop, c)[u - 1]
    && if u == 1 then p == 0 && o.r.st == Idle && o.out == done
       else if p <= 9 then u + o.r.cnt == c / 2 + 1 + p * c && o.out == done && Sampled(o.r, b, p)
       else if stop then u >= c / 2 + 2 + 9 * c && o.r.st == Idle && o.out == done + [b]
       else
         && u >= c / 2 + 2 + 9 * c && o.out == done
         && if u == c / 2 + 2 + 9 * c then o.r.st == Idle
            else o.r.st == Start && u + o.r.cnt == 9 * c + c / 2 * 2 + 2
  }

  lemma FrameBegins(o: Obs, b: Byte, stop: bool, done: seq<Byte>, errs: nat, c: nat)
    requires c >= 2 && Rested(o, done, errs)
    ensures InFrame(Watch(o, true, false, c), b, stop, 1, 0, done, errs, c) && Frame(b, stop, c)[0] == false
  {
    LevelAt(b, stop, c, 0, 0);
  }

  /** A sample reads the middle of its bit. */
  lemma SampleReads(o: Obs, b: Byte, stop: bool, u: nat, p: nat, done: seq<Byte>, errs: nat, c: nat)
    requires InFrame(o, b, stop, u, p, done, errs, c) && 2 <= u < 10 * c && p <= 9 && o.r.cnt == 0
    ensures u == p * c + c / 2 + 1 && o.r.rxQ == Bits(b, stop)[p] && Sampled(o.r, b, p) && o.out == done
    ensures (p + 1) * c == p * c + c
  {
    LevelAt(b, stop, c, p, c / 2);
    assert u - 1 == p * c + c / 2;
  }

  lemma DataShifts(sh: Byte, b: Byte, p: nat, bit: bool)
    requires 1 <= p <= 8 && sh[9 - p..] == b[..p - 1] && bit == b[p - 1]
    ensures (sh[1..] + [bit])[8 - p..] == b[..p] && (p == 8 ==> sh[1..] + [bit] == b)
  {
    assert (sh[1..] + [bit])[8 - p..] == sh[9 - p..] + [bit];
    assert b[..p] == b[..p - 1] + [b[p - 1]];
    if p == 8 { assert b[..8] == b; }
  }

  /** What a sample makes of the receiver. */
  lemma SampleTaken(o: Obs, b: Byte, stop: bool, p: nat, rx: bool, c: nat)
    requires c >= 2 && p <= 9 && Sampled(o.r, b, p) && o.r.cnt == 0 && o.r.rxQ == Bits(b, stop)[p]
    ensures var n := Watch(o, true, rx, c);
            && n.r.rxQ == rx
            && if p <= 8 then n.r.cnt == c - 1 && Sampled(n.r, b, p + 1) && n.out == o.out && n.errs == o.errs
               else
                 && n.r.st == Idle && n.out == (if stop then o.out + [b] else o.out)
                 && n.errs == if stop then o.errs else o.errs + 1
  {
    if 1 <= p <= 8 { DataShifts(o.r.sh, b, p, o.r.rxQ); }
  }

  lemma SampleStep(o: Obs, b: Byte, stop: bool, u: nat, p: nat, done: seq<Byte>, errs: nat, c: nat)
    requires InFrame(o, b, stop, u, p, done, errs, c) && 2 <= u < 10 * c && p <= 9 && o.r.cnt == 0
    ensures InFrame(Watch(o, true, Frame(b, stop, c)[u], c), b, stop, u + 1, p + 1, done, errs, c)
  {
    SampleReads(o, b, stop, u, p, done, errs, c);
    SampleTaken(o, b, stop, p, Frame(b, stop, c)[u], c);
  }

  lemma CountStep(o: Obs, b: Byte, stop: bool, u: nat, p: nat, done: seq<Byte>, errs: nat, c: nat)
    requires InFrame(o, b, stop, u, p, done, errs, c) && 2 <= u < 10 * c && p <= 9 && o.r.cnt != 0
    ensures InFrame(Watch(o, true, Frame(b, stop, c)[u], c), b, stop, u + 1, p, done, errs, c)
  {
  }

  lemma TailStep(o: Obs, b: Byte, stop: bool, u: nat, done: seq<Byte>, errs: nat, c: nat)
    requires InFrame(o, b, stop, u, 10, done, errs, c) && 2 <= u < 10 * c
    ensures InFrame(Watch(o, true, Frame(b, stop, c)[u], c), b, stop, u + 1, 10, done, errs, c)
  {
  }

  lemma FirstStep(o: Obs, b: Byte, stop: bool, done: seq<Byte>, errs: nat, c: nat)
    requires InFrame(o, b, stop, 1, 0, done, errs, c)
    ensures InFrame(Watch(o, true, Frame(b, stop, c)[1], c), b, stop, 2, 0, done, errs, c)
  {
    LevelAt(b, stop, c, 0, 0);
  }

  lemma HearStep(o: Obs, line: seq<bool>, u: nat, c: nat)
    requires c >= 2 && 1 <= u <= |line|
    ensures Hear(o, line[..u], c) == Watch(Hear(o, line[..u - 1], c), true, line[u - 1], c)
  {
    assert line[..u][..u - 1] == line[..u - 1];
  }

  lemma FrameStep(m: Obs, b: Byte, stop: bool, u: nat, p: nat, done: seq<Byte>, errs: nat, c: nat) returns (n: nat)
    requires InFrame(m, b, stop, u, p, done, errs, c) && u < 10 * c
    ensures InFrame(Watch(m, true, Frame(b, stop, c)[u], c), b, stop, u + 1, n, done, errs, c)
  {
    n := p;
    if u == 1 { FirstStep(m, b, stop, done, errs, c); }
    else if p == 10 { TailStep(m, b, stop, u, done, errs, c); }
    else if m.r.cnt == 0 { SampleStep(m, b, stop, u, p, done, errs, c); n := p + 1; }
    else { CountStep(m, b, stop, u, p, done, errs, c); }
  }

  /** After n edges of a line. */
  function After(o: Obs, line: seq<bool>, n: nat, c: nat): Obs
    requires c >= 2 && n <= |line|
  {
    if n == 0 then o else Watch(After(o, line, n - 1, c), true, line[n - 1], c)
  }

  lemma {:induction false} AfterIsHear(o: Obs, line: seq<bool>, n: nat, c: nat)
    requires c >= 2 && n <= |line|
    ensures After(o, line, n, c) == Hear(o, line[..n], c)
  {
    if n > 0 {
      AfterIsHear(o, line, n - 1, c);
      HearStep(o, line, n, c);
    }
  }

  lemma FrameMore(m: Obs, n: Obs, level: bool, b: Byte, stop: bool, v: nat, p: nat,
                  done: seq<Byte>, errs: nat, c: nat) returns (q: nat)
    requires InFrame(m, b, stop, v, p, done, errs, c) && v < 10 * c && level == Frame(b, stop, c)[v]
    requires n == Watch(m, true, level, c)
    ensures InFrame(n, b, stop, v + 1, q, done, errs, c)
  {
    q := FrameStep(m, b, stop, v, p, done, errs, c);
  }

  lemma {:induction false} FrameRuns(o: Obs, line: seq<bool>, b: Byte, stop: bool, u: nat,
                                     done: seq<Byte>, errs: nat, c: nat) returns (p: nat)
    requires c >= 2 && Rested(o, done, errs) && line == Frame(b, stop, c) && 1 <= u <= 10 * c == |line|
    ensures InFrame(After(o, line, u, c), b, stop, u, p, done, errs, c)
  {
    if u == 1 {
      FrameBegins(o, b, stop, done, errs, c);
      assert After(o, line, 0, c) == o;
      p := 0;
    } else {
      var v: nat := u - 1;
      var q := FrameRuns(o, line, b, stop, v, done, errs, c);
      p := FrameMore(After(o, line, v, c), After(o, line, u, c), line[v], b, stop, v, q, done, errs, c);
    }
  }

  /** Behind a frame with a low stop bit: the line still reads like a start bit. */
  ghost predicate Failed(o: Obs, done: seq<Byte>, errs: nat, c: nat) {
    && o.out == done && !o.r.rxQ
    && if c == 2 then o.r.st == Stop && o.r.cnt == 0 && o.errs == errs
       else o.errs == errs + 1 && if c <= 4 then o.r.st == Idle else o.r.st == Start && o.r.cnt == 2 - c % 2
  }

  /** A frame is received whole; with two edges per bit its byte waits for the next edge. With a low stop
      bit it adds a framing error and no byte. */
  lemma {:induction false} FrameHeard(o: Obs, b: Byte, stop: bool, done: seq<Byte>, errs: nat, c: nat)
    requires c >= 2 && Rested(o, done, errs)
    ensures var r := Hear(o, Frame(b, stop, c), c);
            if stop then Rested(r, done + [b], errs) else Failed(r, done, errs, c)
  {
    LevelAt(b, stop, c, 9, c - 1);
    var p := FrameRuns(o, Frame(b, stop, c), b, stop, 10 * c, done, errs, c);
    AfterIsHear(o, Frame(b, stop, c), 10 * c, c);
    assert Frame(b, stop, c)[..10 * c] == Frame(b, stop, c);
    if p <= 9 { BlockEnds(p, 10, c); }
  }

  // ---- any message ------------------------------------------------------------------------------------

  /** A byte after `gap` idle edges, in a frame with this stop bit. */
  datatype Sent = Sent(gap: nat, b: Byte, stop: bool)

  function Line(msg: seq<Sent>, c: nat): seq<bool> {
    if msg == [] then []
    else
      var m := msg[|msg| - 1];
      Line(msg[..|msg| - 1], c) + Hold(true, m.gap) + Frame(m.b, m.stop, c)
  }

  /** The bytes of the good frames, and the number of the others. */
  function Bytes(msg: seq<Sent>): seq<Byte> {
    if msg == [] then [] else Bytes(msg[..|msg| - 1]) + if msg[|msg| - 1].stop then [msg[|msg| - 1].b] else []
  }

  function Faults(msg: seq<Sent>): nat {
    if msg == [] then 0 else Faults(msg[..|msg| - 1]) + if msg[|msg| - 1].stop then 0 else 1
  }

  /** The line is high for two edges at least behind a low stop bit. */
  predicate Spaced(msg: seq<Sent>) {
    forall k :: 0 < k < |msg| ==> msg[k - 1].stop || msg[k].gap >= 2
  }

  lemma {:induction false} HearConcat(o: Obs, a: seq<bool>, b: seq<bool>, c: nat)
    requires c >= 2
    ensures Hear(o, a + b, c) == Hear(Hear(o, a, c), b, c)
  {
    if b == [] {
      assert a + b == a;
    } else {
      assert (a + b)[..|a + b| - 1] == a + b[..|b| - 1];
      HearConcat(o, a, b[..|b| - 1], c);
    }
  }

  lemma {:induction false} IdleHeard(o: Obs, n: nat, done: seq<Byte>, errs: nat, c: nat)
    requires c >= 2 && Rested(o, done, errs)
    ensures Rested(Hear(o, Hold(true, n), c), done, errs)
    ensures n >= 1 ==> Hear(o, Hold(true, n), c).out == done
  {
    if n > 0 {
      IdleHeard(o, n - 1, done, errs, c);
      assert Hold(true, n)[..n - 1] == Hold(true, n - 1);
    }
  }

  /** Two idle edges behind a low stop bit are enough. */
  lemma Recovers(o: Obs, n: nat, done: seq<Byte>, errs: nat, c: nat)
    requires c >= 2 && n >= 2 && Failed(o, done, errs, c)
    ensures Rested(Hear(o, Hold(true, n), c), done, errs + 1) && Hear(o, Hold(true, n), c).out == done
  {
    var m := n - 2;
    assert Hold(true, n) == [true, true] + Hold(true, m);
    HearConcat(o, [true, true], Hold(true, m), c);
    HearStep(o, [true, true], 2, c);
    HearStep(o, [true, true], 1, c);
    assert [true, true][..2] == [true, true] && [true, true][..0] == [];
    IdleHeard(Hear(o, [true, true], c), m, done, errs + 1, c);
  }

  ghost predicate Behind(o: Obs, msg: seq<Sent>, c: nat) {
    if msg == [] || msg[|msg| - 1].stop then Rested(o, Bytes(msg), Faults(msg))
    else Faults(msg) >= 1 && Failed(o, Bytes(msg), Faults(msg) - 1, c)
  }

  lemma GapHeard(o: Obs, msg: seq<Sent>, n: nat, c: nat)
    requires c >= 2 && Behind(o, msg, c) && (msg == [] || msg[|msg| - 1].stop || n >= 2)
    ensures Rested(Hear(o, Hold(true, n), c), Bytes(msg), Faults(msg))
    ensures n >= 1 ==> Hear(o, Hold(true, n), c).out == Bytes(msg)
  {
    if msg == [] || msg[|msg| - 1].stop { IdleHeard(o, n, Bytes(msg), Faults(msg), c); }
    else { Recovers(o, n, Bytes(msg), Faults(msg) - 1, c); }
  }

  /** One more frame, behind what the receiver has heard. */
  lemma NextHeard(o: Obs, line: seq<bool>, pre: seq<Sent>, m: Sent, c: nat)
    requires c >= 2 && Behind(Hear(o, line, c), pre, c) && (pre == [] || pre[|pre| - 1].stop || m.gap >= 2)
    ensures Behind(Hear(o, line + Hold(true, m.gap) + Frame(m.b, m.stop, c), c), pre + [m], c)
  {
    HearConcat(o, line, Hold(true, m.gap), c);
    HearConcat(o, line + Hold(true, m.gap), Frame(m.b, m.stop, c), c);
    GapHeard(Hear(o, line, c), pre, m.gap, c);
    FrameHeard(Hear(o, line + Hold(true, m.gap), c), m.b, m.stop, Bytes(pre), Faults(pre), c);
    assert (pre + [m])[..|pre|] == pre;
  }

  /** The message is its first k frames and one more. */
  lemma LineMore(msg: seq<Sent>, k: nat, c: nat)
    requires k < |msg| && Spaced(msg)
    ensures Line(msg[..k + 1], c) == Line(msg[..k], c) + Hold(true, msg[k].gap) + Frame(msg[k].b, msg[k].stop, c)
    ensures msg[..k + 1] == msg[..k] + [msg[k]]
    ensures msg[..k] == [] || msg[..k][|msg[..k]| - 1].stop || msg[k].gap >= 2
  {
    assert msg[..k + 1][..k] == msg[..k];
  }

  lemma {:induction false} LineHeard(o: Obs, msg: seq<Sent>, k: nat, c: nat)
    requires c >= 2 && Spaced(msg) && k <= |msg| && o == Obs(POWER_ON, [], 0)
    ensures Behind(Hear(o, Line(msg[..k], c), c), msg[..k], c)
  {
    if k > 0 {
      var j: nat := k - 1;
      LineHeard(o, msg, j, c);
      NextHeard(o, Line(msg[..j], c), msg[..j], msg[j], c);
      LineMore(msg, j, c);
    }
  }

  /** For every list of frames, every gap between them, every bit period of two or more and every
      placement of frozen edges: once the line has been idle for a functional edge, the bytes reported are
      exactly those sent in frames with a good stop bit, in order, and there is one framing error for each
      of the others. Behind one of these the line has to be idle for two edges. */
  lemma {:induction false} ReceivesWhatWasSent(msg: seq<Sent>, tail: nat, edges: seq<Edge>, c: nat)
    requires c >= 2 && tail >= 1 && Functional(edges) == Line(msg, c) + Hold(true, tail)
    requires Spaced(msg) && (msg == [] || msg[|msg| - 1].stop || tail >= 2)
    ensures var o := HearAll(Obs(POWER_ON, [], 0), edges, c); o.out == Bytes(msg) && o.errs == Faults(msg)
  {
    var o := Obs(POWER_ON, [], 0);
    FrozenEdgesVanish(o, edges, c);
    HearConcat(o, Line(msg, c), Hold(true, tail), c);
    LineHeard(o, msg, |msg|, c);
    assert msg[..|msg|] == msg;
    GapHeard(Hear(o, Line(msg, c), c), msg, tail, c);
  }
}
