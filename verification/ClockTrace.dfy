/** The walk over the netlist that finds what drives a clock net (fpga/tools/clocktrace.py,
    clock_of and _gate2): a recursion with a memo, in which a net being traced is marked as a loop. */
module ClockTrace {
  import opened ClockTree

  type Net = nat

  /** What drives a net, pins resolved to nets. */
  datatype Driver =
    | FromPort(name: nat)
    | Constant
    | Buffer(input: Net)
    | Inverter(input: Net)
    | IcgCell(clock: Net, e: Signal, te: Signal)
    | Gate2(fn: Fn, a: Net, b: Net)
    | Latch(en: Net, low: bool, d: Signal)
    | Other

  type Netlist = map<Net, Driver>

  predicate LatchDriven(n: Netlist, x: Net) { x in n && n[x].Latch? }

  /** The same cell with its pins exchanged. */
  ghost predicate Turned(f: Fn, fn: Fn) { forall x, y :: Apply(f, x, y) == Apply(fn, y, x) }

  /** The net unrolls to this clock tree. A two-input gate gets its clock on one pin and its latch on the
      other, either way round. */
  ghost predicate Denotes(n: Netlist, r: Net, c: Clock)
    decreases c
  {
    r in n &&
    match c
    case Port(name) => n[r] == FromPort(name)
    case Buf(u) => n[r].Buffer? && Denotes(n, n[r].input, u)
    case Inv(u) => n[r].Inverter? && Denotes(n, n[r].input, u)
    case Icg(u, e, te) => n[r].IcgCell? && n[r].e == e && n[r].te == te && Denotes(n, n[r].clock, u)
    case Gate(u, l, low, f, d) =>
      && n[r].Gate2?
      && var a, b := n[r].a, n[r].b;
         || (&& LatchDriven(n, b) && f == n[r].fn && low == n[b].low && d == n[b].d
             && Denotes(n, a, u) && Denotes(n, n[b].en, l))
         || (&& LatchDriven(n, a) && Turned(f, n[r].fn) && low == n[a].low && d == n[a].d
             && Denotes(n, b, u) && Denotes(n, n[a].en, l))
  }

  lemma TurnedIs(f: Fn, fn: Fn)
    ensures Turned(f, fn) <==> f == Fn(fn.f00, fn.f10, fn.f01, fn.f11)
  {
    if Turned(f, fn) {
      assert Apply(f, false, false) == Apply(fn, false, false) && Apply(f, false, true) == Apply(fn, true, false);
      assert Apply(f, true, false) == Apply(fn, false, true) && Apply(f, true, true) == Apply(fn, true, true);
    }
  }

  /** Which pin of a gate is tried as the clock, and the gate's table with that pin first. */
  datatype Try = Try(clk: Net, lat: Net, fn: Fn)

  function Tried(g: Driver, k: nat): Try
    requires g.Gate2?
  {
    if k == 0 then Try(g.a, g.b, g.fn) else Try(g.b, g.a, Fn(g.fn.f00, g.fn.f10, g.fn.f01, g.fn.f11))
  }

  /** Trees of a gate with a latch on one pin; if a latch is on the other too, there is none. */
  lemma GateDenotes(n: Netlist, r: Net, c: Clock, k: nat)
    requires Gated2(n, r, k) && Denotes(n, r, c)
    ensures var p := Tried(n[r], k);
            && c.Gate? && c.fn == p.fn && c.low == n[p.lat].low && c.d == n[p.lat].d
            && Denotes(n, p.clk, c.up) && Denotes(n, n[p.lat].en, c.lat)
  {
    TurnedIs(c.fn, n[r].fn);
  }

  lemma GateTree(n: Netlist, r: Net, k: nat, u: Clock, l: Clock)
    requires Gated2(n, r, k)
    requires var p := Tried(n[r], k); Denotes(n, p.clk, u) && Denotes(n, n[p.lat].en, l)
    ensures var p := Tried(n[r], k); Denotes(n, r, Gate(u, l, n[p.lat].low, p.fn, n[p.lat].d))
  {
    TurnedIs(Tried(n[r], k).fn, n[r].fn);
  }

  lemma {:induction false} DenotesOne(n: Netlist, r: Net, c: Clock, c': Clock)
    requires Denotes(n, r, c) && Denotes(n, r, c')
    ensures c == c'
    decreases c
  {
    match c
    case Port(_) =>
    case Buf(u) => DenotesOne(n, n[r].input, u, c'.up);
    case Inv(u) => DenotesOne(n, n[r].input, u, c'.up);
    case Icg(u, _, _) => DenotesOne(n, n[r].clock, u, c'.up);
    case Gate(u, l, _, _, _) =>
      var k := if LatchDriven(n, n[r].b) then 0 else 1;
      var p := Tried(n[r], k);
      GateDenotes(n, r, c, k);
      GateDenotes(n, r, c', k);
      DenotesOne(n, p.clk, u, c'.up);
      DenotesOne(n, n[p.lat].en, l, c'.lat);
  }

  // ---- what the cells do ------------------------------------------------------------------------

  /** The level of every net in every half period. */
  type Levels = (Net, nat) -> bool

  /** A net is at the level its cell makes of its inputs; a clock port is high in the odd half periods,
      and `m` is what the latch inside an ICG holds. */
  predicate Cell(n: Netlist, w: Levels, m: Levels, v: Wave, r: Net, h: nat)
    requires r in n
  {
    match n[r]
    case FromPort(_) => w(r, h) == (h % 2 == 1)
    case Buffer(i) => w(r, h) == w(i, h)
    case Inverter(i) => w(r, h) == !w(i, h)
    case IcgCell(k, e, te) =>
      && w(r, h) == (w(k, h) && m(r, h))
      && m(r, h) == if !w(k, h) then v(e, h) || v(te, h) else h > 0 && m(r, h - 1)
    case Gate2(fn, a, b) => w(r, h) == Apply(fn, w(a, h), w(b, h))
    case Latch(en, low, d) => w(r, h) == if w(en, h) != low then v(d, h) else h > 0 && w(r, h - 1)
    case _ => true
  }

  ghost predicate Obey(n: Netlist, w: Levels, m: Levels, v: Wave) {
    forall r, h: nat :: r in n ==> Cell(n, w, m, v, r, h)
  }

  /** Whatever the levels: a net that unrolls to a tree is at the tree's level, with the gate's own table
      applied to its own pins. */
  lemma {:induction false} TreeIsLevel(n: Netlist, w: Levels, m: Levels, v: Wave, r: Net, c: Clock, h: nat)
    requires Obey(n, w, m, v) && Denotes(n, r, c)
    ensures w(r, h) == Level(c, v, h)
    decreases c, h, 1
  {
    assert Cell(n, w, m, v, r, h);
    match c
    case Port(_) =>
    case Buf(u) => TreeIsLevel(n, w, m, v, n[r].input, u, h);
    case Inv(u) => TreeIsLevel(n, w, m, v, n[r].input, u, h);
    case Icg(u, _, _) =>
      TreeIsLevel(n, w, m, v, n[r].clock, u, h);
      IcgHolds(n, w, m, v, r, c, h);
    case Gate(u, _, _, f, _) =>
      var k := if LatchDriven(n, n[r].b) then 0 else 1;
      GateDenotes(n, r, c, k);
      TreeIsLevel(n, w, m, v, Tried(n[r], k).clk, u, h);
      LatchHolds(n, w, m, v, Tried(n[r], k).lat, c, h);
  }

  lemma {:induction false} IcgHolds(n: Netlist, w: Levels, m: Levels, v: Wave, r: Net, c: Clock, h: nat)
    requires Obey(n, w, m, v) && Denotes(n, r, c) && c.Icg?
    ensures m(r, h) == Held(c, v, h)
    decreases c, h, 0
  {
    TreeIsLevel(n, w, m, v, n[r].clock, c.up, h);
    assert Cell(n, w, m, v, r, h);
    if h > 0 { IcgHolds(n, w, m, v, r, c, h - 1); }
  }

  lemma {:induction false} LatchHolds(n: Netlist, w: Levels, m: Levels, v: Wave, x: Net, c: Clock, h: nat)
    requires Obey(n, w, m, v) && c.Gate? && LatchDriven(n, x) && n[x].low == c.low && n[x].d == c.d
    requires Denotes(n, n[x].en, c.lat)
    ensures w(x, h) == Held(c, v, h)
    decreases c, h, 0
  {
    TreeIsLevel(n, w, m, v, n[x].en, c.lat, h);
    assert Cell(n, w, m, v, x, h);
    if h > 0 { LatchHolds(n, w, m, v, x, c, h - 1); }
  }

  /** Either way round: a gate with a clock on one pin and a latch with a clock of its own on the other
      unrolls to a tree of the two. */
  lemma EitherPin(n: Netlist, r: Net, clk: Net, lat: Net, u: Clock, l: Clock)
    requires r in n && n[r].Gate2? && ((n[r].a == clk && n[r].b == lat) || (n[r].b == clk && n[r].a == lat))
    requires lat in n && n[lat].Latch? && Denotes(n, clk, u) && Denotes(n, n[lat].en, l)
    ensures exists f ::
              && Denotes(n, r, Gate(u, l, n[lat].low, f, n[lat].d))
              && forall x, y :: Apply(f, x, y) == if n[r].a == clk then Apply(n[r].fn, x, y) else Apply(n[r].fn, y, x)
  {
    var k := if n[r].a == clk then 0 else 1;
    GateTree(n, r, k, u, l);
    TurnedIs(Tried(n[r], 1).fn, n[r].fn);
    var f := Tried(n[r], k).fn;
    assert Denotes(n, r, Gate(u, l, n[lat].low, f, n[lat].d));
  }

  function Size(c: Clock): nat {
    match c
    case Port(_) => 1
    case Buf(u) => 1 + Size(u)
    case Inv(u) => 1 + Size(u)
    case Icg(u, _, _) => 1 + Size(u)
    case Gate(u, l, _, _, _) => 1 + Size(u) + Size(l)
  }

  ghost predicate HasTree(n: Netlist, r: Net) { exists c :: Denotes(n, r, c) }

  /** The right answer for a net: what the tracer should say of the tree it unrolls to, and that it
      is no clock if it unrolls to none. */
  ghost predicate Answers(n: Netlist, r: Net, t: Trace) {
    && (forall c :: Denotes(n, r, c) ==> t == ClockTree.ClockOf(c))
    && (t.Traced? ==> HasTree(n, r))
  }

  /** The tree of o, if it has one, contains a tree of r. */
  ghost predicate Contains(n: Netlist, o: Net, r: Net) {
    && (HasTree(n, o) ==> HasTree(n, r))
    && forall c, c' :: Denotes(n, o, c) && Denotes(n, r, c') ==> Size(c') < Size(c)
  }

  /** Every net being traced contains this one. */
  ghost predicate Inside(n: Netlist, open: set<Net>, r: Net) {
    forall o :: o in open ==> Contains(n, o, r)
  }

  /** A net met again while it is being traced has no tree. */
  lemma OpenIsLoop(n: Netlist, open: set<Net>, r: Net)
    requires Inside(n, open, r) && r in open
    ensures Answers(n, r, Untraced)
  {
    assert Contains(n, r, r);
  }

  lemma ContainsThrough(n: Netlist, o: Net, r: Net, i: Net)
    requires Contains(n, o, r) && Contains(n, r, i)
    ensures Contains(n, o, i)
  {
    forall c, c' | Denotes(n, o, c) && Denotes(n, i, c') ensures Size(c') < Size(c) {
      assert HasTree(n, o) && HasTree(n, r);
      var m :| Denotes(n, r, m);
      assert Size(c') < Size(m) < Size(c);
    }
  }

  lemma InsideChild(n: Netlist, open: set<Net>, r: Net, i: Net)
    requires Inside(n, open, r) && Contains(n, r, i)
    ensures Inside(n, open + {r}, i)
  {
    forall o | o in open + {r} ensures Contains(n, o, i) {
      if o != r { ContainsThrough(n, o, r, i); }
    }
  }

  // ---- one cell at a time -------------------------------------------------------------------------

  /** The net a one-input cell gets its clock from. */
  function Input(d: Driver): Net
    requires d.Buffer? || d.Inverter? || d.IcgCell?
  {
    match d
    case Buffer(i) => i
    case Inverter(i) => i
    case IcgCell(i, _, _) => i
  }

  predicate OneInput(n: Netlist, r: Net) { r in n && (n[r].Buffer? || n[r].Inverter? || n[r].IcgCell?) }

  function Over(d: Driver, u: Clock): Clock
    requires d.Buffer? || d.Inverter? || d.IcgCell?
  {
    match d
    case Buffer(_) => Buf(u)
    case Inverter(_) => Inv(u)
    case IcgCell(_, e, te) => Icg(u, e, te)
  }

  lemma OneInputTree(n: Netlist, r: Net, c: Clock)
    requires OneInput(n, r) && Denotes(n, r, c)
    ensures !c.Port? && Denotes(n, Input(n[r]), c.up) && c == Over(n[r], c.up)
  {
  }

  lemma OneInputContains(n: Netlist, r: Net)
    requires OneInput(n, r)
    ensures Contains(n, r, Input(n[r]))
  {
    forall c, c' | Denotes(n, r, c) && Denotes(n, Input(n[r]), c') ensures Size(c') < Size(c) {
      OneInputTree(n, r, c);
      DenotesOne(n, Input(n[r]), c.up, c');
    }
    if HasTree(n, r) {
      var c :| Denotes(n, r, c);
      OneInputTree(n, r, c);
    }
  }

  /** The answer for a one-input cell from the answer for its input. */
  function Through(d: Driver, t: Trace): Trace
    requires d.Buffer? || d.Inverter? || d.IcgCell?
  {
    if t.Untraced? then t
    else match d
      case Buffer(_) => t
      case Inverter(_) => t.(inv := !t.inv)
      case IcgCell(_, e, te) => t.(gates := t.gates + [IcgKind(e, te)])
  }

  lemma ThroughAnswers(n: Netlist, r: Net, t: Trace)
    requires OneInput(n, r) && Answers(n, Input(n[r]), t)
    ensures Answers(n, r, Through(n[r], t))
  {
    forall c | Denotes(n, r, c) ensures Through(n[r], t) == ClockTree.ClockOf(c) {
      OneInputTree(n, r, c);
    }
    if t.Traced? {
      var u :| Denotes(n, Input(n[r]), u);
      assert Denotes(n, r, Over(n[r], u));
    }
  }

  // ---- two-input gates ---------------------------------------------------------------------------------

  predicate Gated2(n: Netlist, r: Net, k: nat) { r in n && n[r].Gate2? && LatchDriven(n, Tried(n[r], k).lat) }

  function Combined(f: Fn, low: bool, d: Signal, t: Trace, s: Trace): Trace {
    if t.Untraced? || s.Untraced? || s.root != t.root || (s.inv == t.inv) != low then Untraced
    else if AndType(f) then Traced(t.root, t.inv, t.gates + [LatchKind(d, !f.f11)])
    else if NandType(f) then Traced(t.root, !t.inv, t.gates + [LatchKind(d, !f.f10)])
    else Untraced
  }

  lemma GateContains(n: Netlist, r: Net, k: nat)
    requires Gated2(n, r, k)
    ensures var p := Tried(n[r], k); Contains(n, r, p.clk) && Contains(n, r, n[p.lat].en)
  {
    var p := Tried(n[r], k);
    forall c, c' | Denotes(n, r, c) && Denotes(n, p.clk, c') ensures Size(c') < Size(c) {
      GateDenotes(n, r, c, k);
      DenotesOne(n, p.clk, c.up, c');
    }
    forall c, c' | Denotes(n, r, c) && Denotes(n, n[p.lat].en, c') ensures Size(c') < Size(c) {
      GateDenotes(n, r, c, k);
      DenotesOne(n, n[p.lat].en, c.lat, c');
    }
    if HasTree(n, r) {
      var c :| Denotes(n, r, c);
      GateDenotes(n, r, c, k);
    }
  }

  lemma GateAnswers(n: Netlist, r: Net, k: nat, t: Trace, s: Trace)
    requires Gated2(n, r, k) && Answers(n, Tried(n[r], k).clk, t)
    requires t.Traced? ==> Answers(n, n[Tried(n[r], k).lat].en, s)
    ensures var p := Tried(n[r], k);
            Answers(n, r, if t.Untraced? then t else Combined(p.fn, n[p.lat].low, n[p.lat].d, t, s))
  {
    var p := Tried(n[r], k);
    var w := if t.Untraced? then t else Combined(p.fn, n[p.lat].low, n[p.lat].d, t, s);
    forall c | Denotes(n, r, c) ensures w == ClockTree.ClockOf(c) { GateDenotes(n, r, c, k); }
    if w.Traced? {
      var u :| Denotes(n, p.clk, u);
      var l :| Denotes(n, n[p.lat].en, l);
      GateTree(n, r, k, u, l);
    }
  }

  /** A cell's table read with one of its pins first. */
  predicate OnPins(g: Driver, clk: Net, c: bool, x: bool)
    requires g.Gate2?
  {
    if g.a == clk then Apply(g.fn, c, x) else Apply(g.fn, x, c)
  }

  /** The verdict on a gate with a net that unrolls on either pin and, on the other, a latch whose enable
      does. It is a clock exactly when both are clocks of the same root, the latch is open while the clock
      pin is low, the clock pin at low holds the output and at high lets the latch decide it. Its polarity
      turns with the output's idle level, and the enable is whatever value of the latch takes the output
      off that level. */
  lemma GateVerdict(n: Netlist, r: Net, clk: Net, lat: Net, u: Clock, l: Clock, t: Trace)
    requires r in n && n[r].Gate2? && ((n[r].a == clk && n[r].b == lat) || (n[r].b == clk && n[r].a == lat))
    requires lat in n && n[lat].Latch? && Denotes(n, clk, u) && Denotes(n, n[lat].en, l) && Answers(n, r, t)
    ensures var up, lup, g := ClockTree.ClockOf(u), ClockTree.ClockOf(l), n[r];
            var idle := OnPins(g, clk, false, false);
            && (t.Traced? <==>
                  && up.Traced? && lup.Traced? && up.root == lup.root && (up.inv == lup.inv) == n[lat].low
                  && idle == OnPins(g, clk, false, true) && OnPins(g, clk, true, false) != OnPins(g, clk, true, true))
            && (t.Traced? ==>
                  t == Traced(up.root, up.inv != idle,
                              up.gates + [LatchKind(n[lat].d, OnPins(g, clk, true, false) != idle)]))
  {
    EitherPin(n, r, clk, lat, u, l);
    var f :| Denotes(n, r, Gate(u, l, n[lat].low, f, n[lat].d))
             && forall x, y :: Apply(f, x, y) == if n[r].a == clk then Apply(n[r].fn, x, y) else Apply(n[r].fn, y, x);
    assert Apply(f, false, false) == OnPins(n[r], clk, false, false);
    assert Apply(f, false, true) == OnPins(n[r], clk, false, true);
    assert Apply(f, true, false) == OnPins(n[r], clk, true, false);
    assert Apply(f, true, true) == OnPins(n[r], clk, true, true);
    assert t == ClockTree.ClockOf(Gate(u, l, n[lat].low, f, n[lat].d));
  }

  /** Cells that give no clock, and ports. */
  lemma LeafAnswers(n: Netlist, r: Net)
    requires r !in n || !(OneInput(n, r) || Gated2(n, r, 0) || Gated2(n, r, 1))
    ensures Answers(n, r, if r in n && n[r].FromPort? then Traced(n[r].name, false, []) else Untraced)
  {
    if r in n && n[r].FromPort? { assert Denotes(n, r, Port(n[r].name)); }
  }

  // ---- the tracer ------------------------------------------------------------------------------------------

  class Tracer {
    const n: Netlist
    var memo: map<Net, Trace>

    /** Finished nets have their answer, nets being traced the loop mark. */
    ghost predicate Memoed(open: set<Net>)
      reads this
    {
      && open <= memo.Keys
      && forall x :: x in memo ==> if x in open then memo[x] == Untraced else Answers(n, x, memo[x])
    }

    constructor (n: Netlist)
      ensures this.n == n && memo == map[] && Memoed({})
    {
      this.n, memo := n, map[];
    }

    /** clock_of: the recursion ends and gives every net its answer. */
    method ClockOf(r: Net, ghost open: set<Net>) returns (t: Trace)
      requires Memoed(open) && Inside(n, open, r)
      modifies this`memo
      ensures Memoed(open) && old(memo.Keys) <= memo.Keys && Answers(n, r, t)
      decreases n.Keys - memo.Keys, 1
    {
      if r in memo {
        if r in open { OpenIsLoop(n, open, r); }
        return memo[r];
      }
      ghost var left := n.Keys - memo.Keys;
      memo := memo[r := Untraced];
      if OneInput(n, r) {
        assert r in left && r !in n.Keys - memo.Keys;
        OneInputContains(n, r);
        InsideChild(n, open, r, Input(n[r]));
        var up := ClockOf(Input(n[r]), open + {r});
        ThroughAnswers(n, r, up);
        t := Through(n[r], up);
      } else if r in n && n[r].Gate2? {
        assert r in left && r !in n.Keys - memo.Keys;
        t := GateOf(r, open);
      } else {
        LeafAnswers(n, r);
        t := if r in n && n[r].FromPort? then Traced(n[r].name, false, []) else Untraced;
      }
      memo := memo[r := t];
    }

    /** _gate2: either pin may be the clock, the other must come from a latch. */
    method GateOf(r: Net, ghost open: set<Net>) returns (t: Trace)
      requires r in n && n[r].Gate2? && r in memo && r !in open && Memoed(open + {r}) && Inside(n, open, r)
      modifies this`memo
      ensures Memoed(open + {r}) && old(memo.Keys) <= memo.Keys && Answers(n, r, t)
      decreases n.Keys - memo.Keys, 2
    {
      ghost var tried := false;
      for k := 0 to 2
        invariant Memoed(open + {r}) && old(memo.Keys) <= memo.Keys
        invariant forall j :: 0 <= j < k && Gated2(n, r, j) ==> tried
        invariant tried ==> Answers(n, r, Untraced)
      {
        var p := Tried(n[r], k);
        if LatchDriven(n, p.lat) {
          GateContains(n, r, k);
          InsideChild(n, open, r, p.clk);
          InsideChild(n, open, r, n[p.lat].en);
          var up := ClockOf(p.clk, open + {r});
          var lup := Untraced;
          if up.Traced? { lup := ClockOf(n[p.lat].en, open + {r}); }
          GateAnswers(n, r, k, up, lup);
          if up.Traced? && lup.Traced? && lup.root == up.root {
            return Combined(p.fn, n[p.lat].low, n[p.lat].d, up, lup);
          }
          tried := true;
        }
      }
      if !tried {
        assert !Gated2(n, r, 0) && !Gated2(n, r, 1);
        LeafAnswers(n, r);
      }
      t := Untraced;
    }
  }
}
