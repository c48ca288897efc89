/** Clock gates turned into clock enables (fpga/tools/clocktrace.py, fpga/tools/fi_fpga_ce.py).

    Time is counted in half periods of the root clock, which is low in even ones and high in odd
    ones; a signal has one settled value in each. */
module ClockTree {

  type Signal = nat

  /** The settled value of every signal in every half period. */
  type Wave = (Signal, nat) -> bool

  /** The truth table of a two-input gate, clock pin first. */
  datatype Fn = Fn(f00: bool, f01: bool, f10: bool, f11: bool)

  predicate Apply(f: Fn, c: bool, x: bool) {
    if c then (if x then f.f11 else f.f10) else (if x then f.f01 else f.f00)
  }

  /** What drives a clock net. A gate's latch has a clock net of its own and is open while that is
      low (`low`) or high. */
  datatype Clock =
    | Port(name: nat)
    | Buf(up: Clock)
    | Inv(up: Clock)
    | Icg(up: Clock, e: Signal, te: Signal)
    | Gate(up: Clock, lat: Clock, low: bool, fn: Fn, d: Signal)

  // ---- what clock_of reports -------------------------------------------------------------------

  datatype Kind = IcgKind(e: Signal, te: Signal) | LatchKind(d: Signal, invX: bool)

  /** (root port, inverted, gates in series), or the reason why it is not a clock. */
  datatype Trace = Traced(root: nat, inv: bool, gates: seq<Kind>) | Untraced

  /** The gate is static low, or static high, while its clock is low. */
  predicate AndType(f: Fn) { !f.f00 && !f.f01 && f.f10 != f.f11 }

  predicate NandType(f: Fn) { f.f00 && f.f01 && f.f10 != f.f11 }

  function ClockOf(c: Clock): Trace {
    match c
    case Port(n) => Traced(n, false, [])
    case Buf(u) => ClockOf(u)
    case Inv(u) => var t := ClockOf(u); if t.Untraced? then t else t.(inv := !t.inv)
    case Icg(u, e, te) => var t := ClockOf(u); if t.Untraced? then t else t.(gates := t.gates + [IcgKind(e, te)])
    case Gate(u, l, low, f, d) =>
      var t, s := ClockOf(u), ClockOf(l);
      if t.Untraced? || s.Untraced? || s.root != t.root || (s.inv == t.inv) != low then Untraced
      else if AndType(f) then Traced(t.root, t.inv, t.gates + [LatchKind(d, !f.f11)])
      else if NandType(f) then Traced(t.root, !t.inv, t.gates + [LatchKind(d, !f.f10)])
      else Untraced
  }

  // ---- what the netlist does ---------------------------------------------------------------------

  predicate Level(c: Clock, v: Wave, h: nat)
    decreases c, h, 1
  {
    match c
    case Port(_) => h % 2 == 1
    case Buf(u) => Level(u, v, h)
    case Inv(u) => !Level(u, v, h)
    case Icg(u, _, _) => Level(u, v, h) && Held(c, v, h)
    case Gate(u, _, _, f, _) => Apply(f, Level(u, v, h), Held(c, v, h))
  }

  /** The latch inside a gate: it follows its input while open and keeps it while closed. */
  predicate Held(c: Clock, v: Wave, h: nat)
    requires c.Icg? || c.Gate?
    decreases c, h, 0
  {
    var open := if c.Icg? then !Level(c.up, v, h) else Level(c.lat, v, h) != c.low;
    var x := if c.Icg? then v(c.e, h) || v(c.te, h) else v(c.d, h);
    if open then x else if h == 0 then false else Held(c, v, h - 1)
  }

  predicate Rises(c: Clock, v: Wave, h: nat) { h > 0 && !Level(c, v, h - 1) && Level(c, v, h) }

  /** A register behind this clock: it takes its data on the rising edges. */
  function Gated(c: Clock, v: Wave, data: nat -> bool, init: bool, h: nat): bool {
    if h == 0 then init
    else if Rises(c, v, h) then data(h - 1) else Gated(c, v, data, init, h - 1)
  }

  // ---- what the converted netlist does -------------------------------------------------------------

  predicate Passes(k: Kind, v: Wave, h: nat) {
    match k
    case IcgKind(e, te) => v(e, h) || v(te, h)
    case LatchKind(d, invX) => v(d, h) != invX
  }

  /** The enable net: the product of the conditions of the gates in series. */
  predicate Fien(gates: seq<Kind>, v: Wave, h: nat) {
    gates == [] || (Fien(gates[..|gates| - 1], v, h) && Passes(gates[|gates| - 1], v, h))
  }

  /** The clock net after the conversion: every gate's output follows its input clock. */
  function Freed(c: Clock): Clock {
    match c
    case Port(_) => c
    case Buf(u) => Buf(Freed(u))
    case Inv(u) => Inv(Freed(u))
    case Icg(u, _, _) => Freed(u)
    case Gate(u, _, _, _, _) => Freed(u)
  }

  /** The register with a clock enable in its place. */
  function Enabled(c: Clock, gates: seq<Kind>, v: Wave, data: nat -> bool, init: bool, h: nat): bool {
    if h == 0 then init
    else if Rises(Freed(c), v, h) && Fien(gates, v, h - 1) then data(h - 1)
    else Enabled(c, gates, v, data, init, h - 1)
  }

  // ---- a path of positive polarity -------------------------------------------------------------------

  /** `a` is `c` or a clock net it comes from. */
  predicate Upstream(a: Clock, c: Clock) {
    a == c || (!c.Port? && Upstream(a, c.up))
  }

  /** Buffers and non-inverting gates only, each latch open while its own gate's clock (or a net
      above it) is low. */
  predicate Positive(c: Clock) {
    match c
    case Port(_) => true
    case Buf(u) => Positive(u)
    case Inv(_) => false
    case Icg(u, _, _) => Positive(u)
    case Gate(u, l, low, f, _) =>
      && Positive(u) && AndType(f)
      && (if low then Upstream(l, u) else l.Inv? && Upstream(l.up, u))
  }

  lemma {:induction false} UpstreamIsPositive(a: Clock, c: Clock)
    requires Positive(c) && Upstream(a, c)
    ensures Positive(a)
    decreases c
  {
    if a != c { UpstreamIsPositive(a, c.up); }
  }

  /** The tracer accepts every such path, as not inverted. */
  lemma {:induction false} PositiveIsTraced(c: Clock)
    requires Positive(c)
    ensures ClockOf(c).Traced? && !ClockOf(c).inv
    decreases c, 0
  {
    if !c.Port? { PositiveIsTraced(c.up); }
    if c.Gate? {
      var l := if c.low then c.lat else c.lat.up;
      UpstreamIsPositive(l, c.up);
      SameRoot(l, c.up);
    }
  }

  lemma {:induction false} SameRoot(a: Clock, c: Clock)
    requires Positive(c) && Upstream(a, c)
    ensures ClockOf(a).Traced? && ClockOf(c).Traced? && ClockOf(a).root == ClockOf(c).root && !ClockOf(a).inv
    decreases c, 1
  {
    PositiveIsTraced(c);
    if a != c { SameRoot(a, c.up); }
  }

  /** While a clock is high, so is every net above it. */
  lemma {:induction false} HighAbove(a: Clock, c: Clock, v: Wave, h: nat)
    requires Positive(c) && Upstream(a, c) && Level(c, v, h)
    ensures Level(a, v, h)
    decreases c
  {
    if a != c { HighAbove(a, c.up, v, h); }
  }

  lemma {:induction false} LowWhenLow(c: Clock, v: Wave, h: nat)
    requires Positive(c) && h % 2 == 0
    ensures !Level(c, v, h)
  {
    if !c.Port? { LowWhenLow(c.up, v, h); }
  }

  /** A gate's latch holds through the pulse what it saw before the edge. */
  lemma HeldThrough(c: Clock, v: Wave, h: nat)
    requires Positive(c) && (c.Icg? || c.Gate?) && h % 2 == 1 && Level(c.up, v, h)
    ensures Held(c, v, h) == if c.Icg? then v(c.e, h - 1) || v(c.te, h - 1) else v(c.d, h - 1)
  {
    LowWhenLow(c.up, v, h - 1);
    if c.Gate? {
      var l := if c.low then c.lat else c.lat.up;
      HighAbove(l, c.up, v, h);
      UpstreamIsPositive(l, c.up);
      LowWhenLow(l, v, h - 1);
      assert !c.low ==> Level(c.lat, v, h) == !Level(l, v, h) && Level(c.lat, v, h - 1) == !Level(l, v, h - 1);
      assert Held(c, v, h) == Held(c, v, h - 1);
    }
  }

  /** In the high half period the net is high exactly when the enable held before the edge. */
  lemma {:induction false} PulseIsEnable(c: Clock, v: Wave, h: nat)
    requires Positive(c) && h % 2 == 1
    ensures ClockOf(c).Traced? && Level(c, v, h) == Fien(ClockOf(c).gates, v, h - 1)
  {
    PositiveIsTraced(c);
    if !c.Port? { PulseIsEnable(c.up, v, h); }
    if c.Icg? || c.Gate? {
      var t := ClockOf(c);
      assert t.gates[..|t.gates| - 1] == ClockOf(c.up).gates;
      if Level(c.up, v, h) { HeldThrough(c, v, h); }
    }
  }

  lemma {:induction false} FreedIsFree(c: Clock, v: Wave, h: nat)
    requires Positive(c)
    ensures Level(Freed(c), v, h) == (h % 2 == 1)
  {
    if !c.Port? { FreedIsFree(c.up, v, h); }
  }

  /** For every such clock, every waveform and every data: the register with the enable holds the
      same value as the gated one after every half period. */
  lemma {:induction false} EnableReplacesGate(c: Clock, v: Wave, data: nat -> bool, init: bool, h: nat)
    requires Positive(c)
    ensures ClockOf(c).Traced?
    ensures Gated(c, v, data, init, h) == Enabled(c, ClockOf(c).gates, v, data, init, h)
  {
    PositiveIsTraced(c);
    if h > 0 {
      EnableReplacesGate(c, v, data, init, h - 1);
      FreedIsFree(c, v, h);
      FreedIsFree(c, v, h - 1);
      if h % 2 == 1 {
        PulseIsEnable(c, v, h);
        LowWhenLow(c, v, h - 1);
      } else {
        LowWhenLow(c, v, h);
      }
    }
  }

  // ---- inverting gates -----------------------------------------------------------------------------------

  /** The tracer accepts an inverting gate too and notes the changed polarity, but the conversion
      replaces its output by the input clock without an inverter. */
  ghost predicate InvertingGate(c: Clock) {
    c.Gate? && Positive(c.up) && c.lat == c.up && c.low && NandType(c.fn)
  }

  lemma InvertingIsTraced(c: Clock)
    requires InvertingGate(c)
    ensures ClockOf(c).Traced? && ClockOf(c).inv
    ensures ClockOf(c).gates == ClockOf(c.up).gates + [LatchKind(c.d, !c.fn.f10)]
    ensures ClockOf(c).gates[..|ClockOf(c).gates| - 1] == ClockOf(c.up).gates
  {
    PositiveIsTraced(c.up);
  }

  /** It idles high and goes low in the high half period exactly when the enable held before. */
  lemma InvertingLevel(c: Clock, v: Wave, h: nat)
    requires InvertingGate(c)
    ensures ClockOf(c).Traced?
    ensures h % 2 == 0 ==> Level(c, v, h)
    ensures h % 2 == 1 ==> Level(c, v, h) == !Fien(ClockOf(c).gates, v, h - 1)
  {
    InvertingIsTraced(c);
    if h % 2 == 0 {
      LowWhenLow(c.up, v, h);
    } else {
      PulseIsEnable(c.up, v, h);
      LowWhenLow(c.up, v, h - 1);
      if Level(c.up, v, h) { assert Held(c, v, h) == Held(c, v, h - 1) == v(c.d, h - 1); }
    }
  }

  ghost predicate NeverOpens(gates: seq<Kind>, v: Wave) {
    forall h: nat :: h % 2 == 0 ==> !Fien(gates, v, h)
  }

  ghost predicate Preserved(c: Clock, v: Wave) {
    ClockOf(c).Traced?
    && forall data: nat -> bool, init: bool, h: nat ::
         Gated(c, v, data, init, h) == Enabled(c, ClockOf(c).gates, v, data, init, h)
  }

  lemma {:induction false} ClosedHolds(c: Clock, v: Wave, data: nat -> bool, init: bool, h: nat)
    requires InvertingGate(c) && ClockOf(c).Traced? && NeverOpens(ClockOf(c).gates, v)
    ensures Gated(c, v, data, init, h) == init == Enabled(c, ClockOf(c).gates, v, data, init, h)
  {
    if h > 0 {
      ClosedHolds(c, v, data, init, h - 1);
      InvertingLevel(c, v, h);
      InvertingLevel(c, v, h - 1);
      FreedIsFree(c.up, v, h);
      FreedIsFree(c.up, v, h - 1);
    }
  }

  lemma OpenDiffers(c: Clock, v: Wave, k: nat)
    requires InvertingGate(c) && ClockOf(c).Traced? && k % 2 == 0 && Fien(ClockOf(c).gates, v, k)
    ensures var data := (h: nat) => h == k;
            Gated(c, v, data, false, k + 2) != Enabled(c, ClockOf(c).gates, v, data, false, k + 2)
  {
    var data := (h: nat) => h == k;
    OpenGated(c, v, data, k);
    OpenEnabled(c, v, data, k);
  }

  lemma OpenGated(c: Clock, v: Wave, data: nat -> bool, k: nat)
    requires InvertingGate(c) && ClockOf(c).Traced? && k % 2 == 0 && Fien(ClockOf(c).gates, v, k)
    ensures Gated(c, v, data, false, k + 2) == data(k + 1)
  {
    InvertingLevel(c, v, k + 1);
    InvertingLevel(c, v, k + 2);
    assert Rises(c, v, k + 2);
  }

  lemma OpenEnabled(c: Clock, v: Wave, data: nat -> bool, k: nat)
    requires InvertingGate(c) && ClockOf(c).Traced? && k % 2 == 0 && Fien(ClockOf(c).gates, v, k)
    ensures Enabled(c, ClockOf(c).gates, v, data, false, k + 2) == data(k)
  {
    FreedIsFree(c.up, v, k);
    FreedIsFree(c.up, v, k + 1);
    FreedIsFree(c.up, v, k + 2);
    assert Enabled(c, ClockOf(c).gates, v, data, false, k + 1) == data(k);
  }

  /** Behind an inverting gate the converted register agrees with the original exactly when the
      gate never lets a pulse through. */
  lemma InvertingGateIff(c: Clock, v: Wave)
    requires InvertingGate(c)
    ensures ClockOf(c).Traced? && (Preserved(c, v) <==> NeverOpens(ClockOf(c).gates, v))
  {
    InvertingIsTraced(c);
    if NeverOpens(ClockOf(c).gates, v) {
      forall data: nat -> bool, init: bool, h: nat
        ensures Gated(c, v, data, init, h) == Enabled(c, ClockOf(c).gates, v, data, init, h)
      {
        ClosedHolds(c, v, data, init, h);
      }
    } else {
      var k: nat :| k % 2 == 0 && Fien(ClockOf(c).gates, v, k);
      OpenDiffers(c, v, k);
    }
  }

  // ---- an inverter behind an inverting gate ----------------------------------------------------------------

  /** The tracer reports such a net as not inverted, like a plain gated clock. */
  lemma InvertedBackIsTraced(g: Clock)
    requires InvertingGate(g)
    ensures ClockOf(Inv(g)).Traced? && !ClockOf(Inv(g)).inv && ClockOf(Inv(g)).gates == ClockOf(g).gates
  {
    InvertingIsTraced(g);
  }

  /** The gated net pulses in the high half periods, the converted one is the inverted clock. */
  lemma InvertedBackRises(g: Clock, v: Wave, h: nat)
    requires InvertingGate(g) && h > 0
    ensures ClockOf(g).Traced?
    ensures Rises(Inv(g), v, h) <==> h % 2 == 1 && Fien(ClockOf(g).gates, v, h - 1)
    ensures Rises(Freed(Inv(g)), v, h) <==> h % 2 == 0
  {
    InvertingLevel(g, v, h);
    InvertingLevel(g, v, h - 1);
    FreedIsFree(g.up, v, h);
    FreedIsFree(g.up, v, h - 1);
  }

  ghost predicate NeverEnabled(gates: seq<Kind>, v: Wave) { forall h: nat :: !Fien(gates, v, h) }

  lemma {:induction false} NeverEnabledHolds(g: Clock, v: Wave, data: nat -> bool, init: bool, h: nat)
    requires InvertingGate(g) && ClockOf(g).Traced? && NeverEnabled(ClockOf(g).gates, v)
    ensures Gated(Inv(g), v, data, init, h) == init == Enabled(Inv(g), ClockOf(g).gates, v, data, init, h)
  {
    if h > 0 {
      NeverEnabledHolds(g, v, data, init, h - 1);
      assert !Fien(ClockOf(g).gates, v, h - 1);
      assert !Rises(Inv(g), v, h) by { InvertedBackRises(g, v, h); }
    }
  }

  lemma {:induction false} OneShot(g: Clock, v: Wave, k: nat, h: nat)
    requires InvertingGate(g) && ClockOf(g).Traced? && h <= k
    ensures var data := (i: nat) => i == k;
            !Gated(Inv(g), v, data, false, h) && !Enabled(Inv(g), ClockOf(g).gates, v, data, false, h)
  {
    if h > 0 { OneShot(g, v, k, h - 1); }
  }

  /** One enabled half period k tells them apart: only one of the registers takes data(k). */
  lemma EnabledDiffers(g: Clock, v: Wave, k: nat)
    requires InvertingGate(g) && ClockOf(g).Traced? && Fien(ClockOf(g).gates, v, k)
    ensures var data := (i: nat) => i == k;
            Gated(Inv(g), v, data, false, k + 1) != Enabled(Inv(g), ClockOf(g).gates, v, data, false, k + 1)
  {
    OneShot(g, v, k, k);
    InvertedBackRises(g, v, k + 1);
  }

  /** With an inverter behind the inverting gate the register is converted to the wrong edge too:
      the two agree exactly when the enable never holds. */
  lemma InvertedBackIff(g: Clock, v: Wave)
    requires InvertingGate(g)
    ensures ClockOf(g).Traced? && (Preserved(Inv(g), v) <==> NeverEnabled(ClockOf(g).gates, v))
  {
    InvertedBackIsTraced(g);
    if NeverEnabled(ClockOf(g).gates, v) {
      forall data: nat -> bool, init: bool, h: nat
        ensures Gated(Inv(g), v, data, init, h) == Enabled(Inv(g), ClockOf(Inv(g)).gates, v, data, init, h)
      {
        NeverEnabledHolds(g, v, data, init, h);
      }
    } else {
      var k: nat :| Fien(ClockOf(g).gates, v, k);
      EnabledDiffers(g, v, k);
    }
  }
}
