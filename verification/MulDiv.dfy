/** The example core's M unit (examples/tinyriscv/rtl/core/exu_muldiv.sv): the sign-magnitude
    multiplier, the divider, the merged result and the handshake with the core. */
module MulDiv {
  import opened Arith
  import opened Divider

  const W64: int := 0x1_0000_0000_0000_0000

  /** One of the eight instructions. */
  datatype MOp = Mul | Mulh | Mulhsu | Mulhu | Divides(op: Divider.Op)

  datatype Instr = Instr(op: MOp, a: nat, b: nat)

  datatype Unit = Unit(div: Divider.Regs, op1: nat, op2: nat, mulReady: bool)

  predicate Words(i: Instr) { i.a < W32 && i.b < W32 }

  predicate Wide(u: Unit) { Divider.Wide(u.div) && u.op1 < W32 && u.op2 < W32 }

  predicate DivStart(u: Unit, i: Instr, stall: bool) { i.op.Divides? && !u.div.ready && !stall }

  /** The divider's one-hot operation; none of them for a multiplication, which does not start it. */
  function DivOp(i: Instr): Divider.Op { if i.op.Divides? then i.op.op else Remu }

  function Step(u: Unit, i: Instr, stall: bool): (n: Unit)
    requires Wide(u) && Words(i)
    ensures Wide(n)
  {
    Unit(Divider.Step(u.div, Ins(DivStart(u, i, stall), i.a, i.b, DivOp(i))),
         if i.op.Divides? then u.op1 else i.a,
         if i.op.Divides? then u.op2 else i.b,
         !u.mulReady && !i.op.Divides?)
  }

  // ---- the outputs ------------------------------------------------------------------------------

  function Product(u: Unit, op: MOp): int
    requires Wide(u)
  {
    (if op == Mulh || op == Mulhsu then Magnitude(u.op1) else u.op1)
    * (if op == Mulh then Magnitude(u.op2) else u.op2)
  }

  function High(m: int): int { m / W32 % W32 }

  function Neg64(m: int): int { if m == 0 then 0 else W64 - m }

  function MulResult(u: Unit, op: MOp): int
    requires Wide(u)
  {
    var m := Product(u, op);
    match op
    case Mul => m % W32
    case Mulhu => High(m)
    case Mulh => if (u.op1 >= W31) != (u.op2 >= W31) then High(Neg64(m)) else High(m)
    case Mulhsu => if u.op1 >= W31 then High(Neg64(m)) else High(m)
    case Divides(_) => 0
  }

  /** Bitwise or. */
  function Or(a: int, b: int): int
    requires a >= 0 && b >= 0
    decreases a
  {
    if a == 0 then b else if b == 0 then a
    else (if a % 2 == 1 || b % 2 == 1 then 1 else 0) + 2 * Or(a / 2, b / 2)
  }

  function WriteData(u: Unit, i: Instr): int
    requires Wide(u) && MulResult(u, i.op) >= 0
  {
    Or(u.div.result, MulResult(u, i.op))
  }

  predicate Writes(u: Unit) { u.div.ready || u.mulReady }

  // ---- the specification --------------------------------------------------------------------------

  /** What each instruction writes back, by the ISA: the low or the high word of the 64-bit product of
      the operands read as signed or unsigned, or the divider's result. */
  function Spec(i: Instr): int
    requires Words(i)
  {
    match i.op
    case Mul => ToInt(i.a) * ToInt(i.b) % W32
    case Mulh => ToInt(i.a) * ToInt(i.b) / W32 % W32
    case Mulhsu => ToInt(i.a) * i.b / W32 % W32
    case Mulhu => i.a * i.b / W32 % W32
    case Divides(op) => Divider.Spec(op, i.a, i.b)
  }

  /** The high word of a negated 64-bit product is that of the negative number. */
  lemma HighOfNegated(m: int)
    requires 0 <= m < W64
    ensures High(Neg64(m)) == (-m) / W32 % W32
  {
  }

  lemma ProductBound(x: int, y: int)
    requires 0 <= x < W32 && 0 <= y < W32
    ensures 0 <= x * y < W64
  {
    MulLeq(x, W32 - 1, y);
  }

  lemma LowIgnoresSign(a: nat, b: nat)
    requires a < W32 && b < W32
    ensures a * b % W32 == ToInt(a) * ToInt(b) % W32
  {
    var x, y := ToInt(a), ToInt(b);
    var k: int, l: int := if a >= W31 then 1 else 0, if b >= W31 then 1 else 0;
    assert a == x + k * W32 && b == y + l * W32;
    var n := x * l + k * y + k * l * W32;
    assert a * b == x * y + n * W32;
    ModShift(x * y, n);
  }

  lemma ModShift(v: int, n: int)
    ensures (v + n * W32) % W32 == v % W32
  {
  }

  lemma Signs(x: int, y: int)
    ensures (x < 0) != (y < 0) ==> Abs(x) * Abs(y) == -(x * y)
    ensures (x < 0) == (y < 0) ==> Abs(x) * Abs(y) == x * y
  {
  }

  lemma MulIsSpec(u: Unit, i: Instr)
    requires Wide(u) && Words(i) && !i.op.Divides? && u.op1 == i.a && u.op2 == i.b
    ensures MulResult(u, i.op) == Spec(i)
  {
    OperandIsAbs(i.a);
    OperandIsAbs(i.b);
    match i.op {
      case Mul => LowIgnoresSign(i.a, i.b);
      case Mulhu =>
      case Mulh =>
        Signs(ToInt(i.a), ToInt(i.b));
        ProductBound(Magnitude(i.a), Magnitude(i.b));
        HighOfNegated(Product(u, Mulh));
      case Mulhsu =>
        Signs(ToInt(i.a), i.b);
        ProductBound(Magnitude(i.a), i.b);
        HighOfNegated(Product(u, Mulhsu));
    }
  }

  lemma MulResultBound(u: Unit, op: MOp)
    requires Wide(u)
    ensures MulResult(u, op) >= 0
  {
  }

  // ---- an instruction held at the inputs, with any interrupt stalls -----------------------------------

  predicate FreshDiv(d: Divider.Regs) { Divider.Wide(d) && d.st == Idle && !d.ready && d.result == 0 }

  predicate Fresh(u: Unit) { Wide(u) && FreshDiv(u.div) && !u.mulReady }

  /** The unit n clock cycles into this instruction. */
  ghost predicate Working(u: Unit, i: Instr, n: nat)
    requires Words(i)
  {
    && Wide(u)
    && if i.op.Divides? then !u.mulReady && Divider.At(u.div, i.op.op, i.a, i.b, n)
       else FreshDiv(u.div) && n <= 1 && (u.mulReady <==> n == 1) && (n == 1 ==> u.op1 == i.a && u.op2 == i.b)
  }

  function Cycles(i: Instr): nat { if i.op.Divides? then Latency(i.b) else 1 }

  lemma FreshWorks(u: Unit, i: Instr)
    requires Fresh(u) && Words(i)
    ensures Working(u, i, 0)
  {
  }

  /** The result is offered after exactly its number of cycles, and it is the specified one. */
  lemma WritesSpec(u: Unit, i: Instr, n: nat)
    requires Words(i) && Working(u, i, n)
    ensures Writes(u) <==> n == Cycles(i)
    ensures Writes(u) ==> MulResult(u, i.op) >= 0 && WriteData(u, i) == Spec(i)
  {
    MulResultBound(u, i.op);
    if i.op.Divides? {
      assert Latency(i.b) > 1;
    } else if u.mulReady {
      MulIsSpec(u, i);
    }
  }

  /** One cycle: on with the instruction, back to its beginning (an interrupt stall drops the start
      signal of a division), or, after the write, ready for the next. */
  lemma WorkStep(u: Unit, i: Instr, n: nat, stall: bool)
    requires Words(i) && Working(u, i, n)
    ensures Writes(u) ==> Fresh(Step(u, i, stall))
    ensures !Writes(u) && !stall ==> Working(Step(u, i, stall), i, n + 1)
    ensures !Writes(u) && stall ==> exists m :: Working(Step(u, i, stall), i, m)
  {
    WritesSpec(u, i, n);
    if i.op.Divides? {
      AtStep(u.div, i.op.op, i.a, i.b, n, DivStart(u, i, stall));
      if stall { assert Working(Step(u, i, stall), i, 0); }
    } else {
      var d := Divider.Step(u.div, Ins(false, i.a, i.b, DivOp(i)));
      assert FreshDiv(d);
      if !Writes(u) { assert Working(Step(u, i, stall), i, 1); }
    }
  }

  function Hold(u: Unit, i: Instr, n: nat): (r: Unit)
    requires Wide(u) && Words(i)
    ensures Wide(r)
  {
    if n == 0 then u else Step(Hold(u, i, n - 1), i, false)
  }

  /** Undisturbed, a multiplication takes one cycle, a division 35 and one by zero 2: the result is
      not offered before, and then it is the specified one. */
  lemma {:induction false} TakesItsCycles(u: Unit, i: Instr, n: nat)
    requires Fresh(u) && Words(i) && n <= Cycles(i)
    ensures Working(Hold(u, i, n), i, n)
    ensures Writes(Hold(u, i, n)) <==> n == Cycles(i)
    ensures n == Cycles(i) ==> MulResult(Hold(u, i, n), i.op) >= 0 && WriteData(Hold(u, i, n), i) == Spec(i)
  {
    if n > 0 {
      TakesItsCycles(u, i, n - 1);
      WorkStep(Hold(u, i, n - 1), i, n - 1, false);
    }
    WritesSpec(Hold(u, i, n), i, n);
  }

  // ---- a stream of instructions ---------------------------------------------------------------------

  /** The core holds each instruction until it is written back, then presents the next. */
  datatype Stream = Stream(u: Unit, next: nat, out: seq<int>)

  ghost predicate Program(p: seq<Instr>) { forall k :: 0 <= k < |p| ==> Words(p[k]) }

  ghost predicate Specs(p: seq<Instr>, out: seq<int>)
    requires Program(p)
  {
    |out| <= |p| && forall k :: 0 <= k < |out| ==> out[k] == Spec(p[k])
  }

  ghost predicate InStream(p: seq<Instr>, s: Stream)
    requires Program(p)
  {
    && |s.out| == s.next <= |p| && Specs(p, s.out)
    && (s.next == |p| ==> Fresh(s.u))
    && (s.next < |p| ==> exists n :: Working(s.u, p[s.next], n))
  }

  function Advance(p: seq<Instr>, s: Stream, stall: bool): Stream
    requires s.next < |p| && Words(p[s.next]) && Wide(s.u)
  {
    var i := p[s.next];
    MulResultBound(s.u, i.op);
    if Writes(s.u) then Stream(Step(s.u, i, stall), s.next + 1, s.out + [WriteData(s.u, i)])
    else s.(u := Step(s.u, i, stall))
  }

  lemma AdvanceKeeps(p: seq<Instr>, s: Stream, stall: bool)
    requires Program(p) && InStream(p, s) && s.next < |p| && Wide(s.u)
    ensures InStream(p, Advance(p, s, stall))
  {
    var i := p[s.next];
    var n :| Working(s.u, i, n);
    WritesSpec(s.u, i, n);
    WorkStep(s.u, i, n, stall);
    var r := Advance(p, s, stall);
    if Writes(s.u) {
      if r.next < |p| { FreshWorks(r.u, p[r.next]); }
    }
  }

  ghost function RunStream(p: seq<Instr>, s: Stream, stalls: seq<bool>): (r: Stream)
    requires Program(p) && InStream(p, s)
    ensures InStream(p, r)
  {
    if stalls == [] then s else
      var m := RunStream(p, s, stalls[..|stalls| - 1]);
      if m.next == |p| then m else AdvanceKeeps(p, m, stalls[|stalls| - 1]); Advance(p, m, stalls[|stalls| - 1])
  }

  /** For every program of M instructions, all operands and every pattern of interrupt stalls: the
      values written back so far are the specified ones, one per instruction, in order. */
  lemma {:induction false} WritesBackTheProgram(p: seq<Instr>, u: Unit, stalls: seq<bool>)
    requires Program(p) && Fresh(u)
    ensures (p != [] ==> Working(u, p[0], 0))
    ensures InStream(p, Stream(u, 0, []))
    ensures Specs(p, RunStream(p, Stream(u, 0, []), stalls).out)
  {
    if p != [] { FreshWorks(u, p[0]); }
    assert InStream(p, Stream(u, 0, []));
  }
}
