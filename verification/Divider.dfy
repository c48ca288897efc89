/** The example core's restoring divider (examples/tinyriscv/rtl/core/divider.sv), with the
    register widths written out. */
module Divider {
  import opened Arith

  datatype Op = Div | Divu | Rem | Remu

  datatype State = Idle | Start | Calc | End

  /** `op` of None is op_r with no bit set. */
  datatype OpReg = None | Some(op: Op)

  datatype Regs = Regs(
    st: State, op: OpReg, dividend: nat, divisor: nat, count: nat,
    quo: nat, rem: nat, minuend: nat, invert: bool, result: nat, ready: bool)

  datatype Ins = Ins(start: bool, a: nat, b: nat, op: Op)

  const POWER_ON := Regs(Idle, None, 0, 0, 0, 0, 0, 0, false, 0, false)

  function Neg32(x: nat): nat
    requires x < W32
  {
    if x == 0 then 0 else W32 - x
  }

  predicate Signed(o: OpReg) { o == Some(Div) || o == Some(Rem) }

  predicate Quotient(o: OpReg) { o == Some(Div) || o == Some(Divu) }

  /** |x| of a 32-bit two's complement value, as 32 bits. */
  function Magnitude(x: nat): nat
    requires x < W32
  {
    if x >= W31 then W32 - x else x
  }

  predicate Wide(s: Regs) {
    && s.dividend < W32 && s.divisor < W32 && s.count < W32 && s.quo < W32 && s.rem < W32
    && s.minuend < W32 && s.result < W32
  }

  function Abort(s: Regs): Regs { s.(st := Idle, result := 0, ready := false) }

  function IdleStep(s: Regs, i: Ins): Regs {
    if i.start then s.(op := Some(i.op), dividend := i.a, divisor := i.b, st := Start)
    else s.(op := None, dividend := 0, divisor := 0, ready := false, result := 0)
  }

  predicate Inverts(s: Regs) {
    (s.op == Some(Div) && (s.dividend >= W31) != (s.divisor >= W31)) || (s.op == Some(Rem) && s.dividend >= W31)
  }

  function StartStep(s: Regs): Regs
    requires Wide(s)
  {
    if s.divisor == 0 then
      s.(result := if Quotient(s.op) then W32 - 1 else s.dividend, ready := true, st := Idle)
    else
      var d := if Signed(s.op) then Magnitude(s.dividend) else s.dividend;
      s.(count := 0x4000_0000, st := Calc, quo := 0, rem := 0,
         dividend := d, minuend := d / W31,
         divisor := if Signed(s.op) then Magnitude(s.divisor) else s.divisor,
         invert := Inverts(s))
  }

  /** The 31 bits kept of the partial remainder. */
  function Kept(s: Regs): nat
    requires Wide(s)
  {
    (if s.minuend >= s.divisor then s.minuend - s.divisor else s.minuend) % W31
  }

  function CalcStep(s: Regs): Regs
    requires Wide(s)
  {
    var ge := s.minuend >= s.divisor;
    var n := s.(dividend := 2 * (s.dividend % W31),
                quo := 2 * (s.quo % W31) + (if ge then 1 else 0),
                count := s.count / 2);
    if s.count != 0 then n.(minuend := 2 * Kept(s) + s.dividend / 0x4000_0000 % 2)
    else n.(st := End, rem := if ge then s.minuend - s.divisor else s.minuend)
  }

  function EndStep(s: Regs): Regs
    requires Wide(s)
  {
    var v := if Quotient(s.op) then s.quo else s.rem;
    s.(ready := true, st := Idle, result := if s.invert then Neg32(v) else v)
  }

  function Step(s: Regs, i: Ins): (n: Regs)
    requires Wide(s) && i.a < W32 && i.b < W32
    ensures Wide(n)
  {
    match s.st
    case Idle => IdleStep(s, i)
    case Start => if i.start then StartStep(s) else Abort(s)
    case Calc => if i.start then CalcStep(s) else Abort(s)
    case End => if i.start then EndStep(s) else Abort(s)
  }

  // ---- sections 7.1 and 7.2 of the RISC-V Unprivileged ISA, version 20191213 ------------------

  function ToInt(x: int): int
    requires 0 <= x < W32
  {
    if x >= W31 then x - W32 else x
  }

  /** The 32-bit pattern of a value from -2^32 to 2^32 - 1. */
  function ToWord(v: int): nat
    requires -W32 <= v < W32
  {
    if v < 0 then v + W32 else v
  }

  function Abs(v: int): (r: int)
    ensures r >= 0
  {
    if v < 0 then -v else v
  }

  /** Division rounding towards zero. */
  function Quo(a: int, b: int): int
    requires b != 0
  {
    var q: int := Abs(a) / Abs(b);
    if (a < 0) == (b < 0) then q else -q
  }

  lemma QuoBound(a: int, b: int)
    requires b != 0
    ensures -Abs(a) <= Quo(a, b) <= Abs(a)
  {
    var x, y := Abs(a), Abs(b);
    assert x / y <= x by { DivShrinks(x, y); }
  }

  lemma DivShrinks(x: nat, y: nat)
    requires y > 0
    ensures x / y <= x
  {
    var q := x / y;
    assert x == q * y + x % y;
    Grows(q, y);
  }

  /** The remainder that goes with it: a == Quo(a, b) * b + r, with the sign of a. */
  function RemOf(a: int, b: int): int
    requires b != 0
  {
    var r: int := Abs(a) % Abs(b);
    if a < 0 then -r else r
  }

  lemma RemIsRest(a: int, b: int)
    requires b != 0
    ensures a == Quo(a, b) * b + RemOf(a, b) && Abs(RemOf(a, b)) < Abs(b)
  {
  }

  /** What each instruction writes; division by zero and the overflow -2^31 / -1 included. */
  function Spec(op: Op, a: nat, b: nat): (r: nat)
    requires a < W32 && b < W32
    ensures r < W32
  {
    match op
    case Divu => if b == 0 then W32 - 1 else DivShrinks(a, b); a / b
    case Remu => if b == 0 then a else a % b
    case Div =>
      if b == 0 then W32 - 1
      else if ToInt(a) == -W31 && ToInt(b) == -1 then W31
      else QuoBound(ToInt(a), ToInt(b)); ToWord(Quo(ToInt(a), ToInt(b)))
    case Rem =>
      if b == 0 then a
      else if ToInt(a) == -W31 && ToInt(b) == -1 then 0
      else RemIsRest(ToInt(a), ToInt(b)); ToWord(RemOf(ToInt(a), ToInt(b)))
  }

  // ---- the loop ---------------------------------------------------------------------------------

  /** In the loop: of the dividend d0, `top` has been brought down and `rest` is still in the
      register, below a weight of p; q = 2^31 / p is the weight the register is shifted by. */
  ghost predicate Looping(s: Regs, d0: nat, top: nat, rest: nat, p: nat, q: nat) {
    && p * q == W31 && p >= 1 && q >= 1 && rest < p && d0 == top * p + rest
    && s.dividend % W31 == rest * q && s.count == p / 2
    && s.divisor >= 1 && 2 * (s.divisor * s.quo) + s.minuend == top && s.minuend < 2 * s.divisor
    && top < 2 * q && s.quo < q
  }

  /** The bit that comes down. */
  lemma BitDown(dividend: nat, rest: nat, h: nat, q: nat)
    requires dividend < W32 && h >= 1 && q >= 1 && (2 * h) * q == W31 && rest < 2 * h && dividend % W31 == rest * q
    ensures var bit := if rest >= h then 1 else 0;
            && dividend / 0x4000_0000 % 2 == bit
            && 2 * (dividend % W31) % W31 == (rest - bit * h) * (2 * q)
  {
    var x := rest * q;
    assert h * q == 0x4000_0000;
    if rest >= h {
      MulLeq(h, rest, q);
      MulLess(rest, 2 * h, q);
      assert (rest - h) * (2 * q) == 2 * x - 2 * (h * q);
    } else {
      MulLess(rest, h, q);
      assert rest * (2 * q) == 2 * x;
    }
  }

  lemma Subtracts(d: int, quo: int, minuend: int, top: int, ge: int, bit: int)
    requires 2 * (d * quo) + minuend == top && (ge == 0 || ge == 1)
    ensures d * (2 * quo + ge) + (minuend - ge * d) == top
    ensures 2 * (d * (2 * quo + ge)) + (2 * (minuend - ge * d) + bit) == 2 * top + bit
  {
  }

  lemma BringsDown(top: int, h: int, rest: int, bit: int)
    ensures (2 * top + bit) * h + (rest - bit * h) == top * (2 * h) + rest
  {
  }

  /** The registers after a step of the loop that loses no bit. */
  lemma CalcRegs(s: Regs)
    requires Wide(s) && s.quo < W31 && s.count != 0 && s.minuend < W31
    ensures var n, ge := CalcStep(s), if s.minuend >= s.divisor then 1 else 0;
            && n.st == s.st && n.divisor == s.divisor && n.count == s.count / 2
            && n.dividend == 2 * (s.dividend % W31) && n.quo == 2 * s.quo + ge
            && n.minuend == 2 * (s.minuend - ge * s.divisor) + s.dividend / 0x4000_0000 % 2
  {
  }

  /** No partial remainder reaches 2^31 before the last step: it is at most `top`. */
  lemma NothingLost(s: Regs, d0: nat, top: nat, rest: nat, h: nat, q: nat)
    requires h >= 1 && Looping(s, d0, top, rest, 2 * h, q)
    ensures s.minuend <= top < W31 && s.quo < W31 && s.count != 0 && h * (2 * q) == W31
  {
  }

  lemma LoopStep(s: Regs, d0: nat, top: nat, rest: nat, h: nat, q: nat)
    requires Wide(s) && h >= 1 && Looping(s, d0, top, rest, 2 * h, q)
    ensures var bit := if rest >= h then 1 else 0;
            CalcStep(s).st == s.st && Looping(CalcStep(s), d0, 2 * top + bit, rest - bit * h, h, 2 * q)
  {
    var bit, ge := if rest >= h then 1 else 0, if s.minuend >= s.divisor then 1 else 0;
    NothingLost(s, d0, top, rest, h, q);
    CalcRegs(s);
    BitDown(s.dividend, rest, h, q);
    Subtracts(s.divisor, s.quo, s.minuend, top, ge, bit);
    BringsDown(top, h, rest, bit);
    LoopGlue(CalcStep(s), d0, 2 * top + bit, rest - bit * h, h, 2 * q);
  }

  lemma LoopGlue(n: Regs, d0: nat, top: nat, rest: nat, p: nat, q: nat)
    requires p * q == W31 && p >= 1 && q >= 1 && rest < p && d0 == top * p + rest
    requires n.dividend % W31 == rest * q && n.count == p / 2 && n.divisor >= 1
    requires 2 * (n.divisor * n.quo) + n.minuend == top && n.minuend < 2 * n.divisor && top < 2 * q && n.quo < q
    ensures Looping(n, d0, top, rest, p, q)
  {
  }

  lemma LoopEnds(s: Regs, d0: nat, top: nat, rest: nat, q: nat)
    requires Wide(s) && Looping(s, d0, top, rest, 1, q)
    ensures var n := CalcStep(s);
            n.st == End && n.divisor == s.divisor && n.divisor * n.quo + n.rem == d0 && n.rem < n.divisor
  {
    var ge := if s.minuend >= s.divisor then 1 else 0;
    Subtracts(s.divisor, s.quo, s.minuend, top, ge, 0);
    LastRegs(s);
  }

  lemma LastRegs(s: Regs)
    requires Wide(s) && s.quo < W31 && s.count == 0
    ensures var n, ge := CalcStep(s), if s.minuend >= s.divisor then 1 else 0;
            && n.st == End && n.divisor == s.divisor && n.quo == 2 * s.quo + ge
            && n.rem == s.minuend - ge * s.divisor
  {
  }

  // ---- an instruction held at the inputs ----------------------------------------------------------

  /** A number without its w low bits, and those bits. */
  function Top(d: nat, w: nat): nat { if w == 0 then d else Top(d, w - 1) / 2 }

  function Low(d: nat, w: nat): nat {
    if w == 0 then 0 else Low(d, w - 1) + (if Top(d, w - 1) % 2 == 1 then Pow2(w - 1) else 0)
  }

  lemma {:induction false} LowBound(d: nat, w: nat)
    ensures Low(d, w) < Pow2(w)
  {
    if w > 0 { LowBound(d, w - 1); }
  }

  lemma {:induction false} TopAndLow(d: nat, w: nat)
    ensures d == Top(d, w) * Pow2(w) + Low(d, w)
  {
    if w > 0 {
      TopAndLow(d, w - 1);
      Rejoin(Top(d, w), Top(d, w - 1), Pow2(w - 1));
    }
  }

  lemma Rejoin(t: nat, t1: nat, h: nat)
    requires t == t1 / 2
    ensures t1 * h == t * (2 * h) + (if t1 % 2 == 1 then h else 0)
  {
  }

  /** The next bit is the top one of those left. */
  lemma NextBit(d: nat, w: nat)
    requires w >= 1
    ensures var bit := if Low(d, w) >= Pow2(w - 1) then 1 else 0;
            2 * Top(d, w) + bit == Top(d, w - 1) && Low(d, w) - bit * Pow2(w - 1) == Low(d, w - 1)
  {
    LowBound(d, w - 1);
  }

  /** The operands as the loop divides them. */
  function Operand(op: Op, x: nat): nat
    requires x < W32
  {
    if op == Div || op == Rem then Magnitude(x) else x
  }

  predicate Negates(op: Op, a: nat, b: nat)
    requires a < W32 && b < W32
  {
    (op == Div && (a >= W31) != (b >= W31)) || (op == Rem && a >= W31)
  }

  /** Clock cycles from the start signal to ready. */
  function Latency(b: nat): nat { if b == 0 then 2 else 35 }

  ghost predicate InLoop(s: Regs, op: Op, a: nat, b: nat, w: nat)
    requires a < W32 && b < W32 && w <= 31
  {
    && s.st == Calc && s.op == Some(op) && b != 0 && !s.ready && s.divisor == Operand(op, b)
    && s.invert == Negates(op, a, b)
    && var d := Operand(op, a); Looping(s, d, Top(d, w), Low(d, w), Pow2(w), Pow2(31 - w))
  }

  /** The divider n cycles after the start signal went up on this instruction. */
  ghost predicate At(s: Regs, op: Op, a: nat, b: nat, n: nat)
    requires a < W32 && b < W32
  {
    && Wide(s) && n <= Latency(b)
    && if n == 0 then s.st == Idle && !s.ready && s.result == 0
       else if n == Latency(b) then s.st == Idle && s.ready && s.result == Spec(op, a, b)
       else if n == 1 then s.st == Start && s.op == Some(op) && s.dividend == a && s.divisor == b && !s.ready
       else if n <= 33 then InLoop(s, op, a, b, 33 - n)
       else && s.st == End && s.op == Some(op) && !s.ready && s.invert == Negates(op, a, b)
            && s.divisor == Operand(op, b) && s.rem < s.divisor && s.divisor * s.quo + s.rem == Operand(op, a)
  }

  lemma LoopStarts(s: Regs, op: Op, a: nat, b: nat)
    requires a < W32 && b < W32 && b != 0 && At(s, op, a, b, 1)
    ensures InLoop(StartStep(s), op, a, b, 31)
  {
    Pow31();
    var n, d := StartStep(s), Operand(op, a);
    assert n.dividend == d && n.minuend == d / W31 && n.divisor == Operand(op, b) >= 1;
    TopAndLow(d, 31);
    LowBound(d, 31);
    assert Top(d, 31) == d / W31 && Low(d, 31) == d % W31;
    LoopGlue(n, d, d / W31, d % W31, W31, 1);
  }

  lemma CalcKeeps(s: Regs)
    requires Wide(s)
    ensures var n := CalcStep(s);
            n.op == s.op && n.ready == s.ready && n.divisor == s.divisor && n.invert == s.invert && n.result == s.result
  {
  }

  lemma LoopHalves(s: Regs, d: nat, top: nat, rest: nat, top': nat, rest': nat, h: nat, q: nat)
    requires Wide(s) && h >= 1 && Looping(s, d, top, rest, 2 * h, q)
    requires var bit := if rest >= h then 1 else 0; 2 * top + bit == top' && rest - bit * h == rest'
    ensures CalcStep(s).st == s.st && Looping(CalcStep(s), d, top', rest', h, 2 * q)
  {
    LoopStep(s, d, top, rest, h, q);
  }

  lemma LoopRuns(s: Regs, op: Op, a: nat, b: nat, w: nat)
    requires a < W32 && b < W32 && Wide(s) && 1 <= w <= 31 && InLoop(s, op, a, b, w)
    ensures InLoop(CalcStep(s), op, a, b, w - 1)
  {
    var d := Operand(op, a);
    NextBit(d, w);
    LoopHalves(s, d, Top(d, w), Low(d, w), Top(d, w - 1), Low(d, w - 1), Pow2(w - 1), Pow2(31 - w));
    CalcKeeps(s);
  }

  lemma OperandIsAbs(x: nat)
    requires x < W32
    ensures Magnitude(x) == Abs(ToInt(x))
  {
  }

  /** The last step puts the signs back as the standard wants them. */
  lemma EndIsSpec(op: Op, a: nat, b: nat, q: nat, r: nat)
    requires a < W32 && b < W32 && b != 0 && q < W32 && r < W32
    requires r < Operand(op, b) && Operand(op, b) * q + r == Operand(op, a)
    ensures var v := if op == Div || op == Divu then q else r;
            (if Negates(op, a, b) then Neg32(v) else v) == Spec(op, a, b)
  {
    DivUnique(Operand(op, a), Operand(op, b), q, r);
    OperandIsAbs(a);
    OperandIsAbs(b);
  }

  lemma LoopDone(s: Regs, op: Op, a: nat, b: nat)
    requires a < W32 && b < W32 && Wide(s) && InLoop(s, op, a, b, 0)
    ensures At(CalcStep(s), op, a, b, 34)
  {
    var d := Operand(op, a);
    LoopEnds(s, d, Top(d, 0), Low(d, 0), Pow2(31));
    CalcKeeps(s);
  }

  /** With the start signal up the divider moves on; without it, it is ready for a new start. */
  lemma AtStep(s: Regs, op: Op, a: nat, b: nat, n: nat, start: bool)
    requires a < W32 && b < W32 && At(s, op, a, b, n)
    ensures start && n < Latency(b) ==> At(Step(s, Ins(start, a, b, op)), op, a, b, n + 1)
    ensures !start ==> At(Step(s, Ins(start, a, b, op)), op, a, b, 0)
  {
    if start && 1 <= n < Latency(b) {
      if n == 1 { if b != 0 { LoopStarts(s, op, a, b); } }
      else if n < 33 { LoopRuns(s, op, a, b, 33 - n); }
      else if n == 33 { LoopDone(s, op, a, b); }
      else { EndIsSpec(op, a, b, s.quo, s.rem); }
    }
  }

  function Run(s: Regs, ins: seq<Ins>): (r: Regs)
    requires Wide(s) && forall k :: 0 <= k < |ins| ==> ins[k].a < W32 && ins[k].b < W32
    ensures Wide(r)
  {
    if ins == [] then s else Step(Run(s, ins[..|ins| - 1]), ins[|ins| - 1])
  }

  /** For all operands, from any idle state: ready comes after exactly 35 cycles (2 for a zero
      divisor) and not before, with the result the standard specifies. */
  lemma {:induction false} Divides(s: Regs, op: Op, a: nat, b: nat, n: nat)
    requires a < W32 && b < W32 && At(s, op, a, b, 0) && n <= Latency(b)
    ensures var r := Run(s, seq(n, _ => Ins(true, a, b, op)));
            && At(r, op, a, b, n) && (r.ready <==> n == Latency(b))
            && (n == Latency(b) ==> r.result == Spec(op, a, b))
  {
    if n > 0 {
      Divides(s, op, a, b, n - 1);
      assert seq(n, _ => Ins(true, a, b, op))[..n - 1] == seq(n - 1, _ => Ins(true, a, b, op));
      AtStep(Run(s, seq(n - 1, _ => Ins(true, a, b, op))), op, a, b, n - 1, true);
    }
  }

  /** The divider's clocked block. */
  class Unit {
    var r: Regs

    constructor ()
      ensures r == POWER_ON && Wide(r)
    {
      r := POWER_ON;
    }

    method Tick(i: Ins)
      requires Wide(r) && i.a < W32 && i.b < W32
      modifies this
      ensures Wide(r) && r == Step(old(r), i)
    {
      match r.st {
        case Idle =>
          if i.start {
            r := r.(op := Some(i.op), dividend := i.a, divisor := i.b, st := Start);
          } else {
            r := r.(op := None, dividend := 0, divisor := 0, ready := false, result := 0);
          }
        case Start =>
          if i.start { Begin(); } else { r := r.(st := Idle, result := 0, ready := false); }
        case Calc =>
          if i.start { Shift(); } else { r := r.(st := Idle, result := 0, ready := false); }
        case End =>
          if i.start { Finish(); } else { r := r.(st := Idle, result := 0, ready := false); }
      }
    }

    method Begin()
      requires Wide(r)
      modifies this
      ensures r == StartStep(old(r))
    {
      if r.divisor == 0 {
        r := r.(result := if Quotient(r.op) then W32 - 1 else r.dividend, ready := true, st := Idle);
      } else {
        var invert, dividend, divisor := false, r.dividend, r.divisor;
        if Signed(r.op) {
          if dividend >= W31 { dividend := W32 - dividend; }
          if divisor >= W31 { divisor := W32 - divisor; }
        }
        if (r.op == Some(Div) && (r.dividend >= W31) != (r.divisor >= W31))
           || (r.op == Some(Rem) && r.dividend >= W31) {
          invert := true;
        }
        r := r.(count := 0x4000_0000, st := Calc, quo := 0, rem := 0, dividend := dividend,
                minuend := dividend / W31, divisor := divisor, invert := invert);
      }
    }

    method Shift()
      requires Wide(r)
      modifies this
      ensures r == CalcStep(old(r))
    {
      var st, rem, minuend := r.st, r.rem, r.minuend;
      var ge := minuend >= r.divisor;
      if r.count != 0 {
        minuend := 2 * Kept(r) + r.dividend / 0x4000_0000 % 2;
      } else {
        st := End;
        rem := if ge then minuend - r.divisor else minuend;
      }
      r := r.(dividend := 2 * (r.dividend % W31), quo := 2 * (r.quo % W31) + (if ge then 1 else 0),
              count := r.count / 2, minuend := minuend, st := st, rem := rem);
    }

    method Finish()
      requires Wide(r)
      modifies this
      ensures r == EndStep(old(r))
    {
      var v := if Quotient(r.op) then r.quo else r.rem;
      if r.invert { v := Neg32(v); }
      r := r.(ready := true, st := Idle, result := v);
    }
  }
}
