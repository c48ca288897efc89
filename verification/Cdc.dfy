/** The two-phase clock-domain bridge (fi_cdc_2phase_v6 of rtl/fi_transporter.v): a toggle
    handshake between two clocks whose edges interleave in any order. */
module Cdc {

  datatype Source<T> = Source(hold: T, toggle: bool, busy: bool, d1: bool, d2: bool, d3: bool)

  datatype Dest<T> = Dest(data: T, valid: bool, toggle: bool, s1: bool, s2: bool, s3: bool)

  /** One clock edge on either side, with the inputs it samples. */
  datatype Event<T> = SrcEdge(offer: bool, item: T) | DstEdge(ready: bool)

  /** Where the one item in flight is. */
  datatype Place = Free | Crossing | Presented | Returning

  /** The bridge: the registers of both halves, and ghost records of what was accepted on one
      side and taken on the other. */
  class Bridge<T(==)> {
    var src: Source<T>
    var dst: Dest<T>
    ghost var accepted: seq<T>
    ghost var taken: seq<T>

    /** Both halves leave a shared reset. */
    constructor (zero: T)
      ensures Valid() && accepted == [] && taken == [] && Spot(src, dst) == Free
    {
      src := Source(zero, false, false, false, false, false);
      dst := Dest(zero, false, false, false, false, false);
      accepted, taken := [], [];
    }

    ghost predicate Valid()
      reads this
    {
      Handshake(src, dst) && accepted == taken + InFlight(src, dst)
    }

    /** A source edge; the item is accepted exactly when the bridge says it is ready. */
    method SrcTick(offer: bool, item: T)
      requires Valid()
      modifies this
      ensures Valid() && taken == old(taken) && dst == old(dst)
      ensures accepted == old(accepted) + if offer && !old(src.busy) then [item] else []
      ensures src == SrcNext(old(src), old(dst), offer, item)
    {
      var take := offer && !src.busy;
      var busy := if src.busy && src.d2 != src.d3 then false else src.busy;
      if take {
        accepted := accepted + [item];
        src := Source(item, !src.toggle, true, dst.toggle, src.d1, src.d2);
      } else {
        src := Source(src.hold, src.toggle, busy, dst.toggle, src.d1, src.d2);
      }
    }

    /** A destination edge; the presented item is taken exactly when the consumer is ready. */
    method DstTick(ready: bool)
      requires Valid()
      modifies this
      ensures Valid() && accepted == old(accepted) && src == old(src)
      ensures taken == old(taken) + if old(dst.valid) && ready then [old(dst.data)] else []
      ensures dst == DstNext(old(src), old(dst), ready)
    {
      var arrive := !dst.valid && dst.s2 != dst.s3;
      var leave := dst.valid && ready;
      if leave { taken := taken + [dst.data]; }
      if arrive {
        dst := Dest(src.hold, true, dst.toggle, src.toggle, dst.s1, dst.s2);
      } else if leave {
        dst := Dest(dst.data, false, dst.s2, src.toggle, dst.s1, dst.s2);
      } else {
        dst := Dest(dst.data, dst.valid, dst.toggle, src.toggle, dst.s1, dst.s2);
      }
    }
  }

  // ---- the same edges as values ---------------------------------------------------------

  function SrcNext<T>(s: Source<T>, d: Dest<T>, offer: bool, item: T): Source<T> {
    var take := offer && !s.busy;
    Source(if take then item else s.hold,
           if take then !s.toggle else s.toggle,
           take || (s.busy && s.d2 == s.d3),
           d.toggle, s.d1, s.d2)
  }

  function DstNext<T>(s: Source<T>, d: Dest<T>, ready: bool): Dest<T> {
    var arrive := !d.valid && d.s2 != d.s3;
    Dest(if arrive then s.hold else d.data,
         arrive || (d.valid && !ready),
         if d.valid && ready then d.s2 else d.toggle,
         s.toggle, d.s1, d.s2)
  }

  predicate SyncD<T>(s: Source<T>, v: bool) { s.d1 == v && s.d2 == v && s.d3 == v }

  predicate SyncS<T>(d: Dest<T>, v: bool) { d.s1 == v && d.s2 == v && d.s3 == v }

  /** Which stage of the handshake the registers show. */
  function Spot<T>(s: Source<T>, d: Dest<T>): Place {
    if !s.busy then Free else if s.toggle == d.toggle then Returning else if d.valid then Presented else Crossing
  }

  predicate Handshake<T(==)>(s: Source<T>, d: Dest<T>) {
    match Spot(s, d)
    case Free => !d.valid && s.toggle == d.toggle && SyncD(s, d.toggle) && SyncS(d, s.toggle)
    case Crossing => SyncD(s, d.toggle) && d.s3 == d.toggle && (d.s2 == s.toggle ==> d.s1 == s.toggle)
    case Presented => SyncD(s, d.toggle) && SyncS(d, s.toggle) && d.data == s.hold
    case Returning =>
      !d.valid && SyncS(d, s.toggle) && s.d3 != d.toggle && (s.d2 == d.toggle ==> s.d1 == d.toggle)
  }

  function InFlight<T>(s: Source<T>, d: Dest<T>): seq<T> {
    match Spot(s, d)
    case Crossing => [s.hold]
    case Presented => [s.hold]
    case _ => []
  }

  // ---- every interleaving -----------------------------------------------------------------

  datatype Trace<T> = Trace(src: Source<T>, dst: Dest<T>, accepted: seq<T>, taken: seq<T>)

  function Start<T>(zero: T): Trace<T> {
    Trace(Source(zero, false, false, false, false, false), Dest(zero, false, false, false, false, false), [], [])
  }

  function Step<T>(t: Trace<T>, e: Event<T>): Trace<T> {
    match e
    case SrcEdge(offer, item) =>
      Trace(SrcNext(t.src, t.dst, offer, item), t.dst,
            t.accepted + (if offer && !t.src.busy then [item] else []), t.taken)
    case DstEdge(ready) =>
      Trace(t.src, DstNext(t.src, t.dst, ready), t.accepted,
            t.taken + if t.dst.valid && ready then [t.dst.data] else [])
  }

  function Run<T>(t: Trace<T>, es: seq<Event<T>>): Trace<T> {
    if es == [] then t else Step(Run(t, es[..|es| - 1]), es[|es| - 1])
  }

  predicate Sound<T(==)>(t: Trace<T>) {
    Handshake(t.src, t.dst) && t.accepted == t.taken + InFlight(t.src, t.dst)
  }

  lemma SoundStep<T>(t: Trace<T>, e: Event<T>)
    requires Sound(t)
    ensures Sound(Step(t, e))
  {
  }

  /** Every accepted item is taken exactly once, unchanged and in order: at any moment of any
      interleaving, what was taken is what was accepted, except for at most one item that is
      still in the bridge. */
  lemma {:induction false} DeliversInOrder<T>(zero: T, es: seq<Event<T>>)
    ensures var t := Run(Start(zero), es);
            && Sound(t) && |InFlight(t.src, t.dst)| <= 1
            && t.taken <= t.accepted && |t.accepted| <= |t.taken| + 1
            && (t.dst.valid ==> t.accepted == t.taken + [t.dst.data])
  {
    if es != [] {
      DeliversInOrder(zero, es[..|es| - 1]);
      SoundStep(Run(Start(zero), es[..|es| - 1]), es[|es| - 1]);
    }
  }

  /** Edges the item still needs before it is presented, and then before the source is free. */
  function Distance<T>(t: Trace<T>): nat {
    match Spot(t.src, t.dst)
    case Free => 0
    case Returning => if t.src.d2 == t.dst.toggle then 1 else if t.src.d1 == t.dst.toggle then 2 else 3
    case Presented => 4
    case Crossing => if t.dst.s2 == t.src.toggle then 5 else if t.dst.s1 == t.src.toggle then 6 else 7
  }

  /** The edge that moves the handshake on: a destination edge while the item crosses, one with
      the consumer ready while it is presented, a source edge while the acknowledge returns. */
  predicate Useful<T>(t: Trace<T>, e: Event<T>) {
    match Spot(t.src, t.dst)
    case Free => false
    case Returning => e.SrcEdge?
    case Presented => e.DstEdge? && e.ready
    case Crossing => e.DstEdge?
  }

  /** No edge ever moves the handshake back, and seven useful ones complete it. */
  lemma HandshakeProgress<T>(t: Trace<T>, e: Event<T>)
    requires Sound(t) && Spot(t.src, t.dst) != Free
    ensures Distance(t) <= 7
    ensures Useful(t, e) ==> Distance(Step(t, e)) == Distance(t) - 1
    ensures !Useful(t, e) ==> Distance(Step(t, e)) == Distance(t)
  {
  }
}
