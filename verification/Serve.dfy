/** One trial's share of any table (rtl/fi_table_ctrl.v), whether its patterns are closed by an EOP entry or
    not: what the controller hands out, when it is ready, and what it flags. */
module Serve {
  import opened TableCtrl

  /** What an edge outside the reset brings: the end of a pass, and whether the front entry is taken. */
  datatype Feed = Feed(done: bool, pop: bool)

  function Word(table: seq<Entry>, ptr: nat): Entry { if ptr < |table| then table[ptr] else Entry(false, 0, 0) }

  function InAt(t: Table, table: seq<Entry>, tblLen: nat, f: Feed): TableIn {
    TableIn(false, false, tblLen, f.done, Word(table, t.ptr), f.pop)
  }

  /** The controller and what it has handed out. */
  datatype Served = Served(t: Table, out: seq<nat>)

  function Serve(t: Table, table: seq<Entry>, tblLen: nat, depth: nat, fs: seq<Feed>): Served {
    if fs == [] then Served(t, [])
    else
      var s, f := Serve(t, table, tblLen, depth, fs[..|fs| - 1]), fs[|fs| - 1];
      Served(Step(s.t, InAt(s.t, table, tblLen, f), depth, |table|),
             if f.pop && s.t.la != [] then s.out + [s.t.la[0]] else s.out)
  }

  /** The host's write of CFG_FI_CYCLE leaves the controller as it is at power-on; the design's reset drops
      what was fetched and keeps pointer, offset and sticky flags. */
  lemma BatchAndReset(t: Table, i: TableIn, depth: nat, words: nat)
    ensures i.batchStart ==> Step(t, i, depth, words) == POWER_ON.(rstQ := i.resolverRst)
    ensures i.resolverRst && !i.batchStart ==>
              Step(t, i, depth, words) == t.(la := [], fillArmed := false, eop := false, rstQ := true)
  {
  }

  /** A table retired by the end of a pass is not read again, nor called malformed, before the next batch,
      whatever length the host sets. */
  lemma SpentIsSpent(t: Table, i: TableIn, depth: nat, words: nat)
    requires t.exhausted && !i.batchStart
    ensures var n := Step(t, i, depth, words);
            && n.exhausted && n.ptr == t.ptr && |n.la| <= |t.la|
            && n.offset == t.offset && n.malformed == t.malformed && (n.eop ==> t.eop)
  {
  }

  /** The words in use: the host's length, but never more than the table has. */
  function Limit(table: seq<Entry>, tblLen: nat): nat { if tblLen < |table| then tblLen else |table| }

  /** Behind the first EOP entry from p on, or at the end of the words in use. */
  function Close(table: seq<Entry>, limit: nat, p: nat): (q: nat)
    requires limit <= |table|
    ensures q >= p && (p <= limit ==> q <= limit)
    decreases limit - p
  {
    if p >= limit then p else if table[p].eop then p + 1 else Close(table, limit, p + 1)
  }

  /** No EOP entry closes the pattern that begins at p. */
  predicate Open(table: seq<Entry>, limit: nat, p: nat)
    requires limit <= |table|
    decreases limit - p
  {
    p >= limit || (!table[p].eop && Open(table, limit, p + 1))
  }

  lemma {:induction false} CloseIsEop(table: seq<Entry>, limit: nat, p: nat)
    requires limit <= |table|
    ensures var q := Close(table, limit, p);
            && (Open(table, limit, p) ==> q >= limit)
            && (!Open(table, limit, p) ==> q > p && table[q - 1].eop)
            && forall k :: p <= k < q - 1 ==> !table[k].eop
    decreases limit - p
  {
    if p < limit && !table[p].eop { CloseIsEop(table, limit, p + 1); }
  }

  function Indices(table: seq<Entry>, p: nat, q: nat): seq<nat>
    requires p <= q <= |table|
  {
    if p == q then [] else Indices(table, p, q - 1) + [table[q - 1].idx]
  }

  /** Before the edge that ends the reset: nothing fetched. */
  predicate Starts(t: Table, depth: nat) {
    depth >= 2 && t.la == [] && !t.fillArmed && !t.eop && t.rstQ && !t.exhausted
  }

  /** What has been handed out and what is in hand are the words fetched so far, in order. */
  ghost predicate Handed(s: Served, table: seq<Entry>, depth: nat, p: nat) {
    && p <= s.t.ptr && |s.t.la| <= depth
    && s.out + s.t.la == if s.t.ptr <= |table| then Indices(table, p, s.t.ptr) else []
  }

  /** How far the trial's pattern has been fetched, from word `p` with the offset and the flag from before
      it; an open pattern ends one edge after its last word, with offset 0 and the flag up. */
  ghost predicate Fetching(t: Table, table: seq<Entry>, limit: nat, p: nat, off: nat, mal: bool, n: nat)
    requires limit <= |table|
  {
    var q := Close(table, limit, p);
    && p <= t.ptr <= q
    && (n == 0 ==> t.ptr == p && !t.fillArmed && t.rstQ && !t.exhausted && !t.eop) && (n > 0 ==> t.fillArmed)
    && (t.exhausted ==> t.ptr >= limit)
    && if t.eop
       then t.ptr == q && t.malformed == (mal || Open(table, limit, p))
            && t.offset == if Open(table, limit, p) then 0 else table[q - 1].off
       else t.offset == off && t.malformed == mal && (t.ptr == q ==> Open(table, limit, p))
  }

  lemma {:induction false} CloseBetween(table: seq<Entry>, limit: nat, p: nat, k: nat)
    requires limit <= |table| && p <= k < Close(table, limit, p)
    ensures k < limit && Close(table, limit, p) == Close(table, limit, k)
    ensures Open(table, limit, p) == Open(table, limit, k)
    decreases limit - p
  {
    if k > p { CloseBetween(table, limit, p + 1, k); }
  }

  /** How the word under the read pointer bears on the pattern's end. */
  lemma AtPointer(table: seq<Entry>, limit: nat, p: nat, k: nat)
    requires limit <= |table| && p <= k <= Close(table, limit, p)
    ensures var q := Close(table, limit, p);
            && (k < q ==> k < limit && (table[k].eop <==> k + 1 == q && !Open(table, limit, p)))
            && (k < q && !table[k].eop && k + 1 == q ==> q == limit)
            && (k == q && Open(table, limit, p) ==> q >= limit)
  {
    CloseIsEop(table, limit, p);
    if k < Close(table, limit, p) { CloseBetween(table, limit, p, k); }
  }

  lemma FetchingOn(t: Table, table: seq<Entry>, tblLen: nat, depth: nat, p: nat, off: nat, mal: bool, n: nat, f: Feed)
    requires Fetching(t, table, Limit(table, tblLen), p, off, mal, n)
    ensures Fetching(Step(t, InAt(t, table, tblLen, f), depth, |table|), table, Limit(table, tblLen),
                     p, off, mal, n + 1)
  {
    AtPointer(table, Limit(table, tblLen), p, t.ptr);
  }

  lemma {:induction false} IndicesLength(table: seq<Entry>, p: nat, q: nat)
    requires p <= q <= |table|
    ensures |Indices(table, p, q)| == q - p
  {
    if p < q { IndicesLength(table, p, q - 1); }
  }

  lemma HandedOn(s: Served, table: seq<Entry>, tblLen: nat, depth: nat, p: nat, f: Feed)
    requires depth >= 2 && Handed(s, table, depth, p)
    ensures Handed(Served(Step(s.t, InAt(s.t, table, tblLen, f), depth, |table|),
                          if f.pop && s.t.la != [] then s.out + [s.t.la[0]] else s.out), table, depth, p)
  {
    var i := InAt(s.t, table, tblLen, f);
    var n := Step(s.t, i, depth, |table|);
    if f.pop && s.t.la != [] {
      assert s.out + s.t.la == s.out + [s.t.la[0]] + s.t.la[1..];
    }
    if Pushes(s.t, i, depth, |table|) { assert s.t.ptr < |table| && n.ptr == s.t.ptr + 1; }
  }

  lemma {:induction false} AlwaysFetching(t: Table, table: seq<Entry>, tblLen: nat, depth: nat, fs: seq<Feed>)
    requires Starts(t, depth)
    ensures var s := Serve(t, table, tblLen, depth, fs);
            && Handed(s, table, depth, t.ptr)
            && Fetching(s.t, table, Limit(table, tblLen), t.ptr, t.offset, t.malformed, |fs|)
  {
    if fs != [] {
      var pre, f := fs[..|fs| - 1], fs[|fs| - 1];
      AlwaysFetching(t, table, tblLen, depth, pre);
      var s := Serve(t, table, tblLen, depth, pre);
      HandedOn(s, table, tblLen, depth, t.ptr, f);
      FetchingOn(s.t, table, tblLen, depth, t.ptr, t.offset, t.malformed, |pre|, f);
    }
  }

  /** A trial on any table, in every run: the entries handed out and in hand are the pattern's words from
      the pointer on, in order and no further than its EOP entry or the last word in use. Once the
      pattern is complete, its EOP entry's offset is latched, or, if there was none, offset 0 with the
      malformed flag, which nothing else raises. */
  lemma {:induction false} ServesAnyTable(t: Table, table: seq<Entry>, tblLen: nat, depth: nat, fs: seq<Feed>)
    requires Starts(t, depth)
    ensures var s, limit := Serve(t, table, tblLen, depth, fs), Limit(table, tblLen);
            var q := Close(table, limit, t.ptr);
            && t.ptr <= s.t.ptr <= q && |s.t.la| <= depth
            && (t.ptr <= limit ==> s.out + s.t.la == Indices(table, t.ptr, s.t.ptr))
            && (t.ptr > limit ==> s.out == s.t.la == [])
            && s.t.offset == (if !s.t.eop then t.offset else if Open(table, limit, t.ptr) then 0 else table[q - 1].off)
            && s.t.malformed == (t.malformed || (s.t.eop && Open(table, limit, t.ptr)))
            && (s.t.eop ==> s.t.ptr == q)
  {
    AlwaysFetching(t, table, tblLen, depth, fs);
    CloseIsEop(table, Limit(table, tblLen), t.ptr);
    var s := Serve(t, table, tblLen, depth, fs);
    if t.ptr > Limit(table, tblLen) && s.t.ptr <= |table| { assert Indices(table, t.ptr, s.t.ptr) == []; }
  }

  lemma HandedLength(s: Served, table: seq<Entry>, depth: nat, p: nat)
    requires Handed(s, table, depth, p)
    ensures |s.out| + |s.t.la| == if s.t.ptr <= |table| then s.t.ptr - p else 0
  {
    if s.t.ptr <= |table| { IndicesLength(table, p, s.t.ptr); }
    assert |s.out + s.t.la| == |s.out| + |s.t.la|;
  }

  lemma ReadyAt(t: Table, table: seq<Entry>, tblLen: nat, depth: nat, p: nat, out: nat, off: nat, mal: bool, n: nat)
    requires depth >= 2 && |t.la| <= depth && Fetching(t, table, Limit(table, tblLen), p, off, mal, n)
    requires out + |t.la| == if t.ptr <= |table| then t.ptr - p else 0
    ensures Ready(t, depth, |table|, tblLen) <==>
              t.la != [] && |t.la| == Min(depth, Close(table, Limit(table, tblLen), p) - p - out)
  {
    AtPointer(table, Limit(table, tblLen), p, t.ptr);
  }

  /** It is ready for a pass exactly when there is an entry in front and the lookahead is full or holds
      all of the pattern that has not been handed out. */
  lemma {:induction false} ReadyIff(t: Table, table: seq<Entry>, tblLen: nat, depth: nat, fs: seq<Feed>)
    requires Starts(t, depth)
    ensures var s, limit := Serve(t, table, tblLen, depth, fs), Limit(table, tblLen);
            Ready(s.t, depth, |table|, tblLen) <==>
              s.t.la != [] && |s.t.la| == Min(depth, Close(table, limit, t.ptr) - t.ptr - |s.out|)
  {
    var s := Serve(t, table, tblLen, depth, fs);
    AlwaysFetching(t, table, tblLen, depth, fs);
    HandedLength(s, table, depth, t.ptr);
    ReadyAt(s.t, table, tblLen, depth, t.ptr, |s.out|, t.offset, t.malformed, |fs|);
  }

  /** With the front entry taken on every edge the pattern is complete after one edge for each of its
      words and two more, unless the table is retired by the end of a pass. */
  lemma {:induction false} Completes(t: Table, table: seq<Entry>, tblLen: nat, depth: nat, fs: seq<Feed>)
    requires Starts(t, depth) && forall k :: 0 <= k < |fs| ==> fs[k].pop && !fs[k].done
    ensures var s, q := Serve(t, table, tblLen, depth, fs), Close(table, Limit(table, tblLen), t.ptr);
            && !s.t.exhausted && |s.t.la| <= 1
            && s.t.ptr == (if |fs| <= 1 then t.ptr else if t.ptr + |fs| - 1 <= q then t.ptr + |fs| - 1 else q)
            && (|fs| >= q - t.ptr + 2 ==> s.t.eop)
  {
    if fs != [] {
      var pre := fs[..|fs| - 1];
      Completes(t, table, tblLen, depth, pre);
      AlwaysFetching(t, table, tblLen, depth, pre);
      AtPointer(table, Limit(table, tblLen), t.ptr, Serve(t, table, tblLen, depth, pre).t.ptr);
    }
  }
}
