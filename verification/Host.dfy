/** The host side of a campaign (host/inject_and_run_dmi.tcl, host/tapename.tcl) and the
    registers its writes land in (fi_dmi_regs_v6 of rtl/fi_transporter.v, rtl/fi_table.v). */
module Host {
  import opened Arith
  import TableCtrl

  const TBL_WORDS: nat := 256

  /** What the user asks for: a cycle and the flops to flip in it, in any order. */
  datatype Request = Request(cycle: int, flops: seq<int>)

  /** A request with its indices sorted in decreasing order, without duplicates. */
  datatype Norm = Norm(cycle: int, idx: seq<int>)

  datatype Fault = EmptyCampaign | BadTimeout | BadCycle | FlipsNothing | BadIndex
                 | TableFull | WideGap | PastTimeout

  datatype Write = Write(addr: nat, data: int)

  datatype Result = Ok(writes: seq<Write>) | Err(fault: Fault)

  // ---- lsort ------------------------------------------------------------------------

  ghost predicate Descending(s: seq<int>) { forall i, j :: 0 <= i < j < |s| ==> s[i] > s[j] }

  function InsertDesc(x: int, s: seq<int>): (r: seq<int>)
    requires Descending(s)
    ensures Descending(r)
    ensures forall v :: v in r <==> v == x || v in s
    ensures |r| <= |s| + 1
  {
    if s == [] || x > s[0] then [x] + s
    else if x == s[0] then s
    else
      var t := InsertDesc(x, s[1..]);
      assert s == [s[0]] + s[1..];
      assert forall v :: v in s[1..] ==> v < s[0];
      assert forall j :: 0 <= j < |t| ==> t[j] in t;
      [s[0]] + t
  }

  /** lsort -integer -decreasing -unique */
  function SortDesc(s: seq<int>): (r: seq<int>)
    ensures Descending(r)
    ensures forall v :: v in r <==> v in s
  {
    if s == [] then [] else
      assert s == [s[0]] + s[1..];
      InsertDesc(s[0], SortDesc(s[1..]))
  }

  /** Sorting again changes nothing: fi_campaign sorts the indices, and so does fi_pattern. */
  lemma {:induction false} SortDescTwice(s: seq<int>)
    requires Descending(s)
    ensures SortDesc(s) == s
  {
    if s != [] {
      SortDescTwice(s[1..]);
    }
  }

  ghost predicate ByCycle(s: seq<Norm>) { forall i, j :: 0 <= i < j < |s| ==> s[i].cycle <= s[j].cycle }

  function InsertTrial(t: Norm, s: seq<Norm>): (r: seq<Norm>)
    requires ByCycle(s)
    ensures ByCycle(r) && |r| == |s| + 1
    ensures forall v :: v in r <==> v == t || v in s
  {
    if s == [] || t.cycle <= s[0].cycle then [t] + s
    else
      var u := InsertTrial(t, s[1..]);
      assert s == [s[0]] + s[1..];
      assert forall v :: v in s[1..] ==> s[0].cycle <= v.cycle;
      assert forall j :: 0 <= j < |u| ==> u[j] in u;
      [s[0]] + u
  }

  /** lsort -integer -index 0: by cycle, equal cycles in the order given. */
  function SortTrials(s: seq<Norm>): (r: seq<Norm>)
    ensures ByCycle(r) && |r| == |s|
    ensures forall v :: v in r <==> v in s
  {
    if s == [] then [] else
      assert s == [s[0]] + s[1..];
      InsertTrial(s[0], SortTrials(s[1..]))
  }

  lemma {:induction false} InsertTrialPermutes(t: Norm, s: seq<Norm>)
    requires ByCycle(s)
    ensures multiset(InsertTrial(t, s)) == multiset{t} + multiset(s)
  {
    if s != [] && t.cycle > s[0].cycle {
      InsertTrialPermutes(t, s[1..]);
      assert s == [s[0]] + s[1..];
    }
  }

  /** Sorting loses and invents no trial. */
  lemma {:induction false} SortTrialsPermutes(s: seq<Norm>)
    ensures multiset(SortTrials(s)) == multiset(s)
  {
    if s != [] {
      SortTrialsPermutes(s[1..]);
      InsertTrialPermutes(s[0], SortTrials(s[1..]));
      assert s == [s[0]] + s[1..];
    }
  }

  function At(s: seq<Norm>, cycle: int): seq<Norm> {
    if s == [] then [] else (if s[0].cycle == cycle then [s[0]] else []) + At(s[1..], cycle)
  }

  lemma {:induction false} InsertTrialStable(t: Norm, s: seq<Norm>, cycle: int)
    requires ByCycle(s)
    ensures At(InsertTrial(t, s), cycle) == At([t] + s, cycle)
  {
    assert ([t] + s)[1..] == s;
    if s != [] && t.cycle > s[0].cycle {
      InsertTrialStable(t, s[1..], cycle);
      assert ([t] + s[1..])[1..] == s[1..];
    }
  }

  /** Trials at the same cycle keep the order the user gave them. */
  lemma {:induction false} SortTrialsStable(s: seq<Norm>, cycle: int)
    ensures At(SortTrials(s), cycle) == At(s, cycle)
  {
    if s != [] {
      SortTrialsStable(s[1..], cycle);
      InsertTrialStable(s[0], SortTrials(s[1..]), cycle);
      assert s == [s[0]] + s[1..];
      assert ([s[0]] + SortTrials(s[1..]))[1..] == SortTrials(s[1..]);
    }
  }

  // ---- what fi_campaign accepts, and the program it writes ------------------------------

  function Normal(t: Request): Norm { Norm(t.cycle, SortDesc(t.flops)) }

  function Normals(ts: seq<Request>): seq<Norm> {
    seq(|ts|, i requires 0 <= i < |ts| => Normal(ts[i]))
  }

  /** The trials in the order the hardware runs them. */
  function Schedule(ts: seq<Request>): seq<Norm> { SortTrials(Normals(ts)) }

  predicate TrialOk(n: Norm, w: nat) {
    n.cycle > 0 && n.idx != [] && forall k :: 0 <= k < |n.idx| ==> 0 <= n.idx[k] < Pow2(w)
  }

  /** Table entries of the first k trials. */
  function Entries(ns: seq<Norm>, k: nat): nat
    requires k <= |ns|
  {
    if k == 0 then 0 else Entries(ns, k - 1) + |ns[k - 1].idx|
  }

  function Gap(ns: seq<Norm>, k: nat): int
    requires k < |ns|
  {
    if k < |ns| - 1 then ns[k + 1].cycle - ns[k].cycle else 0
  }

  /** CFG_TO_THR: the user's, or long enough for the last trial. */
  function Timeout(ns: seq<Norm>, toThr: int): int
    requires ns != []
  {
    if toThr != 0 then toThr
    else if ns[|ns| - 1].cycle + 0x40000 > 0x80000 then ns[|ns| - 1].cycle + 0x40000
    else 0x80000
  }

  ghost predicate TrialsOk(ns: seq<Norm>, w: nat) { forall k :: 0 <= k < |ns| ==> TrialOk(ns[k], w) }

  ghost predicate GapsOk(ns: seq<Norm>, w: nat)
    requires w <= 31
  {
    forall k :: 0 <= k < |ns| - 1 ==> Gap(ns, k) < Pow2(31 - w)
  }

  ghost predicate Accepted(ts: seq<Request>, toThr: int, w: nat)
    requires w <= 31
  {
    && ts != [] && toThr >= 0 && TrialsOk(Normals(ts), w)
    && var ns := Schedule(ts);
       Entries(ns, |ns|) <= TBL_WORDS && GapsOk(ns, w) && ns[|ns| - 1].cycle < Timeout(ns, toThr)
  }

  /** fi_entry: the fields shifted into place. For fields inside their widths the source's
      bitwise OR is this sum (see OrIsSum). */
  function Word(w: nat, eop: bool, off: int, idx: int): int {
    (if eop then W31 else 0) + off * Pow2(w) + idx
  }

  /** fi_pattern: only the last entry carries EOP and the offset. */
  function PatternWords(w: nat, off: int, idx: seq<int>): seq<int> {
    seq(|idx|, k requires 0 <= k < |idx| =>
      if k == |idx| - 1 then Word(w, true, off, idx[k]) else Word(w, false, 0, idx[k]))
  }

  function TableWords(w: nat, ns: seq<Norm>, k: nat): (r: seq<int>)
    requires k <= |ns|
    ensures |r| == Entries(ns, k)
  {
    if k == 0 then []
    else TableWords(w, ns, k - 1) + PatternWords(w, Gap(ns, k - 1), ns[k - 1].idx)
  }

  function Loads(words: seq<int>): seq<Write> {
    seq(|words|, k requires 0 <= k < |words| => Write(0x72, words[k]))
  }

  const HEADER: seq<Write> := [Write(0x60, 1), Write(0x70, 1), Write(0x71, 0)]

  /** fi_config_and_arm: CFG_TO_THR comes last, it arms the loop. */
  function Arming(n: int, base: int, thr: int, scanLen: int): seq<Write> {
    [Write(0x62, 1), Write(0x63, scanLen), Write(0x64, 0), Write(0x68, n), Write(0x65, base), Write(0x66, thr)]
  }

  function Program(w: nat, ns: seq<Norm>, thr: int, scanLen: int): seq<Write>
    requires ns != []
  {
    HEADER + Loads(TableWords(w, ns, |ns|)) + Arming(Entries(ns, |ns|), ns[0].cycle, thr, scanLen)
  }

  /** The timeout is the user's if there is one. The default is the least one that is 0x80000 or more
      and leaves 0x40000 cycles or more behind every trial; so every trial fits it. */
  lemma {:induction false} DefaultTimeout(ns: seq<Norm>, toThr: int, t: int)
    requires ns != [] && ByCycle(ns)
    ensures toThr != 0 ==> Timeout(ns, toThr) == toThr
    ensures toThr == 0 ==>
              (t >= Timeout(ns, 0)
               <==> t >= 0x80000 && forall k :: 0 <= k < |ns| ==> t - ns[k].cycle >= 0x40000)
  {
    if toThr == 0 && t >= Timeout(ns, 0) {
      forall k | 0 <= k < |ns| ensures t - ns[k].cycle >= 0x40000 {
        assert k < |ns| - 1 ==> ns[k].cycle <= ns[|ns| - 1].cycle;
      }
    }
  }

  // ---- the procedures -----------------------------------------------------------------

  /** proc fi_pattern */
  method Pattern(w: nat, off: int, indexList: seq<int>) returns (out: seq<Write>, n: nat)
    ensures out == Loads(PatternWords(w, off, SortDesc(indexList)))
    ensures n == |SortDesc(indexList)|
  {
    var sorted := SortDesc(indexList);
    n := |sorted|;
    out := [];
    var k := 0;
    while k < n
      invariant 0 <= k <= n && out == Loads(PatternWords(w, off, sorted))[..k]
    {
      var p := sorted[k];
      k := k + 1;
      if k == n {
        out := out + [Write(0x72, Word(w, true, off, p))];
      } else {
        out := out + [Write(0x72, Word(w, false, 0, p))];
      }
    }
  }

  /** One trial's checks in proc fi_campaign. */
  method CheckTrial(n: Norm, w: nat) returns (fault: Fault, ok: bool)
    ensures ok <==> TrialOk(n, w)
    ensures !ok ==> Explains(fault, n, w)
  {
    fault, ok := BadCycle, false;
    if n.cycle <= 0 { return; }
    if n.idx == [] { return FlipsNothing, false; }
    for j := 0 to |n.idx|
      invariant forall k :: 0 <= k < j ==> 0 <= n.idx[k] < Pow2(w)
    {
      if n.idx[j] < 0 || n.idx[j] >= Pow2(w) {
        assert !(0 <= n.idx[j] < Pow2(w));
        return BadIndex, false;
      }
    }
    return BadCycle, true;
  }

  /** The validation loop of proc fi_campaign. */
  method Validate(ts: seq<Request>, w: nat) returns (norm: seq<Norm>, nentry: nat, fault: Fault, ok: bool)
    ensures ok <==> TrialsOk(Normals(ts), w)
    ensures ok ==> norm == Normals(ts) && nentry == Entries(norm, |norm|)
    ensures !ok ==> exists k :: 0 <= k < |ts| && Explains(fault, Normals(ts)[k], w)
  {
    norm, nentry, fault, ok := [], 0, BadCycle, true;
    for i := 0 to |ts|
      invariant norm == Normals(ts)[..i] && nentry == Entries(norm, i)
      invariant TrialsOk(norm, w) && ok
    {
      var n := Normal(ts[i]);
      assert Normals(ts)[i] == n;
      fault, ok := CheckTrial(n, w);
      if !ok {
        assert Explains(fault, Normals(ts)[i], w);
        return;
      }
      EntriesPrefix(norm + [n], norm, i);
      assert Normals(ts)[..i + 1] == norm + [n];
      nentry := nentry + |n.idx|;
      norm := norm + [n];
    }
  }

  lemma {:induction false} EntriesPrefix(a: seq<Norm>, b: seq<Norm>, k: nat)
    requires k <= |a| && k <= |b| && a[..k] == b[..k]
    ensures Entries(a, k) == Entries(b, k)
  {
    if k > 0 {
      assert a[..k - 1] == a[..k][..k - 1] && b[..k - 1] == b[..k][..k - 1];
      assert a[k - 1] == a[..k][k - 1] && b[k - 1] == b[..k][k - 1];
      EntriesPrefix(a, b, k - 1);
    }
  }

  /** The fault a bad trial is refused with. */
  ghost predicate Explains(f: Fault, n: Norm, w: nat) {
    match f
    case BadCycle => n.cycle <= 0
    case FlipsNothing => n.cycle > 0 && n.idx == []
    case BadIndex => n.cycle > 0 && exists k :: 0 <= k < |n.idx| && !(0 <= n.idx[k] < Pow2(w))
    case _ => false
  }

  /** The gap check of proc fi_campaign. */
  method CheckGaps(norm: seq<Norm>, w: nat) returns (ok: bool)
    requires w <= 31
    ensures ok <==> GapsOk(norm, w)
  {
    var k := 0;
    while k < |norm| - 1
      invariant 0 <= k && (k == 0 || k <= |norm| - 1)
      invariant forall j :: 0 <= j < k ==> Gap(norm, j) < Pow2(31 - w)
    {
      var gap := norm[k + 1].cycle - norm[k].cycle;
      assert gap == Gap(norm, k);
      if gap > Pow2(31 - w) - 1 { return false; }
      k := k + 1;
    }
    return true;
  }

  /** What a refused list is refused for, the checks coming in the procedure's order. */
  ghost predicate Blames(f: Fault, ts: seq<Request>, toThr: int, w: nat)
    requires w <= 31 && ts != []
  {
    match f
    case EmptyCampaign => false
    case BadTimeout => toThr < 0
    case BadCycle => toThr >= 0 && exists k :: 0 <= k < |ts| && Explains(f, Normals(ts)[k], w)
    case FlipsNothing => toThr >= 0 && exists k :: 0 <= k < |ts| && Explains(f, Normals(ts)[k], w)
    case BadIndex => toThr >= 0 && exists k :: 0 <= k < |ts| && Explains(f, Normals(ts)[k], w)
    case TableFull => toThr >= 0 && TrialsOk(Normals(ts), w) && Entries(Schedule(ts), |ts|) > TBL_WORDS
    case WideGap =>
      toThr >= 0 && TrialsOk(Normals(ts), w) && Entries(Schedule(ts), |ts|) <= TBL_WORDS && !GapsOk(Schedule(ts), w)
    case PastTimeout =>
      && toThr >= 0 && TrialsOk(Normals(ts), w) && Entries(Schedule(ts), |ts|) <= TBL_WORDS && GapsOk(Schedule(ts), w)
      && Schedule(ts)[|ts| - 1].cycle >= Timeout(Schedule(ts), toThr)
  }

  /** proc fi_campaign up to the loading: everything is checked before anything is written. */
  method Prepare(ts: seq<Request>, toThr: int, w: nat) returns (norm: seq<Norm>, thr: int, fault: Fault, ok: bool)
    requires w <= 31 && ts != []
    ensures ok <==> Accepted(ts, toThr, w)
    ensures ok ==> norm == Schedule(ts) && thr == Timeout(norm, toThr)
    ensures !ok ==> Blames(fault, ts, toThr, w)
  {
    norm, thr, ok := [], toThr, false;
    if toThr < 0 { return norm, thr, BadTimeout, false; }
    var nentry;
    norm, nentry, fault, ok := Validate(ts, w);
    if !ok { return; }
    EntriesOfSorted(norm);
    norm := SortTrials(norm);
    if nentry > TBL_WORDS { return norm, thr, TableFull, false; }
    ok := CheckGaps(norm, w);
    if !ok { return norm, thr, WideGap, false; }
    thr := PickTimeout(norm, toThr);
    if norm[|norm| - 1].cycle >= thr { return norm, thr, PastTimeout, false; }
  }

  method PickTimeout(norm: seq<Norm>, toThr: int) returns (thr: int)
    requires norm != []
    ensures thr == Timeout(norm, toThr)
  {
    thr := toThr;
    var last := norm[|norm| - 1].cycle;
    if thr == 0 {
      thr := 0x80000;
      if last + 0x40000 > thr { thr := last + 0x40000; }
    }
  }

  /** proc fi_campaign */
  method Campaign(ts: seq<Request>, toThr: int, w: nat, scanLen: int) returns (r: Result)
    requires w <= 31
    ensures r.Ok? <==> Accepted(ts, toThr, w)
    ensures r.Ok? ==> r.writes == Program(w, Schedule(ts), Timeout(Schedule(ts), toThr), scanLen)
    ensures r.Err? && ts != [] ==> Blames(r.fault, ts, toThr, w)
    ensures r == Err(EmptyCampaign) <==> ts == []
  {
    if |ts| == 0 { return Err(EmptyCampaign); }
    var norm, thr, fault, ok := Prepare(ts, toThr, w);
    if !ok { return Err(fault); }
    ScheduleDescends(ts);
    var out, n := Load(norm, w);
    var header := [Write(0x60, 1), Write(0x70, 1), Write(0x71, 0)];
    r := Ok(header + out + Arming(n, norm[0].cycle, thr, scanLen));
  }

  lemma ScheduleDescends(ts: seq<Request>)
    ensures forall j :: 0 <= j < |Schedule(ts)| ==> Descending(Schedule(ts)[j].idx)
  {
    forall j | 0 <= j < |Schedule(ts)| ensures Descending(Schedule(ts)[j].idx) {
      assert Schedule(ts)[j] in Schedule(ts);
      var k :| 0 <= k < |ts| && Normals(ts)[k] == Schedule(ts)[j];
      assert Normals(ts)[k] == Normal(ts[k]);
    }
  }

  /** The loading loop of proc fi_campaign. */
  method Load(norm: seq<Norm>, w: nat) returns (out: seq<Write>, n: nat)
    requires forall j :: 0 <= j < |norm| ==> Descending(norm[j].idx)
    ensures out == Loads(TableWords(w, norm, |norm|)) && n == Entries(norm, |norm|)
  {
    out, n := [], 0;
    for k := 0 to |norm|
      invariant out == Loads(TableWords(w, norm, k)) && n == Entries(norm, k)
    {
      var off := if k < |norm| - 1 then norm[k + 1].cycle - norm[k].cycle else 0;
      SortDescTwice(norm[k].idx);
      var ws, m := Pattern(w, off, norm[k].idx);
      out, n := out + ws, n + m;
    }
  }

  /** Sorting the trials does not change how many entries they need. */
  lemma EntriesOfSorted(ns: seq<Norm>)
    ensures Entries(SortTrials(ns), |ns|) == Entries(ns, |ns|)
    ensures forall j :: 0 <= j < |ns| ==> SortTrials(ns)[j] in ns
  {
    EntriesTail(ns);
    TotalOfSorted(ns);
    EntriesTail(SortTrials(ns));
  }

  function Total(ns: seq<Norm>): nat { if ns == [] then 0 else |ns[0].idx| + Total(ns[1..]) }

  lemma {:induction false} TotalSnoc(ns: seq<Norm>, n: Norm)
    ensures Total(ns + [n]) == Total(ns) + |n.idx|
  {
    if ns != [] {
      assert (ns + [n])[1..] == ns[1..] + [n];
      TotalSnoc(ns[1..], n);
    }
  }

  lemma {:induction false} EntriesTail(ns: seq<Norm>)
    ensures Entries(ns, |ns|) == Total(ns)
  {
    if ns != [] {
      var m := ns[..|ns| - 1];
      assert ns == m + [ns[|ns| - 1]];
      EntriesTail(m);
      EntriesPrefix(ns, m, |m|);
      TotalSnoc(m, ns[|ns| - 1]);
    }
  }

  lemma {:induction false} TotalOfInsert(t: Norm, s: seq<Norm>)
    requires ByCycle(s)
    ensures Total(InsertTrial(t, s)) == |t.idx| + Total(s)
  {
    if s == [] || t.cycle <= s[0].cycle {
      assert ([t] + s)[1..] == s;
    } else {
      TotalOfInsert(t, s[1..]);
      assert ([s[0]] + InsertTrial(t, s[1..]))[1..] == InsertTrial(t, s[1..]);
    }
  }

  lemma {:induction false} TotalOfSorted(s: seq<Norm>)
    ensures Total(SortTrials(s)) == Total(s)
  {
    if s != [] {
      TotalOfSorted(s[1..]);
      TotalOfInsert(s[0], SortTrials(s[1..]));
    }
  }

  // ---- what is accepted, in the user's terms ----------------------------------------------------

  function Flops(s: seq<int>): set<int> { set v | v in s }

  /** The table entries a list needs: a trial's flops count once each. */
  function Distinct(ts: seq<Request>): nat {
    if ts == [] then 0 else Distinct(ts[..|ts| - 1]) + |Flops(ts[|ts| - 1].flops)|
  }

  ghost predicate InWidth(flops: seq<int>, w: nat) { forall k :: 0 <= k < |flops| ==> 0 <= flops[k] < Pow2(w) }

  /** Trial j comes next behind this cycle, as far as the offset field reaches. */
  predicate Near(ts: seq<Request>, j: int, cycle: int, w: nat)
    requires w <= 31 && 0 <= j < |ts|
  {
    cycle < ts[j].cycle < cycle + Pow2(31 - w)
  }

  ghost predicate HasNext(ts: seq<Request>, cycle: int, w: nat)
    requires w <= 31
  {
    exists j :: 0 <= j < |ts| && Near(ts, j, cycle, w)
  }

  ghost predicate AllNear(ts: seq<Request>, w: nat)
    requires w <= 31
  {
    forall i, j :: 0 <= i < |ts| && 0 <= j < |ts| && ts[i].cycle < ts[j].cycle ==> HasNext(ts, ts[i].cycle, w)
  }

  ghost predicate AllSensible(ts: seq<Request>, w: nat) {
    forall i :: 0 <= i < |ts| ==> ts[i].cycle > 0 && ts[i].flops != [] && InWidth(ts[i].flops, w)
  }

  /** Every trial flips something inside the index width, at a cycle after 0; the entries fit the table;
      behind every trial but those at the last cycle the next cycle is near enough for the offset field;
      and the user's timeout, if there is one, is above all cycles. */
  ghost predicate Sensible(ts: seq<Request>, toThr: int, w: nat)
    requires w <= 31
  {
    && ts != [] && toThr >= 0 && Distinct(ts) <= 256 && AllSensible(ts, w) && AllNear(ts, w)
    && (toThr != 0 ==> forall i :: 0 <= i < |ts| ==> ts[i].cycle < toThr)
  }

  lemma {:induction false} DescendingCounts(s: seq<int>)
    requires Descending(s)
    ensures |s| == |Flops(s)|
  {
    if s != [] {
      var rest := s[1..];
      DescendingCounts(rest);
      assert s == [s[0]] + rest;
      assert Flops(s) == {s[0]} + Flops(rest);
      assert forall k :: 0 <= k < |rest| ==> rest[k] < s[0];
    }
  }

  lemma SortedCounts(s: seq<int>)
    ensures |SortDesc(s)| == |Flops(s)|
  {
    DescendingCounts(SortDesc(s));
    assert Flops(SortDesc(s)) == Flops(s);
  }

  lemma {:induction false} EntriesAreDistinct(ts: seq<Request>)
    ensures Entries(Normals(ts), |ts|) == Distinct(ts)
  {
    if ts != [] {
      var pre, last := ts[..|ts| - 1], ts[|ts| - 1];
      EntriesAreDistinct(pre);
      assert Normals(ts)[..|pre|] == Normals(pre)[..|pre|];
      EntriesPrefix(Normals(ts), Normals(pre), |pre|);
      SortedCounts(last.flops);
    }
  }

  lemma TrialsAreSensible(ts: seq<Request>, w: nat)
    ensures TrialsOk(Normals(ts), w) <==> AllSensible(ts, w)
  {
    forall i | 0 <= i < |ts|
      ensures TrialOk(Normals(ts)[i], w) <==> ts[i].cycle > 0 && ts[i].flops != [] && InWidth(ts[i].flops, w)
    {
      OneIsSensible(ts[i], w);
    }
  }

  lemma OneIsSensible(t: Request, w: nat)
    ensures TrialOk(Normal(t), w) <==> t.cycle > 0 && t.flops != [] && InWidth(t.flops, w)
  {
    var s := SortDesc(t.flops);
    if t.flops != [] { assert t.flops[0] in s; }
    if s != [] { assert s[0] in t.flops; }
    forall k | 0 <= k < |t.flops| ensures t.flops[k] in s {}
    forall k | 0 <= k < |s| ensures s[k] in t.flops {}
  }

  /** The schedule has the list's cycles. */
  lemma InSchedule(ts: seq<Request>, i: nat) returns (k: nat)
    requires i < |ts|
    ensures k < |Schedule(ts)| == |ts| && Schedule(ts)[k].cycle == ts[i].cycle
  {
    assert Normals(ts)[i] in Schedule(ts);
    k :| 0 <= k < |Schedule(ts)| && Schedule(ts)[k] == Normals(ts)[i];
  }

  lemma FromList(ts: seq<Request>, k: nat) returns (i: nat)
    requires k < |ts|
    ensures |Schedule(ts)| == |ts| && i < |ts| && ts[i].cycle == Schedule(ts)[k].cycle
  {
    assert Schedule(ts)[k] in Normals(ts);
    i :| 0 <= i < |ts| && Normals(ts)[i] == Schedule(ts)[k];
  }

  /** The next greater cycle of a sorted list. */
  lemma NextGreater(ns: seq<Norm>, i: nat, j: nat) returns (k: nat)
    requires ByCycle(ns) && i < |ns| && j < |ns| && ns[i].cycle < ns[j].cycle
    ensures k < |ns| - 1 && ns[k].cycle == ns[i].cycle < ns[k + 1].cycle
  {
    k := i;
    while ns[k + 1].cycle <= ns[i].cycle
      invariant i <= k < j && ns[k].cycle == ns[i].cycle
      decreases j - k
    {
      k := k + 1;
    }
  }

  lemma NearIfGapsOk(ts: seq<Request>, w: nat, i: nat, j: nat)
    requires w <= 31 && GapsOk(Schedule(ts), w) && i < |ts| && j < |ts| && ts[i].cycle < ts[j].cycle
    ensures HasNext(ts, ts[i].cycle, w)
  {
    var ns := Schedule(ts);
    var a := InSchedule(ts, i);
    var b := InSchedule(ts, j);
    var k := NextGreater(ns, a, b);
    assert Gap(ns, k) < Pow2(31 - w);
    var m := FromList(ts, k + 1);
    assert Near(ts, m, ts[i].cycle, w);
  }

  lemma GapIfNear(ts: seq<Request>, w: nat, k: nat)
    requires w <= 31 && k < |Schedule(ts)| - 1 && AllNear(ts, w)
    ensures Gap(Schedule(ts), k) < Pow2(31 - w)
  {
    var ns := Schedule(ts);
    var i := FromList(ts, k);
    var j := FromList(ts, k + 1);
    if ts[i].cycle < ts[j].cycle {
      assert HasNext(ts, ts[i].cycle, w);
      var m :| 0 <= m < |ts| && Near(ts, m, ts[i].cycle, w);
      var n := InSchedule(ts, m);
      assert n > k + 1 ==> ns[k + 1].cycle <= ns[n].cycle;
    }
  }

  lemma GapsAreSensible(ts: seq<Request>, w: nat)
    requires w <= 31
    ensures GapsOk(Schedule(ts), w) <==> AllNear(ts, w)
  {
    if GapsOk(Schedule(ts), w) {
      forall i, j | 0 <= i < |ts| && 0 <= j < |ts| && ts[i].cycle < ts[j].cycle ensures HasNext(ts, ts[i].cycle, w) {
        NearIfGapsOk(ts, w, i, j);
      }
    }
    if AllNear(ts, w) {
      forall k | 0 <= k < |Schedule(ts)| - 1 ensures Gap(Schedule(ts), k) < Pow2(31 - w) { GapIfNear(ts, w, k); }
    }
  }

  lemma LastIsBelow(ts: seq<Request>, toThr: int)
    requires ts != []
    ensures |Schedule(ts)| == |ts|
    ensures Schedule(ts)[|ts| - 1].cycle < Timeout(Schedule(ts), toThr) <==>
              (toThr != 0 ==> forall i :: 0 <= i < |ts| ==> ts[i].cycle < toThr)
  {
    var ns := Schedule(ts);
    var last := FromList(ts, |ts| - 1);
    DefaultTimeout(ns, toThr, Timeout(ns, toThr));
    if toThr != 0 && ns[|ts| - 1].cycle < toThr {
      forall i | 0 <= i < |ts| ensures ts[i].cycle < toThr {
        var k := InSchedule(ts, i);
        assert k < |ts| - 1 ==> ns[k].cycle <= ns[|ts| - 1].cycle;
      }
    }
  }

  /** fi_campaign accepts exactly the sensible lists. */
  lemma {:induction false} AcceptedIff(ts: seq<Request>, toThr: int, w: nat)
    requires w <= 31
    ensures Accepted(ts, toThr, w) <==> Sensible(ts, toThr, w)
  {
    if ts != [] {
      TrialsAreSensible(ts, w);
      GapsAreSensible(ts, w);
      LastIsBelow(ts, toThr);
      EntriesOfSorted(Normals(ts));
      EntriesAreDistinct(ts);
    }
  }

  // ---- the registers and the table ------------------------------------------------------

  /** `fiMode` is the wrapper's mode: transparent, or cut over to the FI registers. */
  datatype Regs = Regs(
    fiMode: bool, auto: bool, end: bool, len: nat, fiIndex: nat, fiCycle: nat, toThr: nat, tblLen: nat,
    autoInc: bool, ptr: nat, mem: seq<nat>)

  /** One DMI write of 32 data bits. In transparent mode nothing but the write that switches the mode
      is listened to; reads and the start pulse do not matter here. */
  function Apply(r: Regs, x: Write): Regs {
    if x.addr == 0x60 then r.(fiMode := x.data % 2 == 1) else if r.fiMode then Take(r, x) else r
  }

  /** A write that arrives at the FI registers. */
  function Take(r: Regs, x: Write): Regs {
    var d: nat := x.data % W32;
    match x.addr
    case 0x62 => r.(auto := d % 2 == 1, end := d / 2 % 2 == 1)
    case 0x63 => r.(len := d)
    case 0x64 => r.(fiIndex := d)
    case 0x65 => r.(fiCycle := d)
    case 0x66 => r.(toThr := d)
    case 0x68 => r.(tblLen := d)
    case 0x70 => r.(autoInc := d % 2 == 1)
    case 0x71 => r.(ptr := d % TBL_WORDS)
    case 0x72 =>
      r.(mem := if r.ptr < |r.mem| then r.mem[r.ptr := d] else r.mem,
         ptr := if !r.autoInc then r.ptr else if r.ptr + 1 == TBL_WORDS then 0 else r.ptr + 1)
    case _ => r
  }

  /** What a read of a register answers. */
  function Read(r: Regs, addr: nat): nat {
    match addr
    case 0x60 => if r.fiMode then 1 else 0
    case 0x62 => (if r.auto then 1 else 0) + if r.end then 2 else 0
    case 0x63 => r.len
    case 0x64 => r.fiIndex
    case 0x65 => r.fiCycle
    case 0x66 => r.toThr
    case 0x68 => r.tblLen
    case 0x70 => if r.autoInc then 1 else 0
    case 0x71 => r.ptr
    case _ => 0
  }

  predicate Register(addr: nat) {
    addr == 0x60 || 0x62 <= addr <= 0x66 || addr == 0x68 || addr == 0x70 || addr == 0x71
  }

  /** The bits a register keeps. */
  function Width(addr: nat): nat {
    if addr == 0x60 || addr == 0x70 then 2 else if addr == 0x62 then 4 else if addr == 0x71 then 256 else W32
  }

  /** In FI mode every register reads back what was written, in its width; no write touches another
      register or the table. */
  lemma ReadsBack(r: Regs, a: nat, d: int, b: nat)
    requires r.fiMode && Register(a) && Register(b) && 0 <= d < W32
    ensures var n := Apply(r, Write(a, d));
            n.mem == r.mem && Read(n, b) == if a == b then d % Width(a) else Read(r, b)
  {
    if a == 0x62 { CfgBits(d); }
  }

  /** The two bits of CFG0. */
  lemma CfgBits(d: nat)
    ensures d % 4 == (if d % 2 == 1 then 1 else 0) + if d / 2 % 2 == 1 then 2 else 0
  {
  }

  /** Without auto-increment the table's write port stays on its word: the last write counts. */
  lemma StaysOnTheWord(r: Regs, d: int, d': int)
    requires r.fiMode && !r.autoInc
    ensures Apply(Apply(r, Write(0x72, d)), Write(0x72, d')) == Apply(r, Write(0x72, d'))
    ensures Apply(r, Write(0x72, d)).ptr == r.ptr
  {
    if r.ptr < |r.mem| { assert r.mem[r.ptr := d % W32][r.ptr := d' % W32] == r.mem[r.ptr := d' % W32]; }
  }

  function ApplyAll(r: Regs, xs: seq<Write>): Regs {
    if xs == [] then r else Apply(ApplyAll(r, xs[..|xs| - 1]), xs[|xs| - 1])
  }

  lemma {:induction false} ApplyConcat(r: Regs, a: seq<Write>, b: seq<Write>)
    ensures ApplyAll(r, a + b) == ApplyAll(ApplyAll(r, a), b)
  {
    if b == [] {
      assert a + b == a;
    } else {
      assert (a + b)[..|a + b| - 1] == a + b[..|b| - 1];
      ApplyConcat(r, a, b[..|b| - 1]);
    }
  }

  ghost predicate FitsWord(words: seq<int>) { forall k :: 0 <= k < |words| ==> 0 <= words[k] < W32 }

  /** The table after the first words have been written. */
  ghost predicate Filled(r: Regs, n: Regs, words: seq<int>) {
    && |words| <= TBL_WORDS == |n.mem| == |r.mem|
    && n == r.(mem := n.mem, ptr := if |words| == TBL_WORDS then 0 else |words|)
    && n.mem[..|words|] == words && n.mem[|words|..] == r.mem[|words|..]
  }

  lemma FillsOn(r: Regs, n: Regs, words: seq<int>, d: int)
    requires r.fiMode && r.autoInc && Filled(r, n, words) && |words| < TBL_WORDS && 0 <= d < W32
    ensures Filled(r, Apply(n, Write(0x72, d)), words + [d])
  {
  }

  lemma {:induction false} LoadsFill(r: Regs, words: seq<int>)
    requires r.fiMode && r.autoInc && r.ptr == 0 && |r.mem| == TBL_WORDS && |words| <= TBL_WORDS && FitsWord(words)
    ensures Filled(r, ApplyAll(r, Loads(words)), words)
  {
    if words != [] {
      var m := words[..|words| - 1];
      assert Loads(words)[..|words| - 1] == Loads(m);
      LoadsFill(r, m);
      FillsOn(r, ApplyAll(r, Loads(m)), m, words[|m|]);
      assert m + [words[|m|]] == words;
    }
  }

  lemma ApplyThree(r: Regs, a: Write, b: Write, d: Write)
    ensures ApplyAll(r, [a, b, d]) == Apply(Apply(Apply(r, a), b), d)
  {
    var s := [a, b, d];
    ApplySnoc(r, s, 0);
    ApplySnoc(r, s, 1);
    ApplySnoc(r, s, 2);
    assert s[..3] == s;
  }

  lemma FirstHalf(r: Regs, scanLen: int)
    requires r.fiMode && 0 <= scanLen < W32
    ensures ApplyAll(r, [Write(0x62, 1), Write(0x63, scanLen), Write(0x64, 0)]) ==
            r.(auto := true, end := false, len := scanLen, fiIndex := 0)
  {
    ApplyThree(r, Write(0x62, 1), Write(0x63, scanLen), Write(0x64, 0));
  }

  lemma SecondHalf(r: Regs, n: nat, base: int, thr: int)
    requires r.fiMode && 0 <= base < W32 && 0 <= thr < W32 && n < W32
    ensures ApplyAll(r, [Write(0x68, n), Write(0x65, base), Write(0x66, thr)]) ==
            r.(tblLen := n, fiCycle := base, toThr := thr)
  {
    ApplyThree(r, Write(0x68, n), Write(0x65, base), Write(0x66, thr));
  }

  lemma ArmingConfigures(r: Regs, n: nat, base: int, thr: int, scanLen: int)
    requires r.fiMode && 0 <= base < W32 && 0 <= thr < W32 && 0 <= scanLen < W32 && n < W32
    ensures ApplyAll(r, Arming(n, base, thr, scanLen)) ==
            r.(auto := true, end := false, len := scanLen, fiIndex := 0, tblLen := n, fiCycle := base, toThr := thr)
  {
    var a := [Write(0x62, 1), Write(0x63, scanLen), Write(0x64, 0)];
    var b := [Write(0x68, n), Write(0x65, base), Write(0x66, thr)];
    assert Arming(n, base, thr, scanLen) == a + b;
    ApplyConcat(r, a, b);
    FirstHalf(r, scanLen);
    SecondHalf(r.(auto := true, end := false, len := scanLen, fiIndex := 0), n, base, thr);
  }

  lemma ApplySnoc(r: Regs, a: seq<Write>, k: nat)
    requires k < |a|
    ensures ApplyAll(r, a[..k + 1]) == Apply(ApplyAll(r, a[..k]), a[k])
  {
    assert a[..k + 1][..k] == a[..k];
  }

  /** Whatever the mode was and the registers held: after the program the wrapper is in FI mode, the
      registers hold the campaign and the table its words. */
  lemma {:induction false} ProgramLoads(r: Regs, w: nat, ns: seq<Norm>, thr: int, scanLen: int)
    requires ns != [] && |r.mem| == TBL_WORDS && Entries(ns, |ns|) <= TBL_WORDS
    requires 0 <= ns[0].cycle < W32 && 0 <= thr < W32 && 0 <= scanLen < W32
    requires FitsWord(TableWords(w, ns, |ns|))
    ensures var n := ApplyAll(r, Program(w, ns, thr, scanLen));
            && n.fiMode && n.auto && !n.end && n.len == scanLen && n.fiIndex == 0
            && n.tblLen == Entries(ns, |ns|) && n.fiCycle == ns[0].cycle && n.toThr == thr
            && |n.mem| == TBL_WORDS && n.mem[..n.tblLen] == TableWords(w, ns, |ns|)
  {
    var ws := TableWords(w, ns, |ns|);
    var tail := Arming(Entries(ns, |ns|), ns[0].cycle, thr, scanLen);
    ApplyConcat(r, HEADER + Loads(ws), tail);
    ApplyConcat(r, HEADER, Loads(ws));
    var h := ApplyAll(r, HEADER);
    assert h.fiMode && h.autoInc && h.ptr == 0 && h.mem == r.mem by {
      ApplyThree(r, HEADER[0], HEADER[1], HEADER[2]);
      assert HEADER == [HEADER[0], HEADER[1], HEADER[2]];
    }
    LoadsFill(h, ws);
    ArmingConfigures(ApplyAll(h, Loads(ws)), Entries(ns, |ns|), ns[0].cycle, thr, scanLen);
  }

  // ---- the entry format ------------------------------------------------------------------

  /** The fields the Table Controller slices out of a word. */
  function Decode(w: nat, x: nat): TableCtrl.Entry {
    TableCtrl.Entry(x / W31 % 2 == 1, x % W31 / Pow2(w), x % Pow2(w))
  }

  lemma LowFits(w: nat, off: nat, idx: nat)
    requires w <= 31 && off < Pow2(31 - w) && idx < Pow2(w)
    ensures off * Pow2(w) + idx < W31
  {
    Pow31();
    PowSum(31 - w, w);
    MulLeq(off + 1, Pow2(31 - w), Pow2(w));
    assert (off + 1) * Pow2(w) == off * Pow2(w) + Pow2(w);
  }

  lemma EopIsMultiple(w: nat, off: nat)
    requires w <= 31
    ensures W31 + off * Pow2(w) == (Pow2(31 - w) + off) * Pow2(w)
  {
    Pow31();
    PowSum(31 - w, w);
    assert (Pow2(31 - w) + off) * Pow2(w) == Pow2(31 - w) * Pow2(w) + off * Pow2(w);
  }

  /** The word is its low 31 bits and the EOP bit. */
  lemma WordSplits(w: nat, eop: bool, off: nat, idx: nat)
    requires w <= 31 && off < Pow2(31 - w) && idx < Pow2(w)
    ensures 0 <= off * Pow2(w) + idx < W31
    ensures Word(w, eop, off, idx) == off * Pow2(w) + idx + (if eop then W31 else 0)
  {
    LowFits(w, off, idx);
  }

  /** Every field inside its width comes back as it was written. */
  lemma EntryRoundTrip(w: nat, eop: bool, off: nat, idx: nat)
    requires w <= 31 && off < Pow2(31 - w) && idx < Pow2(w)
    ensures 0 <= Word(w, eop, off, idx) < W32
    ensures Decode(w, Word(w, eop, off, idx)) == TableCtrl.Entry(eop, off, idx)
  {
    WordSplits(w, eop, off, idx);
    EopIsMultiple(w, off);
    DecodesSlices(w, Word(w, eop, off, idx), eop, off * Pow2(w) + idx, Pow2(w), off, idx, Pow2(31 - w));
  }

  lemma DecodesSlices(w: nat, x: nat, eop: bool, low: nat, p: nat, off: nat, idx: nat, q: nat)
    requires p == Pow2(w) && idx < p && low == off * p + idx < W31 && x == low + (if eop then W31 else 0)
    requires W31 + off * p == (q + off) * p
    ensures Decode(w, x) == TableCtrl.Entry(eop, off, idx)
  {
    Slices(x, eop, low, p, off, idx, q);
  }

  lemma Slices(x: nat, eop: bool, low: nat, p: nat, off: nat, idx: nat, q: nat)
    requires p >= 1 && idx < p && low == off * p + idx < W31 && x == low + (if eop then W31 else 0)
    requires W31 + off * p == (q + off) * p
    ensures x / W31 % 2 == (if eop then 1 else 0) && x % W31 / p == off && x % p == idx
  {
    assert x % W31 == low;
    DivUnique(low, p, off, idx);
    if eop {
      assert p * (q + off) == (q + off) * p;
      DivUnique(x, p, q + off, idx);
    }
  }

  /** The source builds the word with shifts and ORs: on fields inside their widths that is
      the sum of the shifted fields. */
  lemma OrIsSum(w: bv32, eop: bv32, off: bv32, idx: bv32)
    requires 1 <= w <= 30 && eop <= 1 && off < (1 as bv32) << (31 - w) && idx < (1 as bv32) << w
    ensures (eop << 31) | (off << w) | idx == (eop << 31) + (off << w) + idx
  {
    OrLow(w, off, idx);
    OrTop(eop, (off << w) + idx);
  }

  lemma OrLow(w: bv32, off: bv32, idx: bv32)
    requires 1 <= w <= 30 && off < (1 as bv32) << (31 - w) && idx < (1 as bv32) << w
    ensures (off << w) | idx == (off << w) + idx < 0x8000_0000
  {
  }

  lemma OrTop(eop: bv32, low: bv32)
    requires eop <= 1 && low < 0x8000_0000
    ensures (eop << 31) | low == (eop << 31) + low
  {
  }
}
