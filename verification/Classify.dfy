/** The classification of a trial's output (fpga/host/board_campaign.py). */
module Classify {

  const NEWLINE: nat := 0x0A

  datatype Class = DUE | Masked | SDC

  /** The golden output must reach the marker; otherwise the tool gives up. */
  datatype Verdict = Verdict(cls: Class) | GoldenTooShort

  datatype Marked = Marked(prefix: seq<nat>, found: bool)

  function Newlines(s: seq<nat>): nat {
    if s == [] then 0 else Newlines(s[..|s| - 1]) + if s[|s| - 1] == NEWLINE then 1 else 0
  }

  /** Where the n-th newline ends the output, if it is there: the shortest prefix with n of them. */
  ghost predicate EndsAt(s: seq<nat>, n: nat, p: nat) {
    1 <= p <= |s| && s[p - 1] == NEWLINE && Newlines(s[..p]) == n
  }

  lemma {:induction false} NewlinesConcat(a: seq<nat>, b: seq<nat>)
    ensures Newlines(a + b) == Newlines(a) + Newlines(b)
  {
    if b == [] {
      assert a + b == a;
    } else {
      assert (a + b)[..|a + b| - 1] == a + b[..|b| - 1];
      NewlinesConcat(a, b[..|b| - 1]);
    }
  }

  lemma EndIsUnique(s: seq<nat>, n: nat, p: nat, q: nat)
    requires EndsAt(s, n, p) && EndsAt(s, n, q)
    ensures p == q
  {
    if p < q { LaterHasMore(s, p, q); }
    if q < p { LaterHasMore(s, q, p); }
  }

  lemma LaterHasMore(s: seq<nat>, p: nat, q: nat)
    requires p < q <= |s| && s[q - 1] == NEWLINE
    ensures Newlines(s[..p]) < Newlines(s[..q])
  {
    assert s[..q] == s[..p] + s[p..q] && s[p..q][..q - p - 1] == s[p..q - 1];
    NewlinesConcat(s[..p], s[p..q]);
  }

  /** upto_marker */
  method UptoMarker(bs: seq<nat>, nEnd: nat) returns (m: Marked)
    ensures m.found <==> 1 <= nEnd <= Newlines(bs)
    ensures m.found ==> EndsAt(bs, nEnd, |m.prefix|) && m.prefix == bs[..|m.prefix|]
    ensures !m.found ==> m.prefix == bs
  {
    var k := 0;
    for i := 0 to |bs|
      invariant k == Newlines(bs[..i]) && (nEnd >= 1 ==> k < nEnd)
    {
      assert bs[..i + 1][..i] == bs[..i];
      if bs[i] == NEWLINE {
        k := k + 1;
        if k == nEnd {
          NewlinesConcat(bs[..i + 1], bs[i + 1..]);
          assert bs[..i + 1] + bs[i + 1..] == bs;
          return Marked(bs[..i + 1], true);
        }
      }
    }
    assert bs[..|bs|] == bs;
    return Marked(bs, false);
  }

  // ---- the specification ------------------------------------------------------------------------

  /** The output up to and including its n-th newline. */
  function Upto(s: seq<nat>, n: nat): seq<nat> {
    if n == 0 || s == [] then s
    else if Newlines(s[..|s| - 1]) >= n then Upto(s[..|s| - 1], n) else s
  }

  lemma {:induction false} UptoEnds(s: seq<nat>, n: nat)
    requires 1 <= n <= Newlines(s)
    ensures Upto(s, n) <= s && EndsAt(s, n, |Upto(s, n)|)
  {
    var init := s[..|s| - 1];
    if Newlines(init) >= n {
      UptoEnds(init, n);
      assert s[..|Upto(init, n)|] == init[..|Upto(init, n)|];
    } else {
      assert s[..|s|] == s;
    }
  }

  predicate Contains(s: seq<nat>, pat: seq<nat>) {
    |pat| <= |s| && (s[..|pat|] == pat || (s != [] && Contains(s[1..], pat)))
  }

  /** bytes.count: occurrences that do not overlap, from the left. */
  function Count(s: seq<nat>, pat: seq<nat>): nat
    requires pat != []
  {
    if |s| < |pat| then 0
    else if s[..|pat|] == pat then 1 + Count(s[|pat|..], pat) else Count(s[1..], pat)
  }

  /** The text stands at this place. */
  predicate StandsAt(s: seq<nat>, pat: seq<nat>, k: int) { 0 <= k <= |s| - |pat| && s[k..k + |pat|] == pat }

  lemma {:induction false} ContainsIff(s: seq<nat>, pat: seq<nat>)
    ensures Contains(s, pat) <==> exists k :: StandsAt(s, pat, k)
  {
    if s != [] {
      ContainsIff(s[1..], pat);
      forall k ensures k >= 1 ==> (StandsAt(s, pat, k) <==> StandsAt(s[1..], pat, k - 1)) { Shifts(s, pat, k, 1); }
      if Contains(s[1..], pat) {
        var k :| StandsAt(s[1..], pat, k);
        assert StandsAt(s, pat, k + 1);
      }
      if exists k :: StandsAt(s, pat, k) {
        var k :| StandsAt(s, pat, k);
        if k > 0 { assert StandsAt(s[1..], pat, k - 1); }
      }
    }
    if |pat| <= |s| && s[..|pat|] == pat { assert StandsAt(s, pat, 0); }
  }

  lemma Shifts(s: seq<nat>, pat: seq<nat>, k: int, d: nat)
    requires d <= |s|
    ensures k >= d ==> (StandsAt(s, pat, k) <==> StandsAt(s[d..], pat, k - d))
  {
    if d <= k <= |s| - |pat| { assert s[d..][k - d..k - d + |pat|] == s[k..k + |pat|]; }
  }

  /** Places at which the text stands without overlap, from left to right. */
  ghost predicate Places(s: seq<nat>, pat: seq<nat>, ps: seq<int>) {
    && (forall j :: 0 <= j < |ps| ==> StandsAt(s, pat, ps[j]))
    && (forall i, j :: 0 <= i < j < |ps| ==> ps[i] + |pat| <= ps[j])
  }

  function Moved(ps: seq<int>, d: int): seq<int> { seq(|ps|, j requires 0 <= j < |ps| => ps[j] + d) }

  lemma PlacesMove(s: seq<nat>, pat: seq<nat>, ps: seq<int>, d: int)
    requires 0 <= d <= |s| && forall j :: 0 <= j < |ps| ==> ps[j] >= d
    ensures Places(s, pat, ps) <==> Places(s[d..], pat, Moved(ps, -d))
  {
    forall j | 0 <= j < |ps| ensures StandsAt(s, pat, ps[j]) <==> StandsAt(s[d..], pat, Moved(ps, -d)[j]) {
      Shifts(s, pat, ps[j], d);
    }
    if Places(s[d..], pat, Moved(ps, -d)) {
      forall i, j | 0 <= i < j < |ps| ensures ps[i] + |pat| <= ps[j] {
        assert Moved(ps, -d)[i] + |pat| <= Moved(ps, -d)[j];
      }
    }
  }

  /** The count is reached: there are so many places, ... */
  lemma {:induction false} CountIsReached(s: seq<nat>, pat: seq<nat>) returns (ps: seq<int>)
    requires pat != []
    ensures Places(s, pat, ps) && |ps| == Count(s, pat)
    decreases |s|
  {
    if |s| < |pat| {
      ps := [];
    } else {
      var d: int := if s[..|pat|] == pat then |pat| else 1;
      var qs := CountIsReached(s[d..], pat);
      var ms := Moved(qs, d);
      assert Moved(ms, -d) == qs;
      PlacesMove(s, pat, ms, d);
      ps := if s[..|pat|] == pat then [0] + ms else ms;
      assert s[..|pat|] == pat ==> StandsAt(s, pat, 0);
    }
  }

  /** ... and there are never more. */
  lemma {:induction false} CountIsMost(s: seq<nat>, pat: seq<nat>, ps: seq<int>)
    requires pat != [] && Places(s, pat, ps)
    ensures |ps| <= Count(s, pat)
    decreases |s|
  {
    if ps != [] {
      assert StandsAt(s, pat, ps[0]);
      var here := s[..|pat|] == pat;
      var d: int := if here then |pat| else 1;
      var rest := if here then ps[1..] else ps;
      forall j | 0 <= j < |rest| ensures rest[j] >= d { assert !here && j > 0 ==> ps[0] + |pat| <= ps[j]; }
      PlacesMove(s, pat, rest, d);
      CountIsMost(s[d..], pat, Moved(rest, -d));
    }
  }

  function FirstLine(s: seq<nat>): seq<nat> {
    if s == [] then [] else if s[0] == NEWLINE then [s[0]] else [s[0]] + FirstLine(s[1..])
  }

  lemma {:induction false} FirstLineIs(s: seq<nat>, p: nat)
    requires p < |s| && s[p] == NEWLINE && forall k :: 0 <= k < p ==> s[k] != NEWLINE
    ensures FirstLine(s) == s[..p + 1]
    decreases p
  {
    if p > 0 { FirstLineIs(s[1..], p - 1); }
  }

  /** The program crashed or restarted, by its output. */
  predicate Broken(out: seq<nat>, golden: seq<nat>, crash: seq<seq<nat>>) {
    || (exists k :: 0 <= k < |crash| && Contains(out, crash[k]))
    || (golden != [] && FirstLine(golden) != [] && Count(out, FirstLine(golden)) > 1)
  }

  function Classified(data: seq<nat>, golden: seq<nat>, aborted: bool, n: nat, crash: seq<seq<nat>>): Verdict {
    if aborted then Verdict(DUE)
    else if !(1 <= n <= Newlines(golden)) then GoldenTooShort
    else if n > Newlines(data) then Verdict(DUE)
    else if Broken(Upto(data, n), Upto(golden, n), crash) then Verdict(DUE)
    else if Upto(data, n) == Upto(golden, n) then Verdict(Masked) else Verdict(SDC)
  }

  /** classify */
  method Classification(data: seq<nat>, golden: seq<nat>, aborted: bool, nEnd: nat, crash: seq<seq<nat>>)
    returns (v: Verdict)
    ensures v == Classified(data, golden, aborted, nEnd, crash)
  {
    if aborted { return Verdict(DUE); }
    var dm := UptoMarker(data, nEnd);
    var gm := UptoMarker(golden, nEnd);
    if !gm.found { return GoldenTooShort; }
    if !dm.found { return Verdict(DUE); }
    MarkerIsUpto(data, nEnd, dm);
    MarkerIsUpto(golden, nEnd, gm);
    var first := FirstLineOf(gm.prefix);
    var broken := Count(dm.prefix, first) > 1;
    for k := 0 to |crash|
      invariant broken <==> Count(dm.prefix, first) > 1 || exists j :: 0 <= j < k && Contains(dm.prefix, crash[j])
    {
      if Contains(dm.prefix, crash[k]) { broken := true; }
    }
    if broken { return Verdict(DUE); }
    return Verdict(if dm.prefix == gm.prefix then Masked else SDC);
  }

  lemma MarkerIsUpto(s: seq<nat>, n: nat, m: Marked)
    requires 1 <= n <= Newlines(s) && m.prefix <= s && EndsAt(s, n, |m.prefix|)
    ensures m.prefix == Upto(s, n) && NEWLINE in m.prefix
  {
    UptoEnds(s, n);
    EndIsUnique(s, n, |m.prefix|, |Upto(s, n)|);
    assert m.prefix[|m.prefix| - 1] == NEWLINE;
  }

  method FirstLineOf(s: seq<nat>) returns (first: seq<nat>)
    requires NEWLINE in s
    ensures first == FirstLine(s) && first != []
  {
    var i := 0;
    while s[i] != NEWLINE
      invariant 0 <= i < |s| && forall k :: 0 <= k < i ==> s[k] != NEWLINE
      decreases |s| - i
    {
      i := i + 1;
    }
    FirstLineIs(s, i);
    first := s[..i + 1];
  }

  // ---- what it depends on -------------------------------------------------------------------------

  lemma {:induction false} UptoIgnoresTail(s: seq<nat>, tail: seq<nat>, n: nat)
    requires 1 <= n <= Newlines(s)
    ensures n <= Newlines(s + tail) && Upto(s + tail, n) == Upto(s, n)
  {
    NewlinesConcat(s, tail);
    if tail == [] {
      assert s + tail == s;
    } else {
      assert (s + tail)[..|s + tail| - 1] == s + tail[..|tail| - 1];
      UptoIgnoresTail(s, tail[..|tail| - 1], n);
    }
  }

  /** Only the output up to the end marker counts: nothing that follows changes the class, in the
      trial's output or in the golden one. */
  lemma {:induction false} TailsDoNotMatter(
    data: seq<nat>, golden: seq<nat>, aborted: bool, n: nat, crash: seq<seq<nat>>, tail: seq<nat>, tail': seq<nat>)
    requires 1 <= n <= Newlines(data) && n <= Newlines(golden)
    ensures Classified(data + tail, golden + tail', aborted, n, crash) == Classified(data, golden, aborted, n, crash)
  {
    UptoIgnoresTail(data, tail, n);
    UptoIgnoresTail(golden, tail', n);
  }

  /** Crash text nowhere, and no two places for the first line. */
  ghost predicate Whole(out: seq<nat>, crash: seq<seq<nat>>) {
    && (forall k, p :: 0 <= k < |crash| ==> !StandsAt(out, crash[k], p))
    && (forall p, q :: StandsAt(out, FirstLine(out), p) && StandsAt(out, FirstLine(out), q) ==>
          q < p + |FirstLine(out)|)
  }

  lemma WholeIff(out: seq<nat>, crash: seq<seq<nat>>)
    requires FirstLine(out) != []
    ensures Whole(out, crash) <==> !Broken(out, out, crash)
  {
    var first := FirstLine(out);
    forall k | 0 <= k < |crash| ensures Contains(out, crash[k]) <==> exists p :: StandsAt(out, crash[k], p) {
      ContainsIff(out, crash[k]);
    }
    if Count(out, first) > 1 {
      var ps := CountIsReached(out, first);
      assert StandsAt(out, first, ps[0]) && StandsAt(out, first, ps[1]) && ps[0] + |first| <= ps[1];
    }
    if Count(out, first) <= 1 {
      forall p, q | StandsAt(out, first, p) && StandsAt(out, first, q) ensures q < p + |first| {
        if q >= p + |first| { CountIsMost(out, first, [p, q]); }
      }
    }
  }

  /** Masked exactly when the trial ended by itself, both outputs reach the marker and agree up to
      it, and that output holds no crash text and its own first line only once. */
  lemma {:induction false} MaskedIff(data: seq<nat>, golden: seq<nat>, aborted: bool, n: nat, crash: seq<seq<nat>>)
    ensures Classified(data, golden, aborted, n, crash) == Verdict(Masked) <==>
            && !aborted && 1 <= n <= Newlines(golden) && n <= Newlines(data)
            && Upto(data, n) == Upto(golden, n) && Whole(Upto(golden, n), crash)
  {
    if 1 <= n <= Newlines(golden) {
      UptoEnds(golden, n);
      WholeIff(Upto(golden, n), crash);
    }
  }

  /** So a golden output that repeats its first line before the marker classifies itself as DUE. */
  lemma RepeatedFirstLineIsDue(golden: seq<nat>, n: nat, crash: seq<seq<nat>>)
    requires 1 <= n <= Newlines(golden) && FirstLine(Upto(golden, n)) != []
    requires Count(Upto(golden, n), FirstLine(Upto(golden, n))) > 1
    ensures Classified(golden, golden, false, n, crash) == Verdict(DUE)
  {
  }
}
