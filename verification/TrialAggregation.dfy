/** Repeat TCP trials reduced to one direction's evidence, and why that is a majority vote. */
module TrialAggregation {
  import opened Wrappers
  import opened Samples
  import opened Evidence
  import opened Rules

  // One trial; `direction` is 0, 1, or -1 for a label that is neither. A retransmission rate
  // exists only when the trial reported retransmissions and bytes.
  datatype Trial = Trial(direction: int, incomplete: bool, receiverBps: real, senderBps: real, cov: real,
                         collapses: nat, hostCPU: real, remoteCPU: real, retrans: Option<real>)

  datatype Gathered = Gathered(bitrates: seq<real>, covs: seq<real>, retrans: seq<real>, collapses: nat,
                               maxCPU: real, senderMaxCPU: real, observed: nat, incomplete: bool)

  const NONE_YET: Gathered := Gathered([], [], [], 0, 0.0, 0.0, 0, false)

  function Bps(tr: Trial): real { if tr.receiverBps <= 0.0 then tr.senderBps else tr.receiverBps }

  function MaxNat(a: nat, b: nat): nat { if a >= b then a else b }

  function Add(g: Gathered, tr: Trial): Gathered {
    if tr.incomplete then g.(observed := g.observed + 1, incomplete := true)
    else Gathered(g.bitrates + [Bps(tr)], g.covs + [tr.cov],
                  g.retrans + (match tr.retrans case Some(rate) => [rate] case None => []),
                  MaxNat(g.collapses, tr.collapses), MaxReal(MaxReal(g.maxCPU, tr.hostCPU), tr.remoteCPU),
                  MaxReal(g.senderMaxCPU, tr.hostCPU), g.observed + 1, g.incomplete)
  }

  function Gather(trials: seq<Trial>, direction: int): Gathered {
    if trials == [] then NONE_YET
    else
      var before := Gather(trials[..|trials| - 1], direction);
      if trials[|trials| - 1].direction == direction then Add(before, trials[|trials| - 1]) else before
  }

  // A measured rate as a whole number of bits per second.
  function Truncate(x: real): nat { if x <= 0.0 then 0 else x.Floor }

  function Deviations(bitrates: seq<real>, negotiated: nat, t: Thresholds): nat {
    if bitrates == [] then 0
    else Deviations(bitrates[..|bitrates| - 1], negotiated, t)
         + (if Shortfall(Truncate(bitrates[|bitrates| - 1]), negotiated, t) then 1 else 0)
  }

  const UNAVAILABLE: Tcp := Tcp(false, 0, 0, 0, 0.0, 0.0, 0.0, 0, 0.0, 0.0)

  // Nothing is available when a trial is missing or incomplete.
  function Reduce(g: Gathered, expected: int, negotiated: nat, t: Thresholds): Tcp {
    if g.incomplete || (expected > 0 && g.observed < expected) || g.bitrates == [] then UNAVAILABLE
    else Tcp(true, |g.bitrates|, Deviations(g.bitrates, negotiated, t), Truncate(LowerMedian(g.bitrates)),
             LowerMedian(g.retrans), WorstOf(g.retrans), LowerMedian(g.covs), g.collapses, g.maxCPU, g.senderMaxCPU)
  }

  // --- The aggregation as it is written ---

  method CountDeviations(bitrates: seq<real>, negotiated: nat, t: Thresholds) returns (n: nat)
    ensures n == Deviations(bitrates, negotiated, t)
  {
    n := 0;
    for i := 0 to |bitrates|
      invariant n == Deviations(bitrates[..i], negotiated, t)
    {
      assert bitrates[..i + 1][..i] == bitrates[..i];
      if Shortfall(Truncate(bitrates[i]), negotiated, t) {
        n := n + 1;
      }
    }
    assert bitrates[..|bitrates|] == bitrates;
  }

  method AddTrial(g: Gathered, tr: Trial) returns (r: Gathered)
    ensures r == Add(g, tr)
  {
    r := g.(observed := g.observed + 1);
    if tr.incomplete {
      r := r.(incomplete := true);
      return;
    }
    var bps := tr.receiverBps;
    if bps <= 0.0 {
      bps := tr.senderBps;
    }
    r := r.(bitrates := r.bitrates + [bps], covs := r.covs + [tr.cov], collapses := MaxNat(r.collapses, tr.collapses),
            maxCPU := MaxReal(MaxReal(r.maxCPU, tr.hostCPU), tr.remoteCPU), senderMaxCPU := MaxReal(r.senderMaxCPU, tr.hostCPU));
    if tr.retrans.Some? {
      r := r.(retrans := r.retrans + [tr.retrans.value]);
    } else {
      assert g.retrans + [] == g.retrans;
    }
  }

  method GatherTrials(trials: seq<Trial>) returns (g0: Gathered, g1: Gathered)
    ensures g0 == Gather(trials, 0) && g1 == Gather(trials, 1)
  {
    g0, g1 := NONE_YET, NONE_YET;
    for i := 0 to |trials|
      invariant g0 == Gather(trials[..i], 0) && g1 == Gather(trials[..i], 1)
    {
      assert trials[..i + 1][..i] == trials[..i];
      if trials[i].direction == 0 {
        g0 := AddTrial(g0, trials[i]);
      } else if trials[i].direction == 1 {
        g1 := AddTrial(g1, trials[i]);
      }
    }
    assert trials[..|trials|] == trials;
  }

  method ReduceDirection(g: Gathered, expected: int, negotiated: nat, t: Thresholds) returns (d: Tcp)
    ensures d == Reduce(g, expected, negotiated, t)
  {
    d := UNAVAILABLE;
    if g.bitrates != [] {
      var deviations := CountDeviations(g.bitrates, negotiated, t);
      d := Tcp(true, |g.bitrates|, deviations, Truncate(LowerMedian(g.bitrates)), LowerMedian(g.retrans),
               WorstOf(g.retrans), LowerMedian(g.covs), g.collapses, g.maxCPU, g.senderMaxCPU);
    }
    var incomplete := g.incomplete;
    if expected > 0 && g.observed < expected {
      incomplete := true;
    }
    if incomplete {
      d := UNAVAILABLE;
    }
  }

  method Aggregate(trials: seq<Trial>, expected: int, negotiated: nat, t: Thresholds) returns (d0: Tcp, d1: Tcp)
    ensures d0 == Evidenced(trials, 0, expected, negotiated, t)
    ensures d1 == Evidenced(trials, 1, expected, negotiated, t)
  {
    var g0, g1 := GatherTrials(trials);
    d0 := ReduceDirection(g0, expected, negotiated, t);
    d1 := ReduceDirection(g1, expected, negotiated, t);
  }

  // --- Retransmissions: a strict majority convicts ---

  lemma SamplesConvictByMajority(g: Gathered, expected: int, negotiated: nat, t: Thresholds)
    requires PolicyOrdered(t)
    ensures var d := Reduce(g, expected, negotiated, t);
            d.available ==>
              (RetransSeverity(d, t) == POOR <==> 2 * CountAbove(g.retrans, t.retransPoorAbove) > |g.retrans|)
  {
    if g.retrans != [] {
      LowerMedianAbove(g.retrans, t.retransPoorAbove);
    }
  }

  lemma SampleBurstsWarn(g: Gathered, expected: int, negotiated: nat, t: Thresholds)
    requires PolicyOrdered(t) && t.retransWarningAt > 0.0
    ensures var d := Reduce(g, expected, negotiated, t);
            d.available ==>
              (RetransSeverity(d, t) >= WARNING <==> Reached(g.retrans, t.retransWarningAt))
  {
    WorstReached(g.retrans, t.retransWarningAt);
    if Reduce(g, expected, negotiated, t).available {
      RetransWarns(Reduce(g, expected, negotiated, t), t);
    }
  }

  predicate Reached(s: seq<real>, rate: real) { exists i | 0 <= i < |s| :: s[i] >= rate }

  lemma RetransWarns(d: Tcp, t: Thresholds)
    requires d.available
    ensures RetransSeverity(d, t) >= WARNING <==> MaxReal(d.retransRate, d.retransWorst) >= t.retransWarningAt
  {}

  lemma WorstReached(s: seq<real>, w: real)
    requires w > 0.0
    ensures MaxReal(LowerMedian(s), WorstOf(s)) >= w <==> Reached(s, w)
  {
    if s != [] {
      MedianIsASample(s);
    }
    if WorstOf(s) >= w {
      assert WorstOf(s) in s;
    }
  }

  lemma MedianIsASample(s: seq<real>)
    requires s != []
    ensures LowerMedian(s) in s
  {
    SortPermutes(s);
    assert Sort(s)[(|s| - 1) / 2] in multiset(Sort(s));
  }

  // --- Throughput: half the trials pull the aggregate down ---

  function Ceiling(y: real): int { -((-y).Floor) }

  lemma TruncatedBelow(x: real, y: real)
    requires y > 0.0
    ensures Truncate(x) as real < y <==> x < Ceiling(y) as real
  {
    var m := Ceiling(y);
    CeilingBounds(y);
    IntegerBelow(Truncate(x), y, m);
    if x > 0.0 {
      FloorBelow(x, m);
    } else {
      assert 0 < m;
    }
  }

  lemma CeilingBounds(y: real)
    ensures Ceiling(y) as real - 1.0 < y <= Ceiling(y) as real
  {}

  lemma IntegerBelow(n: int, y: real, m: int)
    requires m as real - 1.0 < y <= m as real
    ensures n as real < y <==> n < m
  {
    if n < m {
      assert n <= m - 1;
    }
  }

  lemma FloorBelow(x: real, m: int)
    ensures x.Floor < m <==> x < m as real
  {}

  // Trials whose truncated rate is below y bits per second.
  function CountShort(s: seq<real>, y: real): nat {
    if s == [] then 0 else (if Truncate(s[0]) as real < y then 1 else 0) + CountShort(s[1..], y)
  }

  lemma {:induction false} ShortIsBelow(s: seq<real>, y: real)
    ensures CountShort(s, y) == if y > 0.0 then CountBelow(s, Ceiling(y) as real) else 0
  {
    if s != [] {
      ShortIsBelow(s[1..], y);
      if y > 0.0 {
        TruncatedBelow(s[0], y);
      }
    }
  }

  lemma SampleRateFallsByHalf(s: seq<real>, y: real)
    requires s != []
    ensures Truncate(LowerMedian(s)) as real < y <==> 2 * CountShort(s, y) >= |s|
  {
    ShortIsBelow(s, y);
    if y > 0.0 {
      TruncatedBelow(LowerMedian(s), y);
      LowerMedianBelow(s, Ceiling(y) as real);
    }
  }

  lemma RatioBelow(measured: nat, negotiated: nat, ratio: real)
    requires negotiated > 0
    ensures measured as real / negotiated as real < ratio <==> (measured as real) < ratio * negotiated as real
  {
    var q := measured as real / negotiated as real;
    assert q * negotiated as real == measured as real;
    if q < ratio {
      assert q * negotiated as real < ratio * negotiated as real;
    } else {
      assert q * negotiated as real >= ratio * negotiated as real;
    }
  }

  // The pass boundary in bits per second, when a policy applies.
  ghost predicate PassesAt(negotiated: nat, t: Thresholds, y: real) {
    forall n: nat :: Shortfall(n, negotiated, t) <==> n as real < y
  }

  lemma {:induction false} DeviationsAreShort(s: seq<real>, negotiated: nat, t: Thresholds, y: real)
    requires PassesAt(negotiated, t, y)
    ensures Deviations(s, negotiated, t) == CountShort(s, y)
  {
    if s != [] {
      DeviationsAreShort(s[..|s| - 1], negotiated, t, y);
      ShortLast(s, y);
    }
  }

  lemma {:induction false} ShortLast(s: seq<real>, y: real)
    requires s != []
    ensures CountShort(s, y) == CountShort(s[..|s| - 1], y) + (if Truncate(s[|s| - 1]) as real < y then 1 else 0)
  {
    if |s| > 1 {
      ShortLast(s[1..], y);
      assert s[1..][..|s| - 2] == s[..|s| - 1][1..];
    }
  }

  lemma SampleShortfallIsHalf(g: Gathered, expected: int, negotiated: nat, t: Thresholds)
    requires negotiated > 0
    ensures var d := Reduce(g, expected, negotiated, t);
            d.available ==> (Shortfall(d.bitrate, negotiated, t) <==> 2 * d.deviations >= d.trials)
  {
    if Reduce(g, expected, negotiated, t).available {
      var y := PassRate(negotiated, t);
      PassRateIsExact(negotiated, t);
      DeviationsAreShort(g.bitrates, negotiated, t, y);
      SampleRateFallsByHalf(g.bitrates, y);
    }
  }

  lemma PoorIsShort(measured: nat, negotiated: nat, t: Thresholds)
    requires PolicyOrdered(t) && ClassifyThroughput(measured, negotiated, t) > WARNING
    ensures negotiated > 0 && Shortfall(measured, negotiated, t)
  {
    var b := PerfBands(negotiated, t).bands;
    assert Ordered(b);
  }

  // --- The same, over the trials themselves ---

  predicate Completed(tr: Trial, direction: int) { tr.direction == direction && !tr.incomplete }

  predicate Reports(tr: Trial, direction: int) { Completed(tr, direction) && tr.retrans.Some? }

  function One(b: bool): nat { if b then 1 else 0 }

  function CountLabelled(trials: seq<Trial>, direction: int): nat {
    if trials == [] then 0
    else CountLabelled(trials[..|trials| - 1], direction) + One(trials[|trials| - 1].direction == direction)
  }

  function CountCompleted(trials: seq<Trial>, direction: int): nat {
    if trials == [] then 0
    else CountCompleted(trials[..|trials| - 1], direction) + One(Completed(trials[|trials| - 1], direction))
  }

  function CountReporting(trials: seq<Trial>, direction: int): nat {
    if trials == [] then 0
    else CountReporting(trials[..|trials| - 1], direction) + One(Reports(trials[|trials| - 1], direction))
  }

  function CountReportingAbove(trials: seq<Trial>, direction: int, rate: real): nat {
    if trials == [] then 0
    else
      var last := trials[|trials| - 1];
      CountReportingAbove(trials[..|trials| - 1], direction, rate) + One(Reports(last, direction) && last.retrans.value > rate)
  }

  // The trial's rate is the receiver's where it measured one, else the sender's; in whole bits per
  // second it is below y.
  predicate Slow(tr: Trial, y: real) {
    if tr.receiverBps > 0.0 then tr.receiverBps.Floor as real < y
    else if tr.senderBps > 0.0 then tr.senderBps.Floor as real < y
    else 0.0 < y
  }

  // The pass boundary of the link's speed tier, in bits per second.
  function PassRate(negotiated: nat, t: Thresholds): real {
    (if negotiated <= 100_000_000 then t.throughput100M
     else if negotiated <= 1_000_000_000 then t.throughput1G
     else t.throughputFallback).passAt * negotiated as real
  }

  function CountSlow(trials: seq<Trial>, direction: int, y: real): nat {
    if trials == [] then 0
    else
      var last := trials[|trials| - 1];
      CountSlow(trials[..|trials| - 1], direction, y) + One(Completed(last, direction) && Slow(last, y))
  }

  function CountCovBelow(trials: seq<Trial>, direction: int, y: real): nat {
    if trials == [] then 0
    else
      var last := trials[|trials| - 1];
      CountCovBelow(trials[..|trials| - 1], direction, y) + One(Completed(last, direction) && last.cov < y)
  }

  lemma SlowIsTruncated(tr: Trial, y: real)
    ensures Slow(tr, y) <==> Truncate(Bps(tr)) as real < y
  {}

  predicate AnyIncomplete(trials: seq<Trial>, direction: int) {
    exists i | 0 <= i < |trials| :: trials[i].direction == direction && trials[i].incomplete
  }

  predicate AnyReaches(trials: seq<Trial>, direction: int, rate: real) {
    exists i | 0 <= i < |trials| :: Reports(trials[i], direction) && trials[i].retrans.value >= rate
  }

  // What gathering leaves of a list is what its last trial adds to the rest.
  lemma GatherLast(trials: seq<Trial>, direction: int)
    requires trials != []
    ensures var last := trials[|trials| - 1]; var g := Gather(trials[..|trials| - 1], direction);
            && Gather(trials, direction) == (if last.direction == direction then Add(g, last) else g)
            && Gather(trials, direction).bitrates == g.bitrates + (if Completed(last, direction) then [Bps(last)] else [])
            && Gather(trials, direction).retrans == g.retrans + (if Reports(last, direction) then [last.retrans.value] else [])
  {
    var g := Gather(trials[..|trials| - 1], direction);
    assert g.bitrates + [] == g.bitrates && g.retrans + [] == g.retrans;
  }

  lemma {:induction false} GatherCounts(trials: seq<Trial>, direction: int)
    ensures var g := Gather(trials, direction);
            && |g.bitrates| == CountCompleted(trials, direction) && |g.retrans| == CountReporting(trials, direction)
            && g.observed == CountLabelled(trials, direction)
  {
    if trials != [] {
      GatherCounts(trials[..|trials| - 1], direction);
      GatherLast(trials, direction);
    }
  }

  lemma {:induction false} GatherIncomplete(trials: seq<Trial>, direction: int)
    ensures Gather(trials, direction).incomplete <==> AnyIncomplete(trials, direction)
  {
    if trials != [] {
      var cut, last := trials[..|trials| - 1], trials[|trials| - 1];
      GatherIncomplete(cut, direction);
      assert AnyIncomplete(trials, direction) <==> AnyIncomplete(cut, direction) || (last.direction == direction && last.incomplete) by {
        assert forall i | 0 <= i < |cut| :: cut[i] == trials[i];
      }
    }
  }

  lemma {:induction false} AboveLast(s: seq<real>, x: real, b: real)
    ensures CountAbove(s + [x], b) == CountAbove(s, b) + One(x > b)
  {
    if s == [] {
      assert ([x])[1..] == [];
      assert s + [x] == [x];
    } else {
      AboveLast(s[1..], x, b);
      assert (s + [x])[1..] == s[1..] + [x];
    }
  }

  lemma {:induction false} GatherAbove(trials: seq<Trial>, direction: int, rate: real)
    ensures CountAbove(Gather(trials, direction).retrans, rate) == CountReportingAbove(trials, direction, rate)
  {
    if trials != [] {
      var cut, last := trials[..|trials| - 1], trials[|trials| - 1];
      GatherAbove(cut, direction, rate);
      GatherLast(trials, direction);
      var before := Gather(cut, direction).retrans;
      if Reports(last, direction) {
        AboveLast(before, last.retrans.value, rate);
      } else {
        assert before + [] == before;
      }
    }
  }

  lemma {:induction false} GatherSlow(trials: seq<Trial>, direction: int, y: real)
    ensures CountShort(Gather(trials, direction).bitrates, y) == CountSlow(trials, direction, y)
  {
    if trials != [] {
      var cut, last := trials[..|trials| - 1], trials[|trials| - 1];
      GatherSlow(cut, direction, y);
      GatherLast(trials, direction);
      var before := Gather(cut, direction).bitrates;
      if Completed(last, direction) {
        ShortLast(before + [Bps(last)], y);
        SlowIsTruncated(last, y);
        assert (before + [Bps(last)])[..|before|] == before;
      } else {
        assert before + [] == before;
      }
    }
  }

  lemma PassRateIsExact(negotiated: nat, t: Thresholds)
    requires negotiated > 0
    ensures PassesAt(negotiated, t, PassRate(negotiated, t))
  {
    var pass := PerfBands(negotiated, t).bands.passAt;
    assert PassRate(negotiated, t) == pass * negotiated as real;
    forall n: nat ensures Shortfall(n, negotiated, t) <==> n as real < PassRate(negotiated, t) {
      RatioBelow(n, negotiated, pass);
    }
  }

  lemma GatherShort(trials: seq<Trial>, direction: int, negotiated: nat, t: Thresholds)
    requires negotiated > 0
    ensures Deviations(Gather(trials, direction).bitrates, negotiated, t)
            == CountSlow(trials, direction, PassRate(negotiated, t))
  {
    PassRateIsExact(negotiated, t);
    DeviationsAreShort(Gather(trials, direction).bitrates, negotiated, t, PassRate(negotiated, t));
    GatherSlow(trials, direction, PassRate(negotiated, t));
  }

  lemma {:induction false} NoPolicyNoDeviations(s: seq<real>, t: Thresholds)
    ensures Deviations(s, 0, t) == 0
  {
    if s != [] {
      NoPolicyNoDeviations(s[..|s| - 1], t);
    }
  }

  lemma {:induction false} BelowLast(s: seq<real>, x: real, b: real)
    ensures CountBelow(s + [x], b) == CountBelow(s, b) + One(x < b)
  {
    if s == [] {
      assert ([x])[1..] == [];
      assert s + [x] == [x];
    } else {
      BelowLast(s[1..], x, b);
      assert (s + [x])[1..] == s[1..] + [x];
    }
  }

  lemma {:induction false} GatherCov(trials: seq<Trial>, direction: int, y: real)
    ensures var g := Gather(trials, direction);
            |g.covs| == CountCompleted(trials, direction) && CountBelow(g.covs, y) == CountCovBelow(trials, direction, y)
  {
    if trials != [] {
      var cut, last := trials[..|trials| - 1], trials[|trials| - 1];
      GatherCov(cut, direction, y);
      BelowLast(Gather(cut, direction).covs, last.cov, y);
    }
  }

  // The largest values are those of completed trials of the direction.
  predicate Covers(g: Gathered, tr: Trial) {
    tr.collapses <= g.collapses && tr.hostCPU <= g.maxCPU && tr.remoteCPU <= g.maxCPU && tr.hostCPU <= g.senderMaxCPU
  }

  lemma {:induction false} GatherCovers(trials: seq<Trial>, direction: int)
    ensures forall i | 0 <= i < |trials| && Completed(trials[i], direction) :: Covers(Gather(trials, direction), trials[i])
  {
    if trials != [] {
      var cut, last := trials[..|trials| - 1], trials[|trials| - 1];
      GatherCovers(cut, direction);
      var g := Gather(cut, direction);
      forall i | 0 <= i < |trials| && Completed(trials[i], direction) ensures Covers(Gather(trials, direction), trials[i]) {
        if i < |cut| {
          assert cut[i] == trials[i] && Covers(g, cut[i]);
        }
      }
    }
  }

  // Each value is zero or that of a completed trial of the direction.
  predicate Attained(trials: seq<Trial>, direction: int, collapses: int, maxCPU: real, senderMaxCPU: real) {
    && (collapses == 0 || exists i | 0 <= i < |trials| :: Completed(trials[i], direction) && trials[i].collapses == collapses)
    && (maxCPU == 0.0 || exists i | 0 <= i < |trials| ::
          Completed(trials[i], direction) && (trials[i].hostCPU == maxCPU || trials[i].remoteCPU == maxCPU))
    && (senderMaxCPU == 0.0 || exists i | 0 <= i < |trials| :: Completed(trials[i], direction) && trials[i].hostCPU == senderMaxCPU)
  }

  lemma {:induction false} GatherAttains(trials: seq<Trial>, direction: int)
    ensures var g := Gather(trials, direction); Attained(trials, direction, g.collapses, g.maxCPU, g.senderMaxCPU)
  {
    if trials != [] {
      var cut, last := trials[..|trials| - 1], trials[|trials| - 1];
      GatherAttains(cut, direction);
      assert forall i | 0 <= i < |cut| :: cut[i] == trials[i];
      assert trials[|cut|] == last;
    }
  }

  lemma {:induction false} GatherReaches(trials: seq<Trial>, direction: int, rate: real)
    ensures Reached(Gather(trials, direction).retrans, rate) <==> AnyReaches(trials, direction, rate)
  {
    if trials != [] {
      var cut, last := trials[..|trials| - 1], trials[|trials| - 1];
      GatherReaches(cut, direction, rate);
      GatherLast(trials, direction);
      ReachLast(Gather(cut, direction).retrans, if Reports(last, direction) then [last.retrans.value] else [], rate);
      assert AnyReaches(trials, direction, rate)
             <==> AnyReaches(cut, direction, rate) || (Reports(last, direction) && last.retrans.value >= rate) by {
        assert forall i | 0 <= i < |cut| :: cut[i] == trials[i];
      }
    }
  }

  lemma ReachLast(s: seq<real>, tail: seq<real>, rate: real)
    requires |tail| <= 1
    ensures Reached(s + tail, rate) <==> Reached(s, rate) || (tail != [] && tail[0] >= rate)
  {
    assert forall i | 0 <= i < |s| :: (s + tail)[i] == s[i];
    assert tail != [] ==> (s + tail)[|s|] == tail[0];
  }

  // One direction's TCP evidence, from all trials of the report.
  function Evidenced(trials: seq<Trial>, direction: int, expected: int, negotiated: nat, t: Thresholds): Tcp {
    Reduce(Gather(trials, direction), expected, negotiated, t)
  }

  /** A direction is available exactly when some trial of it completed, none is incomplete, and no
      expected one is missing; then its trial and deviation counts are those of the list. */
  lemma AvailableIffAllTrialsAreIn(trials: seq<Trial>, direction: int, expected: int, negotiated: nat, t: Thresholds)
    ensures var d := Evidenced(trials, direction, expected, negotiated, t);
            && (d.available <==>
                  && CountCompleted(trials, direction) > 0 && !AnyIncomplete(trials, direction)
                  && !(expected > 0 && CountLabelled(trials, direction) < expected))
            && (d.available ==>
                  && d.trials == CountCompleted(trials, direction)
                  && d.deviations == if negotiated == 0 then 0 else CountSlow(trials, direction, PassRate(negotiated, t)))
            && (!d.available ==> d == Tcp(false, 0, 0, 0, 0.0, 0.0, 0.0, 0, 0.0, 0.0))
  {
    GatherCounts(trials, direction);
    GatherIncomplete(trials, direction);
    if negotiated > 0 {
      GatherShort(trials, direction, negotiated, t);
    } else {
      NoPolicyNoDeviations(Gather(trials, direction).bitrates, t);
    }
  }

  /** The variation is the lower median over completed trials; collapses and CPU are the worst of
      them, the sender's CPU being that of the host that ran the client. */
  lemma TheOtherReductions(trials: seq<Trial>, direction: int, expected: int, negotiated: nat, t: Thresholds, y: real)
    ensures var d := Evidenced(trials, direction, expected, negotiated, t);
            d.available ==>
              && (d.cov < y <==> 2 * CountCovBelow(trials, direction, y) >= CountCompleted(trials, direction))
              && (forall i | 0 <= i < |trials| && Completed(trials[i], direction) ::
                    && trials[i].collapses <= d.collapses && trials[i].hostCPU <= d.maxCPU
                    && trials[i].remoteCPU <= d.maxCPU && trials[i].hostCPU <= d.senderMaxCPU)
              && Attained(trials, direction, d.collapses, d.maxCPU, d.senderMaxCPU)
  {
    GatherCov(trials, direction, y);
    GatherCounts(trials, direction);
    GatherCovers(trials, direction);
    GatherAttains(trials, direction);
    var g := Gather(trials, direction);
    if Evidenced(trials, direction, expected, negotiated, t).available {
      LowerMedianBelow(g.covs, y);
      assert forall i | 0 <= i < |trials| && Completed(trials[i], direction) :: Covers(g, trials[i]);
    }
  }

  // The same trials, except for sender rates that a receiver rate overrides.
  predicate SameMeasured(a: Trial, b: Trial) {
    b == a.(senderBps := b.senderBps) && (a.receiverBps > 0.0 || b.senderBps == a.senderBps)
  }

  /** What the sender measured counts for nothing where the receiver measured a rate. */
  lemma {:induction false} ReceiverRatesDecide(trials: seq<Trial>, others: seq<Trial>, direction: int)
    requires |others| == |trials| && forall i | 0 <= i < |trials| :: SameMeasured(trials[i], others[i])
    ensures Gather(others, direction) == Gather(trials, direction)
    decreases |trials|
  {
    if trials != [] {
      ReceiverRatesDecide(trials[..|trials| - 1], others[..|others| - 1], direction);
      assert SameMeasured(trials[|trials| - 1], others[|others| - 1]);
    }
  }

  /** TR-06 is POOR in an available direction exactly when a strict majority of its trials that
      reported retransmissions exceed the boundary. */
  lemma RetransmissionsConvictByMajority(trials: seq<Trial>, direction: int, expected: int, negotiated: nat, t: Thresholds)
    requires PolicyOrdered(t)
    ensures var d := Evidenced(trials, direction, expected, negotiated, t);
            d.available ==>
              (RetransSeverity(d, t) == POOR
               <==> 2 * CountReportingAbove(trials, direction, t.retransPoorAbove) > CountReporting(trials, direction))
  {
    SamplesConvictByMajority(Gather(trials, direction), expected, negotiated, t);
    GatherCounts(trials, direction);
    GatherAbove(trials, direction, t.retransPoorAbove);
  }

  /** One trial's burst is enough to warn, and needed. */
  lemma BurstsWarn(trials: seq<Trial>, direction: int, expected: int, negotiated: nat, t: Thresholds)
    requires PolicyOrdered(t) && t.retransWarningAt > 0.0
    ensures var d := Evidenced(trials, direction, expected, negotiated, t);
            d.available ==> (RetransSeverity(d, t) >= WARNING <==> AnyReaches(trials, direction, t.retransWarningAt))
  {
    SampleBurstsWarn(Gather(trials, direction), expected, negotiated, t);
    GatherReaches(trials, direction, t.retransWarningAt);
  }

  /** The aggregate rate of an available direction is below any boundary exactly when at least half
      of its completed trials are. */
  lemma ThroughputFallsByHalf(trials: seq<Trial>, direction: int, expected: int, negotiated: nat, t: Thresholds, y: real)
    ensures var d := Evidenced(trials, direction, expected, negotiated, t);
            d.available ==>
              (d.bitrate as real < y <==> 2 * CountSlow(trials, direction, y) >= CountCompleted(trials, direction))
  {
    GatherCounts(trials, direction);
    GatherSlow(trials, direction, y);
    if Evidenced(trials, direction, expected, negotiated, t).available {
      SampleRateFallsByHalf(Gather(trials, direction).bitrates, y);
    }
  }

  /** The aggregate misses the pass ratio exactly when at least half the completed trials do. */
  lemma AggregateShortfallIsHalf(trials: seq<Trial>, direction: int, expected: int, negotiated: nat, t: Thresholds)
    requires negotiated > 0
    ensures var d := Evidenced(trials, direction, expected, negotiated, t);
            d.available ==>
              (Shortfall(d.bitrate, negotiated, t)
               <==> 2 * CountSlow(trials, direction, PassRate(negotiated, t)) >= CountCompleted(trials, direction))
  {
    AvailableIffAllTrialsAreIn(trials, direction, expected, negotiated, t);
    SampleShortfallIsHalf(Gather(trials, direction), expected, negotiated, t);
  }

  /** The isolated-outlier cap can change a direction's severity only with exactly two completed
      trials, one of them short. */
  lemma CapNeedsExactlyTwoTrials(trials: seq<Trial>, direction: int, expected: int, negotiated: nat, clean: bool, t: Thresholds)
    requires PolicyOrdered(t)
    ensures var d := Evidenced(trials, direction, expected, negotiated, t);
            d.available && Assess(d, negotiated, clean, t) != ClassifyThroughput(d.bitrate, negotiated, t) ==>
              && negotiated > 0 && CountCompleted(trials, direction) == 2
              && CountSlow(trials, direction, PassRate(negotiated, t)) == 1
  {
    var d := Evidenced(trials, direction, expected, negotiated, t);
    if d.available && Assess(d, negotiated, clean, t) != ClassifyThroughput(d.bitrate, negotiated, t) {
      PoorIsShort(d.bitrate, negotiated, t);
      AvailableIffAllTrialsAreIn(trials, direction, expected, negotiated, t);
      AggregateShortfallIsHalf(trials, direction, expected, negotiated, t);
    }
  }
}
