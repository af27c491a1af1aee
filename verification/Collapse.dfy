/** TCP throughput collapse analysis: maximal runs of intervals below half the median. */
module Collapse {
  import opened Wrappers
  import opened Machine
  import opened Samples

  // An interval's rate; NaN and the infinities are one invalid case.
  datatype Rate = Invalid | Bps(value: real)
  datatype Sample = Sample(start: real, rate: Rate)
  datatype Event = Event(start: real, len: int, minBps: real)

  // The first interval is slow start and left out whenever another one exists.
  function Analysed(rows: seq<Sample>): seq<Sample> { if |rows| >= 2 then rows[1..] else rows }

  predicate Usable(s: Sample) { s.rate.Bps? && s.rate.value >= 0.0 }

  predicate AllUsable(rows: seq<Sample>) { forall i | 0 <= i < |rows| :: Usable(rows[i]) }

  function Rates(rows: seq<Sample>): (r: seq<real>)
    requires AllUsable(rows)
    ensures |r| == |rows| && forall i | 0 <= i < |r| :: r[i] == rows[i].rate.value
  { seq(|rows|, i requires 0 <= i < |rows| => rows[i].rate.value) }

  function Median(rates: seq<real>): real
    requires rates != []
  {
    MiddleOf(Sort(rates))
  }

  function MiddleOf(sorted: seq<real>): real
    requires sorted != []
  {
    var upper := sorted[|sorted| / 2];
    if |sorted| % 2 == 0 then sorted[|sorted| / 2 - 1] + (upper - sorted[|sorted| / 2 - 1]) / 2.0 else upper
  }

  function Boundary(rates: seq<real>): real
    requires rates != []
  { Median(rates) / 2.0 }

  /** The median is the middle of the sorted sample, halfway between the two middle values of an even one;
      no more than half the samples lie to either side. */
  lemma MedianIsTheMiddle(rates: seq<real>)
    requires rates != []
    ensures var n, m := |rates|, Median(rates);
            && 2.0 * m == Sort(rates)[(n - 1) / 2] + Sort(rates)[n / 2]
            && 2 * CountBelow(rates, m) <= n && 2 * CountAbove(rates, m) <= n
  {
    var n, m := |rates|, Median(rates);
    Halfway(Sort(rates));
    SortCounts(rates, m);
    RankBelow(Sort(rates), n / 2, m);
    RankAbove(Sort(rates), (n - 1) / 2, m);
    assert n - (n - 1) / 2 <= n / 2 + 1;
  }

  lemma Halfway(sorted: seq<real>)
    requires sorted != [] && Sorted(sorted)
    ensures var lo, hi := sorted[(|sorted| - 1) / 2], sorted[|sorted| / 2];
            2.0 * MiddleOf(sorted) == lo + hi && lo <= MiddleOf(sorted) <= hi
  {
    var n := |sorted|;
    if n % 2 == 0 {
      assert (n - 1) / 2 == n / 2 - 1;
    } else {
      assert (n - 1) / 2 == n / 2;
    }
  }

  // An interval is low when it carried less than half the median.
  lemma LowIsBelowHalf(rates: seq<real>, x: real)
    requires rates != []
    ensures x < Boundary(rates) <==> 4.0 * x < Sort(rates)[(|rates| - 1) / 2] + Sort(rates)[|rates| / 2]
  {
    MedianIsTheMiddle(rates);
  }

  // --- Runs ---

  datatype Run = Run(from: nat, len: nat)

  predicate Low(rates: seq<real>, t: real, i: int)
    requires 0 <= i < |rates|
  { rates[i] < t }

  /** The ordered, disjoint, maximal runs of low intervals, and all of them. */
  predicate MaximalRuns(rates: seq<real>, t: real, runs: seq<Run>) {
    && (forall r | 0 <= r < |runs| :: IsRun(rates, t, runs[r]))
    && (forall r | 0 <= r < |runs| - 1 :: runs[r].from + runs[r].len < runs[r + 1].from)
    && (forall i | 0 <= i < |rates| && Low(rates, t, i) :: Covered(runs, i))
  }

  predicate IsRun(rates: seq<real>, t: real, run: Run) {
    && run.len > 0 && run.from + run.len <= |rates|
    && (forall i | run.from <= i < run.from + run.len :: Low(rates, t, i))
    && (run.from > 0 ==> !Low(rates, t, run.from - 1))
    && (run.from + run.len < |rates| ==> !Low(rates, t, run.from + run.len))
  }

  predicate Covered(runs: seq<Run>, i: int) {
    exists r | 0 <= r < |runs| :: runs[r].from <= i < runs[r].from + runs[r].len
  }

  // The runs, one interval at a time: a low interval extends the run that ends right before it
  // or begins one.
  function RunsOf(rates: seq<real>, t: real): seq<Run> {
    if rates == [] then []
    else
      var n := |rates| - 1;
      var before := RunsOf(rates[..n], t);
      if !Low(rates, t, n) then before
      else if before != [] && before[|before| - 1].from + before[|before| - 1].len == n then
        before[|before| - 1 := before[|before| - 1].(len := before[|before| - 1].len + 1)]
      else before + [Run(n, 1)]
  }

  function SumLens(runs: seq<Run>): nat {
    if runs == [] then 0 else SumLens(runs[..|runs| - 1]) + runs[|runs| - 1].len
  }

  lemma {:induction false} RunsAreMaximal(rates: seq<real>, t: real)
    ensures MaximalRuns(rates, t, RunsOf(rates, t))
  {
    if rates != [] {
      var n := |rates| - 1;
      RunsAreMaximal(rates[..n], t);
      var before := RunsOf(rates[..n], t);
      if !Low(rates, t, n) {
        NotLowKeeps(rates, t, before);
      } else if before != [] && before[|before| - 1].from + before[|before| - 1].len == n {
        LowExtends(rates, t, before);
      } else {
        LowBegins(rates, t, before);
      }
    }
  }

  // Facts about the shorter sample carry over to the longer one.
  lemma EarlierRuns(rates: seq<real>, t: real, before: seq<Run>)
    requires rates != [] && MaximalRuns(rates[..|rates| - 1], t, before)
    ensures forall r | 0 <= r < |before| ::
              && before[r].len > 0 && before[r].from + before[r].len <= |rates| - 1
              && (forall i | before[r].from <= i < before[r].from + before[r].len :: Low(rates, t, i))
              && (before[r].from > 0 ==> !Low(rates, t, before[r].from - 1))
              && (before[r].from + before[r].len < |rates| - 1 ==> !Low(rates, t, before[r].from + before[r].len))
    ensures forall i | 0 <= i < |rates| - 1 && Low(rates, t, i) :: Covered(before, i)
  {
    var cut := rates[..|rates| - 1];
    forall r | 0 <= r < |before|
      ensures before[r].len > 0 && before[r].from + before[r].len <= |rates| - 1
      ensures forall i | before[r].from <= i < before[r].from + before[r].len :: Low(rates, t, i)
      ensures before[r].from > 0 ==> !Low(rates, t, before[r].from - 1)
      ensures before[r].from + before[r].len < |rates| - 1 ==> !Low(rates, t, before[r].from + before[r].len)
    {
      assert IsRun(cut, t, before[r]);
      forall i | before[r].from <= i < before[r].from + before[r].len ensures Low(rates, t, i) {
        assert Low(cut, t, i);
      }
    }
    forall i | 0 <= i < |rates| - 1 && Low(rates, t, i) ensures Covered(before, i) {
      assert Low(cut, t, i);
    }
  }

  lemma NotLowKeeps(rates: seq<real>, t: real, before: seq<Run>)
    requires rates != [] && MaximalRuns(rates[..|rates| - 1], t, before) && !Low(rates, t, |rates| - 1)
    ensures MaximalRuns(rates, t, before)
  {
    EarlierRuns(rates, t, before);
  }

  // Runs are ordered, so only the last one can reach the end.
  lemma {:induction false} RunsBeforeLast(rates: seq<real>, t: real, runs: seq<Run>, r: nat)
    requires MaximalRuns(rates, t, runs) && r < |runs| - 1
    ensures runs[r].from + runs[r].len < runs[|runs| - 1].from
    decreases |runs| - r
  {
    if r < |runs| - 2 {
      RunsBeforeLast(rates, t, runs, r + 1);
    }
  }

  lemma LowExtends(rates: seq<real>, t: real, before: seq<Run>)
    requires rates != [] && MaximalRuns(rates[..|rates| - 1], t, before) && Low(rates, t, |rates| - 1)
    requires before != [] && before[|before| - 1].from + before[|before| - 1].len == |rates| - 1
    ensures var last := before[|before| - 1];
            MaximalRuns(rates, t, before[|before| - 1 := last.(len := last.len + 1)])
  {
    EarlierRuns(rates, t, before);
    var last := before[|before| - 1];
    var runs := before[|before| - 1 := last.(len := last.len + 1)];
    forall r | 0 <= r < |runs| - 1
      ensures IsRun(rates, t, runs[r]) && runs[r].from + runs[r].len < runs[r + 1].from
    {
      RunsBeforeLast(rates[..|rates| - 1], t, before, r);
    }
    LastExtends(rates, t, last);
    ExtendedCovers(rates, t, before);
  }

  lemma ExtendedCovers(rates: seq<real>, t: real, before: seq<Run>)
    requires rates != [] && before != [] && before[|before| - 1].from + before[|before| - 1].len == |rates| - 1
    requires forall i | 0 <= i < |rates| - 1 && Low(rates, t, i) :: Covered(before, i)
    ensures var last := before[|before| - 1]; var runs := before[|before| - 1 := last.(len := last.len + 1)];
            forall i | 0 <= i < |rates| && Low(rates, t, i) :: Covered(runs, i)
  {
    var last := before[|before| - 1];
    var runs := before[|before| - 1 := last.(len := last.len + 1)];
    forall i | 0 <= i < |rates| && Low(rates, t, i) ensures Covered(runs, i) {
      if i < |rates| - 1 {
        StillCovered(before, i, last.len + 1);
      } else {
        assert runs[|runs| - 1].from <= i < runs[|runs| - 1].from + runs[|runs| - 1].len;
      }
    }
  }

  lemma LastExtends(rates: seq<real>, t: real, last: Run)
    requires last.len > 0 && last.from + last.len + 1 == |rates|
    requires forall i | last.from <= i < last.from + last.len + 1 :: Low(rates, t, i)
    requires last.from > 0 ==> !Low(rates, t, last.from - 1)
    ensures IsRun(rates, t, last.(len := last.len + 1))
  {}

  lemma StillCovered(runs: seq<Run>, i: nat, len: nat)
    requires Covered(runs, i) && runs != [] && len >= runs[|runs| - 1].len
    ensures Covered(runs[|runs| - 1 := runs[|runs| - 1].(len := len)], i)
  {
    var r :| 0 <= r < |runs| && runs[r].from <= i < runs[r].from + runs[r].len;
    var longer := runs[|runs| - 1 := runs[|runs| - 1].(len := len)];
    assert longer[r].from <= i < longer[r].from + longer[r].len;
  }

  lemma LowBegins(rates: seq<real>, t: real, before: seq<Run>)
    requires rates != [] && MaximalRuns(rates[..|rates| - 1], t, before) && Low(rates, t, |rates| - 1)
    requires before == [] || before[|before| - 1].from + before[|before| - 1].len != |rates| - 1
    ensures MaximalRuns(rates, t, before + [Run(|rates| - 1, 1)])
  {
    var n := |rates| - 1;
    EarlierRuns(rates, t, before);
    var runs := before + [Run(n, 1)];
    forall r | 0 <= r < |before| ensures before[r].from + before[r].len < n {
      if r < |before| - 1 {
        RunsBeforeLast(rates[..n], t, before, r);
      }
    }
    assert n > 0 ==> !Low(rates, t, n - 1);
    forall i | 0 <= i < |rates| && Low(rates, t, i) ensures Covered(runs, i) {
      if i < n {
        var r :| 0 <= r < |before| && before[r].from <= i < before[r].from + before[r].len;
        assert runs[r] == before[r];
      } else {
        assert runs[|before|] == Run(n, 1);
      }
    }
  }

  lemma CountLast(rates: seq<real>, t: real)
    requires rates != []
    ensures CountBelow(rates, t) == CountBelow(rates[..|rates| - 1], t) + (if rates[|rates| - 1] < t then 1 else 0)
  {
    if |rates| > 1 {
      CountLast(rates[1..], t);
      assert rates[1..][..|rates| - 2] == rates[..|rates| - 1][1..];
    }
  }

  lemma {:induction false} LensAreLows(rates: seq<real>, t: real)
    ensures SumLens(RunsOf(rates, t)) == CountBelow(rates, t)
  {
    if rates != [] {
      var n := |rates| - 1;
      LensAreLows(rates[..n], t);
      CountLast(rates, t);
      var before := RunsOf(rates[..n], t);
      if Low(rates, t, n) {
        var last := |before| - 1;
        if before != [] && before[last].from + before[last].len == n {
          assert before[last := before[last].(len := before[last].len + 1)][..last] == before[..last];
        } else {
          assert (before + [Run(n, 1)])[..|before|] == before;
        }
      }
    }
  }

  // --- Events ---

  function MinRate(rates: seq<real>, run: Run): (m: real)
    requires 0 < run.len && run.from + run.len <= |rates|
    ensures m in rates[run.from..run.from + run.len]
    ensures forall i | run.from <= i < run.from + run.len :: m <= rates[i]
    decreases run.len
  {
    var last := rates[run.from + run.len - 1];
    if run.len == 1 then
      assert rates[run.from..run.from + 1][0] == last;
      last
    else
      var m := MinRate(rates, run.(len := run.len - 1));
      assert rates[run.from..run.from + run.len] == rates[run.from..run.from + run.len - 1] + [last];
      if last < m then last else m
  }

  predicate InBounds(rates: seq<real>, runs: seq<Run>) {
    forall r | 0 <= r < |runs| :: 0 < runs[r].len && runs[r].from + runs[r].len <= |rates|
  }

  function EventOf(rows: seq<Sample>, rates: seq<real>, run: Run): Event
    requires |rows| == |rates| && 0 < run.len && run.from + run.len <= |rates|
  { Event(rows[run.from].start, run.len, MinRate(rates, run)) }

  function EventsFor(rows: seq<Sample>, rates: seq<real>, runs: seq<Run>): (es: seq<Event>)
    requires |rows| == |rates| && InBounds(rates, runs)
    ensures |es| == |runs|
  { seq(|runs|, r requires 0 <= r < |runs| => EventOf(rows, rates, runs[r])) }

  predicate Analysable(rows: seq<Sample>) { rows != [] && AllUsable(rows) && Median(Rates(rows)) > 0.0 }

  lemma RunsInBounds(rates: seq<real>, t: real)
    ensures InBounds(rates, RunsOf(rates, t))
  {
    RunsAreMaximal(rates, t);
    var runs := RunsOf(rates, t);
    forall r | 0 <= r < |runs| ensures 0 < runs[r].len && runs[r].from + runs[r].len <= |rates| {
      assert IsRun(rates, t, runs[r]);
    }
  }

  // The events of the intervals under analysis.
  function CollapsesIn(rows: seq<Sample>): seq<Event> {
    if !Analysable(rows) then []
    else
      var rates := Rates(rows);
      RunsInBounds(rates, Boundary(rates));
      EventsFor(rows, rates, RunsOf(rates, Boundary(rates)))
  }

  // At most half the intervals are below half the median.
  lemma LowsAreAMinority(rates: seq<real>)
    requires rates != [] && (forall i | 0 <= i < |rates| :: rates[i] >= 0.0) && Median(rates) > 0.0
    ensures 2 * CountBelow(rates, Boundary(rates)) <= |rates|
  {
    var sorted := Sort(rates);
    var k := |rates| / 2;
    var t := Boundary(rates);
    SortPermutes(rates);
    assert sorted[k] in multiset(sorted);
    assert sorted[k] >= 0.0;
    assert |rates| % 2 == 0 ==> sorted[k - 1] <= sorted[k];
    assert sorted[k] >= t;
    RankBelow(sorted, k, t);
    SortCounts(rates, t);
  }

  function TotalLen(events: seq<Event>): int {
    if events == [] then 0 else TotalLen(events[..|events| - 1]) + events[|events| - 1].len
  }

  lemma {:induction false} EventLens(rows: seq<Sample>, rates: seq<real>, runs: seq<Run>)
    requires |rows| == |rates| && InBounds(rates, runs)
    ensures TotalLen(EventsFor(rows, rates, runs)) == SumLens(runs)
  {
    if runs != [] {
      var cut := runs[..|runs| - 1];
      EventLens(rows, rates, cut);
      assert EventsFor(rows, rates, runs)[..|runs| - 1] == EventsFor(rows, rates, cut);
    }
  }

  /** The events of any analysable sample: ordered, disjoint, maximal runs of intervals strictly
      below half the median, each with its first start and exact minimum; together they hold
      exactly the low intervals, at most half of all. */
  lemma CollapsesAreTheLowRuns(rows: seq<Sample>)
    requires Analysable(rows)
    ensures var rates := Rates(rows); var t := Boundary(rates);
            var runs, events := RunsOf(rates, t), CollapsesIn(rows);
            && MaximalRuns(rates, t, runs) && |events| == |runs|
            && (forall r | 0 <= r < |runs| ::
                  && runs[r].from + runs[r].len <= |rows|
                  && events[r].start == rows[runs[r].from].start && events[r].len == runs[r].len
                  && events[r].minBps in rates[runs[r].from..runs[r].from + runs[r].len]
                  && (forall i | runs[r].from <= i < runs[r].from + runs[r].len :: events[r].minBps <= rates[i]))
            && TotalLen(events) == CountBelow(rates, t) && 2 * TotalLen(events) <= |rows|
  {
    var rates := Rates(rows);
    var t := Boundary(rates);
    var runs := RunsOf(rates, t);
    RunsAreMaximal(rates, t);
    RunsInBounds(rates, t);
    LensAreLows(rates, t);
    EventLens(rows, rates, runs);
    LowsAreAMinority(rates);
    forall r | 0 <= r < |runs| ensures CollapsesIn(rows)[r] == EventOf(rows, rates, runs[r]) {}
  }

  /** Slow start never matters: with two or more intervals the first one changes nothing, whatever it holds,
      and a single interval never collapses. */
  lemma SlowStartIsLeftOut(all: seq<Sample>, other: Sample)
    requires all != []
    ensures |all| > 1 ==> CollapsesIn(Analysed(all[0 := other])) == CollapsesIn(all[1..]) == CollapsesIn(Analysed(all))
    ensures |all| == 1 ==> CollapsesIn(Analysed(all)) == []
  {
    if |all| > 1 {
      assert all[0 := other][1..] == all[1..];
    } else if Analysable(all) {
      CollapsesAreTheLowRuns(all);
      RunsInBounds(Rates(all), Boundary(Rates(all)));
      if CollapsesIn(all) != [] {
        OneEventCounts(CollapsesIn(all));
      }
    }
  }

  lemma OneEventCounts(events: seq<Event>)
    requires events != [] && forall i | 0 <= i < |events| :: events[i].len > 0
    ensures TotalLen(events) > 0
  {
    LensArePositive(events);
    PrefixCounts(events, |events| - 1);
  }

  /** There is something to analyse exactly when no interval is invalid or negative and at least half of them
      carried data; otherwise there is no event. */
  lemma WhatIsAnalysed(rows: seq<Sample>)
    ensures Analysable(rows) <==>
            && rows != [] && (forall i | 0 <= i < |rows| :: rows[i].rate.Bps? && rows[i].rate.value >= 0.0)
            && 2 * CountAbove(Rates(rows), 0.0) >= |rows|
    ensures !Analysable(rows) ==> CollapsesIn(rows) == []
  {
    if rows != [] && (forall i | 0 <= i < |rows| :: rows[i].rate.Bps? && rows[i].rate.value >= 0.0) {
      assert AllUsable(rows);
      MedianIsPositive(Rates(rows));
    } else {
      UsableMeans(rows);
    }
  }

  lemma UsableMeans(rows: seq<Sample>)
    ensures AllUsable(rows) <==> forall i | 0 <= i < |rows| :: rows[i].rate.Bps? && rows[i].rate.value >= 0.0
  {
    assert AllUsable(rows) ==> forall i | 0 <= i < |rows| :: Usable(rows[i]);
  }

  lemma MedianIsPositive(rates: seq<real>)
    requires rates != [] && forall i | 0 <= i < |rates| :: rates[i] >= 0.0
    ensures Median(rates) > 0.0 <==> 2 * CountAbove(rates, 0.0) >= |rates|
  {
    Halfway(Sort(rates));
    SortCounts(rates, 0.0);
    SortPermutes(rates);
    RankAbove(Sort(rates), |rates| / 2, 0.0);
    var lo := Sort(rates)[(|rates| - 1) / 2];
    assert lo in multiset(Sort(rates));
    assert lo in rates;
  }

  // --- The analysis as it is written ---

  method ReadRates(rows: seq<Sample>) returns (ok: bool, rates: seq<real>)
    ensures ok == AllUsable(rows)
    ensures ok ==> rates == Rates(rows)
  {
    rates := [];
    for i := 0 to |rows|
      invariant |rates| == i && forall k | 0 <= k < i :: Usable(rows[k]) && rates[k] == rows[k].rate.value
    {
      if rows[i].rate.Invalid? || rows[i].rate.value < 0.0 {
        assert !Usable(rows[i]);
        return false, [];
      }
      rates := rates + [rows[i].rate.value];
    }
    return true, rates;
  }

  // The run the loop is in ends right before interval i.
  predicate Open(runs: seq<Run>, i: nat) {
    runs != [] && runs[|runs| - 1].from + runs[|runs| - 1].len == i
  }

  method CollapseEvents(all: seq<Sample>) returns (events: seq<Event>)
    ensures events == CollapsesIn(Analysed(all))
  {
    var rows := Analysed(all);
    if rows == [] {
      return [];
    }
    var ok, rates := ReadRates(rows);
    if !ok || Median(rates) <= 0.0 {
      return [];
    }
    events := GroupLows(rows, rates, Boundary(rates));
  }

  function Lower(e: Event, rate: real): Event {
    Event(e.start, e.len + 1, if rate < e.minBps then rate else e.minBps)
  }

  // Adds a low interval to the run in progress, beginning one if there is none.
  method Absorb(events: seq<Event>, active: int, start: real, rate: real) returns (r: seq<Event>, now: int)
    requires active < |events|
    ensures active >= 0 ==> now == active && r == events[active := Lower(events[active], rate)]
    ensures active < 0 ==> now == |events| && r == events + [Event(start, 1, rate)]
  {
    r, now := events, active;
    if now < 0 {
      r := r + [Event(start, 0, rate)];
      now := |r| - 1;
    }
    var e := r[now];
    r := r[now := Event(e.start, e.len + 1, if rate < e.minBps then rate else e.minBps)];
  }

  function Extended(runs: seq<Run>): seq<Run>
    requires runs != []
  { runs[|runs| - 1 := runs[|runs| - 1].(len := runs[|runs| - 1].len + 1)] }

  lemma NextRuns(rates: seq<real>, t: real, i: nat)
    requires i < |rates|
    ensures var before, after := RunsOf(rates[..i], t), RunsOf(rates[..i + 1], t);
            && InBounds(rates[..i], before)
            && after == (if rates[i] >= t then before
                         else if Open(before, i) then Extended(before) else before + [Run(i, 1)])
            && (rates[i] >= t ==> !Open(after, i + 1))
  {
    assert rates[..i + 1][..i] == rates[..i];
    RunsInBounds(rates[..i], t);
  }

  method GroupLows(rows: seq<Sample>, rates: seq<real>, t: real) returns (events: seq<Event>)
    requires |rows| == |rates|
    ensures InBounds(rates, RunsOf(rates, t))
    ensures events == EventsFor(rows, rates, RunsOf(rates, t))
  {
    events := [];
    var active := -1;
    for i := 0 to |rows|
      invariant InBounds(rates, RunsOf(rates[..i], t))
      invariant events == EventsFor(rows, rates, RunsOf(rates[..i], t))
      invariant active == if Open(RunsOf(rates[..i], t), i) then |events| - 1 else -1
    {
      NextRuns(rates, t, i);
      ghost var before := RunsOf(rates[..i], t);
      if rates[i] >= t {
        active := -1;
      } else {
        if Open(before, i) {
          ExtendMatches(rows, rates, before, i);
        } else {
          BeginMatches(rows, rates, before, i);
        }
        events, active := Absorb(events, active, rows[i].start, rates[i]);
      }
    }
    assert rates[..|rows|] == rates;
  }

  lemma EventsAppend(rows: seq<Sample>, rates: seq<real>, runs: seq<Run>, run: Run)
    requires |rows| == |rates| && InBounds(rates, runs) && 0 < run.len && run.from + run.len <= |rates|
    ensures InBounds(rates, runs + [run])
    ensures EventsFor(rows, rates, runs + [run]) == EventsFor(rows, rates, runs) + [EventOf(rows, rates, run)]
  {}

  lemma ReplaceLast(es: seq<Event>, e: Event, e': Event)
    ensures (es + [e])[|es| := e'] == es + [e']
  {}

  // What the loop does to the events is what the interval does to the runs.
  lemma ExtendMatches(rows: seq<Sample>, rates: seq<real>, before: seq<Run>, i: nat)
    requires |rows| == |rates| && i < |rows| && InBounds(rates, before) && Open(before, i)
    ensures InBounds(rates, Extended(before)) && Open(Extended(before), i + 1)
    ensures var es := EventsFor(rows, rates, before);
            EventsFor(rows, rates, Extended(before)) == es[|es| - 1 := Lower(es[|es| - 1], rates[i])]
  {
    var cut, run := before[..|before| - 1], before[|before| - 1];
    var longer := run.(len := run.len + 1);
    assert before == cut + [run] && Extended(before) == cut + [longer];
    EventsAppend(rows, rates, cut, run);
    EventsAppend(rows, rates, cut, longer);
    LowerMatches(rows, rates, run);
    ReplaceLast(EventsFor(rows, rates, cut), EventOf(rows, rates, run), EventOf(rows, rates, longer));
  }

  lemma LowerMatches(rows: seq<Sample>, rates: seq<real>, run: Run)
    requires |rows| == |rates| && 0 < run.len && run.from + run.len < |rates|
    ensures EventOf(rows, rates, run.(len := run.len + 1)) == Lower(EventOf(rows, rates, run), rates[run.from + run.len])
  {
    MinExtends(rates, run);
  }

  lemma MinExtends(rates: seq<real>, run: Run)
    requires 0 < run.len && run.from + run.len < |rates|
    ensures MinRate(rates, run.(len := run.len + 1)) ==
            var next := rates[run.from + run.len]; if next < MinRate(rates, run) then next else MinRate(rates, run)
  {}

  lemma BeginMatches(rows: seq<Sample>, rates: seq<real>, before: seq<Run>, i: nat)
    requires |rows| == |rates| && i < |rows| && InBounds(rates, before)
    ensures var after := before + [Run(i, 1)];
            && InBounds(rates, after) && Open(after, i + 1)
            && EventsFor(rows, rates, after) == EventsFor(rows, rates, before) + [Event(rows[i].start, 1, rates[i])]
  {}

  // --- The evaluator's recount ---

  function PositiveLens(events: seq<Event>): nat {
    if events == [] then 0
    else PositiveLens(events[..|events| - 1]) + (if events[|events| - 1].len > 0 then events[|events| - 1].len else 0)
  }

  // Carried evidence is taken as it is; only results without any are analysed again.
  function EvidenceOf(carried: Option<seq<Event>>, intervals: seq<Sample>): seq<Event> {
    match carried case Some(events) => events case None => CollapsesIn(Analysed(intervals))
  }

  method CollapseIntervalCount(carried: Option<seq<Event>>, intervals: seq<Sample>) returns (total: nat)
    ensures total == if PositiveLens(EvidenceOf(carried, intervals)) > MAX_INT then MAX_INT
                     else PositiveLens(EvidenceOf(carried, intervals))
  {
    var events;
    if carried.Some? {
      events := carried.value;
    } else {
      events := CollapseEvents(intervals);
    }
    total := 0;
    for i := 0 to |events|
      invariant total == PositiveLens(events[..i]) && total <= MAX_INT
    {
      assert events[..i + 1][..i] == events[..i];
      if events[i].len <= 0 {
        continue;
      }
      if events[i].len > MAX_INT - total {
        PrefixCounts(events, i + 1);
        return MAX_INT;
      }
      total := total + events[i].len;
    }
    assert events[..|events|] == events;
  }

  lemma {:induction false} PrefixCounts(events: seq<Event>, k: nat)
    requires k <= |events|
    ensures PositiveLens(events[..k]) <= PositiveLens(events)
  {
    if k < |events| {
      PrefixCounts(events[..|events| - 1], k);
      assert events[..|events| - 1][..k] == events[..k];
    } else {
      assert events[..k] == events;
    }
  }

  lemma {:induction false} LensArePositive(events: seq<Event>)
    requires forall i | 0 <= i < |events| :: events[i].len > 0
    ensures PositiveLens(events) == TotalLen(events)
  {
    if events != [] {
      LensArePositive(events[..|events| - 1]);
    }
  }

  /** A result that carries its own analysis and one recounted from its intervals give the same
      number: the intervals strictly below half the median. */
  lemma RecountAgrees(intervals: seq<Sample>, kept: seq<Sample>)
    ensures var rows := Analysed(intervals);
            && PositiveLens(EvidenceOf(Some(CollapsesIn(rows)), kept)) == PositiveLens(EvidenceOf(None, intervals))
            && PositiveLens(EvidenceOf(None, intervals))
                 == if Analysable(rows) then CountBelow(Rates(rows), Boundary(Rates(rows))) else 0
  {
    var rows := Analysed(intervals);
    if Analysable(rows) {
      CollapsesAreTheLowRuns(rows);
      var rates := Rates(rows);
      RunsInBounds(rates, Boundary(rates));
      LensArePositive(CollapsesIn(rows));
    }
  }
}
