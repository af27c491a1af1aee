/** The soak plan: cycles that count only once they are complete, and the evaluator's check that
    none of their trials went missing. */
module Soak {
  import opened Wrappers
  import opened TrialAggregation

  type Measurement = int               // a ping, UDP or counter record, only ever carried along

  // --- What the environment answers ---

  // One TCP step: the result it records, if any, and whether the step succeeded. A skipped or
  // unreachable test records nothing and succeeds; a failed one may still record its partial.
  datatype TcpOutcome = TcpOutcome(record: Option<Trial>, ok: bool)
  datatype StepOutcome = StepOutcome(records: seq<Measurement>, ok: bool)

  datatype CycleScript = CycleScript(
    counters: Option<Measurement>,
    ping: StepOutcome,
    forward: nat -> TcpOutcome,        // the n-th repeat
    reverse: nat -> TcpOutcome,
    udp: StepOutcome,
    aside: Aside,                      // what the cycle's steps noted besides
    finalCounters: Option<Measurement>)

  // Notes, skipped tests and the two UDP rate flags.
  datatype Aside = Aside(notes: seq<Measurement>, skipped: seq<Measurement>, rateAssumed: bool, nearSaturation: bool)

  const NOTHING_ASIDE: Aside := Aside([], [], false, false)

  function Joined(a: Aside, b: Aside): Aside {
    Aside(a.notes + b.notes, a.skipped + b.skipped, a.rateAssumed || b.rateAssumed, a.nearSaturation || b.nearSaturation)
  }

  datatype Gap = Waited | BudgetRanOut | Interrupted

  // One turn of the loop that found budget left: the clock and the contexts decide the rest.
  datatype Round = Round(
    cancelled: bool,
    script: CycleScript,
    budgetStopped: bool,               // a failing cycle failed because the budget ran out
    spent: bool,                       // the budget is gone once the cycle is committed
    gap: Gap)

  // The budget lasts for the given rounds.
  datatype Environment = Environment(linkOk: bool, initialOk: bool, rounds: seq<Round>, finalOk: bool)

  datatype Config = Config(repeats: int, udp: bool, gap: bool)

  datatype Cycle = Cycle(ping: seq<Measurement>, tcp: seq<Trial>, udp: seq<Measurement>, aside: Aside, counters: Measurement)

  // --- Which cycles are committed ---

  function Repeats(n: int): nat { if n < 1 then 1 else n }

  function Labelled(o: TcpOutcome, direction: int): seq<Trial> {
    match o.record
    case Some(tr) => [tr.(direction := direction)]
    case None => []
  }

  predicate AllOk(steps: nat -> TcpOutcome, n: nat) { forall i | 0 <= i < n :: steps(i).ok }

  function Trials(steps: nat -> TcpOutcome, direction: int, n: nat): seq<Trial> {
    if n == 0 then [] else Trials(steps, direction, n - 1) + Labelled(steps(n - 1), direction)
  }

  // A cycle is complete when every step of it succeeded, the closing counters included.
  predicate Complete(c: CycleScript, cfg: Config) {
    && c.counters.Some? && c.ping.ok && AllOk(c.forward, Repeats(cfg.repeats)) && AllOk(c.reverse, Repeats(cfg.repeats))
    && (cfg.udp ==> c.udp.ok) && c.finalCounters.Some?
  }

  function Measured(c: CycleScript, cfg: Config): Cycle
    requires c.counters.Some?
  {
    Cycle(c.ping.records,
          Trials(c.forward, 0, Repeats(cfg.repeats)) + Trials(c.reverse, 1, Repeats(cfg.repeats)),
          if cfg.udp then c.udp.records else [], c.aside, c.counters.value)
  }

  // The loop goes on to another round after this one.
  predicate Continues(r: Round, cfg: Config) {
    !r.cancelled && Complete(r.script, cfg) && !r.spent && (cfg.gap ==> r.gap.Waited?)
  }

  predicate Commits(r: Round, cfg: Config) { !r.cancelled && Complete(r.script, cfg) }

  predicate Breaks(r: Round, cfg: Config) {
    || r.cancelled
    || (!Complete(r.script, cfg) && !r.budgetStopped)
    || (Complete(r.script, cfg) && !r.spent && cfg.gap && r.gap.Interrupted?)
  }

  function Committed(rounds: seq<Round>, cfg: Config): seq<Cycle>
    decreases |rounds|
  {
    if |rounds| == 0 || !Commits(rounds[0], cfg) then []
    else [Measured(rounds[0].script, cfg)] + (if Continues(rounds[0], cfg) then Committed(rounds[1..], cfg) else [])
  }

  predicate LoopFails(rounds: seq<Round>, cfg: Config)
    decreases |rounds|
  {
    |rounds| > 0 && (if Continues(rounds[0], cfg) then LoopFails(rounds[1..], cfg) else Breaks(rounds[0], cfg))
  }

  predicate SetUp(env: Environment) { env.linkOk && env.initialOk }

  function CommittedIn(env: Environment, cfg: Config): seq<Cycle> {
    if SetUp(env) then Committed(env.rounds, cfg) else []
  }

  predicate Fails(env: Environment, cfg: Config) {
    !SetUp(env) || LoopFails(env.rounds, cfg) || !env.finalOk
  }

  // --- Concatenation of committed cycles ---

  function Pings(cs: seq<Cycle>): seq<Measurement> {
    if cs == [] then [] else Pings(cs[..|cs| - 1]) + cs[|cs| - 1].ping
  }

  function Tcps(cs: seq<Cycle>): seq<Trial> {
    if cs == [] then [] else Tcps(cs[..|cs| - 1]) + cs[|cs| - 1].tcp
  }

  function Udps(cs: seq<Cycle>): seq<Measurement> {
    if cs == [] then [] else Udps(cs[..|cs| - 1]) + cs[|cs| - 1].udp
  }

  function Counters(cs: seq<Cycle>): seq<Measurement> {
    if cs == [] then [] else Counters(cs[..|cs| - 1]) + [cs[|cs| - 1].counters]
  }

  function Asides(cs: seq<Cycle>): Aside {
    if cs == [] then NOTHING_ASIDE else Joined(Asides(cs[..|cs| - 1]), cs[|cs| - 1].aside)
  }

  datatype Results = Results(ping: seq<Measurement>, tcp: seq<Trial>, udp: seq<Measurement>, aside: Aside,
                             counters: seq<Measurement>, cyclesCompleted: nat, incomplete: bool)

  // Results that hold exactly these cycles.
  function Holding(cs: seq<Cycle>, incomplete: bool): Results {
    Results(Pings(cs), Tcps(cs), Udps(cs), Asides(cs), Counters(cs), |cs|, incomplete)
  }

  lemma HoldingMore(cs: seq<Cycle>, c: Cycle)
    ensures Holding(cs + [c], false) ==
            Results(Pings(cs) + c.ping, Tcps(cs) + c.tcp, Udps(cs) + c.udp, Joined(Asides(cs), c.aside),
                    Counters(cs) + [c.counters], |cs| + 1, false)
  {
    assert (cs + [c])[..|cs|] == cs;
  }

  /** Cycles are folded in by appending, whole and in order; a flag of any of them is kept. */
  lemma {:induction false} HoldingConcat(a: seq<Cycle>, b: seq<Cycle>, marked: bool)
    ensures var x, y := Holding(a, marked), Holding(b, marked);
            Holding(a + b, marked) ==
              Results(x.ping + y.ping, x.tcp + y.tcp, x.udp + y.udp, Joined(x.aside, y.aside),
                      x.counters + y.counters, x.cyclesCompleted + y.cyclesCompleted, marked)
    decreases |b|
  {
    if b == [] {
      assert a + b == a;
      NothingAdded(Holding(a, marked));
    } else {
      HoldingConcat(a, b[..|b| - 1], marked);
      assert (a + b)[..|a + b| - 1] == a + b[..|b| - 1];
      var x, y, last := Holding(a, marked), Holding(b[..|b| - 1], marked), b[|b| - 1];
      assert x.ping + y.ping + last.ping == x.ping + (y.ping + last.ping);
      assert x.tcp + y.tcp + last.tcp == x.tcp + (y.tcp + last.tcp);
      assert x.udp + y.udp + last.udp == x.udp + (y.udp + last.udp);
      assert x.counters + y.counters + [last.counters] == x.counters + (y.counters + [last.counters]);
      JoinedAssociates(x.aside, y.aside, last.aside);
    }
  }

  lemma NothingAdded(x: Results)
    ensures Results(x.ping + [], x.tcp + [], x.udp + [], Joined(x.aside, NOTHING_ASIDE), x.counters + [], x.cyclesCompleted, x.incomplete) == x
  {
    assert x.ping + [] == x.ping && x.tcp + [] == x.tcp && x.udp + [] == x.udp && x.counters + [] == x.counters;
    assert x.aside.notes + [] == x.aside.notes && x.aside.skipped + [] == x.aside.skipped;
  }

  lemma JoinedAssociates(a: Aside, b: Aside, c: Aside)
    ensures Joined(Joined(a, b), c) == Joined(a, Joined(b, c))
  {}

  lemma HoldingOne(c: Cycle, marked: bool)
    ensures Holding([c], marked) == Results(c.ping, c.tcp, c.udp, c.aside, [c.counters], 1, marked)
  {
    var cs, none: seq<Cycle> := [c], [];
    assert cs[..|cs| - 1] == none && cs[|cs| - 1] == c;
    assert Pings(cs) == c.ping && Tcps(cs) == c.tcp && Udps(cs) == c.udp && Counters(cs) == [c.counters];
    assert Asides(cs) == Joined(NOTHING_ASIDE, c.aside);
    assert Asides(cs).notes == c.aside.notes && Asides(cs).skipped == c.aside.skipped;
  }

  datatype Status = GoOn | Stop | Fail

  // The committed cycles, added to those the loop already holds.
  function Folded(sofar: seq<Cycle>, rounds: seq<Round>, cfg: Config): seq<Cycle>
    decreases |rounds|
  {
    if |rounds| == 0 || !Commits(rounds[0], cfg) then sofar
    else
      var now := sofar + [Measured(rounds[0].script, cfg)];
      if Continues(rounds[0], cfg) then Folded(now, rounds[1..], cfg) else now
  }

  lemma {:induction false} FoldedIsCommitted(sofar: seq<Cycle>, rounds: seq<Round>, cfg: Config)
    ensures Folded(sofar, rounds, cfg) == sofar + Committed(rounds, cfg)
    decreases |rounds|
  {
    if |rounds| == 0 || !Commits(rounds[0], cfg) {
      assert sofar + [] == sofar;
    } else {
      var m := [Measured(rounds[0].script, cfg)];
      if Continues(rounds[0], cfg) {
        FoldedIsCommitted(sofar + m, rounds[1..], cfg);
        Regrouped(sofar, m, Committed(rounds[1..], cfg));
      } else {
        Regrouped(sofar, m, []);
      }
    }
  }

  lemma NextRound(sofar: seq<Cycle>, rounds: seq<Round>, i: nat, cfg: Config)
    requires i < |rounds|
    ensures var now := if Commits(rounds[i], cfg) then sofar + [Measured(rounds[i].script, cfg)] else sofar;
            Folded(sofar, rounds[i..], cfg) == if Continues(rounds[i], cfg) then Folded(now, rounds[i + 1..], cfg) else now
    ensures LoopFails(rounds[i..], cfg) ==
            if Continues(rounds[i], cfg) then LoopFails(rounds[i + 1..], cfg) else Breaks(rounds[i], cfg)
  {
    assert rounds[i..][0] == rounds[i] && rounds[i..][1..] == rounds[i + 1..];
  }

  lemma Regrouped(a: seq<Cycle>, b: seq<Cycle>, c: seq<Cycle>)
    ensures a + b + c == a + (b + c) && (c == [] ==> a + b + c == a + b)
  {}

  // --- The plan as it is written ---

  class SoakPlan {
    const cfg: Config
    var results: Results

    constructor (cfg: Config)
      ensures this.cfg == cfg && results == Holding([], false)
    {
      this.cfg := cfg;
      results := Results([], [], [], NOTHING_ASIDE, [], 0, false);
    }

    // Runs one direction's repeats against the cycle-local accumulator.
    method RunRepeats(steps: nat -> TcpOutcome, direction: int, acc: seq<Trial>) returns (ok: bool, tcp: seq<Trial>)
      ensures ok == AllOk(steps, Repeats(cfg.repeats))
      ensures ok ==> tcp == acc + Trials(steps, direction, Repeats(cfg.repeats))
    {
      tcp := acc;
      for i := 0 to Repeats(cfg.repeats)
        invariant AllOk(steps, i) && tcp == acc + Trials(steps, direction, i)
      {
        var outcome := steps(i);
        if outcome.record.Some? {
          tcp := tcp + [outcome.record.value.(direction := direction)];
        }
        if !outcome.ok {
          return false, tcp;
        }
      }
      return true, tcp;
    }

    method RunCycle(c: CycleScript) returns (r: Option<Cycle>)
      ensures r.Some? <==> Complete(c, cfg)
      ensures r.Some? ==> r.value == Measured(c, cfg)
    {
      if c.counters.None? || !c.ping.ok {
        return None;
      }
      var ok, tcp := RunRepeats(c.forward, 0, []);
      if !ok {
        return None;
      }
      ok, tcp := RunRepeats(c.reverse, 1, tcp);
      if !ok {
        return None;
      }
      var udp := [];
      if cfg.udp {
        if !c.udp.ok {
          return None;
        }
        udp := c.udp.records;
      }
      if c.finalCounters.None? {
        return None;
      }
      return Some(Cycle(c.ping.records, tcp, udp, c.aside, c.counters.value));
    }

    method CommitCycle(c: Cycle, ghost sofar: seq<Cycle>)
      requires results == Holding(sofar, false)
      modifies this
      ensures results == Holding(sofar + [c], false)
    {
      HoldingMore(sofar, c);
      results := results.(ping := results.ping + c.ping, tcp := results.tcp + c.tcp, udp := results.udp + c.udp,
                          aside := Joined(results.aside, c.aside), counters := results.counters + [c.counters], cyclesCompleted := results.cyclesCompleted + 1);
    }

    // One turn of the loop: whether to go on, stop, or stop with an error.
    method RunRound(r: Round, ghost sofar: seq<Cycle>) returns (status: Status, ghost now: seq<Cycle>)
      requires results == Holding(sofar, false)
      modifies this
      ensures status.GoOn? <==> Continues(r, cfg)
      ensures status.Fail? <==> !Continues(r, cfg) && Breaks(r, cfg)
      ensures now == if Commits(r, cfg) then sofar + [Measured(r.script, cfg)] else sofar
      ensures results == Holding(now, status.Fail?)
    {
      now := sofar;
      if r.cancelled {
        results := results.(incomplete := true);
        return Fail, now;
      }
      var cycle := RunCycle(r.script);
      if cycle.None? {
        if r.budgetStopped {
          return Stop, now;
        }
        results := results.(incomplete := true);
        return Fail, now;
      }
      CommitCycle(cycle.value, sofar);
      now := sofar + [cycle.value];
      if r.spent {
        return Stop, now;
      }
      if cfg.gap && !r.gap.Waited? {
        if r.gap.BudgetRanOut? {
          return Stop, now;
        }
        results := results.(incomplete := true);
        return Fail, now;
      }
      return GoOn, now;
    }

    // The cycle loop; `committed` is what it has folded in.
    method RunCycles(rounds: seq<Round>) returns (failed: bool, ghost committed: seq<Cycle>)
      requires results == Holding([], false)
      modifies this
      ensures committed == Committed(rounds, cfg) && failed == LoopFails(rounds, cfg)
      ensures results == Holding(committed, failed)
    {
      committed := [];
      FoldedIsCommitted([], rounds, cfg);
      assert rounds[0..] == rounds;
      var i := 0;
      while i < |rounds|
        invariant 0 <= i <= |rounds| && results == Holding(committed, false)
        invariant Folded(committed, rounds[i..], cfg) == Committed(rounds, cfg)
        invariant LoopFails(rounds[i..], cfg) == LoopFails(rounds, cfg)
      {
        NextRound(committed, rounds, i, cfg);
        var status;
        status, committed := RunRound(rounds[i], committed);
        if !status.GoOn? {
          return status.Fail?, committed;
        }
        i := i + 1;
      }
      return false, committed;
    }

    /** At every exit the results are exactly the concatenation of the committed cycles, and they
        are marked incomplete exactly when an error is returned. */
    method Run(env: Environment) returns (failed: bool)
      requires results == Holding([], false)
      modifies this
      ensures results == Holding(CommittedIn(env, cfg), failed)
      ensures failed == Fails(env, cfg)
    {
      failed := false;
      if !env.linkOk || !env.initialOk {
        results := results.(incomplete := true);
        failed := true;
      } else {
        ghost var committed;
        failed, committed := RunCycles(env.rounds);
      }
      if !env.finalOk {
        results := results.(incomplete := true);
        failed := true;
      }
    }
  }

  // --- No trial of a committed cycle goes missing unnoticed ---

  /** Committed cycles are the rounds themselves, in order and each complete; the loop went on
      past every one but the last. */
  lemma {:induction false} CommittedAreComplete(rounds: seq<Round>, cfg: Config, i: nat)
    requires i < |Committed(rounds, cfg)|
    ensures i < |rounds| && Commits(rounds[i], cfg) && Committed(rounds, cfg)[i] == Measured(rounds[i].script, cfg)
    ensures i > 0 ==> Continues(rounds[i - 1], cfg)
    decreases i
  {
    if i > 0 {
      CommittedAreComplete(rounds[1..], cfg, i - 1);
    }
  }

  // How many of the first n repeats recorded a result.
  function Recorded(steps: nat -> TcpOutcome, n: nat): nat {
    if n == 0 then 0 else Recorded(steps, n - 1) + (if steps(n - 1).record.Some? then 1 else 0)
  }

  /** A direction's trials are the results its repeats recorded, in order, under that direction. */
  lemma {:induction false} TrialsAreTheRecords(steps: nat -> TcpOutcome, direction: int, n: nat, k: nat)
    requires k < n
    ensures |Trials(steps, direction, n)| == Recorded(steps, n)
    ensures steps(k).record.Some? ==>
            Recorded(steps, k) < Recorded(steps, n)
            && Trials(steps, direction, n)[Recorded(steps, k)] == steps(k).record.value.(direction := direction)
  {
    if k < n - 1 {
      TrialsAreTheRecords(steps, direction, n - 1, k);
    } else {
      TrialsCount(steps, direction, n - 1);
    }
  }

  lemma {:induction false} TrialsCount(steps: nat -> TcpOutcome, direction: int, n: nat)
    ensures |Trials(steps, direction, n)| == Recorded(steps, n)
  {
    if n > 0 {
      TrialsCount(steps, direction, n - 1);
    }
  }

  /** A committed cycle had its opening counters, its ping, at least one TCP repeat and as many as configured
      each way, its UDP step where enabled and its closing counters succeed; it holds what those steps recorded,
      forward trials before reverse ones. */
  lemma CommittedCycleSucceeded(rounds: seq<Round>, cfg: Config, i: nat, k: nat)
    requires i < |Committed(rounds, cfg)| && (k == 0 || k < cfg.repeats)
    ensures i < |rounds| && !rounds[i].cancelled
    ensures var c := rounds[i].script;
            && c.counters.Some? && c.ping.ok && c.forward(k).ok && c.reverse(k).ok
            && (cfg.udp ==> c.udp.ok) && c.finalCounters.Some?
    ensures var c, m := rounds[i].script, Committed(rounds, cfg)[i];
            && m.counters == c.counters.value && m.ping == c.ping.records && m.aside == c.aside
            && m.udp == if cfg.udp then c.udp.records else []
    ensures var c, m := rounds[i].script, Committed(rounds, cfg)[i];
            var n := if cfg.repeats < 1 then 1 else cfg.repeats;
            var before := Recorded(c.forward, n);
            && |m.tcp| == before + Recorded(c.reverse, n)
            && (c.forward(k).record.Some? ==>
                  Recorded(c.forward, k) < before && m.tcp[Recorded(c.forward, k)] == c.forward(k).record.value.(direction := 0))
            && (c.reverse(k).record.Some? ==>
                  Recorded(c.reverse, k) < Recorded(c.reverse, n)
                  && m.tcp[before + Recorded(c.reverse, k)] == c.reverse(k).record.value.(direction := 1))
  {
    CommittedAreComplete(rounds, cfg, i);
    var n := Repeats(cfg.repeats);
    TrialsAreTheRecords(rounds[i].script.forward, 0, n, k);
    TrialsAreTheRecords(rounds[i].script.reverse, 1, n, k);
  }

  // A cycle none of whose steps failed is complete.
  lemma CompleteLaw(c: CycleScript, cfg: Config)
    ensures Complete(c, cfg) <==>
            && c.counters.Some? && c.finalCounters.Some? && c.ping.ok && (cfg.udp ==> c.udp.ok)
            && c.forward(0).ok && c.reverse(0).ok
            && forall k | 0 <= k < cfg.repeats :: c.forward(k).ok && c.reverse(k).ok
  {
    var n := Repeats(cfg.repeats);
    if Complete(c, cfg) {
      assert AllOk(c.forward, n) && AllOk(c.reverse, n);
    }
  }

  /** The first round the loop does not go on past decides: that round's cycle counts unless the round was
      cancelled or the cycle failed, and the plan errs when the round was cancelled, when its cycle failed for
      another reason than the budget, or when the wait after it was interrupted. */
  lemma {:induction false} LastRoundDecides(rounds: seq<Round>, cfg: Config, i: nat)
    requires i < |rounds| && (forall j | 0 <= j < i :: Continues(rounds[j], cfg)) && !Continues(rounds[i], cfg)
    ensures var r := rounds[i];
            && |Committed(rounds, cfg)| == (if !r.cancelled && Complete(r.script, cfg) then i + 1 else i)
            && (LoopFails(rounds, cfg) <==>
                  || r.cancelled
                  || (if Complete(r.script, cfg) then !r.spent && r.gap.Interrupted? else !r.budgetStopped))
    decreases i
  {
    if i > 0 {
      LastRoundDecides(rounds[1..], cfg, i - 1);
    }
  }

  // The loop goes on past a round whose cycle counts, leaves budget, and whose gap, if any, was waited out.
  lemma GoingOnLaw(r: Round, cfg: Config)
    ensures Continues(r, cfg) <==> !(r.cancelled || !Complete(r.script, cfg) || r.spent || (cfg.gap && r.gap != Waited))
  {}

  /** If it goes on past every round the budget allowed, every cycle counts and the loop ends without error. */
  lemma {:induction false} EveryRoundCounts(rounds: seq<Round>, cfg: Config)
    requires forall j | 0 <= j < |rounds| :: Continues(rounds[j], cfg)
    ensures |Committed(rounds, cfg)| == |rounds| && !LoopFails(rounds, cfg)
    decreases |rounds|
  {
    if rounds != [] {
      EveryRoundCounts(rounds[1..], cfg);
    }
  }

  function ExpectedTrials(cfg: Config, cycles: nat): int { if cfg.repeats <= 0 then 0 else cfg.repeats * cycles }

  // The evaluator's test for missing trials.
  predicate TrialsMissing(observed: nat, expected: int) { expected > 0 && observed < expected }

  function Observed(trials: seq<Trial>, direction: int): nat { Gather(trials, direction).observed }

  lemma {:induction false} ObservedConcat(a: seq<Trial>, b: seq<Trial>, direction: int)
    ensures Observed(a + b, direction) == Observed(a, direction) + Observed(b, direction)
    decreases |b|
  {
    if b == [] {
      assert a + b == a;
    } else {
      ObservedConcat(a, b[..|b| - 1], direction);
      assert (a + b)[..|a + b| - 1] == a + b[..|b| - 1];
    }
  }

  // Each repeat records at most one trial, in its own direction.
  lemma {:induction false} TrialsAtMost(steps: nat -> TcpOutcome, tag: int, n: nat, direction: int)
    ensures Observed(Trials(steps, tag, n), direction) <= if tag == direction then n else 0
  {
    if n > 0 {
      TrialsAtMost(steps, tag, n - 1, direction);
      ObservedConcat(Trials(steps, tag, n - 1), Labelled(steps(n - 1), tag), direction);
      OneRecord(steps(n - 1), tag, direction);
    }
  }

  lemma OneRecord(o: TcpOutcome, tag: int, direction: int)
    ensures Observed(Labelled(o, tag), direction) <= if tag == direction then 1 else 0
  {
    var xs := Labelled(o, tag);
    if o.record.Some? {
      assert xs[..|xs| - 1] == [];
      assert Gather(xs[..|xs| - 1], direction) == NONE_YET;
    }
  }

  lemma CycleAtMost(c: CycleScript, cfg: Config, direction: int)
    requires c.counters.Some? && (direction == 0 || direction == 1)
    ensures Observed(Measured(c, cfg).tcp, direction) <= Repeats(cfg.repeats)
  {
    var n := Repeats(cfg.repeats);
    TrialsAtMost(c.forward, 0, n, direction);
    TrialsAtMost(c.reverse, 1, n, direction);
    ObservedConcat(Trials(c.forward, 0, n), Trials(c.reverse, 1, n), direction);
  }

  predicate AtMostEach(cs: seq<Cycle>, direction: int, n: nat) {
    forall i | 0 <= i < |cs| :: Observed(cs[i].tcp, direction) <= n
  }

  predicate EachFull(cs: seq<Cycle>, direction: int, n: nat) {
    forall i | 0 <= i < |cs| :: Observed(cs[i].tcp, direction) == n
  }

  // A total of bounded parts reaches the bound exactly when every part does.
  lemma {:induction false} FullIffEachFull(cs: seq<Cycle>, direction: int, n: nat)
    requires AtMostEach(cs, direction, n)
    ensures Observed(Tcps(cs), direction) <= n * |cs|
    ensures Observed(Tcps(cs), direction) == n * |cs| <==> EachFull(cs, direction, n)
  {
    if cs != [] {
      var cut, last := cs[..|cs| - 1], cs[|cs| - 1];
      FullIffEachFull(cut, direction, n);
      ObservedConcat(Tcps(cut), last.tcp, direction);
      OneMorePart(Observed(Tcps(cut), direction), Observed(last.tcp, direction), n, |cut|);
      assert EachFull(cs, direction, n) <==> EachFull(cut, direction, n) && Observed(last.tcp, direction) == n;
    }
  }

  lemma OneMorePart(total: nat, part: nat, n: nat, k: nat)
    requires total <= n * k && part <= n
    ensures total + part <= n * (k + 1)
    ensures total + part == n * (k + 1) <==> total == n * k && part == n
  {
    assert n * (k + 1) == n * k + n;
  }

  /** For any run and either direction, the evaluator's expected-trial check passes exactly when
      every committed cycle recorded all of its trials. */
  lemma CheckPassesIffNothingIsMissing(env: Environment, cfg: Config, direction: int)
    requires cfg.repeats >= 1 && (direction == 0 || direction == 1)
    ensures var cs := CommittedIn(env, cfg); var r := Holding(cs, Fails(env, cfg));
            !TrialsMissing(Observed(r.tcp, direction), ExpectedTrials(cfg, r.cyclesCompleted))
            <==> forall i | 0 <= i < |cs| :: Observed(cs[i].tcp, direction) == cfg.repeats
  {
    var cs := CommittedIn(env, cfg);
    forall i | 0 <= i < |cs| ensures Observed(cs[i].tcp, direction) <= cfg.repeats {
      CommittedAreComplete(env.rounds, cfg, i);
      CycleAtMost(env.rounds[i].script, cfg, direction);
    }
    FullIffEachFull(cs, direction, cfg.repeats);
  }
}
