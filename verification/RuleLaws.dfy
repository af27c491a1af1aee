/** What each rule finds under the shipped policy, in numbers. */
module RuleLaws {
  import opened Machine
  import opened Evidence
  import opened Rules

  // Errors of the sides whose deltas are reliable.
  function Both(f: Facts, n1: nat, n2: nat): nat { (if f.pc1.deltaOK then n1 else 0) + (if f.pc2.deltaOK then n2 else 0) }

  function Classified(f: Facts): nat { Both(f, f.pc1.crcClassErrors, f.pc2.crcClassErrors) }
  function Corrupt(f: Facts): nat {
    Both(f, f.pc1.crcClassErrors + f.pc1.unclassifiedRX, f.pc2.crcClassErrors + f.pc2.unclassifiedRX)
  }

  function Transitions(f: Facts): nat {
    if f.pc1.deltaOK && f.pc2.deltaOK then
      (if f.pc1.carrierEvents > f.pc2.carrierEvents then f.pc1.carrierEvents else f.pc2.carrierEvents)
    else if f.pc1.deltaOK then f.pc1.carrierEvents
    else if f.pc2.deltaOK then f.pc2.carrierEvents
    else f.monitorTransitions
  }

  predicate Slowed(f: Facts) { 0 < f.negotiated < f.expected }

  // --- The wire ---

  /** CRC-class errors: more than ten with over 1% ping loss, or more than a thousand of which some are
      classified, fail; more than ten with some classified are poor; any other count warns. */
  lemma CrcLaw(f: Facts)
    ensures var n := Corrupt(f); var lossy := f.d0.ping.lossPct > 1.0 || f.d1.ping.lossPct > 1.0;
            SeverityOf(PHY02, f, DEFAULT) ==
              if n == 0 then NOTHING
              else if (n > 10 && lossy) || (n > 1000 && Classified(f) > 0) then FAILED
              else if n > 10 && Classified(f) > 0 then POOR
              else WARNING
  {}

  /** A link down at the end fails; carrier transitions are poor and from the third on fail; a
      renegotiation and half duplex are poor. */
  lemma LinkLaw(f: Facts)
    ensures SeverityOf(PHY01, f, DEFAULT) == if f.linkUpAtEnd then NOTHING else FAILED
    ensures SeverityOf(PHY03, f, DEFAULT) ==
            if Transitions(f) == 0 then NOTHING else if Transitions(f) <= 2 then POOR else FAILED
    ensures SeverityOf(PHY04, f, DEFAULT) == if f.renegotiations >= 1 then POOR else NOTHING
    ensures SeverityOf(PHY05, f, DEFAULT) == if f.halfDuplex then POOR else NOTHING
  {}

  /** Below the expected speed warns, at half of it or less is poor, and with any CRC-class error is
      poor in its own right. */
  lemma SpeedLaw(f: Facts)
    ensures SeverityOf(PHY06, f, DEFAULT) ==
            if !Slowed(f) then NOTHING else if 2 * f.negotiated <= f.expected then POOR else WARNING
    ensures SeverityOf(PHY07, f, DEFAULT) == if Slowed(f) && Corrupt(f) > 0 then POOR else NOTHING
  {
    if Slowed(f) {
      HalfLaw(f.negotiated, f.expected);
    }
  }

  lemma HalfLaw(a: nat, b: nat)
    requires b > 0
    ensures a as real / b as real <= 0.5 <==> 2 * a <= b
  {
    var q := a as real / b as real;
    assert q * b as real == a as real;
    if q <= 0.5 {
      assert q * b as real <= 0.5 * b as real;
    } else {
      assert q * b as real > 0.5 * b as real;
    }
  }

  predicate AnyPair(pairs: seq<Pair>, p: Pair) { exists i | 0 <= i < |pairs| :: pairs[i] == p }

  lemma {:induction false} WorstPairLaw(pairs: seq<Pair>)
    ensures WorstPair(pairs) ==
            if AnyPair(pairs, PairOpen) || AnyPair(pairs, PairShortIntra) || AnyPair(pairs, PairShortInter) then FAILED
            else if AnyPair(pairs, PairImpedance) then POOR
            else if AnyPair(pairs, PairUnspecified) then WARNING
            else NOTHING
  {
    if pairs != [] {
      var cut := pairs[..|pairs| - 1];
      WorstPairLaw(cut);
      forall p ensures AnyPair(pairs, p) <==> AnyPair(cut, p) || pairs[|pairs| - 1] == p {
        assert forall i | 0 <= i < |cut| :: cut[i] == pairs[i];
      }
    }
  }

  /** Cable diagnostics: an open or shorted pair fails, an impedance fault is poor, an unspecified one
      warns, and only a test that ran counts. */
  lemma CableLaw(f: Facts)
    ensures var any := (p: Pair) => f.cableTestRan && AnyPair(f.pairs, p);
            SeverityOf(PHY08, f, DEFAULT) ==
              if any(PairOpen) || any(PairShortIntra) || any(PairShortInter) then FAILED
              else if any(PairImpedance) then POOR
              else if any(PairUnspecified) then WARNING
              else NOTHING
  {
    WorstPairLaw(if f.cableTestRan then f.pairs else []);
  }

  predicate HeavyUdpLoss(u: Udp) { u.available && u.targetReached && u.lossPct > 2.0 }

  /** Frame-size errors warn and above ten are poor; carrier and PHY errors likewise, failing above a
      thousand; over 2% UDP loss at target rate together with CRC-class errors fails. */
  lemma CounterLaw(f: Facts)
    ensures var n := Both(f, f.pc1.jabberSize, f.pc2.jabberSize);
            SeverityOf(PHY09, f, DEFAULT) == if n == 0 then NOTHING else if n <= 10 then WARNING else POOR
    ensures var n := Both(f, f.pc1.carrierPHY, f.pc2.carrierPHY);
            SeverityOf(PHY11, f, DEFAULT) ==
              if n == 0 then NOTHING else if n <= 10 then WARNING else if n <= 1000 then POOR else FAILED
    ensures SeverityOf(PHY10, f, DEFAULT) ==
            if Corrupt(f) > 0 && (HeavyUdpLoss(f.d0.udp) || HeavyUdpLoss(f.d1.udp)) then FAILED else NOTHING
  {}

  // --- Transport ---

  /** Any ping loss warns and more than 0.1% is poor; full-size loss alone is poor; fragmentation
      failures and duplicates warn; a reply gap over a second is poor and more than five spikes warn. */
  lemma PingLaw(f: Facts)
    ensures var a, b := f.d0.ping, f.d1.ping;
            && SeverityOf(TR01, f, DEFAULT) ==
               (if a.lossPct > 0.1 || b.lossPct > 0.1 then POOR else if a.lossPct > 0.0 || b.lossPct > 0.0 then WARNING else NOTHING)
            && SeverityOf(TR02, f, DEFAULT) ==
               (if (a.fullSizeAvailable && a.fullSizeLossPct > 0.0 && a.lossPct == 0.0)
                   || (b.fullSizeAvailable && b.fullSizeLossPct > 0.0 && b.lossPct == 0.0) then POOR else NOTHING)
            && SeverityOf(TR03, f, DEFAULT) == (if a.fragErrors + b.fragErrors == 0 then NOTHING else WARNING)
            && SeverityOf(TR04, f, DEFAULT) == (if a.duplicates + b.duplicates == 0 then NOTHING else WARNING)
            && SeverityOf(TR05, f, DEFAULT) ==
               (if a.maxGap > 1_000_000_000 || b.maxGap > 1_000_000_000 then POOR
                else if a.spikes > 5 || b.spikes > 5 then WARNING else NOTHING)
  {}

  predicate Retransmits(d: Tcp, above: real) { d.available && d.retransRate > above }
  predicate Bursts(d: Tcp, at: real) { d.available && (d.retransRate >= at || d.retransWorst >= at) }

  /** A sustained retransmission rate over 1% is poor, any trial at 0.01% or more warns. */
  lemma RetransLaw(f: Facts)
    ensures var a, b := f.d0.tcp, f.d1.tcp;
            SeverityOf(TR06, f, DEFAULT) ==
              if Retransmits(a, 0.01) || Retransmits(b, 0.01) then POOR
              else if Bursts(a, 0.0001) || Bursts(b, 0.0001) then WARNING
              else NOTHING
  {}

  predicate FairLoss(u: Udp) { u.available && u.targetReached && u.maxCPU <= 90.0 }

  /** UDP loss at target rate with the hosts not saturated: from 0.5% warns, over 2% is poor; jitter over
      5 ms and reordering over 0.1% warn. */
  lemma UdpLaw(f: Facts)
    ensures var a, b := f.d0.udp, f.d1.udp;
            && SeverityOf(TR07, f, DEFAULT) ==
               (if (FairLoss(a) && a.lossPct > 2.0) || (FairLoss(b) && b.lossPct > 2.0) then POOR
                else if (FairLoss(a) && a.lossPct >= 0.5) || (FairLoss(b) && b.lossPct >= 0.5) then WARNING else NOTHING)
            && SeverityOf(TR08, f, DEFAULT) ==
               (if (a.available && a.jitterMs > 5.0) || (b.available && b.jitterMs > 5.0) then WARNING else NOTHING)
            && SeverityOf(TR09, f, DEFAULT) ==
               (if (a.available && a.outOfOrderPct > 0.1) || (b.available && b.outOfOrderPct > 0.1) then WARNING else NOTHING)
  {}

  // --- Performance ---

  /** The throughput bands: up to 100 Mbit/s nothing passes silently and below 70% is poor; above that
      90% passes, 70% informs, 40% warns, and less is poor; an unknown speed says nothing. */
  lemma BandLaw(measured: nat, negotiated: nat)
    ensures ClassifyThroughput(measured, negotiated, DEFAULT) ==
            if negotiated == 0 then NOTHING
            else
              var ratio := measured as real / negotiated as real;
              if negotiated <= 100_000_000 then
                (if ratio >= 0.9 then INFO else if ratio >= 0.7 then WARNING else POOR)
              else
                (if ratio >= 0.9 then NOTHING else if ratio >= 0.7 then INFO else if ratio >= 0.4 then WARNING else POOR)
  {}

  /** The cap: a poor aggregate becomes a warning exactly when one of at least two trials fell short and
      the wire is clean. */
  lemma CapLaw(d: Tcp, negotiated: nat, clean: bool, t: Thresholds)
    ensures var s := ClassifyThroughput(d.bitrate, negotiated, t);
            Assess(d, negotiated, clean, t) ==
              if s == POOR && d.trials >= 2 && d.deviations == 1 && clean then WARNING else s
  {}

  // The wire is clean: both sides measured receive errors reliably and no physical rule found anything.
  lemma CleanLaw(f: Facts, t: Thresholds)
    ensures PhysicalLayerClean(f, t) <==>
              && f.pc1.deltaOK && f.pc2.deltaOK && f.pc1.rxErrorEvidence && f.pc2.rxErrorEvidence
              && (forall r | CategoryOf(r) == Physical :: SeverityOf(r, f, t) == NOTHING)
  {
    forall r | CategoryOf(r) == Physical ensures r in PHYSICAL_RULES {
      PhysicalRulesAreListed(r);
    }
    forall r | r in PHYSICAL_RULES ensures CategoryOf(r) == Physical {}
  }

  lemma PhysicalRulesAreListed(r: RuleId)
    requires CategoryOf(r) == Physical
    ensures r in PHYSICAL_RULES
  {
    match r
    case PHY01 => assert PHYSICAL_RULES[0] == r;
    case PHY02 => assert PHYSICAL_RULES[1] == r;
    case PHY03 => assert PHYSICAL_RULES[2] == r;
    case PHY04 => assert PHYSICAL_RULES[3] == r;
    case PHY05 => assert PHYSICAL_RULES[4] == r;
    case PHY06 => assert PHYSICAL_RULES[5] == r;
    case PHY07 => assert PHYSICAL_RULES[6] == r;
    case PHY08 => assert PHYSICAL_RULES[7] == r;
    case PHY09 => assert PHYSICAL_RULES[8] == r;
    case PHY10 => assert PHYSICAL_RULES[9] == r;
    case PHY11 => assert PHYSICAL_RULES[10] == r;
  }

  /** PERF-01 is the worse of the available directions. */
  lemma ThroughputLaw(f: Facts, t: Thresholds, s: Severity)
    requires s > NOTHING
    ensures var clean := PhysicalLayerClean(f, t);
            SeverityOf(PERF01, f, t) >= s <==>
              || (f.d0.tcp.available && Assess(f.d0.tcp, f.negotiated, clean, t) >= s)
              || (f.d1.tcp.available && Assess(f.d1.tcp, f.negotiated, clean, t) >= s)
  {}

  predicate Uneven(a: Tcp, b: Tcp) {
    && a.available && b.available && a.bitrate != b.bitrate
    && (if a.bitrate > b.bitrate then (a.bitrate - b.bitrate) as real / a.bitrate as real > 0.3
        else (b.bitrate - a.bitrate) as real / b.bitrate as real > 0.3)
  }

  /** Variation from 15% warns and over 30% is poor; collapses warn and from three on are poor; a
      difference of more than 30% between the directions warns. */
  lemma StabilityLaw(f: Facts)
    ensures var a, b := f.d0.tcp, f.d1.tcp;
            && SeverityOf(PERF02, f, DEFAULT) ==
               (if (a.available && a.cov > 0.3) || (b.available && b.cov > 0.3) then POOR
                else if (a.available && a.cov >= 0.15) || (b.available && b.cov >= 0.15) then WARNING else NOTHING)
            && SeverityOf(PERF04, f, DEFAULT) == (if Uneven(a, b) then WARNING else NOTHING)
  {}

  lemma CollapseLaw(f: Facts)
    requires 0 <= f.d0.tcp.collapses && 0 <= f.d1.tcp.collapses && f.d0.tcp.collapses + f.d1.tcp.collapses <= MAX_INT
    ensures var n := f.d0.tcp.collapses + f.d1.tcp.collapses;
            SeverityOf(PERF03, f, DEFAULT) == if n == 0 then NOTHING else if n <= 2 then WARNING else POOR
  {}

  // --- Markers ---

  predicate Starved(s: Side) {
    var drops := s.fifoOverrun + s.missedErrors;
    s.deltaOK && drops > 0 && (drops > 100 || s.framesReceived == 0 || drops as real / s.framesReceived as real > 0.000001)
  }

  /** Host markers: CPU over 90% and a virtual interface. */
  lemma HostLaw(f: Facts)
    ensures SeverityOf(HOST01, f, DEFAULT) == if f.host.maxCPU > 90.0 then MARKER else NOTHING
    ensures SeverityOf(HOST02, f, DEFAULT) == if f.host.virtualInterface then MARKER else NOTHING
  {}

  /** A USB adapter marks the host when throughput fell short. */
  lemma UsbLaw(f: Facts)
    ensures SeverityOf(HOST03, f, DEFAULT) ==
            if f.host.usbAdapter && SeverityOf(PERF01, f, DEFAULT) != NOTHING then MARKER else NOTHING
  {}

  /** Receive-ring drops mark the host over one in a million or a hundred in all, on a side with reliable
      deltas. */
  lemma RingMarkerLaw(f: Facts)
    ensures SeverityOf(HOST04, f, DEFAULT) == if Starved(f.pc1) || Starved(f.pc2) then MARKER else NOTHING
  {
    RingLaw(f.pc1);
    RingLaw(f.pc2);
  }

  lemma RingLaw(s: Side)
    ensures RingLimited(s, DEFAULT) <==> Starved(s)
  {}

  predicate Reduced(name: string) {
    || name == "ping" || name == "udp" || name == "bidir" || name == "bidirectional" || name == "full_size_ping"
    || name == "fullsize_ping" || name == "cable_test" || name == "cable_test_tdr"
  }

  /** Critical evidence missing: no TCP result, no counters or no receive-error evidence at all. Coverage
      reduced: one direction, one side or a non-critical test missing. */
  lemma MissingEvidenceLaw(f: Facts)
    ensures SeverityOf(LIM01, f, DEFAULT) ==
            if (!f.d0.tcp.available && !f.d1.tcp.available) || (!f.pc1.countersAvailable && !f.pc2.countersAvailable)
               || (!f.pc1.rxErrorEvidence && !f.pc2.rxErrorEvidence) then MARKER else NOTHING
    ensures SeverityOf(LIM02, f, DEFAULT) ==
            if f.d0.tcp.available != f.d1.tcp.available || f.pc1.rxErrorEvidence != f.pc2.rxErrorEvidence
               || (exists i | 0 <= i < |f.host.unavailable| :: Reduced(f.host.unavailable[i])) then MARKER else NOTHING
  {
    AnyReduced(f.host.unavailable);
  }

  /** An interrupted run and an unreachable data port are markers; an assumed UDP rate only informs. */
  lemma RunLimitsLaw(f: Facts)
    ensures SeverityOf(LIM03, f, DEFAULT) == if f.host.partial then MARKER else NOTHING
    ensures SeverityOf(LIM04, f, DEFAULT) == if f.host.udpRateAssumed then INFO else NOTHING
    ensures SeverityOf(LIM05, f, DEFAULT) == if f.host.throughputUnreachable then MARKER else NOTHING
  {}

  lemma AnyReduced(names: seq<string>)
    ensures (exists n | n in names :: n in NONCRITICAL) <==> exists i | 0 <= i < |names| :: Reduced(names[i])
  {
    forall n ensures n in NONCRITICAL <==> Reduced(n) {
      NonCriticalNames(n);
    }
  }

  lemma NonCriticalNames(n: string)
    ensures n in NONCRITICAL <==> Reduced(n)
  {}

  // --- The list ---

  // The family a rule ID is printed with.
  function Family(r: RuleId): Category {
    if r.TR01? || r.TR02? || r.TR03? || r.TR04? || r.TR05? || r.TR06? || r.TR07? || r.TR08? || r.TR09? then Transport
    else if r.PERF01? || r.PERF02? || r.PERF03? || r.PERF04? then Performance
    else if r.HOST01? || r.HOST02? || r.HOST03? || r.HOST04? then HostCategory
    else if r.LIM01? || r.LIM02? || r.LIM03? || r.LIM04? || r.LIM05? then Limitation
    else Physical
  }

  /** Only TCP retransmissions and the four performance rules are symptoms a busy host can cause. */
  lemma FamilyLaw(r: RuleId)
    ensures CategoryOf(r) == Family(r)
    ensures HostSensitive(r) <==> r == TR06 || Family(r) == Performance
  {}

  // The rule's place in the list.
  function Rank(r: RuleId): nat {
    match r
    case PHY01 => 0
    case PHY02 => 1
    case PHY03 => 2
    case PHY04 => 3
    case PHY05 => 4
    case PHY06 => 5
    case PHY07 => 6
    case PHY08 => 7
    case PHY09 => 8
    case PHY10 => 9
    case PHY11 => 10
    case TR01 => 11
    case TR02 => 12
    case TR03 => 13
    case TR04 => 14
    case TR05 => 15
    case TR06 => 16
    case TR07 => 17
    case TR08 => 18
    case TR09 => 19
    case PERF01 => 20
    case PERF02 => 21
    case PERF03 => 22
    case PERF04 => 23
    case HOST01 => 24
    case HOST02 => 25
    case HOST03 => 26
    case HOST04 => 27
    case LIM01 => 28
    case LIM02 => 29
    case LIM03 => 30
    case LIM04 => 31
    case LIM05 => 32
  }

  /** Every rule is in the list exactly once, in the documented order. */
  lemma ListLaw(i: nat)
    requires i < |RULES|
    ensures |RULES| == 33 && Rank(RULES[i]) == i
  {
    if i < 11 {
      FirstRules(i);
    } else if i < 24 {
      MiddleRules(i);
    } else {
      LastRules(i);
    }
  }

  lemma FirstRules(i: nat)
    requires i < 11
    ensures |RULES| == 33 && Rank(RULES[i]) == i
  {}

  lemma MiddleRules(i: nat)
    requires 11 <= i < 24
    ensures |RULES| == 33 && Rank(RULES[i]) == i
  {}

  lemma LastRules(i: nat)
    requires 24 <= i < 33
    ensures |RULES| == 33 && Rank(RULES[i]) == i
  {}
}
