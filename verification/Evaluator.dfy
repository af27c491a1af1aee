/** The evaluation as a whole, and how its verdict moves when the evidence does. */
module Evaluator {
  import opened Wrappers
  import opened Evidence
  import opened Rules
  import opened Classification
  import opened Score

  function Class(f: Facts, t: Thresholds): HealthClass { Classify(Collect(RULES, f, t)) }

  function Grade(f: Facts, t: Thresholds): Option<int> { ScoreOf(f, Collect(RULES, f, t), Class(f, t), t) }

  method Evaluate(f: Facts, t: Thresholds) returns (c: HealthClass, score: Option<int>, fs: seq<Finding>)
    ensures fs == Collect(RULES, f, t) && c == Class(f, t) && score == Grade(f, t)
  {
    fs := CollectFindings(RULES, f, t);
    c := ClassifyFindings(fs);
    score := ScoreFor(f, fs, c, t);
  }

  // --- The findings of a rule list, rule by rule ---

  lemma {:induction false} CollectHas(rules: seq<RuleId>, f: Facts, t: Thresholds, r: RuleId)
    ensures HasFinding(Collect(rules, f, t), r) <==> r in rules && SeverityOf(r, f, t) != NOTHING
  {
    if rules != [] {
      var cut := rules[..|rules| - 1];
      CollectHas(cut, f, t, r);
      assert rules == cut + [rules[|rules| - 1]];
      HasAppend(Collect(cut, f, t), rules[|rules| - 1], SeverityOf(rules[|rules| - 1], f, t), r);
    }
  }

  lemma HasAppend(fs: seq<Finding>, last: RuleId, s: Severity, r: RuleId)
    ensures HasFinding(fs + (if s == NOTHING then [] else [FindingOf(last, s)]), r)
            == (HasFinding(fs, r) || (s != NOTHING && last == r))
  {
    if s != NOTHING {
      var gs := fs + [FindingOf(last, s)];
      assert gs[|fs|].rule == last;
      assert forall i | 0 <= i < |fs| :: gs[i] == fs[i];
    } else {
      assert fs + [] == fs;
    }
  }

  // The rule finds the same, or something worse on the ladder.
  predicate NoBetter(s: Severity, s': Severity) { s == s' || (NOTHING <= s < s' < MARKER) }

  lemma LastFinding(rules: seq<RuleId>, f: Facts, t: Thresholds, cats: set<Category>)
    requires rules != []
    ensures var last := rules[|rules| - 1];
            WorstIn(Collect(rules, f, t), cats) ==
              Max(WorstIn(Collect(rules[..|rules| - 1], f, t), cats),
                  (if SeverityOf(last, f, t) == NOTHING then NOTHING else Weight(FindingOf(last, SeverityOf(last, f, t)), cats)))
  {
    var before := Collect(rules[..|rules| - 1], f, t);
    WorstInAtLeast(before, cats);
    if SeverityOf(rules[|rules| - 1], f, t) == NOTHING {
      assert before + [] == before;
    } else {
      var fd := FindingOf(rules[|rules| - 1], SeverityOf(rules[|rules| - 1], f, t));
      assert (before + [fd])[..|before|] == before;
    }
  }

  lemma {:induction false} WorstNoBetter(rules: seq<RuleId>, f: Facts, g: Facts, t: Thresholds, cats: set<Category>)
    requires forall r | r in rules && CategoryOf(r) in cats :: NoBetter(SeverityOf(r, f, t), SeverityOf(r, g, t))
    ensures WorstIn(Collect(rules, f, t), cats) <= WorstIn(Collect(rules, g, t), cats)
  {
    if rules != [] {
      WorstNoBetter(rules[..|rules| - 1], f, g, t, cats);
      LastFinding(rules, f, t, cats);
      LastFinding(rules, g, t, cats);
      WorstInAtLeast(Collect(rules[..|rules| - 1], g, t), cats);
      var last := rules[|rules| - 1];
      assert CategoryOf(last) in cats ==> NoBetter(SeverityOf(last, f, t), SeverityOf(last, g, t));
    }
  }

  // --- Physical evidence is not softened ---

  lemma SameWireSameFinding(r: RuleId, f: Facts, g: Facts, t: Thresholds)
    requires WireOf(f) == WireOf(g) && CategoryOf(r) in PHYSICAL
    ensures SeverityOf(r, f, t) == SeverityOf(r, g, t)
  {}

  lemma SameWireSameWorst(f: Facts, g: Facts, t: Thresholds)
    requires WireOf(f) == WireOf(g)
    ensures WorstIn(Collect(RULES, f, t), PHYSICAL) == WorstIn(Collect(RULES, g, t), PHYSICAL)
  {
    forall r | r in RULES && CategoryOf(r) in PHYSICAL
      ensures NoBetter(SeverityOf(r, f, t), SeverityOf(r, g, t)) && NoBetter(SeverityOf(r, g, t), SeverityOf(r, f, t))
    {
      SameWireSameFinding(r, f, g, t);
    }
    WorstNoBetter(RULES, f, g, t, PHYSICAL);
    WorstNoBetter(RULES, g, f, t, PHYSICAL);
  }

  // The facts the physical rules read of one side, and of one direction's UDP runs.
  predicate SameSide(a: Side, b: Side) {
    && a.deltaOK == b.deltaOK
    && (a.deltaOK ==>
          && a.crcClassErrors == b.crcClassErrors && a.unclassifiedRX == b.unclassifiedRX
          && a.carrierEvents == b.carrierEvents && a.jabberSize == b.jabberSize && a.carrierPHY == b.carrierPHY)
  }

  predicate SameUdpLoss(a: Udp, b: Udp) {
    && (a.available && a.targetReached <==> b.available && b.targetReached)
    && (a.available && a.targetReached ==> a.lossPct == b.lossPct)
  }

  // Agreement on all inputs of the physical rules, and on nothing else.
  predicate SamePhysicalInputs(f: Facts, g: Facts) {
    && SameSide(f.pc1, g.pc1) && SameSide(f.pc2, g.pc2)
    && (!f.pc1.deltaOK && !f.pc2.deltaOK ==> f.monitorTransitions == g.monitorTransitions)
    && SameUdpLoss(f.d0.udp, g.d0.udp) && SameUdpLoss(f.d1.udp, g.d1.udp)
    && f.d0.ping.lossPct == g.d0.ping.lossPct && f.d1.ping.lossPct == g.d1.ping.lossPct
    && f.negotiated == g.negotiated && f.expected == g.expected
    && f.halfDuplex == g.halfDuplex && f.linkUpAtEnd == g.linkUpAtEnd
    && (f.renegotiations >= 1 <==> g.renegotiations >= 1)
    && f.cableTestRan == g.cableTestRan && (f.cableTestRan ==> f.pairs == g.pairs)
  }

  lemma SameInputsSameWire(f: Facts, g: Facts)
    requires SamePhysicalInputs(f, g)
    ensures WireOf(f) == WireOf(g)
  {}

  /** Two records that agree on the inputs of the physical rules, and differ in anything else,
      CPU load, adapters, ring drops, interruptions and skipped tests included, get the same class
      whenever the physical evidence of one is POOR or FAILED; and FAILED means exactly that. */
  lemma PhysicalEvidenceIsNotSoftened(f: Facts, g: Facts, t: Thresholds)
    requires SamePhysicalInputs(f, g)
    ensures WorstIn(Collect(RULES, f, t), PHYSICAL) >= POOR ==>
              Class(f, t) == Class(g, t) && (Class(f, t).Poor? || Class(f, t).Failed?)
    ensures Class(f, t).Failed? <==> WorstIn(Collect(RULES, f, t), PHYSICAL) == FAILED
    ensures Class(f, t).Failed? <==> Class(g, t).Failed?
  {
    SameInputsSameWire(f, g);
    SameWireSameWorst(f, g, t);
    PhysicalDecides(Collect(RULES, f, t));
    PhysicalDecides(Collect(RULES, g, t));
  }

  lemma PhysicalDecides(fs: seq<Finding>)
    ensures WorstIn(fs, PHYSICAL) >= POOR ==> Classify(fs) == if WorstIn(fs, PHYSICAL) == FAILED then Failed else Poor
    ensures Classify(fs).Failed? <==> WorstIn(fs, PHYSICAL) == FAILED
  {
    WorstStays(fs, PHYSICAL);
  }

  // --- More errors on the wire never help ---

  // Counters of one side that only a worse wire raises.
  predicate MoreOn(a: Side, b: Side) {
    && b == a.(crcClassErrors := b.crcClassErrors, unclassifiedRX := b.unclassifiedRX, carrierEvents := b.carrierEvents,
               jabberSize := b.jabberSize, carrierPHY := b.carrierPHY)
    && a.crcClassErrors <= b.crcClassErrors && a.unclassifiedRX <= b.unclassifiedRX
    && a.carrierEvents <= b.carrierEvents && a.jabberSize <= b.jabberSize && a.carrierPHY <= b.carrierPHY
  }

  // g is f with more physical errors, on either side and of any kind; nothing else differs.
  predicate RaisesErrors(f: Facts, g: Facts) {
    && g == f.(pc1 := g.pc1, pc2 := g.pc2, renegotiations := g.renegotiations, halfDuplex := g.halfDuplex,
               linkUpAtEnd := g.linkUpAtEnd, monitorTransitions := g.monitorTransitions)
    && MoreOn(f.pc1, g.pc1) && MoreOn(f.pc2, g.pc2)
    && f.renegotiations <= g.renegotiations && f.monitorTransitions <= g.monitorTransitions
    && (f.halfDuplex ==> g.halfDuplex) && (g.linkUpAtEnd ==> f.linkUpAtEnd)
  }

  // The same on the wire itself.
  predicate MoreErrors(w: Wire, w': Wire) {
    && w' == w.(crc := w'.crc, unclassified := w'.unclassified, carrier := w'.carrier, jabber := w'.jabber,
                carrierPHY := w'.carrierPHY, renegotiated := w'.renegotiated, halfDuplex := w'.halfDuplex,
                linkUpAtEnd := w'.linkUpAtEnd)
    && w.unclassified <= w'.unclassified && w.crc - w.unclassified <= w'.crc - w'.unclassified
    && w.unclassified <= w.crc
    && w.carrier <= w'.carrier && w.jabber <= w'.jabber && w.carrierPHY <= w'.carrierPHY
    && (w.renegotiated ==> w'.renegotiated) && (w.halfDuplex ==> w'.halfDuplex) && (w'.linkUpAtEnd ==> w.linkUpAtEnd)
  }

  // What such a change leaves alone.
  predicate SameElse(f: Facts, g: Facts, t: Thresholds) {
    && g.d0 == f.d0 && g.d1 == f.d1 && g.negotiated == f.negotiated && g.host == f.host
    && CoverageOf(g) == CoverageOf(f)
    && (RingLimited(g.pc1, t) || RingLimited(g.pc2, t)) == (RingLimited(f.pc1, t) || RingLimited(f.pc2, t))
    && g.pc1.deltaOK == f.pc1.deltaOK && g.pc2.deltaOK == f.pc2.deltaOK
  }

  lemma RaisedWire(f: Facts, g: Facts)
    requires RaisesErrors(f, g)
    ensures MoreErrors(WireOf(f), WireOf(g))
  {
    RaisedCarrier(f, g);
  }

  lemma RaisedCarrier(f: Facts, g: Facts)
    requires RaisesErrors(f, g)
    ensures CarrierEvents(f) <= CarrierEvents(g)
  {}

  lemma RaisedElse(f: Facts, g: Facts, t: Thresholds)
    requires RaisesErrors(f, g)
    ensures SameElse(f, g, t)
  {}

  lemma CrcSeverityClimbs(c: nat, u: nat, c': nat, u': nat, lossy: bool, t: Thresholds)
    requires u <= u' && 0 <= c - u <= c' - u'
    ensures NoBetter(CrcSeverity(c, u, lossy, t), CrcSeverity(c', u', lossy, t))
    ensures c' > 0 ==> WARNING <= CrcSeverity(c', u', lossy, t) < MARKER
  {}

  lemma PhysicalClimbs(r: RuleId, w: Wire, w': Wire, t: Thresholds)
    requires MoreErrors(w, w')
    ensures NoBetter(PhysicalSeverity(r, w, t), PhysicalSeverity(r, w', t))
  {
    match r
    case PHY02 => CrcSeverityClimbs(w.crc, w.unclassified, w'.crc, w'.unclassified, Lossy(w, t), t);
    case _ =>
  }

  predicate Fires(r: RuleId, w: Wire, t: Thresholds) { WARNING <= PhysicalSeverity(r, w, t) < MARKER }

  // A wire with more errors than before has a physical finding.
  lemma SomeRuleFires(w: Wire, w': Wire, t: Thresholds) returns (r: RuleId)
    requires MoreErrors(w, w') && w != w'
    ensures r in PHYSICAL_RULES && Fires(r, w', t)
  {
    CrcSeverityClimbs(w.crc, w.unclassified, w'.crc, w'.unclassified, Lossy(w, t), t);
    if w'.crc > w.crc {
      r := PHYSICAL_RULES[1];
    } else if w'.carrier > w.carrier {
      r := PHYSICAL_RULES[2];
    } else if w'.jabber > w.jabber {
      r := PHYSICAL_RULES[8];
    } else if w'.carrierPHY > w.carrierPHY {
      r := PHYSICAL_RULES[10];
    } else if w'.halfDuplex && !w.halfDuplex {
      r := PHYSICAL_RULES[4];
    } else if !w'.linkUpAtEnd && w.linkUpAtEnd {
      r := PHYSICAL_RULES[0];
    } else {
      r := PHYSICAL_RULES[3];
    }
  }

  // Everything below asks only this of the two records.
  predicate Worsened(f: Facts, g: Facts, t: Thresholds) {
    && SameElse(f, g, t) && MoreErrors(WireOf(f), WireOf(g))
    && exists r | r in PHYSICAL_RULES :: Fires(r, WireOf(g), t)
  }

  lemma NoLongerClean(f: Facts, g: Facts, t: Thresholds)
    requires Worsened(f, g, t)
    ensures !PhysicalLayerClean(g, t)
  {
    var r :| r in PHYSICAL_RULES && Fires(r, WireOf(g), t);
    assert PhysicalSeverity(r, WireOf(g), t) != NOTHING;
  }

  // Losing the isolated-outlier cap makes a direction worse, never silent.
  lemma LosingTheCap(d: Tcp, negotiated: nat, clean: bool, t: Thresholds)
    ensures NoBetter(Assess(d, negotiated, clean, t), Assess(d, negotiated, false, t))
    ensures NOTHING <= Assess(d, negotiated, clean, t) <= Assess(d, negotiated, false, t) <= POOR
    ensures Assess(d, negotiated, clean, t) == NOTHING <==> Assess(d, negotiated, false, t) == NOTHING
  {}

  lemma ThroughputClimbs(f: Facts, g: Facts, t: Thresholds)
    requires Worsened(f, g, t)
    ensures NoBetter(ThroughputSeverity(f, t), ThroughputSeverity(g, t))
    ensures ThroughputSeverity(f, t) == NOTHING <==> ThroughputSeverity(g, t) == NOTHING
  {
    NoLongerClean(f, g, t);
    LosingTheCap(f.d0.tcp, f.negotiated, PhysicalLayerClean(f, t), t);
    LosingTheCap(f.d1.tcp, f.negotiated, PhysicalLayerClean(f, t), t);
  }

  lemma SymptomClimbs(r: RuleId, f: Facts, g: Facts, t: Thresholds)
    requires Worsened(f, g, t) && CategoryOf(r) in SYMPTOMS
    ensures NoBetter(SeverityOf(r, f, t), SeverityOf(r, g, t))
  {
    if CategoryOf(r).Performance? {
      ThroughputClimbs(f, g, t);
      SamePerformance(r, f.d0.tcp, f.d1.tcp, ThroughputSeverity(f, t), ThroughputSeverity(g, t), t);
    }
  }

  lemma SamePerformance(r: RuleId, d0: Tcp, d1: Tcp, p: Severity, p': Severity, t: Thresholds)
    requires NoBetter(p, p')
    ensures NoBetter(PerformanceSeverity(r, d0, d1, p, t), PerformanceSeverity(r, d0, d1, p', t))
  {}

  lemma SameMarker(r: RuleId, f: Facts, g: Facts, t: Thresholds)
    requires Worsened(f, g, t) && (CategoryOf(r).HostCategory? || CategoryOf(r).Limitation?)
    ensures SeverityOf(r, f, t) == SeverityOf(r, g, t)
  {
    if CategoryOf(r).HostCategory? {
      ThroughputClimbs(f, g, t);
      SameHost(r, f.host, RingLimited(f.pc1, t) || RingLimited(f.pc2, t), ThroughputSeverity(f, t), ThroughputSeverity(g, t), t);
    }
  }

  lemma SameHost(r: RuleId, h: Host, ring: bool, p: Severity, p': Severity, t: Thresholds)
    requires p == NOTHING <==> p' == NOTHING
    ensures HostSeverity(r, h, ring, p, t) == HostSeverity(r, h, ring, p', t)
  {}

  // --- From rules to summaries to verdicts ---

  // Worse evidence under the same markers, with a wire that is no longer clean.
  predicate Worsens(s: Summary, s': Summary) {
    && s.worstPhysical <= s'.worstPhysical < MARKER && s.worstSymptom <= s'.worstSymptom
    && s'.worstPhysical >= WARNING
    && s'.hostLimited == s.hostLimited && s'.virtualInterface == s.virtualInterface
    && s'.untrusted == s.untrusted && s'.reduced == s.reduced
  }

  lemma VerdictWorsens(s: Summary, s': Summary)
    requires Worsens(s, s')
    ensures !Verdict(s).Inconclusive? ==> !Verdict(s').Inconclusive? && Rung(Verdict(s)) <= Rung(Verdict(s'))
  {}

  lemma MarkersAgree(f: Facts, g: Facts, t: Thresholds, r: RuleId)
    requires Worsened(f, g, t) && (CategoryOf(r).HostCategory? || CategoryOf(r).Limitation?)
    ensures HasFinding(Collect(RULES, f, t), r) == HasFinding(Collect(RULES, g, t), r)
  {
    SameMarker(r, f, g, t);
    CollectHas(RULES, f, t, r);
    CollectHas(RULES, g, t, r);
  }

  lemma WireNoBetter(f: Facts, g: Facts, t: Thresholds)
    requires Worsened(f, g, t)
    ensures WorstIn(Collect(RULES, f, t), PHYSICAL) <= WorstIn(Collect(RULES, g, t), PHYSICAL)
  {
    forall r | r in RULES && CategoryOf(r) in PHYSICAL ensures NoBetter(SeverityOf(r, f, t), SeverityOf(r, g, t)) {
      PhysicalClimbs(r, WireOf(f), WireOf(g), t);
    }
    WorstNoBetter(RULES, f, g, t, PHYSICAL);
  }

  lemma WireWorsens(f: Facts, g: Facts, t: Thresholds)
    requires Worsened(f, g, t)
    ensures WorstIn(Collect(RULES, f, t), PHYSICAL) <= WorstIn(Collect(RULES, g, t), PHYSICAL)
    ensures WARNING <= WorstIn(Collect(RULES, g, t), PHYSICAL) < MARKER
  {
    WireNoBetter(f, g, t);
    WorstStays(Collect(RULES, g, t), PHYSICAL);
    var r :| r in PHYSICAL_RULES && Fires(r, WireOf(g), t);
    PhysicalIsListed(r);
    WorstCoversRule(RULES, g, t, r);
  }

  lemma PhysicalIsListed(r: RuleId)
    requires r in PHYSICAL_RULES
    ensures r in RULES && CategoryOf(r) in PHYSICAL
  {
    var i :| 0 <= i < |PHYSICAL_RULES| && PHYSICAL_RULES[i] == r;
    assert RULES[i] == r;
  }

  // A physical rule's finding is part of the worst.
  lemma {:induction false} WorstCoversRule(rules: seq<RuleId>, f: Facts, t: Thresholds, r: RuleId)
    requires r in rules && CategoryOf(r) in PHYSICAL && NOTHING < SeverityOf(r, f, t) < MARKER
    ensures WorstIn(Collect(rules, f, t), PHYSICAL) >= SeverityOf(r, f, t)
  {
    LastFinding(rules, f, t, PHYSICAL);
    if rules[|rules| - 1] != r {
      assert r in rules[..|rules| - 1];
      WorstCoversRule(rules[..|rules| - 1], f, t, r);
    }
  }

  lemma SymptomsWorsen(f: Facts, g: Facts, t: Thresholds)
    requires Worsened(f, g, t)
    ensures WorstIn(Collect(RULES, f, t), SYMPTOMS) <= WorstIn(Collect(RULES, g, t), SYMPTOMS)
  {
    forall r | r in RULES && CategoryOf(r) in SYMPTOMS ensures NoBetter(SeverityOf(r, f, t), SeverityOf(r, g, t)) {
      SymptomClimbs(r, f, g, t);
    }
    WorstNoBetter(RULES, f, g, t, SYMPTOMS);
  }

  // The same markers were found.
  predicate SameMarkers(fs: seq<Finding>, gs: seq<Finding>) {
    && HasHostLimit(fs) == HasHostLimit(gs) && HasFinding(fs, HOST02) == HasFinding(gs, HOST02)
    && (HasFinding(fs, HOST03) || HasFinding(fs, HOST04)) == (HasFinding(gs, HOST03) || HasFinding(gs, HOST04))
    && (HasFinding(fs, LIM01) || HasFinding(fs, LIM03) || HasFinding(fs, LIM05))
       == (HasFinding(gs, LIM01) || HasFinding(gs, LIM03) || HasFinding(gs, LIM05))
    && HasFinding(fs, LIM02) == HasFinding(gs, LIM02)
  }

  lemma MarkersStay(f: Facts, g: Facts, t: Thresholds)
    requires Worsened(f, g, t)
    ensures SameMarkers(Collect(RULES, f, t), Collect(RULES, g, t))
  {
    forall r | IsMarker(r) ensures AgreeOn(Collect(RULES, f, t), Collect(RULES, g, t), r) {
      MarkersAgree(f, g, t, r);
    }
    AgreeingMarkers(Collect(RULES, f, t), Collect(RULES, g, t));
  }

  predicate IsMarker(r: RuleId) { CategoryOf(r).HostCategory? || CategoryOf(r).Limitation? }

  predicate AgreeOn(fs: seq<Finding>, gs: seq<Finding>, r: RuleId) { HasFinding(fs, r) == HasFinding(gs, r) }

  lemma AgreeingMarkers(fs: seq<Finding>, gs: seq<Finding>)
    requires forall r | IsMarker(r) :: AgreeOn(fs, gs, r)
    ensures SameMarkers(fs, gs)
  {
    AgreeingHosts(fs, gs);
    AgreeingLimits(fs, gs);
  }

  lemma AgreeingHosts(fs: seq<Finding>, gs: seq<Finding>)
    requires forall r | IsMarker(r) :: AgreeOn(fs, gs, r)
    ensures HasHostLimit(fs) == HasHostLimit(gs) && HasFinding(fs, HOST02) == HasFinding(gs, HOST02)
    ensures (HasFinding(fs, HOST03) || HasFinding(fs, HOST04)) == (HasFinding(gs, HOST03) || HasFinding(gs, HOST04))
  {
    assert AgreeOn(fs, gs, HOST01) && AgreeOn(fs, gs, HOST02) && AgreeOn(fs, gs, HOST03) && AgreeOn(fs, gs, HOST04);
  }

  lemma AgreeingLimits(fs: seq<Finding>, gs: seq<Finding>)
    requires forall r | IsMarker(r) :: AgreeOn(fs, gs, r)
    ensures (HasFinding(fs, LIM01) || HasFinding(fs, LIM03) || HasFinding(fs, LIM05))
            == (HasFinding(gs, LIM01) || HasFinding(gs, LIM03) || HasFinding(gs, LIM05))
    ensures HasFinding(fs, LIM02) == HasFinding(gs, LIM02)
  {
    assert AgreeOn(fs, gs, LIM01) && AgreeOn(fs, gs, LIM02) && AgreeOn(fs, gs, LIM03) && AgreeOn(fs, gs, LIM05);
  }

  lemma ListsWorsen(fs: seq<Finding>, gs: seq<Finding>)
    requires WorstIn(fs, PHYSICAL) <= WorstIn(gs, PHYSICAL) && WARNING <= WorstIn(gs, PHYSICAL) < MARKER
    requires WorstIn(fs, SYMPTOMS) <= WorstIn(gs, SYMPTOMS) && SameMarkers(fs, gs)
    ensures !Classify(fs).Inconclusive? ==> !Classify(gs).Inconclusive? && Rung(Classify(fs)) <= Rung(Classify(gs))
  {
    VerdictWorsens(Summarize(fs), Summarize(gs));
  }

  lemma ClassWorsens(f: Facts, g: Facts, t: Thresholds)
    requires Worsened(f, g, t)
    ensures !Class(f, t).Inconclusive? ==> !Class(g, t).Inconclusive? && Rung(Class(f, t)) <= Rung(Class(g, t))
  {
    WireWorsens(f, g, t);
    SymptomsWorsen(f, g, t);
    MarkersStay(f, g, t);
    ListsWorsen(Collect(RULES, f, t), Collect(RULES, g, t));
  }

  // --- The score ---

  lemma LoadWorsens(d0: Tcp, d1: Tcp, negotiated: nat, clean: bool, asymmetric: bool, t: Thresholds)
    ensures PerformancePoints(LoadOf(d0, d1, negotiated, clean, t), asymmetric, t)
              <= PerformancePoints(LoadOf(d0, d1, negotiated, false, t), asymmetric, t)
  {
    LosingTheCap(d0, negotiated, clean, t);
    LosingTheCap(d1, negotiated, clean, t);
    WorseCostsMore(LoadOf(d0, d1, negotiated, clean, t).worst, LoadOf(d0, d1, negotiated, false, t).worst);
  }

  lemma WorseCostsMore(s: Severity, s': Severity)
    requires NOTHING <= s <= s' <= POOR
    ensures ThroughputPoints(s) <= ThroughputPoints(s')
  {}

  lemma RawFalls(f: Facts, g: Facts, fullSizeLoss: bool, hostBound: bool, t: Thresholds)
    requires Worsened(f, g, t)
    ensures Raw(g, fullSizeLoss, hostBound, t) <= Raw(f, fullSizeLoss, hostBound, t)
  {
    NoLongerClean(f, g, t);
    LoadWorsens(f.d0.tcp, f.d1.tcp, f.negotiated, PhysicalLayerClean(f, t), AsymmetryCounts(f.d0.tcp, f.d1.tcp, t), t);
    WirePoints(WireOf(f), WireOf(g));
  }

  lemma WirePoints(w: Wire, w': Wire)
    requires MoreErrors(w, w')
    ensures PhysicalPoints(w) <= PhysicalPoints(w')
  {}

  lemma FullSizeLossAgrees(f: Facts, g: Facts, t: Thresholds)
    requires Worsened(f, g, t)
    ensures HasFinding(Collect(RULES, f, t), TR02) == HasFinding(Collect(RULES, g, t), TR02)
  {
    CollectHas(RULES, f, t, TR02);
    CollectHas(RULES, g, t, TR02);
  }

  // Same wire, same everything else: the same verdict.
  lemma SameEvidence(f: Facts, g: Facts, t: Thresholds)
    requires SameElse(f, g, t) && WireOf(f) == WireOf(g)
    ensures Class(f, t) == Class(g, t) && Grade(f, t) == Grade(g, t)
  {
    SameFindings(RULES, f, g, t);
    var fs := Collect(RULES, f, t);
    SameRaw(f, g, HasFinding(fs, TR02), HasFinding(fs, HOST03) || HasFinding(fs, HOST04), t);
  }

  lemma SameRaw(f: Facts, g: Facts, fullSizeLoss: bool, hostBound: bool, t: Thresholds)
    requires SameElse(f, g, t) && WireOf(f) == WireOf(g)
    ensures Raw(f, fullSizeLoss, hostBound, t) == Raw(g, fullSizeLoss, hostBound, t)
  {
    assert PhysicalLayerClean(f, t) == PhysicalLayerClean(g, t);
  }

  lemma {:induction false} SameFindings(rules: seq<RuleId>, f: Facts, g: Facts, t: Thresholds)
    requires SameElse(f, g, t) && WireOf(f) == WireOf(g)
    ensures Collect(rules, f, t) == Collect(rules, g, t)
  {
    if rules != [] {
      SameFindings(rules[..|rules| - 1], f, g, t);
      SameSeverity(rules[|rules| - 1], f, g, t);
    }
  }

  lemma SameSeverity(r: RuleId, f: Facts, g: Facts, t: Thresholds)
    requires SameElse(f, g, t) && WireOf(f) == WireOf(g)
    ensures SeverityOf(r, f, t) == SeverityOf(r, g, t)
  {
    assert PhysicalLayerClean(f, t) == PhysicalLayerClean(g, t);
  }

  /** Any more physical errors, on either side and of any kind, all other facts fixed: a verdict
      on the ladder stays on it and gets no better, and the score never rises, also when the
      change takes the isolated-outlier cap away. */
  lemma MoreErrorsNeverImprove(f: Facts, g: Facts, t: Thresholds)
    requires RaisesErrors(f, g) && BandsOrdered(t)
    ensures !Class(f, t).Inconclusive? ==>
              && !Class(g, t).Inconclusive? && Rung(Class(f, t)) <= Rung(Class(g, t))
              && Grade(f, t).Some? && Grade(g, t).Some? && Grade(g, t).value <= Grade(f, t).value
  {
    RaisedWire(f, g);
    RaisedElse(f, g, t);
    if WireOf(f) == WireOf(g) {
      SameEvidence(f, g, t);
    } else {
      var r := SomeRuleFires(WireOf(f), WireOf(g), t);
      ClassWorsens(f, g, t);
      GradeFalls(f, g, t);
    }
  }

  /** In particular: raising the CRC-class delta of one side. */
  lemma MoreCrcErrorsNeverImprove(f: Facts, g: Facts, t: Thresholds, crc: nat)
    requires BandsOrdered(t)
    requires || (crc >= f.pc1.crcClassErrors && g == f.(pc1 := f.pc1.(crcClassErrors := crc)))
             || (crc >= f.pc2.crcClassErrors && g == f.(pc2 := f.pc2.(crcClassErrors := crc)))
    ensures !Class(f, t).Inconclusive? ==>
              && !Class(g, t).Inconclusive? && Rung(Class(f, t)) <= Rung(Class(g, t))
              && Grade(f, t).Some? && Grade(g, t).Some? && Grade(g, t).value <= Grade(f, t).value
  {
    MoreErrorsNeverImprove(f, g, t);
  }

  lemma GradeFalls(f: Facts, g: Facts, t: Thresholds)
    requires Worsened(f, g, t) && BandsOrdered(t)
    ensures !Class(f, t).Inconclusive? && !Class(g, t).Inconclusive? && Rung(Class(f, t)) <= Rung(Class(g, t)) ==>
              Grade(f, t).Some? && Grade(g, t).Some? && Grade(g, t).value <= Grade(f, t).value
  {
    var fs := Collect(RULES, f, t);
    var loss, bound := HasFinding(fs, TR02), HasFinding(fs, HOST03) || HasFinding(fs, HOST04);
    FullSizeLossAgrees(f, g, t);
    MarkersStay(f, g, t);
    RawFalls(f, g, loss, bound, t);
    RoundIsMonotone(Raw(g, loss, bound, t), Raw(f, loss, bound, t));
    if !Class(f, t).Inconclusive? && !Class(g, t).Inconclusive? && Rung(Class(f, t)) <= Rung(Class(g, t)) {
      LowerClassScoresLower(Round(Raw(f, loss, bound, t)), Round(Raw(g, loss, bound, t)), Class(f, t), Class(g, t), t);
    }
  }
}
