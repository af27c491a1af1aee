/** The deduction table of the score under the shipped policy, in points. */
module ScoreLaws {
  import opened Wrappers
  import opened Machine
  import opened Evidence
  import opened Rules
  import opened RuleLaws
  import opened Score

  function AtMost(limit: real, x: real): real { if x > limit then limit else x }

  /** The wire: two points a CRC-class error up to 40, fifteen a carrier transition up to 45, ten for a
      renegotiation, 25 for half duplex, fifteen for a link below its expected speed; all of them add up. */
  lemma WireDeductions(f: Facts)
    ensures PhysicalPoints(WireOf(f)) ==
              AtMost(40.0, 2.0 * Corrupt(f) as real) + AtMost(45.0, 15.0 * Transitions(f) as real)
              + (if f.renegotiations >= 1 then 10.0 else 0.0) + (if f.halfDuplex then 25.0 else 0.0)
              + (if Slowed(f) then 15.0 else 0.0)
  {}

  /** One direction's transport: twenty points a percent of ping loss up to 40; fifteen for a sustained
      retransmission rate over 1%, else five for a burst; fifteen for over 2% UDP loss at target rate with
      the hosts not saturated, five from 0.5%. */
  lemma DirectionDeductions(d: Direction)
    ensures DirectionPoints(d, DEFAULT) ==
              (if d.ping.lossPct > 0.0 then AtMost(40.0, 20.0 * d.ping.lossPct) else 0.0)
              + (if Retransmits(d.tcp, 0.01) then 15.0 else if Bursts(d.tcp, 0.0001) then 5.0 else 0.0)
              + (if FairLoss(d.udp) && d.udp.lossPct > 2.0 then 15.0
                 else if FairLoss(d.udp) && d.udp.lossPct >= 0.5 then 5.0 else 0.0)
  {}

  // A direction whose own hosts were not saturated.
  predicate Counts(d: Tcp) { d.available && d.maxCPU <= 90.0 }

  predicate CovOver(d: Tcp, x: real) { Counts(d) && d.cov > x }
  predicate CovFrom(d: Tcp, x: real) { Counts(d) && d.cov >= x }

  lemma CovDeduction(a: Tcp, b: Tcp, negotiated: nat, clean: bool)
    ensures CovPoints(LoadOf(a, b, negotiated, clean, DEFAULT).cov, DEFAULT) ==
            if CovOver(a, 0.3) || CovOver(b, 0.3) then 15.0
            else if CovFrom(a, 0.15) || CovFrom(b, 0.15) then 5.0 else 0.0
  {}

  function Counted(d: Tcp): int { if Counts(d) then d.collapses else 0 }

  lemma CollapseDeduction(a: Tcp, b: Tcp, negotiated: nat, clean: bool)
    requires 0 <= a.collapses && 0 <= b.collapses && a.collapses + b.collapses <= MAX_INT
    ensures var l := LoadOf(a, b, negotiated, clean, DEFAULT);
            Min(20.0, 5.0 * SaturatingTotal(l.collapses0, l.collapses1) as real)
              == AtMost(20.0, 5.0 * (Counted(a) + Counted(b)) as real)
  {}

  predicate Rated(d: Tcp, negotiated: nat, clean: bool, s: Severity) { Counts(d) && Assess(d, negotiated, clean, DEFAULT) == s }

  lemma AssessedLevels(d: Tcp, negotiated: nat, clean: bool)
    ensures NOTHING <= Assess(d, negotiated, clean, DEFAULT) <= POOR
  {}

  lemma ThroughputDeduction(a: Tcp, b: Tcp, negotiated: nat, clean: bool)
    ensures ThroughputPoints(LoadOf(a, b, negotiated, clean, DEFAULT).worst) ==
            if Rated(a, negotiated, clean, POOR) || Rated(b, negotiated, clean, POOR) then 25.0
            else if Rated(a, negotiated, clean, WARNING) || Rated(b, negotiated, clean, WARNING) then 10.0 else 0.0
  {
    AssessedLevels(a, negotiated, clean);
    AssessedLevels(b, negotiated, clean);
  }

  predicate Lopsided(a: Tcp, b: Tcp) { a.senderMaxCPU <= 90.0 && b.senderMaxCPU <= 90.0 && Uneven(a, b) }

  lemma AsymmetryDeduction(a: Tcp, b: Tcp)
    ensures AsymmetryCounts(a, b, DEFAULT) <==> Lopsided(a, b)
  {}

  /** Performance, over the directions whose hosts were not saturated: variation over 30% fifteen points,
      from 15% five; five a collapse up to twenty; poor throughput 25, a warning ten; five for a lopsided
      link whose senders were not saturated. */
  lemma PerformanceDeductions(f: Facts)
    requires 0 <= f.d0.tcp.collapses && 0 <= f.d1.tcp.collapses && f.d0.tcp.collapses + f.d1.tcp.collapses <= MAX_INT
    ensures var a, b := f.d0.tcp, f.d1.tcp; var clean := PhysicalLayerClean(f, DEFAULT);
            HostFreePoints(f, DEFAULT) ==
              (if CovOver(a, 0.3) || CovOver(b, 0.3) then 15.0 else if CovFrom(a, 0.15) || CovFrom(b, 0.15) then 5.0 else 0.0)
              + AtMost(20.0, 5.0 * (Counted(a) + Counted(b)) as real)
              + (if Rated(a, f.negotiated, clean, POOR) || Rated(b, f.negotiated, clean, POOR) then 25.0
                 else if Rated(a, f.negotiated, clean, WARNING) || Rated(b, f.negotiated, clean, WARNING) then 10.0 else 0.0)
              + (if Lopsided(a, b) then 5.0 else 0.0)
  {
    var clean := PhysicalLayerClean(f, DEFAULT);
    CovDeduction(f.d0.tcp, f.d1.tcp, f.negotiated, clean);
    CollapseDeduction(f.d0.tcp, f.d1.tcp, f.negotiated, clean);
    ThroughputDeduction(f.d0.tcp, f.d1.tcp, f.negotiated, clean);
    AsymmetryDeduction(f.d0.tcp, f.d1.tcp);
  }

  /** A run with no deduction at all keeps its hundred points, and a single symptom costs exactly its
      entry in the table: full-size loss 20, jitter 5, half duplex 25. */
  lemma SingleSymptoms(f: Facts)
    requires Raw(f, false, false, DEFAULT) == 100.0 && !f.halfDuplex
    requires PhysicalPoints(WireOf(f)) == DirectionPoints(f.d0, DEFAULT) == DirectionPoints(f.d1, DEFAULT) == 0.0
    requires HostFreePoints(f, DEFAULT) == 0.0 && HostFreePoints(f.(halfDuplex := true), DEFAULT) == 0.0
    ensures Raw(f, true, false, DEFAULT) == 80.0
    ensures Raw(f.(halfDuplex := true), false, false, DEFAULT) == 75.0
    ensures Raw(f, false, true, DEFAULT) == 100.0
  {
    WireDeductions(f);
    WireDeductions(f.(halfDuplex := true));
  }

  /** Every deduction counts, none twice: the raw score is a hundred less the wire's, both directions',
      twenty for full-size loss, the performance part unless hosts were measured to be the bottleneck, and
      five for jitter over 5 ms. */
  lemma RawAddsUp(f: Facts, fullSizeLoss: bool, hostBound: bool)
    ensures Raw(f, fullSizeLoss, hostBound, DEFAULT)
              + PhysicalPoints(WireOf(f)) + DirectionPoints(f.d0, DEFAULT) + DirectionPoints(f.d1, DEFAULT)
              + (if fullSizeLoss then 20.0 else 0.0) + (if hostBound then 0.0 else HostFreePoints(f, DEFAULT))
              + (if f.d0.udp.jitterMs > 5.0 || f.d1.udp.jitterMs > 5.0 then 5.0 else 0.0)
            == 100.0
  {}

  /** Rounding goes to the nearest integer, halves away from zero. */
  lemma RoundLaw(x: real)
    ensures -0.5 <= Round(x) as real - x <= 0.5
    ensures x - x.Floor as real == 0.5 ==> Round(x) == if x >= 0.0 then x.Floor + 1 else x.Floor
  {}

  /** The bands: FAILED 0 to 25, POOR to 50, WARNING to 79, GOOD to 94, EXCELLENT to 100; a score inside its
      class's band is kept, one outside is moved to the nearer end. */
  lemma BandLaws(v: int, c: HealthClass)
    requires !c.Inconclusive?
    ensures var low := match c case Failed => 0 case Poor => 26 case Warned => 51 case Good => 80 case _ => 95;
            var high := match c case Failed => 25 case Poor => 50 case Warned => 79 case Good => 94 case _ => 100;
            Clamp(v, BandOf(c, DEFAULT)) == if v < low then low else if v > high then high else v
  {}
}
