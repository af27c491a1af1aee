/** The fixed rule list. Each rule is the severity it finds, `NOTHING` when it passes or does
    not apply; the two directions of a rule combine to the worse one. */
module Rules {
  import opened Machine
  import opened Evidence

  function Max(a: Severity, b: Severity): Severity { if a >= b then a else b }
  function MaxReal(a: real, b: real): real { if a >= b then a else b }

  // --- The physical layer: everything its rules look at ---

  datatype Wire = Wire(
    crc: nat,                          // reliable CRC-class and unexplained receive errors
    unclassified: nat,                 // the unexplained part of it
    carrier: nat,
    jabber: nat,
    carrierPHY: nat,
    linkUpAtEnd: bool,
    halfDuplex: bool,
    renegotiated: bool,
    negotiated: nat,
    expected: nat,
    pairs: seq<Pair>,                  // of a cable test that ran
    pingLoss0: real,
    pingLoss1: real,
    udp0: TargetLoss,
    udp1: TargetLoss)

  // UDP loss is physical evidence only where the sender reached its target rate.
  datatype TargetLoss = NotAtTarget | AtTarget(lossPct: real)

  function LossAtTarget(u: Udp): TargetLoss { if u.available && u.targetReached then AtTarget(u.lossPct) else NotAtTarget }

  function Reliable(s: Side, n: nat): nat { if s.deltaOK then n else 0 }

  function CrcTotal(f: Facts): nat {
    Reliable(f.pc1, f.pc1.crcClassErrors + f.pc1.unclassifiedRX) + Reliable(f.pc2, f.pc2.crcClassErrors + f.pc2.unclassifiedRX)
  }

  function UnclassifiedTotal(f: Facts): nat { Reliable(f.pc1, f.pc1.unclassifiedRX) + Reliable(f.pc2, f.pc2.unclassifiedRX) }

  // The worse side's count, or the monitor's when no side has reliable deltas.
  function CarrierEvents(f: Facts): nat {
    if !f.pc1.deltaOK && !f.pc2.deltaOK then f.monitorTransitions
    else
      var a, b := Reliable(f.pc1, f.pc1.carrierEvents), Reliable(f.pc2, f.pc2.carrierEvents);
      if a >= b then a else b
  }

  function WireOf(f: Facts): Wire {
    Wire(CrcTotal(f), UnclassifiedTotal(f), CarrierEvents(f),
         Reliable(f.pc1, f.pc1.jabberSize) + Reliable(f.pc2, f.pc2.jabberSize),
         Reliable(f.pc1, f.pc1.carrierPHY) + Reliable(f.pc2, f.pc2.carrierPHY),
         f.linkUpAtEnd, f.halfDuplex, f.renegotiations >= 1, f.negotiated, f.expected,
         if f.cableTestRan then f.pairs else [],
         f.d0.ping.lossPct, f.d1.ping.lossPct, LossAtTarget(f.d0.udp), LossAtTarget(f.d1.udp))
  }

  // Unexplained errors alone never go past a warning unless pings were lost too.
  function CrcSeverity(crc: nat, unclassified: nat, lossy: bool, t: Thresholds): Severity {
    if crc == 0 then NOTHING
    else if crc > t.crcPoorAbove && lossy then FAILED
    else if crc == unclassified then WARNING
    else if crc > t.crcFailedAbove then FAILED
    else if crc > t.crcPoorAbove then POOR
    else WARNING
  }

  predicate Lossy(w: Wire, t: Thresholds) { w.pingLoss0 > t.crcPingLossAbove || w.pingLoss1 > t.crcPingLossAbove }

  predicate BelowExpectedSpeed(w: Wire) { w.negotiated > 0 && w.expected > 0 && w.negotiated < w.expected }

  function PairSeverity(p: Pair): Severity {
    match p
    case PairOpen => FAILED
    case PairShortIntra => FAILED
    case PairShortInter => FAILED
    case PairImpedance => POOR
    case PairUnspecified => WARNING
    case PairOk => NOTHING
    case PairUnknown => NOTHING
  }

  function WorstPair(pairs: seq<Pair>): Severity {
    if pairs == [] then NOTHING else Max(WorstPair(pairs[..|pairs| - 1]), PairSeverity(pairs[|pairs| - 1]))
  }

  predicate HeavyLoss(l: TargetLoss, t: Thresholds) { l.AtTarget? && l.lossPct > t.udpLossPoorAbove }

  function CountSeverity(n: nat, poorAbove: nat): Severity {
    if n == 0 then NOTHING else if n > poorAbove then POOR else WARNING
  }

  function PhysicalSeverity(r: RuleId, w: Wire, t: Thresholds): Severity {
    match r
    case PHY01 => if w.linkUpAtEnd then NOTHING else FAILED
    case PHY02 => CrcSeverity(w.crc, w.unclassified, Lossy(w, t), t)
    case PHY03 => if w.carrier == 0 then NOTHING else if w.carrier >= t.carrierFailedAt then FAILED else POOR
    case PHY04 => if w.renegotiated then POOR else NOTHING
    case PHY05 => if w.halfDuplex then POOR else NOTHING
    case PHY06 =>
      if !BelowExpectedSpeed(w) then NOTHING
      else if w.negotiated as real / w.expected as real <= t.negotiatedPoorAt then POOR else WARNING
    case PHY07 => if BelowExpectedSpeed(w) && w.crc > 0 then POOR else NOTHING
    case PHY08 => WorstPair(w.pairs)
    case PHY09 => CountSeverity(w.jabber, t.frameSizePoorAbove)
    case PHY10 => if w.crc > 0 && (HeavyLoss(w.udp0, t) || HeavyLoss(w.udp1, t)) then FAILED else NOTHING
    case PHY11 => if w.carrierPHY > t.carrierPHYFailedAbove && w.carrierPHY > 0 then FAILED
                  else CountSeverity(w.carrierPHY, t.carrierPHYPoorAbove)
    case _ => NOTHING
  }

  // --- Transport ---

  function PingLossSeverity(p: Ping, t: Thresholds): Severity {
    if p.lossPct <= 0.0 then NOTHING else if p.lossPct > t.pingLossPoorAbove then POOR else WARNING
  }

  predicate FullSizeOnlyLoss(p: Ping) { p.fullSizeAvailable && p.fullSizeLossPct > 0.0 && p.lossPct == 0.0 }

  function RttSeverity(p: Ping, t: Thresholds): Severity {
    if p.maxGap > t.pingGapPoorAbove then POOR else if p.spikes > t.pingSpikesWarningAbove then WARNING else NOTHING
  }

  // Only the rate sustained across trials convicts; one trial's burst warns.
  function RetransSeverity(d: Tcp, t: Thresholds): Severity {
    if !d.available || MaxReal(d.retransRate, d.retransWorst) < t.retransWarningAt then NOTHING
    else if d.retransRate > t.retransPoorAbove then POOR else WARNING
  }

  function UdpLossSeverity(u: Udp, t: Thresholds): Severity {
    if !u.available || !u.targetReached || u.maxCPU > t.cpuLimitedAbove || u.lossPct < t.udpLossWarningAt then NOTHING
    else if u.lossPct > t.udpLossPoorAbove then POOR else WARNING
  }

  function WarnIf(b: bool): Severity { if b then WARNING else NOTHING }

  function TransportSeverity(r: RuleId, d0: Direction, d1: Direction, t: Thresholds): Severity {
    match r
    case TR01 => Max(PingLossSeverity(d0.ping, t), PingLossSeverity(d1.ping, t))
    case TR02 => if FullSizeOnlyLoss(d0.ping) || FullSizeOnlyLoss(d1.ping) then POOR else NOTHING
    case TR03 => WarnIf(d0.ping.fragErrors + d1.ping.fragErrors != 0)
    case TR04 => WarnIf(d0.ping.duplicates + d1.ping.duplicates != 0)
    case TR05 => Max(RttSeverity(d0.ping, t), RttSeverity(d1.ping, t))
    case TR06 => Max(RetransSeverity(d0.tcp, t), RetransSeverity(d1.tcp, t))
    case TR07 => Max(UdpLossSeverity(d0.udp, t), UdpLossSeverity(d1.udp, t))
    case TR08 => WarnIf((d0.udp.available && d0.udp.jitterMs > t.udpJitterWarningAbove)
                        || (d1.udp.available && d1.udp.jitterMs > t.udpJitterWarningAbove))
    case TR09 => WarnIf((d0.udp.available && d0.udp.outOfOrderPct > t.udpReorderWarningAbove)
                        || (d1.udp.available && d1.udp.outOfOrderPct > t.udpReorderWarningAbove))
    case _ => NOTHING
  }

  // --- Throughput and the isolated-outlier cap ---

  datatype Policy = NoPolicy | Bands(bands: ThroughputBands)

  function PerfBands(negotiated: nat, t: Thresholds): Policy {
    if negotiated == 0 then NoPolicy
    else if negotiated <= 100_000_000 then Bands(t.throughput100M)
    else if negotiated <= 1_000_000_000 then Bands(t.throughput1G)
    else Bands(t.throughputFallback)
  }

  function BandSeverity(ratio: real, b: ThroughputBands): Severity {
    if ratio >= b.passAt && !b.passDisabled then NOTHING
    else if ratio >= b.infoAt then INFO
    else if ratio >= b.warningAt then WARNING
    else POOR
  }

  function ClassifyThroughput(measured: nat, negotiated: nat, t: Thresholds): Severity {
    match PerfBands(negotiated, t)
    case NoPolicy => NOTHING
    case Bands(b) => BandSeverity(measured as real / negotiated as real, b)
  }

  predicate Shortfall(measured: nat, negotiated: nat, t: Thresholds) {
    match PerfBands(negotiated, t)
    case NoPolicy => false
    case Bands(b) => measured as real / negotiated as real < b.passAt
  }

  predicate Isolated(d: Tcp) { d.trials >= 2 && d.deviations == 1 }

  function Assess(d: Tcp, negotiated: nat, clean: bool, t: Thresholds): Severity {
    var s := ClassifyThroughput(d.bitrate, negotiated, t);
    if s > WARNING && Isolated(d) && clean then WARNING else s
  }

  const PHYSICAL_RULES: seq<RuleId> := [PHY01, PHY02, PHY03, PHY04, PHY05, PHY06, PHY07, PHY08, PHY09, PHY10, PHY11]

  // Reliable captures, receive-error evidence on both sides, and no physical finding.
  predicate PhysicalLayerClean(f: Facts, t: Thresholds) {
    && f.pc1.deltaOK && f.pc2.deltaOK && f.pc1.rxErrorEvidence && f.pc2.rxErrorEvidence
    && forall r | r in PHYSICAL_RULES :: PhysicalSeverity(r, WireOf(f), t) == NOTHING
  }

  function AssessIfAvailable(d: Tcp, negotiated: nat, clean: bool, t: Thresholds): Severity {
    if d.available then Assess(d, negotiated, clean, t) else NOTHING
  }

  function ThroughputSeverity(f: Facts, t: Thresholds): Severity {
    var clean := PhysicalLayerClean(f, t);
    Max(AssessIfAvailable(f.d0.tcp, f.negotiated, clean, t), AssessIfAvailable(f.d1.tcp, f.negotiated, clean, t))
  }

  // --- Performance ---

  function CovSeverity(d: Tcp, t: Thresholds): Severity {
    if !d.available || d.cov < t.covWarningAt then NOTHING else if d.cov > t.covPoorAbove then POOR else WARNING
  }

  function NonNegative(n: int): nat { if n < 0 then 0 else n }

  function SaturatingTotal(a: int, b: int): nat {
    if NonNegative(a) > MAX_INT - NonNegative(b) then MAX_INT else NonNegative(a) + NonNegative(b)
  }

  function CollapseSeverity(total: nat, t: Thresholds): Severity {
    if total == 0 then NOTHING else if total >= t.collapsePoorAt then POOR else WARNING
  }

  function AsymmetryRatio(d0: Tcp, d1: Tcp): real {
    if !d0.available || !d1.available then 0.0
    else
      var hi := if d0.bitrate >= d1.bitrate then d0.bitrate else d1.bitrate;
      var lo := if d0.bitrate >= d1.bitrate then d1.bitrate else d0.bitrate;
      if hi == 0 then 0.0 else (hi - lo) as real / hi as real
  }

  function PerformanceSeverity(r: RuleId, d0: Tcp, d1: Tcp, throughput: Severity, t: Thresholds): Severity {
    match r
    case PERF01 => throughput
    case PERF02 => Max(CovSeverity(d0, t), CovSeverity(d1, t))
    case PERF03 => CollapseSeverity(SaturatingTotal(d0.collapses, d1.collapses), t)
    case PERF04 => WarnIf(AsymmetryRatio(d0, d1) > t.asymmetryWarnAbove)
    case _ => NOTHING
  }

  // --- Hosts and limitations: markers beside the ladder ---

  predicate LimitingDropRate(drops: nat, frames: nat, t: Thresholds) {
    drops != 0 && (drops > t.ringDropFloor || frames == 0 || drops as real / frames as real > t.ringDropRateAbove)
  }

  predicate RingLimited(s: Side, t: Thresholds) {
    s.deltaOK && LimitingDropRate(s.fifoOverrun + s.missedErrors, s.framesReceived, t)
  }

  function MarkIf(b: bool): Severity { if b then MARKER else NOTHING }

  function HostSeverity(r: RuleId, h: Host, ringLimited: bool, throughput: Severity, t: Thresholds): Severity {
    match r
    case HOST01 => MarkIf(h.maxCPU > t.cpuLimitedAbove)
    case HOST02 => MarkIf(h.virtualInterface)
    case HOST03 => MarkIf(h.usbAdapter && throughput != NOTHING)
    case HOST04 => MarkIf(ringLimited)
    case _ => NOTHING
  }

  const NONCRITICAL: set<string> :=
    {"ping", "udp", "bidir", "bidirectional", "full_size_ping", "fullsize_ping", "cable_test", "cable_test_tdr"}

  // What the limitation rules look at.
  datatype Coverage = Coverage(tcp0: bool, tcp1: bool, counters: bool, rx1: bool, rx2: bool, host: Host)

  function CoverageOf(f: Facts): Coverage {
    Coverage(f.d0.tcp.available, f.d1.tcp.available, f.pc1.countersAvailable || f.pc2.countersAvailable,
             f.pc1.rxErrorEvidence, f.pc2.rxErrorEvidence, f.host)
  }

  function LimitationSeverity(r: RuleId, c: Coverage): Severity {
    match r
    case LIM01 => MarkIf((!c.tcp0 && !c.tcp1) || !c.counters || (!c.rx1 && !c.rx2))
    case LIM02 => MarkIf(c.tcp0 != c.tcp1 || (exists name | name in c.host.unavailable :: name in NONCRITICAL) || c.rx1 != c.rx2)
    case LIM03 => MarkIf(c.host.partial)
    case LIM04 => if c.host.udpRateAssumed then INFO else NOTHING
    case LIM05 => MarkIf(c.host.throughputUnreachable)
    case _ => NOTHING
  }

  // --- The list ---

  const RULES: seq<RuleId> := [
    PHY01, PHY02, PHY03, PHY04, PHY05, PHY06, PHY07, PHY08, PHY09, PHY10, PHY11,
    TR01, TR02, TR03, TR04, TR05, TR06, TR07, TR08, TR09,
    PERF01, PERF02, PERF03, PERF04,
    HOST01, HOST02, HOST03, HOST04,
    LIM01, LIM02, LIM03, LIM04, LIM05]

  function CategoryOf(r: RuleId): Category {
    match r
    case PHY01 => Physical case PHY02 => Physical case PHY03 => Physical case PHY04 => Physical
    case PHY05 => Physical case PHY06 => Physical case PHY07 => Physical case PHY08 => Physical
    case PHY09 => Physical case PHY10 => Physical case PHY11 => Physical
    case TR01 => Transport case TR02 => Transport case TR03 => Transport
    case TR04 => Transport case TR05 => Transport case TR06 => Transport
    case TR07 => Transport case TR08 => Transport case TR09 => Transport
    case PERF01 => Performance case PERF02 => Performance case PERF03 => Performance case PERF04 => Performance
    case HOST01 => HostCategory case HOST02 => HostCategory case HOST03 => HostCategory case HOST04 => HostCategory
    case LIM01 => Limitation case LIM02 => Limitation case LIM03 => Limitation case LIM04 => Limitation
    case LIM05 => Limitation
  }

  predicate HostSensitive(r: RuleId) { r.TR06? || r.PERF01? || r.PERF02? || r.PERF03? || r.PERF04? }

  function SeverityOf(r: RuleId, f: Facts, t: Thresholds): Severity {
    match CategoryOf(r)
    case Physical => PhysicalSeverity(r, WireOf(f), t)
    case Transport => TransportSeverity(r, f.d0, f.d1, t)
    case Performance => PerformanceSeverity(r, f.d0.tcp, f.d1.tcp, ThroughputSeverity(f, t), t)
    case HostCategory => HostSeverity(r, f.host, RingLimited(f.pc1, t) || RingLimited(f.pc2, t), ThroughputSeverity(f, t), t)
    case Limitation => LimitationSeverity(r, CoverageOf(f))
  }

  function FindingOf(r: RuleId, s: Severity): Finding { Finding(r, CategoryOf(r), s, HostSensitive(r)) }

  // The findings of the rules in order.
  function Collect(rules: seq<RuleId>, f: Facts, t: Thresholds): seq<Finding> {
    if rules == [] then []
    else
      var r := rules[|rules| - 1];
      var s := SeverityOf(r, f, t);
      Collect(rules[..|rules| - 1], f, t) + (if s == NOTHING then [] else [FindingOf(r, s)])
  }

  // --- The rules that loop, as they are written ---

  method RulePHY08(f: Facts, t: Thresholds) returns (worst: Severity)
    ensures worst == PhysicalSeverity(PHY08, WireOf(f), t)
  {
    worst := NOTHING;
    if !f.cableTestRan {
      return;
    }
    var pairs := f.pairs;
    for i := 0 to |pairs|
      invariant worst == WorstPair(pairs[..i]) >= NOTHING
    {
      assert pairs[..i + 1][..i] == pairs[..i];
      var s := PairSeverity(pairs[i]);
      if s == NOTHING {
        continue;
      }
      if s > worst {
        worst := s;
      }
    }
    assert pairs[..|pairs|] == pairs;
  }

  function TcpAt(f: Facts, i: int): Tcp { if i == 0 then f.d0.tcp else f.d1.tcp }

  method RuleTR06(f: Facts, t: Thresholds) returns (worst: Severity)
    ensures worst == TransportSeverity(TR06, f.d0, f.d1, t)
  {
    worst := NOTHING;
    for i := 0 to 2
      invariant worst == Max(if i > 0 then RetransSeverity(f.d0.tcp, t) else NOTHING,
                             if i > 1 then RetransSeverity(f.d1.tcp, t) else NOTHING)
    {
      var d := TcpAt(f, i);
      var burst := MaxReal(d.retransRate, d.retransWorst);
      if !d.available || burst < t.retransWarningAt {
        continue;
      }
      var s := if d.retransRate > t.retransPoorAbove then POOR else WARNING;
      if s > worst {
        worst := s;
      }
    }
  }

  method RulePERF01(f: Facts, t: Thresholds) returns (worst: Severity)
    ensures worst == ThroughputSeverity(f, t)
  {
    worst := NOTHING;
    var clean := PhysicalLayerClean(f, t);
    for i := 0 to 2
      invariant worst == Max(if i > 0 then AssessIfAvailable(f.d0.tcp, f.negotiated, clean, t) else NOTHING,
                             if i > 1 then AssessIfAvailable(f.d1.tcp, f.negotiated, clean, t) else NOTHING)
    {
      var d := TcpAt(f, i);
      if !d.available {
        continue;
      }
      var s := Assess(d, f.negotiated, clean, t);
      if s > worst {
        worst := s;
      }
    }
  }
}
