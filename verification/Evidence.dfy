/** The evaluator's vocabulary: facts, findings, health classes and the decision boundaries.
    Counters are natural numbers and measured quantities are reals. */
module Evidence {
  // One peer's counter movement across the run.
  datatype Side = Side(
    crcClassErrors: nat,
    unclassifiedRX: nat,
    rxErrorEvidence: bool,
    carrierEvents: nat,
    jabberSize: nat,
    fifoOverrun: nat,
    missedErrors: nat,
    framesReceived: nat,
    carrierPHY: nat,
    deltaOK: bool,
    countersAvailable: bool)

  // One traffic direction: ping, UDP and TCP evidence.
  datatype Ping = Ping(lossPct: real, duplicates: int, spikes: int, maxGap: int,
                       fullSizeAvailable: bool, fullSizeLossPct: real, fragErrors: int)
  datatype Udp = Udp(available: bool, targetReached: bool, lossPct: real, jitterMs: real, outOfOrderPct: real, maxCPU: real)
  datatype Tcp = Tcp(available: bool, trials: nat, deviations: nat, bitrate: nat, retransRate: real, retransWorst: real,
                     cov: real, collapses: int, maxCPU: real, senderMaxCPU: real)
  datatype Direction = Direction(ping: Ping, udp: Udp, tcp: Tcp)

  datatype Pair = PairOk | PairOpen | PairShortIntra | PairShortInter | PairImpedance | PairUnspecified | PairUnknown

  datatype Facts = Facts(
    pc1: Side,
    pc2: Side,
    d0: Direction,
    d1: Direction,
    negotiated: nat,
    expected: nat,
    halfDuplex: bool,
    linkUpAtEnd: bool,
    renegotiations: int,
    monitorTransitions: nat,
    cableTestRan: bool,
    pairs: seq<Pair>,
    host: Host)

  // Evidence about the hosts and the run rather than the cable.
  datatype Host = Host(
    maxCPU: real,
    usbAdapter: bool,
    virtualInterface: bool,
    partial: bool,
    udpRateAssumed: bool,
    unavailable: seq<string>,
    throughputUnreachable: bool)

  // Severities: -1 for nothing found, then the ladder, with markers beside it.
  type Severity = int
  const NOTHING: Severity := -1
  const INFO: Severity := 0
  const WARNING: Severity := 1
  const POOR: Severity := 2
  const FAILED: Severity := 3
  const MARKER: Severity := 4

  datatype Category = Physical | Transport | Performance | HostCategory | Limitation

  datatype RuleId =
    | PHY01 | PHY02 | PHY03 | PHY04 | PHY05 | PHY06 | PHY07 | PHY08 | PHY09 | PHY10 | PHY11
    | TR01 | TR02 | TR03 | TR04 | TR05 | TR06 | TR07 | TR08 | TR09
    | PERF01 | PERF02 | PERF03 | PERF04
    | HOST01 | HOST02 | HOST03 | HOST04
    | LIM01 | LIM02 | LIM03 | LIM04 | LIM05

  datatype Finding = Finding(rule: RuleId, category: Category, severity: Severity, hostSensitive: bool)

  datatype HealthClass = Excellent | Good | Warned | Poor | Failed | Inconclusive

  // The ladder from best to worst; INCONCLUSIVE is not on it.
  function Rung(c: HealthClass): nat {
    match c
    case Excellent => 0
    case Good => 1
    case Warned => 2
    case Poor => 3
    case Failed => 4
    case Inconclusive => 5
  }

  datatype ScoreBand = ScoreBand(low: int, high: int)
  datatype ThroughputBands = ThroughputBands(passAt: real, infoAt: real, warningAt: real, passDisabled: bool)

  datatype Thresholds = Thresholds(
    crcPoorAbove: nat,
    crcFailedAbove: nat,
    crcPingLossAbove: real,
    carrierFailedAt: nat,
    frameSizePoorAbove: nat,
    carrierPHYPoorAbove: nat,
    carrierPHYFailedAbove: nat,
    negotiatedPoorAt: real,
    pingLossPoorAbove: real,
    pingSpikesWarningAbove: int,
    pingGapPoorAbove: int,
    retransWarningAt: real,
    retransPoorAbove: real,
    udpLossWarningAt: real,
    udpLossPoorAbove: real,
    udpJitterWarningAbove: real,
    udpReorderWarningAbove: real,
    throughput100M: ThroughputBands,
    throughput1G: ThroughputBands,
    throughputFallback: ThroughputBands,
    covWarningAt: real,
    covPoorAbove: real,
    collapsePoorAt: int,
    asymmetryWarnAbove: real,
    cpuLimitedAbove: real,
    ringDropRateAbove: real,
    ringDropFloor: nat,
    failedBand: ScoreBand,
    poorBand: ScoreBand,
    warningBand: ScoreBand,
    goodBand: ScoreBand,
    excellentBand: ScoreBand)

  const DEFAULT: Thresholds := Thresholds(
    10, 1000, 1.0, 3, 10, 10, 1000, 0.5,
    0.1, 5, 1_000_000_000, 0.0001, 0.01, 0.5, 2.0, 5.0, 0.1,
    ThroughputBands(0.9, 0.9, 0.7, true), ThroughputBands(0.9, 0.7, 0.4, false), ThroughputBands(0.9, 0.7, 0.4, false),
    0.15, 0.30, 3, 0.30,
    90.0, 0.000001, 100,
    ScoreBand(0, 25), ScoreBand(26, 50), ScoreBand(51, 79), ScoreBand(80, 94), ScoreBand(95, 100))

  // What the results below ask of a policy, all of it true of the shipped one.
  predicate BandsOrdered(t: Thresholds) {
    && t.failedBand.low <= t.failedBand.high < t.poorBand.low <= t.poorBand.high
    && t.poorBand.high < t.warningBand.low <= t.warningBand.high < t.goodBand.low <= t.goodBand.high
    && t.goodBand.high < t.excellentBand.low <= t.excellentBand.high
  }

  predicate Ordered(b: ThroughputBands) { b.warningAt <= b.passAt }

  predicate PolicyOrdered(t: Thresholds) {
    && BandsOrdered(t)
    && Ordered(t.throughput100M) && Ordered(t.throughput1G) && Ordered(t.throughputFallback)
    && 0.0 <= t.retransWarningAt <= t.retransPoorAbove
  }

  lemma DefaultPolicyIsOrdered()
    ensures PolicyOrdered(DEFAULT)
  {}
}
