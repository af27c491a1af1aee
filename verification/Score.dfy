/** The 0-100 score: points off for each symptom, rounded and held in the class's band. */
module Score {
  import opened Wrappers
  import opened Evidence
  import opened Rules
  import opened Classification

  function Min(a: real, b: real): real { if a <= b then a else b }

  function PointsIf(b: bool, points: real): real { if b then points else 0.0 }

  function PhysicalPoints(w: Wire): real {
    Min(40.0, 2.0 * w.crc as real) + Min(45.0, 15.0 * w.carrier as real)
    + PointsIf(w.renegotiated, 10.0) + PointsIf(w.halfDuplex, 25.0) + PointsIf(BelowExpectedSpeed(w), 15.0)
  }

  function PingPoints(p: Ping): real { if p.lossPct > 0.0 then Min(40.0, p.lossPct * 20.0) else 0.0 }

  // The sustained rate costs more than a burst only one trial saw.
  function RetransPoints(d: Tcp, t: Thresholds): real {
    if !d.available then 0.0
    else if d.retransRate > t.retransPoorAbove then 15.0
    else PointsIf(MaxReal(d.retransRate, d.retransWorst) >= t.retransWarningAt, 5.0)
  }

  function UdpPoints(u: Udp, t: Thresholds): real {
    if !(u.maxCPU <= t.cpuLimitedAbove && u.available && u.targetReached) then 0.0
    else if u.lossPct > t.udpLossPoorAbove then 15.0
    else PointsIf(u.lossPct >= t.udpLossWarningAt, 5.0)
  }

  function DirectionPoints(d: Direction, t: Thresholds): real {
    PingPoints(d.ping) + RetransPoints(d.tcp, t) + UdpPoints(d.udp, t)
  }

  // A direction whose hosts were busy is not held against the cable.
  predicate Judged(d: Tcp, t: Thresholds) { d.available && d.maxCPU <= t.cpuLimitedAbove }

  function CovPoints(cov: real, t: Thresholds): real {
    if cov > t.covPoorAbove then 15.0 else PointsIf(cov >= t.covWarningAt, 5.0)
  }

  function ThroughputPoints(worst: Severity): real {
    if worst == POOR then 25.0 else PointsIf(worst == WARNING, 10.0)
  }

  // What the judged directions contribute.
  datatype Load = Load(cov: real, collapses0: int, collapses1: int, worst: Severity)

  function JudgedCov(d: Tcp, t: Thresholds): real { if Judged(d, t) then d.cov else 0.0 }
  function JudgedCollapses(d: Tcp, t: Thresholds): int { if Judged(d, t) then d.collapses else 0 }
  function JudgedSeverity(d: Tcp, negotiated: nat, clean: bool, t: Thresholds): Severity {
    if Judged(d, t) then Assess(d, negotiated, clean, t) else NOTHING
  }

  function LoadOf(d0: Tcp, d1: Tcp, negotiated: nat, clean: bool, t: Thresholds): Load {
    Load(MaxReal(MaxReal(0.0, JudgedCov(d0, t)), JudgedCov(d1, t)), JudgedCollapses(d0, t), JudgedCollapses(d1, t),
         Max(JudgedSeverity(d0, negotiated, clean, t), JudgedSeverity(d1, negotiated, clean, t)))
  }

  predicate AsymmetryCounts(d0: Tcp, d1: Tcp, t: Thresholds) {
    && d0.senderMaxCPU <= t.cpuLimitedAbove && d1.senderMaxCPU <= t.cpuLimitedAbove
    && AsymmetryRatio(d0, d1) > t.asymmetryWarnAbove
  }

  function PerformancePoints(l: Load, asymmetric: bool, t: Thresholds): real {
    CovPoints(l.cov, t) + Min(20.0, 5.0 * SaturatingTotal(l.collapses0, l.collapses1) as real)
    + ThroughputPoints(l.worst) + PointsIf(asymmetric, 5.0)
  }

  predicate Jittery(d0: Udp, d1: Udp, t: Thresholds) {
    d0.jitterMs > t.udpJitterWarningAbove || d1.jitterMs > t.udpJitterWarningAbove
  }

  function HostFreePoints(f: Facts, t: Thresholds): real {
    PerformancePoints(LoadOf(f.d0.tcp, f.d1.tcp, f.negotiated, PhysicalLayerClean(f, t), t),
                      AsymmetryCounts(f.d0.tcp, f.d1.tcp, t), t)
  }

  function Raw(f: Facts, fullSizeLoss: bool, hostBound: bool, t: Thresholds): real {
    100.0 - PhysicalPoints(WireOf(f)) - DirectionPoints(f.d0, t) - DirectionPoints(f.d1, t)
    - PointsIf(fullSizeLoss, 20.0) - (if hostBound then 0.0 else HostFreePoints(f, t))
    - PointsIf(Jittery(f.d0.udp, f.d1.udp, t), 5.0)
  }

  // To the nearest integer, halves away from zero.
  function Round(x: real): int { if x >= 0.0 then (x + 0.5).Floor else -((0.5 - x).Floor) }

  lemma RoundIsMonotone(x: real, y: real)
    requires x <= y
    ensures Round(x) <= Round(y)
  {}

  function BandOf(c: HealthClass, t: Thresholds): ScoreBand {
    match c
    case Failed => t.failedBand
    case Poor => t.poorBand
    case Warned => t.warningBand
    case Good => t.goodBand
    case Excellent => t.excellentBand
    case Inconclusive => ScoreBand(t.failedBand.low, t.excellentBand.high)
  }

  function Clamp(v: int, b: ScoreBand): int { if v < b.low then b.low else if v > b.high then b.high else v }

  function ScoreOf(f: Facts, fs: seq<Finding>, c: HealthClass, t: Thresholds): Option<int> {
    if c.Inconclusive? then None
    else Some(Clamp(Round(Raw(f, HasFinding(fs, TR02), HasFinding(fs, HOST03) || HasFinding(fs, HOST04), t)), BandOf(c, t)))
  }

  /** Score and class never contradict each other: with ordered bands the score names the class. */
  lemma ScoreNamesTheClass(v: int, w: int, c: HealthClass, d: HealthClass, t: Thresholds)
    requires BandsOrdered(t) && !c.Inconclusive? && !d.Inconclusive?
    requires Clamp(v, BandOf(c, t)) == Clamp(w, BandOf(d, t))
    ensures c == d
  {}

  lemma LowerClassScoresLower(v: int, w: int, c: HealthClass, d: HealthClass, t: Thresholds)
    requires BandsOrdered(t) && !c.Inconclusive? && !d.Inconclusive? && Rung(c) <= Rung(d)
    requires c == d ==> w <= v
    ensures Clamp(w, BandOf(d, t)) <= Clamp(v, BandOf(c, t))
  {}

  // --- The score as it is written ---

  function DirectionAt(f: Facts, i: int): Direction { if i == 0 then f.d0 else f.d1 }

  method TakeTransport(f: Facts, t: Thresholds, start: real) returns (s: real)
    ensures s == start - DirectionPoints(f.d0, t) - DirectionPoints(f.d1, t)
  {
    s := start;
    for i := 0 to 2
      invariant s == start - (if i > 0 then DirectionPoints(f.d0, t) else 0.0) - (if i > 1 then DirectionPoints(f.d1, t) else 0.0)
    {
      var d := DirectionAt(f, i);
      if d.ping.lossPct > 0.0 {
        s := s - Min(40.0, d.ping.lossPct * 20.0);
      }
      if d.tcp.available {
        if d.tcp.retransRate > t.retransPoorAbove {
          s := s - 15.0;
        } else if MaxReal(d.tcp.retransRate, d.tcp.retransWorst) >= t.retransWarningAt {
          s := s - 5.0;
        }
      }
      if d.udp.maxCPU <= t.cpuLimitedAbove && d.udp.available && d.udp.targetReached {
        if d.udp.lossPct > t.udpLossPoorAbove {
          s := s - 15.0;
        } else if d.udp.lossPct >= t.udpLossWarningAt {
          s := s - 5.0;
        }
      }
    }
  }

  method GatherLoad(f: Facts, t: Thresholds) returns (l: Load)
    ensures l == LoadOf(f.d0.tcp, f.d1.tcp, f.negotiated, PhysicalLayerClean(f, t), t)
  {
    var clean := PhysicalLayerClean(f, t);
    var cov, worst := 0.0, NOTHING;
    var collapses0, collapses1 := 0, 0;
    for i := 0 to 2
      invariant i == 0 ==> cov == 0.0 && worst == NOTHING && collapses0 == 0 && collapses1 == 0
      invariant i == 1 ==>
        && cov == MaxReal(0.0, JudgedCov(f.d0.tcp, t)) && worst == JudgedSeverity(f.d0.tcp, f.negotiated, clean, t)
        && collapses0 == JudgedCollapses(f.d0.tcp, t) && collapses1 == 0
      invariant i == 2 ==> Load(cov, collapses0, collapses1, worst) == LoadOf(f.d0.tcp, f.d1.tcp, f.negotiated, clean, t)
    {
      var d := DirectionAt(f, i).tcp;
      if d.available && d.maxCPU <= t.cpuLimitedAbove {
        if d.cov > cov {
          cov := d.cov;
        }
        if i == 0 {
          collapses0 := d.collapses;
        } else {
          collapses1 := d.collapses;
        }
        var severity := Assess(d, f.negotiated, clean, t);
        if severity != NOTHING && severity > worst {
          worst := severity;
        }
      }
    }
    l := Load(cov, collapses0, collapses1, worst);
  }

  method TakePerformance(f: Facts, t: Thresholds, start: real) returns (s: real)
    ensures s == start - HostFreePoints(f, t)
  {
    var l := GatherLoad(f, t);
    s := start;
    if l.cov > t.covPoorAbove {
      s := s - 15.0;
    } else if l.cov >= t.covWarningAt {
      s := s - 5.0;
    }
    s := s - Min(20.0, 5.0 * SaturatingTotal(l.collapses0, l.collapses1) as real);
    if l.worst == POOR {
      s := s - 25.0;
    } else if l.worst == WARNING {
      s := s - 10.0;
    }
    if AsymmetryCounts(f.d0.tcp, f.d1.tcp, t) {
      s := s - 5.0;
    }
  }

  method TakePhysical(f: Facts, start: real) returns (s: real)
    ensures s == start - PhysicalPoints(WireOf(f))
  {
    s := start - Min(40.0, 2.0 * CrcTotal(f) as real);
    s := s - Min(45.0, 15.0 * CarrierEvents(f) as real);
    if f.renegotiations > 0 {
      s := s - 10.0;
    }
    if f.halfDuplex {
      s := s - 25.0;
    }
    if f.negotiated > 0 && f.expected > 0 && f.negotiated < f.expected {
      s := s - 15.0;
    }
  }

  method TakeAll(f: Facts, fullSizeLoss: bool, hostBound: bool, t: Thresholds) returns (s: real)
    ensures s == Raw(f, fullSizeLoss, hostBound, t)
  {
    s := TakePhysical(f, 100.0);
    s := TakeTransport(f, t, s);
    if fullSizeLoss {
      s := s - 20.0;
    }
    if !hostBound {
      s := TakePerformance(f, t, s);
    }
    if f.d0.udp.jitterMs > t.udpJitterWarningAbove || f.d1.udp.jitterMs > t.udpJitterWarningAbove {
      s := s - 5.0;
    }
  }

  method ScoreFor(f: Facts, fs: seq<Finding>, c: HealthClass, t: Thresholds) returns (score: Option<int>)
    ensures score == ScoreOf(f, fs, c, t)
  {
    if c.Inconclusive? {
      return None;
    }
    var s := TakeAll(f, HasFinding(fs, TR02), HasFinding(fs, HOST03) || HasFinding(fs, HOST04), t);
    return Some(Clamp(Round(s), BandOf(c, t)));
  }
}
