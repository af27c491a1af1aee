/** Folding the findings into a health class. */
module Classification {
  import opened Evidence
  import opened Rules

  // The highest ladder severity among the given categories; markers are beside the ladder.
  function WorstIn(fs: seq<Finding>, cats: set<Category>): Severity {
    if fs == [] then NOTHING
    else Max(WorstIn(fs[..|fs| - 1], cats), Weight(fs[|fs| - 1], cats))
  }

  function Weight(fd: Finding, cats: set<Category>): Severity {
    if fd.severity < MARKER && fd.category in cats then fd.severity else NOTHING
  }

  predicate HasFinding(fs: seq<Finding>, r: RuleId) { exists i | 0 <= i < |fs| :: fs[i].rule == r }

  predicate HasHostLimit(fs: seq<Finding>) { HasFinding(fs, HOST01) || HasFinding(fs, HOST03) || HasFinding(fs, HOST04) }

  // Keeps the run POOR however hot the hosts were.
  predicate Convicts(fd: Finding) { POOR <= fd.severity < MARKER && !fd.hostSensitive }

  predicate AllPoorAreHostSensitive(fs: seq<Finding>) { forall i | 0 <= i < |fs| :: !Convicts(fs[i]) }

  predicate InfoDeviation(fd: Finding) {
    (fd.category.Physical? || fd.category.Transport? || fd.category.Performance?) && fd.severity == INFO
  }

  predicate AnyInfoDeviation(fs: seq<Finding>) { exists i | 0 <= i < |fs| :: InfoDeviation(fs[i]) }

  // What classification sees of a list of findings.
  datatype Summary = Summary(
    worstPhysical: Severity,
    worstSymptom: Severity,            // transport and performance
    hostLimited: bool,
    allPoorHostSensitive: bool,
    anyInfo: bool,
    virtualInterface: bool,            // HOST-02
    untrusted: bool,                   // LIM-01, LIM-03 or LIM-05
    reduced: bool)                     // LIM-02

  const PHYSICAL: set<Category> := {Physical}
  const SYMPTOMS: set<Category> := {Transport, Performance}

  function Summarize(fs: seq<Finding>): Summary {
    Summary(WorstIn(fs, PHYSICAL), WorstIn(fs, SYMPTOMS), HasHostLimit(fs), AllPoorAreHostSensitive(fs),
            AnyInfoDeviation(fs), HasFinding(fs, HOST02),
            HasFinding(fs, LIM01) || HasFinding(fs, LIM03) || HasFinding(fs, LIM05), HasFinding(fs, LIM02))
  }

  // Physical evidence first; a host-limited symptom on a clean wire proves nothing.
  function Tentative(s: Summary): HealthClass {
    if s.worstSymptom >= POOR then
      (if s.hostLimited && s.worstPhysical < WARNING && s.allPoorHostSensitive then Inconclusive else Poor)
    else if s.worstSymptom == WARNING || s.worstPhysical == WARNING then Warned
    else if s.anyInfo then Good
    else Excellent
  }

  // Limitations only ever downgrade.
  function Cap(c: HealthClass, s: Summary): HealthClass {
    if s.virtualInterface then Inconclusive
    else if s.untrusted && (c.Excellent? || c.Good?) then Inconclusive
    else if s.reduced && c.Excellent? then Good
    else c
  }

  function Verdict(s: Summary): HealthClass {
    if s.worstPhysical == FAILED then Failed
    else if s.worstPhysical == POOR then Poor
    else Cap(Tentative(s), s)
  }

  function Classify(fs: seq<Finding>): HealthClass { Verdict(Summarize(fs)) }

  // --- Inserting a limitation finding ---

  lemma {:induction false} WorstInAppend(a: seq<Finding>, b: seq<Finding>, cats: set<Category>)
    ensures WorstIn(a + b, cats) == Max(WorstIn(a, cats), WorstIn(b, cats))
    decreases |b|
  {
    if b == [] {
      assert a + b == a;
      WorstInAtLeast(a, cats);
    } else {
      var cut := b[..|b| - 1];
      WorstInAppend(a, cut, cats);
      assert (a + b)[..|a + b| - 1] == a + cut;
    }
  }

  lemma {:induction false} WorstInAtLeast(fs: seq<Finding>, cats: set<Category>)
    ensures WorstIn(fs, cats) >= NOTHING
  {
    if fs != [] {
      WorstInAtLeast(fs[..|fs| - 1], cats);
    }
  }

  function Inserted(fs: seq<Finding>, k: nat, fd: Finding): seq<Finding>
    requires k <= |fs|
  { fs[..k] + [fd] + fs[k..] }

  lemma InsertWorst(fs: seq<Finding>, k: nat, fd: Finding, cats: set<Category>)
    requires k <= |fs| && fd.category !in cats
    ensures WorstIn(Inserted(fs, k, fd), cats) == WorstIn(fs, cats)
  {
    WorstInAppend(fs[..k] + [fd], fs[k..], cats);
    WorstInAppend(fs[..k], [fd], cats);
    WorstInAppend(fs[..k], fs[k..], cats);
    assert fs == fs[..k] + fs[k..];
    assert [fd][..0] == [];
    WorstInAtLeast(fs[..k], cats);
  }

  lemma InsertHas(fs: seq<Finding>, k: nat, fd: Finding, r: RuleId)
    requires k <= |fs|
    ensures HasFinding(Inserted(fs, k, fd), r) <==> HasFinding(fs, r) || fd.rule == r
  {
    var gs := Inserted(fs, k, fd);
    if HasFinding(fs, r) {
      var i :| 0 <= i < |fs| && fs[i].rule == r;
      assert gs[if i < k then i else i + 1] == fs[i];
    }
    if HasFinding(gs, r) {
      var i :| 0 <= i < |gs| && gs[i].rule == r;
      assert i != k ==> gs[i] == fs[if i < k then i else i - 1];
    }
    assert gs[k] == fd;
  }

  lemma InsertHarmless(fs: seq<Finding>, k: nat, fd: Finding)
    requires k <= |fs| && !Convicts(fd) && !InfoDeviation(fd)
    ensures AllPoorAreHostSensitive(Inserted(fs, k, fd)) == AllPoorAreHostSensitive(fs)
    ensures AnyInfoDeviation(Inserted(fs, k, fd)) == AnyInfoDeviation(fs)
  {
    var gs := Inserted(fs, k, fd);
    assert forall i | 0 <= i < k :: gs[i] == fs[i];
    assert forall i | k <= i < |fs| :: gs[i + 1] == fs[i];
    forall i | k < i < |gs| ensures gs[i] == fs[i - 1] {}
  }

  // A finding as a limitation rule produces it.
  predicate IsLimitation(fd: Finding) {
    || fd == FindingOf(LIM01, MARKER) || fd == FindingOf(LIM02, MARKER) || fd == FindingOf(LIM03, MARKER)
    || fd == FindingOf(LIM04, INFO) || fd == FindingOf(LIM05, MARKER)
  }

  lemma InsertSummary(fs: seq<Finding>, k: nat, fd: Finding)
    requires k <= |fs| && IsLimitation(fd)
    ensures var s, s' := Summarize(fs), Summarize(Inserted(fs, k, fd));
            s' == s.(untrusted := s.untrusted || fd.rule.LIM01? || fd.rule.LIM03? || fd.rule.LIM05?,
                     reduced := s.reduced || fd.rule.LIM02?)
  {
    InsertWorst(fs, k, fd, PHYSICAL);
    InsertWorst(fs, k, fd, SYMPTOMS);
    InsertHarmless(fs, k, fd);
    InsertMarkers(fs, k, fd);
  }

  lemma InsertMarkers(fs: seq<Finding>, k: nat, fd: Finding)
    requires k <= |fs| && IsLimitation(fd)
    ensures var gs := Inserted(fs, k, fd);
            && HasHostLimit(gs) == HasHostLimit(fs) && HasFinding(gs, HOST02) == HasFinding(fs, HOST02)
            && HasFinding(gs, LIM01) == (HasFinding(fs, LIM01) || fd.rule.LIM01?)
            && HasFinding(gs, LIM02) == (HasFinding(fs, LIM02) || fd.rule.LIM02?)
            && HasFinding(gs, LIM03) == (HasFinding(fs, LIM03) || fd.rule.LIM03?)
            && HasFinding(gs, LIM05) == (HasFinding(fs, LIM05) || fd.rule.LIM05?)
  {
    forall r ensures HasFinding(Inserted(fs, k, fd), r) <==> HasFinding(fs, r) || fd.rule == r {
      InsertHas(fs, k, fd, r);
    }
  }

  lemma CappedVerdict(s: Summary, untrusted: bool, reduced: bool)
    requires !(untrusted && reduced)
    ensures var before := Verdict(s);
            Verdict(s.(untrusted := s.untrusted || untrusted, reduced := s.reduced || reduced)) ==
              if untrusted && (before.Excellent? || before.Good?) then Inconclusive
              else if reduced && before.Excellent? then Good
              else before
  {}

  /** Inserting a limitation finding anywhere in any list: LIM-01, LIM-03 and LIM-05 turn
      EXCELLENT and GOOD into INCONCLUSIVE, LIM-02 turns EXCELLENT into GOOD, LIM-04 changes
      nothing, and no other verdict ever moves. */
  lemma LimitationsOnlyDowngrade(fs: seq<Finding>, k: nat, fd: Finding)
    requires k <= |fs| && IsLimitation(fd)
    ensures var before, after := Classify(fs), Classify(Inserted(fs, k, fd));
            after ==
              if (fd.rule.LIM01? || fd.rule.LIM03? || fd.rule.LIM05?) && (before.Excellent? || before.Good?) then Inconclusive
              else if fd.rule.LIM02? && before.Excellent? then Good
              else before
  {
    InsertSummary(fs, k, fd);
    CappedVerdict(Summarize(fs), fd.rule.LIM01? || fd.rule.LIM03? || fd.rule.LIM05?, fd.rule.LIM02?);
  }

  // --- Which lists get which class ---

  // Some finding of the layer has a severity in the given range.
  predicate WireAt(fs: seq<Finding>, low: Severity, high: Severity) {
    exists i | 0 <= i < |fs| :: fs[i].category == Physical && low <= fs[i].severity <= high
  }

  predicate SymptomAt(fs: seq<Finding>, low: Severity, high: Severity) {
    exists i | 0 <= i < |fs| ::
      (fs[i].category == Transport || fs[i].category == Performance) && low <= fs[i].severity <= high
  }

  predicate Found(fs: seq<Finding>, r: RuleId) { exists i | 0 <= i < |fs| :: fs[i].rule == r }

  // A host limit was measured, the wire shows nothing from a warning up, and every POOR or FAILED
  // finding is one a busy host can cause.
  predicate Excused(fs: seq<Finding>) {
    && (Found(fs, HOST01) || Found(fs, HOST03) || Found(fs, HOST04)) && !WireAt(fs, WARNING, FAILED)
    && (forall i | 0 <= i < |fs| && (fs[i].severity == POOR || fs[i].severity == FAILED) :: fs[i].hostSensitive)
  }

  predicate Untrusted(fs: seq<Finding>) { Found(fs, LIM01) || Found(fs, LIM03) || Found(fs, LIM05) }

  lemma {:induction false} WorstAtLeast(fs: seq<Finding>, cats: set<Category>, s: Severity)
    requires INFO <= s
    ensures WorstIn(fs, cats) >= s <==> exists i | 0 <= i < |fs| :: fs[i].category in cats && s <= fs[i].severity < MARKER
  {
    if fs != [] {
      var cut, last := fs[..|fs| - 1], fs[|fs| - 1];
      WorstAtLeast(cut, cats, s);
      assert forall i | 0 <= i < |cut| :: cut[i] == fs[i];
      if last.category in cats && s <= last.severity < MARKER {
        assert fs[|cut|] == last;
      }
    }
  }

  lemma WireLevels(fs: seq<Finding>, s: Severity)
    requires INFO <= s <= FAILED
    ensures WorstIn(fs, PHYSICAL) >= s <==> WireAt(fs, s, FAILED)
  {
    WorstAtLeast(fs, PHYSICAL, s);
  }

  lemma SymptomLevels(fs: seq<Finding>, s: Severity)
    requires INFO <= s <= FAILED
    ensures WorstIn(fs, SYMPTOMS) >= s <==> SymptomAt(fs, s, FAILED)
  {
    WorstAtLeast(fs, SYMPTOMS, s);
  }

  lemma InfoLevels(fs: seq<Finding>)
    ensures AnyInfoDeviation(fs) <==> WireAt(fs, INFO, INFO) || SymptomAt(fs, INFO, INFO)
  {
    if AnyInfoDeviation(fs) {
      var i :| 0 <= i < |fs| && InfoDeviation(fs[i]);
      assert fs[i].severity == INFO;
    }
  }

  // What the summary says, in terms of the findings.
  lemma SummaryLevels(fs: seq<Finding>)
    ensures var s := Summarize(fs);
            && (s.worstPhysical >= FAILED <==> WireAt(fs, FAILED, FAILED)) && (s.worstPhysical >= POOR <==> WireAt(fs, POOR, FAILED))
            && (s.worstPhysical >= WARNING <==> WireAt(fs, WARNING, FAILED)) && s.worstPhysical < MARKER
            && (s.worstSymptom >= POOR <==> SymptomAt(fs, POOR, FAILED)) && (s.worstSymptom >= WARNING <==> SymptomAt(fs, WARNING, FAILED))
  {
    WireLevels(fs, FAILED);
    WireLevels(fs, POOR);
    WireLevels(fs, WARNING);
    SymptomLevels(fs, POOR);
    SymptomLevels(fs, WARNING);
    WorstStays(fs, PHYSICAL);
  }

  lemma SummaryMarkers(fs: seq<Finding>)
    ensures var s := Summarize(fs);
            && (s.anyInfo <==> WireAt(fs, INFO, INFO) || SymptomAt(fs, INFO, INFO))
            && (s.hostLimited && !WireAt(fs, WARNING, FAILED) && s.allPoorHostSensitive <==> Excused(fs))
            && (s.virtualInterface <==> Found(fs, HOST02)) && (s.untrusted <==> Untrusted(fs)) && (s.reduced <==> Found(fs, LIM02))
  {
    InfoLevels(fs);
    ExcusedMeans(fs);
    FoundMeans(fs, HOST02);
    FoundMeans(fs, LIM02);
    UntrustedMeans(fs);
  }

  lemma FoundMeans(fs: seq<Finding>, r: RuleId)
    ensures Found(fs, r) == HasFinding(fs, r)
  {}

  lemma UntrustedMeans(fs: seq<Finding>)
    ensures Untrusted(fs) == Summarize(fs).untrusted
  {
    FoundMeans(fs, LIM01);
    FoundMeans(fs, LIM03);
    FoundMeans(fs, LIM05);
  }

  lemma ExcusedMeans(fs: seq<Finding>)
    ensures HasHostLimit(fs) && !WireAt(fs, WARNING, FAILED) && AllPoorAreHostSensitive(fs) <==> Excused(fs)
  {
    if AllPoorAreHostSensitive(fs) {
      forall i | 0 <= i < |fs| && (fs[i].severity == POOR || fs[i].severity == FAILED) ensures fs[i].hostSensitive {
        assert !Convicts(fs[i]);
      }
    }
  }

  lemma {:induction false} WorstStays(fs: seq<Finding>, cats: set<Category>)
    ensures WorstIn(fs, cats) < MARKER
  {
    if fs != [] {
      WorstStays(fs[..|fs| - 1], cats);
    }
  }

  /** Exactly which lists of findings get which class. */
  lemma ClassIsDecided(fs: seq<Finding>)
    ensures var c := Classify(fs);
            var condemned := WireAt(fs, POOR, FAILED);
            && (c == Failed <==> WireAt(fs, FAILED, FAILED))
            && (c == Poor <==>
                  || (condemned && !WireAt(fs, FAILED, FAILED))
                  || (!condemned && !Found(fs, HOST02) && SymptomAt(fs, POOR, FAILED) && !Excused(fs)))
            && (c == Warned <==>
                  && !condemned && !Found(fs, HOST02) && !SymptomAt(fs, POOR, FAILED)
                  && (SymptomAt(fs, WARNING, WARNING) || WireAt(fs, WARNING, WARNING)))
            && (c == Good <==>
                  && !WireAt(fs, WARNING, FAILED) && !SymptomAt(fs, WARNING, FAILED) && !Found(fs, HOST02) && !Untrusted(fs)
                  && (WireAt(fs, INFO, INFO) || SymptomAt(fs, INFO, INFO) || Found(fs, LIM02)))
            && (c == Excellent <==>
                  && !WireAt(fs, INFO, FAILED) && !SymptomAt(fs, INFO, FAILED)
                  && !Found(fs, HOST02) && !Untrusted(fs) && !Found(fs, LIM02))
            && (c == Inconclusive <==>
                  && !condemned
                  && (|| Found(fs, HOST02)
                      || (SymptomAt(fs, POOR, FAILED) && Excused(fs))
                      || (Untrusted(fs) && !WireAt(fs, WARNING, FAILED) && !SymptomAt(fs, WARNING, FAILED))))
  {
    SummaryLevels(fs);
    SummaryMarkers(fs);
    RangesSplit(fs);
    VerdictIsDecided(Summarize(fs));
  }

  lemma RangesSplit(fs: seq<Finding>)
    ensures WireAt(fs, INFO, FAILED) <==> WireAt(fs, INFO, INFO) || WireAt(fs, WARNING, FAILED)
    ensures SymptomAt(fs, INFO, FAILED) <==> SymptomAt(fs, INFO, INFO) || SymptomAt(fs, WARNING, FAILED)
    ensures WireAt(fs, WARNING, FAILED) <==> WireAt(fs, WARNING, WARNING) || WireAt(fs, POOR, FAILED)
    ensures SymptomAt(fs, WARNING, FAILED) <==> SymptomAt(fs, WARNING, WARNING) || SymptomAt(fs, POOR, FAILED)
  {}

  lemma VerdictIsDecided(s: Summary)
    requires s.worstPhysical < MARKER
    ensures var excused := s.hostLimited && s.worstPhysical < WARNING && s.allPoorHostSensitive;
            var c := Verdict(s);
            && (c == Failed <==> s.worstPhysical >= FAILED)
            && (c == Poor <==>
                  || (s.worstPhysical >= POOR && !(s.worstPhysical >= FAILED))
                  || (s.worstPhysical < POOR && !s.virtualInterface && s.worstSymptom >= POOR && !excused))
            && (c == Warned <==>
                  && s.worstPhysical < POOR && !s.virtualInterface && s.worstSymptom < POOR
                  && (s.worstSymptom >= WARNING || s.worstPhysical >= WARNING))
            && (c == Good <==>
                  && s.worstPhysical < WARNING && s.worstSymptom < WARNING && !s.virtualInterface && !s.untrusted
                  && (s.anyInfo || s.reduced))
            && (c == Excellent <==>
                  && s.worstPhysical < WARNING && s.worstSymptom < WARNING && !s.anyInfo
                  && !s.virtualInterface && !s.untrusted && !s.reduced)
            && (c == Inconclusive <==>
                  && s.worstPhysical < POOR
                  && (|| s.virtualInterface || (s.worstSymptom >= POOR && excused)
                      || (s.untrusted && s.worstPhysical < WARNING && s.worstSymptom < WARNING)))
  {}

  // --- The fold as it is written ---

  method WorstFinding(fs: seq<Finding>, cats: set<Category>) returns (worst: Severity)
    ensures worst == WorstIn(fs, cats)
  {
    worst := NOTHING;
    for i := 0 to |fs|
      invariant worst == WorstIn(fs[..i], cats) && worst >= NOTHING
    {
      assert fs[..i + 1][..i] == fs[..i];
      if fs[i].severity >= MARKER {
        continue;
      }
      if fs[i].category in cats && fs[i].severity > worst {
        worst := fs[i].severity;
      }
    }
    assert fs[..|fs|] == fs;
  }

  method CollectFindings(rules: seq<RuleId>, f: Facts, t: Thresholds) returns (fs: seq<Finding>)
    ensures fs == Collect(rules, f, t)
  {
    fs := [];
    for i := 0 to |rules|
      invariant fs == Collect(rules[..i], f, t)
    {
      assert rules[..i + 1][..i] == rules[..i];
      var s := SeverityOf(rules[i], f, t);
      if s != NOTHING {
        fs := fs + [FindingOf(rules[i], s)];
      }
    }
    assert rules[..|rules|] == rules;
  }

  method ClassifyFindings(fs: seq<Finding>) returns (c: HealthClass)
    ensures c == Classify(fs)
  {
    var physical := WorstFinding(fs, PHYSICAL);
    if physical == FAILED {
      return Failed;
    }
    if physical == POOR {
      return Poor;
    }
    var symptom := WorstFinding(fs, SYMPTOMS);
    var tentative := Excellent;
    if symptom >= POOR {
      if HasHostLimit(fs) && physical < WARNING && AllPoorAreHostSensitive(fs) {
        return Inconclusive;
      }
      tentative := Poor;
    } else if symptom == WARNING || physical == WARNING {
      tentative := Warned;
    } else if AnyInfoDeviation(fs) {
      tentative := Good;
    }
    if HasFinding(fs, HOST02) {
      return Inconclusive;
    }
    if HasFinding(fs, LIM01) || HasFinding(fs, LIM03) || HasFinding(fs, LIM05) {
      if tentative == Excellent || tentative == Good {
        return Inconclusive;
      }
    }
    if HasFinding(fs, LIM02) && tentative == Excellent {
      tentative := Good;
    }
    return tentative;
  }
}
