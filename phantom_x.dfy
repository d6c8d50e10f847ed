/**
 * The supply-chain half of the two-variant engine (Phantom-X): the phantom
 * stock percentage, the additive disruption-risk score, seven agents over a
 * supplier, the supply timeline and alert builders, the supplier score and
 * the normalisation of a submitted form into a supplier record.
 */
module PhantomX {
  import opened Common
  import opened Text
  import opened GuardianTypes

  // ---------------------------------------------------------------------
  // Phantom stock
  // ---------------------------------------------------------------------

  /**
   * calculatePhantomStock: the share of the reported stock, in percent, that
   * is not physically there. Zero when no count was taken or the count is
   * at least the reported figure; otherwise positive, and at most 100 when
   * the count is not negative.
   */
  function CalculatePhantomStock(reported: int, actual: Option<int>): (r: real)
    requires actual.Some? && actual.value < reported ==> reported != 0
    ensures r == 0.0 <==> actual.None? || actual.value >= reported
    ensures actual.Some? && actual.value < reported ==>
      r * reported as real == (reported - actual.value) as real * 100.0
    ensures actual.Some? && 0 <= actual.value < reported ==> 0.0 < r <= 100.0
  {
    if actual.None? || actual.value >= reported then 0.0
    else
      var missing := (reported - actual.value) as real;
      var share := missing / reported as real;
      assert share * reported as real == missing;
      assert 0 <= actual.value ==> 0.0 < share <= 1.0;
      share * 100.0
  }

  /** The smaller the physical count, the larger the phantom share. */
  lemma PhantomStockAntitone(reported: int, a1: int, a2: int)
    requires reported > 0 && a1 <= a2
    ensures CalculatePhantomStock(reported, Some(a2)) <= CalculatePhantomStock(reported, Some(a1))
  {
    var p1 := CalculatePhantomStock(reported, Some(a1));
    var p2 := CalculatePhantomStock(reported, Some(a2));
    if a2 < reported {
      var r := reported as real;
      assert (p1 - p2) * r == (a2 - a1) as real * 100.0;
      NonNegativeFactor(p1 - p2, r);
    }
  }

  lemma NonNegativeFactor(x: real, r: real)
    requires r > 0.0 && x * r >= 0.0
    ensures x >= 0.0
  {
  }

  lemma PhantomStockExamples()
    ensures CalculatePhantomStock(100, Some(100)) == 0.0
    ensures CalculatePhantomStock(100, Some(80)) == 20.0
    ensures CalculatePhantomStock(100, Some(120)) == 0.0
    ensures CalculatePhantomStock(100, None) == 0.0
    ensures CalculatePhantomStock(1000, Some(0)) == 100.0
  {
  }

  // ---------------------------------------------------------------------
  // Disruption risk
  // ---------------------------------------------------------------------

  function PhantomPoints(p: real): nat
  {
    if p > 30.0 then 3 else if p > 15.0 then 2 else if p > 5.0 then 1 else 0
  }

  function UtilizationPoints(u: int): nat
  {
    if u > 95 then 2 else if u > 85 then 1 else 0
  }

  function LeadTimePoints(l: int): nat
  {
    if l > 14 then 2 else if l > 7 then 1 else 0
  }

  /** Only an at-risk or disrupted supplier adds status points. */
  function StatusPoints(s: SupplierStatus): nat
  {
    match s
    case Disrupted => 3
    case AtRisk => 2
    case _ => 0
  }

  function TierPoints(t: SupplierTier): nat
  {
    if t == Tier1 then 1 else 0
  }

  /** The risk score: the sum of five independent bands. */
  function RiskScore(s: Supplier): nat
  {
    PhantomPoints(s.phantomStockPercentage) + UtilizationPoints(s.currentUtilization)
      + LeadTimePoints(s.leadTimeDays) + StatusPoints(s.status) + TierPoints(s.tier)
  }

  /** The four tiers: critical from 7 points, high from 5, medium from 3. */
  function RiskTier(score: int): (r: Level)
    ensures r == Low <==> score < 3
    ensures r == Critical <==> score >= 7
    ensures r == High <==> 5 <= score < 7
  {
    if score >= 7 then Critical
    else if score >= 5 then High
    else if score >= 3 then Medium
    else Low
  }

  /** calculateDisruptionRisk, accumulating the score band by band. */
  method CalculateDisruptionRisk(s: Supplier) returns (risk: Level)
    ensures risk == RiskTier(RiskScore(s))
  {
    var riskScore := 0;
    if s.phantomStockPercentage > 30.0 {
      riskScore := riskScore + 3;
    } else if s.phantomStockPercentage > 15.0 {
      riskScore := riskScore + 2;
    } else if s.phantomStockPercentage > 5.0 {
      riskScore := riskScore + 1;
    }
    if s.currentUtilization > 95 {
      riskScore := riskScore + 2;
    } else if s.currentUtilization > 85 {
      riskScore := riskScore + 1;
    }
    if s.leadTimeDays > 14 {
      riskScore := riskScore + 2;
    } else if s.leadTimeDays > 7 {
      riskScore := riskScore + 1;
    }
    if s.status == Disrupted {
      riskScore := riskScore + 3;
    } else if s.status == SupplierStatus.AtRisk {
      riskScore := riskScore + 2;
    }
    if s.tier == Tier1 {
      riskScore := riskScore + 1;
    }
    if riskScore >= 7 {
      risk := Critical;
    } else if riskScore >= 5 {
      risk := High;
    } else if riskScore >= 3 {
      risk := Medium;
    } else {
      risk := Low;
    }
  }

  /** The score never leaves [0, 11], and 11 is reached. */
  lemma RiskScoreBounds(s: Supplier)
    ensures 0 <= RiskScore(s) <= 11
    ensures RiskScore(s.(phantomStockPercentage := 35.0, currentUtilization := 96, leadTimeDays := 15,
                         status := Disrupted, tier := Tier1)) == 11
  {
  }

  /** The tiers are ordered like the scores. */
  lemma RiskTierMonotone(a: int, b: int)
    requires a <= b
    ensures LevelRank(RiskTier(a)) <= LevelRank(RiskTier(b))
  {
  }

  /**
   * A supplier that is at least as bad on every band (phantom share,
   * utilization, lead time, status, tier) never gets a lower tier.
   */
  lemma RiskMonotone(s: Supplier, t: Supplier)
    requires s.phantomStockPercentage <= t.phantomStockPercentage
    requires s.currentUtilization <= t.currentUtilization
    requires s.leadTimeDays <= t.leadTimeDays
    requires StatusPoints(s.status) <= StatusPoints(t.status)
    requires s.tier == Tier1 ==> t.tier == Tier1
    ensures RiskScore(s) <= RiskScore(t)
    ensures LevelRank(RiskTier(RiskScore(s))) <= LevelRank(RiskTier(RiskScore(t)))
  {
    RiskTierMonotone(RiskScore(s), RiskScore(t));
  }

  /** Escalating active -> at_risk -> disrupted, or becoming tier 1, never lowers the tier. */
  lemma RiskEscalation(s: Supplier)
    requires s.status == Active
    ensures LevelRank(RiskTier(RiskScore(s))) <= LevelRank(RiskTier(RiskScore(s.(status := SupplierStatus.AtRisk))))
    ensures LevelRank(RiskTier(RiskScore(s.(status := SupplierStatus.AtRisk))))
         <= LevelRank(RiskTier(RiskScore(s.(status := Disrupted))))
    ensures LevelRank(RiskTier(RiskScore(s))) <= LevelRank(RiskTier(RiskScore(s.(tier := Tier1))))
  {
    RiskMonotone(s, s.(status := SupplierStatus.AtRisk));
    RiskMonotone(s.(status := SupplierStatus.AtRisk), s.(status := Disrupted));
    RiskMonotone(s, s.(tier := Tier1));
  }

  /**
   * A disrupted supplier is never low risk; a disrupted tier-1 supplier with
   * 35% phantom stock, 96% utilization and 15-day lead time is critical; a
   * healthy active supplier is low risk whatever its tier.
   */
  lemma RiskExamples(s: Supplier)
    ensures s.status == Disrupted ==> RiskTier(RiskScore(s)) != Low
    ensures RiskTier(RiskScore(s.(phantomStockPercentage := 35.0, currentUtilization := 96,
                                   leadTimeDays := 15, status := Disrupted, tier := Tier1))) == Critical
    ensures (s.phantomStockPercentage <= 5.0 && s.currentUtilization <= 85 && s.leadTimeDays <= 7
             && s.status == Active) ==> RiskTier(RiskScore(s)) == Low
  {
  }

  // ---------------------------------------------------------------------
  // Ingestion, tracking, prediction, validation, transparency agents
  // ---------------------------------------------------------------------

  /** An existing supplier duplicates s: the exact same name and city under another id. */
  predicate IsSupplierDuplicateOf(existing: Supplier, s: Supplier)
  {
    existing.name == s.name && existing.city == s.city && existing.id != s.id
  }

  function HasSupplierDuplicate(existing: seq<Supplier>, s: Supplier): (r: bool)
    ensures r <==> exists i :: 0 <= i < |existing| && IsSupplierDuplicateOf(existing[i], s)
  {
    if existing == [] then false
    else IsSupplierDuplicateOf(existing[0], s) || HasSupplierDuplicate(existing[1..], s)
  }

  /** runPhantomIngestionAgent: a warning exactly when some existing record duplicates s. */
  function RunPhantomIngestionAgent(s: Supplier, existing: seq<Supplier>): (a: AgentAnalysis)
    ensures a.agent == DataIngestion && a.icon == Database && a.color == AgentDetection && a.project == PhantomX
    ensures a.status == Warning <==> exists i :: 0 <= i < |existing| && IsSupplierDuplicateOf(existing[i], s)
    ensures a.status == Warning ==> a.message == DuplicateSupplier
    ensures a.status != Warning ==> a.status == Info && a.message == SupplierRegistered
  {
    if HasSupplierDuplicate(existing, s) then
      AgentAnalysis(DataIngestion, Database, AgentDetection, DuplicateSupplier, Warning, PhantomX)
    else
      AgentAnalysis(DataIngestion, Database, AgentDetection, SupplierRegistered, Info, PhantomX)
  }

  /**
   * A record never duplicates itself; the name must match exactly, so a
   * spelling that differs in letter case is a new supplier; the same name in
   * the same city under another id is a duplicate.
   */
  lemma SupplierDuplicateExamples(s: Supplier, otherId: string)
    requires otherId != s.id
    ensures RunPhantomIngestionAgent(s, [s]).status == Info
    ensures RunPhantomIngestionAgent(s, [s.(id := otherId)]).status == Warning
    ensures Upper(s.name) != s.name ==>
      RunPhantomIngestionAgent(s, [s.(id := otherId, name := Upper(s.name))]).status == Info
  {
    assert IsSupplierDuplicateOf(s.(id := otherId), s);
  }

  /** runPhantomTrackingAgent: the severity of each supplier status. */
  function RunPhantomTrackingAgent(s: Supplier): (a: AgentAnalysis)
    ensures a.agent == LifecycleTracking && a.icon == GitBranch && a.color == AgentTracking && a.project == PhantomX
    ensures a.message == SupplierUpdate(s.status)
    ensures a.status == Danger <==> s.status == Disrupted || s.status == Blacklisted
    ensures a.status == Warning <==> s.status == SupplierStatus.AtRisk
    ensures a.status == Info <==> s.status == Resolved
    ensures a.status == Success <==> s.status == Active
  {
    var status := match s.status
      case Active => Success
      case AtRisk => Warning
      case Disrupted => Danger
      case Resolved => Info
      case Blacklisted => Danger;
    AgentAnalysis(LifecycleTracking, GitBranch, AgentTracking, SupplierUpdate(s.status), status, PhantomX)
  }

  /** runPhantomPredictionAgent: the severity of each risk tier. */
  function RunPhantomPredictionAgent(s: Supplier): (a: AgentAnalysis)
    ensures a.agent == PredictionForecasting && a.icon == TrendingUp && a.color == AgentQuality && a.project == PhantomX
    ensures a.message == RiskPrediction(s.disruptionRisk)
    ensures a.status == Danger <==> s.disruptionRisk == Critical
    ensures a.status == Warning <==> s.disruptionRisk == Medium || s.disruptionRisk == High
    ensures a.status == Success <==> s.disruptionRisk == Low
    ensures a.status != Info
  {
    var status := match s.disruptionRisk
      case Low => Success
      case Medium => Warning
      case High => Warning
      case Critical => Danger;
    AgentAnalysis(PredictionForecasting, TrendingUp, AgentQuality, RiskPrediction(s.disruptionRisk), status, PhantomX)
  }

  /** runPhantomValidationAgent: danger above 20%, warning above 10%, verified otherwise. */
  function RunPhantomValidationAgent(s: Supplier): (a: AgentAnalysis)
    ensures a.agent == ValidationAnomaly && a.project == PhantomX
    ensures a.status == Danger <==> s.phantomStockPercentage > 20.0
    ensures a.status == Warning <==> 10.0 < s.phantomStockPercentage <= 20.0
    ensures a.status == Success <==> s.phantomStockPercentage <= 10.0
    ensures a.message == PhantomStockDetected <==> a.status == Danger
    ensures a.message == ModerateDiscrepancy <==> a.status == Warning
    ensures a.message == StockVerified <==> a.status == Success
    ensures a.status == Success <==> a.icon == CheckCircle && a.color == AgentContractor
    ensures a.status != Success <==> a.icon == AlertOctagon && a.color == AgentAlert
  {
    if s.phantomStockPercentage > 20.0 then
      AgentAnalysis(ValidationAnomaly, AlertOctagon, AgentAlert, PhantomStockDetected, Danger, PhantomX)
    else if s.phantomStockPercentage > 10.0 then
      AgentAnalysis(ValidationAnomaly, AlertOctagon, AgentAlert, ModerateDiscrepancy, Warning, PhantomX)
    else
      AgentAnalysis(ValidationAnomaly, CheckCircle, AgentContractor, StockVerified, Success, PhantomX)
  }

  /** runPhantomTransparencyAgent: informational; action is required on high or critical risk. */
  function RunPhantomTransparencyAgent(s: Supplier): (a: AgentAnalysis)
    ensures a.agent == TransparencyCitizen && a.icon == FileText && a.color == AgentTransparency && a.project == PhantomX
    ensures a.status == Info
    ensures a.message.IndustryUpdate?
    ensures a.message.actionRequired <==> LevelRank(s.disruptionRisk) >= 2
  {
    var actionRequired := s.disruptionRisk == Critical || s.disruptionRisk == High;
    AgentAnalysis(TransparencyCitizen, FileText, AgentTransparency, IndustryUpdate(actionRequired), Info, PhantomX)
  }

  // ---------------------------------------------------------------------
  // Scoring and alert agents
  // ---------------------------------------------------------------------

  /** What the scoring agent reports: the score's band, with the performance message for that band. */
  function ScoringAnalysis(sc: SupplierScore): AgentAnalysis
  {
    var message := if sc.score >= 80 then ExcellentPerformance
                   else if sc.score >= 60 then ModeratePerformance
                   else PoorPerformance;
    AgentAnalysis(AccountabilityScoring, Award, AgentContractor, message, ScoreBand(sc.score), PhantomX)
  }

  /** runPhantomScoringAgent: the >= 80 / >= 60 / < 60 bands. */
  method RunPhantomScoringAgent(s: Supplier, sc: SupplierScore) returns (a: AgentAnalysis)
    ensures a.agent == AccountabilityScoring && a.icon == Award && a.color == AgentContractor && a.project == PhantomX
    ensures a.status == ScoreBand(sc.score)
    ensures sc.score >= 80 ==> a.message == ExcellentPerformance
    ensures 60 <= sc.score < 80 ==> a.message == ModeratePerformance
    ensures sc.score < 60 ==> a.message == PoorPerformance
    ensures a == ScoringAnalysis(sc)
  {
    var message: Message := AllClear;
    var status: AgentStatus := Info;
    if sc.score >= 80 {
      message := ExcellentPerformance;
      status := Success;
    } else if sc.score >= 60 {
      message := ModeratePerformance;
      status := Warning;
    } else {
      message := PoorPerformance;
      status := Danger;
    }
    a := AgentAnalysis(AccountabilityScoring, Award, AgentContractor, message, status, PhantomX);
  }

  function SupplyIssueCandidates(s: Supplier, sc: SupplierScore): seq<Candidate<Issue>>
  {
    [ Candidate(s.phantomStockPercentage > 20.0, CriticalPhantomStock),
      Candidate(s.disruptionRisk == Critical || s.disruptionRisk == High,
                if s.disruptionRisk == Critical then DisruptionImminent else HighDisruptionRisk),
      Candidate(sc.score < 60, UnderperformingActor),
      Candidate(s.currentUtilization > 95, CapacityConstraint) ]
  }

  /** The issues runPhantomAlertAgent lists, in the order it pushes them. */
  function SupplyIssues(s: Supplier, sc: SupplierScore): seq<Issue>
  {
    Fired(SupplyIssueCandidates(s, sc))
  }

  /**
   * What the alert agent reports: all-clear under the bell with the success
   * colour when no issue is listed; otherwise the issues, with danger on a
   * phantom share above 20% or a critical risk, warning on a high risk or a
   * low score, success otherwise.
   */
  function SupplyAlertAnalysis(s: Supplier, sc: SupplierScore): AgentAnalysis
  {
    var issues := SupplyIssues(s, sc);
    var status := if s.phantomStockPercentage > 20.0 || s.disruptionRisk == Critical then Danger
                  else if s.disruptionRisk == High || sc.score < 60 then Warning
                  else Success;
    if issues == [] then AgentAnalysis(AlertEarlyWarning, Bell, SuccessColor, AllClear, Success, PhantomX)
    else AgentAnalysis(AlertEarlyWarning, AlertTriangle, AgentAlert, Accountability(issues), status, PhantomX)
  }

  /**
   * runPhantomAlertAgent. Danger on a phantom share above 20% or a critical
   * risk; otherwise warning on a high risk or a score below 60; otherwise
   * success. A capacity constraint adds an issue but never raises the status.
   */
  method RunPhantomAlertAgent(s: Supplier, sc: SupplierScore) returns (a: AgentAnalysis)
    ensures a.agent == AlertEarlyWarning && a.project == PhantomX
    ensures a.message == (if SupplyIssues(s, sc) == [] then AllClear else Accountability(SupplyIssues(s, sc)))
    ensures a.message == AllClear <==>
      s.phantomStockPercentage <= 20.0 && LevelRank(s.disruptionRisk) < 2 && sc.score >= 60 && s.currentUtilization <= 95
    ensures a.status == Danger <==> s.phantomStockPercentage > 20.0 || s.disruptionRisk == Critical
    ensures a.status == Warning <==> a.status != Danger && (s.disruptionRisk == High || sc.score < 60)
    ensures a.status != Info
    ensures a.message == AllClear ==> a.icon == Bell && a.color == SuccessColor
    ensures a.message != AllClear ==> a.icon == AlertTriangle && a.color == AgentAlert
    ensures a == SupplyAlertAnalysis(s, sc)
  {
    var issues: seq<Issue> := [];
    var status := Success;
    if s.phantomStockPercentage > 20.0 {
      issues := issues + [CriticalPhantomStock];
      status := Danger;
    }
    if s.disruptionRisk == Critical {
      issues := issues + [DisruptionImminent];
      status := Danger;
    } else if s.disruptionRisk == High {
      issues := issues + [HighDisruptionRisk];
      status := if status == Danger then Danger else Warning;
    }
    if sc.score < 60 {
      issues := issues + [UnderperformingActor];
      status := if status == Danger then Danger else Warning;
    }
    if s.currentUtilization > 95 {
      issues := issues + [CapacityConstraint];
    }
    UnfoldSupplyIssues(s, sc);
    assert issues == SupplyIssues(s, sc);
    if |issues| == 0 {
      a := AgentAnalysis(AlertEarlyWarning, Bell, SuccessColor, AllClear, Success, PhantomX);
    } else {
      a := AgentAnalysis(AlertEarlyWarning, AlertTriangle, AgentAlert, Accountability(issues), status, PhantomX);
    }
  }

  // ---------------------------------------------------------------------
  // Timeline and alerts
  // ---------------------------------------------------------------------

  /** The events generateSupplyTimeline may push, in its order, each with its condition. */
  function SupplyTimelineCandidates(s: Supplier, now: int): seq<Candidate<TimelineEvent>>
  {
    [ Candidate(true, TimelineEvent(s.lastAuditDate, AuditCompleted, Some(PhantomX))),
      Candidate(s.phantomStockPercentage > 10.0,
                TimelineEvent(s.lastAuditDate + 1 * DayMs, DiscrepancyDetected, Some(PhantomX))),
      Candidate(s.status == SupplierStatus.AtRisk || s.status == Disrupted,
                TimelineEvent(now, SupplierStage(s.status), Some(PhantomX))) ]
  }

  function SupplyTimeline(s: Supplier, now: int): seq<TimelineEvent>
  {
    Fired(SupplyTimelineCandidates(s, now))
  }

  lemma UnfoldSupplyTimeline(s: Supplier, now: int)
    ensures SupplyTimeline(s, now) ==
      [TimelineEvent(s.lastAuditDate, AuditCompleted, Some(PhantomX))]
      + (if s.phantomStockPercentage > 10.0
         then [TimelineEvent(s.lastAuditDate + DayMs, DiscrepancyDetected, Some(PhantomX))] else [])
      + (if s.status == SupplierStatus.AtRisk || s.status == Disrupted
         then [TimelineEvent(now, SupplierStage(s.status), Some(PhantomX))] else [])
  {
    var cs := SupplyTimelineCandidates(s, now);
    FiredUnfold(cs[0], cs[1], cs[2], cs[2]);
    assert cs == [cs[0], cs[1], cs[2]];
  }

  /** generateSupplyTimeline, pushing onto a local list; `now` stands for `new Date()`. */
  method GenerateSupplyTimeline(s: Supplier, now: int) returns (events: seq<TimelineEvent>)
    ensures events == SupplyTimeline(s, now)
  {
    var baseDate := s.lastAuditDate;
    events := [TimelineEvent(baseDate, AuditCompleted, Some(PhantomX))];
    if s.phantomStockPercentage > 10.0 {
      events := events + [TimelineEvent(baseDate + 1 * DayMs, DiscrepancyDetected, Some(PhantomX))];
    }
    if s.status == SupplierStatus.AtRisk || s.status == Disrupted {
      events := events + [TimelineEvent(now, SupplierStage(s.status), Some(PhantomX))];
    }
    UnfoldSupplyTimeline(s, now);
  }

  /**
   * One to three events: the audit first, at the audit date; a discrepancy
   * a day later exactly when the phantom share exceeds 10%; a status event
   * dated now exactly when the supplier is at risk or disrupted. Every
   * event is tagged with the project.
   */
  lemma SupplyTimelineShape(s: Supplier, now: int)
    ensures var events := SupplyTimeline(s, now);
      && 1 <= |events| <= 3
      && events[0] == TimelineEvent(s.lastAuditDate, AuditCompleted, Some(PhantomX))
      && ((exists i :: 0 <= i < |events| && events[i].status == DiscrepancyDetected)
          <==> s.phantomStockPercentage > 10.0)
      && ((exists i :: 0 <= i < |events| && events[i].status.SupplierStage?)
          <==> s.status == SupplierStatus.AtRisk || s.status == Disrupted)
      && (forall i :: 0 <= i < |events| && events[i].status == DiscrepancyDetected ==>
            events[i].date == s.lastAuditDate + DayMs)
      && (forall i :: 0 <= i < |events| && events[i].status.SupplierStage? ==>
            events[i] == TimelineEvent(now, SupplierStage(s.status), Some(PhantomX)))
      && (forall i :: 0 <= i < |events| ==> events[i].project == Some(PhantomX))
  {
    UnfoldSupplyTimeline(s, now);
    var events := SupplyTimeline(s, now);
    if s.phantomStockPercentage > 10.0 {
      assert events[1].status == DiscrepancyDetected;
    }
    if s.status == SupplierStatus.AtRisk || s.status == Disrupted {
      assert events[|events| - 1].status.SupplierStage?;
    }
  }

  function PhantomStockAlert(s: Supplier, now: int): Alert
  {
    Alert("alert-phantom-" + s.id, PhantomStock, Critical, Some(s.id), None, Some(s.name),
          Some(s.city), Some(s.state), now, PhantomX)
  }

  function DisruptionAlert(s: Supplier, now: int): Alert
  {
    Alert("alert-disruption-" + s.id, Disruption, Critical, Some(s.id), None, Some(s.name),
          Some(s.city), Some(s.state), now, PhantomX)
  }

  /** The capacity alert carries no city or state. */
  function CapacityAlert(s: Supplier, now: int): Alert
  {
    Alert("alert-capacity-" + s.id, Capacity, High, Some(s.id), None, Some(s.name),
          None, None, now, PhantomX)
  }

  /** The alerts generateSupplyAlerts may push, in its order, each with its condition. */
  function SupplyAlertCandidates(s: Supplier, now: int): seq<Candidate<Alert>>
  {
    [ Candidate(s.phantomStockPercentage > 20.0, PhantomStockAlert(s, now)),
      Candidate(s.disruptionRisk == Critical, DisruptionAlert(s, now)),
      Candidate(s.currentUtilization > 95, CapacityAlert(s, now)) ]
  }

  function SupplyAlerts(s: Supplier, now: int): seq<Alert>
  {
    Fired(SupplyAlertCandidates(s, now))
  }

  lemma UnfoldSupplyAlerts(s: Supplier, now: int)
    ensures SupplyAlerts(s, now) ==
      (if s.phantomStockPercentage > 20.0 then [PhantomStockAlert(s, now)] else [])
      + (if s.disruptionRisk == Critical then [DisruptionAlert(s, now)] else [])
      + (if s.currentUtilization > 95 then [CapacityAlert(s, now)] else [])
  {
    var cs := SupplyAlertCandidates(s, now);
    FiredUnfold(cs[0], cs[1], cs[2], cs[2]);
    assert cs == [cs[0], cs[1], cs[2]];
  }

  /** generateSupplyAlerts, pushing onto a local list; `now` stands for `new Date()`. */
  method GenerateSupplyAlerts(s: Supplier, now: int) returns (alerts: seq<Alert>)
    ensures alerts == SupplyAlerts(s, now)
  {
    alerts := [];
    if s.phantomStockPercentage > 20.0 {
      alerts := alerts + [PhantomStockAlert(s, now)];
    }
    if s.disruptionRisk == Critical {
      alerts := alerts + [DisruptionAlert(s, now)];
    }
    if s.currentUtilization > 95 {
      alerts := alerts + [CapacityAlert(s, now)];
    }
    UnfoldSupplyAlerts(s, now);
  }

  /**
   * At most three alerts, one per independent condition, each with its
   * severity and derived id.
   */
  lemma SupplyAlertsShape(s: Supplier, now: int)
    ensures var alerts := SupplyAlerts(s, now);
      && |alerts| <= 3
      && (PhantomStock in Kinds(alerts) <==> s.phantomStockPercentage > 20.0)
      && (Disruption in Kinds(alerts) <==> s.disruptionRisk == Critical)
      && (Capacity in Kinds(alerts) <==> s.currentUtilization > 95)
      && Kinds(alerts) <= {PhantomStock, Disruption, Capacity}
      && (forall a :: a in alerts && a.kind == PhantomStock ==> a.severity == Critical && a.id == "alert-phantom-" + s.id)
      && (forall a :: a in alerts && a.kind == Disruption ==> a.severity == Critical && a.id == "alert-disruption-" + s.id)
      && (forall a :: a in alerts && a.kind == Capacity ==>
            a.severity == High && a.id == "alert-capacity-" + s.id && a.city.None? && a.state.None?)
      && (forall a :: a in alerts ==> a.timestamp == now && a.project == PhantomX && a.supplier == Some(s.name))
  {
    UnfoldSupplyAlerts(s, now);
    var alerts := SupplyAlerts(s, now);
    if s.currentUtilization > 95 {
      assert CapacityAlert(s, now) in alerts;
    }
  }

  /**
   * Making a condition hold never removes an alert: a supplier with the same
   * identity that is at least as bad on phantom share and utilization, and
   * critical whenever the first one is, raises every alert the first one
   * raises, and strictly more when one more condition holds.
   */
  lemma SupplyAlertsMonotone(s: Supplier, t: Supplier, now: int)
    requires t.id == s.id && t.name == s.name && t.city == s.city && t.state == s.state
    requires s.phantomStockPercentage <= t.phantomStockPercentage
    requires s.currentUtilization <= t.currentUtilization
    requires s.disruptionRisk == Critical ==> t.disruptionRisk == Critical
    ensures forall a :: a in SupplyAlerts(s, now) ==> a in SupplyAlerts(t, now)
    ensures |SupplyAlerts(s, now)| <= |SupplyAlerts(t, now)|
    ensures (s.phantomStockPercentage <= 20.0 < t.phantomStockPercentage)
      || (s.disruptionRisk != Critical && t.disruptionRisk == Critical)
      || (s.currentUtilization <= 95 < t.currentUtilization)
      ==> |SupplyAlerts(s, now)| < |SupplyAlerts(t, now)|
  {
    var cs := SupplyAlertCandidates(s, now);
    var ds := SupplyAlertCandidates(t, now);
    assert Weaker(cs, ds);
    FiredMonotone(cs, ds);
    if s.phantomStockPercentage <= 20.0 < t.phantomStockPercentage {
      assert ds[0].fires && !cs[0].fires;
    } else if s.disruptionRisk != Critical && t.disruptionRisk == Critical {
      assert ds[1].fires && !cs[1].fires;
    } else if s.currentUtilization <= 95 < t.currentUtilization {
      assert ds[2].fires && !cs[2].fires;
    }
  }

  /**
   * The agents and the alert list agree: the validation agent is in danger
   * exactly when a phantom-stock alert is raised, the prediction agent
   * exactly when a disruption alert is, and the alert agent lists a capacity
   * issue exactly when a capacity alert is raised.
   */
  lemma SupplyAgentsAgreeWithAlerts(s: Supplier, sc: SupplierScore, now: int)
    ensures RunPhantomValidationAgent(s).status == Danger <==> PhantomStock in Kinds(SupplyAlerts(s, now))
    ensures RunPhantomPredictionAgent(s).status == Danger <==> Disruption in Kinds(SupplyAlerts(s, now))
    ensures CapacityConstraint in SupplyIssues(s, sc) <==> Capacity in Kinds(SupplyAlerts(s, now))
  {
    SupplyAlertsShape(s, now);
    UnfoldSupplyIssues(s, sc);
  }

  lemma UnfoldSupplyIssues(s: Supplier, sc: SupplierScore)
    ensures SupplyIssues(s, sc) ==
      (if s.phantomStockPercentage > 20.0 then [CriticalPhantomStock] else [])
      + (if s.disruptionRisk == Critical then [DisruptionImminent]
         else if s.disruptionRisk == High then [HighDisruptionRisk] else [])
      + (if sc.score < 60 then [UnderperformingActor] else [])
      + (if s.currentUtilization > 95 then [CapacityConstraint] else [])
  {
    var cs := SupplyIssueCandidates(s, sc);
    FiredUnfold(cs[0], cs[1], cs[2], cs[3]);
    assert cs == [cs[0], cs[1], cs[2], cs[3]];
  }

  // ---------------------------------------------------------------------
  // Supplier score
  // ---------------------------------------------------------------------

  /** `Math.round`: the nearest integer, halves rounded up. */
  function Round(x: real): (r: int)
    ensures r as real - 0.5 <= x < r as real + 0.5
  {
    (x + 0.5).Floor
  }

  /** `Math.ceil`. */
  function Ceil(x: real): (r: int)
    ensures x <= r as real < x + 1.0
  {
    -((-x).Floor)
  }

  function PhantomDeduction(p: real): int
  {
    if p > 20.0 then 25 else if p > 10.0 then 15 else if p > 5.0 then 5 else 0
  }

  function StatusDeduction(s: SupplierStatus): int
  {
    if s == Disrupted then 20 else if s == SupplierStatus.AtRisk then 10 else 0
  }

  function CapacityDeduction(u: int): int
  {
    if u > 95 then 5 else 0
  }

  /** One phantom incident per started 5% once the share exceeds 10%; between 3 and 20. */
  function IncidentCount(p: real): (r: int)
    ensures p <= 10.0 ==> r == 0
    ensures p > 10.0 ==> 3 <= r && p <= 5.0 * r as real < p + 5.0
    ensures p <= 100.0 ==> r <= 20
  {
    if p > 10.0 then Ceil(p / 5.0) else 0
  }

  /**
   * The order counts as intended: `fulfilled` is 75% to 95% of the same
   * `total`, both drawn from the random numbers in [0, 1) passed in.
   */
  function OrderCounts(orderDraw: real, rateDraw: real): (r: (int, int))
    requires 0.0 <= orderDraw < 1.0 && 0.0 <= rateDraw < 1.0
    ensures 100 <= r.0 < 600
    ensures 0 <= r.1 < r.0
    ensures (3 * r.0) / 4 <= r.1
  {
    var total := (orderDraw * 500.0).Floor + 100;
    var rate := rateDraw * 0.2 + 0.75;
    RateFloorBounds(rate, total);
    (total, (rate * total as real).Floor)
  }

  /** A rate in [0.75, 1) of a positive total, rounded down, lies in [3/4 of it, it). */
  lemma RateFloorBounds(rate: real, total: int)
    requires 0.75 <= rate < 1.0 && total > 0
    ensures (3 * total) / 4 <= (rate * total as real).Floor < total
  {
    var t := total as real;
    var x := rate * t;
    assert 0.75 * t <= x < t;
    var lo := (3 * total) / 4;
    assert lo as real <= 0.75 * t;
    var f := x.Floor;
    assert x - 1.0 < f as real <= x;
  }

  /**
   * The order counts as written: `fulfilled` is computed from a second,
   * independent draw of the order total rather than from `total`.
   */
  function OrderCountsAsWritten(orderDraw: real, rateDraw: real, secondDraw: real): (r: (int, int))
    requires 0.0 <= orderDraw < 1.0 && 0.0 <= rateDraw < 1.0 && 0.0 <= secondDraw < 1.0
    ensures 100 <= r.0 < 600
    ensures 0 <= r.1
  {
    var total := (orderDraw * 500.0).Floor + 100;
    var otherTotal := (secondDraw * 500.0).Floor + 100;
    (total, ((rateDraw * 0.2 + 0.75) * otherTotal as real).Floor)
  }

  /** As written, 505 of 100 orders can be reported fulfilled. */
  lemma OrdersCanExceedTotal()
    ensures OrderCountsAsWritten(0.0, 0.5, 0.99) == (100, 505)
    ensures OrderCountsAsWritten(0.0, 0.5, 0.99).1 > OrderCountsAsWritten(0.0, 0.5, 0.99).0
  {
    assert (0.99 * 500.0).Floor == 495;
    assert (0.85 * 595.0).Floor == 505;
  }

  /**
   * The supplier score of analyzeWithPhantomX: 80 less the phantom, status
   * and capacity deductions, clamped to [0, 100]; accuracy is the rounded
   * complement of the phantom share; delivery drops to 75% on lead times
   * above a week. `orderDraw` and `rateDraw` stand for `Math.random()`.
   */
  method ScoreSupplier(name: string, p: real, status: SupplierStatus, utilization: int, leadTimeDays: int,
                       orderDraw: real, rateDraw: real) returns (sc: SupplierScore)
    requires 0.0 <= orderDraw < 1.0 && 0.0 <= rateDraw < 1.0
    ensures sc.name == name
    ensures sc.score == 80 - PhantomDeduction(p) - StatusDeduction(status) - CapacityDeduction(utilization)
    ensures 30 <= sc.score <= 80
    ensures sc.accuracyRate == Round(100.0 - p)
    ensures 0.0 <= p <= 100.0 ==> 0 <= sc.accuracyRate <= 100
    ensures sc.deliveryOnTime == (if leadTimeDays > 7 then 75 else 85)
    ensures sc.phantomStockIncidents == IncidentCount(p)
    ensures (sc.totalOrders, sc.fulfilledOrders) == OrderCounts(orderDraw, rateDraw)
    ensures sc.fulfilledOrders < sc.totalOrders
    ensures sc == SupplierScoreFor(name, p, status, utilization, leadTimeDays, orderDraw, rateDraw)
  {
    var baseScore := 80;
    if p > 20.0 {
      baseScore := baseScore - 25;
    } else if p > 10.0 {
      baseScore := baseScore - 15;
    } else if p > 5.0 {
      baseScore := baseScore - 5;
    }
    if status == Disrupted {
      baseScore := baseScore - 20;
    } else if status == SupplierStatus.AtRisk {
      baseScore := baseScore - 10;
    }
    if utilization > 95 {
      baseScore := baseScore - 5;
    }
    var clamped := if baseScore > 100 then 100 else baseScore;
    clamped := if clamped < 0 then 0 else clamped;
    var orders := OrderCounts(orderDraw, rateDraw);
    sc := SupplierScore(name, clamped, Round(100.0 - p), 85 - (if leadTimeDays > 7 then 10 else 0),
                        IncidentCount(p), orders.0, orders.1);
  }

  /** The score before clamping; the clamp to [0, 100] never changes it. */
  function SupplierBaseScore(p: real, status: SupplierStatus, utilization: int): int
  {
    80 - PhantomDeduction(p) - StatusDeduction(status) - CapacityDeduction(utilization)
  }

  /**
   * The score record for a supplier with phantom share `p`: the deduction
   * score, the rounded accuracy, the delivery rate by lead time, the
   * incident count and the corrected order counts.
   */
  function SupplierScoreFor(name: string, p: real, status: SupplierStatus, utilization: int, leadTimeDays: int,
                            orderDraw: real, rateDraw: real): SupplierScore
    requires 0.0 <= orderDraw < 1.0 && 0.0 <= rateDraw < 1.0
  {
    var orders := OrderCounts(orderDraw, rateDraw);
    SupplierScore(name, SupplierBaseScore(p, status, utilization), Round(100.0 - p),
                  if leadTimeDays > 7 then 75 else 85, IncidentCount(p), orders.0, orders.1)
  }

  /**
   * A larger phantom share, a worse status or a higher utilization never
   * raises the score.
   */
  lemma SupplierScoreAntitone(p1: real, p2: real, s1: SupplierStatus, s2: SupplierStatus, u1: int, u2: int)
    requires p1 <= p2 && u1 <= u2 && StatusPoints(s1) <= StatusPoints(s2)
    ensures SupplierBaseScore(p2, s2, u2) <= SupplierBaseScore(p1, s1, u1)
  {
  }

  /**
   * Score bands: over 20% phantom stock on a disrupted supplier is always
   * poor; an active supplier with at most 10% phantom stock is never poor;
   * one with at most 5% and spare capacity is excellent.
   */
  lemma SupplierScoreBands(p: real, status: SupplierStatus, utilization: int)
    ensures p > 20.0 && status == Disrupted ==> ScoreBand(SupplierBaseScore(p, status, utilization)) == Danger
    ensures p <= 10.0 && status == Active ==> ScoreBand(SupplierBaseScore(p, status, utilization)) != Danger
    ensures p <= 5.0 && status == Active && utilization <= 95 ==>
      ScoreBand(SupplierBaseScore(p, status, utilization)) == Success
  {
  }

  // ---------------------------------------------------------------------
  // Analysis entry point
  // ---------------------------------------------------------------------

  /** The supplier form, with the audit date already parsed to milliseconds. */
  datatype SupplyForm = SupplyForm(
    supplierId: string,
    supplierName: string,
    tier: SupplierTier,
    state: string,
    city: string,
    reportedStock: int,
    actualStock: Option<int>,
    productionCapacity: int,
    currentUtilization: int,
    leadTimeDays: int,
    status: SupplierStatus,
    lastAuditDate: int)

  datatype SupplyReport = SupplyReport(
    supplier: Supplier,
    agentAnalyses: seq<AgentAnalysis>,
    timeline: seq<TimelineEvent>,
    alerts: seq<Alert>,
    supplierScore: SupplierScore)

  /** `SUP-<state[0..2]>-<4-digit suffix>`; the last four characters read back as the suffix. */
  function GeneratedSupplierId(state: string, suffix: nat): (id: string)
    requires suffix < 10000
    ensures |id| == 4 + |Take(state, 2)| + 1 + 4
    ensures id[..4] == "SUP-"
    ensures forall i :: 0 <= i < |Take(state, 2)| ==> id[4 + i] == UpperChar(state[i])
    ensures id[|id| - 5] == '-'
    ensures forall i :: |id| - 4 <= i < |id| ==> IsDigit(id[i])
    ensures ParseDecimal(id[|id| - 4..]) == suffix
  {
    var digits := PaddedNumber(suffix, 4);
    var id := "SUP-" + Upper(Take(state, 2)) + "-" + digits;
    assert id[|id| - 4..] == digits;
    id
  }

  /** The supplier record built from a form before its risk is assessed (risk 'low', no regional factors). */
  function BaseSupplier(form: SupplyForm, suffix: nat): (s: Supplier)
    requires form.actualStock.Some? && form.actualStock.value < form.reportedStock ==> form.reportedStock != 0
    requires suffix < 10000
    ensures s.id == ResolveId(form.supplierId, GeneratedSupplierId(form.state, suffix))
    ensures s.phantomStockPercentage == CalculatePhantomStock(form.reportedStock, form.actualStock)
    ensures s.disruptionRisk == Low && s.regionalFactors == []
    ensures s.name == form.supplierName && s.tier == form.tier && s.city == form.city && s.state == form.state
      && s.reportedStock == form.reportedStock && s.actualStock == form.actualStock
      && s.productionCapacity == form.productionCapacity && s.currentUtilization == form.currentUtilization
      && s.leadTimeDays == form.leadTimeDays && s.status == form.status && s.lastAuditDate == form.lastAuditDate
  {
    var generated := GeneratedSupplierId(form.state, suffix);
    var supplierId := if Lower(form.supplierId) == "new" || form.supplierId == "" then generated else form.supplierId;
    Supplier(supplierId, form.supplierName, form.tier, form.city, form.state, form.reportedStock,
      form.actualStock, CalculatePhantomStock(form.reportedStock, form.actualStock), form.productionCapacity,
      form.currentUtilization, form.leadTimeDays, form.status, form.lastAuditDate, Low, [])
  }

  /** The seven agents of analyzeWithPhantomX, in their fixed order. */
  method RunPhantomAgents(supplier: Supplier, supplierScore: SupplierScore, existing: seq<Supplier>)
    returns (agentAnalyses: seq<AgentAnalysis>)
    ensures agentAnalyses == [
      RunPhantomIngestionAgent(supplier, existing),
      RunPhantomTrackingAgent(supplier),
      RunPhantomPredictionAgent(supplier),
      RunPhantomValidationAgent(supplier),
      ScoringAnalysis(supplierScore),
      RunPhantomTransparencyAgent(supplier),
      SupplyAlertAnalysis(supplier, supplierScore)]
  {
    var scoringAnalysis := RunPhantomScoringAgent(supplier, supplierScore);
    var alertAnalysis := RunPhantomAlertAgent(supplier, supplierScore);
    agentAnalyses := [
      RunPhantomIngestionAgent(supplier, existing),
      RunPhantomTrackingAgent(supplier),
      RunPhantomPredictionAgent(supplier),
      RunPhantomValidationAgent(supplier),
      scoringAnalysis,
      RunPhantomTransparencyAgent(supplier),
      alertAnalysis];
  }

  /**
   * analyzeWithPhantomX. `nowMs` stands for today's date, `suffix` for the
   * random id suffix and the two draws for the random order counts. The
   * risk tier replaces the provisional 'low'; nothing else of the record
   * changes. The seven agents run in their fixed order.
   */
  method AnalyzeWithPhantomX(form: SupplyForm, existing: seq<Supplier>, nowMs: int, suffix: nat,
                             orderDraw: real, rateDraw: real) returns (r: SupplyReport)
    requires form.actualStock.Some? && form.actualStock.value < form.reportedStock ==> form.reportedStock != 0
    requires suffix < 10000
    requires 0.0 <= orderDraw < 1.0 && 0.0 <= rateDraw < 1.0
    ensures r.supplier == BaseSupplier(form, suffix).(disruptionRisk := RiskTier(RiskScore(BaseSupplier(form, suffix))))
    ensures r.supplierScore == SupplierScoreFor(form.supplierName, r.supplier.phantomStockPercentage, form.status,
                                                form.currentUtilization, form.leadTimeDays, orderDraw, rateDraw)
    ensures r.agentAnalyses == [
      RunPhantomIngestionAgent(r.supplier, existing),
      RunPhantomTrackingAgent(r.supplier),
      RunPhantomPredictionAgent(r.supplier),
      RunPhantomValidationAgent(r.supplier),
      ScoringAnalysis(r.supplierScore),
      RunPhantomTransparencyAgent(r.supplier),
      SupplyAlertAnalysis(r.supplier, r.supplierScore)]
    ensures r.timeline == SupplyTimeline(r.supplier, nowMs)
    ensures r.alerts == SupplyAlerts(r.supplier, nowMs)
  {
    var baseSupplier := BaseSupplier(form, suffix);
    var risk := CalculateDisruptionRisk(baseSupplier);
    var supplier := baseSupplier.(disruptionRisk := risk);
    var supplierScore := ScoreSupplier(form.supplierName, supplier.phantomStockPercentage, form.status,
                                       form.currentUtilization, form.leadTimeDays, orderDraw, rateDraw);
    var agentAnalyses := RunPhantomAgents(supplier, supplierScore, existing);
    var timeline := GenerateSupplyTimeline(supplier, nowMs);
    var alerts := GenerateSupplyAlerts(supplier, nowMs);
    r := SupplyReport(supplier, agentAnalyses, timeline, alerts, supplierScore);
  }
}
