/**
 * The single-variant road engine: six agents over a reported pothole, the
 * lifecycle timeline, the alert builder with its separate at-risk alert,
 * its own contractor table and id format, and the normalisation of a
 * submitted form into a pothole record.
 */
module RoadGuardian {
  import opened Common
  import opened Text
  import opened PotholeTypes

  // ---------------------------------------------------------------------
  // Detection
  // ---------------------------------------------------------------------

  /** An existing pothole duplicates p: same location ignoring case, another id. */
  predicate IsDuplicateOf(existing: Pothole, p: Pothole)
  {
    EqualIgnoringCase(existing.location, p.location) && existing.id != p.id
  }

  function HasDuplicate(existing: seq<Pothole>, p: Pothole): (r: bool)
    ensures r <==> exists i :: 0 <= i < |existing| && IsDuplicateOf(existing[i], p)
  {
    if existing == [] then false
    else IsDuplicateOf(existing[0], p) || HasDuplicate(existing[1..], p)
  }

  /** runDetectionAgent: a warning exactly when some existing record duplicates p. */
  function RunDetectionAgent(p: Pothole, existing: seq<Pothole>): (a: RoadAnalysis)
    ensures a.agent == Detection && a.icon == Eye && a.color == AgentDetection
    ensures a.status == Warning <==> exists i :: 0 <= i < |existing| && IsDuplicateOf(existing[i], p)
    ensures a.status == Warning ==> a.message == DuplicateDetected
    ensures a.status != Warning ==> a.status == Info && a.message == NewRegistered
  {
    if HasDuplicate(existing, p) then
      RoadAnalysis(Detection, Eye, AgentDetection, DuplicateDetected, Warning)
    else
      RoadAnalysis(Detection, Eye, AgentDetection, NewRegistered, Info)
  }

  /**
   * A record never duplicates itself; a record at the same location, spelt
   * in capitals, under another id is a duplicate whatever else differs.
   */
  lemma DuplicateExamples(p: Pothole, other: Pothole)
    requires other.id != p.id
    ensures RunDetectionAgent(p, [p]).status == Info
    ensures RunDetectionAgent(p, [other.(location := Upper(p.location))]).status == Warning
  {
    LowerOfUpper(p.location);
    assert IsDuplicateOf(other.(location := Upper(p.location)), p);
  }

  /** Adding records to the scan never withdraws a duplicate verdict. */
  lemma DuplicateMonotone(p: Pothole, existing: seq<Pothole>, more: seq<Pothole>)
    ensures RunDetectionAgent(p, existing).status == Warning ==>
      RunDetectionAgent(p, existing + more).status == Warning
    ensures RunDetectionAgent(p, more).status == Warning ==>
      RunDetectionAgent(p, existing + more).status == Warning
  {
    if RunDetectionAgent(p, existing).status == Warning {
      var i :| 0 <= i < |existing| && IsDuplicateOf(existing[i], p);
      assert (existing + more)[i] == existing[i];
    }
    if RunDetectionAgent(p, more).status == Warning {
      var i :| 0 <= i < |more| && IsDuplicateOf(more[i], p);
      assert (existing + more)[|existing| + i] == more[i];
    }
  }

  // ---------------------------------------------------------------------
  // Tracking, quality, transparency
  // ---------------------------------------------------------------------

  /** runTrackingAgent: the severity follows the SLA status. */
  function RunTrackingAgent(p: Pothole): (a: RoadAnalysis)
    ensures a.agent == RepairTracking && a.icon == GitBranch && a.color == AgentTracking
    ensures a.message == RepairProgress(p.status, p.slaStatus)
    ensures a.status != Info && StatusRank(a.status) == SlaRank(p.slaStatus)
  {
    var status := match p.slaStatus
      case OnTrack => Success
      case AtRisk => Warning
      case Breached => Danger;
    RoadAnalysis(RepairTracking, GitBranch, AgentTracking, RepairProgress(p.status, p.slaStatus), status)
  }

  /** runQualityAgent: danger on a frequent repeat failure, warning on any other repeat. */
  function RunQualityAgent(p: Pothole): (a: RoadAnalysis)
    ensures a.agent == DurabilityQuality && a.icon == Shield && a.color == AgentQuality
    ensures a.status == Danger <==> IsFrequentFailure(p.previousRepairs, p.daysSinceLastRepair)
    ensures a.status == Success <==> !p.previousRepairs
    ensures a.status != Info
    ensures a.message == HighRecurrenceRisk <==> a.status == Danger
    ensures a.message == FirstTimeReport <==> a.status == Success
    ensures a.message == RepeatRepairNoted <==> a.status == Warning
  {
    if p.previousRepairs then
      var isFrequent := p.daysSinceLastRepair.Some? && p.daysSinceLastRepair.value != 0
        && p.daysSinceLastRepair.value < 90;
      if isFrequent then
        RoadAnalysis(DurabilityQuality, Shield, AgentQuality, HighRecurrenceRisk, Danger)
      else
        RoadAnalysis(DurabilityQuality, Shield, AgentQuality, RepeatRepairNoted, Warning)
    else
      RoadAnalysis(DurabilityQuality, Shield, AgentQuality, FirstTimeReport, Success)
  }

  /** runTransparencyAgent: an informational citizen update keyed on the status. */
  function RunTransparencyAgent(p: Pothole): (a: RoadAnalysis)
    ensures a.agent == TransparencyTimeline && a.icon == Clock && a.color == AgentTransparency
    ensures a.status == Info && a.message == CitizenProgress(p.status)
  {
    RoadAnalysis(TransparencyTimeline, Clock, AgentTransparency, CitizenProgress(p.status), Info)
  }

  // ---------------------------------------------------------------------
  // Contractor and alert agents
  // ---------------------------------------------------------------------

  /** What the contractor agent reports: the score's band, with the record message for that band. */
  function ContractorAnalysis(c: ContractorScore): RoadAnalysis
  {
    var message := if c.score >= 80 then ExcellentRecord
                   else if c.score >= 60 then ModerateRecord
                   else PoorRecord;
    RoadAnalysis(ContractorPerformance, UserCheck, AgentContractor, message, ScoreBand(c.score))
  }

  /** runContractorAgent: the >= 80 / >= 60 / < 60 bands. */
  method RunContractorAgent(p: Pothole, c: ContractorScore) returns (a: RoadAnalysis)
    ensures a.agent == ContractorPerformance && a.icon == UserCheck && a.color == AgentContractor
    ensures a.status == ScoreBand(c.score)
    ensures c.score >= 80 ==> a.message == ExcellentRecord
    ensures 60 <= c.score < 80 ==> a.message == ModerateRecord
    ensures c.score < 60 ==> a.message == PoorRecord
    ensures a == ContractorAnalysis(c)
  {
    var message: RoadMessage := NoCriticalIssues;
    var status: AgentStatus := Info;
    if c.score >= 80 {
      message := ExcellentRecord;
      status := Success;
    } else if c.score >= 60 {
      message := ModerateRecord;
      status := Warning;
    } else {
      message := PoorRecord;
      status := Danger;
    }
    a := RoadAnalysis(ContractorPerformance, UserCheck, AgentContractor, message, status);
  }

  function IssueCandidates(p: Pothole, c: ContractorScore): seq<Candidate<RoadIssue>>
  {
    [ Candidate(p.slaStatus != OnTrack, if p.slaStatus == Breached then BreachEscalation else RiskNotice),
      Candidate(c.score < 60, UnderperformingContractor),
      Candidate(IsFrequentFailure(p.previousRepairs, p.daysSinceLastRepair), RepeatFailureConcern) ]
  }

  /** The issues runAlertAgent lists, in the order it pushes them. */
  function Issues(p: Pothole, c: ContractorScore): seq<RoadIssue>
  {
    Fired(IssueCandidates(p, c))
  }

  lemma UnfoldIssues(p: Pothole, c: ContractorScore)
    ensures Issues(p, c) ==
      (if p.slaStatus == Breached then [BreachEscalation]
       else if p.slaStatus == SlaStatus.AtRisk then [RiskNotice] else [])
      + (if c.score < 60 then [UnderperformingContractor] else [])
      + (if IsFrequentFailure(p.previousRepairs, p.daysSinceLastRepair) then [RepeatFailureConcern] else [])
  {
    var cs := IssueCandidates(p, c);
    FiredUnfold(cs[0], cs[1], cs[2], cs[2]);
    assert cs == [cs[0], cs[1], cs[2]];
  }

  /**
   * What the alert agent reports: the no-issues message with success when
   * no issue is listed; otherwise the issues, with danger on a breach or a
   * frequent repeat failure and warning otherwise.
   */
  function AlertAnalysis(p: Pothole, c: ContractorScore): RoadAnalysis
  {
    var issues := Issues(p, c);
    var status := if p.slaStatus == Breached || IsFrequentFailure(p.previousRepairs, p.daysSinceLastRepair) then Danger
                  else if p.slaStatus == SlaStatus.AtRisk || c.score < 60 then Warning
                  else Success;
    if issues == [] then RoadAnalysis(AlertAccountability, AlertTriangle, AgentAlert, NoCriticalIssues, Success)
    else RoadAnalysis(AlertAccountability, AlertTriangle, AgentAlert, AccountabilityAlerts(issues), status)
  }

  /**
   * runAlertAgent. Success with the no-issues text exactly when no condition
   * fires; danger whenever the SLA is breached or the repeat-failure test
   * holds; otherwise warning on an at-risk SLA or a score below 60.
   */
  method RunAlertAgent(p: Pothole, c: ContractorScore) returns (a: RoadAnalysis)
    ensures a.agent == AlertAccountability && a.icon == AlertTriangle && a.color == AgentAlert
    ensures a.message == (if Issues(p, c) == [] then NoCriticalIssues else AccountabilityAlerts(Issues(p, c)))
    ensures a.message == NoCriticalIssues <==>
      p.slaStatus == OnTrack && c.score >= 60 && !IsFrequentFailure(p.previousRepairs, p.daysSinceLastRepair)
    ensures a.message == NoCriticalIssues ==> a.status == Success
    ensures a.status == Danger <==> p.slaStatus == Breached || IsFrequentFailure(p.previousRepairs, p.daysSinceLastRepair)
    ensures a.status == Warning <==> a.status != Danger && (p.slaStatus == SlaStatus.AtRisk || c.score < 60)
    ensures a.status != Info
    ensures a == AlertAnalysis(p, c)
  {
    var issues: seq<RoadIssue> := [];
    var status := Success;
    if p.slaStatus == Breached {
      issues := issues + [BreachEscalation];
      status := Danger;
    } else if p.slaStatus == SlaStatus.AtRisk {
      issues := issues + [RiskNotice];
      status := Warning;
    }
    if c.score < 60 {
      issues := issues + [UnderperformingContractor];
      status := if status == Danger then Danger else Warning;
    }
    if p.previousRepairs && p.daysSinceLastRepair.Some? && p.daysSinceLastRepair.value != 0
      && p.daysSinceLastRepair.value < 90
    {
      issues := issues + [RepeatFailureConcern];
      status := Danger;
    }
    UnfoldIssues(p, c);
    if |issues| == 0 {
      a := RoadAnalysis(AlertAccountability, AlertTriangle, AgentAlert, NoCriticalIssues, Success);
    } else {
      a := RoadAnalysis(AlertAccountability, AlertTriangle, AgentAlert, AccountabilityAlerts(issues), status);
    }
  }

  /**
   * A score below 60 adds exactly one issue, and the issue list for a low
   * score contains every issue of the list for an acceptable one.
   */
  lemma LowScoreAddsOneIssue(p: Pothole, c: ContractorScore, low: int)
    requires c.score >= 60 && low < 60
    ensures |Issues(p, c.(score := low))| == |Issues(p, c)| + 1
    ensures forall x :: x in Issues(p, c) ==> x in Issues(p, c.(score := low))
    ensures UnderperformingContractor in Issues(p, c.(score := low))
    ensures UnderperformingContractor !in Issues(p, c)
  {
    UnfoldIssues(p, c);
    UnfoldIssues(p, c.(score := low));
  }

  // ---------------------------------------------------------------------
  // Timeline and alerts
  // ---------------------------------------------------------------------

  /** The timeline of a pothole: one event per milestone. */
  function Timeline(p: Pothole): seq<RoadEvent>
  {
    var ms := Milestones(p.status, p.daysOpen);
    seq(|ms|, i requires 0 <= i < |ms| => RoadEvent(p.dateReported + ms[i].offsetDays * DayMs, ms[i].stage))
  }

  /**
   * generateTimeline: one event per lifecycle stage reached, dated at the
   * stage's offset from the report date.
   */
  method GenerateTimeline(p: Pothole) returns (events: seq<RoadEvent>)
    ensures |events| == |Milestones(p.status, p.daysOpen)|
    ensures forall i :: 0 <= i < |events| ==>
      events[i] == RoadEvent(p.dateReported + Milestones(p.status, p.daysOpen)[i].offsetDays * DayMs,
                             Milestones(p.status, p.daysOpen)[i].stage)
    ensures events == Timeline(p)
  {
    var baseDate := p.dateReported;
    events := [RoadEvent(baseDate, Reported)];
    // statusOrder.indexOf(status) over [assigned, in_progress, repaired, closed]
    var statusIndex := StageIndex(p.status) - 1;
    if statusIndex >= 0 {
      events := events + [RoadEvent(baseDate + 1 * DayMs, Assigned)];
    }
    if statusIndex >= 1 {
      events := events + [RoadEvent(baseDate + 2 * DayMs, InProgress)];
    }
    if statusIndex >= 2 {
      events := events + [RoadEvent(baseDate + (p.daysOpen - 1) * DayMs, Repaired)];
    }
    if statusIndex >= 3 {
      events := events + [RoadEvent(baseDate + p.daysOpen * DayMs, Closed)];
    }
  }

  /** The delay alert: critical on a breach, high with the days remaining when at risk. */
  function DelayAlert(p: Pothole, now: int): RoadAlert
  {
    if p.slaStatus == Breached then
      RoadAlert("alert-sla-" + p.id, DelayKind, Critical, Some(p.id), Some(p.contractor), None, now)
    else
      RoadAlert("alert-risk-" + p.id, DelayKind, High, Some(p.id), Some(p.contractor),
                Some(p.expectedSla - p.daysOpen), now)
  }

  function PerformanceAlert(p: Pothole, now: int): RoadAlert
  {
    RoadAlert("alert-perf-" + p.contractor, PerformanceKind, High, None, Some(p.contractor), None, now)
  }

  function QualityAlert(p: Pothole, now: int): RoadAlert
  {
    RoadAlert("alert-quality-" + p.id, QualityKind, High, Some(p.id), Some(p.contractor), None, now)
  }

  /** The alerts generateAlerts may push, in its order, each with its condition. */
  function AlertCandidates(p: Pothole, c: ContractorScore, now: int): seq<Candidate<RoadAlert>>
  {
    [ Candidate(p.slaStatus != OnTrack, DelayAlert(p, now)),
      Candidate(c.score < 60, PerformanceAlert(p, now)),
      Candidate(IsFrequentFailure(p.previousRepairs, p.daysSinceLastRepair), QualityAlert(p, now)) ]
  }

  function Alerts(p: Pothole, c: ContractorScore, now: int): seq<RoadAlert>
  {
    Fired(AlertCandidates(p, c, now))
  }

  lemma UnfoldAlerts(p: Pothole, c: ContractorScore, now: int)
    ensures Alerts(p, c, now) ==
      (if p.slaStatus != OnTrack then [DelayAlert(p, now)] else [])
      + (if c.score < 60 then [PerformanceAlert(p, now)] else [])
      + (if IsFrequentFailure(p.previousRepairs, p.daysSinceLastRepair) then [QualityAlert(p, now)] else [])
  {
    var cs := AlertCandidates(p, c, now);
    FiredUnfold(cs[0], cs[1], cs[2], cs[2]);
    assert cs == [cs[0], cs[1], cs[2]];
  }

  /** generateAlerts, pushing onto a local list; `now` stands for `new Date()`. */
  method GenerateAlerts(p: Pothole, c: ContractorScore, now: int) returns (alerts: seq<RoadAlert>)
    ensures alerts == Alerts(p, c, now)
  {
    alerts := [];
    if p.slaStatus == Breached {
      alerts := alerts + [RoadAlert("alert-sla-" + p.id, DelayKind, Critical, Some(p.id), Some(p.contractor), None, now)];
    } else if p.slaStatus == SlaStatus.AtRisk {
      alerts := alerts + [RoadAlert("alert-risk-" + p.id, DelayKind, High, Some(p.id), Some(p.contractor),
                                    Some(p.expectedSla - p.daysOpen), now)];
    }
    if c.score < 60 {
      alerts := alerts + [PerformanceAlert(p, now)];
    }
    if p.previousRepairs && p.daysSinceLastRepair.Some? && p.daysSinceLastRepair.value != 0
      && p.daysSinceLastRepair.value < 90
    {
      alerts := alerts + [QualityAlert(p, now)];
    }
    UnfoldAlerts(p, c, now);
  }

  /**
   * At most three alerts and at most one delay alert: critical exactly on a
   * breach, high exactly when at risk, none when on track; performance/high
   * exactly on a score below 60; quality/high exactly on a frequent repeat
   * failure.
   */
  lemma AlertsShape(p: Pothole, c: ContractorScore, now: int)
    ensures var alerts := Alerts(p, c, now);
      && |alerts| <= 3
      && |set a | a in alerts && a.kind == DelayKind| <= 1
      && (DelayKind in AlertKinds(alerts) <==> p.slaStatus != OnTrack)
      && (forall a :: a in alerts && a.kind == DelayKind ==>
            (a.severity == Critical <==> p.slaStatus == Breached)
            && (a.severity == High <==> p.slaStatus == SlaStatus.AtRisk)
            && a.id == (if p.slaStatus == Breached then "alert-sla-" else "alert-risk-") + p.id)
      && (PerformanceKind in AlertKinds(alerts) <==> c.score < 60)
      && (QualityKind in AlertKinds(alerts) <==> IsFrequentFailure(p.previousRepairs, p.daysSinceLastRepair))
      && SafetyKind !in AlertKinds(alerts)
      && (forall a :: a in alerts && a.kind != DelayKind ==> a.severity == High)
      && (forall a :: a in alerts ==> a.timestamp == now && a.contractor == Some(p.contractor))
  {
    UnfoldAlerts(p, c, now);
    var alerts := Alerts(p, c, now);
    var d, pf, q := DelayAlert(p, now), PerformanceAlert(p, now), QualityAlert(p, now);
    assert forall a :: a in alerts ==>
      || (a == d && p.slaStatus != OnTrack)
      || (a == pf && c.score < 60)
      || (a == q && IsFrequentFailure(p.previousRepairs, p.daysSinceLastRepair));
    var delays := set a | a in alerts && a.kind == DelayKind;
    if p.slaStatus != OnTrack {
      assert d in alerts;
      assert delays == {d};
    } else {
      assert delays == {};
    }
    if c.score < 60 {
      assert pf in alerts;
    }
    if IsFrequentFailure(p.previousRepairs, p.daysSinceLastRepair) {
      assert q in alerts;
    }
  }

  /**
   * When the SLA status was derived from the record, the days quoted by an
   * at-risk alert are strictly positive: at risk means fewer days open than
   * the SLA allows.
   */
  lemma AtRiskDaysRemainingPositive(p: Pothole, c: ContractorScore, now: int)
    requires p.expectedSla > 0 && p.slaStatus == CalculateSlaStatus(p.daysOpen, p.expectedSla)
    ensures forall a :: a in Alerts(p, c, now) && a.daysRemaining.Some? ==>
      a.severity == High && 0 < a.daysRemaining.value <= p.expectedSla - 1
  {
    UnfoldAlerts(p, c, now);
  }

  // ---------------------------------------------------------------------
  // Contractor table
  // ---------------------------------------------------------------------

  const Contractors: map<string, ContractorScore> := map[
    "RoadWorks Pro Inc." := ContractorScore("RoadWorks Pro Inc.", 87, 18, 4, 5, 145, 138),
    "City Maintenance Corp" := ContractorScore("City Maintenance Corp", 72, 36, 6, 12, 89, 76),
    "QuickFix Contractors" := ContractorScore("QuickFix Contractors", 54, 48, 8, 22, 67, 45),
    "Metro Roads Ltd." := ContractorScore("Metro Roads Ltd.", 91, 12, 3, 3, 203, 198),
    "Urban Infrastructure Co." := ContractorScore("Urban Infrastructure Co.", 68, 42, 7, 15, 112, 89)
  ]

  /**
   * `contractorScores[name] || default`: the seeded record on an exact-name
   * hit, otherwise a default scored 70 under the given name.
   */
  function LookupContractor(name: string): (c: ContractorScore)
    ensures c.name == name
    ensures name in Contractors ==> c == Contractors[name]
    ensures name !in Contractors ==> c == ContractorScore(name, 70, 24, 5, 10, 50, 40)
    ensures 0 <= c.score <= 100
  {
    if name in Contractors then Contractors[name]
    else ContractorScore(name, 70, 24, 5, 10, 50, 40)
  }

  /**
   * Only 'QuickFix Contractors' draws a performance alert; an unknown name
   * is rated moderate.
   */
  lemma OnlyQuickFixUnderperforms(name: string)
    ensures LookupContractor(name).score < 60 <==> name == "QuickFix Contractors"
    ensures name !in Contractors ==> ScoreBand(LookupContractor(name).score) == Warning
  {
  }

  // ---------------------------------------------------------------------
  // Analysis entry point
  // ---------------------------------------------------------------------

  /** The form, with the report date already parsed to milliseconds. */
  datatype PotholeForm = PotholeForm(
    potholeId: string,
    location: string,
    dateReported: int,
    contractor: string,
    expectedSla: int,
    status: PotholeStatus,
    previousRepairs: bool,
    daysSinceLastRepair: Option<int>)

  datatype Report = Report(
    pothole: Pothole,
    agentAnalyses: seq<RoadAnalysis>,
    timeline: seq<RoadEvent>,
    alerts: seq<RoadAlert>,
    contractorScore: ContractorScore)

  /** `PH-<year>-<3-digit suffix>`; the last three characters read back as the suffix. */
  function GeneratedId(year: nat, suffix: nat): (id: string)
    requires suffix < 1000
    ensures |id| == 3 + |Decimal(year)| + 1 + 3
    ensures id[..3] == "PH-"
    ensures forall i :: 3 <= i < |id| - 4 ==> IsDigit(id[i])
    ensures ParseDecimal(id[3..|id| - 4]) == year
    ensures id[|id| - 4] == '-'
    ensures forall i :: |id| - 3 <= i < |id| ==> IsDigit(id[i])
    ensures ParseDecimal(id[|id| - 3..]) == suffix
  {
    var digits := PaddedNumber(suffix, 3);
    var y := Decimal(year);
    ParseDecimalOfDecimal(year);
    var id := "PH-" + y + "-" + digits;
    assert id[|id| - 3..] == digits;
    assert id[3..|id| - 4] == y;
    id
  }

  /**
   * The pothole record built from a form: the id is kept unless it is the
   * 'new' sentinel, daysOpen is counted from the report date to `nowMs`, and
   * the SLA status is derived from it.
   */
  function NormalizeForm(form: PotholeForm, nowMs: int, year: nat, suffix: nat): (p: Pothole)
    requires form.expectedSla > 0
    requires suffix < 1000
    ensures p.id == ResolveId(form.potholeId, GeneratedId(year, suffix))
    ensures p.daysOpen == DaysOpen(nowMs, form.dateReported) && p.daysOpen >= 1
    ensures p.expectedSla == form.expectedSla
    ensures p.slaStatus == CalculateSlaStatus(p.daysOpen, p.expectedSla)
    ensures p.location == form.location && p.dateReported == form.dateReported
      && p.contractor == form.contractor && p.status == form.status
      && p.previousRepairs == form.previousRepairs && p.daysSinceLastRepair == form.daysSinceLastRepair
  {
    var daysOpen := DaysOpen(nowMs, form.dateReported);
    var generated := GeneratedId(year, suffix);
    var potholeId := if Lower(form.potholeId) == "new" || form.potholeId == "" then generated else form.potholeId;
    Pothole(potholeId, form.location, form.dateReported, form.contractor, form.expectedSla, form.status,
      form.previousRepairs, form.daysSinceLastRepair, daysOpen, CalculateSlaStatus(daysOpen, form.expectedSla))
  }

  /**
   * analyzeWithROADGUARDIAN. `nowMs` and `year` stand for today's date and
   * `suffix` for the random id suffix. The contractor is looked up; the six
   * agents run in their fixed order; the timeline and alerts are built from
   * the record.
   */
  method AnalyzeWithRoadGuardian(form: PotholeForm, existing: seq<Pothole>, nowMs: int, year: nat, suffix: nat)
    returns (r: Report)
    requires form.expectedSla > 0
    requires suffix < 1000
    ensures r.pothole == NormalizeForm(form, nowMs, year, suffix)
    ensures r.contractorScore == LookupContractor(form.contractor)
    ensures r.agentAnalyses == [
      RunDetectionAgent(r.pothole, existing),
      RunTrackingAgent(r.pothole),
      ContractorAnalysis(r.contractorScore),
      RunQualityAgent(r.pothole),
      RunTransparencyAgent(r.pothole),
      AlertAnalysis(r.pothole, r.contractorScore)]
    ensures r.timeline == Timeline(r.pothole)
    ensures |r.timeline| == StageIndex(form.status) + 1
    ensures r.alerts == Alerts(r.pothole, r.contractorScore, nowMs)
  {
    var pothole := NormalizeForm(form, nowMs, year, suffix);
    var contractorScore := LookupContractor(form.contractor);
    var contractorAnalysis := RunContractorAgent(pothole, contractorScore);
    var alertAnalysis := RunAlertAgent(pothole, contractorScore);
    var agentAnalyses := [
      RunDetectionAgent(pothole, existing),
      RunTrackingAgent(pothole),
      contractorAnalysis,
      RunQualityAgent(pothole),
      RunTransparencyAgent(pothole),
      alertAnalysis];
    var timeline := GenerateTimeline(pothole);
    var alerts := GenerateAlerts(pothole, contractorScore, nowMs);
    r := Report(pothole, agentAnalyses, timeline, alerts, contractorScore);
  }
}
