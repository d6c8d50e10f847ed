/**
 * The road half of the two-variant engine: six agents over a reported
 * pothole, the lifecycle timeline, the alert builder, the contractor table
 * and the normalisation of a submitted form into a pothole record.
 */
module BharatRoad {
  import opened Common
  import opened Text
  import opened GuardianTypes

  // ---------------------------------------------------------------------
  // Data ingestion (duplicate detection)
  // ---------------------------------------------------------------------

  /** An existing pothole duplicates p: same location ignoring case, same city, another id. */
  predicate IsRoadDuplicateOf(existing: Pothole, p: Pothole)
  {
    EqualIgnoringCase(existing.location, p.location) && existing.city == p.city && existing.id != p.id
  }

  /** `existingPotholes.some(...)`: a scan of the existing records. */
  function HasRoadDuplicate(existing: seq<Pothole>, p: Pothole): (r: bool)
    ensures r <==> exists i :: 0 <= i < |existing| && IsRoadDuplicateOf(existing[i], p)
  {
    if existing == [] then false
    else IsRoadDuplicateOf(existing[0], p) || HasRoadDuplicate(existing[1..], p)
  }

  /** runRoadDetectionAgent: a warning exactly when some existing record duplicates p. */
  function RunRoadDetectionAgent(p: Pothole, existing: seq<Pothole>): (a: AgentAnalysis)
    ensures a.agent == DataIngestion && a.icon == Eye && a.color == AgentDetection && a.project == RoadGuardian
    ensures a.status == Warning <==> exists i :: 0 <= i < |existing| && IsRoadDuplicateOf(existing[i], p)
    ensures a.status == Warning ==> a.message == DuplicatePothole
    ensures a.status != Warning ==> a.status == Info && a.message == NewPothole(p.monsoonImpact)
  {
    if HasRoadDuplicate(existing, p) then
      AgentAnalysis(DataIngestion, Eye, AgentDetection, DuplicatePothole, Warning, RoadGuardian)
    else
      AgentAnalysis(DataIngestion, Eye, AgentDetection, NewPothole(p.monsoonImpact), Info, RoadGuardian)
  }

  /**
   * A record never duplicates itself; a record in the same city whose
   * location differs only in letter case and whose id differs is a
   * duplicate; the same location in another city is not.
   */
  lemma RoadDuplicateExamples(p: Pothole, otherId: string, otherCity: string)
    requires otherId != p.id && otherCity != p.city
    ensures RunRoadDetectionAgent(p, [p]).status == Info
    ensures RunRoadDetectionAgent(p, [p.(id := otherId, location := Upper(p.location))]).status == Warning
    ensures RunRoadDetectionAgent(p, [p.(id := otherId, city := otherCity)]).status == Info
  {
    LowerOfUpper(p.location);
    assert IsRoadDuplicateOf(p.(id := otherId, location := Upper(p.location)), p);
  }

  /** Records that all carry p's own id never make p a duplicate. */
  lemma RoadSameIdNeverDuplicate(p: Pothole, existing: seq<Pothole>)
    requires forall i :: 0 <= i < |existing| ==> existing[i].id == p.id
    ensures RunRoadDetectionAgent(p, existing).message == NewPothole(p.monsoonImpact)
  {
  }

  // ---------------------------------------------------------------------
  // Lifecycle tracking, quality, transparency
  // ---------------------------------------------------------------------

  /** runRoadTrackingAgent: the severity follows the SLA status. */
  function RunRoadTrackingAgent(p: Pothole): (a: AgentAnalysis)
    ensures a.agent == LifecycleTracking && a.icon == GitBranch && a.color == AgentTracking && a.project == RoadGuardian
    ensures a.message == TrackingUpdate(p.status, p.slaStatus)
    ensures a.status != Info && StatusRank(a.status) == SlaRank(p.slaStatus)
  {
    var status := match p.slaStatus
      case OnTrack => Success
      case AtRisk => Warning
      case Breached => Danger;
    AgentAnalysis(LifecycleTracking, GitBranch, AgentTracking, TrackingUpdate(p.status, p.slaStatus), status, RoadGuardian)
  }

  /** runRoadQualityAgent: danger on a frequent repeat failure, warning on any other repeat. */
  function RunRoadQualityAgent(p: Pothole): (a: AgentAnalysis)
    ensures a.agent == ValidationAnomaly && a.icon == Shield && a.color == AgentQuality && a.project == RoadGuardian
    ensures a.status == Danger <==> IsFrequentFailure(p.previousRepairs, p.daysSinceLastRepair)
    ensures a.status == Success <==> !p.previousRepairs
    ensures a.status != Info
    ensures a.message == HighRecurrence <==> a.status == Danger
    ensures a.message == FirstTimeReport <==> a.status == Success
    ensures a.message == RepeatRepair <==> a.status == Warning
  {
    if p.previousRepairs then
      var isFrequent := p.daysSinceLastRepair.Some? && p.daysSinceLastRepair.value != 0
        && p.daysSinceLastRepair.value < 90;
      if isFrequent then
        AgentAnalysis(ValidationAnomaly, Shield, AgentQuality, HighRecurrence, Danger, RoadGuardian)
      else
        AgentAnalysis(ValidationAnomaly, Shield, AgentQuality, RepeatRepair, Warning, RoadGuardian)
    else
      AgentAnalysis(ValidationAnomaly, Shield, AgentQuality, FirstTimeReport, Success, RoadGuardian)
  }

  /** runRoadTransparencyAgent: an informational citizen update keyed on the status. */
  function RunRoadTransparencyAgent(p: Pothole): (a: AgentAnalysis)
    ensures a.agent == TransparencyCitizen && a.icon == Clock && a.color == AgentTransparency && a.project == RoadGuardian
    ensures a.status == Info && a.message == CitizenUpdate(p.status)
  {
    AgentAnalysis(TransparencyCitizen, Clock, AgentTransparency, CitizenUpdate(p.status), Info, RoadGuardian)
  }

  // ---------------------------------------------------------------------
  // Contractor scoring and the alert agent
  // ---------------------------------------------------------------------

  /** What the contractor agent reports: the score's band, with the record message for that band. */
  function RoadContractorAnalysis(c: ContractorScore): AgentAnalysis
  {
    var message := if c.score >= 80 then ExcellentPerformance
                   else if c.score >= 60 then ModeratePerformance
                   else PoorPerformance;
    AgentAnalysis(AccountabilityScoring, UserCheck, AgentContractor, message, ScoreBand(c.score), RoadGuardian)
  }

  /** runRoadContractorAgent: the >= 80 / >= 60 / < 60 bands. */
  method RunRoadContractorAgent(p: Pothole, c: ContractorScore) returns (a: AgentAnalysis)
    ensures a.agent == AccountabilityScoring && a.icon == UserCheck && a.color == AgentContractor && a.project == RoadGuardian
    ensures a.status == ScoreBand(c.score)
    ensures c.score >= 80 ==> a.message == ExcellentPerformance
    ensures 60 <= c.score < 80 ==> a.message == ModeratePerformance
    ensures c.score < 60 ==> a.message == PoorPerformance
    ensures a == RoadContractorAnalysis(c)
  {
    var message: Message := AllClear;
    var status: AgentStatus := Info;
    if c.score >= 80 {
      message := ExcellentPerformance;
      status := Success;
    } else if c.score >= 60 {
      message := ModeratePerformance;
      status := Warning;
    } else {
      message := PoorPerformance;
      status := Danger;
    }
    a := AgentAnalysis(AccountabilityScoring, UserCheck, AgentContractor, message, status, RoadGuardian);
  }

  /** The issues runRoadAlertAgent lists, in the order it pushes them. */
  function RoadIssues(p: Pothole, c: ContractorScore): seq<Issue>
  {
    Fired([
      Candidate(p.slaStatus != OnTrack, if p.slaStatus == Breached then SlaBreach else SlaAtRisk),
      Candidate(c.score < 60, UnderperformingActor),
      Candidate(IsFrequentFailure(p.previousRepairs, p.daysSinceLastRepair), RepeatFailure),
      Candidate(p.monsoonImpact, MonsoonActive)])
  }

  /** The issue list is the source's four conditional pushes, in order. */
  lemma UnfoldRoadIssues(p: Pothole, c: ContractorScore)
    ensures RoadIssues(p, c) ==
      (if p.slaStatus == Breached then [SlaBreach] else if p.slaStatus == SlaStatus.AtRisk then [SlaAtRisk] else [])
      + (if c.score < 60 then [UnderperformingActor] else [])
      + (if IsFrequentFailure(p.previousRepairs, p.daysSinceLastRepair) then [RepeatFailure] else [])
      + (if p.monsoonImpact then [MonsoonActive] else [])
  {
    FiredUnfold(
      Candidate(p.slaStatus != OnTrack, if p.slaStatus == Breached then SlaBreach else SlaAtRisk),
      Candidate(c.score < 60, UnderperformingActor),
      Candidate(IsFrequentFailure(p.previousRepairs, p.daysSinceLastRepair), RepeatFailure),
      Candidate(p.monsoonImpact, MonsoonActive));
  }

  /**
   * What the alert agent reports: all-clear with success when no issue is
   * listed; otherwise the issues, with danger on a breach or a frequent
   * repeat failure, warning on an at-risk SLA or a low score, success
   * otherwise.
   */
  function RoadAlertAnalysis(p: Pothole, c: ContractorScore): AgentAnalysis
  {
    var issues := RoadIssues(p, c);
    var status := if p.slaStatus == Breached || IsFrequentFailure(p.previousRepairs, p.daysSinceLastRepair) then Danger
                  else if p.slaStatus == SlaStatus.AtRisk || c.score < 60 then Warning
                  else Success;
    if issues == [] then AgentAnalysis(AlertEarlyWarning, AlertTriangle, AgentAlert, AllClear, Success, RoadGuardian)
    else AgentAnalysis(AlertEarlyWarning, AlertTriangle, AgentAlert, Accountability(issues), status, RoadGuardian)
  }

  /**
   * runRoadAlertAgent. The issue list holds one entry per condition that
   * holds; the status is danger on a breach or a frequent repeat failure,
   * otherwise warning on an at-risk SLA or a low score, otherwise success.
   * The monsoon note adds an issue but never raises the status.
   */
  method RunRoadAlertAgent(p: Pothole, c: ContractorScore) returns (a: AgentAnalysis)
    ensures a.agent == AlertEarlyWarning && a.icon == AlertTriangle && a.color == AgentAlert && a.project == RoadGuardian
    ensures a.message == (if RoadIssues(p, c) == [] then AllClear else Accountability(RoadIssues(p, c)))
    ensures a.message == AllClear <==>
      p.slaStatus == OnTrack && c.score >= 60 && !IsFrequentFailure(p.previousRepairs, p.daysSinceLastRepair) && !p.monsoonImpact
    ensures a.status == Danger <==> p.slaStatus == Breached || IsFrequentFailure(p.previousRepairs, p.daysSinceLastRepair)
    ensures a.status == Warning <==> a.status != Danger && (p.slaStatus == SlaStatus.AtRisk || c.score < 60)
    ensures a.status != Info
    ensures a == RoadAlertAnalysis(p, c)
  {
    var issues: seq<Issue> := [];
    var status := Success;
    if p.slaStatus == Breached {
      issues := issues + [SlaBreach];
      status := Danger;
    } else if p.slaStatus == SlaStatus.AtRisk {
      issues := issues + [SlaAtRisk];
      status := Warning;
    }
    if c.score < 60 {
      issues := issues + [UnderperformingActor];
      status := if status == Danger then Danger else Warning;
    }
    if p.previousRepairs && p.daysSinceLastRepair.Some? && p.daysSinceLastRepair.value != 0
      && p.daysSinceLastRepair.value < 90
    {
      issues := issues + [RepeatFailure];
      status := Danger;
    }
    if p.monsoonImpact {
      issues := issues + [MonsoonActive];
    }
    UnfoldRoadIssues(p, c);
    assert issues == RoadIssues(p, c);
    if |issues| == 0 {
      a := AgentAnalysis(AlertEarlyWarning, AlertTriangle, AgentAlert, AllClear, Success, RoadGuardian);
    } else {
      a := AgentAnalysis(AlertEarlyWarning, AlertTriangle, AgentAlert, Accountability(issues), status, RoadGuardian);
    }
  }

  // ---------------------------------------------------------------------
  // Timeline and alerts
  // ---------------------------------------------------------------------

  /** The timeline of a pothole: one event per milestone; only the first carries the project tag. */
  function RoadTimeline(p: Pothole): seq<TimelineEvent>
  {
    var ms := Milestones(p.status, p.daysOpen);
    seq(|ms|, i requires 0 <= i < |ms| =>
      TimelineEvent(p.dateReported + ms[i].offsetDays * DayMs, Stage(ms[i].stage),
                    if i == 0 then Some(RoadGuardian) else None))
  }

  /**
   * generateRoadTimeline: one event per lifecycle stage reached, dated at the
   * stage's offset from the report date; only the first carries the project tag.
   */
  method GenerateRoadTimeline(p: Pothole) returns (events: seq<TimelineEvent>)
    ensures |events| == |Milestones(p.status, p.daysOpen)|
    ensures forall i :: 0 <= i < |events| ==>
      && events[i].status == Stage(Milestones(p.status, p.daysOpen)[i].stage)
      && events[i].date == p.dateReported + Milestones(p.status, p.daysOpen)[i].offsetDays * DayMs
    ensures forall i :: 0 <= i < |events| ==> events[i].project == if i == 0 then Some(RoadGuardian) else None
    ensures events == RoadTimeline(p)
  {
    var baseDate := p.dateReported;
    events := [TimelineEvent(baseDate, Stage(Reported), Some(RoadGuardian))];
    // statusOrder.indexOf(status) over [assigned, in_progress, repaired, closed]
    var statusIndex := StageIndex(p.status) - 1;
    if statusIndex >= 0 {
      events := events + [TimelineEvent(baseDate + 1 * DayMs, Stage(Assigned), None)];
    }
    if statusIndex >= 1 {
      events := events + [TimelineEvent(baseDate + 2 * DayMs, Stage(InProgress), None)];
    }
    if statusIndex >= 2 {
      events := events + [TimelineEvent(baseDate + (p.daysOpen - 1) * DayMs, Stage(Repaired), None)];
    }
    if statusIndex >= 3 {
      events := events + [TimelineEvent(baseDate + p.daysOpen * DayMs, Stage(Closed), None)];
    }
  }

  function SlaBreachAlert(p: Pothole, now: int): Alert
  {
    Alert("alert-sla-" + p.id, Delay, Critical, Some(p.id), Some(p.contractor), None,
          Some(p.city), Some(p.state), now, RoadGuardian)
  }

  function ContractorReviewAlert(p: Pothole, now: int): Alert
  {
    Alert("alert-perf-" + p.contractor, Performance, High, None, Some(p.contractor), None,
          None, None, now, RoadGuardian)
  }

  function RepeatFailureAlert(p: Pothole, now: int): Alert
  {
    Alert("alert-quality-" + p.id, Quality, High, Some(p.id), Some(p.contractor), None,
          Some(p.city), Some(p.state), now, RoadGuardian)
  }

  /** The alerts generateRoadAlerts may push, in its order, each with its condition. */
  function RoadAlertCandidates(p: Pothole, c: ContractorScore, now: int): seq<Candidate<Alert>>
  {
    [ Candidate(p.slaStatus == Breached, SlaBreachAlert(p, now)),
      Candidate(c.score < 60, ContractorReviewAlert(p, now)),
      Candidate(IsFrequentFailure(p.previousRepairs, p.daysSinceLastRepair), RepeatFailureAlert(p, now)) ]
  }

  function RoadAlerts(p: Pothole, c: ContractorScore, now: int): seq<Alert>
  {
    Fired(RoadAlertCandidates(p, c, now))
  }

  /** generateRoadAlerts, pushing onto a local list. */
  method GenerateRoadAlerts(p: Pothole, c: ContractorScore, now: int) returns (alerts: seq<Alert>)
    ensures alerts == RoadAlerts(p, c, now)
  {
    alerts := [];
    if p.slaStatus == Breached {
      alerts := alerts + [SlaBreachAlert(p, now)];
    }
    if c.score < 60 {
      alerts := alerts + [ContractorReviewAlert(p, now)];
    }
    if p.previousRepairs && p.daysSinceLastRepair.Some? && p.daysSinceLastRepair.value != 0
      && p.daysSinceLastRepair.value < 90
    {
      alerts := alerts + [RepeatFailureAlert(p, now)];
    }
    UnfoldRoadAlerts(p, c, now);
  }

  lemma UnfoldRoadAlerts(p: Pothole, c: ContractorScore, now: int)
    ensures RoadAlerts(p, c, now) ==
      (if p.slaStatus == Breached then [SlaBreachAlert(p, now)] else [])
      + (if c.score < 60 then [ContractorReviewAlert(p, now)] else [])
      + (if IsFrequentFailure(p.previousRepairs, p.daysSinceLastRepair) then [RepeatFailureAlert(p, now)] else [])
  {
    var cs := RoadAlertCandidates(p, c, now);
    FiredUnfold(cs[0], cs[1], cs[2], cs[2]);
    assert cs == [cs[0], cs[1], cs[2]];
  }

  /**
   * At most three alerts, one per independent condition: delay/critical
   * exactly on a breach (no at-risk alert in this variant), performance/high
   * exactly on a score below 60, quality/high exactly on a frequent repeat
   * failure, each with its derived id.
   */
  lemma RoadAlertsShape(p: Pothole, c: ContractorScore, now: int)
    ensures var alerts := RoadAlerts(p, c, now);
      && |alerts| <= 3
      && (Delay in Kinds(alerts) <==> p.slaStatus == Breached)
      && (Performance in Kinds(alerts) <==> c.score < 60)
      && (Quality in Kinds(alerts) <==> IsFrequentFailure(p.previousRepairs, p.daysSinceLastRepair))
      && Kinds(alerts) <= {Delay, Performance, Quality}
      && (forall a :: a in alerts && a.kind == Delay ==> a.severity == Critical && a.id == "alert-sla-" + p.id)
      && (forall a :: a in alerts && a.kind == Performance ==> a.severity == High && a.id == "alert-perf-" + p.contractor)
      && (forall a :: a in alerts && a.kind == Quality ==> a.severity == High && a.id == "alert-quality-" + p.id)
      && (forall a :: a in alerts ==> a.timestamp == now && a.project == RoadGuardian)
  {
    UnfoldRoadAlerts(p, c, now);
    var alerts := RoadAlerts(p, c, now);
    if IsFrequentFailure(p.previousRepairs, p.daysSinceLastRepair) {
      assert RepeatFailureAlert(p, now) in alerts;
    }
  }

  /**
   * The agents and the alert list agree: the tracking agent is in danger
   * exactly when a delay alert is raised, the scoring agent exactly when a
   * performance alert is, the quality agent exactly when a quality alert is.
   */
  lemma RoadAgentsAgreeWithAlerts(p: Pothole, c: ContractorScore, now: int)
    ensures RunRoadTrackingAgent(p).status == Danger <==> Delay in Kinds(RoadAlerts(p, c, now))
    ensures ScoreBand(c.score) == Danger <==> Performance in Kinds(RoadAlerts(p, c, now))
    ensures RunRoadQualityAgent(p).status == Danger <==> Quality in Kinds(RoadAlerts(p, c, now))
  {
    RoadAlertsShape(p, c, now);
  }

  // ---------------------------------------------------------------------
  // Contractor table
  // ---------------------------------------------------------------------

  const RoadContractors: map<string, ContractorScore> := map[
    "Larsen & Toubro Infrastructure" := ContractorScore("Larsen & Toubro Infrastructure", 92, 8, 3, 2, 450, 442),
    "NHAI Road Works Division" := ContractorScore("NHAI Road Works Division", 85, 16, 4, 6, 380, 355),
    "Ashoka Buildcon Ltd." := ContractorScore("Ashoka Buildcon Ltd.", 78, 24, 5, 9, 220, 198),
    "IRB Infrastructure" := ContractorScore("IRB Infrastructure", 88, 12, 4, 5, 310, 295),
    "Dilip Buildcon Ltd." := ContractorScore("Dilip Buildcon Ltd.", 72, 36, 6, 12, 180, 152),
    "Gayatri Projects Ltd." := ContractorScore("Gayatri Projects Ltd.", 65, 48, 7, 18, 140, 108),
    "Municipal Corporation Works" := ContractorScore("Municipal Corporation Works", 58, 72, 9, 25, 520, 385),
    "PWD Road Division" := ContractorScore("PWD Road Division", 62, 60, 8, 20, 680, 510)
  ]

  /**
   * `contractorScores[name] || default`: the seeded record on an exact-name
   * hit, otherwise a default scored 70 under the given name. Either way the
   * record carries the name asked for.
   */
  function LookupRoadContractor(name: string): (c: ContractorScore)
    ensures c.name == name
    ensures name in RoadContractors ==> c == RoadContractors[name]
    ensures name !in RoadContractors ==> c == ContractorScore(name, 70, 24, 5, 10, 50, 40)
    ensures 0 <= c.score <= 100
  {
    if name in RoadContractors then RoadContractors[name]
    else ContractorScore(name, 70, 24, 5, 10, 50, 40)
  }

  /** Of all names, only 'Municipal Corporation Works' gets a score below 60. */
  lemma OnlyOneRoadContractorUnderperforms(name: string)
    ensures LookupRoadContractor(name).score < 60 <==> name == "Municipal Corporation Works"
  {
  }

  // ---------------------------------------------------------------------
  // Analysis entry point
  // ---------------------------------------------------------------------

  /** The road form, with the report date already parsed to milliseconds. */
  datatype RoadForm = RoadForm(
    potholeId: string,
    location: string,
    city: string,
    state: string,
    dateReported: int,
    contractor: string,
    expectedSla: int,
    status: PotholeStatus,
    previousRepairs: bool,
    daysSinceLastRepair: Option<int>,
    monsoonImpact: bool)

  datatype RoadReport = RoadReport(
    pothole: Pothole,
    agentAnalyses: seq<AgentAnalysis>,
    timeline: seq<TimelineEvent>,
    alerts: seq<Alert>,
    contractorScore: ContractorScore)

  /**
   * `PH-<state[0..2]>-<city[0..3]>-<4-digit suffix>`, upper-cased; the last
   * four characters read back as the random suffix.
   */
  function GeneratedPotholeId(state: string, city: string, suffix: nat): (id: string)
    requires suffix < 10000
    ensures |id| == 3 + |Take(state, 2)| + 1 + |Take(city, 3)| + 1 + 4
    ensures id[..3] == "PH-"
    ensures forall i :: 0 <= i < |Take(state, 2)| ==> id[3 + i] == UpperChar(state[i])
    ensures id[3 + |Take(state, 2)|] == '-'
    ensures forall i :: 0 <= i < |Take(city, 3)| ==> id[4 + |Take(state, 2)| + i] == UpperChar(city[i])
    ensures id[|id| - 5] == '-'
    ensures forall i :: |id| - 4 <= i < |id| ==> IsDigit(id[i])
    ensures ParseDecimal(id[|id| - 4..]) == suffix
  {
    var digits := PaddedNumber(suffix, 4);
    var id := "PH-" + Upper(Take(state, 2)) + "-" + Upper(Take(city, 3)) + "-" + digits;
    assert id[|id| - 4..] == digits;
    id
  }

  /**
   * The pothole record built from a form: the id is kept unless it is the
   * 'new' sentinel, daysOpen is counted from the report date to `nowMs`, and
   * the SLA status is derived from it, never taken from the form.
   */
  function NormalizeRoadForm(form: RoadForm, nowMs: int, suffix: nat): (p: Pothole)
    requires form.expectedSla > 0
    requires suffix < 10000
    ensures p.id == ResolveId(form.potholeId, GeneratedPotholeId(form.state, form.city, suffix))
    ensures p.daysOpen == DaysOpen(nowMs, form.dateReported) && p.daysOpen >= 1
    ensures p.expectedSla == form.expectedSla
    ensures p.slaStatus == CalculateSlaStatus(p.daysOpen, p.expectedSla)
    ensures p.location == form.location && p.city == form.city && p.state == form.state
      && p.dateReported == form.dateReported && p.contractor == form.contractor
      && p.expectedSla == form.expectedSla && p.status == form.status
      && p.previousRepairs == form.previousRepairs && p.daysSinceLastRepair == form.daysSinceLastRepair
      && p.monsoonImpact == form.monsoonImpact
  {
    var daysOpen := DaysOpen(nowMs, form.dateReported);
    var generated := GeneratedPotholeId(form.state, form.city, suffix);
    var potholeId := if Lower(form.potholeId) == "new" || form.potholeId == "" then generated else form.potholeId;
    Pothole(potholeId, form.location, form.city, form.state, form.dateReported, form.contractor,
      form.expectedSla, form.status, form.previousRepairs, form.daysSinceLastRepair, daysOpen,
      CalculateSlaStatus(daysOpen, form.expectedSla), form.monsoonImpact)
  }

  /**
   * analyzeWithRoadGuardian. `nowMs` stands for today's date and `suffix` for
   * the random id suffix. The contractor is looked up; the six agents run in
   * their fixed order; the timeline and alerts are built from the record.
   */
  method AnalyzeWithRoadGuardian(form: RoadForm, existing: seq<Pothole>, nowMs: int, suffix: nat)
    returns (r: RoadReport)
    requires form.expectedSla > 0
    requires suffix < 10000
    ensures r.pothole == NormalizeRoadForm(form, nowMs, suffix)
    ensures r.contractorScore == LookupRoadContractor(form.contractor)
    ensures r.agentAnalyses == [
      RunRoadDetectionAgent(r.pothole, existing),
      RunRoadTrackingAgent(r.pothole),
      RoadContractorAnalysis(r.contractorScore),
      RunRoadQualityAgent(r.pothole),
      RunRoadTransparencyAgent(r.pothole),
      RoadAlertAnalysis(r.pothole, r.contractorScore)]
    ensures r.timeline == RoadTimeline(r.pothole)
    ensures |r.timeline| == StageIndex(form.status) + 1
    ensures r.alerts == RoadAlerts(r.pothole, r.contractorScore, nowMs)
  {
    var pothole := NormalizeRoadForm(form, nowMs, suffix);
    var contractorScore := LookupRoadContractor(form.contractor);
    var contractorAnalysis := RunRoadContractorAgent(pothole, contractorScore);
    var alertAnalysis := RunRoadAlertAgent(pothole, contractorScore);
    var agentAnalyses := [
      RunRoadDetectionAgent(pothole, existing),
      RunRoadTrackingAgent(pothole),
      contractorAnalysis,
      RunRoadQualityAgent(pothole),
      RunRoadTransparencyAgent(pothole),
      alertAnalysis];
    var timeline := GenerateRoadTimeline(pothole);
    var alerts := GenerateRoadAlerts(pothole, contractorScore, nowMs);
    r := RoadReport(pothole, agentAnalyses, timeline, alerts, contractorScore);
  }

  /**
   * An assigned pothole open 12 days against a 7-day SLA is breached, raises
   * exactly one delay alert, critical, and the tracking agent escalates.
   */
  lemma BreachedAssignedScenario(p: Pothole, c: ContractorScore, now: int)
    requires p.status == Assigned && p.expectedSla == 7 && p.daysOpen == 12
    requires p.slaStatus == CalculateSlaStatus(p.daysOpen, p.expectedSla)
    ensures p.slaStatus == Breached
    ensures |set a | a in RoadAlerts(p, c, now) && a.kind == Delay| == 1
    ensures forall a :: a in RoadAlerts(p, c, now) && a.kind == Delay ==> a.severity == Critical
    ensures RunRoadTrackingAgent(p).message == TrackingUpdate(Assigned, Breached)
    ensures RunRoadTrackingAgent(p).status == Danger
  {
    UnfoldRoadAlerts(p, c, now);
    var delays := set a | a in RoadAlerts(p, c, now) && a.kind == Delay;
    assert SlaBreachAlert(p, now) in delays;
    assert delays == {SlaBreachAlert(p, now)};
  }
}
