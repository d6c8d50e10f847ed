/**
 * Records of the single-variant road engine. They are narrower than the
 * two-variant ones: a pothole has no city, state or monsoon flag, and
 * analyses, events and alerts carry no project tag.
 */
module PotholeTypes {
  import opened Common

  datatype Pothole = Pothole(
    id: string,
    location: string,
    dateReported: int,
    contractor: string,
    expectedSla: int,
    status: PotholeStatus,
    previousRepairs: bool,
    daysSinceLastRepair: Option<int>,
    daysOpen: int,
    slaStatus: SlaStatus)

  /** The six agents, by their display name. */
  datatype RoadAgent =
    | Detection              // 'Detection Agent'
    | RepairTracking         // 'Repair Tracking Agent'
    | ContractorPerformance  // 'Contractor Performance Agent'
    | DurabilityQuality      // 'Durability & Quality Agent'
    | TransparencyTimeline   // 'Transparency & Timeline Agent'
    | AlertAccountability    // 'Alert & Accountability Agent'

  /** One entry of the alert agent's issue list. */
  datatype RoadIssue = BreachEscalation | RiskNotice | UnderperformingContractor | RepeatFailureConcern

  /** The narrative an agent selected. */
  datatype RoadMessage =
    | DuplicateDetected
    | NewRegistered
    | RepairProgress(stage: PotholeStatus, sla: SlaStatus)
    | ExcellentRecord | ModerateRecord | PoorRecord
    | HighRecurrenceRisk | RepeatRepairNoted | FirstTimeReport
    | CitizenProgress(citizenStage: PotholeStatus)
    | NoCriticalIssues
    | AccountabilityAlerts(issues: seq<RoadIssue>)

  datatype RoadAnalysis = RoadAnalysis(
    agent: RoadAgent,
    icon: Icon,
    color: Color,
    message: RoadMessage,
    status: AgentStatus)

  datatype RoadEvent = RoadEvent(date: int, status: PotholeStatus)

  datatype RoadAlertKind = DelayKind | QualityKind | SafetyKind | PerformanceKind

  /**
   * An alert. `daysRemaining` is the figure the at-risk alert's description
   * quotes; the other alerts quote none.
   */
  datatype RoadAlert = RoadAlert(
    id: string,
    kind: RoadAlertKind,
    severity: Level,
    potholeId: Option<string>,
    contractor: Option<string>,
    daysRemaining: Option<int>,
    timestamp: int)

  function AlertKinds(alerts: seq<RoadAlert>): set<RoadAlertKind>
  {
    set a | a in alerts :: a.kind
  }
}
