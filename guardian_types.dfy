/**
 * Records of the two-variant platform (road potholes and supply-chain
 * suppliers). Narrative text is replaced by the kind of message an agent
 * chose; dates are milliseconds since the epoch.
 */
module GuardianTypes {
  import opened Common

  datatype ProjectType = RoadGuardian | PhantomX | WaterMonitoring | PowerOutage | WasteCollection

  datatype SupplierTier = Tier1 | Tier2 | Tier3

  datatype SupplierStatus = Active | AtRisk | Disrupted | Resolved | Blacklisted

  /** A reported pothole; daysOpen and slaStatus are derived, never entered. */
  datatype Pothole = Pothole(
    id: string,
    location: string,
    city: string,
    state: string,
    dateReported: int,
    contractor: string,
    expectedSla: int,
    status: PotholeStatus,
    previousRepairs: bool,
    daysSinceLastRepair: Option<int>,
    daysOpen: int,
    slaStatus: SlaStatus,
    monsoonImpact: bool)

  /** A tracked supplier; phantomStockPercentage and disruptionRisk are derived. */
  datatype Supplier = Supplier(
    id: string,
    name: string,
    tier: SupplierTier,
    city: string,
    state: string,
    reportedStock: int,
    actualStock: Option<int>,
    phantomStockPercentage: real,
    productionCapacity: int,
    currentUtilization: int,
    leadTimeDays: int,
    status: SupplierStatus,
    lastAuditDate: int,
    disruptionRisk: Level,
    regionalFactors: seq<string>)

  datatype SupplierScore = SupplierScore(
    name: string,
    score: int,
    accuracyRate: int,
    deliveryOnTime: int,
    phantomStockIncidents: int,
    totalOrders: int,
    fulfilledOrders: int)

  /** The agents of both variants, by their display name. */
  datatype AgentKind =
    | DataIngestion          // 'National Data Ingestion Agent'
    | LifecycleTracking      // 'Lifecycle Tracking Agent'
    | AccountabilityScoring  // 'Accountability & Scoring Agent'
    | ValidationAnomaly      // 'Validation & Anomaly Detection Agent'
    | TransparencyCitizen    // 'Transparency & Citizen Explanation Agent'
    | AlertEarlyWarning      // 'Alert & Early Warning Agent'
    | PredictionForecasting  // 'Prediction & Forecasting Agent'

  /** One entry of an alert agent's issue list. */
  datatype Issue =
    | SlaBreach | SlaAtRisk | UnderperformingActor | RepeatFailure | MonsoonActive
    | CriticalPhantomStock | DisruptionImminent | HighDisruptionRisk | CapacityConstraint

  /** The narrative an agent selected. */
  datatype Message =
    | DuplicatePothole
    | NewPothole(monsoonNote: bool)
    | TrackingUpdate(stage: PotholeStatus, sla: SlaStatus)
    | ExcellentPerformance | ModeratePerformance | PoorPerformance
    | HighRecurrence | RepeatRepair | FirstTimeReport
    | CitizenUpdate(citizenStage: PotholeStatus)
    | AllClear
    | Accountability(issues: seq<Issue>)
    | DuplicateSupplier | SupplierRegistered
    | SupplierUpdate(supplierStatus: SupplierStatus)
    | RiskPrediction(risk: Level)
    | PhantomStockDetected | ModerateDiscrepancy | StockVerified
    | IndustryUpdate(actionRequired: bool)

  datatype AgentAnalysis = AgentAnalysis(
    agent: AgentKind,
    icon: Icon,
    color: Color,
    message: Message,
    status: AgentStatus,
    project: ProjectType)

  datatype TimelineLabel =
    | Stage(stage: PotholeStatus)
    | AuditCompleted
    | DiscrepancyDetected
    | SupplierStage(supplierStatus: SupplierStatus)

  /** `project` is absent on the road events pushed after the first one. */
  datatype TimelineEvent = TimelineEvent(date: int, status: TimelineLabel, project: Option<ProjectType>)

  datatype AlertKind = Delay | Quality | Safety | Performance | PhantomStock | Disruption | Capacity

  datatype Alert = Alert(
    id: string,
    kind: AlertKind,
    severity: Level,
    entityId: Option<string>,
    contractor: Option<string>,
    supplier: Option<string>,
    city: Option<string>,
    state: Option<string>,
    timestamp: int,
    project: ProjectType)

  /** Alert kinds present in a list of alerts. */
  function Kinds(alerts: seq<Alert>): set<AlertKind>
  {
    set a | a in alerts :: a.kind
  }
}
