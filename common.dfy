/**
 * Vocabulary shared by both road engines and the supply-chain engine: the
 * enumerations that both type files declare identically, the SLA classifier
 * and the days-open computation (written out twice in the source, once per
 * engine, with the same thresholds), the repeat-failure test, the pothole
 * lifecycle used by both timeline builders, and `Fired`, the shape of every
 * "if (condition) list.push(item)" builder in the engines.
 */
module Common {

  datatype Option<T> = None | Some(value: T)

  /** Lifecycle of a pothole, in the order the timeline builders walk it. */
  datatype PotholeStatus = Reported | Assigned | InProgress | Repaired | Closed

  datatype SlaStatus = OnTrack | AtRisk | Breached

  /** Severity tag of an agent analysis. */
  datatype AgentStatus = Success | Warning | Danger | Info

  /** The literal union 'low' | 'medium' | 'high' | 'critical', used both for
      alert severity and for the disruption-risk tier of a supplier. */
  datatype Level = Low | Medium | High | Critical

  /** Display metadata of an agent analysis ('eye', 'git-branch', ...). */
  datatype Icon =
    | Eye | GitBranch | UserCheck | Shield | Clock | AlertTriangle
    | Database | TrendingUp | AlertOctagon | CheckCircle | Award | FileText | Bell

  /** Colour tag of an agent analysis ('agent-detection', ..., 'success'). */
  datatype Color =
    | AgentDetection | AgentTracking | AgentContractor | AgentQuality
    | AgentTransparency | AgentAlert | SuccessColor

  /** Performance record of a road contractor (identical in both type files). */
  datatype ContractorScore = ContractorScore(
    name: string,
    score: int,
    avgResponseTime: int,
    avgCompletionTime: int,
    repeatOccurrence: int,
    totalAssigned: int,
    completed: int)

  /** Milliseconds in a day, the unit of every date offset in the engines. */
  const DayMs: int := 24 * 60 * 60 * 1000

  function SlaRank(s: SlaStatus): nat
  {
    match s
    case OnTrack => 0
    case AtRisk => 1
    case Breached => 2
  }

  /** Severity order of agent tags; 'info' is neutral, like 'success'. */
  function StatusRank(s: AgentStatus): nat
  {
    match s
    case Success => 0
    case Info => 0
    case Warning => 1
    case Danger => 2
  }

  function LevelRank(l: Level): nat
  {
    match l
    case Low => 0
    case Medium => 1
    case High => 2
    case Critical => 3
  }

  // ---------------------------------------------------------------------
  // SLA classification
  // ---------------------------------------------------------------------

  /** d / s < num / den, over the reals, is a comparison of cross products. */
  lemma RatioBelow(d: int, s: int, num: int, den: int)
    requires s > 0 && den > 0
    ensures (d as real / s as real < num as real / den as real) <==> den * d < num * s
  {
    var x := d as real / s as real;
    assert x * s as real == d as real;
    var y := num as real / den as real;
    assert y * den as real == num as real;
    if x < y {
      assert x * s as real < y * s as real;
      assert (x * s as real) * den as real < (y * s as real) * den as real;
      assert (den * d) as real < (num * s) as real;
    } else {
      assert x * s as real >= y * s as real;
      assert (x * s as real) * den as real >= (y * s as real) * den as real;
      assert (den * d) as real >= (num * s) as real;
    }
  }

  /**
   * calculateSLAStatus: the ratio daysOpen / expectedSLA is compared with 0.7
   * and 1. The result is stated in integer terms, for every positive SLA.
   */
  function CalculateSlaStatus(daysOpen: int, expectedSla: int): (r: SlaStatus)
    requires expectedSla > 0
    ensures r == OnTrack <==> 10 * daysOpen < 7 * expectedSla
    ensures r == AtRisk <==> 7 * expectedSla <= 10 * daysOpen < 10 * expectedSla
    ensures r == Breached <==> daysOpen >= expectedSla
  {
    RatioBelow(daysOpen, expectedSla, 7, 10);
    RatioBelow(daysOpen, expectedSla, 1, 1);
    var ratio := daysOpen as real / expectedSla as real;
    if ratio < 0.7 then OnTrack
    else if ratio < 1.0 then AtRisk
    else Breached
  }

  /** For a fixed SLA, keeping an issue open longer never improves its SLA status. */
  lemma SlaMonotone(d1: int, d2: int, expectedSla: int)
    requires expectedSla > 0 && d1 <= d2
    ensures SlaRank(CalculateSlaStatus(d1, expectedSla)) <= SlaRank(CalculateSlaStatus(d2, expectedSla))
  {
  }

  /** The boundary cases 6/10, 7/10 and 10/10, and 12 days against a 7-day SLA. */
  lemma SlaBoundaries()
    ensures CalculateSlaStatus(6, 10) == OnTrack
    ensures CalculateSlaStatus(7, 10) == AtRisk
    ensures CalculateSlaStatus(9, 10) == AtRisk
    ensures CalculateSlaStatus(10, 10) == Breached
    ensures CalculateSlaStatus(12, 7) == Breached
  {
  }

  /**
   * daysOpen = max(1, floor((now - reported) / day)). It is at least 1, it
   * is 1 exactly when less than two whole days have elapsed, and otherwise it
   * is the number of whole days elapsed.
   */
  function DaysOpen(nowMs: int, reportedMs: int): (r: int)
    ensures r >= 1
    ensures r == 1 <==> nowMs - reportedMs < 2 * DayMs
    ensures r > 1 ==> r * DayMs <= nowMs - reportedMs < (r + 1) * DayMs
  {
    var elapsedDays := (nowMs - reportedMs) / DayMs;
    if 1 >= elapsedDays then 1 else elapsedDays
  }

  // ---------------------------------------------------------------------
  // Repeat-failure test
  // ---------------------------------------------------------------------

  /**
   * `previousRepairs && daysSinceLastRepair && daysSinceLastRepair < 90`:
   * JavaScript truthiness makes an absent value and the value 0 both fail.
   */
  predicate IsFrequentFailure(previousRepairs: bool, daysSinceLastRepair: Option<int>)
  {
    previousRepairs && daysSinceLastRepair.Some?
    && daysSinceLastRepair.value != 0 && daysSinceLastRepair.value < 90
  }

  /** What the recurrence test accepts, value by value. */
  lemma FrequentFailureCases(previousRepairs: bool, days: int)
    ensures !IsFrequentFailure(previousRepairs, None)
    ensures !IsFrequentFailure(previousRepairs, Some(0))
    ensures !IsFrequentFailure(false, Some(days))
    ensures days != 0 && days < 90 ==> IsFrequentFailure(true, Some(days))
    ensures days >= 90 ==> !IsFrequentFailure(true, Some(days))
  {
  }

  // ---------------------------------------------------------------------
  // Score bands
  // ---------------------------------------------------------------------

  /** The >= 80 / >= 60 / < 60 bands shared by every performance agent. */
  function ScoreBand(score: int): (r: AgentStatus)
    ensures r == Danger <==> score < 60
    ensures r != Info
  {
    if score >= 80 then Success
    else if score >= 60 then Warning
    else Danger
  }

  /** A higher score never yields a more severe band. */
  lemma ScoreBandAntitone(s1: int, s2: int)
    requires s1 <= s2
    ensures StatusRank(ScoreBand(s2)) <= StatusRank(ScoreBand(s1))
  {
  }

  // ---------------------------------------------------------------------
  // Pothole lifecycle
  // ---------------------------------------------------------------------

  const Lifecycle: seq<PotholeStatus> := [Reported, Assigned, InProgress, Repaired, Closed]

  /** Position of a status in the lifecycle. */
  function StageIndex(s: PotholeStatus): (i: nat)
    ensures i < |Lifecycle| && Lifecycle[i] == s
  {
    match s
    case Reported => 0
    case Assigned => 1
    case InProgress => 2
    case Repaired => 3
    case Closed => 4
  }

  /** A lifecycle stage and its offset in days from the report date. */
  datatype Milestone = Milestone(stage: PotholeStatus, offsetDays: int)

  /** Day offset of the i-th stage: 0, 1, 2, daysOpen - 1, daysOpen. */
  function StageOffset(i: nat, daysOpen: int): int
    requires i < |Lifecycle|
  {
    [0, 1, 2, daysOpen - 1, daysOpen][i]
  }

  /**
   * The milestones a timeline shows for a pothole in `status`: every stage up
   * to and including the current one, each at its fixed offset.
   */
  function Milestones(status: PotholeStatus, daysOpen: int): seq<Milestone>
  {
    seq(StageIndex(status) + 1, i requires 0 <= i < StageIndex(status) + 1 =>
      Milestone(Lifecycle[i], StageOffset(i, daysOpen)))
  }

  /**
   * The milestone list starts with 'reported' on the report date, has one
   * entry per stage reached (1 to 5), and ends at the current status.
   */
  lemma MilestonesShape(status: PotholeStatus, daysOpen: int)
    ensures var m := Milestones(status, daysOpen);
      && 1 <= |m| <= 5
      && |m| == StageIndex(status) + 1
      && m[0] == Milestone(Reported, 0)
      && m[|m| - 1].stage == status
      && (forall i :: 0 <= i < |m| ==> m[i].stage == Lifecycle[i])
  {
  }

  /** A pothole further along its lifecycle shows a longer timeline that
      extends the shorter one. */
  lemma MilestonesGrowWithStatus(s1: PotholeStatus, s2: PotholeStatus, daysOpen: int)
    requires StageIndex(s1) <= StageIndex(s2)
    ensures Milestones(s1, daysOpen) <= Milestones(s2, daysOpen)
  {
  }

  // ---------------------------------------------------------------------
  // Conditional push lists
  // ---------------------------------------------------------------------

  /** An item a builder pushes when its condition holds. */
  datatype Candidate<T> = Candidate(fires: bool, item: T)

  /** The items of the candidates whose condition holds, in candidate order. */
  function Fired<T>(cs: seq<Candidate<T>>): (r: seq<T>)
    ensures |r| <= |cs|
  {
    if cs == [] then []
    else (if cs[0].fires then [cs[0].item] else []) + Fired(cs[1..])
  }

  /** What a single candidate contributes. */
  function Emit<T>(c: Candidate<T>): seq<T>
  {
    if c.fires then [c.item] else []
  }

  /** Fired over a literal list of three or four candidates, unfolded. */
  lemma FiredUnfold<T>(a: Candidate<T>, b: Candidate<T>, c: Candidate<T>, d: Candidate<T>)
    ensures Fired([a, b, c]) == Emit(a) + Emit(b) + Emit(c)
    ensures Fired([a, b, c, d]) == Emit(a) + Emit(b) + Emit(c) + Emit(d)
  {
    FiredStep([c]);
    FiredStep([b, c]);
    FiredStep([a, b, c]);
    FiredStep([d]);
    FiredStep([c, d]);
    FiredStep([b, c, d]);
    FiredStep([a, b, c, d]);
    assert [a, b, c][1..] == [b, c];
    assert [b, c][1..] == [c];
    assert [a, b, c, d][1..] == [b, c, d];
    assert [b, c, d][1..] == [c, d];
    assert [c, d][1..] == [d];
  }

  lemma FiredStep<T>(cs: seq<Candidate<T>>)
    requires cs != []
    ensures Fired(cs) == Emit(cs[0]) + Fired(cs[1..])
  {
  }

  /** Exactly the items of firing candidates are emitted. */
  lemma {:induction false} FiredMembership<T>(cs: seq<Candidate<T>>, x: T)
    ensures x in Fired(cs) <==> exists i :: 0 <= i < |cs| && cs[i].fires && cs[i].item == x
  {
    if cs != [] {
      FiredMembership(cs[1..], x);
      if x in Fired(cs[1..]) {
        var i :| 0 <= i < |cs[1..]| && cs[1..][i].fires && cs[1..][i].item == x;
        assert cs[i + 1].fires && cs[i + 1].item == x;
      }
      if exists i :: 0 <= i < |cs| && cs[i].fires && cs[i].item == x {
        var i :| 0 <= i < |cs| && cs[i].fires && cs[i].item == x;
        if i > 0 {
          assert cs[1..][i - 1] == cs[i];
        }
      }
    }
  }

  /** Nothing is emitted exactly when no condition holds. */
  lemma {:induction false} FiredEmpty<T>(cs: seq<Candidate<T>>)
    ensures Fired(cs) == [] <==> forall i :: 0 <= i < |cs| ==> !cs[i].fires
  {
    if cs != [] {
      FiredEmpty(cs[1..]);
      assert forall i :: 1 <= i < |cs| ==> cs[i] == cs[1..][i - 1];
    }
  }

  /** The same candidates, with conditions that hold at least as often. */
  ghost predicate Weaker<T>(cs: seq<Candidate<T>>, ds: seq<Candidate<T>>)
  {
    && |cs| == |ds|
    && (forall i :: 0 <= i < |cs| ==> cs[i].item == ds[i].item)
    && (forall i :: 0 <= i < |cs| ==> cs[i].fires ==> ds[i].fires)
  }

  /**
   * Making more conditions hold never removes an emitted item and never
   * shortens the list; making one more condition hold lengthens it.
   */
  lemma {:induction false} FiredMonotone<T>(cs: seq<Candidate<T>>, ds: seq<Candidate<T>>)
    requires Weaker(cs, ds)
    ensures forall x :: x in Fired(cs) ==> x in Fired(ds)
    ensures |Fired(cs)| <= |Fired(ds)|
    ensures (exists i :: 0 <= i < |cs| && ds[i].fires && !cs[i].fires) ==> |Fired(cs)| < |Fired(ds)|
  {
    if cs != [] {
      assert Weaker(cs[1..], ds[1..]);
      FiredMonotone(cs[1..], ds[1..]);
      if exists i :: 0 <= i < |cs| && ds[i].fires && !cs[i].fires {
        var i :| 0 <= i < |cs| && ds[i].fires && !cs[i].fires;
        if i > 0 {
          assert ds[1..][i - 1].fires && !cs[1..][i - 1].fires;
        }
      }
    }
  }
}
