/** The value types of `app/models/device.py`: the tri-state health status,
    the derived health signals and the rule that classifies them, the
    device record, and the bounded health thresholds. */
module DeviceModel {
  import opened Common

  datatype HealthStatus = Healthy | Caution | Unhealthy

  /** The string value the enumeration serialises to (and is cached as). */
  function StatusValue(s: HealthStatus): string {
    match s
    case Healthy => "healthy"
    case Caution => "caution"
    case Unhealthy => "unhealthy"
  }

  /** Reading back a stored status value; anything else is not a status. */
  function ParseStatus(v: string): Option<HealthStatus> {
    if v == "healthy" then Some(Healthy)
    else if v == "caution" then Some(Caution)
    else if v == "unhealthy" then Some(Unhealthy)
    else None
  }

  lemma StatusValueRoundTrip(s: HealthStatus)
    ensures ParseStatus(StatusValue(s)) == Some(s)
  {
  }

  /** Severity order HEALTHY < CAUTION < UNHEALTHY. */
  function Severity(s: HealthStatus): (n: nat)
    ensures n <= 2
  {
    match s
    case Healthy => 0
    case Caution => 1
    case Unhealthy => 2
  }

  datatype DeviceBasicInfo = DeviceBasicInfo(
    id: int,
    name: string,
    serialNumber: string,
    model: string,
    osVersion: string,
    lastContactTime: Option<Timestamp>,
    lastInventoryUpdate: Option<Timestamp>)

  datatype HealthCheckResult = HealthCheckResult(
    checkInOk: bool,
    reconOk: bool,
    hasFailedPolicies: bool,
    hasFailedMdmCommands: bool,
    hasPendingMdmCommands: bool,
    isCompliant: bool,
    smartGroupMemberships: seq<string>)

  /** One of the five staleness/failure signals is bad. */
  predicate UnhealthyTrigger(h: HealthCheckResult) {
    !h.checkInOk || !h.reconOk || h.hasFailedPolicies
    || h.hasFailedMdmCommands || h.hasPendingMdmCommands
  }

  /** A compliance signal is bad: not in the compliance group, or in a
      monitored group. */
  predicate CautionTrigger(h: HealthCheckResult) {
    !h.isCompliant || |h.smartGroupMemberships| > 0
  }

  /** `HealthCheckResult.calculate_status`: failure signals take precedence
      over compliance signals; the result is HEALTHY only when every signal
      is good. */
  function CalculateStatus(h: HealthCheckResult): (s: HealthStatus)
    ensures s == Unhealthy <==> UnhealthyTrigger(h)
    ensures s == Caution <==> !UnhealthyTrigger(h) && CautionTrigger(h)
    ensures s == Healthy <==>
      h.checkInOk && h.reconOk && !h.hasFailedPolicies && !h.hasFailedMdmCommands
      && !h.hasPendingMdmCommands && h.isCompliant && h.smartGroupMemberships == []
  {
    if UnhealthyTrigger(h) then Unhealthy
    else if !h.isCompliant || h.smartGroupMemberships != [] then Caution
    else Healthy
  }

  /** Every signal of `b` is at least as bad as the same signal of `a`. */
  predicate NoBetterThan(a: HealthCheckResult, b: HealthCheckResult) {
    && (b.checkInOk ==> a.checkInOk)
    && (b.reconOk ==> a.reconOk)
    && (a.hasFailedPolicies ==> b.hasFailedPolicies)
    && (a.hasFailedMdmCommands ==> b.hasFailedMdmCommands)
    && (a.hasPendingMdmCommands ==> b.hasPendingMdmCommands)
    && (b.isCompliant ==> a.isCompliant)
    && (a.smartGroupMemberships != [] ==> b.smartGroupMemberships != [])
  }

  /** Turning signals bad never lowers the status. */
  lemma StatusMonotone(a: HealthCheckResult, b: HealthCheckResult)
    requires NoBetterThan(a, b)
    ensures Severity(CalculateStatus(a)) <= Severity(CalculateStatus(b))
  {
  }

  /** Precedence: whatever the compliance and group values, a bad
      staleness/failure signal yields UNHEALTHY. */
  lemma FailureDominatesCompliance(h: HealthCheckResult, compliant: bool, groups: seq<string>)
    requires UnhealthyTrigger(h)
    ensures CalculateStatus(h.(isCompliant := compliant, smartGroupMemberships := groups)) == Unhealthy
  {
  }

  datatype DeviceHealth = DeviceHealth(
    device: DeviceBasicInfo,
    health: HealthCheckResult,
    status: HealthStatus,
    lastChecked: Timestamp)

  datatype DeviceListResponse = DeviceListResponse(
    total: int,
    devices: seq<DeviceHealth>,
    healthyCount: int,
    cautionCount: int,
    unhealthyCount: int)

  const MaxCheckInHours: int := 168
  const MaxReconHours: int := 168
  const MaxPendingCommandHours: int := 72

  datatype HealthThresholds = HealthThresholds(
    checkInHours: int,
    reconHours: int,
    pendingCommandHours: int)

  /** The pydantic field bounds of `HealthThresholds`. */
  predicate ValidThresholds(t: HealthThresholds) {
    && 1 <= t.checkInHours <= MaxCheckInHours
    && 1 <= t.reconHours <= MaxReconHours
    && 1 <= t.pendingCommandHours <= MaxPendingCommandHours
  }

  /** Constructing a `HealthThresholds`: validation accepts exactly the
      values within the bounds and keeps them unchanged. */
  function MakeThresholds(checkInHours: int, reconHours: int, pendingCommandHours: int): (r: Result<HealthThresholds>)
    ensures r.Ok? <==> 1 <= checkInHours <= 168 && 1 <= reconHours <= 168 && 1 <= pendingCommandHours <= 72
    ensures r.Ok? ==> ValidThresholds(r.value)
    ensures r.Ok? ==> r.value == HealthThresholds(checkInHours, reconHours, pendingCommandHours)
    ensures r.Err? ==> r.error == ValidationError
  {
    var t := HealthThresholds(checkInHours, reconHours, pendingCommandHours);
    if ValidThresholds(t) then Ok(t) else Err(ValidationError)
  }
}
