/** The health service of `app/services/health_service.py`: the freshness
    and stale-command signals, compliance and monitored-group matching, the
    assembly of one device's health record from the upstream fetches, the
    bulk evaluation that drops failed devices, and the threshold settings.

    The upstream fetches of one device are inputs (`DeviceFetches`), each a
    value or the error the client raised; `datetime.fromisoformat` is the
    input `parse`, a partial map from date strings to timestamps; "now" is
    one explicit timestamp for a whole evaluation. */
module HealthService {
  import opened Common
  import opened DeviceModel
  import opened JamfService

  /** `_parse_jamf_date`: a falsy value is no date; a string is parsed; any
      other value makes `.replace` raise AttributeError, which is caught. */
  function ParseJamfDate(v: Option<Value>, parse: string -> Option<Timestamp>): (r: Option<Timestamp>)
    ensures v.None? || !Truthy(v.value) || !v.value.Str? ==> r == None
    ensures v.Some? && v.value.Str? && v.value.s != "" ==> r == parse(v.value.s)
  {
    if v.None? || !Truthy(v.value) then None
    else match v.value
      case Str(s) => parse(s)
      case _ => None
  }

  /** Last seen strictly after `now` less `hours` hours. */
  predicate SeenWithin(t: Option<Timestamp>, now: Timestamp, hours: int) {
    t.Some? && t.value > now - hours * SecondsPerHour
  }

  /** `_check_recent_contact`. */
  function CheckRecentContact(lastContact: Option<Timestamp>, now: Timestamp, checkInHours: int): (ok: bool)
    ensures lastContact.None? ==> !ok
    ensures lastContact.Some? ==> (ok <==> now - lastContact.value < checkInHours * SecondsPerHour)
  {
    SeenWithin(lastContact, now, checkInHours)
  }

  /** `_check_recent_recon`. */
  function CheckRecentRecon(lastRecon: Option<Timestamp>, now: Timestamp, reconHours: int): (ok: bool)
    ensures lastRecon.None? ==> !ok
    ensures lastRecon.Some? ==> (ok <==> now - lastRecon.value < reconHours * SecondsPerHour)
  {
    SeenWithin(lastRecon, now, reconHours)
  }

  /** Freshness only decays: a signal fresh at a later time, or under a
      tighter threshold, is fresh now and under a looser one. */
  lemma FreshnessMonotone(t: Option<Timestamp>, now: Timestamp, later: Timestamp, hours: int, looser: int)
    requires now <= later && hours <= looser
    requires CheckRecentContact(t, later, hours)
    ensures CheckRecentContact(t, now, looser) && CheckRecentRecon(t, now, looser)
  {
  }

  /** A device last seen exactly `hours` hours ago is already stale. */
  lemma FreshnessBoundaryIsStale(now: Timestamp, hours: int)
    ensures !CheckRecentContact(Some(now - hours * SecondsPerHour), now, hours)
    ensures !CheckRecentRecon(Some(now - hours * SecondsPerHour), now, hours)
  {
  }

  /** A pending command whose parseable issue date is strictly before the threshold. */
  predicate IsStalePending(c: Command, threshold: Timestamp, parse: string -> Option<Timestamp>) {
    var issued := ParseJamfDate(c.dateIssued, parse);
    issued.Some? && issued.value < threshold
  }

  /** Some pending command is stale at `now`. */
  function AnyStalePending(pending: seq<Command>, now: Timestamp, hours: int, parse: string -> Option<Timestamp>): (b: bool)
    ensures pending == [] ==> !b
    ensures (forall i :: 0 <= i < |pending| ==> ParseJamfDate(pending[i].dateIssued, parse).None?) ==> !b
    ensures b ==> exists i :: 0 <= i < |pending| && ParseJamfDate(pending[i].dateIssued, parse).Some?
  {
    exists i :: 0 <= i < |pending| && IsStalePending(pending[i], now - hours * SecondsPerHour, parse)
  }

  /** `_check_pending_commands`: the loop with its early return. */
  method CheckPendingCommands(pending: seq<Command>, now: Timestamp, pendingHours: int, parse: string -> Option<Timestamp>)
    returns (stale: bool)
    ensures stale <==> exists i :: 0 <= i < |pending| &&
                                   (var issued := ParseJamfDate(pending[i].dateIssued, parse);
                                    issued.Some? && issued.value < now - pendingHours * SecondsPerHour)
    ensures stale == AnyStalePending(pending, now, pendingHours, parse)
  {
    if |pending| == 0 {
      return false;
    }
    var threshold := now - pendingHours * SecondsPerHour;
    var i := 0;
    while i < |pending|
      invariant 0 <= i <= |pending|
      invariant forall j :: 0 <= j < i ==> !IsStalePending(pending[j], threshold, parse)
    {
      var issued := ParseJamfDate(pending[i].dateIssued, parse);
      if issued.Some? && issued.value < threshold {
        return true;
      }
      i := i + 1;
    }
    return false;
  }

  /** `compliance_group_name in group_memberships`. */
  function IsCompliant(memberships: seq<string>, complianceGroup: string): (r: bool)
    ensures r <==> exists i :: 0 <= i < |memberships| && memberships[i] == complianceGroup
  {
    complianceGroup in memberships
  }

  predicate IsMonitoredMatch(g: string, monitored: seq<string>, complianceGroup: string) {
    g in monitored && g != complianceGroup
  }

  /** The memberships that are monitored groups other than the compliance
      group, in membership order and with their duplicates. */
  function MonitoredMatches(memberships: seq<string>, monitored: seq<string>, complianceGroup: string): (r: seq<string>)
    ensures IsSubsequence(r, memberships)
    ensures forall g :: multiset(r)[g] ==
                        (if IsMonitoredMatch(g, monitored, complianceGroup) then multiset(memberships)[g] else 0)
    ensures complianceGroup !in r
  {
    var p := (g: string) => IsMonitoredMatch(g, monitored, complianceGroup);
    FilterIsSubsequence(memberships, p);
    FilterMultiplicities(memberships, p);
    Filter(memberships, p)
  }

  /** The configuration one evaluation reads: the threshold settings and the
      service's compliance and monitored group names. */
  datatype HealthConfig = HealthConfig(
    checkInHours: int,
    reconHours: int,
    pendingCommandHours: int,
    complianceGroupName: string,
    monitoredGroups: seq<string>)

  /** What the four upstream calls of one device returned. */
  datatype DeviceFetches = DeviceFetches(
    detail: Result<DetailPayload>,
    failedPolicies: Result<seq<Policy>>,
    mdmCommands: Result<MdmCommands>,
    groupMemberships: Result<seq<string>>)

  const Unknown: string := "Unknown"

  /** `general.get(key, "Unknown")` given to a pydantic `str` field: an
      absent key defaults, a string is kept, anything else fails validation. */
  function StringField(v: Option<Value>): (r: Result<string>)
    ensures v.None? ==> r == Ok(Unknown)
    ensures v.Some? && v.value.Str? ==> r == Ok(v.value.s)
    ensures v.Some? && !v.value.Str? ==> r == Err(ValidationError)
  {
    match v
    case None => Ok(Unknown)
    case Some(Str(s)) => Ok(s)
    case Some(_) => Err(ValidationError)
  }

  const NoGeneral: General := General(None, None, None, None, None, None)

  /** The `DeviceBasicInfo` built from the detail payload. */
  function DeviceInfoOf(computerId: int, detail: DetailPayload, parse: string -> Option<Timestamp>): (r: Result<DeviceBasicInfo>)
    ensures r.Ok? ==> r.value.id == computerId
    ensures detail.general.None? ==> r == Ok(DeviceBasicInfo(computerId, Unknown, Unknown, Unknown, Unknown, None, None))
    ensures detail.general.Some? ==> var g := detail.general.value;
      (r.Ok? <==> StringField(g.name).Ok? && StringField(g.serialNumber).Ok?
                  && StringField(g.modelIdentifier).Ok? && StringField(g.operatingSystemVersion).Ok?)
    ensures detail.general.Some? && r.Ok? ==> var g := detail.general.value;
      && r.value.name == StringField(g.name).value
      && r.value.serialNumber == StringField(g.serialNumber).value
      && r.value.model == StringField(g.modelIdentifier).value
      && r.value.osVersion == StringField(g.operatingSystemVersion).value
      && r.value.lastContactTime == ParseJamfDate(g.lastContactTime, parse)
      && r.value.lastInventoryUpdate == ParseJamfDate(g.lastInventoryUpdateTimestamp, parse)
  {
    var g := detail.general.GetOr(NoGeneral);
    var name := StringField(g.name);
    var serial := StringField(g.serialNumber);
    var model := StringField(g.modelIdentifier);
    var os := StringField(g.operatingSystemVersion);
    if name.Err? || serial.Err? || model.Err? || os.Err? then Err(ValidationError)
    else Ok(DeviceBasicInfo(computerId, name.value, serial.value, model.value, os.value,
                            ParseJamfDate(g.lastContactTime, parse),
                            ParseJamfDate(g.lastInventoryUpdateTimestamp, parse)))
  }

  /** The signals `check_device_health` derives once every fetch succeeded. */
  function HealthResultOf(cfg: HealthConfig, info: DeviceBasicInfo, failedPolicies: seq<Policy>, mdm: MdmCommands,
                          memberships: seq<string>, now: Timestamp, parse: string -> Option<Timestamp>): (h: HealthCheckResult)
    ensures h.checkInOk == CheckRecentContact(info.lastContactTime, now, cfg.checkInHours)
    ensures h.reconOk == CheckRecentRecon(info.lastInventoryUpdate, now, cfg.reconHours)
    ensures h.hasFailedPolicies <==> failedPolicies != []
    ensures h.hasFailedMdmCommands <==> mdm.failed != []
    ensures h.hasPendingMdmCommands == AnyStalePending(mdm.pending, now, cfg.pendingCommandHours, parse)
    ensures h.isCompliant <==> cfg.complianceGroupName in memberships
    ensures h.smartGroupMemberships == MonitoredMatches(memberships, cfg.monitoredGroups, cfg.complianceGroupName)
    ensures IsSubsequence(h.smartGroupMemberships, memberships)
    ensures cfg.complianceGroupName !in h.smartGroupMemberships
  {
    HealthCheckResult(
      CheckRecentContact(info.lastContactTime, now, cfg.checkInHours),
      CheckRecentRecon(info.lastInventoryUpdate, now, cfg.reconHours),
      |failedPolicies| > 0,
      |mdm.failed| > 0,
      AnyStalePending(mdm.pending, now, cfg.pendingCommandHours, parse),
      IsCompliant(memberships, cfg.complianceGroupName),
      MonitoredMatches(memberships, cfg.monitoredGroups, cfg.complianceGroupName))
  }

  /** `check_device_health`: the first failing step (detail fetch, device
      record validation, policies, commands, memberships) is the error;
      otherwise the record for `computerId` whose status classifies the
      derived signals. */
  function EvaluateDevice(cfg: HealthConfig, computerId: int, now: Timestamp, f: DeviceFetches,
                          parse: string -> Option<Timestamp>): (r: Result<DeviceHealth>)
    ensures f.detail.Err? ==> r == Err(f.detail.error)
    ensures f.detail.Ok? && DeviceInfoOf(computerId, f.detail.value, parse).Err? ==> r == Err(ValidationError)
    ensures r.Ok? <==> f.detail.Ok? && DeviceInfoOf(computerId, f.detail.value, parse).Ok?
                       && f.failedPolicies.Ok? && f.mdmCommands.Ok? && f.groupMemberships.Ok?
    ensures r.Err? && f.detail.Ok? && DeviceInfoOf(computerId, f.detail.value, parse).Ok? ==>
      r.error == (if f.failedPolicies.Err? then f.failedPolicies.error
                  else if f.mdmCommands.Err? then f.mdmCommands.error
                  else f.groupMemberships.error)
    ensures r.Ok? ==>
      && r.value.device == DeviceInfoOf(computerId, f.detail.value, parse).value
      && r.value.device.id == computerId
      && r.value.status == CalculateStatus(r.value.health)
      && r.value.lastChecked == now
    ensures r.Ok? ==> var h := r.value.health; var info := r.value.device;
      && h.checkInOk == CheckRecentContact(info.lastContactTime, now, cfg.checkInHours)
      && h.reconOk == CheckRecentRecon(info.lastInventoryUpdate, now, cfg.reconHours)
      && h.hasFailedPolicies == (f.failedPolicies.value != [])
      && h.hasFailedMdmCommands == (f.mdmCommands.value.failed != [])
      && h.hasPendingMdmCommands == AnyStalePending(f.mdmCommands.value.pending, now, cfg.pendingCommandHours, parse)
      && h.isCompliant == (cfg.complianceGroupName in f.groupMemberships.value)
      && h.smartGroupMemberships == MonitoredMatches(f.groupMemberships.value, cfg.monitoredGroups, cfg.complianceGroupName)
  {
    match f.detail
    case Err(e) => Err(e)
    case Ok(detail) =>
      match DeviceInfoOf(computerId, detail, parse)
      case Err(e) => Err(e)
      case Ok(info) =>
        match f.failedPolicies
        case Err(e) => Err(e)
        case Ok(policies) =>
          match f.mdmCommands
          case Err(e) => Err(e)
          case Ok(mdm) =>
            match f.groupMemberships
            case Err(e) => Err(e)
            case Ok(groups) =>
              var health := HealthResultOf(cfg, info, policies, mdm, groups, now, parse);
              Ok(DeviceHealth(info, health, CalculateStatus(health), now))
  }

  /** The staleness signals dominate: a device that has not checked in is
      UNHEALTHY whatever its group memberships. */
  lemma StaleCheckInIsUnhealthy(cfg: HealthConfig, computerId: int, now: Timestamp, f: DeviceFetches,
                                parse: string -> Option<Timestamp>)
    requires EvaluateDevice(cfg, computerId, now, f, parse).Ok?
    requires !CheckRecentContact(EvaluateDevice(cfg, computerId, now, f, parse).value.device.lastContactTime,
                                 now, cfg.checkInHours)
    ensures EvaluateDevice(cfg, computerId, now, f, parse).value.status == Unhealthy
  {
  }

  /** One evaluation per inventory entry, in inventory order. */
  function EvaluateEach(cfg: HealthConfig, computers: seq<InventoryEntry>, now: Timestamp,
                        fetchesFor: int -> DeviceFetches, parse: string -> Option<Timestamp>): (rs: seq<Result<DeviceHealth>>)
    ensures |rs| == |computers|
    ensures forall i :: 0 <= i < |computers| ==>
      rs[i] == EvaluateDevice(cfg, computers[i].id, now, fetchesFor(computers[i].id), parse)
    decreases |computers|
  {
    if computers == [] then []
    else [EvaluateDevice(cfg, computers[0].id, now, fetchesFor(computers[0].id), parse)]
         + EvaluateEach(cfg, computers[1..], now, fetchesFor, parse)
  }

  /** `check_all_devices`: only the inventory fetch can fail the batch; the
      per-device failures are dropped and the successes kept. */
  function EvaluateAll(cfg: HealthConfig, inventory: Result<seq<InventoryEntry>>, now: Timestamp,
                       fetchesFor: int -> DeviceFetches, parse: string -> Option<Timestamp>): (r: Result<seq<DeviceHealth>>)
    ensures r.Err? <==> inventory.Err?
    ensures r.Err? ==> r.error == inventory.error
    ensures r.Ok? ==> |r.value| <= |inventory.value|
    ensures r.Ok? ==> forall i :: 0 <= i < |r.value| ==>
      exists j :: 0 <= j < |inventory.value| &&
        EvaluateDevice(cfg, inventory.value[j].id, now, fetchesFor(inventory.value[j].id), parse) == Ok(r.value[i])
    ensures r.Ok? ==> forall j :: 0 <= j < |inventory.value| ==>
      var e := EvaluateDevice(cfg, inventory.value[j].id, now, fetchesFor(inventory.value[j].id), parse);
      e.Ok? ==> e.value in r.value
  {
    match inventory
    case Err(e) => Err(e)
    case Ok(computers) =>
      var rs := EvaluateEach(cfg, computers, now, fetchesFor, parse);
      assert forall j :: 0 <= j < |computers| ==>
        EvaluateDevice(cfg, computers[j].id, now, fetchesFor(computers[j].id), parse) == rs[j];
      Ok(Successes(rs))
  }

  /** The batch is the concatenation of the batches of its parts, so the
      successes stay in inventory order. */
  lemma EvaluateAllInOrder(cfg: HealthConfig, a: seq<InventoryEntry>, b: seq<InventoryEntry>, now: Timestamp,
                           fetchesFor: int -> DeviceFetches, parse: string -> Option<Timestamp>)
    ensures EvaluateAll(cfg, Ok(a + b), now, fetchesFor, parse).value ==
            EvaluateAll(cfg, Ok(a), now, fetchesFor, parse).value + EvaluateAll(cfg, Ok(b), now, fetchesFor, parse).value
  {
    var ra := EvaluateEach(cfg, a, now, fetchesFor, parse);
    var rb := EvaluateEach(cfg, b, now, fetchesFor, parse);
    EvaluateEachAppend(cfg, a, b, now, fetchesFor, parse);
    SuccessesAppend(ra, rb);
  }

  lemma {:induction false} EvaluateEachAppend(cfg: HealthConfig, a: seq<InventoryEntry>, b: seq<InventoryEntry>,
                                              now: Timestamp, fetchesFor: int -> DeviceFetches,
                                              parse: string -> Option<Timestamp>)
    ensures EvaluateEach(cfg, a + b, now, fetchesFor, parse) ==
            EvaluateEach(cfg, a, now, fetchesFor, parse) + EvaluateEach(cfg, b, now, fetchesFor, parse)
    decreases |a|
  {
    if a == [] {
      assert a + b == b;
    } else {
      assert (a + b)[0] == a[0];
      assert (a + b)[1..] == a[1..] + b;
      EvaluateEachAppend(cfg, a[1..], b, now, fetchesFor, parse);
    }
  }

  /** Exactly the failed evaluations are dropped. */
  lemma EvaluateAllDropsFailures(cfg: HealthConfig, computers: seq<InventoryEntry>, now: Timestamp,
                                 fetchesFor: int -> DeviceFetches, parse: string -> Option<Timestamp>)
    ensures |EvaluateAll(cfg, Ok(computers), now, fetchesFor, parse).value| ==
      |computers| - CountWhere(EvaluateEach(cfg, computers, now, fetchesFor, parse), (r: Result<DeviceHealth>) => r.Err?)
  {
    SuccessesLength(EvaluateEach(cfg, computers, now, fetchesFor, parse));
  }

  /** With no per-device failure nothing is dropped: the batch is every
      device's record, in inventory order. */
  lemma EvaluateAllWithoutFailures(cfg: HealthConfig, computers: seq<InventoryEntry>, now: Timestamp,
                                   fetchesFor: int -> DeviceFetches, parse: string -> Option<Timestamp>)
    requires forall i :: 0 <= i < |computers| ==>
      EvaluateDevice(cfg, computers[i].id, now, fetchesFor(computers[i].id), parse).Ok?
    ensures var r := EvaluateAll(cfg, Ok(computers), now, fetchesFor, parse).value;
      |r| == |computers| && forall i :: 0 <= i < |r| ==>
        Ok(r[i]) == EvaluateDevice(cfg, computers[i].id, now, fetchesFor(computers[i].id), parse)
  {
    var rs := EvaluateEach(cfg, computers, now, fetchesFor, parse);
    AllOkSuccesses(rs);
  }

  lemma {:induction false} AllOkSuccesses<T>(rs: seq<Result<T>>)
    requires forall i :: 0 <= i < |rs| ==> rs[i].Ok?
    ensures |Successes(rs)| == |rs|
    ensures forall i :: 0 <= i < |rs| ==> Ok(Successes(rs)[i]) == rs[i]
    decreases |rs|
  {
    if rs != [] {
      AllOkSuccesses(rs[1..]);
    }
  }

  /** The process-wide settings object whose threshold fields
      `set_thresholds` changes. */
  class Settings {
    var checkInThresholdHours: int
    var reconThresholdHours: int
    var pendingCommandThresholdHours: int

    /** The configured defaults. */
    constructor ()
      ensures checkInThresholdHours == 24 && reconThresholdHours == 24 && pendingCommandThresholdHours == 6
    {
      checkInThresholdHours := 24;
      reconThresholdHours := 24;
      pendingCommandThresholdHours := 6;
    }
  }

  /** Python truthiness of an optional integer argument. */
  predicate Given(v: Option<int>) {
    v.Some? && v.value != 0
  }

  class HealthCheckService {
    const settings: Settings
    var complianceGroupName: string
    var monitoredGroups: seq<string>

    constructor (settings: Settings)
      ensures this.settings == settings
      ensures complianceGroupName == "Compliance" && monitoredGroups == []
    {
      this.settings := settings;
      complianceGroupName := "Compliance";
      monitoredGroups := [];
    }

    function Config(): HealthConfig
      reads this, settings
    {
      HealthConfig(settings.checkInThresholdHours, settings.reconThresholdHours,
                   settings.pendingCommandThresholdHours, complianceGroupName, monitoredGroups)
    }

    /** `set_thresholds`: only the truthy arguments overwrite. */
    method SetThresholds(checkInHours: Option<int>, reconHours: Option<int>, pendingCommandHours: Option<int>)
      modifies settings
      ensures settings.checkInThresholdHours ==
        if Given(checkInHours) then checkInHours.value else old(settings.checkInThresholdHours)
      ensures settings.reconThresholdHours ==
        if Given(reconHours) then reconHours.value else old(settings.reconThresholdHours)
      ensures settings.pendingCommandThresholdHours ==
        if Given(pendingCommandHours) then pendingCommandHours.value else old(settings.pendingCommandThresholdHours)
      ensures Given(checkInHours) && Given(reconHours) && Given(pendingCommandHours) ==>
        GetThresholds() == MakeThresholds(checkInHours.value, reconHours.value, pendingCommandHours.value)
    {
      if Given(checkInHours) {
        settings.checkInThresholdHours := checkInHours.value;
      }
      if Given(reconHours) {
        settings.reconThresholdHours := reconHours.value;
      }
      if Given(pendingCommandHours) {
        settings.pendingCommandThresholdHours := pendingCommandHours.value;
      }
    }

    /** `get_thresholds`: the current settings, validated by `HealthThresholds`. */
    function GetThresholds(): (r: Result<HealthThresholds>)
      reads settings
      ensures r.Ok? <==> ValidThresholds(HealthThresholds(settings.checkInThresholdHours,
                                                          settings.reconThresholdHours,
                                                          settings.pendingCommandThresholdHours))
      ensures r.Ok? ==> r.value.checkInHours == settings.checkInThresholdHours
                        && r.value.reconHours == settings.reconThresholdHours
                        && r.value.pendingCommandHours == settings.pendingCommandThresholdHours
    {
      MakeThresholds(settings.checkInThresholdHours, settings.reconThresholdHours,
                     settings.pendingCommandThresholdHours)
    }

    /** `check_device_health` with the service's current configuration. */
    function CheckDeviceHealth(computerId: int, now: Timestamp, f: DeviceFetches,
                               parse: string -> Option<Timestamp>): (r: Result<DeviceHealth>)
      reads this, settings
      ensures r.Ok? ==> r.value.device.id == computerId && r.value.status == CalculateStatus(r.value.health)
      ensures r.Ok? ==> f.groupMemberships.Ok?
                        && r.value.health.isCompliant == (complianceGroupName in f.groupMemberships.value)
    {
      EvaluateDevice(Config(), computerId, now, f, parse)
    }

    /** `check_all_devices` with the service's current configuration. */
    function CheckAllDevices(inventory: Result<seq<InventoryEntry>>, now: Timestamp,
                             fetchesFor: int -> DeviceFetches, parse: string -> Option<Timestamp>): (r: Result<seq<DeviceHealth>>)
      reads this, settings
      ensures r.Err? <==> inventory.Err?
      ensures r.Ok? ==> |r.value| <= |inventory.value|
    {
      EvaluateAll(Config(), inventory, now, fetchesFor, parse)
    }
  }
}
