/** The counting routes of `app/api/routes/devices.py`: the device list with
    its optional status filter and per-status counts, and the status
    summary with its percentages. Both start from the result of
    `check_all_devices`, whose error propagates unchanged. */
module DeviceRoutes {
  import opened Common
  import opened DeviceModel

  /** `sum(1 for d in devices if d.status == s)`. */
  function CountStatus(devices: seq<DeviceHealth>, s: HealthStatus): (n: nat)
    ensures n <= |devices|
    ensures n == |Filter(devices, (d: DeviceHealth) => d.status == s)|
    ensures n == 0 <==> forall i :: 0 <= i < |devices| ==> devices[i].status != s
  {
    FilterLength(devices, (d: DeviceHealth) => d.status == s);
    if forall i :: 0 <= i < |devices| ==> devices[i].status != s then
      FilterNone(devices, (d: DeviceHealth) => d.status == s);
      CountWhere(devices, (d: DeviceHealth) => d.status == s)
    else
      CountWhere(devices, (d: DeviceHealth) => d.status == s)
  }

  /** Every device has exactly one of the three statuses, so the three
      counts add up to the number of devices. */
  lemma {:induction false} CountsPartition(devices: seq<DeviceHealth>)
    ensures CountStatus(devices, Healthy) + CountStatus(devices, Caution) + CountStatus(devices, Unhealthy) == |devices|
    decreases |devices|
  {
    if devices != [] {
      CountsPartition(devices[1..]);
    }
  }

  lemma {:induction false} CountOfUniform(devices: seq<DeviceHealth>, s: HealthStatus, other: HealthStatus)
    requires forall i :: 0 <= i < |devices| ==> devices[i].status == s
    ensures CountStatus(devices, s) == |devices|
    ensures other != s ==> CountStatus(devices, other) == 0
    decreases |devices|
  {
    if devices != [] {
      CountOfUniform(devices[1..], s, other);
    }
  }

  /** `[d for d in devices if d.status == status_filter]` when a filter is
      given (every status value is a non-empty string, hence truthy); the
      list unchanged otherwise. */
  function ApplyStatusFilter(devices: seq<DeviceHealth>, statusFilter: Option<HealthStatus>): (r: seq<DeviceHealth>)
    ensures statusFilter.None? ==> r == devices
    ensures statusFilter.Some? ==> forall i :: 0 <= i < |r| ==> r[i].status == statusFilter.value
    ensures statusFilter.Some? ==>
      forall i :: 0 <= i < |devices| && devices[i].status == statusFilter.value ==> devices[i] in r
    ensures IsSubsequence(r, devices)
  {
    match statusFilter
    case None =>
      SubsequenceReflexive(devices);
      devices
    case Some(s) =>
      FilterIsSubsequence(devices, (d: DeviceHealth) => d.status == s);
      Filter(devices, (d: DeviceHealth) => d.status == s)
  }

  lemma {:induction false} SubsequenceReflexive<T>(s: seq<T>)
    ensures IsSubsequence(s, s)
    decreases |s|
  {
    if s != [] {
      SubsequenceReflexive(s[1..]);
    }
  }

  /** The filtered list keeps every device of the chosen status: its length
      is that status's count in the unfiltered list. */
  lemma FilterKeepsStatusCount(devices: seq<DeviceHealth>, s: HealthStatus)
    ensures |ApplyStatusFilter(devices, Some(s))| == CountStatus(devices, s)
  {
    FilterLength(devices, (d: DeviceHealth) => d.status == s);
  }

  /** `get_all_devices`. */
  function GetAllDevices(all: Result<seq<DeviceHealth>>, statusFilter: Option<HealthStatus>): (r: Result<DeviceListResponse>)
    ensures r.Err? <==> all.Err?
    ensures r.Err? ==> r.error == all.error
    ensures r.Ok? ==> r.value.devices == ApplyStatusFilter(all.value, statusFilter)
    ensures r.Ok? ==> r.value.total == |r.value.devices|
    ensures r.Ok? ==> r.value.healthyCount + r.value.cautionCount + r.value.unhealthyCount == r.value.total
    ensures r.Ok? && statusFilter.None? ==> r.value.devices == all.value
    ensures r.Ok? && statusFilter.Some? ==>
      && r.value.total == CountStatus(all.value, statusFilter.value)
      && (statusFilter.value == Healthy || r.value.healthyCount == 0)
      && (statusFilter.value == Caution || r.value.cautionCount == 0)
      && (statusFilter.value == Unhealthy || r.value.unhealthyCount == 0)
  {
    match all
    case Err(e) => Err(e)
    case Ok(devices) =>
      var shown := ApplyStatusFilter(devices, statusFilter);
      CountsPartition(shown);
      if statusFilter.Some? then
        FilterKeepsStatusCount(devices, statusFilter.value);
        CountOfUniform(shown, statusFilter.value, Healthy);
        CountOfUniform(shown, statusFilter.value, Caution);
        CountOfUniform(shown, statusFilter.value, Unhealthy);
        Ok(ListResponse(shown))
      else
        Ok(ListResponse(shown))
  }

  /** The response body of `get_all_devices` for the devices shown. */
  function ListResponse(shown: seq<DeviceHealth>): (r: DeviceListResponse)
    ensures r.devices == shown && r.total == |shown|
    ensures r.healthyCount + r.cautionCount + r.unhealthyCount == r.total
    ensures r.healthyCount == CountStatus(shown, Healthy)
    ensures r.cautionCount == CountStatus(shown, Caution)
    ensures r.unhealthyCount == CountStatus(shown, Unhealthy)
  {
    CountsPartition(shown);
    DeviceListResponse(|shown|, shown, CountStatus(shown, Healthy), CountStatus(shown, Caution),
                       CountStatus(shown, Unhealthy))
  }

  /** The share of `count` in `total`, in percent; 0 for an empty list. */
  function Percentage(count: nat, total: nat): (p: real)
    ensures total == 0 ==> p == 0.0
    ensures count <= total ==> 0.0 <= p <= 100.0
    ensures count == total && total > 0 ==> p == 100.0
  {
    if total == 0 then 0.0 else (count as real / total as real) * 100.0
  }

  datatype StatusPercentages = StatusPercentages(healthy: real, caution: real, unhealthy: real)

  datatype StatusSummary = StatusSummary(
    total: nat,
    healthy: nat,
    caution: nat,
    unhealthy: nat,
    percentages: StatusPercentages)

  /** Unless the list is empty, the three (unrounded) percentages add up
      to 100. */
  lemma PercentagesSum(h: nat, c: nat, u: nat)
    requires h + c + u > 0
    ensures Percentage(h, h + c + u) + Percentage(c, h + c + u) + Percentage(u, h + c + u) == 100.0
  {
    var t := (h + c + u) as real;
    assert h as real / t + c as real / t + u as real / t == (h as real + c as real + u as real) / t;
  }

  /** `get_status_summary`. */
  function GetStatusSummary(all: Result<seq<DeviceHealth>>): (r: Result<StatusSummary>)
    ensures r.Err? <==> all.Err?
    ensures r.Err? ==> r.error == all.error
    ensures r.Ok? ==> r.value.total == |all.value|
    ensures r.Ok? ==> r.value.healthy == CountStatus(all.value, Healthy)
    ensures r.Ok? ==> r.value.caution == CountStatus(all.value, Caution)
    ensures r.Ok? ==> r.value.unhealthy == CountStatus(all.value, Unhealthy)
    ensures r.Ok? ==> r.value.healthy + r.value.caution + r.value.unhealthy == r.value.total
    ensures r.Ok? && all.value == [] ==>
      r.value.total == r.value.healthy == r.value.caution == r.value.unhealthy == 0
      && r.value.percentages == StatusPercentages(0.0, 0.0, 0.0)
    ensures r.Ok? && all.value != [] ==>
      r.value.percentages.healthy + r.value.percentages.caution + r.value.percentages.unhealthy == 100.0
  {
    match all
    case Err(e) => Err(e)
    case Ok(devices) =>
      var h := CountStatus(devices, Healthy);
      var c := CountStatus(devices, Caution);
      var u := CountStatus(devices, Unhealthy);
      CountsPartition(devices);
      var total := |devices|;
      if total > 0 then
        PercentagesSum(h, c, u);
        Ok(StatusSummary(total, h, c, u, StatusPercentages(Percentage(h, total), Percentage(c, total), Percentage(u, total))))
      else
        Ok(StatusSummary(total, h, c, u, StatusPercentages(Percentage(h, total), Percentage(c, total), Percentage(u, total))))
  }
}
