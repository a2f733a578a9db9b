/** The database repositories of `app/core/repositories.py`, with each
    table held in memory: the key/value settings with their compliance and
    monitored-group defaults, the versioned health thresholds, and the
    device health cache with its expiry. */
module Repositories {
  import opened Common
  import opened DeviceModel

  // ---------------------------------------------------------------------
  // Settings

  const ComplianceGroupKey: string := "compliance_group"
  const MonitoredGroupsKey: string := "monitored_groups"
  const DefaultComplianceGroup: string := "Compliance"

  /** `get_compliance_group` given the stored value: an unset or empty value
      means the default group. */
  function ComplianceGroupFrom(value: Option<string>): (g: string)
    ensures value.None? || value == Some("") ==> g == DefaultComplianceGroup
    ensures value.Some? && value.value != "" ==> g == value.value
    ensures g != ""
  {
    if value.Some? && value.value != "" then value.value else DefaultComplianceGroup
  }

  /** `get_monitored_groups` given the stored value and the JSON decoder
      (`None` where decoding raises): an unset, empty or undecodable value
      means no groups. */
  function MonitoredGroupsFrom(value: Option<string>, decode: string -> Option<seq<string>>): (gs: seq<string>)
    ensures value.None? || value == Some("") ==> gs == []
    ensures value.Some? && value.value != "" && decode(value.value).None? ==> gs == []
    ensures value.Some? && value.value != "" && decode(value.value).Some? ==> gs == decode(value.value).value
  {
    if value.Some? && value.value != "" then decode(value.value).GetOr([]) else []
  }

  /** Storing the encoded list and reading it back gives the list, provided
      the encoder and decoder are inverse and the encoding is non-empty (as
      every JSON text is). */
  lemma MonitoredGroupsRoundTrip(groups: seq<string>, encode: seq<string> -> string,
                                 decode: string -> Option<seq<string>>)
    requires encode(groups) != "" && decode(encode(groups)) == Some(groups)
    ensures MonitoredGroupsFrom(Some(encode(groups)), decode) == groups
  {
  }

  /** A row of the `health_thresholds` table. */
  datatype HealthThresholdRow = HealthThresholdRow(
    checkInHours: int,
    reconHours: int,
    pendingCommandHours: int,
    isActive: bool,
    createdAt: Timestamp)

  predicate IsActiveRow(r: HealthThresholdRow) {
    r.isActive
  }

  /** `get_health_thresholds`: the active row, if any; `scalar_one_or_none`
      raises when there are several. */
  function ActiveThreshold(rows: seq<HealthThresholdRow>): (r: Result<Option<HealthThresholdRow>>)
    ensures r.Err? <==> |Filter(rows, IsActiveRow)| > 1
    ensures r.Err? ==> r.error == MultipleResultsFound
    ensures r == Ok(None) <==> forall i :: 0 <= i < |rows| ==> !rows[i].isActive
    ensures r.Ok? && r.value.Some? ==> r.value.value in rows && r.value.value.isActive
  {
    var active := Filter(rows, IsActiveRow);
    if |active| > 1 then
      ActiveRowHasIndex(rows);
      Err(MultipleResultsFound)
    else if |active| == 0 then Ok(None)
    else Ok(Some(active[0]))
  }

  lemma ActiveRowHasIndex(rows: seq<HealthThresholdRow>)
    requires Filter(rows, IsActiveRow) != []
    ensures exists i :: 0 <= i < |rows| && rows[i].isActive
  {
    var x := Filter(rows, IsActiveRow)[0];
    var i :| 0 <= i < |rows| && rows[i] == x;
  }

  /** Every row with `is_active` cleared. */
  function Deactivated(rows: seq<HealthThresholdRow>): (r: seq<HealthThresholdRow>)
    ensures |r| == |rows|
    ensures forall i :: 0 <= i < |rows| ==> r[i] == rows[i].(isActive := false)
  {
    seq(|rows|, i requires 0 <= i < |rows| => rows[i].(isActive := false))
  }

  /** After deactivating every row and adding one active row, that row is
      the one active threshold set. */
  lemma {:induction false} UpdateLeavesOneActive(rows: seq<HealthThresholdRow>, row: HealthThresholdRow)
    requires row.isActive
    ensures Filter(Deactivated(rows) + [row], IsActiveRow) == [row]
    ensures ActiveThreshold(Deactivated(rows) + [row]) == Ok(Some(row))
  {
    var d := Deactivated(rows);
    FilterAppend(d, [row], IsActiveRow);
    FilterNone(d, IsActiveRow);
    assert Filter([row], IsActiveRow) == [row];
  }

  class SettingsRepository {
    /** `application_settings`: key to the nullable `setting_value`. */
    var settings: map<string, Option<string>>
    /** `health_thresholds`, in insertion order. */
    var thresholds: seq<HealthThresholdRow>

    constructor ()
      ensures settings == map[] && thresholds == []
    {
      settings := map[];
      thresholds := [];
    }

    /** `get_setting`: the stored value, or nothing for an unknown key. */
    function GetSetting(key: string): (r: Option<string>)
      reads this
      ensures key !in settings ==> r == None
      ensures key in settings ==> r == settings[key]
    {
      if key in settings then settings[key] else None
    }

    /** `set_setting`: update the row of `key` or add one. */
    method SetSetting(key: string, value: string)
      modifies this
      ensures settings == old(settings)[key := Some(value)]
      ensures thresholds == old(thresholds)
      ensures GetSetting(key) == Some(value)
      ensures forall k :: k != key ==> GetSetting(k) == old(GetSetting(k))
    {
      settings := settings[key := Some(value)];
    }

    function GetHealthThresholds(): (r: Result<Option<HealthThresholdRow>>)
      reads this
      ensures r.Ok? && r.value.Some? ==> r.value.value in thresholds && r.value.value.isActive
      ensures r.Err? <==> |Filter(thresholds, IsActiveRow)| > 1
    {
      ActiveThreshold(thresholds)
    }

    /** `update_health_thresholds`: deactivate every active row, then add an
      active row with the new values. */
    method UpdateHealthThresholds(checkInHours: int, reconHours: int, pendingCommandHours: int, now: Timestamp)
      returns (row: HealthThresholdRow)
      modifies this
      ensures row == HealthThresholdRow(checkInHours, reconHours, pendingCommandHours, true, now)
      ensures thresholds == Deactivated(old(thresholds)) + [row]
      ensures settings == old(settings)
      ensures Filter(thresholds, IsActiveRow) == [row]
      ensures GetHealthThresholds() == Ok(Some(row))
    {
      var i := 0;
      var rows := thresholds;
      while i < |rows|
        invariant 0 <= i <= |rows|
        invariant |rows| == |thresholds|
        invariant forall j :: 0 <= j < i ==> rows[j] == thresholds[j].(isActive := false)
        invariant forall j :: i <= j < |rows| ==> rows[j] == thresholds[j]
      {
        if rows[i].isActive {
          rows := rows[i := rows[i].(isActive := false)];
        }
        i := i + 1;
      }
      assert rows == Deactivated(thresholds);
      row := HealthThresholdRow(checkInHours, reconHours, pendingCommandHours, true, now);
      thresholds := rows + [row];
      UpdateLeavesOneActive(old(thresholds), row);
    }

    function GetComplianceGroup(): (g: string)
      reads this
      ensures GetSetting(ComplianceGroupKey).None? ==> g == DefaultComplianceGroup
      ensures g != ""
    {
      ComplianceGroupFrom(GetSetting(ComplianceGroupKey))
    }

    method SetComplianceGroup(groupName: string)
      modifies this
      ensures settings == old(settings)[ComplianceGroupKey := Some(groupName)]
      ensures thresholds == old(thresholds)
      ensures GetComplianceGroup() == if groupName == "" then DefaultComplianceGroup else groupName
    {
      SetSetting(ComplianceGroupKey, groupName);
    }

    function GetMonitoredGroups(decode: string -> Option<seq<string>>): (gs: seq<string>)
      reads this
      ensures GetSetting(MonitoredGroupsKey).None? ==> gs == []
    {
      MonitoredGroupsFrom(GetSetting(MonitoredGroupsKey), decode)
    }

    /** `set_monitored_groups`, with `encode` the JSON encoder. */
    method SetMonitoredGroups(groups: seq<string>, encode: seq<string> -> string)
      modifies this
      ensures settings == old(settings)[MonitoredGroupsKey := Some(encode(groups))]
      ensures thresholds == old(thresholds)
      ensures GetSetting(MonitoredGroupsKey) == Some(encode(groups))
    {
      SetSetting(MonitoredGroupsKey, encode(groups));
    }
  }

  // ---------------------------------------------------------------------
  // Device health cache

  /** A row of the `cached_device_health` table. */
  datatype CachedDeviceHealth = CachedDeviceHealth(
    deviceId: int,
    deviceName: string,
    serialNumber: string,
    model: string,
    osVersion: string,
    lastContactTime: Option<Timestamp>,
    lastInventoryUpdate: Option<Timestamp>,
    checkInOk: bool,
    reconOk: bool,
    hasFailedPolicies: bool,
    hasFailedMdmCommands: bool,
    hasPendingMdmCommands: bool,
    isCompliant: bool,
    smartGroupMemberships: seq<string>,
    status: string,
    cachedAt: Timestamp,
    expiresAt: Timestamp)

  /** The row `cache_device_health` writes for a record at `now`. */
  function CachedRowOf(h: DeviceHealth, now: Timestamp, ttlSeconds: int): (row: CachedDeviceHealth)
    ensures row.deviceId == h.device.id
    ensures row.cachedAt == now && row.expiresAt == now + ttlSeconds
    ensures ParseStatus(row.status) == Some(h.status)
    ensures (ttlSeconds > 0) == Live(row, now)
  {
    StatusValueRoundTrip(h.status);
    CachedDeviceHealth(
      h.device.id, h.device.name, h.device.serialNumber, h.device.model, h.device.osVersion,
      h.device.lastContactTime, h.device.lastInventoryUpdate,
      h.health.checkInOk, h.health.reconOk, h.health.hasFailedPolicies, h.health.hasFailedMdmCommands,
      h.health.hasPendingMdmCommands, h.health.isCompliant, h.health.smartGroupMemberships,
      StatusValue(h.status), now, now + ttlSeconds)
  }

  /** The `device_id` column is unique. */
  ghost predicate UniqueDeviceIds(rows: seq<CachedDeviceHealth>) {
    forall i, j :: 0 <= i < j < |rows| ==> rows[i].deviceId != rows[j].deviceId
  }

  /** The position of the row of `deviceId`, if there is one. */
  function IndexOfDevice(rows: seq<CachedDeviceHealth>, deviceId: int): (r: Option<nat>)
    ensures r.Some? ==> r.value < |rows| && rows[r.value].deviceId == deviceId
    ensures r.None? ==> forall i :: 0 <= i < |rows| ==> rows[i].deviceId != deviceId
    decreases |rows|
  {
    if rows == [] then None
    else if rows[0].deviceId == deviceId then Some(0)
    else match IndexOfDevice(rows[1..], deviceId)
      case None => None
      case Some(k) => Some(k + 1)
  }

  predicate Live(row: CachedDeviceHealth, now: Timestamp) {
    row.expiresAt > now
  }

  /** `get_cached_device`: the row of `deviceId` if it expires strictly after `now`. */
  function Lookup(rows: seq<CachedDeviceHealth>, deviceId: int, now: Timestamp): (r: Option<CachedDeviceHealth>)
    ensures r.Some? ==> r.value in rows && r.value.deviceId == deviceId && r.value.expiresAt > now
    ensures r.None? ==> forall i :: 0 <= i < |rows| && rows[i].deviceId == deviceId ==> rows[i].expiresAt <= now
  {
    var hits := Filter(rows, (row: CachedDeviceHealth) => row.deviceId == deviceId && Live(row, now));
    if hits == [] then None else Some(hits[0])
  }

  /** The table after `cache_device_health` writes `row`: the row of the
      same device is overwritten in place, or the row is added. */
  function Upsert(rows: seq<CachedDeviceHealth>, row: CachedDeviceHealth): (r: seq<CachedDeviceHealth>)
    ensures row in r
    ensures |r| == |rows| || |r| == |rows| + 1
    ensures forall i :: 0 <= i < |rows| && rows[i].deviceId != row.deviceId ==> rows[i] in r
    ensures forall i :: 0 <= i < |r| ==> r[i] == row || r[i] in rows
  {
    match IndexOfDevice(rows, row.deviceId)
    case Some(k) =>
      var r := rows[k := row];
      assert r[k] == row;
      assert forall i :: 0 <= i < |rows| && i != k ==> r[i] == rows[i];
      r
    case None => rows + [row]
  }

  lemma UpsertKeepsUnique(rows: seq<CachedDeviceHealth>, row: CachedDeviceHealth)
    requires UniqueDeviceIds(rows)
    ensures UniqueDeviceIds(Upsert(rows, row))
  {
  }

  /** After the write there is exactly one row for the device: the one written. */
  lemma UpsertSingleEntry(rows: seq<CachedDeviceHealth>, row: CachedDeviceHealth)
    requires UniqueDeviceIds(rows)
    ensures row in Upsert(rows, row)
    ensures forall i :: 0 <= i < |Upsert(rows, row)| && Upsert(rows, row)[i].deviceId == row.deviceId ==>
      Upsert(rows, row)[i] == row
    ensures |Upsert(rows, row)| == if IndexOfDevice(rows, row.deviceId).Some? then |rows| else |rows| + 1
  {
    match IndexOfDevice(rows, row.deviceId)
    case Some(k) =>
      assert Upsert(rows, row)[k] == row;
    case None =>
      assert Upsert(rows, row)[|rows|] == row;
  }

  predicate OtherDevice(row: CachedDeviceHealth, deviceId: int) {
    row.deviceId != deviceId
  }

  lemma {:induction false} FilterUpdateUnseen<T>(s: seq<T>, k: nat, x: T, p: T -> bool)
    requires k < |s|
    requires !p(s[k]) && !p(x)
    ensures Filter(s[k := x], p) == Filter(s, p)
  {
    var t := s[k := x];
    assert s == s[..k] + [s[k]] + s[k + 1..];
    assert t == s[..k] + [x] + s[k + 1..];
    FilterAppend(s[..k] + [s[k]], s[k + 1..], p);
    FilterAppend(s[..k], [s[k]], p);
    FilterAppend(s[..k] + [x], s[k + 1..], p);
    FilterAppend(s[..k], [x], p);
  }

  /** The rows of every other device are untouched, in content and order. */
  lemma UpsertOthersUnchanged(rows: seq<CachedDeviceHealth>, row: CachedDeviceHealth)
    ensures var p := (r: CachedDeviceHealth) => OtherDevice(r, row.deviceId);
      Filter(Upsert(rows, row), p) == Filter(rows, p)
  {
    var p := (r: CachedDeviceHealth) => OtherDevice(r, row.deviceId);
    match IndexOfDevice(rows, row.deviceId)
    case Some(k) =>
      FilterUpdateUnseen(rows, k, row, p);
    case None =>
      FilterAppend(rows, [row], p);
  }

  /** Cache round trip: a read before the expiry returns the row written,
      whose identity fields, health flags and status are those of the
      record; a read from the expiry on returns nothing. */
  lemma CacheRoundTrip(rows: seq<CachedDeviceHealth>, h: DeviceHealth, now: Timestamp, ttlSeconds: int, t: Timestamp)
    requires UniqueDeviceIds(rows)
    ensures var row := CachedRowOf(h, now, ttlSeconds);
      var got := Lookup(Upsert(rows, row), h.device.id, t);
      && (t < now + ttlSeconds ==> got == Some(row))
      && (t >= now + ttlSeconds ==> got == None)
    ensures var row := CachedRowOf(h, now, ttlSeconds);
      && row.deviceId == h.device.id && row.deviceName == h.device.name
      && row.serialNumber == h.device.serialNumber
      && row.checkInOk == h.health.checkInOk && row.reconOk == h.health.reconOk
      && row.hasFailedPolicies == h.health.hasFailedPolicies
      && row.hasFailedMdmCommands == h.health.hasFailedMdmCommands
      && row.hasPendingMdmCommands == h.health.hasPendingMdmCommands
      && row.isCompliant == h.health.isCompliant
      && row.smartGroupMemberships == h.health.smartGroupMemberships
      && ParseStatus(row.status) == Some(h.status)
  {
    var row := CachedRowOf(h, now, ttlSeconds);
    var u := Upsert(rows, row);
    UpsertSingleEntry(rows, row);
    var got := Lookup(u, h.device.id, t);
    if t < now + ttlSeconds {
      var k :| 0 <= k < |u| && u[k] == row;
      assert got.Some?;
    }
    StatusValueRoundTrip(h.status);
  }

  /** `clear_expired_cache`: the rows that have not yet expired at `now`. */
  function SweepExpired(rows: seq<CachedDeviceHealth>, now: Timestamp): (r: seq<CachedDeviceHealth>)
    ensures |r| <= |rows|
    ensures forall i :: 0 <= i < |r| ==> r[i] in rows && r[i].expiresAt > now
    ensures forall i :: 0 <= i < |rows| && rows[i].expiresAt > now ==> rows[i] in r
  {
    Filter(rows, (row: CachedDeviceHealth) => Live(row, now))
  }

  lemma {:induction false} FilterFilter<T>(s: seq<T>, p: T -> bool, q: T -> bool)
    requires forall i :: 0 <= i < |s| && q(s[i]) ==> p(s[i])
    ensures Filter(Filter(s, p), q) == Filter(s, q)
    decreases |s|
  {
    if s != [] {
      FilterFilter(s[1..], p, q);
      if p(s[0]) {
        assert Filter(s, p) == [s[0]] + Filter(s[1..], p);
        FilterAppend([s[0]], Filter(s[1..], p), q);
        assert Filter([s[0]], q) == if q(s[0]) then [s[0]] else [];
      } else {
        assert Filter(s, p) == Filter(s[1..], p);
        assert Filter(s, q) == Filter(s[1..], q);
      }
    }
  }

  /** The sweep changes no read made at `now` or later. */
  lemma SweepPreservesLookups(rows: seq<CachedDeviceHealth>, now: Timestamp, deviceId: int, t: Timestamp)
    requires now <= t
    ensures Lookup(SweepExpired(rows, now), deviceId, t) == Lookup(rows, deviceId, t)
  {
    FilterFilter(rows, (row: CachedDeviceHealth) => Live(row, now),
                 (row: CachedDeviceHealth) => row.deviceId == deviceId && Live(row, t));
  }

  /** The sweep removes exactly the rows expired at `now`, keeping the rest in order. */
  lemma SweepRemovesExactlyExpired(rows: seq<CachedDeviceHealth>, now: Timestamp)
    ensures |rows| - |SweepExpired(rows, now)| == CountWhere(rows, (row: CachedDeviceHealth) => row.expiresAt <= now)
    ensures IsSubsequence(SweepExpired(rows, now), rows)
    ensures forall i :: 0 <= i < |SweepExpired(rows, now)| ==> SweepExpired(rows, now)[i].expiresAt > now
  {
    var live := (row: CachedDeviceHealth) => Live(row, now);
    var dead := (row: CachedDeviceHealth) => row.expiresAt <= now;
    FilterLength(rows, live);
    CountComplement(rows, live, dead);
    FilterIsSubsequence(rows, live);
  }

  lemma {:induction false} CountComplement<T>(s: seq<T>, p: T -> bool, q: T -> bool)
    requires forall i :: 0 <= i < |s| ==> (q(s[i]) <==> !p(s[i]))
    ensures CountWhere(s, p) + CountWhere(s, q) == |s|
    decreases |s|
  {
    if s != [] {
      CountComplement(s[1..], p, q);
    }
  }

  lemma {:induction false} SubsequenceKeepsUnique(sub: seq<CachedDeviceHealth>, s: seq<CachedDeviceHealth>)
    requires UniqueDeviceIds(s)
    requires IsSubsequence(sub, s)
    ensures UniqueDeviceIds(sub)
    decreases |s|
  {
    if sub != [] && s != [] {
      if sub[0] == s[0] {
        SubsequenceKeepsUnique(sub[1..], s[1..]);
        SubsequenceMembers(sub[1..], s[1..]);
        forall j | 0 < j < |sub| ensures sub[0].deviceId != sub[j].deviceId {
          assert sub[1..][j - 1] in s[1..];
        }
      } else {
        SubsequenceKeepsUnique(sub, s[1..]);
      }
    }
  }

  lemma {:induction false} SubsequenceMembers<T>(sub: seq<T>, s: seq<T>)
    requires IsSubsequence(sub, s)
    ensures forall i :: 0 <= i < |sub| ==> sub[i] in s
    decreases |s|
  {
    if sub != [] && s != [] {
      if sub[0] == s[0] {
        SubsequenceMembers(sub[1..], s[1..]);
        forall i | 0 < i < |sub| ensures sub[i] in s {
          assert sub[1..][i - 1] == sub[i];
        }
      } else {
        SubsequenceMembers(sub, s[1..]);
      }
    }
  }

  lemma SweepKeepsUnique(rows: seq<CachedDeviceHealth>, now: Timestamp)
    requires UniqueDeviceIds(rows)
    ensures UniqueDeviceIds(SweepExpired(rows, now))
  {
    FilterIsSubsequence(rows, (row: CachedDeviceHealth) => Live(row, now));
    SubsequenceKeepsUnique(SweepExpired(rows, now), rows);
  }

  /** Everything the sweep guarantees, for `clear_expired_cache`. */
  lemma SweepFacts(rows: seq<CachedDeviceHealth>, now: Timestamp)
    requires UniqueDeviceIds(rows)
    ensures UniqueDeviceIds(SweepExpired(rows, now))
    ensures |rows| - |SweepExpired(rows, now)| == CountWhere(rows, (row: CachedDeviceHealth) => row.expiresAt <= now)
    ensures forall id, t :: now <= t ==> Lookup(SweepExpired(rows, now), id, t) == Lookup(rows, id, t)
  {
    SweepKeepsUnique(rows, now);
    SweepRemovesExactlyExpired(rows, now);
    forall id, t | now <= t ensures Lookup(SweepExpired(rows, now), id, t) == Lookup(rows, id, t) {
      SweepPreservesLookups(rows, now, id, t);
    }
  }

  /** Code-point order on names (the ordering of `ORDER BY device_name`). */
  predicate NameLe(a: string, b: string)
    decreases |a|
  {
    if a == [] then true
    else if b == [] then false
    else if a[0] != b[0] then a[0] < b[0]
    else NameLe(a[1..], b[1..])
  }

  lemma {:induction false} NameLeTotal(a: string, b: string)
    ensures NameLe(a, b) || NameLe(b, a)
    decreases |a|
  {
    if a != [] && b != [] && a[0] == b[0] {
      NameLeTotal(a[1..], b[1..]);
    }
  }

  predicate SortedByName(rows: seq<CachedDeviceHealth>) {
    forall i :: 0 < i < |rows| ==> NameLe(rows[i - 1].deviceName, rows[i].deviceName)
  }

  function InsertByName(x: CachedDeviceHealth, rows: seq<CachedDeviceHealth>): (r: seq<CachedDeviceHealth>)
    requires SortedByName(rows)
    ensures SortedByName(r)
    ensures multiset(r) == multiset(rows) + multiset{x}
    ensures |r| == |rows| + 1
    ensures r[0] == x || (rows != [] && r[0] == rows[0])
    decreases |rows|
  {
    if rows == [] then [x]
    else if NameLe(x.deviceName, rows[0].deviceName) then [x] + rows
    else
      NameLeTotal(x.deviceName, rows[0].deviceName);
      var rest := InsertByName(x, rows[1..]);
      assert rows == [rows[0]] + rows[1..];
      [rows[0]] + rest
  }

  /** The rows ordered by name, as the database returns them. */
  function SortByName(rows: seq<CachedDeviceHealth>): (r: seq<CachedDeviceHealth>)
    ensures SortedByName(r)
    ensures multiset(r) == multiset(rows)
    decreases |rows|
  {
    if rows == [] then []
    else
      assert rows == [rows[0]] + rows[1..];
      InsertByName(rows[0], SortByName(rows[1..]))
  }

  /** `get_all_cached_devices`: exactly the unexpired rows, sorted by name. */
  function AllLive(rows: seq<CachedDeviceHealth>, now: Timestamp): (r: seq<CachedDeviceHealth>)
    ensures SortedByName(r)
    ensures multiset(r) == multiset(SweepExpired(rows, now))
    ensures forall x :: x in r <==> x in rows && x.expiresAt > now
  {
    var live := SweepExpired(rows, now);
    var r := SortByName(live);
    assert forall x :: x in r <==> x in multiset(r);
    assert forall x :: x in live <==> x in multiset(live);
    r
  }

  class DeviceCacheRepository {
    /** `cached_device_health`, in insertion order. */
    var rows: seq<CachedDeviceHealth>

    ghost predicate Valid()
      reads this
    {
      UniqueDeviceIds(rows)
    }

    constructor ()
      ensures Valid() && rows == []
    {
      rows := [];
    }

    /** `get_cached_device`. */
    function GetCachedDevice(deviceId: int, now: Timestamp): (r: Option<CachedDeviceHealth>)
      reads this
      ensures r.Some? ==> r.value in rows && r.value.deviceId == deviceId && r.value.expiresAt > now
      ensures r.None? ==> forall i :: 0 <= i < |rows| && rows[i].deviceId == deviceId ==> rows[i].expiresAt <= now
    {
      Lookup(rows, deviceId, now)
    }

    /** `get_all_cached_devices`. */
    function GetAllCachedDevices(now: Timestamp): (r: seq<CachedDeviceHealth>)
      reads this
      ensures SortedByName(r)
      ensures forall x :: x in r <==> x in rows && x.expiresAt > now
    {
      AllLive(rows, now)
    }

    /** `cache_device_health` (the default TTL is 300 seconds). */
    method CacheDeviceHealth(h: DeviceHealth, now: Timestamp, ttlSeconds: int) returns (cached: CachedDeviceHealth)
      requires Valid()
      modifies this
      ensures Valid()
      ensures cached == CachedRowOf(h, now, ttlSeconds)
      ensures rows == Upsert(old(rows), cached)
      ensures forall t :: t < now + ttlSeconds ==> GetCachedDevice(h.device.id, t) == Some(cached)
    {
      cached := CachedRowOf(h, now, ttlSeconds);
      var k := IndexOfDevice(rows, h.device.id);
      if k.Some? {
        rows := rows[k.value := cached];
      } else {
        rows := rows + [cached];
      }
      UpsertKeepsUnique(old(rows), cached);
      forall t | t < now + ttlSeconds ensures GetCachedDevice(h.device.id, t) == Some(cached) {
        CacheRoundTrip(old(rows), h, now, ttlSeconds, t);
      }
    }

    /** `clear_expired_cache`: delete the rows expired at `now`, returning how many. */
    method ClearExpiredCache(now: Timestamp) returns (removed: nat)
      requires Valid()
      modifies this
      ensures Valid()
      ensures rows == SweepExpired(old(rows), now)
      ensures removed == |old(rows)| - |rows|
      ensures removed == CountWhere(old(rows), (row: CachedDeviceHealth) => row.expiresAt <= now)
      ensures forall id, t :: now <= t ==> GetCachedDevice(id, t) == old(GetCachedDevice(id, t))
    {
      var all := rows;
      var kept: seq<CachedDeviceHealth> := [];
      var live := (row: CachedDeviceHealth) => Live(row, now);
      removed := 0;
      var i := 0;
      while i < |all|
        invariant 0 <= i <= |all|
        invariant kept == Filter(all[..i], live)
        invariant removed == i - |kept|
      {
        assert all[..i + 1] == all[..i] + [all[i]];
        FilterAppend(all[..i], [all[i]], live);
        if all[i].expiresAt <= now {
          removed := removed + 1;
        } else {
          kept := kept + [all[i]];
        }
        i := i + 1;
      }
      assert all[..i] == all;
      SweepFacts(all, now);
      rows := kept;
    }
  }
}
