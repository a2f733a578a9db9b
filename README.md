# Jamf Monitor device-health backend, in Dafny

This project models the device-health pipeline of the Jamf Monitor backend.
The backend polls a Jamf Pro server for every managed computer. For each one it
derives seven health signals: check-in freshness, inventory (recon)
freshness, failed policies, failed MDM commands, stale pending MDM commands,
membership of the compliance group, and membership of monitored groups. It
classifies each device as HEALTHY, CAUTION or UNHEALTHY and serves counts
over the result.

The model has one module per source file, plus `Common`:

- `DeviceModel` (`device.py`): the status rule, the records, and the threshold bounds.
- `JamfService` (`jamf_service.py`): the OAuth token cache and the request wrapper.
  They appear twice: as pure state-transition functions, and as the class
  `JamfApiService` whose methods are proved to follow them. The module also
  holds the response handlers of the endpoint helpers.
- `HealthService` (`health_service.py`): the signal checks, the assembly of one
  device record, the batch evaluation, and the class `HealthCheckService` with
  its shared `Settings`.
- `Repositories` (`repositories.py`): the settings table and the versioned
  thresholds (`SettingsRepository`), and the TTL device cache
  (`DeviceCacheRepository`). Each table is held in memory as a `map` or a `seq`
  of rows.
- `DeviceRoutes` (`devices.py`): the status filter and the per-status counts.
- `Security` (`security.py`): the password-strength check and the secret-key check.

Conventions:

- Timestamps are integer seconds and "now" is always a parameter.
- A call to the Jamf API is an input: either the HTTP response it returns
  (status code and decoded payload) or the error the client raised.
- `datetime.fromisoformat` is an input `parse: string -> Option<Timestamp>`.
- The JSON codec of the monitored-group setting is a pair of inputs `encode`/`decode`.
- Python truthiness is written out:
  - JSON scalars are the type `Value` with the predicate `Truthy`;
  - an integer argument is truthy when present and non-zero (`Given`);
  - a string is truthy when non-empty.

## Model

| member | source | states |
|---|---|---|
| DeviceModel.StatusValueRoundTrip | backend/app/models/device.py:7-10 | the stored string of each status reads back as that status |
| DeviceModel.CalculateStatus | backend/app/models/device.py:32-45 | UNHEALTHY iff one of the five staleness/failure signals is bad; CAUTION iff none is but the device is non-compliant or has a monitored-group match; HEALTHY iff all seven signals are good |
| DeviceModel.StatusMonotone | backend/app/models/device.py:32-45 | turning any signal bad never lowers the status in the order HEALTHY < CAUTION < UNHEALTHY |
| DeviceModel.FailureDominatesCompliance | backend/app/models/device.py:32-40 | with a failure signal the status is UNHEALTHY whatever the compliance flag and group matches |
| DeviceModel.MakeThresholds | backend/app/models/device.py:63-66 | validation accepts exactly 1..168, 1..168, 1..72 hours and keeps the values; anything else is a validation error |
| Common.Filter | backend/app/services/health_service.py:69-72 | a list comprehension keeps only, and every, element satisfying the predicate |
| Common.Successes | backend/app/services/health_service.py:100-103 | the gathered results reduced to the values of the successes, and every success kept |
| Common.SuccessesLength | backend/app/services/health_service.py:100-103 | exactly the failed results are dropped |
| JamfService.AcquireToken | backend/app/services/jamf_service.py:22-51 | an exchange happens iff the cached token is unset, empty, without expiry or within 5 minutes of expiry; without one the cached token is returned and nothing changes; a failed or non-200 exchange (503) leaves the state unchanged; a 200 exchange caches the token with expiry now + expires_in and returns it |
| JamfService.FreshTokenReuseWindow | backend/app/services/jamf_service.py:22-51 | a token just obtained is served from the cache with no exchange exactly while now is before expiry less 5 minutes |
| JamfService.CachedTokenOutsideMargin | backend/app/services/jamf_service.py:24-26 | a token returned without an exchange is more than 300 s from its expiry |
| JamfService.Request | backend/app/services/jamf_service.py:53-73 | a token failure propagates with the state unchanged; a 401 clears token and expiry and raises 401 without retry; any other status is passed through with the token state left as acquired |
| JamfService.UnauthorizedForcesExchange | backend/app/services/jamf_service.py:65-71 | after a 401 the next token request performs an exchange, whenever it is made |
| JamfService.AllComputersOf | backend/app/services/jamf_service.py:75-85 | non-200 is a 502 error; a 200 response without `results` is the empty inventory |
| JamfService.DetailOf | backend/app/services/jamf_service.py:87-104 | 404 gives not-found, any other non-200 gives 502, 200 gives the payload |
| JamfService.ManagementOf | backend/app/services/jamf_service.py:106-115 | a non-200 response reads as data without policies |
| JamfService.FailedPolicies | backend/app/services/jamf_service.py:117-126 | only and every policy with a truthy `failed`; none when there is no `policies` key |
| JamfService.CollectFailedPolicies | backend/app/services/jamf_service.py:117-126 | the appending loop computes exactly the failed policies |
| JamfService.FailedPoliciesInOrder | backend/app/services/jamf_service.py:117-126 | the failed policies are a subsequence of the policies, with each failed policy's multiplicity kept |
| JamfService.MdmCommandsOf | backend/app/services/jamf_service.py:128-146 | the failed ("Failed") and pending ("Pending"/"InProgress") lists are disjoint, order-preserving subsequences of the commands, each holding every matching command exactly as often as the reply lists it; non-200 gives two empty lists |
| JamfService.SmartGroupsOf | backend/app/services/jamf_service.py:148-155 | only and every group with a truthy `is_smart`, in order and with each such group's multiplicity; [] on non-200 |
| JamfService.NamesOf | backend/app/services/jamf_service.py:169 | exactly the non-empty names of the membership entries |
| JamfService.NamesOfAppend | backend/app/services/jamf_service.py:169 | the names of two runs of entries are the names of the first followed by those of the second, so entry order is kept |
| JamfService.NamesOfMultiplicity | backend/app/services/jamf_service.py:169 | each non-empty name occurs exactly as often as entries carry it; the empty name never occurs |
| JamfService.MembershipEntries | backend/app/services/jamf_service.py:166-167 | the `computer_group_memberships` list of the payload, with a missing `computer` or `groups_accounts` read as `{}` and a missing list as `[]` |
| JamfService.GroupMembershipOf | backend/app/services/jamf_service.py:157-169 | [] on non-200; otherwise the names of the payload's membership entries, in order, and exactly its non-empty names |
| JamfService.JamfApiService.constructor | backend/app/services/jamf_service.py:14-20 | the client starts with no token and no expiry |
| JamfService.JamfApiService.GetToken | backend/app/services/jamf_service.py:22-51 | the method leaves the fields, result and exchange flag that `AcquireToken` prescribes for the old fields |
| JamfService.JamfApiService.MakeRequest | backend/app/services/jamf_service.py:53-73 | the method leaves the fields and result that `Request` prescribes for the old fields |
| JamfService.JamfApiService.GetAllComputers | backend/app/services/jamf_service.py:75-85 | the request's new token state, and its result handled by `AllComputersOf` |
| JamfService.JamfApiService.GetComputerDetail | backend/app/services/jamf_service.py:87-104 | the request's new token state, and its result handled by `DetailOf` |
| JamfService.JamfApiService.GetComputerManagement | backend/app/services/jamf_service.py:106-115 | the request's new token state, and its result handled by `ManagementOf` |
| JamfService.JamfApiService.GetFailedPolicies | backend/app/services/jamf_service.py:117-126 | the request's new token state; a request error propagates, otherwise the failed policies of the management data |
| JamfService.JamfApiService.GetMdmCommands | backend/app/services/jamf_service.py:128-146 | the request's new token state, and its result split by `MdmCommandsOf` |
| JamfService.JamfApiService.GetSmartGroups | backend/app/services/jamf_service.py:148-155 | the request's new token state, and its result filtered by `SmartGroupsOf` |
| JamfService.JamfApiService.GetComputerGroupMembership | backend/app/services/jamf_service.py:157-169 | the request's new token state, and the group names of its result |
| HealthService.ParseJamfDate | backend/app/services/health_service.py:105-112 | a missing or falsy value, or a non-string, is no date; a non-empty string is what the parser makes of it |
| HealthService.CheckRecentContact | backend/app/services/health_service.py:114-121 | false without a timestamp; otherwise true iff strictly fewer than check-in-hours × 3600 seconds have passed |
| HealthService.CheckRecentRecon | backend/app/services/health_service.py:123-130 | the same test against the recon threshold |
| HealthService.FreshnessMonotone | backend/app/services/health_service.py:114-130 | a device fresh at a later time or under a tighter threshold is fresh earlier and under a looser one |
| HealthService.FreshnessBoundaryIsStale | backend/app/services/health_service.py:114-130 | a device seen exactly the threshold ago is stale (the comparison is strict) |
| HealthService.AnyStalePending | backend/app/services/health_service.py:132-145 | never true for an empty list, nor when no pending command has a parseable issue date |
| HealthService.CheckPendingCommands | backend/app/services/health_service.py:132-145 | the loop with early return is true iff some pending command has a parseable issue date strictly before now less the pending threshold; false for an empty list; missing or unparseable dates never count |
| HealthService.IsCompliant | backend/app/services/health_service.py:67 | compliant iff the compliance group name occurs among the memberships |
| HealthService.MonitoredMatches | backend/app/services/health_service.py:69-72 | the memberships that are monitored and not the compliance group, in membership order with duplicates; never the compliance group |
| HealthService.StringField | backend/app/services/health_service.py:44-54 | an absent key defaults to "Unknown", a string is kept, any other value fails record validation |
| HealthService.DeviceInfoOf | backend/app/services/health_service.py:42-54 | the record id is the requested id; without `general` every text field is "Unknown" and both dates are absent; with `general`, name, serial number, model and OS version are the string under `name`, `serialNumber`, `modelIdentifier`, `operatingSystemVersion` or "Unknown" when the key is absent, any other value failing validation, and dates go through `_parse_jamf_date` |
| HealthService.HealthResultOf | backend/app/services/health_service.py:56-82 | the seven signals: check-in and recon freshness, failed policies and failed commands present, a stale pending command, compliance membership, and the monitored matches, which are exactly `MonitoredMatches` of the memberships (in order, with multiplicity, without the compliance group) |
| HealthService.EvaluateDevice | backend/app/services/health_service.py:41-91 | the first failing step (detail, validation, policies, commands, memberships) is the error; otherwise the record carries the requested id, the seven derived signals and the status `calculate_status` gives them, checked at now |
| HealthService.StaleCheckInIsUnhealthy | backend/app/services/health_service.py:56-84 | a device that has not checked in within the threshold is UNHEALTHY |
| HealthService.EvaluateEach | backend/app/services/health_service.py:99-101 | one evaluation per inventory entry, in inventory order |
| HealthService.EvaluateAll | backend/app/services/health_service.py:93-103 | only an inventory failure fails the batch; every returned record is a successful evaluation of an inventory entry and every successful evaluation is returned |
| HealthService.EvaluateAllInOrder | backend/app/services/health_service.py:93-103 | the batch of a concatenated inventory is the concatenation of the batches, so the records keep inventory order |
| HealthService.EvaluateAllDropsFailures | backend/app/services/health_service.py:100-103 | the batch is shorter than the inventory by exactly the number of failed evaluations |
| HealthService.EvaluateAllWithoutFailures | backend/app/services/health_service.py:93-103 | with no per-device failure the batch is every device's record, in order |
| HealthService.Settings.constructor | backend/app/core/config.py:14-16 | the threshold settings default to 24, 24 and 6 hours |
| HealthService.HealthCheckService.constructor | backend/app/services/health_service.py:16-19 | the service starts with the compliance group "Compliance" and no monitored groups |
| HealthService.HealthCheckService.SetThresholds | backend/app/services/health_service.py:21-32 | each threshold is overwritten iff its argument is truthy, so None and 0 leave it unchanged; after setting all three, `get_thresholds` validates exactly those values |
| HealthService.HealthCheckService.GetThresholds | backend/app/services/health_service.py:34-39 | the current settings, valid iff within the field bounds |
| HealthService.HealthCheckService.CheckDeviceHealth | backend/app/services/health_service.py:41-91 | the record has the requested id, its status is `calculate_status` of its signals, and it is compliant iff the service's compliance group is among the memberships |
| HealthService.HealthCheckService.CheckAllDevices | backend/app/services/health_service.py:93-103 | fails iff the inventory fetch fails; never longer than the inventory |
| Repositories.ComplianceGroupFrom | backend/app/core/repositories.py:90-95 | an unset or empty setting means "Compliance"; the result is never empty |
| Repositories.MonitoredGroupsFrom | backend/app/core/repositories.py:103-113 | an unset, empty or undecodable setting means no groups; otherwise the decoded list |
| Repositories.MonitoredGroupsRoundTrip | backend/app/core/repositories.py:103-119 | reading back a stored list gives the list when the codec round-trips |
| Repositories.ActiveThreshold | backend/app/core/repositories.py:52-61 | none when no row is active; the active row when one is; MultipleResultsFound iff several are |
| Repositories.Deactivated | backend/app/core/repositories.py:72-76 | every row kept in place with `is_active` cleared |
| Repositories.UpdateLeavesOneActive | backend/app/core/repositories.py:63-88 | after deactivating all rows and adding an active one, that row is the only active row and is what `get_health_thresholds` returns |
| Repositories.SettingsRepository.constructor | backend/app/core/repositories.py:21-22 | both tables start empty |
| Repositories.SettingsRepository.GetSetting | backend/app/core/repositories.py:24-32 | the stored value of the key, none for an unknown key |
| Repositories.SettingsRepository.SetSetting | backend/app/core/repositories.py:34-50 | the key now reads the value; every other key and the thresholds are unchanged |
| Repositories.SettingsRepository.GetHealthThresholds | backend/app/core/repositories.py:52-61 | the active row, or MultipleResultsFound iff several rows are active |
| Repositories.SettingsRepository.UpdateHealthThresholds | backend/app/core/repositories.py:63-88 | every earlier row deactivated in place and one active row with the new values added; it is the only active row |
| Repositories.SettingsRepository.GetComplianceGroup | backend/app/core/repositories.py:90-95 | "Compliance" when unset; never empty |
| Repositories.SettingsRepository.SetComplianceGroup | backend/app/core/repositories.py:97-101 | afterwards the compliance group reads as the name, or "Compliance" for an empty name |
| Repositories.SettingsRepository.GetMonitoredGroups | backend/app/core/repositories.py:103-113 | no groups when unset |
| Repositories.SettingsRepository.SetMonitoredGroups | backend/app/core/repositories.py:115-119 | the setting holds the encoded list; nothing else changes |
| Repositories.IndexOfDevice | backend/app/core/repositories.py:162-166 | the position of the row of the device, or none when no row has that id |
| Repositories.Lookup | backend/app/core/repositories.py:130-139 | a returned row has the id and expires strictly after now; none means every row of that id has expired |
| Repositories.CachedRowOf | backend/app/core/repositories.py:160-203 | the row written for a record: its device id, cached at now, expiring at now + ttl, with a status string that reads back as the record's status; live at now iff ttl > 0 |
| Repositories.Upsert | backend/app/core/repositories.py:162-204 | the written row is present; the table grows by at most one row; every other device's row stays; every row is the written one or an old one |
| Repositories.UpsertKeepsUnique | backend/app/core/db_models.py:50 | writing a row keeps device ids unique |
| Repositories.UpsertSingleEntry | backend/app/core/repositories.py:152-207 | after the write there is exactly one row for the device, the one written, updated in place or appended |
| Repositories.UpsertOthersUnchanged | backend/app/core/repositories.py:162-204 | the rows of every other device are unchanged in content and order |
| Repositories.CacheRoundTrip | backend/app/core/repositories.py:152-207 | a read before now + ttl returns the written row, whose identity, flags, memberships and status are the record's; a read from then on returns nothing |
| Repositories.SweepExpired | backend/app/core/repositories.py:209-223 | only rows that expire after now remain, and every such row does |
| Repositories.SweepPreservesLookups | backend/app/core/repositories.py:209-223 | removing the expired rows changes no read at now or later |
| Repositories.SweepRemovesExactlyExpired | backend/app/core/repositories.py:209-223 | exactly the rows with expiry at or before now are removed; the rest stay in order |
| Repositories.SweepKeepsUnique | backend/app/core/repositories.py:209-223 | the sweep keeps device ids unique |
| Repositories.SweepFacts | backend/app/core/repositories.py:209-223 | uniqueness, the removed count and unchanged reads together |
| Repositories.NameLeTotal | backend/app/core/repositories.py:148 | the name order is total |
| Repositories.InsertByName | backend/app/core/repositories.py:148 | inserting into a name-sorted list keeps it sorted and adds exactly that row |
| Repositories.SortByName | backend/app/core/repositories.py:148 | the result is sorted by name and a permutation of the rows |
| Repositories.AllLive | backend/app/core/repositories.py:141-150 | exactly the unexpired rows, sorted by name, each once |
| Repositories.DeviceCacheRepository.constructor | backend/app/core/repositories.py:127-128 | the cache starts empty |
| Repositories.DeviceCacheRepository.GetCachedDevice | backend/app/core/repositories.py:130-139 | a row only when its id matches and it expires strictly after now |
| Repositories.DeviceCacheRepository.GetAllCachedDevices | backend/app/core/repositories.py:141-150 | exactly the unexpired rows, sorted by name |
| Repositories.DeviceCacheRepository.CacheDeviceHealth | backend/app/core/repositories.py:152-207 | the row is overwritten in place or appended, expires at now + ttl, ids stay unique, and a read before the expiry returns it |
| Repositories.DeviceCacheRepository.ClearExpiredCache | backend/app/core/repositories.py:209-223 | the rows expired at now are deleted and counted; ids stay unique and no read at now or later changes |
| DeviceRoutes.CountStatus | backend/app/api/routes/devices.py:23-25 | the count of a status is the length of the list filtered by it, at most the list's length, and 0 iff no device has that status |
| DeviceRoutes.CountsPartition | backend/app/api/routes/devices.py:23-25 | healthy + caution + unhealthy equals the number of devices |
| DeviceRoutes.CountOfUniform | backend/app/api/routes/devices.py:20-25 | in a list of one status, that status's count is the length and the others are 0 |
| DeviceRoutes.ApplyStatusFilter | backend/app/api/routes/devices.py:20-21 | with a filter, only and every device of that status, in order; without one the list unchanged |
| DeviceRoutes.FilterKeepsStatusCount | backend/app/api/routes/devices.py:20-21 | the filtered list is as long as the status's count in the full list |
| DeviceRoutes.GetAllDevices | backend/app/api/routes/devices.py:12-33 | an evaluation error propagates; the counts add up to the total; with a filter the filtered status's count is the total and the other two are 0; without one the list is the evaluation unchanged |
| DeviceRoutes.ListResponse | backend/app/api/routes/devices.py:27-33 | the response lists the devices shown, their number as total, and per-status counts that add up to it |
| DeviceRoutes.Percentage | backend/app/api/routes/devices.py:61-65 | 0 for an empty list, otherwise a share between 0 and 100 |
| DeviceRoutes.PercentagesSum | backend/app/api/routes/devices.py:61-65 | for a non-empty list the three unrounded percentages sum to 100 |
| DeviceRoutes.GetStatusSummary | backend/app/api/routes/devices.py:45-66 | an evaluation error propagates; total and per-status counts, adding up; an empty list gives all zeros |
| Security.AnyChar | backend/app/core/security.py:45-47 | true iff some character satisfies the predicate |
| Security.ValidatePasswordStrength | backend/app/core/security.py:37-49 | true iff at least 8 characters with an upper-case letter, a lower-case letter and a digit |
| Security.StrongPasswordExtends | backend/app/core/security.py:42-49 | appending characters to a passing password keeps it passing |
| Security.ShortPasswordRejected | backend/app/core/security.py:42-43 | a password shorter than 8 characters is rejected |
| Security.ValidateSecretKey | backend/app/core/security.py:92-111 | true iff the key has at least 32 characters and is not the template's example key |
| Security.DefaultKeyRejectedByValue | backend/app/core/security.py:104-109 | the example key passes the length test and is rejected by the value test |

## Left out

- HTTP transport (the httpx client, headers, the 30-second timeout and JSON decoding): each call is an input reply or error.
- The `asyncio.Lock` around the token refresh: `_get_token` is modelled sequentially.
- `asyncio.gather` in `check_all_devices` is a sequential map with one failure per item, and the whole batch shares one "now".
- `datetime.fromisoformat` and the "Z" replacement are the abstract input `parse`, which yields a timestamp or no date.
- HealthService.EvaluateDevice: a date string without a UTC offset is not modelled. It parses to a naive datetime, and comparing it with the aware "now" raises TypeError. In the source that fails the device's evaluation, so `check_all_devices` drops the device and the single-device route returns an error. Here `parse` can only give a timestamp or no date, so this failure is lost.
- HealthService.EvaluateDevice: the payloads are typed records with one `Option` per key the source reads. The following are not modelled:
  - a key that is present with the value JSON `null`: `general`, `results` in the inventory and commands replies, `policies`, `computer_groups`, `computer`, `groups_accounts` and `computer_group_memberships`. In the source this raises TypeError or AttributeError, failing that call;
  - list entries that are not objects;
  - non-scalar JSON values in truthiness tests.
- HealthService.EvaluateAll: every inventory entry has an integer `id`. In the source, an entry without `"id"` raises KeyError while the task list is built, before `gather`. That makes the whole of `check_all_devices` fail, a failure the model cannot express.
- JamfService.AcquireToken: a 200 grant without a numeric `expires_in` (or without `access_token`) is not modelled. With `access_token` present but `expires_in` missing or non-numeric, the source stores the new token, keeps the old expiry, and raises. The model's "an error leaves the token state unchanged" holds only for the well-formed grants that `TokenGrant` expresses.
- JamfService.NamesOf: group names are strings or absent; a non-string name in a membership entry is not modelled.
- The JSON encoder and decoder of the monitored-group setting are inputs. A decoded value that is not a list of strings is not modelled.
- SQLAlchemy sessions, `flush`, `refresh`, row ids and `updated_at` columns: tables are in-memory rows.
- Repositories.SortByName: the order is code-point order on names. Database collation is not modelled, and neither is the order among rows with equal names.
- `UserRepository`: plain persistence with no stated behaviour.
- bcrypt and JWT (`verify_password`, `get_password_hash`, `create_access_token`, `verify_token`) and the login route are library calls.
- Security.ValidatePasswordStrength: the character classes are ASCII letters and digits. Python's Unicode `isupper`/`islower`/`isdigit` accept more characters.
- DeviceRoutes.Percentage: the percentages are exact reals. Floating point and `round(..., 1)` are not modelled.
- The `get_device_health` route is a pass-through to `check_device_health`, so it has no member of its own.
- The settings routes, `main.py`, the configuration loader, the `lru_cache` factories, the database and migration modules and the seeding script are wiring.
- Log messages are not modelled.
- `validate_secret_key` reads the configured key; here the key is a parameter.
