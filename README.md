# Nokia IXR-7250 chassis module accessor, modelled in Dafny

This project models the `Module` class of the Nokia IXR-7250 SONiC platform
plugin. Each object stands for one pluggable chassis slot: a supervisor
(CPM), line card (IMM) or fabric card. It answers the host platform
framework's questions about that slot. Most of these questions are one
request to the chassis hardware-management service (the NDK). The accessor
keeps a little state: the last known operational status, the last known
midplane address and an administratively set power ceiling.

Each remote request is modelled as one outcome, `RemoteCall.Rpc<R>`:
`ConnFail` (no channel or stub), `RpcFail` (the call did not complete) or
`Ok(response)`. The caller passes that outcome in as a parameter, so every
operation is a deterministic function or state update.

- `remote_call.dfy`: module `RemoteCall`. Holds the outcome type, `Option`
  (Python's `None`) and the NDK response status codes.
- `decimal.dfy`: module `Decimal`. Holds Python's `str()` of a non-negative
  integer and a parser that undoes it.
- `chassis_module.dfy`: module `ChassisModule`. Holds the framework's type
  and status constants, `DESCRIPTION_MAPPING`, and the pure case analyses
  (platform type, description, refreshed status, midplane address). It also
  holds the class `Module`, whose fields are the source's attributes. The
  methods that update those attributes state the new state.
- `scenarios.dfy`: module `ModuleScenarios`. Holds client methods and lemmas
  that derive the framework-visible behaviour from the contracts alone.

Module kinds and statuses are compared as strings, as in the source. The
values `"SUPERVISOR"`, `"LINE-CARD"`, `"FABRIC-CARD"`, `"Empty"` and
`"Online"` are the host framework's `ModuleBase` constants. The
`sonic_platform_base` package is not part of this model.

## Model

| member | source | states |
|---|---|---|
| `ChassisModule.Module.constructor` | chassis/sonic_platform/module.py:33-45 | The status starts Empty. The power ceiling starts at 0. The midplane cache starts unset. The module has an EEPROM reader exactly when its slot is the local slot. |
| `ChassisModule.Module.GetOperStatus` | chassis/sonic_platform/module.py:131-144 | A connection or RPC failure returns the cached status and leaves it unchanged. A success caches the translated status and returns that same value. |
| `ChassisModule.RefreshedStatus` | chassis/sonic_platform/module.py:131-144 | The status after a query is the old cache when the query failed, and the translation of the reply otherwise. |
| `ChassisModule.Module.GetPresence` | chassis/sonic_platform/module.py:56-60 | Present exactly when the refreshed status is not Empty. The cache is refreshed as by `get_oper_status`. |
| `ChassisModule.Module.GetStatus` | chassis/sonic_platform/module.py:62-66 | Up exactly when the refreshed status is Online. The cache is refreshed as by `get_oper_status`. |
| `ModuleScenarios.StatusImpliesPresence` | chassis/sonic_platform/module.py:56-66 | When `get_status` reports the module up, a following `get_presence` on the same reply reports it present. |
| `ChassisModule.PlatformTypeOf` | chassis/sonic_platform/module.py:207-221 | Supervisor maps to CONTROL, line card to LINE and fabric card to FABRIC, each as an if-and-only-if. Every other kind maps to 'Unknown card-type'. |
| `ChassisModule.DescriptionOf` | chassis/sonic_platform/module.py:75-95 | A failed name request gives "Unavailable". An unmapped raw name is returned unchanged. A mapped name of a non-supervisor is replaced by its table entry. A mapped supervisor name becomes "Nokia-IXR7250-SUP-6" iff the chassis is IXR-6, and "Nokia-IXR7250-SUP-10" otherwise. |
| `ChassisModule.DescriptionRange` | chassis/sonic_platform/module.py:19-27 | Every description is "Unavailable", the raw name, a value of the mapping table, or one of the two supervisor names. |
| `ChassisModule.Module.Reboot` | chassis/sonic_platform/module.py:172-196 | Returns true iff the module is not a fabric card, its slot is the local slot, and the reboot request completed with NDK_SUCCESS. When either guard refuses, the result does not depend on the request outcome. |
| `ChassisModule.Module.SetAdminState` | chassis/sonic_platform/module.py:198-205 | Always returns false, for up and for down. |
| `ChassisModule.Module.SetMaximumConsumedPower` | chassis/sonic_platform/module.py:223-230 | Stores the value as given. Status and midplane cache are unchanged, and the frame rules out any other change. |
| `ChassisModule.Module.GetMaximumConsumedPower` | chassis/sonic_platform/module.py:232-242 | Refreshes the status. Returns 0 when the refreshed status is Empty and the stored ceiling otherwise. |
| `ModuleScenarios.SetThenGetPower` | chassis/sonic_platform/module.py:223-242 | After setting the ceiling to v, reading it returns 0 if the refreshed status is Empty and v otherwise. |
| `ChassisModule.Module.GetMidplaneIp` | chassis/sonic_platform/module.py:244-259 | A success caches the address and returns it. A failure returns the cache, which is still unset (None) before the first success. |
| `ChassisModule.MidplaneIpAsWritten` | chassis/sonic_platform/module.py:248-259 | The address as the code computes it: the reply on success, else the possibly unset cache. |
| `ChassisModule.IntendedMidplaneIp` | chassis/sonic_platform/module.py:41-41 | The address with the cache starting at the invalid-address sentinel: the reply on success, else the cached address. It is always defined. |
| `ChassisModule.MidplaneIpAgreesOnceCached` | chassis/sonic_platform/module.py:250-258 | Once an address is cached, the code as written and the intended version give the same answer. |
| `ChassisModule.MidplaneIpMissingBeforeFirstSuccess` | chassis/sonic_platform/module.py:250-250 | With no success yet, a failed request has no address as written. The intended version returns the sentinel. |
| `ChassisModule.Module.IsMidplaneReachable` | chassis/sonic_platform/module.py:261-271 | True iff the request completed and answered true. Nothing is cached. |
| `ChassisModule.Module.FromEeprom` | chassis/sonic_platform/module.py:273-291 | The EEPROM getters (model, serial, base MAC, system EEPROM info) return the reader's answer for the local module and None for every other module. |
| `ChassisModule.Module.GetAllAsics` | chassis/sonic_platform/module.py:293-315 | A name without the fabric prefix gives [] whatever the reply. A failed request or NDK_ERR_RESOURCE_NOT_FOUND gives []. Any other status gives one pair per reply entry, in reply order: (decimal index, PCIe id). |
| `ChassisModule.AsicPair` | chassis/sonic_platform/module.py:312-312 | An ASIC's pair holds its index as a digit string and its PCIe id unchanged. |
| `ChassisModule.AsicPairRoundTrip` | chassis/sonic_platform/module.py:312-312 | The ASIC index can be parsed back from its pair. |
| `Decimal.NatToString` | chassis/sonic_platform/module.py:312-312 | `str()` of a non-negative integer: a non-empty digit string. It starts with '0' only for zero and has one digit exactly below ten. |
| `Decimal.ParseNatToString` | chassis/sonic_platform/module.py:312-312 | Parsing the decimal rendering of n gives n. |
| `Decimal.NatToStringInjective` | chassis/sonic_platform/module.py:312-312 | Distinct indexes never render to the same string. |
| `ModuleScenarios.ServiceUnreachable` | chassis/sonic_platform/module.py:131-133 | With the service unreachable, the status stays the cached one, the description is "Unavailable" and the midplane address is the cached one. |
| `ModuleScenarios.FreshRemoteModule` | chassis/sonic_platform/module.py:33-60 | A new module of another slot has no EEPROM data. While the service is unreachable it reads as absent, not up and drawing 0 power. |
| `ModuleScenarios.RebootOnlyWithEeprom` | chassis/sonic_platform/module.py:175-177 | With the same local slot at construction and at reboot, a successful reboot implies the module holds the EEPROM reader (lines 44-45 tie that reader to the same slot test). |
| `ModuleScenarios.FreshModuleMidplaneFailure` | chassis/sonic_platform/module.py:248-250 | A new module whose first midplane request fails has no address to return. |
| `ModuleScenarios.StatusSurvivesOutage` | chassis/sonic_platform/module.py:140-144 | A failed status query after a successful one returns the status that success cached. |
| `ModuleScenarios.SupervisorDescriptionByChassis` | chassis/sonic_platform/module.py:88-94 | "cpm2-ixr-e" on a supervisor reads "Nokia-IXR7250-SUP-6" on IXR-6 and "Nokia-IXR7250-SUP-10" otherwise. On a line card, "imm36-400g-qsfpdd" reads as its table entry. |
| `ModuleScenarios.FabricAsics` | chassis/sonic_platform/module.py:309-313 | Reply entries (0, "pcie0") and (1, "pcie1") give [("0", "pcie0"), ("1", "pcie1")], in that order. |
| `ModuleScenarios.FabricAsicsNotFound` | chassis/sonic_platform/module.py:306-307 | A resource-not-found reply gives [] even when it carries entries. |

## Left out

- Channel setup, channel shutdown, `try_grpc` and the protobuf request messages are not modelled. They are I/O over libraries that are not part of this model. Each request is one `Rpc` outcome parameter. Closing the channel on every path has no counterpart here.
- The `nokia_common` helpers are parameters, not definitions. `_get_my_slot` becomes `mySlot`, `get_chassis_type` becomes a `ChassisType`, and `hw_module_status_name` becomes the `statusName` function. The value of `NOKIA_INVALID_IP` is the constructor argument `invalidIp`.
- `ChassisModule.PlatformTypeOf`: 'Unknown card-type' is a marker value. The model does not capture what protobuf does when that string is put into a request's module-type field, for an unknown module kind.
- `ChassisModule.Module.FromEeprom`: the `Eeprom` class is not part of this model. A getter of the local module returns whatever the reader answers, passed in as `read`. Only the "no EEPROM gives None" branch is modelled precisely.
- `ChassisModule.Module.Reboot`: `reboot_type` is only forwarded in the request, so the model does not use it.
- `ChassisModule.Module.SetMaximumConsumedPower`: the ceiling is a `real`. Python float rounding is not modelled, because the value is only stored and returned.
- `ChassisModule.AsicPair`: `asic_pcie_id` is taken to be a string, so `str()` leaves it unchanged. `asic_idx` is taken to be a non-negative integer.
- `get_name`, `get_type`, `_get_hw_slot`, `get_slot`, `get_position_in_parent` and `is_replaceable` are not modelled. They only return a field, a constant (true) or an opaque slot translation. The fields themselves are the class's `const` members.
- The chassis stub passed to the constructor is not modelled, because the code only stores it.
- Concurrent calls from the host framework are not modelled. The code has no synchronisation.
- The constructor sets `midplane_status`, not `midplane_ip`, to the invalid-address sentinel (see Findings).
- `ChassisModule.Module.GetMidplaneIp`: a result of `None` stands for the `AttributeError` that Python raises when a failed request reads the never-set `midplane_ip`. The model returns a value where the code raises an exception.

## Findings

| source | as written | input that shows it | evidently intended | confidence | as-written member | corrected member |
|---|---|---|---|---|---|---|
| chassis/sonic_platform/module.py:41-41 | The constructor sets `self.midplane_status` to the invalid-IP sentinel. `get_midplane_ip` reads and writes `self.midplane_ip` (lines 250, 256, 258), which has no initial value. | A new module whose first `get_midplane_ip` call fails to connect or whose RPC fails. It reads an attribute that does not exist, so the call raises instead of returning an address. | `self.midplane_ip` starts at the invalid-IP sentinel, so a failed call returns the sentinel. | high (not executed) | `ChassisModule.MidplaneIpAsWritten` with `ChassisModule.MidplaneIpMissingBeforeFirstSuccess` and `ModuleScenarios.FreshModuleMidplaneFailure` | `ChassisModule.IntendedMidplaneIp` with `ChassisModule.MidplaneIpAgreesOnceCached` |

The class `Module` keeps the as-written cache, `Option<string>` starting at
`None`, so the defect stays visible in its contract.
`ChassisModule.IntendedMidplaneIp` states the intended behaviour. It agrees
with the class once an address has been cached.
