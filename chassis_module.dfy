/**
 * One pluggable module slot of a Nokia IXR-7250 chassis (a supervisor, line or
 * fabric card) as seen by the host platform framework: a few identity fields
 * fixed at construction, a cached operational status, a cached midplane
 * address and an administratively set power ceiling. Every query to the
 * hardware-management service is one scoped remote call whose outcome is a
 * parameter of the operation.
 */
module ChassisModule {
  import opened RemoteCall
  import Decimal

  // Module kinds and statuses of the host framework's module base class.
  const ModuleTypeSupervisor: string := "SUPERVISOR"
  const ModuleTypeLine: string := "LINE-CARD"
  const ModuleTypeFabric: string := "FABRIC-CARD"
  const StatusEmpty: string := "Empty"
  const StatusOnline: string := "Online"

  // Descriptions that the accessor produces on its own.
  const Unavailable: string := "Unavailable"
  const SupervisorIxr6: string := "Nokia-IXR7250-SUP-6"
  const SupervisorOther: string := "Nokia-IXR7250-SUP-10"

  /** Raw hardware model names and the product names reported for them. */
  const DescriptionMapping: map<string, string> := map[
    "imm32-100g-qsfp28+4-400g-qsfpdd" := "Nokia-IXR7250-32x100G-4x400G",
    "cpm-ixr" := "Nokia-IXR7250-SUP",
    "cpm2-ixr" := "Nokia-IXR7250-SUP",
    "imm36-400g-qsfpdd" := "Nokia-IXR7250E-36x400G",
    "imm60-100g-qsfp28" := "Nokia-IXR7250E-60x100G",
    "cpm2-ixr-e" := "Nokia-IXR7250E-SUP-10",
    "cpm4-ixr" := "Nokia-IXR7250E-SUP-10"
  ]

  /** The hardware module type code sent in requests, or the 'Unknown card-type' marker. */
  datatype PlatformType = HwControl | HwLine | HwFabric | UnknownCardType

  /** The chassis type reported by the service; only IXR-6 is told apart. */
  datatype ChassisType = Ixr6 | OtherChassis

  /** One ASIC entry of a fabric card's PCIe topology reply. */
  datatype AsicEntry = AsicEntry(asicIdx: nat, asicPcieId: string)

  /** The reply to a fabric PCIe topology request. */
  datatype PcieInfoReply = PcieInfoReply(status: ResponseCode, entries: seq<AsicEntry>)

  predicate StartsWith(s: string, prefix: string) {
    |prefix| <= |s| && s[..|prefix|] == prefix
  }

  /**
   * The hardware type code of a module kind: each of the three known kinds has
   * its own code, and every other kind is 'Unknown card-type'.
   */
  function PlatformTypeOf(moduleType: string): (t: PlatformType)
    ensures t == HwControl <==> moduleType == ModuleTypeSupervisor
    ensures t == HwLine <==> moduleType == ModuleTypeLine
    ensures t == HwFabric <==> moduleType == ModuleTypeFabric
    ensures t == UnknownCardType <==>
      moduleType !in {ModuleTypeSupervisor, ModuleTypeLine, ModuleTypeFabric}
  {
    if moduleType == ModuleTypeSupervisor then HwControl
    else if moduleType == ModuleTypeLine then HwLine
    else if moduleType == ModuleTypeFabric then HwFabric
    else UnknownCardType
  }

  /**
   * The description of a module whose name request had outcome `nameReply`.
   * A failed request reads "Unavailable"; an unknown raw name is passed
   * through; a known raw name becomes its product name, except that a
   * supervisor's product name is chosen by the chassis size.
   */
  function DescriptionOf(moduleType: string, nameReply: Rpc<string>, chassis: ChassisType): (d: string)
    ensures nameReply.Failed() ==> d == Unavailable
    ensures nameReply.Ok? && nameReply.response !in DescriptionMapping ==> d == nameReply.response
    ensures nameReply.Ok? && nameReply.response in DescriptionMapping && moduleType != ModuleTypeSupervisor ==>
      d == DescriptionMapping[nameReply.response]
    ensures nameReply.Ok? && nameReply.response in DescriptionMapping && moduleType == ModuleTypeSupervisor ==>
      (d == SupervisorIxr6 <==> chassis == Ixr6) && d in {SupervisorIxr6, SupervisorOther}
  {
    match nameReply
    case ConnFail => Unavailable
    case RpcFail => Unavailable
    case Ok(raw) =>
      if raw !in DescriptionMapping then raw
      else if PlatformTypeOf(moduleType) != HwControl then DescriptionMapping[raw]
      else if chassis == Ixr6 then SupervisorIxr6
      else SupervisorOther
  }

  /** Every description is "Unavailable", the raw name, or a product name. */
  lemma DescriptionRange(moduleType: string, nameReply: Rpc<string>, chassis: ChassisType)
    ensures var d := DescriptionOf(moduleType, nameReply, chassis);
      d == Unavailable
      || (nameReply.Ok? && d == nameReply.response)
      || d in DescriptionMapping.Values
      || d in {SupervisorIxr6, SupervisorOther}
  {
  }

  /** The status cached after a status query: the translated reply, or the old cache on failure. */
  function RefreshedStatus(cached: string, statusReply: Rpc<int>, statusName: int -> string): (s: string)
    ensures statusReply.Failed() ==> s == cached
    ensures statusReply.Ok? ==> s == statusName(statusReply.response)
  {
    match statusReply
    case Ok(code) => statusName(code)
    case _ => cached
  }

  /**
   * The midplane address `get_midplane_ip` returns, as the code is written: the
   * cache starts out unset (the constructor initialises a different attribute),
   * so a failed request before the first success has nothing to return (None
   * stands for the missing attribute).
   */
  function MidplaneIpAsWritten(cached: Option<string>, ipReply: Rpc<string>): (ip: Option<string>)
    ensures ipReply.Ok? ==> ip == Some(ipReply.response)
    ensures ipReply.Failed() ==> ip == cached
  {
    if ipReply.Ok? then Some(ipReply.response) else cached
  }

  /**
   * The midplane address as evidently intended: the cache starts at the
   * invalid-address sentinel, so every call has an address to return.
   */
  function IntendedMidplaneIp(cached: string, ipReply: Rpc<string>): (ip: string)
    ensures ipReply.Ok? ==> ip == ipReply.response
    ensures ipReply.Failed() ==> ip == cached
  {
    if ipReply.Ok? then ipReply.response else cached
  }

  /** Once the cache holds an address, the code as written behaves as intended. */
  lemma MidplaneIpAgreesOnceCached(cached: string, ipReply: Rpc<string>)
    ensures MidplaneIpAsWritten(Some(cached), ipReply) == Some(IntendedMidplaneIp(cached, ipReply))
  {
  }

  /**
   * Before the first successful reply the code as written has no address for a
   * failed request, where the intended cache returns the sentinel.
   */
  lemma MidplaneIpMissingBeforeFirstSuccess(invalidIp: string)
    ensures MidplaneIpAsWritten(None, ConnFail) == None
    ensures MidplaneIpAsWritten(None, RpcFail) == None
    ensures IntendedMidplaneIp(invalidIp, ConnFail) == invalidIp
  {
  }

  /** The pair reported for one ASIC: its index in decimal and its PCIe id. */
  function AsicPair(e: AsicEntry): (p: (string, string))
    ensures Decimal.IsDigits(p.0) && p.1 == e.asicPcieId
  {
    (Decimal.NatToString(e.asicIdx), e.asicPcieId)
  }

  /** The ASIC entry can be read back from its reported pair. */
  lemma AsicPairRoundTrip(e: AsicEntry)
    ensures Decimal.ParseDecimal(AsicPair(e).0) == e.asicIdx
  {
    Decimal.ParseNatToString(e.asicIdx);
  }

  /** A module slot. */
  class Module {
    const moduleIndex: int
    const moduleName: string
    const moduleType: string
    const hwSlot: int
    /** Whether the accessor holds an EEPROM reader (only for the local module). */
    const hasEeprom: bool
    /** Last known operational status. */
    var operStatus: string
    /** The attribute the constructor sets to the invalid-address sentinel. */
    var midplaneStatus: string
    /** The attribute `get_midplane_ip` caches in; unset until its first success. */
    var midplaneIp: Option<string>
    /** Administratively set power ceiling. */
    var maxConsumedPower: real

    /**
     * A module in slot `moduleSlot`, built by the process running in slot
     * `mySlot`; `invalidIp` is the service's invalid-address sentinel.
     */
    constructor (moduleIndex: int, moduleName: string, moduleType: string, moduleSlot: int,
                 mySlot: int, invalidIp: string)
      ensures this.moduleIndex == moduleIndex && this.moduleName == moduleName
      ensures this.moduleType == moduleType && hwSlot == moduleSlot
      ensures hasEeprom <==> mySlot == moduleSlot
      ensures operStatus == StatusEmpty && maxConsumedPower == 0.0
      ensures midplaneStatus == invalidIp && midplaneIp == None
    {
      this.moduleIndex := moduleIndex;
      this.moduleName := moduleName;
      this.moduleType := moduleType;
      hwSlot := moduleSlot;
      operStatus := StatusEmpty;
      midplaneStatus := invalidIp;
      midplaneIp := None;
      maxConsumedPower := 0.0;
      hasEeprom := mySlot == moduleSlot;
    }

    /**
     * Refreshes the cached status from a status query; a failed query keeps
     * the last known status.
     */
    method GetOperStatus(statusReply: Rpc<int>, statusName: int -> string) returns (status: string)
      modifies this`operStatus
      ensures operStatus == RefreshedStatus(old(operStatus), statusReply, statusName)
      ensures status == operStatus
    {
      if statusReply.Failed() {
        return operStatus;
      }
      operStatus := statusName(statusReply.response);
      status := operStatus;
    }

    /** Present exactly when the refreshed status is not Empty. */
    method GetPresence(statusReply: Rpc<int>, statusName: int -> string) returns (present: bool)
      modifies this`operStatus
      ensures operStatus == RefreshedStatus(old(operStatus), statusReply, statusName)
      ensures present <==> operStatus != StatusEmpty
    {
      var status := GetOperStatus(statusReply, statusName);
      present := status != StatusEmpty;
    }

    /** Up exactly when the refreshed status is Online. */
    method GetStatus(statusReply: Rpc<int>, statusName: int -> string) returns (up: bool)
      modifies this`operStatus
      ensures operStatus == RefreshedStatus(old(operStatus), statusReply, statusName)
      ensures up <==> operStatus == StatusOnline
    {
      var status := GetOperStatus(statusReply, statusName);
      up := status == StatusOnline;
    }

    /**
     * Reboots the local, non-fabric module. A fabric module or another slot is
     * refused before any request; otherwise success needs a completed request
     * whose status code is NDK_SUCCESS.
     */
    method Reboot(mySlot: int, rebootType: int, rebootReply: Rpc<ResponseCode>) returns (ok: bool)
      ensures ok <==> moduleType != ModuleTypeFabric && hwSlot == mySlot && rebootReply == Ok(NdkSuccess)
    {
      if moduleType == ModuleTypeFabric {
        return false;
      }
      if mySlot != hwSlot {
        return false;
      }
      if rebootReply.Failed() {
        return false;
      }
      if rebootReply.response != NdkSuccess {
        return false;
      }
      return true;
    }

    /** Administrative up/down control is not supported. */
    method SetAdminState(up: bool) returns (ok: bool)
      ensures !ok
    {
      ok := false;
    }

    /** Stores the ceiling as given; nothing else changes. */
    method SetMaximumConsumedPower(consumedPower: real)
      modifies this`maxConsumedPower
      ensures maxConsumedPower == consumedPower
      ensures operStatus == old(operStatus) && midplaneIp == old(midplaneIp)
    {
      maxConsumedPower := consumedPower;
    }

    /** The stored ceiling, or 0 when the refreshed status says the slot is empty. */
    method GetMaximumConsumedPower(statusReply: Rpc<int>, statusName: int -> string) returns (power: real)
      modifies this`operStatus
      ensures operStatus == RefreshedStatus(old(operStatus), statusReply, statusName)
      ensures operStatus == StatusEmpty ==> power == 0.0
      ensures operStatus != StatusEmpty ==> power == maxConsumedPower
    {
      var status := GetOperStatus(statusReply, statusName);
      if status == StatusEmpty {
        return 0.0;
      }
      power := maxConsumedPower;
    }

    /**
     * Queries the midplane address and caches a successful answer; a failure
     * returns the cache, which is None (the attribute is missing) before the
     * first success.
     */
    method GetMidplaneIp(ipReply: Rpc<string>) returns (ip: Option<string>)
      modifies this`midplaneIp
      ensures ip == MidplaneIpAsWritten(old(midplaneIp), ipReply)
      ensures midplaneIp == ip
    {
      if ipReply.Failed() {
        return midplaneIp;
      }
      midplaneIp := Some(ipReply.response);
      ip := Some(ipReply.response);
    }

    /** Live reachability: true only on a completed request answering true; nothing is cached. */
    method IsMidplaneReachable(reachReply: Rpc<bool>) returns (reachable: bool)
      ensures reachable <==> reachReply == Ok(true)
    {
      if reachReply.Failed() {
        return false;
      }
      reachable := reachReply.response;
    }

    /**
     * An EEPROM getter (model, serial, base MAC, system EEPROM info): the
     * reader's answer `read` for the local module, None for every other one.
     */
    function FromEeprom<T>(read: T): (r: Option<T>)
      ensures r.Some? <==> hasEeprom
      ensures r.Some? ==> r.value == read
    {
      if hasEeprom then Some(read) else None
    }

    /**
     * The ASICs of a fabric card, in reply order, as (index, PCIe id) strings.
     * Other modules get none without a request; a failed request or a
     * resource-not-found status gives none; no other status is filtered.
     */
    method GetAllAsics(pcieReply: Rpc<PcieInfoReply>) returns (asics: seq<(string, string)>)
      ensures !StartsWith(moduleName, ModuleTypeFabric) ==> asics == []
      ensures pcieReply.Failed() ==> asics == []
      ensures pcieReply.Ok? && pcieReply.response.status == NdkErrResourceNotFound ==> asics == []
      ensures StartsWith(moduleName, ModuleTypeFabric) && pcieReply.Ok? &&
              pcieReply.response.status != NdkErrResourceNotFound ==>
        |asics| == |pcieReply.response.entries| &&
        forall k :: 0 <= k < |asics| ==> asics[k] == AsicPair(pcieReply.response.entries[k])
    {
      asics := [];
      if StartsWith(moduleName, ModuleTypeFabric) {
        if pcieReply.Failed() {
          return asics;
        }
        if pcieReply.response.status == NdkErrResourceNotFound {
          return asics;
        }
        var entries := pcieReply.response.entries;
        var i := 0;
        while i < |entries|
          invariant 0 <= i <= |entries|
          invariant |asics| == i
          invariant forall k :: 0 <= k < i ==> asics[k] == AsicPair(entries[k])
        {
          var asicInfo := entries[i];
          asics := asics + [(Decimal.NatToString(asicInfo.asicIdx), asicInfo.asicPcieId)];
          i := i + 1;
        }
      }
    }
  }
}
