/**
 * Client-side uses of the module accessor: what a caller of the host framework
 * can conclude from the operations' contracts alone.
 */
module ModuleScenarios {
  import opened RemoteCall
  import opened ChassisModule

  /**
   * With the service unreachable, the status stays the last one cached, the
   * description is "Unavailable" and the midplane address is the cached one.
   */
  method ServiceUnreachable(m: Module, statusName: int -> string) returns (status: string, description: string, ip: Option<string>)
    modifies m
    ensures status == old(m.operStatus) && m.operStatus == old(m.operStatus)
    ensures description == Unavailable
    ensures ip == old(m.midplaneIp) && m.midplaneIp == old(m.midplaneIp)
  {
    status := m.GetOperStatus(ConnFail, statusName);
    description := DescriptionOf(m.moduleType, ConnFail, OtherChassis);
    ip := m.GetMidplaneIp(ConnFail);
  }

  /** After setting the ceiling to `v`, reading it gives 0 for an empty slot and `v` otherwise. */
  method SetThenGetPower(m: Module, v: real, statusReply: Rpc<int>, statusName: int -> string) returns (power: real)
    modifies m
    ensures var refreshed := RefreshedStatus(old(m.operStatus), statusReply, statusName);
      power == (if refreshed == StatusEmpty then 0.0 else v)
  {
    m.SetMaximumConsumedPower(v);
    power := m.GetMaximumConsumedPower(statusReply, statusName);
  }

  /**
   * A freshly built module of another slot has no EEPROM data, and while the
   * service cannot be reached it reads as absent, not up and drawing no power.
   */
  method FreshRemoteModule(name: string, moduleType: string, slot: int, mySlot: int, invalidIp: string,
                           statusName: int -> string)
    returns (model: Option<string>, present: bool, up: bool, power: real)
    requires slot != mySlot
    ensures model == None && !present && !up && power == 0.0
  {
    var m := new Module(0, name, moduleType, slot, mySlot, invalidIp);
    model := m.FromEeprom("part number");
    present := m.GetPresence(ConnFail, statusName);
    up := m.GetStatus(RpcFail, statusName);
    power := m.GetMaximumConsumedPower(ConnFail, statusName);
  }

  /** A module reported up is also reported present by the next presence query. */
  method StatusImpliesPresence(m: Module, statusReply: Rpc<int>, statusName: int -> string) returns (up: bool, present: bool)
    modifies m
    ensures up ==> present
  {
    up := m.GetStatus(statusReply, statusName);
    present := m.GetPresence(statusReply, statusName);
  }

  /**
   * Reboot and the EEPROM reader are both tied to the local slot: a module that
   * can be rebooted is the one holding the EEPROM reader.
   */
  method RebootOnlyWithEeprom(name: string, moduleType: string, slot: int, mySlot: int, invalidIp: string,
                              rebootType: int, rebootReply: Rpc<ResponseCode>)
    returns (ok: bool, eeprom: bool)
    ensures ok ==> eeprom
  {
    var m := new Module(0, name, moduleType, slot, mySlot, invalidIp);
    ok := m.Reboot(mySlot, rebootType, rebootReply);
    eeprom := m.hasEeprom;
  }

  /**
   * The midplane-address defect: a module whose first midplane request fails
   * has no address to give back.
   */
  method FreshModuleMidplaneFailure(slot: int, invalidIp: string) returns (ip: Option<string>)
    ensures ip == None
  {
    var m := new Module(0, "LINE-CARD0", ModuleTypeLine, slot, slot, invalidIp);
    ip := m.GetMidplaneIp(ConnFail);
  }

  /** A successful status query is what a later failed one falls back to. */
  method StatusSurvivesOutage(m: Module, code: int, statusName: int -> string) returns (first: string, second: string)
    modifies m
    ensures first == statusName(code) && second == first
  {
    first := m.GetOperStatus(Ok(code), statusName);
    second := m.GetOperStatus(RpcFail, statusName);
  }

  /** The supervisor "cpm2-ixr-e" is described by chassis size. */
  lemma SupervisorDescriptionByChassis()
    ensures DescriptionOf(ModuleTypeSupervisor, Ok("cpm2-ixr-e"), Ixr6) == "Nokia-IXR7250-SUP-6"
    ensures DescriptionOf(ModuleTypeSupervisor, Ok("cpm2-ixr-e"), OtherChassis) == "Nokia-IXR7250-SUP-10"
    ensures DescriptionOf(ModuleTypeLine, Ok("imm36-400g-qsfpdd"), Ixr6) == "Nokia-IXR7250E-36x400G"
  {
  }

  /** A fabric card's two ASICs are reported in reply order with decimal indexes. */
  method FabricAsics(mySlot: int, invalidIp: string) returns (asics: seq<(string, string)>)
    ensures asics == [("0", "pcie0"), ("1", "pcie1")]
  {
    var m := new Module(1, "FABRIC-CARD0", ModuleTypeFabric, 17, mySlot, invalidIp);
    var reply := PcieInfoReply(NdkSuccess, [AsicEntry(0, "pcie0"), AsicEntry(1, "pcie1")]);
    asics := m.GetAllAsics(Ok(reply));
  }

  /** A resource-not-found reply yields no ASICs even when it carries entries. */
  method FabricAsicsNotFound(mySlot: int, invalidIp: string) returns (asics: seq<(string, string)>)
    ensures asics == []
  {
    var m := new Module(1, "FABRIC-CARD0", ModuleTypeFabric, 17, mySlot, invalidIp);
    var reply := PcieInfoReply(NdkErrResourceNotFound, [AsicEntry(0, "pcie0")]);
    asics := m.GetAllAsics(Ok(reply));
  }
}
