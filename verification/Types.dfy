/** The configuration and state records of pkg/types/types.go. */
module Types {
  import opened VlanIds

  // A MAC address as text.  net.ParseMAC accepts exactly the Addr values.
  datatype MacText = Unset | Addr(mac: int) | Malformed(text: string)

  datatype VfState = VfState(hostIFName: string, adminMAC: MacText, effectiveMAC: MacText, mtu: int)

  datatype RepState = RepState(mtu: int)

  // The public configuration.
  datatype NetConf = NetConf(
    name: string,
    ipamType: string,
    debug: bool,
    bridge: string,
    vlan: int,
    trunk: seq<Trunk>,
    setUplinkVlan: bool,
    mac: MacText,
    mtu: int,
    deviceID: string,
    runtimeMac: MacText,
    deviceInfoFile: string)

  // The internal configuration; its mac, mtu and trunk shadow those of NetConf.
  datatype PluginConf = PluginConf(
    netConf: NetConf,
    isUserspaceDriver: bool,
    origVfState: VfState,
    origRepState: RepState,
    pfName: string,
    actualBridge: string,
    mac: MacText,
    mtu: int,
    representor: string,
    vfID: int,
    contIFNames: string,
    trunk: seq<int>)

  const ZERO_NET_CONF := NetConf("", "", false, "", 0, [], false, Unset, 0, "", Unset, "")

  const ZERO_CONF := PluginConf(ZERO_NET_CONF, false, VfState("", Unset, Unset, 0), RepState(0), "", "",
                                Unset, 0, "", 0, "", [])

  // The *types.PluginConf that is handed around and filled in step by step.
  class PluginConfRef {
    var c: PluginConf

    constructor ()
      ensures c == ZERO_CONF
    {
      c := ZERO_CONF;
    }
  }
}
