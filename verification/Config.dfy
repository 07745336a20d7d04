/** Parsing and validation of the configuration: pkg/config/config.go. */
module Config {
  import opened Wrappers
  import opened VlanIds
  import opened VlanLists
  import opened BridgeNames
  import opened Kernel
  import opened Netlink
  import opened Types

  const DEFAULT_BRIDGE := "cni0"

  // What sysfs and sriovnet tell about the PCI device, None for an error.
  datatype Device = Device(pf: Option<string>, vfid: Option<int>, linkName: Option<string>, userspace: Option<bool>)

  function BridgeOption(bridge: string): string {
    if bridge == "" then DEFAULT_BRIDGE else bridge
  }

  function Trimmed(parts: seq<string>): (names: seq<string>)
    ensures |names| == |parts|
  {
    if parts == [] then [] else [TrimSpace(parts[0])] + Trimmed(parts[1..])
  }

  lemma {:induction false} TrimmedAt(parts: seq<string>, i: nat)
    requires i < |parts|
    ensures Trimmed(parts)[i] == TrimSpace(parts[i])
  {
    if i == 0 {
    } else {
      TrimmedAt(parts[1..], i - 1);
    }
  }

  // The configured bridge names.
  function BridgeList(bridge: string): (names: seq<string>)
    ensures names != []
  {
    Trimmed(Split(BridgeOption(bridge)))
  }

  // Without the option the bridge is cni0, and white space around names is no part of them.
  lemma SomeOptions()
    ensures BridgeList("") == ["cni0"]
    ensures BridgeList("br1, br2\t") == ["br1", "br2"]
  {
    SplitIsTheOnlyWay(Split("cni0"), ["cni0"]);
    assert NoCommas(["br1", " br2\t"]);
    assert Join(["br1", " br2\t"]) == "br1, br2\t" by {
      assert ["br1", " br2\t"][1..] == [" br2\t"];
    }
    SplitIsTheOnlyWay(Split("br1, br2\t"), ["br1", " br2\t"]);
    TrimsBothEnds("", "cni0", "");
    TrimsBothEnds("", "br1", "");
    TrimsBothEnds(" ", "br2", "\t");
    assert "" + "cni0" + "" == "cni0" && "" + "br1" + "" == "br1" && " " + "br2" + "\t" == " br2\t";
    assert ["br1", " br2\t"][1..] == [" br2\t"];
  }

  // The option is malformed exactly when one of its parts is blank.
  lemma BlankPartIffEmptyName(bridge: string)
    ensures "" in BridgeList(bridge) <==> exists part :: part in Split(BridgeOption(bridge)) && Blank(part)
  {
    var parts := Split(BridgeOption(bridge));
    forall i | 0 <= i < |parts| ensures BridgeList(bridge)[i] == "" <==> Blank(parts[i]) {
      TrimsToNothingIffBlank(parts[i]);
      TrimmedAt(parts, i);
    }
    if part :| part in parts && Blank(part) {
      var i :| 0 <= i < |parts| && parts[i] == part;
      assert BridgeList(bridge)[i] == "";
    }
  }

  // The uplink is connected to a bridge of that name.
  ghost predicate UplinkIsOn(links: map<int, Link>, pfName: string, bridge: string) {
    exists b :: IsParentBridge(links, Find(links, pfName, 0), b) && b in links && links[b].name == bridge
  }

  // A single name is taken as it is, of several names the one that the uplink
  // is connected to.
  ghost predicate ChosenFrom(links: map<int, Link>, pfName: string, names: seq<string>, name: string) {
    && "" !in names
    && name in names
    && (|names| > 1 ==> UplinkIsOn(links, pfName, name))
  }

  ghost predicate BridgeChosen(links: map<int, Link>, c: PluginConf, name: string) {
    ChosenFrom(links, c.pfName, BridgeList(c.netConf.bridge), name)
  }

  // There is such a name.
  ghost predicate BridgeAccepted(links: map<int, Link>, bridge: string, pfName: string) {
    var names := BridgeList(bridge);
    "" !in names && (|names| == 1 || exists name :: name in names && UplinkIsOn(links, pfName, name))
  }

  lemma AcceptedIffChosen(links: map<int, Link>, bridge: string, pfName: string)
    ensures BridgeAccepted(links, bridge, pfName) <==>
              exists name :: ChosenFrom(links, pfName, BridgeList(bridge), name)
  {
    var names := BridgeList(bridge);
    if BridgeAccepted(links, bridge, pfName) {
      var name := names[0];
      if |names| > 1 {
        name :| name in names && UplinkIsOn(links, pfName, name);
      }
      assert ChosenFrom(links, pfName, names, name);
    }
  }

  // The names with their white space cut off; Err at the first blank one.
  method TrimAll(parts: seq<string>) returns (r: Result<seq<string>>)
    ensures r.Ok? <==> "" !in Trimmed(parts)
    ensures r.Ok? ==> r.value == Trimmed(parts)
  {
    ghost var names := Trimmed(parts);
    var allowed: seq<string> := [];
    var n := 0;
    while n < |parts|
      invariant 0 <= n <= |parts| && allowed == names[..n]
      invariant forall i :: 0 <= i < n ==> |names[i]| > 0
    {
      var brName := TrimSpace(parts[n]);
      TrimmedAt(parts, n);
      if brName == "" {
        return Err;
      }
      assert names[..n + 1] == names[..n] + [names[n]];
      allowed := allowed + [brName];
      n := n + 1;
    }
    assert allowed == names;
    return Ok(allowed);
  }

  // The loop over the allowed bridges.
  method PickAllowed(p: PluginConfRef, allowed: seq<string>, name: string) returns (ok: bool)
    requires p.c.actualBridge == "" && "" !in allowed
    modifies p
    ensures ok <==> name in allowed
    ensures p.c == if ok then old(p.c).(actualBridge := name) else old(p.c)
  {
    var n := 0;
    while n < |allowed|
      invariant 0 <= n <= |allowed|
      invariant name !in allowed[..n] && p.c == old(p.c)
    {
      if allowed[n] == name {
        p.c := p.c.(actualBridge := name);
        break;
      }
      assert allowed[..n + 1] == allowed[..n] + [allowed[n]];
      n := n + 1;
    }
    assert n == |allowed| ==> allowed[..n] == allowed;
    ok := p.c.actualBridge != "";
  }

  // The parent bridge of the uplink, if it is one of the allowed ones.
  method DetectBridge(h: Host, p: PluginConfRef, allowed: seq<string>) returns (ok: bool)
    requires Valid(h.k) && h.ns == 0 && p.c.actualBridge == "" && "" !in allowed && |allowed| > 1
    modifies h`failures, p
    ensures h.failures >= old(h.failures)
    ensures p.c == old(p.c).(actualBridge := p.c.actualBridge)
    ensures ok ==> ChosenFrom(h.k.links, p.c.pfName, allowed, p.c.actualBridge)
    ensures !ok && h.failures == old(h.failures) ==> forall name :: !ChosenFrom(h.k.links, p.c.pfName, allowed, name)
  {
    var pfLink, pfBridge: Link;
    ok, pfLink := h.LinkByName(p.c.pfName);
    if !ok {
      return;
    }
    ok, pfBridge := GetParentBridgeForLink(h, pfLink);
    if !ok {
      if h.failures == old(h.failures) {
        forall b ensures !IsParentBridge(h.k.links, pfLink.index, b) {
          NoParentWhenChainEnds(h.k.links, pfLink.index, b);
        }
      }
      return;
    }
    forall b | IsParentBridge(h.k.links, pfLink.index, b) ensures b == pfBridge.index {
      ParentBridgeIsUnique(h.k.links, pfLink.index, b, pfBridge.index);
    }
    ok := PickAllowed(p, allowed, pfBridge.name);
  }

  method HandleBridgeConfig(h: Host, p: PluginConfRef) returns (ok: bool)
    requires Valid(h.k) && h.ns == 0 && p.c.actualBridge == ""
    modifies h`failures, p
    ensures h.failures >= old(h.failures)
    ensures p.c == old(p.c).(netConf := old(p.c).netConf.(bridge := BridgeOption(old(p.c).netConf.bridge)),
                             actualBridge := p.c.actualBridge)
    ensures ok ==> BridgeChosen(h.k.links, old(p.c), p.c.actualBridge)
    ensures h.failures == old(h.failures) ==>
              (ok <==> BridgeAccepted(h.k.links, old(p.c).netConf.bridge, old(p.c).pfName))
  {
    if p.c.netConf.bridge == "" {
      p.c := p.c.(netConf := p.c.netConf.(bridge := DEFAULT_BRIDGE));
    }
    AcceptedIffChosen(h.k.links, old(p.c).netConf.bridge, p.c.pfName);
    var names := TrimAll(Split(p.c.netConf.bridge));
    if names.Err? {
      return false;
    }
    var allowed := names.value;
    if |allowed| == 1 {
      p.c := p.c.(actualBridge := allowed[0]);
      return true;
    }
    ok := DetectBridge(h, p, allowed);
  }

  // What does not depend on VLANs and bridges.
  ghost predicate DeviceParsed(conf: NetConf, dev: Device, c: PluginConf) {
    && conf.deviceID != ""
    && dev.pf == Some(c.pfName)
    && dev.vfid == Some(c.vfID)
    && c.netConf == conf.(bridge := BridgeOption(conf.bridge))
    && c.mac == conf.mac
    && c.mtu == conf.mtu
    && c.origVfState == VfState(if dev.linkName.Some? then dev.linkName.value else "", Unset, Unset, 0)
    && c.origRepState == RepState(0)
    && (if c.origVfState.hostIFName == "" then c.isUserspaceDriver && dev.userspace == Some(true)
        else !c.isUserspaceDriver)
    && c.representor == "" && c.contIFNames == ""
  }

  ghost predicate VlansParsed(conf: NetConf, c: PluginConf) {
    && c.netConf.vlan == conf.vlan
    && 0 <= conf.vlan <= 4094
    && (if conf.trunk == [] then c.trunk == [] else Acceptable(conf.trunk) && IsNormalForm(conf.trunk, c.trunk))
  }

  ghost predicate VlansAccepted(conf: NetConf) {
    0 <= conf.vlan <= 4094 && (conf.trunk == [] || Acceptable(conf.trunk))
  }

  // The configuration the plugin works with, from the one it is given.
  ghost predicate Parsed(links: map<int, Link>, conf: NetConf, dev: Device, c: PluginConf) {
    && DeviceParsed(conf, dev, c)
    && VlansParsed(conf, c)
    && BridgeChosen(links, c, c.actualBridge)
  }

  // No VLAN of a parsed configuration is changed by the conversion to 16 bits.
  lemma ParsedVlansDoNotWrap(conf: NetConf, c: PluginConf)
    requires VlansParsed(conf, c)
    ensures forall v :: v in VlanList(c.trunk, c.netConf.vlan) ==> 1 <= v <= 4094 && Vid(v) == v
    ensures Vids(VlanList(c.trunk, c.netConf.vlan)) == set v | v in VlanList(c.trunk, c.netConf.vlan)
  {
    if conf.trunk != [] {
      NormalFormIsInRange(conf.trunk, c.trunk);
    }
    VidsAreExact(VlanList(c.trunk, c.netConf.vlan));
  }

  predicate NoInterface(dev: Device) {
    dev.linkName == None || dev.linkName == Some("")
  }

  predicate DriverKnown(dev: Device) {
    NoInterface(dev) ==> dev.userspace == Some(true)
  }

  lemma SameOptionSameBridge(links: map<int, Link>, c: PluginConf, c2: PluginConf, name: string)
    requires c.pfName == c2.pfName && BridgeOption(c.netConf.bridge) == BridgeOption(c2.netConf.bridge)
    ensures BridgeChosen(links, c, name) <==> BridgeChosen(links, c2, name)
  {
    assert BridgeList(c.netConf.bridge) == BridgeList(c2.netConf.bridge);
  }

  // What the validation asks of a configuration and of its device.
  ghost predicate Accepted(links: map<int, Link>, conf: NetConf, dev: Device) {
    && conf.deviceID != "" && dev.pf.Some? && dev.vfid.Some?
    && ((dev.linkName.Some? && dev.linkName.value != "") || dev.userspace == Some(true))
    && VlansAccepted(conf)
    && BridgeAccepted(links, conf.bridge, dev.pf.value)
  }

  // No more and no less than that lets it be parsed.
  lemma AcceptedIffParsed(links: map<int, Link>, conf: NetConf, dev: Device)
    ensures Accepted(links, conf, dev) <==> exists c :: Parsed(links, conf, dev, c)
  {
    if Accepted(links, conf, dev) {
      var c := ParsedConf(links, conf, dev);
    }
    if c :| Parsed(links, conf, dev, c) {
      SameOptionSameBridge(links, c, c.(netConf := conf), c.actualBridge);
    }
  }

  lemma ParsedConf(links: map<int, Link>, conf: NetConf, dev: Device) returns (c: PluginConf)
    requires Accepted(links, conf, dev)
    ensures Parsed(links, conf, dev, c)
  {
    AcceptedIffChosen(links, conf.bridge, dev.pf.value);
    var name :| ChosenFrom(links, dev.pf.value, BridgeList(conf.bridge), name);
    var ids := [];
    if conf.trunk != [] {
      ids := NormalFormExists(conf.trunk);
    }
    c := ZERO_CONF.(netConf := conf.(bridge := BridgeOption(conf.bridge)), isUserspaceDriver := NoInterface(dev),
                    origVfState := VfState(if dev.linkName.Some? then dev.linkName.value else "", Unset, Unset, 0),
                    pfName := dev.pf.value, actualBridge := name, mac := conf.mac, mtu := conf.mtu,
                    vfID := dev.vfid.value, trunk := ids);
    SameOptionSameBridge(links, c, c.(netConf := conf), name);
  }

  // A device without interface name must have a userspace driver.
  method ParseDriver(dev: Device, p: PluginConfRef) returns (ok: bool)
    modifies p
    ensures ok <==> DriverKnown(dev)
    ensures ok ==> p.c == old(p.c).(
                     isUserspaceDriver := if NoInterface(dev) then true else old(p.c).isUserspaceDriver,
                     origVfState := old(p.c).origVfState.(
                       hostIFName := if dev.linkName.Some? then dev.linkName.value else ""))
  {
    var hostIFName := if dev.linkName.Some? then dev.linkName.value else "";
    if dev.linkName.None? || hostIFName == "" {
      if dev.userspace.None? {
        return false;
      }
      p.c := p.c.(isUserspaceDriver := dev.userspace.value);
      if !p.c.isUserspaceDriver {
        return false;
      }
    }
    p.c := p.c.(origVfState := p.c.origVfState.(hostIFName := hostIFName));
    return true;
  }

  method ParseVlans(p: PluginConfRef) returns (ok: bool)
    requires p.c.trunk == []
    modifies p
    ensures ok ==> p.c == old(p.c).(trunk := p.c.trunk) && VlansParsed(old(p.c).netConf, p.c)
    ensures ok <==> VlansAccepted(old(p.c).netConf)
  {
    if p.c.netConf.vlan < 0 || p.c.netConf.vlan > 4094 {
      return false;
    }
    if |p.c.netConf.trunk| > 0 {
      var ids := SplitVlanIds(p.c.netConf.trunk);
      if ids.Err? {
        return false;
      }
      p.c := p.c.(trunk := ids.value);
    }
    return true;
  }

  method ParseDriverAndVlans(dev: Device, p: PluginConfRef) returns (ok: bool)
    requires p.c.trunk == []
    modifies p
    ensures ok ==> DriverKnown(dev) && VlansParsed(old(p.c).netConf, p.c)
    ensures ok ==> p.c == old(p.c).(
                     isUserspaceDriver := if NoInterface(dev) then true else old(p.c).isUserspaceDriver,
                     origVfState := old(p.c).origVfState.(
                       hostIFName := if dev.linkName.Some? then dev.linkName.value else ""),
                     trunk := p.c.trunk)
    ensures ok <==> DriverKnown(dev) && VlansAccepted(old(p.c).netConf)
  {
    ok := ParseDriver(dev, p);
    if ok {
      ghost var c2 := p.c;
      ok := ParseVlans(p);
      assert ok ==> VlansParsed(c2.netConf, p.c);
    }
  }

  method ParseDevice(conf: NetConf, dev: Device, p: PluginConfRef) returns (ok: bool)
    requires p.c == ZERO_CONF
    modifies p
    ensures ok <==> conf.deviceID != "" && dev.pf.Some? && dev.vfid.Some?
    ensures ok ==> p.c == ZERO_CONF.(netConf := conf, mac := conf.mac, mtu := conf.mtu,
                                    pfName := dev.pf.value, vfID := dev.vfid.value)
  {
    p.c := p.c.(netConf := conf);
    p.c := p.c.(mac := p.c.netConf.mac, mtu := p.c.netConf.mtu);
    if p.c.netConf.deviceID == "" || dev.pf.None? || dev.vfid.None? {
      return false;
    }
    p.c := p.c.(pfName := dev.pf.value, vfID := dev.vfid.value);
    return true;
  }

  method ParseConf(h: Host, stdin: Option<NetConf>, dev: Device, p: PluginConfRef) returns (ok: bool)
    requires Valid(h.k) && h.ns == 0 && p.c == ZERO_CONF
    modifies h`failures, p
    ensures h.failures >= old(h.failures)
    ensures ok ==> stdin.Some? && Parsed(h.k.links, stdin.value, dev, p.c)
    ensures h.failures == old(h.failures) ==> (ok <==> stdin.Some? && Accepted(h.k.links, stdin.value, dev))
  {
    if stdin.None? {
      return false;
    }
    var conf := stdin.value;
    ok := ParseDevice(conf, dev, p);
    if !ok {
      return;
    }
    ghost var c1 := p.c;
    ok := HandleBridgeConfig(h, p);
    if !ok {
      return;
    }
    ok := ParseDriverAndVlans(dev, p);
    if ok {
      assert DeviceParsed(conf, dev, p.c);
      SameOptionSameBridge(h.k.links, c1, p.c, p.c.actualBridge);
    }
  }
}
