/**
 What attaching and detaching a representor comes to, as functions of the kernel
 state alone.  The manager's methods are proved against these.
 */
module Effects {
  import opened Wrappers
  import opened VlanLists
  import opened Kernel
  import opened Types

  // All VLANs a configuration asks for, as the 16-bit numbers the kernel gets.
  function ConfVids(c: PluginConf): set<int> {
    Vids(VlanList(c.trunk, c.netConf.vlan))
  }

  // The link that carries the uplink VLANs of a PF: its bond, or the PF itself.
  function Uplink(links: map<int, Link>, pf: int): int {
    if pf in links && links[pf].master in links && links[links[pf].master].kind.Bond? then links[pf].master else pf
  }

  ghost function UplinkOf(links: map<int, Link>, c: PluginConf): int {
    Uplink(links, Find(links, c.pfName, 0))
  }

  // Some other port of the bridge that u is on carries VLAN v.
  ghost predicate CarriedElsewhere(k: State, u: int, v: int) {
    exists q :: q in k.ports && q != u && q in k.links && u in k.links
                && k.links[q].master == k.links[u].master && v in k.ports[q].vids
  }

  ghost function UnusedVids(k: State, u: int, vs: set<int>): set<int> {
    set v | v in vs && !CarriedElsewhere(k, u, v)
  }

  // The port table attach leaves behind, from the table the port starts with.
  function Configured(base: PortVlans, trunk: seq<int>, vlan: int): PortVlans {
    var dropped := if vlan > 1 || |trunk| > 0 then Without(base, {1}) else base;
    var tagged := Tag(dropped, Vids(trunk));
    if vlan > 0 then TagNative(tagged, Vid(vlan)) else tagged
  }

  // What the documentation promises for a freshly attached port: the VLANs of
  // Trunk and Vlan, or VLAN 1 when neither is set; Vlan native, VLAN 1 native
  // when neither is set, and no native VLAN for a trunk alone.
  function PromisedPort(trunk: seq<int>, vlan: int): PortVlans {
    var plain := trunk == [] && vlan <= 0;
    PortVlans(
      if plain then {1} else Vids(VlanList(trunk, vlan)),
      if vlan > 0 then Some(Vid(vlan)) else if plain then Some(1) else None,
      if vlan > 0 then {Vid(vlan)} else if plain then {1} else {})
  }

  lemma FreshPortIsAsPromised(trunk: seq<int>, vlan: int)
    ensures Configured(DEFAULT_PORT, trunk, vlan) == PromisedPort(trunk, vlan)
  {
    VidsOfAppend(trunk, if vlan > 0 then [vlan] else []);
    if trunk == [] {
      assert Vids(trunk) == {};
    } else {
      assert Vid(trunk[0]) in Vids(trunk);
    }
    assert Vids([vlan]) == {Vid(vlan)};
    if vlan == 1 {
      assert Vid(vlan) == 1;
    }
  }

  // For VLAN numbers the conversion to 16 bits is exact.
  lemma PromisedPortOfVlanNumbers(trunk: seq<int>, vlan: int)
    requires forall v :: v in trunk ==> 1 <= v <= 4094
    requires 0 <= vlan <= 4094
    ensures var t := PromisedPort(trunk, vlan);
            && t.vids == (if trunk == [] && vlan == 0 then {1}
                          else (set v | v in trunk) + if vlan > 0 then {vlan} else {})
            && t.pvid == (if vlan > 0 then Some(vlan) else if trunk == [] then Some(1) else None)
            && t.untagged == (if vlan > 0 then {vlan} else if trunk == [] then {1} else {})
  {
    VidsAreExact(VlanList(trunk, vlan));
  }

  // The table a port has when it is put on bridge b.
  function BasePort(k: State, r: int, b: int): PortVlans {
    if r in k.links && k.links[r].master == b && r in k.ports then k.ports[r] else DEFAULT_PORT
  }

  // The representor up, with its MTU and master, and nothing else changed.
  function Enslaved(k: State, r: int, b: int, c: PluginConf): State
    requires r in k.links
  {
    State(k.links[r := k.links[r].(up := true, mtu := if c.mtu != 0 then c.mtu else k.links[r].mtu, master := b)],
          k.ports[r := BasePort(k, r, b)])
  }

  function Joined(k: State, r: int, b: int, c: PluginConf): State
    requires r in k.links
  {
    SetPort(Enslaved(k, r, b, c), r, Configured(BasePort(k, r, b), c.trunk, c.netConf.vlan))
  }

  ghost function WithUplink(k: State, c: PluginConf): State {
    if c.netConf.setUplinkVlan then Tagged(k, UplinkOf(k.links, c), ConfVids(c)) else k
  }

  // A successful AttachRepresentor.
  ghost function Attached(k: State, c: PluginConf): State {
    var r := Find(k.links, c.representor, 0);
    if r !in k.links then k else WithUplink(Joined(k, r, Find(k.links, c.actualBridge, 0), c), c)
  }

  // Undoing the enslavement also undoes whatever the port table had become.
  lemma UnplugForgetsTable(k: State, r: int, t: PortVlans, u: int, added: set<int>)
    requires r in k.ports && r in k.links
    ensures NoMaster(Tagged(SetPort(k, r, t), u, added), r) == Tagged(NoMaster(k, r), u, added)
  {
    var now := Tagged(SetPort(k, r, t), u, added);
    assert now.ports - {r} == Tagged(NoMaster(k, r), u, added).ports;
  }

  // The representor as PrepareRepresentor leaves it.
  function Prepared(l: Link, c: PluginConf): Link {
    l.(up := true, mtu := if c.mtu != 0 then c.mtu else l.mtu)
  }

  lemma EnslavedInSteps(k: State, r: int, b: int, c: PluginConf)
    requires Valid(k) && r in k.links && b in k.links && k.links[b].kind.Bridge?
    ensures SetMaster(SetLink(k, Prepared(k.links[r], c)), r, b) == Enslaved(k, r, b, c)
    ensures r in Enslaved(k, r, b, c).ports
  {
    assert LinkOk(k.links, r);
    assert r in k.ports <==> IsPort(k.links, r);
    if k.links[r].master == b {
      assert k.ports[r := k.ports[r]] == k.ports;
    }
  }

  lemma UnplugForgetsMaster(k: State, r: int, b: int, c: PluginConf)
    requires Valid(k) && r in k.links
    ensures NoMaster(Enslaved(k, r, b, c), r) == NoMaster(SetLink(k, Prepared(k.links[r], c)), r)
  {
    assert LinkOk(k.links, r);
    assert Enslaved(k, r, b, c).ports - {r} == k.ports - {r};
  }

  // An AttachRepresentor that failed, its undo call included: nothing has
  // happened, or the representor has its MTU or is up, or it has been on the
  // bridge and is off it again, `added` left behind on the uplink.
  ghost predicate AttachRolledBack(k: State, k2: State, c: PluginConf, added: set<int>) {
    var r := Find(k.links, c.representor, 0);
    || k2 == k
    || (r in k.links && r in k2.links &&
        var l := k.links[r].(up := k2.links[r].up, mtu := k2.links[r].mtu);
        || k2 == SetLink(k, l)
        || k2 == Tagged(NoMaster(SetLink(k, l), r),
                        UplinkOf(Enslaved(k, r, Find(k.links, c.actualBridge, 0), c).links, c), added))
  }

  lemma UndoneIsRolledBack(k: State, r: int, b: int, c: PluginConf, t: PortVlans, added: set<int>)
    requires Valid(k) && r in k.links && b in k.links && k.links[b].kind.Bridge?
    requires r == Find(k.links, c.representor, 0) && b == Find(k.links, c.actualBridge, 0)
    ensures var on := Enslaved(k, r, b, c);
            r in on.ports
            && AttachRolledBack(k, NoMaster(Tagged(SetPort(on, r, t), UplinkOf(on.links, c), added), r), c, added)
  {
    var on := Enslaved(k, r, b, c);
    EnslavedInSteps(k, r, b, c);
    UnplugForgetsTable(on, r, t, UplinkOf(on.links, c), added);
    UnplugForgetsMaster(k, r, b, c);
  }

  // So a representor that was on no bridge is on none afterwards and has no
  // VLAN table, and every other port has at least the VLANs it had.
  lemma FailedAttachLeavesNoPort(k: State, k2: State, c: PluginConf, added: set<int>, q: int)
    requires Valid(k) && AttachRolledBack(k, k2, c, added)
    requires var r := Find(k.links, c.representor, 0); r in k.links && k.links[r].master == 0
    ensures var r := Find(k.links, c.representor, 0);
            r in k2.links && k2.links[r].master == 0 && r !in k2.ports
    ensures q in k2.ports <==> q in k.ports
    ensures q in k.ports ==> k.ports[q].vids <= k2.ports[q].vids <= k.ports[q].vids + added
  {
    var r := Find(k.links, c.representor, 0);
    assert r in k.ports <==> IsPort(k.links, r);
    assert forall j :: j in k.links ==> LinkOk(k.links, j);
  }

  // What AttachRepresentor has done and recorded when it returns nil.
  ghost predicate AttachSucceeded(k: State, k2: State, c: PluginConf, c2: PluginConf) {
    var r, b := Find(k.links, c2.representor, 0), Find(k.links, c2.actualBridge, 0);
    && r in k.links && b in k.links
    && k.links[r].kind.Device? && k.links[b].kind.Bridge?
    && c2 == c.(representor := c2.representor,
                origRepState := if c.mtu != 0 then RepState(k.links[r].mtu) else c.origRepState)
    && k2 == Attached(k, c2)
  }

  // The representor down, its MTU restored, off the bridge.
  function Unplugged(k: State, r: int, c: PluginConf): State
    requires r in k.links
  {
    var mtu := if c.mtu != 0 then c.origRepState.mtu else k.links[r].mtu;
    State(k.links[r := k.links[r].(up := false, mtu := mtu, master := 0)],
          k.ports - {r})
  }

  // The uplink without those configured VLANs that no other port carries.
  ghost function Pruned(k: State, c: PluginConf): State {
    Removed(k, UplinkOf(k.links, c), UnusedVids(k, UplinkOf(k.links, c), ConfVids(c)))
  }

  // A fully successful DetachRepresentor.
  ghost function Detached(k: State, c: PluginConf): State {
    var r := Find(k.links, c.representor, 0);
    if r !in k.links then k
    else if c.netConf.setUplinkVlan then Pruned(Unplugged(k, r, c), c)
    else Unplugged(k, r, c)
  }

  // How far a DetachRepresentor that may have failed has come: 0 nothing done,
  // 1 the representor down, 2 its MTU restored, 3 unplugged and `gone` taken
  // off the uplink.
  ghost function DetachedPartly(k: State, c: PluginConf, stage: nat, gone: set<int>): State {
    var r := Find(k.links, c.representor, 0);
    if stage == 0 || r !in k.links then k
    else if stage == 1 then SetLink(k, k.links[r].(up := false))
    else if stage == 2 then
      SetLink(k, k.links[r].(up := false, mtu := if c.mtu != 0 then c.origRepState.mtu else k.links[r].mtu))
    else
      var off := Unplugged(k, r, c);
      if c.netConf.setUplinkVlan then Removed(off, UplinkOf(off.links, c), gone) else off
  }

  // `gone` contains only VLANs that no port but the uplink carries any more.
  ghost predicate OnlyUnused(k: State, c: PluginConf, gone: set<int>) {
    var r := Find(k.links, c.representor, 0);
    r in k.links ==>
      var off := Unplugged(k, r, c);
      gone <= UnusedVids(off, UplinkOf(off.links, c), ConfVids(c))
  }

  // At most link i has changed, and with it its place on a bridge.
  ghost predicate OnlyLink(k: State, k2: State, i: int) {
    && i in k.links && i in k2.links
    && k2.links == k.links[i := k2.links[i]]
    && k2.ports - {i} == k.ports - {i}
  }

  ghost predicate ApplySucceeded(k: State, k2: State, c: PluginConf, c2: PluginConf) {
    var pf := Find(k.links, c.pfName, 0);
    && pf in k.links && c.vfID in k.links[pf].vfs && !c.mac.Malformed?
    && c2 == c.(origVfState := c.origVfState.(adminMAC := Addr(k.links[pf].vfs[c.vfID])))
    && k2 == if c.mac.Unset? then k else SetLink(k, k.links[pf].(vfs := k.links[pf].vfs[c.vfID := c.mac.mac]))
  }

  // Errors that ApplyVFConfig finds by itself: the PF has no such VF, or the MAC
  // address is none.
  ghost predicate ApplyRefused(k: State, c: PluginConf) {
    var pf := Find(k.links, c.pfName, 0);
    pf in k.links && (c.vfID !in k.links[pf].vfs || c.mac.Malformed?)
  }

  // The administrative MAC address put back, when one had been asked for.
  ghost function AdminReset(k: State, c: PluginConf): State {
    var pf := Find(k.links, c.pfName, 0);
    if pf !in k.links || c.mac.Unset? || !c.origVfState.adminMAC.Addr? then k
    else SetLink(k, k.links[pf].(vfs := k.links[pf].vfs[c.vfID := c.origVfState.adminMAC.mac]))
  }

  // MAC and MTU as configured.
  function Dressed(l: Link, c: PluginConf): Link {
    l.(mac := if c.mac.Addr? then c.mac.mac else l.mac, mtu := if c.mtu != 0 then c.mtu else l.mtu)
  }

  // Name, MAC and MTU as they were before.
  function Undressed(l: Link, c: PluginConf): Link {
    l.(name := c.origVfState.hostIFName,
       up := false,
       mac := if !c.mac.Unset? && c.origVfState.effectiveMAC.Addr? then c.origVfState.effectiveMAC.mac else l.mac,
       mtu := if c.mtu != 0 then c.origVfState.mtu else l.mtu)
  }

  // The original MAC and MTU recorded where they were overridden.
  function WithVfState(c: PluginConf, vf: Link): PluginConf {
    c.(origVfState := c.origVfState.(
         effectiveMAC := if c.mac.Unset? then c.origVfState.effectiveMAC else Addr(vf.mac),
         mtu := if c.mtu != 0 then vf.mtu else c.origVfState.mtu))
  }

  function TempName(index: int): string {
    "temp_" + Digits(index)
  }

  function Digits(n: int): string
    decreases if n < 0 then 0 else n
  {
    if n < 10 then [Digit(n)] else Digits(n / 10) + [Digit(n % 10)]
  }

  function Digit(n: int): char {
    if 0 <= n < 10 then "0123456789"[n] else '0'
  }

  // VF i in the pod, named, dressed and up.
  function InPod(k: State, i: int, c: PluginConf, podifName: string, netns: nat): State
    requires i in k.links
  {
    State(k.links[i := Dressed(k.links[i], c).(name := podifName, netns := netns, up := true, master := 0)],
      k.ports - {i})
  }

  // VF i back in the init namespace, undressed and down.
  function Released(k: State, i: int, c: PluginConf): State {
    if i !in k.links then k
    else State(k.links[i := Undressed(k.links[i], c).(netns := 0, master := 0)], k.ports - {i})
  }

  ghost predicate SetupSucceeded(k: State, k2: State, c: PluginConf, c2: PluginConf, podifName: string, netns: nat) {
    var i := Find(k.links, c.origVfState.hostIFName, 0);
    && i in k.links && !c.mac.Malformed?
    && c2 == WithVfState(c, k.links[i]).(contIFNames := podifName)
    && k2 == InPod(k, i, c, podifName, netns)
  }

  // The calls of SetupVF, in their order.
  datatype SetupCall =
    | LookUpVf | TakeDown | SetTempName | SetMac | SetMtu | ChangeNetns | EnterNetns | SetPodName | BringUp

  // Those after which the VF has another name.
  predicate AfterRenaming(call: SetupCall) {
    !call.LookUpVf? && !call.TakeDown? && !call.SetTempName?
  }

  // VF i when that call fails: all calls before it have had their effect.
  function SetupUpTo(l: Link, i: int, c: PluginConf, podifName: string, netns: nat, call: SetupCall): Link {
    var hidden := l.(up := false, name := TempName(i));
    match call
    case LookUpVf => l
    case TakeDown => l
    case SetTempName => l.(up := false)
    case SetMac => hidden
    case SetMtu => hidden.(mac := if c.mac.Addr? then c.mac.mac else l.mac)
    case ChangeNetns => Dressed(hidden, c)
    case EnterNetns => Dressed(hidden, c).(netns := netns, master := 0)
    case SetPodName => Dressed(hidden, c).(netns := netns, master := 0)
    case BringUp => Dressed(hidden, c).(netns := netns, master := 0, name := podifName)
  }

  // The kernel state then.
  ghost predicate SetupFailed(k: State, k2: State, c: PluginConf, podifName: string, netns: nat, call: SetupCall) {
    var i := Find(k.links, c.origVfState.hostIFName, 0);
    if call.LookUpVf? then k2 == k
    else
      && i in k.links
      && k2.links == k.links[i := SetupUpTo(k.links[i], i, c, podifName, netns, call)]
      && k2.ports == if call.EnterNetns? || call.SetPodName? || call.BringUp? then k.ports - {i} else k.ports
  }

  // The last three steps, from the dressed VF l.
  lemma SetupFailedInMove(k: State, k2: State, l: Link, c: PluginConf, podifName: string, netns: nat, call: SetupCall)
    requires var i := Find(k.links, c.origVfState.hostIFName, 0);
             i in k.links && l == Dressed(k.links[i].(up := false, name := TempName(i)), c) && l.index == i
    requires call.ChangeNetns? || call.EnterNetns? || call.SetPodName? || call.BringUp?
    requires call.ChangeNetns? ==> k2 == SetLink(k, l)
    requires !call.ChangeNetns? ==>
               k2 == State(SetLink(k, l).links[l.index := l.(
                             name := if call.BringUp? then podifName else l.name, netns := netns, master := 0)],
                           k.ports - {l.index})
    ensures SetupFailed(k, k2, c, podifName, netns, call)
  {
  }

  // The check at the top of ReleaseVF.
  predicate ReleaseRefused(c: PluginConf) {
    |c.contIFNames| < 1 && |c.contIFNames| != |c.origVfState.hostIFName|
  }

  ghost predicate ReleaseSucceeded(k: State, k2: State, c: PluginConf, podifName: string, netns: nat) {
    var i := Find(k.links, podifName, netns);
    i in k.links && k2 == Released(k, i, c)
  }

  ghost predicate ReleaseFailed(k: State, k2: State, c: PluginConf, podifName: string, netns: nat, renamed: bool) {
    var i := Find(k.links, podifName, netns);
    if renamed then
      i in k.links && OnlyLink(k, k2, i) && Is(k2.links, i, c.origVfState.hostIFName, netns)
    else
      k2 == k || (i in k.links && k2 == SetLink(k, k.links[i].(up := false)))
  }
}
