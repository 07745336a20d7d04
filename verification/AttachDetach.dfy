/**
 A detach takes off again what the attach had put on, the uplink included.
 */
module AttachDetach {
  import opened Kernel
  import opened Types
  import opened Effects

  // The tables after ADD and DEL: the uplink has what it had, the added VLANs
  // that no other port carries taken away again.
  ghost function PortsAfterBoth(k: State, c: PluginConf): map<int, PortVlans> {
    var u := UplinkOf(k.links, c);
    if c.netConf.setUplinkVlan && u in k.ports then
      k.ports[u := Without(Tag(k.ports[u], ConfVids(c)), UnusedVids(k, u, ConfVids(c)))]
    else k.ports
  }

  // Each configured VLAN was on u before if and only if another port carries it.
  ghost predicate VlansBalanced(k: State, c: PluginConf, u: int)
    requires u in k.ports
  {
    forall v :: v in ConfVids(c) ==> (v in k.ports[u].vids <==> CarriedElsewhere(k, u, v))
  }

  // No configured VLAN is the native VLAN of u or untagged on it.
  ghost predicate FlagsApart(k: State, c: PluginConf, u: int)
    requires u in k.ports
  {
    && (k.ports[u].pvid.Some? ==> k.ports[u].pvid.value !in ConfVids(c))
    && k.ports[u].untagged !! ConfVids(c)
  }

  // When the uplink ends up with the VLANs it had.
  lemma UplinkVlansAreRestoredIff(k: State, c: PluginConf)
    requires c.netConf.setUplinkVlan && UplinkOf(k.links, c) in k.ports
    ensures var u := UplinkOf(k.links, c);
            PortsAfterBoth(k, c)[u].vids == k.ports[u].vids <==> VlansBalanced(k, c, u)
  {
    var u := UplinkOf(k.links, c);
    var now := PortsAfterBoth(k, c)[u].vids;
    forall v | v in ConfVids(c) ensures v in now <==> CarriedElsewhere(k, u, v) {
    }
    forall v | v !in ConfVids(c) ensures v in now <==> v in k.ports[u].vids {
    }
  }

  // When it keeps its native VLAN and its untagged VLANs: adding a VLAN as
  // tagged clears these flags, and nothing sets them again.
  lemma UplinkFlagsAreRestoredIff(k: State, c: PluginConf)
    requires c.netConf.setUplinkVlan && UplinkOf(k.links, c) in k.ports
    ensures var u := UplinkOf(k.links, c);
            var t := PortsAfterBoth(k, c)[u];
            (t.pvid == k.ports[u].pvid && t.untagged == k.ports[u].untagged) <==> FlagsApart(k, c, u)
  {
    var u := UplinkOf(k.links, c);
    var t := k.ports[u];
    var unused := UnusedVids(k, u, ConfVids(c));
    assert unused <= ConfVids(c);
    assert PortsAfterBoth(k, c)[u].untagged == t.untagged - ConfVids(c);
    assert t.untagged - ConfVids(c) == t.untagged <==> t.untagged !! ConfVids(c) by {
      if t.untagged - ConfVids(c) == t.untagged {
        assert forall v :: v in t.untagged ==> v in t.untagged - ConfVids(c);
      }
    }
  }

  // All tables are as before ADD and DEL exactly when the uplink's VLANs were
  // balanced and no configured VLAN was native or untagged on it.
  lemma UplinkIsRestoredIff(k: State, c: PluginConf)
    requires c.netConf.setUplinkVlan && UplinkOf(k.links, c) in k.ports
    ensures var u := UplinkOf(k.links, c);
            PortsAfterBoth(k, c) == k.ports <==> VlansBalanced(k, c, u) && FlagsApart(k, c, u)
  {
    var u := UplinkOf(k.links, c);
    UplinkVlansAreRestoredIff(k, c);
    UplinkFlagsAreRestoredIff(k, c);
    assert PortsAfterBoth(k, c) == k.ports[u := PortsAfterBoth(k, c)[u]];
    assert PortsAfterBoth(k, c)[u] == k.ports[u] ==> PortsAfterBoth(k, c) == k.ports;
  }

  // A native VLAN that is configured with setUplinkVlan is native no more, even
  // when other ports keep the VLAN itself on the uplink.
  lemma NativeVlanIsLost(k: State, c: PluginConf, q: int)
    requires c.netConf.setUplinkVlan && UplinkOf(k.links, c) in k.ports
    requires var t := k.ports[UplinkOf(k.links, c)];
             t.pvid.Some? && t.pvid.value in ConfVids(c) && t.pvid.value in t.vids
    requires var u := UplinkOf(k.links, c);
             && u in k.links && q != u && q in k.links && q in k.ports
             && k.links[q].master == k.links[u].master && k.ports[u].pvid.value in k.ports[q].vids
    ensures var u := UplinkOf(k.links, c);
            var t := PortsAfterBoth(k, c)[u];
            t.pvid.None? && k.ports[u].pvid.value in t.vids
  {
    var u := UplinkOf(k.links, c);
    assert CarriedElsewhere(k, u, k.ports[u].pvid.value);
  }

  // Masters decide who carries a VLAN elsewhere, other attributes do not.
  lemma SameMastersSameCarriers(k: State, k2: State, u: int, v: int)
    requires k2.links.Keys == k.links.Keys
    requires forall j :: j in k.links ==> k2.links[j].master == k.links[j].master
    requires forall q :: q != u ==> (q in k2.ports <==> q in k.ports) && (q in k.ports ==> k2.ports[q] == k.ports[q])
    ensures CarriedElsewhere(k2, u, v) <==> CarriedElsewhere(k, u, v)
  {
  }

  lemma SameUplink(k: State, links2: map<int, Link>, c: PluginConf, pf: int)
    requires Valid(k) && Is(k.links, pf, c.pfName, 0) && links2.Keys == k.links.Keys
    requires forall j :: j in k.links ==> links2[j].name == k.links[j].name && links2[j].netns == k.links[j].netns
                                          && links2[j].kind == k.links[j].kind
    requires links2[pf].master == k.links[pf].master
    ensures UplinkOf(links2, c) == UplinkOf(k.links, c)
  {
    FindIs(k, pf, c.pfName, 0);
    FindIsKept(k, links2, pf, c.pfName, 0);
  }

  lemma TagNothing(ports: map<int, PortVlans>, u: int)
    requires u in ports
    ensures ports[u := Tag(ports[u], {})] == ports && ports[u := Without(ports[u], {})] == ports
  {
    assert Tag(ports[u], {}) == ports[u] && Without(ports[u], {}) == ports[u];
  }

  // The state with the representor unplugged again, before the uplink is pruned.
  lemma UnpluggedAfterAttach(k: State, c: PluginConf, r: int, b: int)
    requires Valid(k) && r in k.links && k.links[r].master == 0 && UplinkOf(k.links, c) != r
    ensures var on := SetPort(Enslaved(k, r, b, c), r, Configured(BasePort(k, r, b), c.trunk, c.netConf.vlan));
            && Tagged(on, UplinkOf(k.links, c), ConfVids(c)).ports - {r}
               == Tagged(k, UplinkOf(k.links, c), ConfVids(c)).ports
            && on.ports - {r} == k.ports
  {
    NoPortWithoutMaster(k, r);
  }

  lemma PruneAfterExtend(k: State, off: State, c: PluginConf, u: int, vs: set<int>)
    requires off.links.Keys == k.links.Keys
    requires forall j :: j in k.links ==> off.links[j].master == k.links[j].master
    requires off.ports == Tagged(k, u, vs).ports
    ensures Removed(off, u, UnusedVids(off, u, vs)).ports
            == if u in k.ports then k.ports[u := Without(Tag(k.ports[u], vs), UnusedVids(k, u, vs))] else k.ports
  {
    forall v ensures CarriedElsewhere(off, u, v) <==> CarriedElsewhere(k, u, v) {
      SameMastersSameCarriers(k, off, u, v);
    }
    assert UnusedVids(off, u, vs) == UnusedVids(k, u, vs);
    if u in k.ports {
      if vs == {} {
        assert UnusedVids(k, u, vs) == {};
        TagNothing(k.ports, u);
        assert Without(Tag(k.ports[u], vs), {}) == k.ports[u];
      } else if UnusedVids(k, u, vs) == {} {
        assert Without(Tag(k.ports[u], vs), {}) == Tag(k.ports[u], vs);
      }
    }
  }

  lemma AttachedPorts(k: State, c: PluginConf, r: int, pf: int)
    requires Valid(k) && Is(k.links, r, c.representor, 0) && Is(k.links, pf, c.pfName, 0) && r != pf
    requires k.links[r].master == 0 && k.links[r].kind.Device?
    ensures Attached(k, c).ports - {r}
            == if c.netConf.setUplinkVlan then Tagged(k, UplinkOf(k.links, c), ConfVids(c)).ports else k.ports
  {
    var b := Find(k.links, c.actualBridge, 0);
    FindIs(k, r, c.representor, 0);
    FindIs(k, pf, c.pfName, 0);
    assert LinkOk(k.links, pf);
    SameUplink(k, Joined(k, r, b, c).links, c, pf);
    UnpluggedAfterAttach(k, c, r, b);
  }

  // k3 is k with the representor on the bridge; attributes that do not matter
  // here may differ.
  ghost predicate OnTheBridge(k: State, k3: State, c: PluginConf, r: int, b: int) {
    && r in k.links && k3.links.Keys == k.links.Keys
    && k3.links[r] == Prepared(k.links[r], c).(master := b)
    && (forall j :: j in k.links && j != r ==>
          && k3.links[j].name == k.links[j].name && k3.links[j].netns == k.links[j].netns
          && k3.links[j].kind == k.links[j].kind && k3.links[j].master == k.links[j].master)
    && k3.ports == Attached(k, c).ports
  }

  // What a detach takes off again is what the attach had put on.
  ghost predicate Detachable(k: State, c: PluginConf, r: int, pf: int) {
    && Valid(k) && Is(k.links, r, c.representor, 0) && Is(k.links, pf, c.pfName, 0) && r != pf
    && k.links[r].master == 0 && k.links[r].kind.Device?
    && (c.mtu != 0 ==> c.origRepState.mtu == k.links[r].mtu)
  }

  lemma UnplugUndoesAttach(k: State, k3: State, c: PluginConf, r: int, b: int, pf: int)
    requires Detachable(k, c, r, pf) && OnTheBridge(k, k3, c, r, b)
    ensures Find(k3.links, c.representor, 0) == r
    ensures var off := Unplugged(k3, r, c);
            && off.links == k3.links[r := k.links[r].(up := false)]
            && UplinkOf(off.links, c) == UplinkOf(k.links, c)
            && forall j :: j in k.links ==> off.links[j].master == k.links[j].master
  {
    assert LinkOk(k.links, r) && LinkOk(k.links, pf);
    FindIsKept(k, k3.links, r, c.representor, 0);
    SameUplink(k, Unplugged(k3, r, c).links, c, pf);
  }

  lemma DetachUndoesAttach(k: State, k3: State, c: PluginConf, r: int, b: int, pf: int)
    requires Detachable(k, c, r, pf) && OnTheBridge(k, k3, c, r, b)
    ensures Detached(k3, c) == State(k3.links[r := k.links[r].(up := false)], PortsAfterBoth(k, c))
  {
    UnplugUndoesAttach(k, k3, c, r, b, pf);
    AttachedPorts(k, c, r, pf);
    if c.netConf.setUplinkVlan {
      PruneAfterExtend(k, Unplugged(k3, r, c), c, UplinkOf(k.links, c), ConfVids(c));
    }
  }
}
