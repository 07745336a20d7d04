/**
 Hosts on which ADD and DEL do not give the uplink back the table it had: one for
 each half of the condition; and a host whose uplink is a bond.
 */
module UplinkInputs {
  import opened Wrappers
  import opened VlanLists
  import opened Kernel
  import opened Types
  import opened Effects
  import opened AttachDetach
  import opened Promises

  // A configured VLAN that was on the uplink and that no other port carries is gone.
  lemma LoneVlanIsLost(k: State, c: PluginConf, v: int)
    requires c.netConf.setUplinkVlan && UplinkOf(k.links, c) in k.ports && v in ConfVids(c)
    requires !CarriedElsewhere(k, UplinkOf(k.links, c), v)
    ensures v !in PortsAfterBoth(k, c)[UplinkOf(k.links, c)].vids
  {
  }

  // A bridge with the PF as its uplink, the tables as the kernel makes them, and
  // the same with one more port.
  const BRIDGE := Link(1, "b", 0, 1500, 11, true, 0, Bridge, map[])
  const PF := Link(2, "pf", 0, 1500, 12, true, 1, Device, map[0 := 13])
  const PORT := Link(3, "ens", 0, 1500, 14, true, 1, Device, map[])
  const LONELY := State(map[1 := BRIDGE, 2 := PF], map[2 := DEFAULT_PORT])
  const SHARED := State(map[1 := BRIDGE, 2 := PF, 3 := PORT], map[2 := DEFAULT_PORT, 3 := DEFAULT_PORT])

  // Vlan 1 with setUplinkVlan.
  const CONF := ZERO_CONF.(netConf := ZERO_NET_CONF.(vlan := 1, setUplinkVlan := true), pfName := "pf")

  lemma LonelyIsValid()
    ensures Valid(LONELY) && UplinkOf(LONELY.links, CONF) == 2
  {
    assert Ranked(LONELY.links, map[1 := 1, 2 := 0]);
    forall i, j, name, netns | Is(LONELY.links, i, name, netns) && Is(LONELY.links, j, name, netns) ensures i == j {
      assert |LONELY.links[i].name| == i && |LONELY.links[j].name| == j;
    }
    FindIs(LONELY, 2, "pf", 0);
  }

  lemma SharedIsValid()
    ensures Valid(SHARED) && UplinkOf(SHARED.links, CONF) == 2
  {
    assert Ranked(SHARED.links, map[1 := 1, 2 := 0, 3 := 0]);
    forall i, j, name, netns | Is(SHARED.links, i, name, netns) && Is(SHARED.links, j, name, netns) ensures i == j {
      assert |SHARED.links[i].name| == i && |SHARED.links[j].name| == j;
    }
    FindIs(SHARED, 2, "pf", 0);
  }

  lemma VlanOneIsConfigured()
    ensures ConfVids(CONF) == {1}
  {
    assert VlanList([], 1) == [1] && Vid(1) == 1;
  }

  // Nobody else carries VLAN 1: the uplink has lost it.
  lemma UplinkLosesVlan()
    ensures Valid(LONELY) && 2 in PortsAfterBoth(LONELY, CONF)
    ensures !VlansBalanced(LONELY, CONF, 2) && PortsAfterBoth(LONELY, CONF)[2].vids == {}
  {
    LonelyIsValid();
    VlanOneIsConfigured();
    LoneVlanIsLost(LONELY, CONF, 1);
    assert PortsAfterBoth(LONELY, CONF)[2].vids <= {1};
  }

  // Another port carries it: the VLAN is still there, but native no more.
  lemma UplinkLosesNativeVlan()
    ensures Valid(SHARED) && 2 in PortsAfterBoth(SHARED, CONF)
    ensures VlansBalanced(SHARED, CONF, 2) && !FlagsApart(SHARED, CONF, 2)
    ensures PortsAfterBoth(SHARED, CONF)[2].vids == {1} && PortsAfterBoth(SHARED, CONF)[2].pvid == None
  {
    SharedIsValid();
    VlanOneIsConfigured();
    assert CarriedElsewhere(SHARED, 2, 1) by {
      assert 3 in SHARED.ports && 1 in SHARED.ports[3].vids;
    }
    NativeVlanIsLost(SHARED, CONF, 3);
  }

  // The PF in a bond, and the bond on the bridge.
  const MEMBER := PF.(master := 4)
  const BOND := Link(4, "bond", 0, 1500, 15, true, 1, Bond, map[])
  const BONDED := State(map[1 := BRIDGE, 2 := MEMBER, 4 := BOND], map[4 := DEFAULT_PORT])

  lemma BondedIsValid()
    ensures Valid(BONDED)
  {
    assert Ranked(BONDED.links, map[1 := 2, 2 := 0, 4 := 1]);
    forall i, j, name, netns | Is(BONDED.links, i, name, netns) && Is(BONDED.links, j, name, netns) ensures i == j {
      assert |BONDED.links[i].name| == i && |BONDED.links[j].name| == j;
    }
  }

  // The bond gets the VLANs; the PF is no bridge port at all.
  lemma BondGetsVlans()
    ensures Valid(BONDED) && 2 !in BONDED.ports
    ensures forall u :: IsUplink(BONDED, "pf", u) <==> u == 4
    ensures WithUplink(BONDED, CONF) == SetPort(BONDED, 4, PortVlans({1}, None, {}))
  {
    BondedIsValid();
    FindIs(BONDED, 2, "pf", 0);
    VlanOneIsConfigured();
    assert Is(BONDED.links, 2, "pf", 0) && StandsFor(BONDED.links, 4, 2);
    forall u | IsUplink(BONDED, "pf", u) ensures u == 4 {
      UplinkIsUplinkOf(BONDED, CONF, u);
    }
    assert Tag(DEFAULT_PORT, {1}) == PortVlans({1}, None, {});
  }
}
