/**
 A successful ADD followed by a successful DEL, which has only the cache to go by.
 */
module RoundTrip {
  import opened Kernel
  import opened Types
  import opened Effects
  import opened Cache
  import opened AttachDetach
  import opened Lifecycle

  // The PF with the requested administrative MAC address.
  function WithAdmin(l: Link, c: PluginConf): Link {
    if c.mac.Addr? then l.(vfs := l.vfs[c.vfID := c.mac.mac]) else l
  }

  // The links an ADD leaves behind.
  function LinksAfterAdd(k: State, c: PluginConf, r: int, b: int, pf: int, vf: int, a: Attachment,
                         netns: nat): map<int, Link>
    requires r in k.links && pf in k.links && (!c.isUserspaceDriver ==> vf in k.links)
  {
    var on := k.links[r := Prepared(k.links[r], c).(master := b)][pf := WithAdmin(k.links[pf], c)];
    if c.isUserspaceDriver then on
    else on[vf := Dressed(k.links[vf], c).(name := a.ifName, netns := netns, up := true, master := 0)]
  }

  // What DEL needs to know about the ADD before it: c is the configuration it saved.
  ghost predicate AddLeft(k: State, k2: State, c: PluginConf, r: int, b: int, pf: int, vf: int, a: Attachment,
                          netns: nat) {
    && Valid(k) && Valid(k2)
    && ThreeDevices(k, c, r, pf, vf)
    && !c.mac.Malformed?
    && (c.mtu != 0 ==> c.origRepState.mtu == k.links[r].mtu)
    && c.vfID in k.links[pf].vfs && c.origVfState.adminMAC == Addr(k.links[pf].vfs[c.vfID])
    && (!c.isUserspaceDriver ==>
          && (c.mac.Addr? ==> c.origVfState.effectiveMAC == Addr(k.links[vf].mac))
          && (c.mtu != 0 ==> c.origVfState.mtu == k.links[vf].mtu))
    && k2.links == LinksAfterAdd(k, c, r, b, pf, vf, a, netns)
  }

  // After AttachRepresentor.
  lemma AttachShape(k: State, k1: State, c: PluginConf, c1: PluginConf, r: int, pf: int)
    requires Valid(k) && Valid(k1) && AttachSucceeded(k, k1, c, c1)
    requires Is(k.links, r, c1.representor, 0) && Is(k.links, pf, c.pfName, 0) && r != pf
    ensures Find(k.links, c1.representor, 0) == r && k.links[r].kind.Device?
    ensures c.mtu != 0 ==> c1.origRepState.mtu == k.links[r].mtu
    ensures k1 == State(k.links[r := Prepared(k.links[r], c).(master := Find(k.links, c.actualBridge, 0))],
                        Attached(k, c1).ports)
    ensures Find(k1.links, c.pfName, 0) == pf && k1.links[pf] == k.links[pf] && k.links[pf].index == pf
  {
    FindIs(k, r, c1.representor, 0);
    assert LinkOk(k.links, r) && LinkOk(k.links, pf);
    FindIs(k1, pf, c.pfName, 0);
  }

  // After AttachRepresentor and ApplyVFConfig.
  lemma HostShape(k: State, k3: State, c: PluginConf, st: Steps, a: Attachment, netns: nat, r: int, pf: int, vf: int)
    requires DevicesAdded(k, k3, c, st, a.ifName, netns) && ThreeDevices(k, st.c1, r, pf, vf)
    ensures Find(k.links, st.c1.representor, 0) == r && k.links[r].kind.Device?
    ensures st.c1 == c.(representor := st.c1.representor, origRepState := st.c1.origRepState)
    ensures c.mtu != 0 ==> st.c1.origRepState.mtu == k.links[r].mtu
    ensures c.vfID in k.links[pf].vfs && !c.mac.Malformed?
    ensures st.c2 == st.c1.(origVfState := st.c1.origVfState.(adminMAC := Addr(k.links[pf].vfs[c.vfID])))
    ensures st.k2 == State(k.links[r := Prepared(k.links[r], c).(master := Find(k.links, c.actualBridge, 0))]
                                    [pf := WithAdmin(k.links[pf], c)],
                           Attached(k, st.c1).ports)
  {
    AttachShape(k, st.k1, c, st.c1, r, pf);
    assert st.k1.links[pf := st.k1.links[pf]] == st.k1.links;
  }

  lemma AddShape(k: State, k3: State, c: PluginConf, st: Steps, a: Attachment, netns: nat, r: int, pf: int, vf: int)
    requires DevicesAdded(k, k3, c, st, a.ifName, netns) && ThreeDevices(k, st.c1, r, pf, vf)
    ensures AddLeft(k, k3, st.c3, r, Find(k.links, c.actualBridge, 0), pf, vf, a, netns)
    ensures k3.ports == Attached(k, st.c3).ports && k.links[r].kind.Device?
  {
    HostShape(k, k3, c, st, a, netns, r, pf, vf);
    assert Attached(k, st.c3).ports == Attached(k, st.c1).ports;
    if !c.isUserspaceDriver {
      FindIs(st.k2, vf, c.origVfState.hostIFName, 0);
      NoPortWithoutMaster(st.k2, vf);
      assert st.k2.ports - {vf} == st.k2.ports;
    }
  }

  // Nothing that DEL looks at is lost in the cache.
  lemma DelFinalOfStored(w: World, c: PluginConf, a: Attachment, netns: nat)
    ensures DelFinal(w, Stored(c), a, netns) == DelFinal(w, c, a, netns)
  {
    var s, k1 := Stored(c), Detached(w.k, c);
    assert Detached(w.k, s) == k1;
    assert Released(k1, Find(k1.links, a.ifName, netns), s) == Released(k1, Find(k1.links, a.ifName, netns), c);
    assert VfHome(w.k, s, a, netns) == VfHome(w.k, c, a, netns);
  }

  // The links as they were, representor and VF down.
  function BothDown(k: State, c: PluginConf, r: int, vf: int): map<int, Link> {
    var down := Down(k, r);
    if c.isUserspaceDriver then down.links else Down(down, vf).links
  }

  lemma DetachAfterAdd(k: State, k2: State, c: PluginConf, r: int, b: int, pf: int, vf: int, a: Attachment, netns: nat)
    requires AddLeft(k, k2, c, r, b, pf, vf, a, netns)
    ensures r in k2.links && Find(k2.links, c.representor, 0) == r
    ensures Detached(k2, c).links == k2.links[r := k.links[r].(up := false)]
  {
    FindIs(k2, r, c.representor, 0);
    assert LinkOk(k.links, r);
  }

  lemma ReleaseAfterAdd(k: State, k2: State, c: PluginConf, r: int, b: int, pf: int, vf: int, a: Attachment, netns: nat)
    requires AddLeft(k, k2, c, r, b, pf, vf, a, netns) && !c.isUserspaceDriver
    ensures var k3 := Detached(k2, c);
            && Find(k3.links, a.ifName, netns) == vf
            && Released(k3, vf, c).links == k3.links[vf := k.links[vf].(up := false)]
  {
    DetachAfterAdd(k, k2, c, r, b, pf, vf, a, netns);
    assert LinkOk(k.links, r);
    FindIsKept(k2, Detached(k2, c).links, vf, a.ifName, netns);
  }

  lemma AdminIsRestored(l: Link, c: PluginConf)
    requires c.vfID in l.vfs && c.origVfState.adminMAC == Addr(l.vfs[c.vfID]) && !c.mac.Malformed?
    ensures var p := WithAdmin(l, c);
            (if c.mac.Unset? then p else p.(vfs := p.vfs[c.vfID := c.origVfState.adminMAC.mac])) == l
  {
    if c.mac.Addr? {
      assert l.vfs[c.vfID := c.mac.mac][c.vfID := l.vfs[c.vfID]] == l.vfs;
    }
  }

  // Links r and vf down, the PF as it was.
  lemma AdminAfterAdd(k: State, k4: State, c: PluginConf, r: int, pf: int, vf: int)
    requires Valid(k) && Is(k.links, pf, c.pfName, 0) && !c.mac.Malformed?
    requires c.vfID in k.links[pf].vfs && c.origVfState.adminMAC == Addr(k.links[pf].vfs[c.vfID])
    requires ThreeDevices(k, c, r, pf, vf)
    requires k4.links == BothDown(k, c, r, vf)[pf := WithAdmin(k.links[pf], c)]
    ensures AdminReset(k4, c).links == BothDown(k, c, r, vf)
    ensures AdminReset(k4, c).ports == k4.ports
  {
    var down := BothDown(k, c, r, vf);
    assert LinkOk(k.links, pf);
    assert forall j :: j in k4.links ==>
             j in k.links && k4.links[j].name == k.links[j].name && k4.links[j].netns == k.links[j].netns;
    FindIsKept(k, k4.links, pf, c.pfName, 0);
    AdminIsRestored(k.links[pf], c);
    assert down[pf] == k.links[pf];
    assert c.mac.Unset? ==> k4.links == down;
  }

  lemma VfHomeLinks(k: State, k2: State, c: PluginConf, r: int, b: int, pf: int, vf: int, a: Attachment, netns: nat)
    requires AddLeft(k, k2, c, r, b, pf, vf, a, netns)
    ensures VfHome(k2, c, a, netns).links == BothDown(k, c, r, vf)[pf := WithAdmin(k.links[pf], c)]
  {
    DetachAfterAdd(k, k2, c, r, b, pf, vf, a, netns);
    if !c.isUserspaceDriver {
      ReleaseAfterAdd(k, k2, c, r, b, pf, vf, a, netns);
    }
  }

  // The links after ADD and DEL are the links before, up flags excepted.
  lemma LinksAreRestored(k: State, k2: State, c: PluginConf, r: int, b: int, pf: int, vf: int, a: Attachment,
                         netns: nat)
    requires AddLeft(k, k2, c, r, b, pf, vf, a, netns)
    ensures AdminReset(VfHome(k2, c, a, netns), c).links == BothDown(k, c, r, vf)
  {
    VfHomeLinks(k, k2, c, r, b, pf, vf, a, netns);
    AdminAfterAdd(k, VfHome(k2, c, a, netns), c, r, pf, vf);
  }

  lemma TablesAreRestored(k: State, k2: State, c: PluginConf, r: int, b: int, pf: int, vf: int, a: Attachment,
                          netns: nat)
    requires AddLeft(k, k2, c, r, b, pf, vf, a, netns)
    requires k2.ports == Attached(k, c).ports && k.links[r].kind.Device?
    ensures Detached(k2, c).ports == PortsAfterBoth(k, c)
  {
    DetachAfterAdd(k, k2, c, r, b, pf, vf, a, netns);
    AttachedPorts(k, c, r, pf);
    MastersAfterAdd(k, k2, c, r, b, pf, vf, a, netns);
    UplinkAfterUnplug(k, k2, c, r, pf);
    if c.netConf.setUplinkVlan {
      PruneAfterExtend(k, Unplugged(k2, r, c), c, UplinkOf(k.links, c), ConfVids(c));
    }
  }

  // What the detach does not look at may have changed since the attach.
  lemma UplinkAfterUnplug(k: State, k2: State, c: PluginConf, r: int, pf: int)
    requires Valid(k) && Valid(k2) && k2.links.Keys == k.links.Keys
    requires r in k.links && k.links[r].master == 0 && r != pf
    requires Is(k.links, pf, c.pfName, 0) && Is(k2.links, pf, c.pfName, 0)
    requires forall j :: j in k.links && j != r ==>
               k2.links[j].master == k.links[j].master && k2.links[j].kind == k.links[j].kind
    requires k2.links[r].kind == k.links[r].kind
    ensures var off := Unplugged(k2, r, c);
            && UplinkOf(off.links, c) == UplinkOf(k.links, c)
            && off.links.Keys == k.links.Keys
            && forall j :: j in k.links ==> off.links[j].master == k.links[j].master
  {
    var off := Unplugged(k2, r, c);
    assert LinkOk(k2.links, r);
    FindIs(k, pf, c.pfName, 0);
    FindIsKept(k2, off.links, pf, c.pfName, 0);
  }

  // Masters after an ADD: only the representor has got one.
  lemma MastersAfterAdd(k: State, k2: State, c: PluginConf, r: int, b: int, pf: int, vf: int, a: Attachment, netns: nat)
    requires AddLeft(k, k2, c, r, b, pf, vf, a, netns)
    ensures k2.links.Keys == k.links.Keys && Is(k2.links, pf, c.pfName, 0)
    ensures forall j :: j in k.links ==> k2.links[j].kind == k.links[j].kind
    ensures forall j :: j in k.links && j != r ==> k2.links[j].master == k.links[j].master
  {
  }

  lemma VfHomePorts(k: State, k2: State, c: PluginConf, r: int, b: int, pf: int, vf: int, a: Attachment, netns: nat)
    requires AddLeft(k, k2, c, r, b, pf, vf, a, netns)
    requires k2.ports == Attached(k, c).ports && k.links[r].kind.Device?
    ensures AdminReset(VfHome(k2, c, a, netns), c).ports == PortsAfterBoth(k, c)
  {
    TablesAreRestored(k, k2, c, r, b, pf, vf, a, netns);
    if !c.isUserspaceDriver {
      ReleaseAfterAdd(k, k2, c, r, b, pf, vf, a, netns);
      NoPortWithoutMaster(k, vf);
      assert PortsAfterBoth(k, c) - {vf} == PortsAfterBoth(k, c);
    }
  }

  lemma KernelIsRestored(k: State, k3: State, c: PluginConf, st: Steps, a: Attachment, netns: nat, r: int, pf: int,
                         vf: int)
    requires DevicesAdded(k, k3, c, st, a.ifName, netns) && ThreeDevices(k, st.c1, r, pf, vf)
    ensures AdminReset(VfHome(k3, st.c3, a, netns), st.c3) == State(BothDown(k, c, r, vf), PortsAfterBoth(k, c))
  {
    AddShape(k, k3, c, st, a, netns, r, pf, vf);
    var b := Find(k.links, c.actualBridge, 0);
    LinksAreRestored(k, k3, st.c3, r, b, pf, vf, a, netns);
    VfHomePorts(k, k3, st.c3, r, b, pf, vf, a, netns);
    assert PortsAfterBoth(k, c) == PortsAfterBoth(k, st.c3);
    assert BothDown(k, c, r, vf) == BothDown(k, st.c3, r, vf);
  }

  lemma DelFinalIs(w: World, w2: World, c: PluginConf, now: State, d: Document, a: Attachment, netns: nat)
    requires AdminReset(VfHome(w2.k, c, a, netns), c) == now
    requires a !in w.leases && StateRef(a) !in w.files
    requires w2.files == w.files[StateRef(a) := d]
    requires w2.leases == if c.netConf.ipamType != "" then w.leases + {a} else w.leases
    ensures DelFinal(w2, c, a, netns) == World(now, w.leases, w.files)
  {
    assert w.leases + {a} - {a} == w.leases;
    assert w2.files - {StateRef(a)} == w.files;
  }

  // ADD and then DEL, by another process that knows only the cache: names,
  // namespaces, MAC addresses, MTUs, masters, leases and cache files are as
  // before; the up flags of representor and VF are off.
  lemma AddThenDelRestores(w: World, w2: World, c: PluginConf, st: Steps, a: Attachment, netns: nat, r: int, pf: int,
                           vf: int)
    requires AddSucceeded(w, w2, c, st, a, netns) && ThreeDevices(w.k, st.c1, r, pf, vf)
    requires a !in w.leases && StateRef(a) !in w.files
    ensures StateRef(a) in w2.files
    ensures DelFinal(w2, Unmarshal(w2.files[StateRef(a)], ZERO_CONF), a, netns)
            == World(State(BothDown(w.k, c, r, vf), PortsAfterBoth(w.k, c)), w.leases, w.files)
  {
    KernelIsRestored(w.k, w2.k, c, st, a, netns, r, pf, vf);
    SavedFields(w, w2, c, st, a, netns);
    DelFinalIs(w, w2, st.c3, State(BothDown(w.k, c, r, vf), PortsAfterBoth(w.k, c)), Marshal(st.c3), a, netns);
    CacheRoundTrip(st.c3);
    DelFinalOfStored(w2, st.c3, a, netns);
  }
}
