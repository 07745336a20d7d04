/**
 What the undo of CmdAdd would do if the namespace handle were closed after the
 handlers and not before them.  CmdAdd itself closes it first: see Rollback.
 */
module RollbackIfOpen {
  import opened Kernel
  import opened Types
  import opened Effects
  import opened Cache
  import opened Netlink
  import opened AttachDetach
  import opened Lifecycle
  import opened RoundTrip
  import opened Undo
  import opened Rollback

  lemma ReleaseFirst(k: State, k2: State, c: PluginConf, r: int, b: int, pf: int, vf: int, a: Attachment, netns: nat)
    requires AddLeft(k, k2, c, r, b, pf, vf, a, netns) && !c.isUserspaceDriver
    ensures Find(k2.links, a.ifName, netns) == vf && vf in k2.links
    ensures Released(k2, vf, c).links == k2.links[vf := k.links[vf].(up := false)]
  {
    FindIs(k2, vf, a.ifName, netns);
  }

  // The kernel state after the VF has been released and before the detach.
  ghost function VfBack(k2: State, c: PluginConf, a: Attachment, netns: nat): State {
    if c.isUserspaceDriver then k2 else Released(k2, Find(k2.links, a.ifName, netns), c)
  }

  lemma VfBackLinks(k: State, k2: State, c: PluginConf, r: int, b: int, pf: int, vf: int, a: Attachment, netns: nat)
    requires AddLeft(k, k2, c, r, b, pf, vf, a, netns)
    ensures VfBack(k2, c, a, netns).links
            == RolledBackLinks(k, c, r, pf, vf)[r := Prepared(k.links[r], c).(master := b)]
  {
    if !c.isUserspaceDriver {
      ReleaseFirst(k, k2, c, r, b, pf, vf, a, netns);
    }
  }

  lemma VfBackPorts(k: State, k2: State, c: PluginConf, r: int, b: int, pf: int, vf: int, a: Attachment, netns: nat)
    requires AddLeft(k, k2, c, r, b, pf, vf, a, netns)
    ensures VfBack(k2, c, a, netns).ports == k2.ports
  {
    if !c.isUserspaceDriver {
      ReleaseFirst(k, k2, c, r, b, pf, vf, a, netns);
      NoPortWithoutMaster(k2, vf);
      assert k2.ports - {vf} == k2.ports;
    }
  }

  lemma RolledBackIsOnTheBridge(k: State, k3: State, c: PluginConf, r: int, b: int, pf: int, vf: int)
    requires Valid(k) && ThreeDevices(k, c, r, pf, vf)
    requires k3.links == RolledBackLinks(k, c, r, pf, vf)[r := Prepared(k.links[r], c).(master := b)]
    requires k3.ports == Attached(k, c).ports
    ensures OnTheBridge(k, k3, c, r, b)
    ensures k3.links[r := k.links[r].(up := false)] == RolledBackLinks(k, c, r, pf, vf)
  {
    assert LinkOk(k.links, r) && LinkOk(k.links, pf);
  }

  lemma DetachRolledBack(k: State, k3: State, c: PluginConf, r: int, b: int, pf: int, vf: int)
    requires Valid(k) && ThreeDevices(k, c, r, pf, vf) && k.links[r].kind.Device?
    requires c.mtu != 0 ==> c.origRepState.mtu == k.links[r].mtu
    requires k3.links == RolledBackLinks(k, c, r, pf, vf)[r := Prepared(k.links[r], c).(master := b)]
    requires k3.ports == Attached(k, c).ports
    ensures Detached(k3, c) == State(RolledBackLinks(k, c, r, pf, vf), PortsAfterBoth(k, c))
  {
    assert LinkOk(k.links, r) && LinkOk(k.links, pf);
    RolledBackIsOnTheBridge(k, k3, c, r, b, pf, vf);
    DetachUndoesAttach(k, k3, c, r, b, pf);
  }

  lemma DetachVfBack(k: State, k2: State, c: PluginConf, r: int, b: int, pf: int, vf: int, a: Attachment, netns: nat)
    requires AddLeft(k, k2, c, r, b, pf, vf, a, netns)
    requires k2.ports == Attached(k, c).ports && k.links[r].kind.Device?
    ensures Detached(VfBack(k2, c, a, netns), c) == State(RolledBackLinks(k, c, r, pf, vf), PortsAfterBoth(k, c))
  {
    VfBackLinks(k, k2, c, r, b, pf, vf, a, netns);
    VfBackPorts(k, k2, c, r, b, pf, vf, a, netns);
    DetachRolledBack(k, VfBack(k2, c, a, netns), c, r, b, pf, vf);
  }

  lemma UndoneIfOpen(k: State, w: World, c: PluginConf, r: int, b: int, pf: int, vf: int, a: Attachment, netns: nat,
                     leased: bool)
    requires AddLeft(k, w.k, c, r, b, pf, vf, a, netns)
    requires w.k.ports == Attached(k, c).ports && k.links[r].kind.Device?
    requires c.isUserspaceDriver || !ReleaseRefused(c)
    ensures UndoneAll(Registered(c, leased), w, c, a, Opened(netns))
            == World(State(RolledBackLinks(k, c, r, pf, vf), PortsAfterBoth(k, c)),
                     if leased then w.leases - {a} else w.leases, w.files)
  {
    DetachVfBack(k, w.k, c, r, b, pf, vf, a, netns);
    UndoneRegistered(w, c, a, Opened(netns), leased);
  }

  // Then undoing an ADD that failed after VF setup would put all back as
  // before, except for up flags and, when a MAC address was requested, the
  // administrative MAC address.
  lemma UndoAfterSetupIfOpen(k: State, w: World, c: PluginConf, st: Steps, a: Attachment, netns: nat, leased: bool,
                             r: int, pf: int, vf: int)
    requires DevicesAdded(k, w.k, c, st, a.ifName, netns) && ThreeDevices(k, st.c1, r, pf, vf)
    requires st.c3.isUserspaceDriver || !ReleaseRefused(st.c3)
    ensures UndoneAll(Registered(st.c3, leased), w, st.c3, a, Opened(netns))
            == World(State(RolledBackLinks(k, st.c3, r, pf, vf), PortsAfterBoth(k, st.c3)),
                     if leased then w.leases - {a} else w.leases, w.files)
  {
    AddShape(k, w.k, c, st, a, netns, r, pf, vf);
    UndoneIfOpen(k, w, st.c3, r, Find(k.links, c.actualBridge, 0), pf, vf, a, netns, leased);
  }

  // The release would know the MAC address it has to put back.
  lemma MacIsRestorable(run: AddRun, w: World, a: Attachment, netns: nat)
    requires Outcome(run, w, a, netns) && a.ifName != ""
    ensures Release in run.handlers ==> MacRestorable(run.c)
  {
  }
}
