/**
 One ADD and the DELs that follow it, as functions of the whole state: kernel,
 IPAM leases and cache directory.
 */
module Lifecycle {
  import opened Kernel
  import opened Types
  import opened Effects
  import opened Cache

  datatype World = World(k: State, leases: set<Attachment>, files: map<string, Document>)

  // States and configurations between the steps of a CmdAdd.
  datatype Steps = Steps(
    unplugged: bool,                      // a failed attach took the representor off the bridge again
    added: set<int>,                      // VLANs a failed attach left on the uplink
    k1: State, c1: PluginConf,            // after the attach
    k2: State, c2: PluginConf,            // after the VF configuration
    call: SetupCall,                      // the call at which a failed VF setup stopped
    c3: PluginConf)                       // after the VF setup

  // VF configuration and VF setup went through, from the state k1 and the
  // configuration c1 after the attach.
  ghost predicate VfAdded(k1: State, k3: State, c1: PluginConf, st: Steps, ifName: string, netns: nat) {
    && Valid(st.k2)
    && ApplySucceeded(k1, st.k2, c1, st.c2)
    && (if c1.isUserspaceDriver then k3 == st.k2 && st.c3 == st.c2
        else SetupSucceeded(st.k2, k3, st.c2, st.c3, ifName, netns))
  }

  // So did the attach before them.
  ghost predicate DevicesAdded(k: State, k3: State, c: PluginConf, st: Steps, ifName: string, netns: nat) {
    && Valid(k) && Valid(st.k1) && Valid(k3)
    && AttachSucceeded(k, st.k1, c, st.c1)
    && VfAdded(st.k1, k3, st.c1, st, ifName, netns)
  }

  // A CmdAdd in which IPAM and the cache went through as well.
  ghost predicate AddSucceeded(w: World, w2: World, c: PluginConf, st: Steps, a: Attachment, netns: nat) {
    && DevicesAdded(w.k, w2.k, c, st, a.ifName, netns)
    && w2.leases == (if c.netConf.ipamType != "" then w.leases + {a} else w.leases)
    && w2.files == w.files[StateRef(a) := Marshal(st.c3)]
  }

  lemma SavedFields(w: World, w2: World, c: PluginConf, st: Steps, a: Attachment, netns: nat)
    requires AddSucceeded(w, w2, c, st, a, netns)
    ensures st.c3.netConf == c.netConf && st.c3.isUserspaceDriver == c.isUserspaceDriver
    ensures w2.files == w.files[StateRef(a) := Marshal(st.c3)]
    ensures w2.leases == if c.netConf.ipamType != "" then w.leases + {a} else w.leases
  {
  }

  // The kernel state after the VF part of DEL.
  ghost function VfHome(k2: State, c: PluginConf, a: Attachment, netns: nat): State {
    var k3 := Detached(k2, c);
    if c.isUserspaceDriver then k3 else Released(k3, Find(k3.links, a.ifName, netns), c)
  }

  // The VF part of a DEL.
  ghost function VfPart(k: State, c: PluginConf, a: Attachment, netns: nat): State {
    AdminReset(if c.isUserspaceDriver then k else Released(k, Find(k.links, a.ifName, netns), c), c)
  }

  // A CmdDel in which every call succeeds, started with configuration c.
  ghost function DelFinal(w: World, c: PluginConf, a: Attachment, netns: nat): World {
    World(AdminReset(VfHome(w.k, c, a, netns), c),
          if c.netConf.ipamType != "" then w.leases - {a} else w.leases,
          w.files - {StateRef(a)})
  }

  // What the cached configuration must hold for a DEL to get through.
  predicate DelAccepts(c: PluginConf) {
    && (!c.isUserspaceDriver ==> !ReleaseRefused(c) && (c.mac.Unset? || c.origVfState.effectiveMAC.Addr?))
    && (c.mac.Unset? || c.origVfState.adminMAC.Addr?)
  }

  // Every configuration an ADD saves is one.
  lemma SavedConfIsAccepted(k: State, k3: State, c: PluginConf, st: Steps, ifName: string, netns: nat)
    requires DevicesAdded(k, k3, c, st, ifName, netns) && ifName != ""
    ensures DelAccepts(st.c3) && DelAccepts(Stored(st.c3))
  {
  }

  // PF, representor and VF are three links; representor and VF have no master.
  ghost predicate ThreeDevices(k: State, c: PluginConf, r: int, pf: int, vf: int) {
    && Is(k.links, r, c.representor, 0) && k.links[r].master == 0
    && Is(k.links, pf, c.pfName, 0) && r != pf
    && (!c.isUserspaceDriver ==>
          Is(k.links, vf, c.origVfState.hostIFName, 0) && k.links[vf].master == 0 && vf != r && vf != pf)
  }

  // What the steps on the links leave alone in the configuration.
  lemma AddedFields(k: State, k3: State, c: PluginConf, st: Steps, ifName: string, netns: nat)
    requires DevicesAdded(k, k3, c, st, ifName, netns)
    ensures var c3 := st.c3;
            && c3.netConf == c.netConf && c3.trunk == c.trunk && c3.mac == c.mac && c3.mtu == c.mtu
            && c3.pfName == c.pfName && c3.vfID == c.vfID && c3.actualBridge == c.actualBridge
            && c3.isUserspaceDriver == c.isUserspaceDriver
            && c3.origVfState.hostIFName == c.origVfState.hostIFName && c3.representor == st.c1.representor
    ensures st.c1 == c.(representor := st.c1.representor, origRepState := st.c1.origRepState)
  {
  }
}
