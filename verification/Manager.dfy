/** The link and bridge operations of pkg/manager/manager.go. */
module Manager {
  import opened VlanLists
  import opened Kernel
  import opened Netlink
  import opened Types
  import opened Effects
  import opened Promises

  lemma NoPortWhenChainEnds(k: State, u: int)
    requires Valid(k)
    ensures ChainEnds(k.links, u) ==> u !in k.ports
  {
    if u in k.ports {
      PortIsLink(k, u);
      assert LinkOk(k.links, k.links[u].master);
      assert MasterAt(k.links, u, 0) == u && MasterAt(k.links, u, 1) == k.links[u].master;
      assert FirstBridgeAt(k.links, u, 1, k.links[u].master);
      if ChainEnds(k.links, u) {
        NoParentWhenChainEnds(k.links, u, k.links[u].master);
      }
    }
  }

  // The links of the snapshot other than the uplink.
  method ExceptLink(links: seq<Link>, index: int) returns (rest: seq<Link>)
    ensures forall l :: l in rest <==> l in links && l.index != index
  {
    rest := [];
    var n := 0;
    while n < |links|
      invariant 0 <= n <= |links|
      invariant forall l :: l in rest <==> l in links[..n] && l.index != index
    {
      if links[n].index != index {
        rest := rest + [links[n]];
      }
      assert links[..n + 1] == links[..n] + [links[n]];
      n := n + 1;
    }
    assert links[..n] == links;
  }

  ghost predicate Carries(k: State, i: int, v: int) {
    i in k.ports && v in k.ports[i].vids
  }

  // Looking at the other links of the bridge finds what some other port carries.
  lemma OthersCarry(k: State, u: int, brif: seq<Link>, v: int)
    requires Valid(k) && u in k.ports && u in k.links && k.links[u].netns == 0
    requires forall l :: l in brif <==>
               l.index in k.links && k.links[l.index] == l && l.netns == 0 && l.master == k.links[u].master
               && l.index != u
    ensures CarriedElsewhere(k, u, v) <==> exists l :: l in brif && Carries(k, l.index, v)
  {
    if CarriedElsewhere(k, u, v) {
      var q :| q in k.ports && q != u && q in k.links && k.links[q].master == k.links[u].master && v in k.ports[q].vids;
      assert IsPort(k.links, u) && LinkOk(k.links, u) && LinkOk(k.links, q) && LinkOk(k.links, k.links[u].master);
      assert k.links[q] in brif && Carries(k, k.links[q].index, v);
    }
    if l :| l in brif && Carries(k, l.index, v) {
      assert IsPort(k.links, u);
    }
  }

  lemma UnusedAsVids(k: State, u: int, brif: seq<Link>, vlans: seq<int>, unused: seq<int>)
    requires Valid(k) && u in k.ports && u in k.links && k.links[u].netns == 0
    requires forall l :: l in brif <==>
               l.index in k.links && k.links[l.index] == l && l.netns == 0 && l.master == k.links[u].master
               && l.index != u
    requires forall v :: v in unused <==> v in vlans && !exists l :: l in brif && Carries(k, l.index, Vid(v))
    ensures Vids(unused) == UnusedVids(k, u, Vids(vlans))
  {
    forall v ensures v in unused <==> v in vlans && !CarriedElsewhere(k, u, Vid(v)) {
      OthersCarry(k, u, brif, Vid(v));
    }
    forall w | w in UnusedVids(k, u, Vids(vlans)) ensures w in Vids(unused) {
      var v :| v in vlans && Vid(v) == w;
      assert v in unused;
    }
  }

  // The nested search with its labelled break.
  method Search(ghost k: State, brif: seq<Link>, allbrif: map<int, seq<int>>, vlan: int) returns (found: bool)
    ensures allbrif == map[] ==> !found
    ensures (forall i :: i in allbrif <==> i in k.ports)
            && (forall i :: i in k.ports ==> Lists(allbrif[i], k.ports[i].vids))
            ==> (found <==> exists l :: l in brif && Carries(k, l.index, Vid(vlan)))
  {
    found := false;
    var i := 0;
    label foundvlan:
    while i < |brif|
      invariant 0 <= i <= |brif| && !found
      invariant forall j :: 0 <= j < i ==> brif[j].index in allbrif ==> Vid(vlan) !in allbrif[brif[j].index]
    {
      var infos := if brif[i].index in allbrif then allbrif[brif[i].index] else [];
      var j := 0;
      while j < |infos|
        invariant 0 <= j <= |infos| && !found
        invariant forall x :: 0 <= x < j ==> infos[x] != Vid(vlan)
      {
        if infos[j] == Vid(vlan) {
          found := true;
          assert brif[i] in brif;
          break foundvlan;
        }
        j := j + 1;
      }
      i := i + 1;
    }
  }

  // What is resolved is the uplink, or nothing that VLAN requests can be made on.
  lemma ResolvedUplink(k: State, c: PluginConf, uplink: Link)
    requires Valid(k) && (IsUplink(k, c.pfName, uplink.index) || uplink.index !in k.ports)
    ensures uplink.index == UplinkOf(k.links, c) || uplink.index !in k.ports
  {
    if IsUplink(k, c.pfName, uplink.index) {
      UplinkIsUplinkOf(k, c, uplink.index);
    }
  }

  class Manager {
    const h: Host

    constructor (h: Host)
      ensures this.h == h
    {
      this.h := h;
    }

    // The link the uplink VLANs go to.  When looking up the bond fails it is the
    // PF itself, which is then no bridge port.
    method ResolveUplink(c: PluginConf) returns (ok: bool, uplink: Link)
      requires Valid(h.k) && h.ns == 0
      modifies h`failures
      ensures h.failures >= old(h.failures)
      ensures ok ==> uplink.index in h.k.links && h.k.links[uplink.index] == uplink && uplink.netns == 0
      ensures ok ==>
                || IsUplink(h.k, c.pfName, uplink.index)
                || (Is(h.k.links, uplink.index, c.pfName, 0) && uplink.index !in h.k.ports
                    && h.failures > old(h.failures))
      ensures ok ==> UplinkOf(h.k.links, c) in h.k.links
      ensures !ok ==> h.failures > old(h.failures)
    {
      ok, uplink := h.LinkByName(c.pfName);
      if !ok {
        return;
      }
      assert LinkOk(h.k.links, uplink.index);
      assert uplink.index in h.k.ports <==> IsPort(h.k.links, uplink.index);
      var isMember, bond := GetParentBondForLink(h, uplink);
      if isMember {
        assert LinkOk(h.k.links, uplink.master);
        assert StandsFor(h.k.links, uplink.master, uplink.index);
        uplink := bond;
      } else if h.failures == old(h.failures) {
        assert StandsFor(h.k.links, uplink.index, uplink.index);
      }
    }

    method AddUplinkVlans(c: PluginConf) returns (ok: bool, ghost added: set<int>)
      requires Valid(h.k) && h.ns == 0 && !h.locked
      modifies h`k, h`failures, h`locked, h`locks, h`atLock, h`outside
      ensures Valid(h.k) && !h.locked && h.failures >= old(h.failures)
      ensures added <= ConfVids(c) && h.k == Tagged(old(h.k), UplinkOf(old(h.k).links, c), added)
      ensures ok ==> added == ConfVids(c)
      ensures ok && ConfVids(c) != {} ==> UplinkOf(old(h.k).links, c) in old(h.k).ports
      ensures ok ==> UplinkHasAll(old(h.k), h.k, c)
      ensures !ok ==> h.failures > old(h.failures)
      // everything is done under one lock, and nothing without it
      ensures h.outside == old(h.outside)
      ensures h.locks == old(h.locks) ==> !ok && h.k == old(h.k) && added == {}
      ensures h.locks != old(h.locks) ==> h.locks == old(h.locks) + 1 && h.atLock == old(h.k)
    {
      added := {};
      var found, uplink := ResolveUplink(c);
      if !found {
        return false, {};
      }
      ResolvedUplink(h.k, c, uplink);
      var vlans := VlanList(c.trunk, c.netConf.vlan);
      ok := h.Lock();
      if !ok {
        return false, {};
      }
      ghost var done: seq<int>;
      ok, done := BridgeTrunkVlanAdd(h, uplink, vlans);
      h.Unlock();
      added := Vids(done);
      assert forall v :: v in done ==> v in vlans;
      if uplink.index !in old(h.k).ports && !ok {
        added := {};
      }
      assert vlans == [] ==> Vids(vlans) == {};
      if ok {
        AddedToUplink(old(h.k), h.k, c);
      }
    }

    // The port VLANs of AttachRepresentor: drop VLAN 1, add Trunk, add Vlan.
    method ConfigurePort(c: PluginConf, rep: Link) returns (ok: bool, ghost t: PortVlans)
      requires Valid(h.k) && rep.index in h.k.ports
      modifies h`k, h`failures, h`outside
      ensures Valid(h.k) && h.failures >= old(h.failures)
      ensures h.k == SetPort(old(h.k), rep.index, t)
      ensures ok ==> t == Configured(old(h.k).ports[rep.index], c.trunk, c.netConf.vlan)
      ensures !ok ==> h.failures > old(h.failures)
    {
      t := h.k.ports[rep.index];
      if c.netConf.vlan > 1 || |c.trunk| > 0 {
        ok := BridgePVIDVlanDel(h, rep, 1);
        if !ok {
          return;
        }
        t := Without(t, {1});
      }
      assert h.k == SetPort(old(h.k), rep.index, t);
      if |c.trunk| > 0 {
        ghost var done: seq<int>;
        ok, done := BridgeTrunkVlanAdd(h, rep, c.trunk);
        TaggedAsSetPort(SetPort(old(h.k), rep.index, t), rep.index, Vids(done));
        t := Tag(t, Vids(done));
        if !ok {
          return;
        }
      }
      assert |c.trunk| == 0 ==> Tag(t, Vids(c.trunk)) == t;
      assert h.k == SetPort(old(h.k), rep.index, t);
      if c.netConf.vlan > 0 {
        ok := BridgePVIDVlanAdd(h, rep, c.netConf.vlan);
        if !ok {
          return;
        }
        t := TagNative(t, Vid(c.netConf.vlan));
      }
      ok := true;
    }

    // Everything of AttachRepresentor that the deferred undo covers.
    method ConfigureVlans(c: PluginConf, rep: Link) returns (ok: bool, ghost t: PortVlans, ghost added: set<int>)
      requires Valid(h.k) && h.ns == 0 && !h.locked && rep.index in h.k.ports
      modifies h`k, h`failures, h`locked, h`locks, h`atLock, h`outside
      ensures Valid(h.k) && !h.locked && h.failures >= old(h.failures)
      ensures added <= ConfVids(c)
      ensures h.k == Tagged(SetPort(old(h.k), rep.index, t), UplinkOf(old(h.k).links, c), added)
      ensures ok ==> h.k == WithUplink(SetPort(old(h.k), rep.index,
                       Configured(old(h.k).ports[rep.index], c.trunk, c.netConf.vlan)), c)
      ensures ok && c.netConf.setUplinkVlan && ConfVids(c) != {} ==>
                var u := UplinkOf(h.k.links, c);
                u in h.k.ports && ConfVids(c) <= h.k.ports[u].vids
      ensures !ok ==> h.failures > old(h.failures)
      // the lock is taken once, after the port has got its table
      ensures h.locks == old(h.locks) ==> added == {} && (ok ==> !c.netConf.setUplinkVlan)
      ensures h.locks != old(h.locks) ==>
                h.locks == old(h.locks) + 1 && h.atLock == SetPort(old(h.k), rep.index, t)
      ensures ok ==> t == Configured(old(h.k).ports[rep.index], c.trunk, c.netConf.vlan)
    {
      added := {};
      ok, t := ConfigurePort(c, rep);
      if ok && c.netConf.setUplinkVlan {
        ok, added := AddUplinkVlans(c);
      }
    }

    // The MTU and the up flag of the representor; the MTU it had is recorded.
    method PrepareRepresentor(p: PluginConfRef, rep: Link) returns (ok: bool)
      requires Valid(h.k) && rep.index in h.k.links && h.k.links[rep.index] == rep
      modifies h`k, h`failures, p
      ensures Valid(h.k) && h.failures >= old(h.failures)
      ensures p.c == old(p.c).(origRepState := if p.c.mtu != 0 then RepState(rep.mtu) else old(p.c).origRepState)
      ensures rep.index in h.k.links
      ensures h.k == old(h.k)
              || h.k == SetLink(old(h.k), rep.(up := h.k.links[rep.index].up, mtu := h.k.links[rep.index].mtu))
      ensures ok ==> h.k == SetLink(old(h.k), rep.(up := true, mtu := if p.c.mtu != 0 then p.c.mtu else rep.mtu))
      ensures !ok ==> h.failures > old(h.failures)
    {
      assert LinkOk(h.k.links, rep.index);
      if p.c.mtu != 0 {
        p.c := p.c.(origRepState := RepState(rep.mtu));
        ok := h.LinkSetMTU(rep, p.c.mtu);
        if !ok {
          return;
        }
      }
      ok := h.LinkSetUp(rep, true);
    }

    method LookUpEnds(p: PluginConfRef) returns (ok: bool, bridge: Link, rep: Link)
      requires Valid(h.k) && h.ns == 0
      modifies h`failures, p
      ensures h.failures >= old(h.failures)
      ensures p.c == old(p.c).(representor := p.c.representor)
      ensures !ok ==> h.failures > old(h.failures)
      ensures ok ==> (p.c.pfName, p.c.vfID) in h.reps && p.c.representor == h.reps[(p.c.pfName, p.c.vfID)]
      ensures ok ==> bridge.index in h.k.links && h.k.links[bridge.index] == bridge
      ensures ok ==> bridge.index == Find(h.k.links, p.c.actualBridge, 0)
      ensures ok ==> rep.index in h.k.links && h.k.links[rep.index] == rep
      ensures ok ==> rep.index == Find(h.k.links, p.c.representor, 0)
    {
      rep := NO_LINK;
      ok, bridge := h.LinkByName(p.c.actualBridge);
      if !ok {
        return;
      }
      var name: string;
      ok, name := h.GetVfRepresentor(p.c.pfName, p.c.vfID);
      p.c := p.c.(representor := name);
      if !ok {
        return;
      }
      ok, rep := h.LinkByName(name);
    }

    // AttachRepresentor from LinkSetMaster on, with its deferred undo; k is the
    // state before the representor was prepared.
    method JoinBridge(ghost k: State, c: PluginConf, bridge: Link, rep: Link)
      returns (ok: bool, ghost unplugged: bool, ghost added: set<int>)
      requires Valid(k) && Valid(h.k) && h.ns == 0 && !h.locked
      requires rep.index == Find(k.links, c.representor, 0) && rep.index in k.links && k.links[rep.index] == rep
      requires bridge.index == Find(k.links, c.actualBridge, 0) && bridge.index in k.links
      requires h.k == SetLink(k, Prepared(rep, c))
      modifies h`k, h`failures, h`locked, h`locks, h`atLock, h`outside
      ensures Valid(h.k) && !h.locked && h.failures >= old(h.failures)
      ensures ok ==> h.k == Attached(k, c) && k.links[rep.index].kind.Device? && k.links[bridge.index].kind.Bridge?
      ensures ok && c.netConf.setUplinkVlan && ConfVids(c) != {} ==>
                var u := UplinkOf(h.k.links, c);
                u in h.k.ports && ConfVids(c) <= h.k.ports[u].vids
      ensures !ok ==> h.failures > old(h.failures) && added <= ConfVids(c)
      ensures !ok && !unplugged ==> h.failures > old(h.failures) + 1
      ensures !ok && unplugged ==> AttachRolledBack(k, h.k, c, added)
      ensures h.locks == old(h.locks) ==> added == {} && (ok ==> !c.netConf.setUplinkVlan)
      ensures h.locks != old(h.locks) ==> h.locks == old(h.locks) + 1
      ensures ok && h.locks != old(h.locks) ==> PortBeforeLock(k, h.atLock, h.k, c)
    {
      unplugged, added := true, {};
      ghost var r, b := rep.index, bridge.index;
      assert LinkOk(k.links, r);
      ok := h.LinkSetMaster(rep, bridge);
      if !ok {
        return;
      }
      EnslavedInSteps(k, r, b, c);
      assert h.k == Enslaved(k, r, b, c);
      ghost var t: PortVlans;
      ok, t, added := ConfigureVlans(c, rep);
      if !ok {
        unplugged := h.LinkSetNoMaster(rep);
        UndoneIsRolledBack(k, r, b, c, t, added);
      } else {
        LockedAfterPort(k, r, b, c, t);
      }
    }

    method AttachRepresentor(p: PluginConfRef) returns (ok: bool, ghost unplugged: bool, ghost added: set<int>)
      requires Valid(h.k) && h.ns == 0 && !h.locked
      modifies h`k, h`failures, h`locked, h`locks, h`atLock, h`outside, p
      ensures Valid(h.k) && !h.locked && h.failures >= old(h.failures)
      ensures p.c == old(p.c).(representor := p.c.representor, origRepState := p.c.origRepState)
      ensures ok ==> AttachSucceeded(old(h.k), h.k, old(p.c), p.c)
      ensures ok ==> (p.c.pfName, p.c.vfID) in h.reps && p.c.representor == h.reps[(p.c.pfName, p.c.vfID)]
      ensures ok ==> AttachedAsAsked(old(h.k), h.k, p.c)
      ensures ok && p.c.netConf.setUplinkVlan && ConfVids(p.c) != {} ==>
                var u := UplinkOf(h.k.links, p.c);
                u in h.k.ports && ConfVids(p.c) <= h.k.ports[u].vids
      ensures !ok ==> h.failures > old(h.failures) && added <= ConfVids(p.c)
      ensures !ok && !unplugged ==> h.failures > old(h.failures) + 1
      ensures !ok && unplugged ==> AttachRolledBack(old(h.k), h.k, p.c, added)
      ensures !ok && unplugged ==> AttachLeftNothing(old(h.k), h.k, p.c)
      // the uplink gets VLANs only under the lock, when the port already has its table
      ensures h.locks == old(h.locks) ==> added == {} && (ok ==> !p.c.netConf.setUplinkVlan)
      ensures h.locks != old(h.locks) ==> h.locks == old(h.locks) + 1
      ensures ok && h.locks != old(h.locks) ==> PortBeforeLock(old(h.k), h.atLock, h.k, p.c)
    {
      unplugged, added := true, {};
      var bridge, rep: Link;
      ok, bridge, rep := LookUpEnds(p);
      if !ok {
        FailedAttachKeepsPromise(old(h.k), h.k, p.c, {});
        return;
      }
      ok := PrepareRepresentor(p, rep);
      if !ok {
        FailedAttachKeepsPromise(old(h.k), h.k, p.c, {});
        return;
      }
      ok, unplugged, added := JoinBridge(old(h.k), p.c, bridge, rep);
      if ok {
        AttachKeepsPromise(old(h.k), h.k, old(p.c), p.c);
      } else if unplugged {
        FailedAttachKeepsPromise(old(h.k), h.k, p.c, added);
      }
    }

    // Those of the VLANs that none of the links carries, in their order.  When
    // the VLAN tables cannot be read that is all of them.
    method GetUnusedVlanList(brif: seq<Link>, vlans: seq<int>) returns (unused: seq<int>)
      requires Valid(h.k)
      modifies h`failures, h`listFailures, h`outside
      ensures h.locked ==> h.outside == old(h.outside)
      ensures h.failures >= old(h.failures) && h.listFailures >= old(h.listFailures)
      ensures h.listFailures == old(h.listFailures) ==> h.failures == old(h.failures)
      ensures h.listFailures == old(h.listFailures) ==>
                forall v :: v in unused <==> v in vlans && !exists l :: l in brif && Carries(h.k, l.index, Vid(v))
      ensures h.listFailures > old(h.listFailures) ==> unused == vlans && h.failures > old(h.failures)
    {
      var listed, allbrif := h.BridgeVlanList();
      unused := [];
      var n := 0;
      while n < |vlans|
        invariant 0 <= n <= |vlans|
        invariant listed ==>
                    forall v :: v in unused <==>
                      v in vlans[..n] && !exists l :: l in brif && Carries(h.k, l.index, Vid(v))
        invariant !listed ==> unused == vlans[..n]
        modifies {}
      {
        var found := Search(h.k, brif, allbrif, vlans[n]);
        if !found {
          unused := unused + [vlans[n]];
        }
        assert vlans[..n + 1] == vlans[..n] + [vlans[n]];
        n := n + 1;
      }
      assert vlans[..n] == vlans;
    }

    // The critical section of deleteUplinkVlans: two snapshots, then the deletions.
    method PruneLocked(uplink: Link, bridge: Link, vlans: seq<int>) returns (ok: bool, ghost gone: set<int>)
      requires Valid(h.k) && h.ns == 0 && h.locked
      requires uplink.index in h.k.links && h.k.links[uplink.index] == uplink && uplink.netns == 0
      requires IsParentBridge(h.k.links, uplink.index, bridge.index)
      modifies h`k, h`failures, h`listFailures, h`outside
      ensures Valid(h.k) && h.failures >= old(h.failures) && h.listFailures >= old(h.listFailures)
      ensures gone <= Vids(vlans) && h.k == Removed(old(h.k), uplink.index, gone)
      ensures uplink.index in old(h.k).ports && h.listFailures == old(h.listFailures) ==>
                gone <= UnusedVids(old(h.k), uplink.index, Vids(vlans))
      ensures uplink.index in old(h.k).ports && h.failures == old(h.failures) ==>
                gone == UnusedVids(old(h.k), uplink.index, Vids(vlans))
      ensures ok && h.listFailures > old(h.listFailures) ==> gone == Vids(vlans)
      ensures ok && gone != {} ==> uplink.index in old(h.k).ports
      ensures h.outside == old(h.outside)
    {
      gone := {};
      var currentbrif: seq<Link>;
      ok, currentbrif := GetBridgeLinks(h, bridge);
      if !ok {
        return;
      }
      var repbrif := ExceptLink(currentbrif, uplink.index);
      var delvlans := GetUnusedVlanList(repbrif, vlans);
      if h.listFailures == old(h.listFailures) && uplink.index in h.k.ports {
        ParentOfPort(h.k, uplink.index, bridge.index);
        UnusedAsVids(h.k, uplink.index, repbrif, vlans, delvlans);
      }
      ghost var done: seq<int>;
      ok, done := BridgeTrunkVlanDel(h, uplink, delvlans);
      gone := Vids(done);
      assert forall v :: v in done ==> v in delvlans && v in vlans;
      assert gone <= Vids(delvlans);
    }

    method DeleteUplinkVlans(c: PluginConf) returns (ok: bool, ghost gone: set<int>)
      requires Valid(h.k) && h.ns == 0 && !h.locked
      modifies h`k, h`failures, h`listFailures, h`locked, h`locks, h`atLock, h`outside
      ensures Valid(h.k) && !h.locked && h.failures >= old(h.failures) && h.listFailures >= old(h.listFailures)
      ensures h.k == Removed(old(h.k), UplinkOf(old(h.k).links, c), gone)
      ensures gone <= ConfVids(c)
      ensures h.listFailures == old(h.listFailures) ==>
                gone <= UnusedVids(old(h.k), UplinkOf(old(h.k).links, c), ConfVids(c))
      ensures h.failures == old(h.failures) ==> h.k == Pruned(old(h.k), c)
      ensures ok && h.listFailures > old(h.listFailures) ==>
                h.k == Removed(old(h.k), UplinkOf(old(h.k).links, c), ConfVids(c))
      ensures h.failures == old(h.failures) ==> UplinkIsPruned(old(h.k), h.k, c)
      ensures UplinkKeepsUsed(old(h.k), h.k, c, h.listFailures == old(h.listFailures))
      // everything is done under one lock, and nothing without it
      ensures h.outside == old(h.outside)
      ensures h.locks == old(h.locks) ==> !ok && h.k == old(h.k) && gone == {}
      ensures h.locks != old(h.locks) ==> h.locks == old(h.locks) + 1 && h.atLock == old(h.k)
    {
      gone := {};
      PrunedFromUplink(h.k, c);
      GoneFromUplink(h.k, c, {}, true);
      var found, uplink := ResolveUplink(c);
      if !found {
        return false, {};
      }
      ResolvedUplink(h.k, c, uplink);
      var vlans := VlanList(c.trunk, c.netConf.vlan);
      var bridgeLink: Link;
      found, bridgeLink := GetParentBridgeForLink(h, uplink);
      if !found {
        NoPortWhenChainEnds(h.k, uplink.index);
        return false, {};
      }
      ok := h.Lock();
      if !ok {
        return false, {};
      }
      ok, gone := PruneLocked(uplink, bridgeLink, vlans);
      h.Unlock();
      if uplink.index !in old(h.k).ports {
        gone := {};
      }
      GoneFromUplink(old(h.k), c, gone, h.listFailures == old(h.listFailures));
    }

    // The representor down and its MTU restored.
    method RetireRepresentor(c: PluginConf, rep: Link) returns (ok: bool, ghost stage: nat)
      requires Valid(h.k) && rep.index in h.k.links && rep.index == Find(h.k.links, c.representor, 0)
      modifies h`k, h`failures
      ensures Valid(h.k) && h.failures >= old(h.failures)
      ensures h.k == DetachedPartly(old(h.k), c, stage, {}) && stage <= 2
      ensures ok ==> stage == 2 && h.failures == old(h.failures)
      ensures !ok ==> h.failures > old(h.failures)
    {
      stage := 0;
      assert LinkOk(h.k.links, rep.index);
      ok := h.LinkSetUp(rep, false);
      if !ok {
        return;
      }
      stage := 1;
      if c.mtu != 0 {
        ok := h.LinkSetMTU(rep, c.origRepState.mtu);
        if !ok {
          return;
        }
      }
      stage := 2;
    }

    // Off the bridge, and then off the uplink; k is the state before the detach.
    // A failure to prune the uplink is only logged.
    method LeaveBridge(ghost k: State, c: PluginConf, rep: Link) returns (ok: bool, ghost gone: set<int>)
      requires Valid(k) && Valid(h.k) && h.ns == 0 && !h.locked
      requires rep.index in k.links && rep.index == Find(k.links, c.representor, 0)
      requires h.k == DetachedPartly(k, c, 2, {})
      modifies h`k, h`failures, h`listFailures, h`locked, h`locks, h`atLock, h`outside
      ensures Valid(h.k) && !h.locked && h.failures >= old(h.failures) && h.listFailures >= old(h.listFailures)
      ensures h.k == DetachedPartly(k, c, if ok then 3 else 2, gone)
      ensures gone <= ConfVids(c) && (h.listFailures == old(h.listFailures) ==> OnlyUnused(k, c, gone))
      ensures h.failures == old(h.failures) ==> ok && h.k == Detached(k, c)
      ensures h.outside == old(h.outside)
      ensures h.locks == old(h.locks) ==> gone == {}
      ensures h.locks != old(h.locks) ==> h.locks == old(h.locks) + 1 && h.atLock == Unplugged(k, rep.index, c) && ok
    {
      gone := {};
      assert LinkOk(k.links, rep.index);
      ok := h.LinkSetNoMaster(rep);
      if !ok {
        return;
      }
      assert h.k == Unplugged(k, rep.index, c);
      if c.netConf.setUplinkVlan {
        var pruned: bool;
        pruned, gone := DeleteUplinkVlans(c);
      }
    }

    method DetachRepresentor(c: PluginConf) returns (ok: bool, ghost stage: nat, ghost gone: set<int>)
      requires Valid(h.k) && h.ns == 0 && !h.locked
      modifies h`k, h`failures, h`listFailures, h`locked, h`locks, h`atLock, h`outside
      ensures Valid(h.k) && !h.locked && h.failures >= old(h.failures) && h.listFailures >= old(h.listFailures)
      ensures h.k == DetachedPartly(old(h.k), c, stage, gone)
      ensures stage > 0 ==> Find(old(h.k).links, c.representor, 0) in old(h.k).links
      ensures gone <= ConfVids(c) && (h.listFailures == old(h.listFailures) ==> OnlyUnused(old(h.k), c, gone))
      ensures ok <==> stage >= 3
      ensures h.failures == old(h.failures) ==> ok && h.k == Detached(old(h.k), c)
      ensures h.failures == old(h.failures) ==> DetachedAsAsked(old(h.k), h.k, c)
      ensures DetachKeepsUsed(old(h.k), h.k, c, h.listFailures == old(h.listFailures))
      // the uplink loses VLANs only under the lock, when the representor has left the bridge
      ensures h.outside == old(h.outside)
      ensures h.locks == old(h.locks) ==> gone == {}
      ensures h.locks != old(h.locks) ==> h.locks == old(h.locks) + 1 && OffBeforeLock(old(h.k), h.atLock, h.k, c)
    {
      stage, gone := 0, {};
      var rep: Link;
      DetachKeeps(h.k, c, 0, {}, true);
      ok, rep := h.LinkByName(c.representor);
      if !ok {
        return;
      }
      ok, stage := RetireRepresentor(c, rep);
      DetachKeeps(old(h.k), c, stage, {}, true);
      if !ok {
        return;
      }
      ok, gone := LeaveBridge(old(h.k), c, rep);
      stage := if ok then 3 else 2;
      DetachKeeps(old(h.k), c, stage, gone, h.listFailures == old(h.listFailures));
      DetachKeepsPromise(old(h.k), c);
    }

    method ApplyVFConfig(p: PluginConfRef) returns (ok: bool)
      requires Valid(h.k) && h.ns == 0
      modifies h`k, h`failures, p
      ensures Valid(h.k) && h.failures >= old(h.failures)
      ensures ok ==> ApplySucceeded(old(h.k), h.k, old(p.c), p.c)
      ensures ok ==> AppliedAsAsked(old(h.k), h.k, old(p.c), p.c)
      ensures !ok ==> h.k == old(h.k)
      ensures !ok ==> p.c == old(p.c).(origVfState := old(p.c).origVfState.(adminMAC := p.c.origVfState.adminMAC))
      ensures !ok && h.failures == old(h.failures) ==> ApplyRefused(old(h.k), old(p.c))
      ensures !ok && h.failures == old(h.failures) ==>
                || p.c.mac.Malformed?
                || forall pf :: Is(old(h.k).links, pf, p.c.pfName, 0) ==> p.c.vfID !in old(h.k).links[pf].vfs
    {
      var pfLink: Link;
      ok, pfLink := h.LinkByName(p.c.pfName);
      if !ok {
        return;
      }
      assert LinkOk(h.k.links, pfLink.index);
      if p.c.vfID !in pfLink.vfs {
        return false;
      }
      p.c := p.c.(origVfState := p.c.origVfState.(adminMAC := Addr(pfLink.vfs[p.c.vfID])));
      if !p.c.mac.Unset? {
        if p.c.mac.Malformed? {
          return false;
        }
        ok := h.LinkSetVfHardwareAddr(pfLink, p.c.vfID, p.c.mac.mac);
      }
      if ok {
        ApplyKeepsPromise(old(h.k), h.k, old(p.c), p.c);
      }
    }

    method ResetVFConfig(c: PluginConf) returns (ok: bool)
      requires Valid(h.k) && h.ns == 0
      modifies h`k, h`failures
      ensures Valid(h.k) && h.failures >= old(h.failures)
      ensures ok ==> Find(old(h.k).links, c.pfName, 0) in old(h.k).links && h.k == AdminReset(old(h.k), c)
      ensures ok ==> ResetAsRecorded(old(h.k), h.k, c)
      ensures !ok ==> h.k == old(h.k)
      ensures !ok && h.failures == old(h.failures) ==> !c.mac.Unset? && !c.origVfState.adminMAC.Addr?
    {
      var pfLink: Link;
      ok, pfLink := h.LinkByName(c.pfName);
      if !ok {
        return;
      }
      assert LinkOk(h.k.links, pfLink.index);
      if !c.mac.Unset? {
        if !c.origVfState.adminMAC.Addr? {
          return false;
        }
        ok := h.LinkSetVfHardwareAddr(pfLink, c.vfID, c.origVfState.adminMAC.mac);
      }
      ResetKeepsPromise(old(h.k), c);
    }

    // Down and renamed: steps 1 and 2 of SetupVF, and of ReleaseVF in the pod.
    method DownAndRename(vf: Link, name: string) returns (ok: bool, ghost downed: bool)
      requires Valid(h.k) && vf.index in h.k.links && h.k.links[vf.index] == vf
      modifies h`k, h`failures
      ensures Valid(h.k) && h.failures >= old(h.failures)
      ensures ok ==> h.k == SetLink(old(h.k), vf.(up := false, name := name))
      ensures !ok ==> h.k == if downed then SetLink(old(h.k), vf.(up := false)) else old(h.k)
      ensures !ok ==> h.failures > old(h.failures)
    {
      assert LinkOk(h.k.links, vf.index);
      ok := h.LinkSetUp(vf, false);
      downed := ok;
      if ok {
        ok := h.LinkSetName(vf, name);
      }
    }

    // Step 3 of SetupVF.
    method SetAddress(p: PluginConfRef, vf: Link) returns (ok: bool)
      requires Valid(h.k) && vf.index in h.k.links && h.k.links[vf.index].mac == vf.mac
      modifies h`k, h`failures, p
      ensures Valid(h.k) && h.failures >= old(h.failures)
      ensures ok ==> !p.c.mac.Malformed?
                     && h.k == SetLink(old(h.k), old(h.k).links[vf.index].(
                                         mac := if p.c.mac.Addr? then p.c.mac.mac else vf.mac))
      ensures !ok ==> h.k == old(h.k)
      ensures p.c == old(p.c).(origVfState := old(p.c).origVfState.(effectiveMAC := p.c.origVfState.effectiveMAC))
      ensures ok ==>
                p.c.origVfState.effectiveMAC
                == if p.c.mac.Unset? then old(p.c).origVfState.effectiveMAC else Addr(vf.mac)
      ensures !ok ==> p.c.mac.Malformed? || h.failures > old(h.failures)
    {
      assert LinkOk(h.k.links, vf.index);
      if p.c.mac.Unset? {
        assert h.k.links[vf.index := h.k.links[vf.index]] == h.k.links;
        return true;
      }
      if p.c.mac.Malformed? {
        return false;
      }
      p.c := p.c.(origVfState := p.c.origVfState.(effectiveMAC := Addr(vf.mac)));
      ok := h.LinkSetHardwareAddr(vf, p.c.mac.mac);
    }

    // Steps 3 and 4 of SetupVF: MAC and MTU, the previous values recorded.
    method SetAddressAndMTU(p: PluginConfRef, vf: Link) returns (ok: bool, ghost addressed: bool)
      requires Valid(h.k) && vf.index in h.k.links
      requires var l := h.k.links[vf.index]; l.mac == vf.mac && l.mtu == vf.mtu
      modifies h`k, h`failures, p
      ensures Valid(h.k) && h.failures >= old(h.failures)
      ensures ok ==> h.k == SetLink(old(h.k), Dressed(old(h.k).links[vf.index], p.c)) && !p.c.mac.Malformed?
      ensures ok ==> vf.index in h.k.links && HasAddressAndMtu(vf, h.k.links[vf.index], p.c)
      ensures ok ==> p.c == WithVfState(old(p.c), vf)
      ensures !ok && !addressed ==> h.k == old(h.k)
      ensures !ok && addressed ==> h.k == SetLink(old(h.k), old(h.k).links[vf.index].(
                                         mac := if p.c.mac.Addr? then p.c.mac.mac else vf.mac))
      ensures !ok ==> p.c == old(p.c).(origVfState := p.c.origVfState)
      ensures !ok ==> p.c.origVfState.hostIFName == old(p.c).origVfState.hostIFName
      ensures !ok ==> p.c.mac.Malformed? || h.failures > old(h.failures)
    {
      assert LinkOk(h.k.links, vf.index);
      ok := SetAddress(p, vf);
      addressed := ok;
      if ok && p.c.mtu != 0 {
        ok := h.LinkSetMTU(vf, p.c.mtu);
        if ok {
          p.c := p.c.(origVfState := p.c.origVfState.(mtu := vf.mtu));
        }
      }
    }

    // Steps 1 to 4 of SetupVF; `call` is the one that failed.
    method DressVF(p: PluginConfRef, vf: Link) returns (ok: bool, mac: MacText, ghost call: SetupCall)
      requires Valid(h.k) && vf.index in h.k.links && h.k.links[vf.index] == vf
      modifies h`k, h`failures, p
      ensures Valid(h.k) && h.failures >= old(h.failures)
      ensures ok ==> h.k == SetLink(old(h.k), Dressed(vf.(up := false, name := TempName(vf.index)), p.c))
      ensures ok ==> mac == if p.c.mac.Unset? then Addr(vf.mac) else p.c.mac
      ensures ok ==> p.c == WithVfState(old(p.c), vf) && !p.c.mac.Malformed?
      ensures !ok ==> call.TakeDown? || call.SetTempName? || call.SetMac? || call.SetMtu?
      ensures !ok ==> h.k == SetLink(old(h.k), SetupUpTo(vf, vf.index, p.c, "", 0, call))
      ensures !ok ==> p.c == old(p.c).(origVfState := p.c.origVfState)
      ensures !ok ==> p.c.origVfState.hostIFName == old(p.c).origVfState.hostIFName
      ensures !ok ==> p.c.mac.Malformed? || h.failures > old(h.failures)
    {
      mac := Unset;
      var tempName := TempName(vf.index);
      ghost var downed: bool;
      ok, downed := DownAndRename(vf, tempName);
      if !ok {
        call := if downed then SetTempName else TakeDown;
        assert old(h.k).links[vf.index := vf] == old(h.k).links;
        return;
      }
      mac := if p.c.mac.Unset? then Addr(vf.mac) else p.c.mac;
      ghost var addressed: bool;
      ok, addressed := SetAddressAndMTU(p, vf);
      call := if addressed then SetMtu else SetMac;
    }

    // Steps 5 to 7 of SetupVF; `call` is the one that failed.
    method MoveToPod(vf: Link, podifName: string, netns: nat) returns (ok: bool, ghost call: SetupCall)
      requires Valid(h.k) && h.ns == 0 && netns > 0 && vf.index in h.k.links && h.k.links[vf.index].netns == 0
      modifies h`k, h`failures, h`ns
      ensures Valid(h.k) && h.ns == 0 && h.failures >= old(h.failures)
      ensures ok ==> h.k == State(old(h.k).links[vf.index := old(h.k).links[vf.index].(
                                    name := podifName, netns := netns, up := true, master := 0)],
                                  old(h.k).ports - {vf.index})
      ensures !ok ==> call.ChangeNetns? || call.EnterNetns? || call.SetPodName? || call.BringUp?
      ensures !ok && call.ChangeNetns? ==> h.k == old(h.k)
      ensures !ok && !call.ChangeNetns? ==>
                h.k == State(old(h.k).links[vf.index := old(h.k).links[vf.index].(
                               name := if call.BringUp? then podifName else old(h.k).links[vf.index].name,
                               netns := netns, master := 0)],
                             old(h.k).ports - {vf.index})
      ensures !ok ==> h.failures > old(h.failures)
    {
      call := ChangeNetns;
      assert LinkOk(h.k.links, vf.index);
      ok := h.LinkSetNsFd(vf, netns);
      if !ok {
        return;
      }
      call := EnterNetns;
      ok := h.Enter(netns);
      if !ok {
        return;
      }
      call := SetPodName;
      ok := h.LinkSetName(vf, podifName);
      if ok {
        call := BringUp;
        ok := h.LinkSetUp(vf, true);
      }
      h.Leave(0);
    }

    method SetupVF(p: PluginConfRef, podifName: string, netns: nat)
      returns (ok: bool, mac: MacText, ghost call: SetupCall)
      requires Valid(h.k) && h.ns == 0 && netns > 0
      modifies h`k, h`failures, h`ns, p
      ensures Valid(h.k) && h.ns == 0 && h.failures >= old(h.failures)
      ensures ok ==> SetupSucceeded(old(h.k), h.k, old(p.c), p.c, podifName, netns)
      ensures ok ==> SetUpAsAsked(old(h.k), h.k, old(p.c), p.c, podifName, netns)
      ensures ok ==> var i := Find(old(h.k).links, p.c.origVfState.hostIFName, 0);
                     mac == if p.c.mac.Unset? then Addr(old(h.k).links[i].mac) else p.c.mac
      ensures !ok ==> p.c == old(p.c).(origVfState := p.c.origVfState)
      ensures !ok ==> p.c.origVfState.hostIFName == old(p.c).origVfState.hostIFName
      ensures !ok ==> SetupFailed(old(h.k), h.k, old(p.c), podifName, netns, call)
      ensures !ok && h.failures == old(h.failures) ==> p.c.mac.Malformed?
    {
      mac, call := Unset, LookUpVf;
      var vf: Link;
      ok, vf := h.LinkByName(p.c.origVfState.hostIFName);
      if !ok {
        return;
      }
      assert LinkOk(h.k.links, vf.index);
      ok, mac, call := DressVF(p, vf);
      if !ok {
        return;
      }
      ghost var l := h.k.links[vf.index];
      ok, call := MoveToPod(vf, podifName, netns);
      if !ok {
        SetupFailedInMove(old(h.k), h.k, l, old(p.c), podifName, netns, call);
      } else {
        p.c := p.c.(contIFNames := podifName);
        SetupKeepsPromise(old(h.k), h.k, old(p.c), p.c, podifName, netns);
      }
    }

    method ResetAddressAndMTU(c: PluginConf, vf: Link) returns (ok: bool)
      requires Valid(h.k) && vf.index in h.k.links
      modifies h`k, h`failures
      ensures Valid(h.k) && h.failures >= old(h.failures)
      ensures vf.index in h.k.links
      ensures h.k == SetLink(old(h.k), old(h.k).links[vf.index].(
                               mac := h.k.links[vf.index].mac, mtu := h.k.links[vf.index].mtu))
      ensures ok ==> c.mac.Unset? || c.origVfState.effectiveMAC.Addr?
      ensures ok ==> h.k.links[vf.index] == old(h.k).links[vf.index].(
                       mac := if !c.mac.Unset? && c.origVfState.effectiveMAC.Addr? then c.origVfState.effectiveMAC.mac
                              else old(h.k).links[vf.index].mac,
                       mtu := if c.mtu != 0 then c.origVfState.mtu else old(h.k).links[vf.index].mtu)
      ensures !ok && h.failures == old(h.failures) ==> !c.mac.Unset? && !c.origVfState.effectiveMAC.Addr?
    {
      assert LinkOk(h.k.links, vf.index);
      ok := true;
      if !c.mac.Unset? {
        if !c.origVfState.effectiveMAC.Addr? {
          return false;
        }
        ok := h.LinkSetHardwareAddr(vf, c.origVfState.effectiveMAC.mac);
        if !ok {
          return;
        }
      }
      assert h.k == SetLink(old(h.k), old(h.k).links[vf.index].(mac := h.k.links[vf.index].mac));
      if c.mtu != 0 {
        ok := h.LinkSetMTU(vf, c.origVfState.mtu);
      }
    }

    // What ReleaseVF does inside the pod namespace.
    method BringHome(c: PluginConf, vf: Link) returns (ok: bool, ghost renamed: bool)
      requires Valid(h.k) && vf.index in h.k.links && h.k.links[vf.index] == vf && vf.netns == h.ns > 0
      modifies h`k, h`failures
      ensures Valid(h.k) && h.failures >= old(h.failures)
      ensures ok ==> h.k == Released(old(h.k), vf.index, c) && (c.mac.Unset? || c.origVfState.effectiveMAC.Addr?)
      ensures !renamed ==> !ok && (h.k == old(h.k) || h.k == SetLink(old(h.k), vf.(up := false)))
      ensures renamed && !ok ==> OnlyLink(old(h.k), h.k, vf.index)
      ensures renamed && !ok ==> Is(h.k.links, vf.index, c.origVfState.hostIFName, vf.netns)
      ensures !ok && h.failures == old(h.failures) ==> !c.mac.Unset? && !c.origVfState.effectiveMAC.Addr?
    {
      assert LinkOk(h.k.links, vf.index);
      ghost var downed: bool;
      ok, downed := DownAndRename(vf, c.origVfState.hostIFName);
      renamed := ok;
      if !ok {
        return;
      }
      ok := ResetAddressAndMTU(c, vf);
      if !ok {
        return;
      }
      assert h.k == SetLink(old(h.k), Undressed(vf, c));
      ok := h.LinkSetNsFd(vf, 0);
    }

    method ReleaseVF(c: PluginConf, podifName: string, netns: nat) returns (ok: bool, ghost renamed: bool)
      requires Valid(h.k) && h.ns == 0 && netns > 0
      modifies h`k, h`failures, h`ns
      ensures Valid(h.k) && h.ns == 0 && h.failures >= old(h.failures)
      ensures ok ==> ReleaseSucceeded(old(h.k), h.k, c, podifName, netns)
      ensures ok ==> ReleasedAsRecorded(old(h.k), h.k, c, podifName, netns)
      ensures ok ==> c.mac.Unset? || c.origVfState.effectiveMAC.Addr?
      ensures !ok ==> ReleaseFailed(old(h.k), h.k, c, podifName, netns, renamed)
      ensures c.contIFNames == "" && c.origVfState.hostIFName != "" ==> !ok && h.k == old(h.k)
      ensures !ok && h.failures == old(h.failures) ==>
                || (c.contIFNames == "" && c.origVfState.hostIFName != "")
                || (!c.mac.Unset? && !c.origVfState.effectiveMAC.Addr?)
    {
      renamed := false;
      ok := h.Enter(0);
      if !ok {
        return;
      }
      if ReleaseRefused(c) {
        return false, false;
      }
      ok := h.Enter(netns);
      if !ok {
        return;
      }
      var vf: Link;
      ok, vf := h.LinkByName(podifName);
      if ok {
        ok, renamed := BringHome(c, vf);
      }
      h.Leave(0);
      if ok {
        ReleaseKeepsPromise(old(h.k), h.k, c, podifName, netns);
      }
    }
  }
}
