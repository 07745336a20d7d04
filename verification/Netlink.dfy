/**
 The netlink requests the plugin makes and the helpers built on them:
 pkg/utils/netlink.go.

 Any request can fail, and a request that fails changes nothing.  The ghost
 counter `failures` goes up with every request that fails, so that a contract
 can speak about runs in which everything succeeded; the ghost fields about the
 lock let it speak about what is done under the lock and in which order.
 */
module Netlink {
  import opened Wrappers
  import opened VlanLists
  import opened Kernel
  import opened VlanIds

  const NO_LINK := Link(0, "", 0, 0, 0, false, 0, Device, map[])

  ghost predicate Lists(vids: seq<int>, vs: set<int>) {
    forall v :: v in vids <==> v in vs
  }

  method Dump(ports: map<int, PortVlans>) returns (tables: map<int, seq<int>>)
    ensures forall i :: i in tables <==> i in ports
    ensures forall i :: i in ports ==> Lists(tables[i], ports[i].vids)
  {
    tables := map[];
    var todo := ports.Keys;
    while exists i :: i in todo
      invariant todo <= ports.Keys
      invariant forall i :: i in tables <==> i in ports && i !in todo
      invariant forall i :: i in tables ==> Lists(tables[i], ports[i].vids)
      decreases todo
    {
      var i :| i in todo;
      var vids := InAnyOrder(ports[i].vids);
      tables := tables[i := vids];
      todo := todo - {i};
    }
  }

  // A handle on the namespace of a pod: none yet, open, or closed.
  datatype NetNS = Unopened | Opened(netns: nat) | Closed(netns: nat)

  // One host as one CNI process sees it.
  class Host {
    var k: State
    var ns: nat                           // namespace of the calling thread
    var locked: bool                      // this process holds the uplink lock
    ghost var failures: nat               // requests that have failed so far
    ghost var listFailures: nat           // how many of them were BridgeVlanList
    ghost var outside: nat                // VLAN requests and dumps made without holding the lock
    ghost var locks: nat                  // how often the lock has been taken
    ghost var atLock: State               // the kernel when it was last taken
    const reps: map<(string, int), string> // representor of every VF, by PF and VF index

    ghost predicate Present(s: State, link: Link)
      reads this`ns
    {
      link.index in s.links && s.links[link.index].netns == ns
    }

    method LinkByName(name: string) returns (ok: bool, link: Link)
      requires Valid(k)
      modifies this`failures
      ensures ok ==> failures == old(failures)
      ensures ok ==>
                Is(k.links, link.index, name, ns) && link == k.links[link.index]
                && link.index == Find(k.links, name, ns) != 0
      ensures !ok ==> failures > old(failures)
    {
      var up: bool := *;
      if i :| up && i in k.links && k.links[i].name == name && k.links[i].netns == ns {
        ok, link := true, k.links[i];
        assert LinkOk(k.links, i);
        FindIs(k, i, name, ns);
      } else {
        ok, link, failures := false, NO_LINK, failures + 1;
      }
    }

    method LinkByIndex(index: int) returns (ok: bool, link: Link)
      requires Valid(k)
      modifies this`failures
      ensures ok ==> failures == old(failures)
      ensures ok ==> index in k.links && k.links[index].netns == ns && link == k.links[index]
      ensures !ok ==> failures > old(failures)
    {
      var up: bool := *;
      if up && index in k.links && k.links[index].netns == ns {
        ok, link := true, k.links[index];
      } else {
        ok, link, failures := false, NO_LINK, failures + 1;
      }
    }

    // Every request below either replaces the attributes it is about or fails.
    method Change(link: Link, now: Link) returns (ok: bool)
      requires Valid(k)
      requires link.index in k.links ==>
                 var o := k.links[link.index];
                 && now.index == link.index && now.netns == o.netns && now.master == o.master && now.kind == o.kind
                 && (now.name == o.name || NameIsFree(k, now.name, now.netns))
      modifies this`k, this`failures
      ensures Valid(k)
      ensures ok ==> Present(old(k), link) && k == SetLink(old(k), now) && failures == old(failures)
      ensures !ok ==> k == old(k) && failures > old(failures)
    {
      var up: bool := *;
      if up && link.index in k.links && k.links[link.index].netns == ns {
        SetLinkIsValid(k, now);
        k := SetLink(k, now);
        ok := true;
      } else {
        ok, failures := false, failures + 1;
      }
    }

    // The current attributes behind a snapshot.
    function Now(link: Link): Link
      reads this`k
    {
      if link.index in k.links then k.links[link.index] else link
    }

    method LinkSetUp(link: Link, up: bool) returns (ok: bool)
      requires Valid(k)
      modifies this`k, this`failures
      ensures Valid(k)
      ensures ok ==> Present(old(k), link) && k == SetLink(old(k), old(k).links[link.index].(up := up))
      ensures ok ==> failures == old(failures)
      ensures !ok ==> k == old(k) && failures > old(failures)
    {
      assert link.index in k.links ==> LinkOk(k.links, link.index);
      ok := Change(link, Now(link).(up := up));
    }

    method LinkSetMTU(link: Link, mtu: int) returns (ok: bool)
      requires Valid(k)
      modifies this`k, this`failures
      ensures Valid(k)
      ensures ok ==> Present(old(k), link) && k == SetLink(old(k), old(k).links[link.index].(mtu := mtu))
      ensures ok ==> failures == old(failures)
      ensures !ok ==> k == old(k) && failures > old(failures)
    {
      assert link.index in k.links ==> LinkOk(k.links, link.index);
      ok := Change(link, Now(link).(mtu := mtu));
    }

    method LinkSetHardwareAddr(link: Link, mac: int) returns (ok: bool)
      requires Valid(k)
      modifies this`k, this`failures
      ensures Valid(k)
      ensures ok ==> Present(old(k), link) && k == SetLink(old(k), old(k).links[link.index].(mac := mac))
      ensures ok ==> failures == old(failures)
      ensures !ok ==> k == old(k) && failures > old(failures)
    {
      assert link.index in k.links ==> LinkOk(k.links, link.index);
      ok := Change(link, Now(link).(mac := mac));
    }

    method LinkSetVfHardwareAddr(link: Link, vf: int, mac: int) returns (ok: bool)
      requires Valid(k)
      modifies this`k, this`failures
      ensures Valid(k)
      ensures ok ==> Present(old(k), link) && vf in old(k).links[link.index].vfs
      ensures ok ==> k == SetLink(old(k), old(k).links[link.index].(vfs := old(k).links[link.index].vfs[vf := mac]))
      ensures ok ==> failures == old(failures)
      ensures !ok ==> k == old(k) && failures > old(failures)
    {
      if vf !in Now(link).vfs || link.index !in k.links {
        ok, failures := false, failures + 1;
      } else {
        assert LinkOk(k.links, link.index);
        ok := Change(link, Now(link).(vfs := Now(link).vfs[vf := mac]));
      }
    }

    // A name that is taken in the namespace is refused.
    method LinkSetName(link: Link, name: string) returns (ok: bool)
      requires Valid(k)
      modifies this`k, this`failures
      ensures Valid(k)
      ensures ok ==> Present(old(k), link) && k == SetLink(old(k), old(k).links[link.index].(name := name))
      ensures ok ==> failures == old(failures)
      ensures !ok ==> k == old(k) && failures > old(failures)
    {
      if Now(link).name != name && !NameIsFree(k, name, Now(link).netns) {
        ok, failures := false, failures + 1;
      } else {
        assert link.index in k.links ==> LinkOk(k.links, link.index);
        ok := Change(link, Now(link).(name := name));
      }
    }

    // Moving is refused for masters and when the name is taken over there.
    method LinkSetNsFd(link: Link, netns: nat) returns (ok: bool)
      requires Valid(k)
      modifies this`k, this`failures
      ensures Valid(k)
      ensures ok ==> Present(old(k), link) && k == MoveTo(old(k), link.index, netns) && failures == old(failures)
      ensures !ok ==> k == old(k) && failures > old(failures)
    {
      var up: bool := *;
      if up && link.index in k.links && k.links[link.index].netns == ns && k.links[link.index].kind.Device?
         && (k.links[link.index].netns == netns || NameIsFree(k, k.links[link.index].name, netns)) {
        MoveToIsValid(k, link.index, netns);
        k := MoveTo(k, link.index, netns);
        ok := true;
      } else {
        ok, failures := false, failures + 1;
      }
    }

    // Only plain devices are put on a bridge.
    method LinkSetMaster(link: Link, master: Link) returns (ok: bool)
      requires Valid(k)
      modifies this`k, this`failures
      ensures Valid(k)
      ensures ok ==> Present(old(k), link) && Present(old(k), master)
      ensures ok ==> old(k).links[link.index].kind.Device? && old(k).links[master.index].kind.Bridge?
      ensures ok ==> k == SetMaster(old(k), link.index, master.index) && failures == old(failures)
      ensures !ok ==> k == old(k) && failures > old(failures)
    {
      var up: bool := *;
      if up && link.index in k.links && master.index in k.links
         && k.links[link.index].netns == ns && k.links[master.index].netns == ns
         && k.links[link.index].kind.Device? && k.links[master.index].kind.Bridge? {
        SetMasterIsValid(k, link.index, master.index);
        k := SetMaster(k, link.index, master.index);
        ok := true;
      } else {
        ok, failures := false, failures + 1;
      }
    }

    method LinkSetNoMaster(link: Link) returns (ok: bool)
      requires Valid(k)
      modifies this`k, this`failures
      ensures Valid(k)
      ensures ok ==> Present(old(k), link) && k == NoMaster(old(k), link.index) && failures == old(failures)
      ensures !ok ==> k == old(k) && failures > old(failures)
    {
      var up: bool := *;
      if up && link.index in k.links && k.links[link.index].netns == ns {
        NoMasterIsValid(k, link.index);
        k := NoMaster(k, link.index);
        ok := true;
      } else {
        ok, failures := false, failures + 1;
      }
    }

    // VLAN 0 and VLANs from 4095 on are refused, and so is a link that is no bridge port.
    method BridgeVlanAdd(link: Link, vid: int, native: bool) returns (ok: bool)
      requires Valid(k)
      modifies this`k, this`failures, this`outside
      ensures Valid(k)
      ensures outside == old(outside) + if locked then 0 else 1
      ensures ok ==> 1 <= vid <= 4094 && link.index in old(k).ports && failures == old(failures)
      ensures ok ==> k == SetPort(old(k), link.index, if native then TagNative(old(k).ports[link.index], vid)
                                                      else Tag(old(k).ports[link.index], {vid}))
      ensures !ok ==> k == old(k) && failures > old(failures)
    {
      outside := outside + if locked then 0 else 1;
      var up: bool := *;
      if up && 1 <= vid <= 4094 && link.index in k.ports {
        var t := if native then TagNative(k.ports[link.index], vid) else Tag(k.ports[link.index], {vid});
        SetPortIsValid(k, link.index, t);
        k := SetPort(k, link.index, t);
        ok := true;
      } else {
        ok, failures := false, failures + 1;
      }
    }

    method BridgeVlanDel(link: Link, vid: int) returns (ok: bool)
      requires Valid(k)
      modifies this`k, this`failures, this`outside
      ensures Valid(k)
      ensures outside == old(outside) + if locked then 0 else 1
      ensures ok ==> link.index in old(k).ports && failures == old(failures)
      ensures ok ==> k == SetPort(old(k), link.index, Without(old(k).ports[link.index], {vid}))
      ensures !ok ==> k == old(k) && failures > old(failures)
    {
      outside := outside + if locked then 0 else 1;
      var up: bool := *;
      if up && 1 <= vid <= 4094 && link.index in k.ports {
        SetPortIsValid(k, link.index, Without(k.ports[link.index], {vid}));
        k := SetPort(k, link.index, Without(k.ports[link.index], {vid}));
        ok := true;
      } else {
        ok, failures := false, failures + 1;
      }
    }

    // The VLAN tables of all ports, each a list in some order; empty when the request fails.
    method BridgeVlanList() returns (ok: bool, tables: map<int, seq<int>>)
      requires Valid(k)
      modifies this`failures, this`listFailures, this`outside
      ensures outside == old(outside) + if locked then 0 else 1
      ensures ok ==> failures == old(failures) && listFailures == old(listFailures)
      ensures ok ==> forall i :: i in tables <==> i in k.ports
      ensures ok ==> forall i :: i in k.ports ==> Lists(tables[i], k.ports[i].vids)
      ensures !ok ==> tables == map[] && failures > old(failures) && listFailures > old(listFailures)
    {
      outside := outside + if locked then 0 else 1;
      var up: bool := *;
      if !up {
        ok, tables, failures, listFailures := false, map[], failures + 1, listFailures + 1;
        return;
      }
      ok := true;
      tables := Dump(k.ports);
    }

    // The links of the calling thread's namespace, in some order.
    method LinkList() returns (ok: bool, all: seq<Link>)
      requires Valid(k)
      modifies this`failures, this`outside
      ensures outside == old(outside) + if locked then 0 else 1
      ensures ok ==> failures == old(failures)
      ensures ok ==> forall l :: l in all <==> l.index in k.links && k.links[l.index] == l && l.netns == ns
      ensures !ok ==> failures > old(failures)
    {
      outside := outside + if locked then 0 else 1;
      var up: bool := *;
      all := [];
      if !up {
        ok, failures := false, failures + 1;
        return;
      }
      ok := true;
      var todo := k.links.Keys;
      while exists i :: i in todo
        invariant todo <= k.links.Keys
        invariant forall l :: l in all <==>
                    l.index in k.links && l.index !in todo && k.links[l.index] == l && l.netns == ns
        decreases todo
      {
        var i :| i in todo;
        assert LinkOk(k.links, i);
        if k.links[i].netns == ns {
          all := all + [k.links[i]];
        }
        todo := todo - {i};
      }
    }

    // sriovnet.GetVfRepresentor
    method GetVfRepresentor(pf: string, vf: int) returns (ok: bool, name: string)
      modifies this`failures
      ensures ok ==> (pf, vf) in reps && name == reps[(pf, vf)] && failures == old(failures)
      ensures !ok ==> name == "" && failures > old(failures)
    {
      var up: bool := *;
      if up && (pf, vf) in reps {
        ok, name := true, reps[(pf, vf)];
      } else {
        ok, name, failures := false, "", failures + 1;
      }
    }

    // The file lock; other processes only make Lock wait.
    method Lock() returns (ok: bool)
      modifies this`locked, this`failures, this`locks, this`atLock
      ensures ok ==> locked && failures == old(failures) && locks == old(locks) + 1 && atLock == k
      ensures !ok ==> locked == old(locked) && failures > old(failures) && locks == old(locks) && atLock == old(atLock)
    {
      ok := *;
      if ok {
        locked, locks, atLock := true, locks + 1, k;
      } else {
        failures := failures + 1;
      }
    }

    method Unlock()
      modifies this`locked
      ensures !locked
    {
      locked := false;
    }

    // p.netNS.GetNS; the last result is its NSPathNotExistErr.
    method GetNS(path: Option<nat>) returns (ok: bool, netns: nat, notExist: bool)
      modifies this`failures
      ensures ok ==> path == Some(netns) && netns > 0 && failures == old(failures)
      ensures !ok ==> failures > old(failures)
    {
      var up: bool := *;
      notExist := *;
      if up && path.Some? && path.value > 0 {
        ok, netns := true, path.value;
      } else {
        ok, netns, failures := false, 0, failures + 1;
      }
    }

    // netns.Do: enter a namespace, and come back.
    method Enter(netns: nat) returns (ok: bool)
      modifies this`ns, this`failures
      ensures ok ==> ns == netns && failures == old(failures)
      ensures !ok ==> ns == old(ns) && failures > old(failures)
    {
      ok := *;
      if ok {
        ns := netns;
      } else {
        failures := failures + 1;
      }
    }

    // Do on a handle: without an open one it is an error, and no request is made.
    method EnterThrough(handle: NetNS) returns (ok: bool)
      modifies this`ns, this`failures
      ensures ok ==> handle.Opened? && ns == handle.netns && failures == old(failures)
      ensures !ok ==> ns == old(ns) && (handle.Opened? ==> failures > old(failures))
      ensures !handle.Opened? ==> failures == old(failures)
    {
      if !handle.Opened? {
        return false;
      }
      ok := Enter(handle.netns);
    }

    method Leave(netns: nat)
      modifies this`ns
      ensures ns == netns
    {
      ns := netns;
    }
  }

  method BridgePVIDVlanAdd(h: Host, link: Link, vlanID: int) returns (ok: bool)
    requires Valid(h.k)
    modifies h`k, h`failures, h`outside
    ensures Valid(h.k) && (h.locked ==> h.outside == old(h.outside))
    ensures ok ==> link.index in old(h.k).ports && h.failures == old(h.failures)
    ensures ok ==> h.k == SetPort(old(h.k), link.index, TagNative(old(h.k).ports[link.index], Vid(vlanID)))
    ensures !ok ==> h.k == old(h.k) && h.failures > old(h.failures)
  {
    ok := h.BridgeVlanAdd(link, Vid(vlanID), true);
  }

  method BridgePVIDVlanDel(h: Host, link: Link, vlanID: int) returns (ok: bool)
    requires Valid(h.k)
    modifies h`k, h`failures, h`outside
    ensures Valid(h.k) && (h.locked ==> h.outside == old(h.outside))
    ensures ok ==> link.index in old(h.k).ports && h.failures == old(h.failures)
    ensures ok ==> h.k == SetPort(old(h.k), link.index, Without(old(h.k).ports[link.index], {Vid(vlanID)}))
    ensures !ok ==> h.k == old(h.k) && h.failures > old(h.failures)
  {
    ok := h.BridgeVlanDel(link, Vid(vlanID));
  }

  // Adds the VLANs one by one and stops at the first failure: `added` is how far it came.
  method BridgeTrunkVlanAdd(h: Host, link: Link, vlans: seq<int>) returns (ok: bool, ghost added: seq<int>)
    requires Valid(h.k)
    modifies h`k, h`failures, h`outside
    ensures Valid(h.k) && (h.locked ==> h.outside == old(h.outside))
    ensures added <= vlans && h.k == Tagged(old(h.k), link.index, Vids(added))
    ensures ok ==> added == vlans && h.failures == old(h.failures)
    ensures ok && vlans != [] ==> link.index in old(h.k).ports
    ensures !ok ==> h.failures > old(h.failures)
  {
    added := [];
    var n := 0;
    while n < |vlans|
      invariant 0 <= n <= |vlans| && added == vlans[..n]
      invariant Valid(h.k) && h.failures == old(h.failures) && (h.locked ==> h.outside == old(h.outside))
      invariant n > 0 ==> link.index in old(h.k).ports
      invariant h.k == Tagged(old(h.k), link.index, Vids(added))
    {
      ok := h.BridgeVlanAdd(link, Vid(vlans[n]), false);
      if !ok {
        return;
      }
      VidsOfPrefix(vlans, n);
      TaggedAgain(old(h.k), link.index, Vids(added), Vid(vlans[n]));
      n := n + 1;
      added := vlans[..n];
    }
    ok := true;
  }

  method BridgeTrunkVlanDel(h: Host, link: Link, vlans: seq<int>) returns (ok: bool, ghost gone: seq<int>)
    requires Valid(h.k)
    modifies h`k, h`failures, h`outside
    ensures Valid(h.k) && (h.locked ==> h.outside == old(h.outside))
    ensures gone <= vlans && h.k == Removed(old(h.k), link.index, Vids(gone))
    ensures ok ==> gone == vlans && h.failures == old(h.failures)
    ensures ok && vlans != [] ==> link.index in old(h.k).ports
    ensures !ok ==> h.failures > old(h.failures)
  {
    gone := [];
    var n := 0;
    while n < |vlans|
      invariant 0 <= n <= |vlans| && gone == vlans[..n]
      invariant Valid(h.k) && h.failures == old(h.failures) && (h.locked ==> h.outside == old(h.outside))
      invariant n > 0 ==> link.index in old(h.k).ports
      invariant h.k == Removed(old(h.k), link.index, Vids(gone))
    {
      ok := h.BridgeVlanDel(link, Vid(vlans[n]));
      if !ok {
        return;
      }
      VidsOfPrefix(vlans, n);
      RemovedAgain(old(h.k), link.index, Vids(gone), Vid(vlans[n]));
      n := n + 1;
      gone := vlans[..n];
    }
    ok := true;
  }

  // getMasterInterface; the error of a link without master is no failed request.
  method GetMasterInterface(h: Host, link: Link) returns (ok: bool, master: Link)
    requires Valid(h.k)
    modifies h`failures
    ensures ok ==> h.failures == old(h.failures) && link.master in h.k.links && master == h.k.links[link.master]
    ensures !ok ==> link.master == 0 || h.failures > old(h.failures)
    ensures h.failures >= old(h.failures)
  {
    if link.master == 0 {
      return false, NO_LINK;
    }
    ok, master := h.LinkByIndex(link.master);
  }

  method GetParentBondForLink(h: Host, link: Link) returns (ok: bool, master: Link)
    requires Valid(h.k)
    modifies h`failures
    ensures ok ==> h.failures == old(h.failures)
    ensures ok ==> link.master in h.k.links && master == h.k.links[link.master] && master.kind.Bond?
    ensures !ok && h.failures == old(h.failures) ==> link.master !in h.k.links || !h.k.links[link.master].kind.Bond?
    ensures h.failures >= old(h.failures)
  {
    assert 0 !in h.k.links by {
      assert forall i :: i in h.k.links ==> LinkOk(h.k.links, i);
    }
    ok, master := GetMasterInterface(h, link);
    if ok && !master.kind.Bond? {
      ok := false;
    }
  }

  // Walks the master chain; it terminates because every hop leads to a link of
  // higher rank, so fewer and fewer links lie ahead.
  method GetParentBridgeForLink(h: Host, link: Link) returns (ok: bool, bridge: Link)
    requires Valid(h.k)
    requires link.index in h.k.links && h.k.links[link.index] == link
    modifies h`failures
    ensures h.failures >= old(h.failures)
    ensures ok ==> h.failures == old(h.failures)
    ensures ok ==> bridge.index in h.k.links && bridge == h.k.links[bridge.index]
    ensures ok ==> IsParentBridge(h.k.links, link.index, bridge.index)
    ensures !ok ==> ChainEnds(h.k.links, link.index) || h.failures > old(h.failures)
  {
    ghost var links := h.k.links;
    ghost var rank :| Ranked(links, rank);
    assert forall i :: i in links ==> LinkOk(links, i);
    var master := link;
    ghost var n: nat := 0;
    while !master.kind.Bridge?
      invariant h.failures == old(h.failures)
      invariant master.index in links && links[master.index] == master
      invariant MasterAt(links, link.index, n) == master.index
      invariant forall m: nat :: m < n ==>
                  MasterAt(links, link.index, m) in links && !links[MasterAt(links, link.index, m)].kind.Bridge?
      decreases set j | j in links && rank[j] > rank[master.index]
    {
      ghost var before := set j | j in links && rank[j] > rank[master.index];
      var found, next := GetMasterInterface(h, master);
      if !found {
        assert h.failures == old(h.failures) ==> EndsAt(links, link.index, n + 1);
        return false, NO_LINK;
      }
      assert next.index in before;
      master, n := next, n + 1;
    }
    assert FirstBridgeAt(links, link.index, n, master.index);
    return true, master;
  }

  // The links enslaved to the bridge.
  method GetBridgeLinks(h: Host, bridge: Link) returns (ok: bool, ports: seq<Link>)
    requires Valid(h.k)
    modifies h`failures, h`outside
    ensures h.locked ==> h.outside == old(h.outside)
    ensures ok ==> h.failures == old(h.failures)
    ensures ok ==> forall l :: l in ports <==>
                     l.index in h.k.links && h.k.links[l.index] == l && l.netns == h.ns && l.master == bridge.index
    ensures !ok ==> h.failures > old(h.failures)
  {
    ports := [];
    var all: seq<Link>;
    ok, all := h.LinkList();
    if !ok {
      return;
    }
    var n := 0;
    while n < |all|
      invariant 0 <= n <= |all|
      invariant forall l :: l in ports <==> l in all[..n] && l.master == bridge.index
    {
      if all[n].master == bridge.index {
        ports := ports + [all[n]];
      }
      assert all[..n + 1] == all[..n] + [all[n]];
      n := n + 1;
    }
    assert all[..n] == all;
  }
}
