/**
 What the operations on links promise, port by port and field by field.  The
 promises do without the functions of Effects; the lemmas derive them from these.
 */
module Promises {
  import opened Wrappers
  import opened VlanLists
  import opened Kernel
  import opened Types
  import opened Effects

  // VLAN v is in Trunk or is Vlan, cut to the 16 bits that the kernel gets.
  ghost predicate Asked(c: PluginConf, v: int) {
    || (exists x :: x in c.trunk && x % 0x1_0000 == v)
    || (c.netConf.vlan > 0 && c.netConf.vlan % 0x1_0000 == v)
  }

  lemma AskedAreConfVids(c: PluginConf, v: int)
    ensures Asked(c, v) <==> v in ConfVids(c)
  {
    VidsOfAppend(c.trunk, if c.netConf.vlan > 0 then [c.netConf.vlan] else []);
    if v in Vids(c.trunk) {
      var x :| x in c.trunk && Vid(x) == v;
      assert x in c.trunk && x % 0x1_0000 == v;
    }
    if x :| x in c.trunk && x % 0x1_0000 == v {
      assert Vid(x) in Vids(c.trunk);
    }
    assert Vids([c.netConf.vlan]) == {Vid(c.netConf.vlan)};
  }

  predicate StandsFor(links: map<int, Link>, u: int, pf: int)
    requires pf in links
  {
    var m := links[pf].master;
    if m in links && links[m].kind.Bond? then u == m else u == pf
  }

  // u is the uplink: the bond of the PF when the PF is in one, or else the PF.
  ghost predicate IsUplink(k: State, pfName: string, u: int) {
    exists pf :: Is(k.links, pf, pfName, 0) && StandsFor(k.links, u, pf)
  }

  lemma UplinkIsUplinkOf(k: State, c: PluginConf, u: int)
    requires Valid(k) && IsUplink(k, c.pfName, u)
    ensures u == UplinkOf(k.links, c)
  {
    var pf :| Is(k.links, pf, c.pfName, 0) && StandsFor(k.links, u, pf);
    FindIs(k, pf, c.pfName, 0);
  }

  lemma UplinkOfIsUplink(k: State, c: PluginConf)
    requires Valid(k) && UplinkOf(k.links, c) in k.links
    ensures IsUplink(k, c.pfName, UplinkOf(k.links, c))
  {
    var pf := Find(k.links, c.pfName, 0);
    ZeroIsNoLink(k);
    assert Is(k.links, pf, c.pfName, 0) && StandsFor(k.links, UplinkOf(k.links, c), pf);
  }

  // The table with the VLANs asked for as tagged ones.
  ghost predicate Extended(t: PortVlans, t2: PortVlans, c: PluginConf) {
    && (forall v :: v in t2.vids <==> v in t.vids || Asked(c, v))
    && (forall v :: v in t2.untagged <==> v in t.untagged && !Asked(c, v))
    && t2.pvid == if t.pvid.Some? && Asked(c, t.pvid.value) then None else t.pvid
  }

  predicate SameBridge(links: map<int, Link>, q: int, u: int) {
    q in links && u in links && links[q].master == links[u].master
  }

  // VLAN v is on no port of the bridge but u, the port `left` not counted.
  ghost predicate OnlyOn(k: State, u: int, left: int, v: int) {
    forall q :: q in k.ports && q != u && q != left && SameBridge(k.links, q, u) ==> v !in k.ports[q].vids
  }

  // The VLANs that pruning may take off u.
  ghost predicate Unneeded(k: State, c: PluginConf, u: int, left: int, v: int) {
    Asked(c, v) && OnlyOn(k, u, left, v)
  }

  // The table of u without them.
  ghost predicate PrunedTable(k: State, t2: PortVlans, c: PluginConf, u: int, left: int)
    requires u in k.ports
  {
    var t := k.ports[u];
    && (forall v :: v in t2.vids <==> v in t.vids && !Unneeded(k, c, u, left, v))
    && (forall v :: v in t2.untagged <==> v in t.untagged && !Unneeded(k, c, u, left, v))
    && t2.pvid == if t.pvid.Some? && Unneeded(k, c, u, left, t.pvid.value) then None else t.pvid
  }

  lemma TagExtends(t: PortVlans, c: PluginConf)
    ensures Extended(t, Tag(t, ConfVids(c)), c)
  {
    forall v ensures Asked(c, v) <==> v in ConfVids(c) {
      AskedAreConfVids(c, v);
    }
  }

  lemma UnneededAreUnused(k: State, off: State, c: PluginConf, u: int, left: int, v: int)
    requires off.links.Keys == k.links.Keys && off.ports.Keys == k.ports.Keys - {left} && u != left
    requires forall j :: j in k.links && j != left ==> off.links[j].master == k.links[j].master
    requires forall q :: q in off.ports ==> off.ports[q] == k.ports[q]
    ensures Unneeded(k, c, u, left, v) <==> v in UnusedVids(off, u, ConfVids(c))
  {
    AskedAreConfVids(c, v);
    if CarriedElsewhere(off, u, v) {
      var q :| q in off.ports && q != u && q in off.links && u in off.links
               && off.links[q].master == off.links[u].master && v in off.ports[q].vids;
      assert q in k.ports && v in k.ports[q].vids;
    }
  }

  lemma WithoutPrunes(k: State, off: State, c: PluginConf, u: int, left: int)
    requires off.links.Keys == k.links.Keys && off.ports.Keys == k.ports.Keys - {left} && u != left && u in k.ports
    requires forall j :: j in k.links && j != left ==> off.links[j].master == k.links[j].master
    requires forall q :: q in off.ports ==> off.ports[q] == k.ports[q]
    ensures PrunedTable(k, Without(k.ports[u], UnusedVids(off, u, ConfVids(c))), c, u, left)
  {
    forall v ensures Unneeded(k, c, u, left, v) <==> v in UnusedVids(off, u, ConfVids(c)) {
      UnneededAreUnused(k, off, c, u, left, v);
    }
  }

  // After addUplinkVlans: the uplink has all VLANs asked for, and nothing else has
  // changed.  If there are any, it is a bridge port.
  ghost predicate UplinkHasAll(k: State, k2: State, c: PluginConf) {
    && k2.links == k.links && k2.ports.Keys == k.ports.Keys
    && (exists u :: IsUplink(k, c.pfName, u))
    && (forall q :: q in k.ports ==>
          if IsUplink(k, c.pfName, q) then Extended(k.ports[q], k2.ports[q], c) else k2.ports[q] == k.ports[q])
    && (forall u, v :: IsUplink(k, c.pfName, u) && Asked(c, v) ==> u in k2.ports && v in k2.ports[u].vids)
  }

  lemma AddedToUplink(k: State, k2: State, c: PluginConf)
    requires Valid(k) && UplinkOf(k.links, c) in k.links && k2 == Tagged(k, UplinkOf(k.links, c), ConfVids(c))
    requires ConfVids(c) != {} ==> UplinkOf(k.links, c) in k.ports
    ensures UplinkHasAll(k, k2, c)
  {
    var u := UplinkOf(k.links, c);
    UplinkOfIsUplink(k, c);
    forall q | IsUplink(k, c.pfName, q) ensures q == u {
      UplinkIsUplinkOf(k, c, q);
    }
    forall v ensures Asked(c, v) <==> v in ConfVids(c) {
      AskedAreConfVids(c, v);
    }
    if u in k.ports {
      TaggedAsSetPort(k, u, ConfVids(c));
      TagExtends(k.ports[u], c);
    }
  }

  // After deleteUplinkVlans, every call successful: the uplink has lost exactly the
  // VLANs asked for that no other port of its bridge carries.
  ghost predicate UplinkIsPruned(k: State, k2: State, c: PluginConf) {
    && k2.links == k.links && k2.ports.Keys == k.ports.Keys
    && forall q :: q in k.ports ==>
         if IsUplink(k, c.pfName, q) then PrunedTable(k, k2.ports[q], c, q, 0) else k2.ports[q] == k.ports[q]
  }

  // And with calls failing it has lost such VLANs at most; when the VLAN tables
  // could not be read, any of those asked for.
  ghost predicate UplinkKeepsUsed(k: State, k2: State, c: PluginConf, listed: bool) {
    && k2.links == k.links && k2.ports.Keys == k.ports.Keys
    && forall q :: q in k.ports ==>
         if IsUplink(k, c.pfName, q) then KeepsUsed(k, k2.ports[q], c, q, 0, listed) else k2.ports[q] == k.ports[q]
  }

  ghost predicate KeepsUsed(k: State, t2: PortVlans, c: PluginConf, u: int, left: int, listed: bool)
    requires u in k.ports
  {
    && t2.vids <= k.ports[u].vids
    && forall v :: v in k.ports[u].vids && v !in t2.vids ==> if listed then Unneeded(k, c, u, left, v) else Asked(c, v)
  }

  lemma PrunedFromUplink(k: State, c: PluginConf)
    requires Valid(k)
    ensures UplinkIsPruned(k, Pruned(k, c), c)
  {
    var u := UplinkOf(k.links, c);
    ZeroIsNoLink(k);
    assert 0 in k.ports ==> IsPort(k.links, 0);
    forall q | IsUplink(k, c.pfName, q) ensures q == u {
      UplinkIsUplinkOf(k, c, q);
    }
    if u in k.ports {
      PortIsLink(k, u);
      UplinkOfIsUplink(k, c);
      WithoutPrunes(k, k, c, u, 0);
      WithoutNothing(k.ports[u]);
    }
  }

  lemma WithoutNothing(t: PortVlans)
    ensures Without(t, {}) == t
  {
    assert t.vids - {} == t.vids && t.untagged - {} == t.untagged;
  }

  lemma GoneFromUplink(k: State, c: PluginConf, gone: set<int>, listed: bool)
    requires Valid(k) && gone <= if listed then UnusedVids(k, UplinkOf(k.links, c), ConfVids(c)) else ConfVids(c)
    ensures UplinkKeepsUsed(k, Removed(k, UplinkOf(k.links, c), gone), c, listed)
  {
    var u := UplinkOf(k.links, c);
    ZeroIsNoLink(k);
    assert 0 in k.ports ==> IsPort(k.links, 0);
    forall q | IsUplink(k, c.pfName, q) ensures q == u {
      UplinkIsUplinkOf(k, c, q);
    }
    if u in k.ports {
      PortIsLink(k, u);
      UplinkOfIsUplink(k, c);
      forall v | v in gone ensures if listed then Unneeded(k, c, u, 0, v) else Asked(c, v) {
        AskedAreConfVids(c, v);
        UnneededAreUnused(k, k, c, u, 0, v);
      }
    }
  }

  // The table of a representor that has just joined the bridge: Trunk and Vlan, or
  // VLAN 1 when neither is set; untagged is what is native.
  ghost predicate FreshTable(t: PortVlans, c: PluginConf) {
    var plain := c.trunk == [] && c.netConf.vlan <= 0;
    && (forall v :: v in t.vids <==> Asked(c, v) || (plain && v == 1))
    && t.pvid == (if c.netConf.vlan > 0 then Some(c.netConf.vlan % 0x1_0000) else if plain then Some(1) else None)
    && (forall v :: v in t.untagged <==> t.pvid == Some(v))
  }

  lemma PromisedIsFresh(c: PluginConf)
    ensures FreshTable(PromisedPort(c.trunk, c.netConf.vlan), c)
  {
    forall v ensures Asked(c, v) <==> v in ConfVids(c) {
      AskedAreConfVids(c, v);
    }
  }

  // Representor r up, on bridge b, with the MTU asked for; no other link has changed.
  ghost predicate RepresentorOn(k: State, k2: State, c: PluginConf, r: int, b: int)
    requires r in k.links
  {
    && r in k2.links && k2.links == k.links[r := k2.links[r]]
    && k2.links[r].up && k2.links[r].master == b
    && k2.links[r].mtu == (if c.mtu != 0 then c.mtu else k.links[r].mtu)
    && k2.links[r] == k.links[r].(up := true, master := b, mtu := k2.links[r].mtu)
  }

  // Its table is the one asked for, the uplink has been extended when that was
  // asked for, and all other tables are as before.
  ghost predicate RepresentorTables(k: State, k2: State, c: PluginConf, r: int, b: int)
    requires r in k.links
  {
    && k2.ports.Keys == k.ports.Keys + {r}
    && (k.links[r].master != b ==> FreshTable(k2.ports[r], c))
    && (forall q :: q in k.ports && q != r ==>
          if c.netConf.setUplinkVlan && IsUplink(k, c.pfName, q) then Extended(k.ports[q], k2.ports[q], c)
          else k2.ports[q] == k.ports[q])
  }

  // AttachRepresentor; c names the representor.
  ghost predicate AttachedAsAsked(k: State, k2: State, c: PluginConf) {
    && (exists r, b :: Is(k.links, r, c.representor, 0) && Is(k.links, b, c.actualBridge, 0))
    && forall r, b :: Is(k.links, r, c.representor, 0) && Is(k.links, b, c.actualBridge, 0) ==>
         && RepresentorOn(k, k2, c, r, b)
         && (k.links[r].name != c.pfName ==> RepresentorTables(k, k2, c, r, b))
  }

  lemma JoinedTable(k: State, r: int, b: int, c: PluginConf)
    requires Valid(k) && r in k.links && k.links[r].kind.Device? && b in k.links && k.links[b].kind.Bridge?
    ensures var k2 := Joined(k, r, b, c);
            && k2.ports.Keys == k.ports.Keys + {r}
            && (k.links[r].master != b ==> FreshTable(k2.ports[r], c))
            && forall q :: q in k.ports && q != r ==> k2.ports[q] == k.ports[q]
  {
    FreshPortIsAsPromised(c.trunk, c.netConf.vlan);
    PromisedIsFresh(c);
  }

  lemma SameUplinkOn(k: State, c: PluginConf, r: int, b: int)
    requires Valid(k) && r in k.links && k.links[r].name != c.pfName
    ensures UplinkOf(Joined(k, r, b, c).links, c) == UplinkOf(k.links, c)
  {
    ZeroIsNoLink(k);
    assert LinkOk(k.links, r);
    FindSame(k, Joined(k, r, b, c).links, c.pfName, 0);
  }

  // From the state with the representor on the bridge to that with the uplink extended.
  lemma UplinkTables(k: State, on: State, c: PluginConf, r: int, b: int)
    requires Valid(k) && r in k.links && on.ports.Keys == k.ports.Keys + {r} && UplinkOf(k.links, c) != r
    requires k.links[r].master != b ==> FreshTable(on.ports[r], c)
    requires forall q :: q in k.ports && q != r ==> on.ports[q] == k.ports[q]
    requires UplinkOf(on.links, c) == UplinkOf(k.links, c)
    ensures RepresentorTables(k, WithUplink(on, c), c, r, b)
  {
    var u := UplinkOf(k.links, c);
    forall q | IsUplink(k, c.pfName, q) ensures q == u {
      UplinkIsUplinkOf(k, c, q);
    }
    if u in k.ports {
      PortIsLink(k, u);
      UplinkOfIsUplink(k, c);
      TagExtends(k.ports[u], c);
      TaggedAsSetPort(on, u, ConfVids(c));
    }
  }

  lemma RepresentorIsNoUplink(k: State, c: PluginConf, r: int)
    requires Valid(k) && r in k.links && k.links[r].kind.Device? && k.links[r].name != c.pfName
    ensures UplinkOf(k.links, c) != r
  {
    ZeroIsNoLink(k);
  }

  lemma AttachedTables(k: State, c: PluginConf, r: int, b: int)
    requires Valid(k) && r == Find(k.links, c.representor, 0) && b == Find(k.links, c.actualBridge, 0)
    requires r in k.links && k.links[r].kind.Device? && b in k.links && k.links[b].kind.Bridge?
    requires k.links[r].name != c.pfName
    ensures RepresentorTables(k, Attached(k, c), c, r, b)
  {
    JoinedTable(k, r, b, c);
    SameUplinkOn(k, c, r, b);
    RepresentorIsNoUplink(k, c, r);
    UplinkTables(k, Joined(k, r, b, c), c, r, b);
  }

  lemma AttachKeepsPromise(k: State, k2: State, c: PluginConf, c2: PluginConf)
    requires Valid(k) && AttachSucceeded(k, k2, c, c2)
    ensures AttachedAsAsked(k, k2, c2)
  {
    var r, b := Find(k.links, c2.representor, 0), Find(k.links, c2.actualBridge, 0);
    ZeroIsNoLink(k);
    assert Is(k.links, r, c2.representor, 0) && Is(k.links, b, c2.actualBridge, 0);
    if k.links[r].name != c2.pfName {
      AttachedTables(k, c2, r, b);
    }
  }

  // An AttachRepresentor that failed and was undone: a representor that was on no
  // bridge is on none, up flag and MTU aside, and no table has changed but that of
  // the uplink, which has gained VLANs asked for at most.
  ghost predicate AttachLeftNothing(k: State, k2: State, c: PluginConf) {
    forall r :: Is(k.links, r, c.representor, 0) && k.links[r].master == 0 && k.links[r].name != c.pfName ==>
      && r in k2.links && k2.links == k.links[r := k2.links[r]]
      && k2.links[r] == k.links[r].(up := k2.links[r].up, mtu := k2.links[r].mtu)
      && k2.ports.Keys == k.ports.Keys && r !in k2.ports
      && forall q :: q in k.ports ==>
           if IsUplink(k, c.pfName, q) then GainsAsked(k.ports[q], k2.ports[q], c) else k2.ports[q] == k.ports[q]
  }

  ghost predicate GainsAsked(t: PortVlans, t2: PortVlans, c: PluginConf) {
    t.vids <= t2.vids && forall v :: v in t2.vids ==> v in t.vids || Asked(c, v)
  }

  lemma RolledBackTables(k: State, k2: State, c: PluginConf, added: set<int>, r: int)
    requires Valid(k) && added <= ConfVids(c) && AttachRolledBack(k, k2, c, added)
    requires Is(k.links, r, c.representor, 0) && k.links[r].master == 0 && k.links[r].name != c.pfName
    requires r == Find(k.links, c.representor, 0)
    ensures k2.ports == k.ports || k2.ports == Tagged(k, UplinkOf(k.links, c), added).ports
    ensures r in k2.links && k2.links == k.links[r := k2.links[r]] && r !in k2.ports
    ensures k2.links[r] == k.links[r].(up := k2.links[r].up, mtu := k2.links[r].mtu)
  {
    assert LinkOk(k.links, r);
    NoPortWithoutMaster(k, r);
    SameUplinkOn(k, c, r, Find(k.links, c.actualBridge, 0));
  }

  lemma FailedAttachKeepsPromise(k: State, k2: State, c: PluginConf, added: set<int>)
    requires Valid(k) && added <= ConfVids(c) && AttachRolledBack(k, k2, c, added)
    ensures AttachLeftNothing(k, k2, c)
  {
    forall r | Is(k.links, r, c.representor, 0) && k.links[r].master == 0 && k.links[r].name != c.pfName
      ensures r in k2.links && k2.links == k.links[r := k2.links[r]] && r !in k2.ports
      ensures k2.links[r] == k.links[r].(up := k2.links[r].up, mtu := k2.links[r].mtu)
      ensures k2.ports == k.ports || k2.ports == Tagged(k, UplinkOf(k.links, c), added).ports
    {
      FindIs(k, r, c.representor, 0);
      RolledBackTables(k, k2, c, added, r);
    }
    forall q | q in k.ports ensures
      var t2 := Tagged(k, UplinkOf(k.links, c), added).ports[q];
      if IsUplink(k, c.pfName, q) then GainsAsked(k.ports[q], k.ports[q], c) && GainsAsked(k.ports[q], t2, c)
      else t2 == k.ports[q]
    {
      TaggedGains(k, c, added, q);
    }
  }

  lemma TaggedGains(k: State, c: PluginConf, added: set<int>, q: int)
    requires Valid(k) && q in k.ports && added <= ConfVids(c)
    ensures var t2 := Tagged(k, UplinkOf(k.links, c), added).ports[q];
            if IsUplink(k, c.pfName, q) then GainsAsked(k.ports[q], t2, c) else t2 == k.ports[q]
  {
    PortIsLink(k, q);
    if q == UplinkOf(k.links, c) {
      UplinkOfIsUplink(k, c);
      forall v | v in added ensures Asked(c, v) {
        AskedAreConfVids(c, v);
      }
    } else if IsUplink(k, c.pfName, q) {
      UplinkIsUplinkOf(k, c, q);
    }
  }

  // Representor r down, its MTU restored, off the bridge; no other link has changed.
  ghost predicate RepresentorOff(k: State, k2: State, c: PluginConf, r: int)
    requires r in k.links
  {
    && r in k2.links && k2.links == k.links[r := k2.links[r]]
    && !k2.links[r].up && k2.links[r].master == 0
    && k2.links[r].mtu == (if c.mtu != 0 then c.origRepState.mtu else k.links[r].mtu)
    && k2.links[r] == k.links[r].(up := false, master := 0, mtu := k2.links[r].mtu)
  }

  // It has no table any more, the uplink is pruned when that was asked for, and
  // all other tables are as before.
  ghost predicate TablesPruned(k: State, k2: State, c: PluginConf, r: int) {
    && k2.ports.Keys == k.ports.Keys - {r}
    && forall q :: q in k.ports && q != r ==>
         if c.netConf.setUplinkVlan && IsUplink(k, c.pfName, q) then PrunedTable(k, k2.ports[q], c, q, r)
         else k2.ports[q] == k.ports[q]
  }

  // DetachRepresentor, every call successful.
  ghost predicate DetachedAsAsked(k: State, k2: State, c: PluginConf) {
    forall r :: Is(k.links, r, c.representor, 0) ==>
      RepresentorOff(k, k2, c, r) && (k.links[r].name != c.pfName ==> TablesPruned(k, k2, c, r))
  }

  // However far it came, the other ports keep what they and the ports beside them carry.
  ghost predicate DetachKeepsUsed(k: State, k2: State, c: PluginConf, listed: bool) {
    forall r, q :: Is(k.links, r, c.representor, 0) && k.links[r].name != c.pfName && q in k.ports && q != r ==>
      && q in k2.ports
      && if c.netConf.setUplinkVlan && IsUplink(k, c.pfName, q) then KeepsUsed(k, k2.ports[q], c, q, r, listed)
         else k2.ports[q] == k.ports[q]
  }

  lemma SameUplinkOff(k: State, c: PluginConf, r: int)
    requires Valid(k) && Is(k.links, r, c.representor, 0) && k.links[r].name != c.pfName
    ensures UplinkOf(Unplugged(k, r, c).links, c) == UplinkOf(k.links, c)
  {
    assert LinkOk(k.links, r);
    ZeroIsNoLink(k);
    FindSame(k, Unplugged(k, r, c).links, c.pfName, 0);
  }

  lemma DetachedTables(k: State, c: PluginConf, r: int)
    requires Valid(k) && Is(k.links, r, c.representor, 0) && k.links[r].name != c.pfName
    requires r == Find(k.links, c.representor, 0)
    ensures TablesPruned(k, Detached(k, c), c, r)
  {
    var u, off := UplinkOf(k.links, c), Unplugged(k, r, c);
    SameUplinkOff(k, c, r);
    forall q | IsUplink(k, c.pfName, q) ensures q == u {
      UplinkIsUplinkOf(k, c, q);
    }
    if u in k.ports && u != r {
      PortIsLink(k, u);
      UplinkOfIsUplink(k, c);
      WithoutPrunes(k, off, c, u, r);
      WithoutNothing(k.ports[u]);
    }
  }

  lemma DetachKeepsPromise(k: State, c: PluginConf)
    requires Valid(k)
    ensures DetachedAsAsked(k, Detached(k, c), c)
  {
    forall r | Is(k.links, r, c.representor, 0)
      ensures RepresentorOff(k, Detached(k, c), c, r)
      ensures k.links[r].name != c.pfName ==> TablesPruned(k, Detached(k, c), c, r)
    {
      FindIs(k, r, c.representor, 0);
      if k.links[r].name != c.pfName {
        DetachedTables(k, c, r);
      }
    }
  }

  lemma PartlyKeepsUsed(k: State, c: PluginConf, stage: nat, gone: set<int>, listed: bool, r: int, q: int)
    requires Valid(k) && gone <= ConfVids(c) && (listed ==> OnlyUnused(k, c, gone))
    requires Is(k.links, r, c.representor, 0) && k.links[r].name != c.pfName && q in k.ports && q != r
    ensures var k2 := DetachedPartly(k, c, stage, gone);
            && q in k2.ports
            && if c.netConf.setUplinkVlan && IsUplink(k, c.pfName, q) then KeepsUsed(k, k2.ports[q], c, q, r, listed)
               else k2.ports[q] == k.ports[q]
  {
    var u, off := UplinkOf(k.links, c), Unplugged(k, r, c);
    FindIs(k, r, c.representor, 0);
    SameUplinkOff(k, c, r);
    if IsUplink(k, c.pfName, q) {
      UplinkIsUplinkOf(k, c, q);
    }
    if q == u {
      PortIsLink(k, u);
      UplinkOfIsUplink(k, c);
      forall v | v in gone ensures if listed then Unneeded(k, c, u, r, v) else Asked(c, v) {
        AskedAreConfVids(c, v);
        UnneededAreUnused(k, off, c, u, r, v);
      }
    }
  }

  lemma DetachKeeps(k: State, c: PluginConf, stage: nat, gone: set<int>, listed: bool)
    requires Valid(k) && gone <= ConfVids(c) && (listed ==> OnlyUnused(k, c, gone))
    ensures DetachKeepsUsed(k, DetachedPartly(k, c, stage, gone), c, listed)
  {
    forall r, q | Is(k.links, r, c.representor, 0) && k.links[r].name != c.pfName && q in k.ports && q != r
      ensures var k2 := DetachedPartly(k, c, stage, gone);
              && q in k2.ports
              && if c.netConf.setUplinkVlan && IsUplink(k, c.pfName, q) then KeepsUsed(k, k2.ports[q], c, q, r, listed)
                 else k2.ports[q] == k.ports[q]
    {
      PartlyKeepsUsed(k, c, stage, gone, listed, r, q);
    }
  }

  // The lock was taken with links and representor table as they are now, and all
  // other tables as they were.
  ghost predicate PortBeforeLock(k: State, mid: State, k2: State, c: PluginConf) {
    forall r :: Is(k.links, r, c.representor, 0) && k.links[r].name != c.pfName ==>
      && mid.links == k2.links && mid.ports - {r} == k.ports - {r}
      && r in mid.ports && r in k2.ports && mid.ports[r] == k2.ports[r]
  }

  lemma LockedAfterPort(k: State, r: int, b: int, c: PluginConf, t: PortVlans)
    requires Valid(k) && r == Find(k.links, c.representor, 0) && b == Find(k.links, c.actualBridge, 0)
    requires r in k.links && k.links[r].kind.Device?
    requires t == Configured(BasePort(k, r, b), c.trunk, c.netConf.vlan)
    ensures PortBeforeLock(k, SetPort(Enslaved(k, r, b, c), r, t), Attached(k, c), c)
  {
    forall q | Is(k.links, q, c.representor, 0) ensures q == r {
      FindIs(k, q, c.representor, 0);
    }
    if k.links[r].name != c.pfName {
      SameUplinkOn(k, c, r, b);
      RepresentorIsNoUplink(k, c, r);
      assert SetPort(Enslaved(k, r, b, c), r, t).ports - {r} == k.ports - {r};
    }
  }

  // The lock was taken with the representor off the bridge, and nothing has
  // happened to any table before it but that.
  ghost predicate OffBeforeLock(k: State, mid: State, k2: State, c: PluginConf) {
    forall r :: Is(k.links, r, c.representor, 0) ==>
      && mid.links == k2.links && mid.ports == k.ports - {r}
      && r in mid.links && mid.links[r].master == 0
  }

  // Link l2 has the MAC address and the MTU that are asked for, or else those of l.
  predicate HasAddressAndMtu(l: Link, l2: Link, c: PluginConf) {
    && l2.mac == (match c.mac case Addr(mac) => mac case _ => l.mac)
    && l2.mtu == if c.mtu == 0 then l.mtu else c.mtu
  }

  // VF i in the pod: name, namespace, MAC and MTU as asked for, and up.  Nothing
  // else has changed.
  ghost predicate VfIsInPod(k: State, k2: State, c: PluginConf, i: int, podifName: string, netns: nat)
    requires i in k.links
  {
    && i in k2.links && k2.links == k.links[i := k2.links[i]] && k2.ports == k.ports - {i}
    && k2.links[i].name == podifName && k2.links[i].netns == netns && k2.links[i].up && k2.links[i].master == 0
    && HasAddressAndMtu(k.links[i], k2.links[i], c)
    && k2.links[i].kind == k.links[i].kind && k2.links[i].index == k.links[i].index && k2.links[i].vfs == k.links[i].vfs
  }

  // What SetupVF records: the pod name, and what the VF had where that is overridden.
  ghost predicate VfIsRecorded(k: State, c: PluginConf, c2: PluginConf, i: int, podifName: string)
    requires i in k.links
  {
    && c2 == c.(origVfState := c2.origVfState, contIFNames := podifName)
    && c2.origVfState.hostIFName == c.origVfState.hostIFName && c2.origVfState.adminMAC == c.origVfState.adminMAC
    && (c.mac.Addr? ==> c2.origVfState.effectiveMAC == Addr(k.links[i].mac))
    && (c.mtu != 0 ==> c2.origVfState.mtu == k.links[i].mtu)
  }

  // SetupVF.
  ghost predicate SetUpAsAsked(k: State, k2: State, c: PluginConf, c2: PluginConf, podifName: string, netns: nat) {
    && !c.mac.Malformed? && (exists i :: Is(k.links, i, c.origVfState.hostIFName, 0))
    && forall i :: Is(k.links, i, c.origVfState.hostIFName, 0) ==>
         VfIsInPod(k, k2, c, i, podifName, netns) && VfIsRecorded(k, c, c2, i, podifName)
  }

  lemma SetupKeepsPromise(k: State, k2: State, c: PluginConf, c2: PluginConf, podifName: string, netns: nat)
    requires Valid(k) && SetupSucceeded(k, k2, c, c2, podifName, netns)
    ensures SetUpAsAsked(k, k2, c, c2, podifName, netns)
  {
    var i := Find(k.links, c.origVfState.hostIFName, 0);
    ZeroIsNoLink(k);
    assert Is(k.links, i, c.origVfState.hostIFName, 0);
  }

  // VF i at home: name, MAC and MTU as recorded, and down.  Nothing else has changed.
  ghost predicate VfIsHome(k: State, k2: State, c: PluginConf, i: int)
    requires i in k.links
  {
    && i in k2.links && k2.links == k.links[i := k2.links[i]] && k2.ports == k.ports - {i}
    && k2.links[i].name == c.origVfState.hostIFName && k2.links[i].netns == 0
    && !k2.links[i].up && k2.links[i].master == 0
    && (if c.mac.Unset? then k2.links[i].mac == k.links[i].mac
        else c.origVfState.effectiveMAC.Addr? ==> k2.links[i].mac == c.origVfState.effectiveMAC.mac)
    && k2.links[i].mtu == (if c.mtu == 0 then k.links[i].mtu else c.origVfState.mtu)
    && k2.links[i].kind == k.links[i].kind && k2.links[i].index == k.links[i].index && k2.links[i].vfs == k.links[i].vfs
  }

  // ReleaseVF.
  ghost predicate ReleasedAsRecorded(k: State, k2: State, c: PluginConf, podifName: string, netns: nat) {
    && (exists i :: Is(k.links, i, podifName, netns))
    && forall i :: Is(k.links, i, podifName, netns) ==> VfIsHome(k, k2, c, i)
  }

  lemma ReleaseKeepsPromise(k: State, k2: State, c: PluginConf, podifName: string, netns: nat)
    requires Valid(k) && ReleaseSucceeded(k, k2, c, podifName, netns)
    ensures ReleasedAsRecorded(k, k2, c, podifName, netns)
  {
    var i := Find(k.links, podifName, netns);
    ZeroIsNoLink(k);
    assert Is(k.links, i, podifName, netns);
  }

  // The PF with another administrative MAC address of one VF; nothing else has changed.
  ghost predicate AdminIs(k: State, k2: State, pf: int, vf: int, mac: int)
    requires pf in k.links
  {
    && k2.ports == k.ports && pf in k2.links && k2.links == k.links[pf := k2.links[pf]]
    && k2.links[pf] == k.links[pf].(vfs := k2.links[pf].vfs)
    && vf in k2.links[pf].vfs && k2.links[pf].vfs[vf] == mac
    && (forall v :: v != vf ==> (v in k2.links[pf].vfs <==> v in k.links[pf].vfs))
    && (forall v :: v != vf && v in k.links[pf].vfs ==> k2.links[pf].vfs[v] == k.links[pf].vfs[v])
  }

  // ApplyVFConfig: the address the VF has is recorded, and replaced if one is asked for.
  ghost predicate AppliedAsAsked(k: State, k2: State, c: PluginConf, c2: PluginConf) {
    && !c.mac.Malformed? && (exists pf :: Is(k.links, pf, c.pfName, 0))
    && forall pf :: Is(k.links, pf, c.pfName, 0) ==>
         && c.vfID in k.links[pf].vfs
         && c2 == c.(origVfState := c.origVfState.(adminMAC := Addr(k.links[pf].vfs[c.vfID])))
         && AdminIs(k, k2, pf, c.vfID, match c.mac case Addr(mac) => mac case _ => k.links[pf].vfs[c.vfID])
  }

  lemma ApplyKeepsPromise(k: State, k2: State, c: PluginConf, c2: PluginConf)
    requires Valid(k) && ApplySucceeded(k, k2, c, c2)
    ensures AppliedAsAsked(k, k2, c, c2)
  {
    var pf := Find(k.links, c.pfName, 0);
    ZeroIsNoLink(k);
    assert Is(k.links, pf, c.pfName, 0) && LinkOk(k.links, pf);
    assert k2.links[pf] == k.links[pf].(vfs := k2.links[pf].vfs);
    assert c.mac.Unset? ==> k.links[pf := k.links[pf]] == k.links;
  }

  // ResetVFConfig: the recorded address is back if one had been asked for.
  ghost predicate ResetAsRecorded(k: State, k2: State, c: PluginConf) {
    if c.mac.Unset? then k2 == k
    else
      && c.origVfState.adminMAC.Addr?
      && (exists pf :: Is(k.links, pf, c.pfName, 0))
      && forall pf :: Is(k.links, pf, c.pfName, 0) ==> AdminIs(k, k2, pf, c.vfID, c.origVfState.adminMAC.mac)
  }

  lemma ResetKeepsPromise(k: State, c: PluginConf)
    requires Valid(k) && Find(k.links, c.pfName, 0) in k.links && (c.mac.Unset? || c.origVfState.adminMAC.Addr?)
    ensures ResetAsRecorded(k, AdminReset(k, c), c)
  {
    var pf := Find(k.links, c.pfName, 0);
    ZeroIsNoLink(k);
    assert Is(k.links, pf, c.pfName, 0) && LinkOk(k.links, pf);
  }

  lemma DigitsDiffer(m: int, n: int)
    requires 0 <= m < 10 && 0 <= n < 10 && Digit(m) == Digit(n)
    ensures m == n
  {
  }

  lemma {:induction false} NumbersDiffer(m: nat, n: nat)
    requires Digits(m) == Digits(n)
    ensures m == n
  {
    var s, t := Digits(m), Digits(n);
    assert s[|s| - 1] == Digit(m % 10) && t[|t| - 1] == Digit(n % 10);
    DigitsDiffer(m % 10, n % 10);
    if m < 10 {
    } else {
      assert s[..|s| - 1] == Digits(m / 10);
      assert t[..|t| - 1] == Digits(n / 10);
      NumbersDiffer(m / 10, n / 10);
    }
  }

  // No two links get the same temporary name.
  lemma TempNamesDiffer(i: nat, j: nat)
    requires TempName(i) == TempName(j)
    ensures i == j
  {
    assert TempName(i)[5..] == Digits(i) && TempName(j)[5..] == Digits(j);
    NumbersDiffer(i, j);
  }
}
