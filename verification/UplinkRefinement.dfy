/**
 The tables of the state machine are the tables of the kernel: an attach or
 detach of the machine that runs alone ends in the abstraction of the kernel
 state that the manager's methods are proved to end in.
 */
module UplinkRefinement {
  import opened VlanLists
  import opened UplinkMachine
  import opened UplinkSolo
  import opened UplinkSoloFailures
  import K = Kernel
  import T = Types
  import E = Effects
  import A = AttachDetach
  import S = UplinkSafety

  // Masters and VLAN numbers of all bridge ports agree.
  ghost predicate Abstracts(s: State, k: K.State) {
    forall q {:trigger Table(s, q)} ::
      && (q in s.master <==> q in k.ports)
      && (q in k.ports ==> q in k.links && s.master[q] == k.links[q].master && Table(s, q) == k.ports[q].vids)
      && (q !in k.ports ==> Table(s, q) == {})
  }

  ghost function ConfOf(k: K.State, c: T.PluginConf): Conf {
    Conf(K.Find(k.links, c.representor, 0), K.Find(k.links, c.actualBridge, 0), E.UplinkOf(k.links, c),
         c.trunk, c.netConf.vlan, c.netConf.setUplinkVlan)
  }

  // As every parsed configuration is.
  predicate VlanNumbers(c: T.PluginConf) {
    (forall v :: v in c.trunk ==> 1 <= v <= 4094) && 0 <= c.netConf.vlan <= 4094
  }

  // The representor is no PF and no bond, the uplink is a port.
  ghost predicate Separate(k: K.State, c: T.PluginConf, r: int, pf: int) {
    && K.Valid(k)
    && K.Is(k.links, r, c.representor, 0) && K.Is(k.links, pf, c.pfName, 0)
    && r != pf && r != E.UplinkOf(k.links, c)
    && E.UplinkOf(k.links, c) in k.ports
  }

  lemma ConfVidsAreVlans(k: K.State, c: T.PluginConf)
    requires VlanNumbers(c)
    ensures E.ConfVids(c) == S.AsSet(ConfOf(k, c).Vlans())
    ensures E.PromisedPort(c.trunk, c.netConf.vlan).vids == PortVids(ConfOf(k, c))
  {
    VidsAreExact(VlanList(c.trunk, c.netConf.vlan));
  }

  lemma AttachedTables(k: K.State, c: T.PluginConf, r: int, pf: int, q: int)
    requires Separate(k, c, r, pf) && k.links[r].master == 0
    ensures var k2, u := E.Attached(k, c), E.UplinkOf(k.links, c);
            && (q in k2.ports <==> q == r || q in k.ports)
            && r in k2.ports && k2.ports[r].vids == E.PromisedPort(c.trunk, c.netConf.vlan).vids
            && u in k2.ports
            && k2.ports[u].vids == (if c.netConf.setUplinkVlan then k.ports[u].vids + E.ConfVids(c)
                                    else k.ports[u].vids)
            && (q in k.ports && q != r && q != u ==> k2.ports[q] == k.ports[q])
            && k2.links.Keys == k.links.Keys
            && (q in k.links && q != r ==> k2.links[q].master == k.links[q].master)
            && k2.links[r].master == K.Find(k.links, c.actualBridge, 0)
  {
    var b := K.Find(k.links, c.actualBridge, 0);
    K.FindIs(k, r, c.representor, 0);
    K.NoPortWithoutMaster(k, r);
    var on := E.Joined(k, r, b, c);
    A.SameUplink(k, on.links, c, pf);
    E.FreshPortIsAsPromised(c.trunk, c.netConf.vlan);
  }

  lemma DoneIsAbstracted(k: K.State, c: T.PluginConf, r: int, pf: int, s: State, t: State, p: nat)
    requires Separate(k, c, r, pf) && VlanNumbers(c) && k.links[r].master == 0 && Abstracts(s, k)
    requires var conf := ConfOf(k, c);
             && conf.rep == r && OwnPartOnly(s, t, p, conf)
             && r in t.master && t.master[r] == conf.bridge && Table(t, r) == PortVids(conf)
             && Table(t, conf.uplink) == if conf.setUplink then Table(s, conf.uplink) + S.AsSet(conf.Vlans())
                                         else Table(s, conf.uplink)
    ensures Abstracts(t, E.Attached(k, c))
  {
    ConfVidsAreVlans(k, c);
    forall q ensures var k2 := E.Attached(k, c);
      && (q in t.master <==> q in k2.ports)
      && (q in k2.ports ==> q in k2.links && t.master[q] == k2.links[q].master && Table(t, q) == k2.ports[q].vids)
      && (q !in k2.ports ==> Table(t, q) == {})
    {
      AttachedTables(k, c, r, pf, q);
      var now := Table(s, q);
      assert Table(s, E.UplinkOf(k.links, c)) == k.ports[E.UplinkOf(k.links, c)].vids;
    }
  }

  // AttachRepresentor.
  lemma AttachRefines(k: K.State, c: T.PluginConf, r: int, pf: int, s: State, p: nat) returns (t: State)
    requires Separate(k, c, r, pf) && VlanNumbers(c) && k.links[r].master == 0
    requires Abstracts(s, k) && p in s.procs && s.procs[p] == AttachStart(ConfOf(k, c)) && LockFree(s, p)
    ensures Reaches(s, p, t) && t.procs == s.procs[p := AttachDone(ConfOf(k, c))]
    ensures Abstracts(t, E.Attached(k, c))
  {
    K.FindIs(k, r, c.representor, 0);
    K.NoPortWithoutMaster(k, r);
    assert Table(s, r) == {};
    t := AttachAlone(s, p);
    DoneIsAbstracted(k, c, r, pf, s, t, p);
  }

  lemma DetachedTables(k: K.State, c: T.PluginConf, r: int, pf: int, q: int)
    requires Separate(k, c, r, pf)
    ensures var k2, u := E.Detached(k, c), E.UplinkOf(k.links, c);
            var off := E.Unplugged(k, r, c);
            && (q in k2.ports <==> q != r && q in k.ports)
            && u in k2.ports
            && k2.ports[u].vids == (if c.netConf.setUplinkVlan
                                    then k.ports[u].vids - E.UnusedVids(off, u, E.ConfVids(c))
                                    else k.ports[u].vids)
            && (q in k.ports && q != r && q != u ==> k2.ports[q] == k.ports[q])
            && k2.links.Keys == k.links.Keys
            && (q in k.links && q != r ==> k2.links[q].master == k.links[q].master)
  {
    K.FindIs(k, r, c.representor, 0);
    K.FindIs(k, pf, c.pfName, 0);
    var off := E.Unplugged(k, r, c);
    A.SameUplink(k, off.links, c, pf);
  }

  lemma SameCarriers(k: K.State, c: T.PluginConf, r: int, pf: int, s: State, v: int)
    requires Separate(k, c, r, pf) && Abstracts(s, k)
    ensures var conf := ConfOf(k, c);
            conf.uplink in s.master
            && (OtherCarries(s, conf, v) <==> E.CarriedElsewhere(E.Unplugged(k, r, c), conf.uplink, v))
  {
    K.FindIs(k, r, c.representor, 0);
    var conf, off := ConfOf(k, c), E.Unplugged(k, r, c);
    assert Table(s, conf.uplink) == k.ports[conf.uplink].vids;
    if OtherCarries(s, conf, v) {
      var q :| q in s.master && q != r && q != conf.uplink && s.master[q] == s.master[conf.uplink] && v in Table(s, q);
      assert q in off.ports && v in off.ports[q].vids;
    }
    if E.CarriedElsewhere(off, conf.uplink, v) {
      var q :| q in off.ports && q != conf.uplink && q in off.links && conf.uplink in off.links
               && off.links[q].master == off.links[conf.uplink].master && v in off.ports[q].vids;
      assert Table(s, q) == k.ports[q].vids;
    }
  }

  lemma UnusedRefines(k: K.State, c: T.PluginConf, r: int, pf: int, s: State)
    requires Separate(k, c, r, pf) && VlanNumbers(c) && Abstracts(s, k)
    ensures var conf := ConfOf(k, c);
            conf.uplink in s.master
            && NotCarried(s, conf) == E.UnusedVids(E.Unplugged(k, r, c), conf.uplink, E.ConfVids(c))
  {
    ConfVidsAreVlans(k, c);
    SameCarriers(k, c, r, pf, s, 0);
    var conf, off := ConfOf(k, c), E.Unplugged(k, r, c);
    forall v ensures OtherCarries(s, conf, v) <==> E.CarriedElsewhere(off, conf.uplink, v) {
      SameCarriers(k, c, r, pf, s, v);
    }
  }

  // DetachRepresentor.
  lemma DetachRefines(k: K.State, c: T.PluginConf, r: int, pf: int, s: State, p: nat) returns (t: State)
    requires Separate(k, c, r, pf) && VlanNumbers(c)
    requires Abstracts(s, k) && p in s.procs && s.procs[p] == DetachStart(ConfOf(k, c)) && LockFree(s, p)
    ensures Reaches(s, p, t) && t.procs == s.procs[p := Finished(ConfOf(k, c))]
    ensures Abstracts(t, E.Detached(k, c))
  {
    K.FindIs(k, r, c.representor, 0);
    var conf := ConfOf(k, c);
    assert Table(s, conf.uplink) == k.ports[conf.uplink].vids;
    t := DetachAlone(s, p);
    ConfVidsAreVlans(k, c);
    UnusedRefines(k, c, r, pf, s);
    forall q ensures var k2 := E.Detached(k, c);
      && (q in t.master <==> q in k2.ports)
      && (q in k2.ports ==> q in k2.links && t.master[q] == k2.links[q].master && Table(t, q) == k2.ports[q].vids)
      && (q !in k2.ports ==> Table(t, q) == {})
    {
      DetachedTables(k, c, r, pf, q);
      var now := Table(s, q);
    }
  }

  // The kernel state after an attach that failed and took the representor off
  // the bridge again, `added` left on the uplink.
  ghost function AttachGivenUp(k: K.State, c: T.PluginConf, r: int, added: set<int>): K.State
    requires r in k.links
  {
    K.Tagged(K.NoMaster(k, r), E.UplinkOf(k.links, c), added)
  }

  lemma GivenUpIsRolledBack(k: K.State, c: T.PluginConf, r: int, pf: int, added: set<int>)
    requires Separate(k, c, r, pf)
    ensures E.AttachRolledBack(k, AttachGivenUp(k, c, r, added), c, added)
  {
    K.FindIs(k, r, c.representor, 0);
    assert K.LinkOk(k.links, r);
    assert K.SetLink(k, k.links[r]) == k by {
      assert k.links[r := k.links[r]] == k.links;
    }
    var b := K.Find(k.links, c.actualBridge, 0);
    A.SameUplink(k, E.Enslaved(k, r, b, c).links, c, pf);
    var k2 := AttachGivenUp(k, c, r, added);
    assert k.links[r].(up := k2.links[r].up, mtu := k2.links[r].mtu) == k.links[r];
  }

  lemma GivenUpTables(k: K.State, c: T.PluginConf, r: int, pf: int, added: set<int>, q: int)
    requires Separate(k, c, r, pf) && k.links[r].master == 0
    ensures var k2, u := AttachGivenUp(k, c, r, added), E.UplinkOf(k.links, c);
            && (q in k2.ports <==> q in k.ports)
            && (q in k2.ports ==> q != r)
            && (q in k.ports && q != u ==> k2.ports[q] == k.ports[q])
            && u in k2.ports && k2.ports[u].vids == k.ports[u].vids + added
            && (q in k.links ==> q in k2.links && k2.links[q].master == k.links[q].master)
  {
    K.NoPortWithoutMaster(k, r);
  }

  // AttachRepresentor with any calls failing but its undo: when it has ended, it
  // is a successful attach of the kernel or one that has been rolled back.
  lemma AttachFailureRefines(k: K.State, c: T.PluginConf, r: int, pf: int, s: State, p: nat, es: seq<Event>)
    returns (k2: K.State, added: set<int>)
    requires Separate(k, c, r, pf) && VlanNumbers(c) && k.links[r].master == 0
    requires Abstracts(s, k) && p in s.procs && s.procs[p] == AttachStart(ConfOf(k, c))
    requires IsRun(s, es) && CallsOf(es, p) && UndoGoesThrough(s, es, p)
    ensures p in After(s, es).procs
    ensures var pc := After(s, es).procs[p];
            pc.AttachDone? || pc.Finished? ==>
              && Abstracts(After(s, es), k2)
              && (pc.AttachDone? <==> Fail(p) !in es)
              && (if pc.AttachDone? then k2 == E.Attached(k, c)
                  else added <= E.ConfVids(c) && E.AttachRolledBack(k, k2, c, added))
  {
    K.FindIs(k, r, c.representor, 0);
    K.NoPortWithoutMaster(k, r);
    assert Table(s, r) == {};
    AttachFailsAlone(s, es, p);
    GivesUpIffACallFails(s, es, p);
    ConfVidsAreVlans(k, c);
    var t, u := After(s, es), E.UplinkOf(k.links, c);
    assert Table(s, u) == k.ports[u].vids;
    added := Table(t, u) * E.ConfVids(c);
    if t.procs[p].AttachDone? {
      k2 := E.Attached(k, c);
      DoneIsAbstracted(k, c, r, pf, s, t, p);
    } else {
      k2 := AttachGivenUp(k, c, r, added);
      if t.procs[p].Finished? {
        GivenUpIsRolledBack(k, c, r, pf, added);
        GivenUpIsAbstracted(k, c, r, pf, s, t, p, added);
      }
    }
  }

  lemma GivenUpIsAbstracted(k: K.State, c: T.PluginConf, r: int, pf: int, s: State, t: State, p: nat, added: set<int>)
    requires Separate(k, c, r, pf) && k.links[r].master == 0 && Abstracts(s, k)
    requires OwnPartOnly(s, t, p, ConfOf(k, c)) && r == ConfOf(k, c).rep && r !in t.master && Table(t, r) == {}
    requires Table(t, E.UplinkOf(k.links, c)) == Table(s, E.UplinkOf(k.links, c)) + added
    ensures Abstracts(t, AttachGivenUp(k, c, r, added))
  {
    K.NoPortWithoutMaster(k, r);
    forall q ensures var k2 := AttachGivenUp(k, c, r, added);
      && (q in t.master <==> q in k2.ports)
      && (q in k2.ports ==> q in k2.links && t.master[q] == k2.links[q].master && Table(t, q) == k2.ports[q].vids)
      && (q !in k2.ports ==> Table(t, q) == {})
    {
      GivenUpTables(k, c, r, pf, added, q);
      var now := Table(s, q);
    }
  }

  lemma PartlyTables(k: K.State, c: T.PluginConf, r: int, pf: int, gone: set<int>, q: int)
    requires Separate(k, c, r, pf) && (!c.netConf.setUplinkVlan ==> gone == {})
    ensures var k2, u := E.DetachedPartly(k, c, 3, gone), E.UplinkOf(k.links, c);
            && (q in k2.ports <==> q != r && q in k.ports)
            && (q in k.ports && q != r && q != u ==> k2.ports[q] == k.ports[q])
            && u in k2.ports && k2.ports[u].vids == k.ports[u].vids - gone
            && (q in k.links && q != r ==> q in k2.links && k2.links[q].master == k.links[q].master)
  {
    K.FindIs(k, r, c.representor, 0);
    A.SameUplink(k, E.Unplugged(k, r, c).links, c, pf);
  }

  lemma SameTables(s: State, t: State, k: K.State)
    requires Abstracts(s, k) && t.master == s.master && t.vlans == s.vlans
    ensures Abstracts(t, k)
  {
    forall q ensures
      && (q in t.master <==> q in k.ports)
      && (q in k.ports ==> q in k.links && t.master[q] == k.links[q].master && Table(t, q) == k.ports[q].vids)
      && (q !in k.ports ==> Table(t, q) == {})
    {
      var now := Table(s, q);
    }
  }

  // DetachRepresentor with any calls failing but BridgeVlanList.
  lemma DetachFailureRefines(k: K.State, c: T.PluginConf, r: int, pf: int, s: State, p: nat, es: seq<Event>)
    returns (stage: nat, gone: set<int>)
    requires Separate(k, c, r, pf) && VlanNumbers(c)
    requires Abstracts(s, k) && p in s.procs && s.procs[p] == DetachStart(ConfOf(k, c))
    requires IsRun(s, es) && CallsOf(es, p) && p in After(s, es).procs && After(s, es).procs[p].Finished?
    ensures E.OnlyUnused(k, c, gone) && Abstracts(After(s, es), E.DetachedPartly(k, c, stage, gone))
  {
    K.FindIs(k, r, c.representor, 0);
    var conf, t, u := ConfOf(k, c), After(s, es), E.UplinkOf(k.links, c);
    assert Table(s, u) == k.ports[u].vids && (r !in s.master ==> Table(s, r) == {});
    DetachFailsAlone(s, es, p);
    if r in t.master {
      stage, gone := 0, {};
      SameTables(s, t, k);
    } else {
      stage, gone := 3, Table(s, u) - Table(t, u);
      A.SameUplink(k, E.Unplugged(k, r, c).links, c, pf);
      UnusedRefines(k, c, r, pf, s);
      PartlyIsAbstracted(k, c, r, pf, s, t, p, gone);
    }
  }

  lemma PartlyIsAbstracted(k: K.State, c: T.PluginConf, r: int, pf: int, s: State, t: State, p: nat, gone: set<int>)
    requires Separate(k, c, r, pf) && Abstracts(s, k) && (!c.netConf.setUplinkVlan ==> gone == {})
    requires OwnPartOnly(s, t, p, ConfOf(k, c)) && r == ConfOf(k, c).rep && r !in t.master && Table(t, r) == {}
    requires Table(t, E.UplinkOf(k.links, c)) == Table(s, E.UplinkOf(k.links, c)) - gone
    ensures Abstracts(t, E.DetachedPartly(k, c, 3, gone))
  {
    forall q ensures var k2 := E.DetachedPartly(k, c, 3, gone);
      && (q in t.master <==> q in k2.ports)
      && (q in k2.ports ==> q in k2.links && t.master[q] == k2.links[q].master && Table(t, q) == k2.ports[q].vids)
      && (q !in k2.ports ==> Table(t, q) == {})
    {
      PartlyTables(k, c, r, pf, gone, q);
      var now := Table(s, q);
    }
  }
}
