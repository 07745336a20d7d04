/**
 A DEL that failed is tried again, with the configuration the cache still holds.
 */
module Retry {
  import opened Kernel
  import opened Types
  import opened Effects
  import opened Cache
  import opened AttachDetach
  import opened Lifecycle

  // How far a DEL that failed before the VF was renamed has come: the detach up
  // to `stage` with `gone` off the uplink, the lease freed or not, the VF down or not.
  ghost function DelPartly(w: World, c: PluginConf, a: Attachment, netns: nat, stage: nat, gone: set<int>,
                           freed: bool, downed: bool): World {
    var k1 := DetachedPartly(w.k, c, stage, gone);
    World(if downed then VfDown(k1, a, netns) else k1,
          if freed && c.netConf.ipamType != "" then w.leases - {a} else w.leases,
          w.files)
  }

  ghost function VfDown(k: State, a: Attachment, netns: nat): State {
    Down(k, Find(k.links, a.ifName, netns))
  }

  // The links of k2 are those of k, up flags and the attributes of r excepted.
  ghost predicate SameButUp(k: State, k2: State, r: int) {
    && k2.links.Keys == k.links.Keys
    && (forall j :: j in k.links ==>
          && k2.links[j].name == k.links[j].name && k2.links[j].netns == k.links[j].netns
             && k2.links[j].kind == k.links[j].kind)
    && (forall j :: j in k.links && j != r ==> k2.links[j].master == k.links[j].master)
  }

  lemma DetachAgainPort(k: State, off: State, c: PluginConf, u: int, gone: set<int>, vs: set<int>)
    requires gone <= UnusedVids(off, u, vs)
    ensures var part := Removed(off, u, gone);
            Removed(part, u, UnusedVids(part, u, vs)) == Removed(off, u, UnusedVids(off, u, vs))
  {
    var part := Removed(off, u, gone);
    forall v ensures CarriedElsewhere(part, u, v) <==> CarriedElsewhere(off, u, v) {
      SameMastersSameCarriers(off, part, u, v);
    }
    var unused := UnusedVids(off, u, vs);
    assert UnusedVids(part, u, vs) == unused;
    if u in off.ports && gone != {} {
      var t := off.ports[u];
      assert exists v :: v in gone && v in unused;
      assert t.vids - gone - unused == t.vids - unused;
      assert t.untagged - gone - unused == t.untagged - unused;
    }
  }

  lemma UnpluggedAgain(k: State, l: Link, c: PluginConf, r: int)
    requires Valid(k) && Is(k.links, r, c.representor, 0)
    requires l == k.links[r].(up := l.up, mtu := l.mtu) && (c.mtu == 0 ==> l.mtu == k.links[r].mtu)
    ensures Find(SetLink(k, l).links, c.representor, 0) == r
    ensures Unplugged(SetLink(k, l), r, c) == Unplugged(k, r, c)
  {
    assert LinkOk(k.links, r);
    FindIsKept(k, SetLink(k, l).links, r, c.representor, 0);
  }

  lemma DetachedThirdStage(k: State, c: PluginConf, gone: set<int>)
    requires Valid(k) && OnlyUnused(k, c, gone) && Find(k.links, c.representor, 0) in k.links
    ensures Detached(DetachedPartly(k, c, 3, gone), c) == Detached(k, c)
  {
    var r := Find(k.links, c.representor, 0);
    ZeroIsNoLink(k);
    var off := Unplugged(k, r, c);
    var k1 := DetachedPartly(k, c, 3, gone);
    assert LinkOk(k.links, r);
    FindIsKept(k, k1.links, r, c.representor, 0);
    assert off.links[r := off.links[r]] == off.links;
    assert r !in k1.ports;
    assert k1.ports - {r} == k1.ports;
    assert Unplugged(k1, r, c) == k1;
    if c.netConf.setUplinkVlan {
      DetachAgainPort(k, off, c, UplinkOf(off.links, c), gone, ConfVids(c));
    }
  }

  // A detach that got stuck somewhere and is then done again comes to the same.
  lemma DetachedAgain(k: State, c: PluginConf, stage: nat, gone: set<int>)
    requires Valid(k) && OnlyUnused(k, c, gone)
    ensures Detached(DetachedPartly(k, c, stage, gone), c) == Detached(k, c)
  {
    var r := Find(k.links, c.representor, 0);
    var k1 := DetachedPartly(k, c, stage, gone);
    if r in k.links && stage > 0 {
      ZeroIsNoLink(k);
      if stage < 3 {
        assert LinkOk(k.links, r);
        assert k1 == SetLink(k, k1.links[r]);
        UnpluggedAgain(k, k1.links[r], c, r);
      } else {
        DetachedThirdStage(k, c, gone);
      }
    }
  }

  lemma UnpluggedBesideDown(k1: State, i: int, r: int, c: PluginConf)
    requires r in k1.links && i != r
    ensures Unplugged(Down(k1, i), r, c) == Down(Unplugged(k1, r, c), i)
  {
    if i in k1.links {
      assert Unplugged(Down(k1, i), r, c).links == Down(Unplugged(k1, r, c), i).links;
    }
  }

  lemma PrunedBesideDown(off: State, i: int, c: PluginConf)
    requires UplinkOf(Down(off, i).links, c) == UplinkOf(off.links, c)
    ensures Pruned(Down(off, i), c) == Down(Pruned(off, c), i)
  {
    var u := UplinkOf(off.links, c);
    forall v ensures CarriedElsewhere(Down(off, i), u, v) <==> CarriedElsewhere(off, u, v) {
      SameMastersSameCarriers(off, Down(off, i), u, v);
    }
    assert UnusedVids(Down(off, i), u, ConfVids(c)) == UnusedVids(off, u, ConfVids(c));
  }

  lemma UplinkBesideDown(k: State, off: State, i: int, c: PluginConf)
    requires Valid(k) && off.links.Keys == k.links.Keys
    requires forall j :: j in k.links ==> off.links[j].name == k.links[j].name && off.links[j].netns == k.links[j].netns
    ensures UplinkOf(Down(off, i).links, c) == UplinkOf(off.links, c)
  {
    FindSame(k, off.links, c.pfName, 0);
    FindSame(k, Down(off, i).links, c.pfName, 0);
  }

  // Taking a link down does not change what a detach does to the others.
  lemma DetachBesideDown(k: State, k1: State, i: int, c: PluginConf)
    requires Valid(k) && SameButUp(k, k1, Find(k.links, c.representor, 0))
    requires i in k.links && i != Find(k.links, c.representor, 0)
    ensures Detached(Down(k1, i), c) == Down(Detached(k1, c), i)
  {
    var r := Find(k.links, c.representor, 0);
    FindSame(k, k1.links, c.representor, 0);
    FindSame(k, Down(k1, i).links, c.representor, 0);
    if r in k.links {
      UnpluggedBesideDown(k1, i, r, c);
      UplinkBesideDown(k, Unplugged(k1, r, c), i, c);
      PrunedBesideDown(Unplugged(k1, r, c), i, c);
    }
  }

  lemma DetachedSameButUp(k: State, k1: State, c: PluginConf)
    requires SameButUp(k, k1, Find(k.links, c.representor, 0))
             && Find(k1.links, c.representor, 0) == Find(k.links, c.representor, 0)
    ensures SameButUp(k, Detached(k1, c), Find(k.links, c.representor, 0))
  {
  }

  lemma DownThenReleased(d: State, i: int, c: PluginConf)
    ensures Released(Down(d, i), i, c) == Released(d, i, c)
  {
  }

  // A VF that is down already is released like any other.
  lemma ReleasedAfterDown(k: State, k1: State, c: PluginConf, a: Attachment, netns: nat)
    requires Valid(k) && SameButUp(k, k1, Find(k.links, c.representor, 0)) && !c.isUserspaceDriver
    requires Find(k.links, a.ifName, netns) in k.links
             && Find(k.links, a.ifName, netns) != Find(k.links, c.representor, 0)
    ensures VfHome(VfDown(k1, a, netns), c, a, netns) == VfHome(k1, c, a, netns)
  {
    var i, d := Find(k.links, a.ifName, netns), Detached(k1, c);
    FindSame(k, k1.links, a.ifName, netns);
    FindSame(k, k1.links, c.representor, 0);
    DetachBesideDown(k, k1, i, c);
    DetachedSameButUp(k, k1, c);
    FindSame(k, d.links, a.ifName, netns);
    FindSame(k, Down(d, i).links, a.ifName, netns);
    DownThenReleased(d, i, c);
  }

  lemma PartlySameButUp(k: State, c: PluginConf, stage: nat, gone: set<int>)
    requires Valid(k)
    ensures SameButUp(k, DetachedPartly(k, c, stage, gone), Find(k.links, c.representor, 0))
  {
    var r := Find(k.links, c.representor, 0);
    assert r in k.links ==> LinkOk(k.links, r);
  }

  // The main result about retries: after any attempt that failed before the VF
  // was renamed, a DEL in which everything succeeds reaches the very state it
  // would have reached without that attempt.
  lemma RetryReachesSameState(w: World, c: PluginConf, a: Attachment, netns: nat, stage: nat, gone: set<int>,
                              freed: bool, downed: bool)
    requires Valid(w.k) && netns > 0 && OnlyUnused(w.k, c, gone)
    requires downed ==> !c.isUserspaceDriver && Find(w.k.links, a.ifName, netns) in w.k.links
    ensures DelFinal(DelPartly(w, c, a, netns, stage, gone, freed, downed), c, a, netns) == DelFinal(w, c, a, netns)
  {
    var k1 := DetachedPartly(w.k, c, stage, gone);
    DetachedAgain(w.k, c, stage, gone);
    PartlySameButUp(w.k, c, stage, gone);
    assert VfHome(k1, c, a, netns) == VfHome(w.k, c, a, netns);
    if downed {
      ZeroIsNoLink(w.k);
      ReleasedAfterDown(w.k, k1, c, a, netns);
    }
    assert w.leases - {a} - {a} == w.leases - {a};
  }

  // What the cache loses, no DEL looks at, however far it comes.
  lemma StoredTakesTheSameSteps(w: World, c: PluginConf, a: Attachment, netns: nat, stage: nat, gone: set<int>,
                                freed: bool, downed: bool)
    ensures DelPartly(w, Stored(c), a, netns, stage, gone, freed, downed)
            == DelPartly(w, c, a, netns, stage, gone, freed, downed)
    ensures OnlyUnused(w.k, Stored(c), gone) <==> OnlyUnused(w.k, c, gone)
    ensures DelAccepts(Stored(c)) <==> DelAccepts(c)
  {
    assert DetachedPartly(w.k, Stored(c), stage, gone) == DetachedPartly(w.k, c, stage, gone);
  }

  // A DEL attempt that failed before the VF was renamed.
  ghost predicate FailedAttempt(w: World, w2: World, c: PluginConf, a: Attachment, netns: nat) {
    exists stage: nat, gone, freed, downed :: AttemptedTo(w, w2, c, a, netns, stage, gone, freed, downed)
  }

  ghost predicate AttemptedTo(w: World, w2: World, c: PluginConf, a: Attachment, netns: nat,
                              stage: nat, gone: set<int>, freed: bool, downed: bool) {
    && Valid(w.k)
    && OnlyUnused(w.k, c, gone)
    && (downed ==> !c.isUserspaceDriver && Find(w.k.links, a.ifName, netns) in w.k.links)
    && w2 == DelPartly(w, c, a, netns, stage, gone, freed, downed)
  }

  // An attempt that does nothing at all is one.
  lemma NothingIsAnAttempt(w: World, c: PluginConf, a: Attachment, netns: nat)
    requires Valid(w.k)
    ensures FailedAttempt(w, w, c, a, netns)
  {
    assert AttemptedTo(w, w, c, a, netns, 0, {}, false, false);
  }

  // Any number of failed attempts, and then one that succeeds: the final state
  // is that of a single DEL, and the cache file has been there all the time.
  lemma {:induction false} RetriesConverge(ws: seq<World>, c: PluginConf, a: Attachment, netns: nat)
    requires ws != [] && netns > 0
    requires forall i :: 0 <= i < |ws| - 1 ==> FailedAttempt(ws[i], ws[i + 1], c, a, netns)
    ensures DelFinal(ws[|ws| - 1], c, a, netns) == DelFinal(ws[0], c, a, netns)
    ensures forall i :: 0 <= i < |ws| ==> ws[i].files == ws[0].files
    decreases |ws|
  {
    if |ws| == 1 {
    } else {
      var rest := ws[1..];
      forall i | 0 <= i < |rest| - 1 ensures FailedAttempt(rest[i], rest[i + 1], c, a, netns) {
        assert FailedAttempt(ws[i + 1], ws[i + 1 + 1], c, a, netns);
      }
      RetriesConverge(rest, c, a, netns);
      assert FailedAttempt(ws[0], ws[1], c, a, netns);
      var stage: nat, gone, freed, downed :| AttemptedTo(ws[0], ws[1], c, a, netns, stage, gone, freed, downed);
      RetryReachesSameState(ws[0], c, a, netns, stage, gone, freed, downed);
      assert forall i :: 0 < i < |ws| ==> ws[i] == rest[i - 1];
    }
  }

  // Once the VF has its host name again, no link of the pod has the pod name:
  // ReleaseVF will not find it any more.
  lemma VfIsGone(k: State, k2: State, a: Attachment, netns: nat)
    requires Valid(k) && Find(k.links, a.ifName, netns) in k.links
    requires OnlyLink(k, k2, Find(k.links, a.ifName, netns))
    requires !Is(k2.links, Find(k.links, a.ifName, netns), a.ifName, netns)
    ensures Find(k2.links, a.ifName, netns) == 0
  {
    ZeroIsNoLink(k);
    var i := Find(k.links, a.ifName, netns);
    forall j ensures !Is(k2.links, j, a.ifName, netns) {
      assert Is(k2.links, j, a.ifName, netns) && j != i ==>
               Is(k.links, j, a.ifName, netns) && Is(k.links, i, a.ifName, netns);
    }
  }
}
