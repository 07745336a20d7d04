/**
 Attempts at a DEL, whatever became of them: as long as a DEL can still get
 through, the attempts before it make no difference.
 */
module Attempts {
  import opened Kernel
  import opened Types
  import opened Effects
  import opened Cache
  import opened AttachDetach
  import opened Lifecycle
  import opened Retry

  // A DEL that got through, whatever became of its detach: lease and VF are
  // released, the administrative MAC address is back.  `listed` when the VLAN
  // tables could be read.
  ghost predicate GotThrough(w: World, w2: World, c: PluginConf, a: Attachment, netns: nat, listed: bool) {
    exists stage: nat, gone ::
      WentThrough(w, w2, c, a, netns, stage, gone) && gone <= ConfVids(c) && (listed ==> OnlyUnused(w.k, c, gone))
  }

  ghost predicate WentThrough(w: World, w2: World, c: PluginConf, a: Attachment, netns: nat,
                              stage: nat, gone: set<int>) {
    && w2.k == VfPart(DetachedPartly(w.k, c, stage, gone), c, a, netns)
    && w2.leases == (if c.netConf.ipamType != "" then w.leases - {a} else w.leases)
  }

  // One that failed before the VF was renamed: some steps of the detach, perhaps the
  // lease, and a VF that may be down.
  ghost predicate StoppedEarly(w: World, w2: World, c: PluginConf, a: Attachment, netns: nat) {
    exists stage: nat, gone, freed, downed :: StoppedAt(w, w2, c, a, netns, stage, gone, freed, downed)
  }

  ghost predicate StoppedAt(w: World, w2: World, c: PluginConf, a: Attachment, netns: nat,
                            stage: nat, gone: set<int>, freed: bool, downed: bool) {
    gone <= ConfVids(c) && w2 == DelPartly(w, c, a, netns, stage, gone, freed, downed)
  }

  // One that failed after it: of all links only the VF differs from what the detach
  // has left, and it has its host name.
  ghost predicate StoppedLate(w: World, w2: World, c: PluginConf, a: Attachment, netns: nat) {
    exists stage: nat, gone :: LeftVf(w, w2, c, a, netns, stage, gone)
  }

  ghost predicate LeftVf(w: World, w2: World, c: PluginConf, a: Attachment, netns: nat, stage: nat, gone: set<int>) {
    var vf := Find(w.k.links, a.ifName, netns);
    && gone <= ConfVids(c)
    && OnlyLink(DetachedPartly(w.k, c, stage, gone), w2.k, vf) && w2.k.links[vf].name == c.origVfState.hostIFName
    && w2.leases == (if c.netConf.ipamType != "" then w.leases - {a} else w.leases)
  }

  // What an attempt has done: `done` when it got through, `moved` when the VF has
  // its host name again.
  ghost predicate Attempted(w: World, w2: World, c: PluginConf, a: Attachment, netns: nat,
                            done: bool, moved: bool, listed: bool) {
    && (w2.files == w.files || (done && w2.files == w.files - {StateRef(a)}))
    && (moved ==> !c.isUserspaceDriver && Find(w.k.links, a.ifName, netns) in w.k.links)
    && (moved && c.origVfState.hostIFName != a.ifName ==> Find(w2.k.links, a.ifName, netns) == 0)
    && (done && !c.isUserspaceDriver ==> moved)
    && (done ==> GotThrough(w, w2, c, a, netns, listed))
    && (!done && !moved && listed ==> FailedAttempt(w, w2, c, a, netns))
    && (!done && !moved ==> StoppedEarly(w, w2, c, a, netns))
    && (!done && moved ==> StoppedLate(w, w2, c, a, netns))
  }

  // A DEL can still get through: its cache file is there, and so is a VF with a
  // kernel driver.
  ghost predicate Completable(w: World, c: PluginConf, a: Attachment, netns: nat) {
    StateRef(a) in w.files && (!c.isUserspaceDriver ==> Find(w.k.links, a.ifName, netns) in w.k.links)
  }

  // If a DEL can still get through from w2, it ends where it would have ended from w.
  ghost predicate SameEnd(w: World, w2: World, c: PluginConf, a: Attachment, netns: nat) {
    Completable(w2, c, a, netns) ==>
      && w2.files == w.files
      && Completable(w, c, a, netns)
      && DelFinal(w2, c, a, netns) == DelFinal(w, c, a, netns)
  }

  // The VF gets another name when it is released, or is not renamed at all.
  predicate Renames(c: PluginConf, a: Attachment) {
    c.isUserspaceDriver || c.origVfState.hostIFName != a.ifName
  }

  ghost predicate Indexed(k: State) {
    forall j :: j in k.links ==> k.links[j].index == j
  }

  // Putting the administrative MAC address back changes a link in nothing that a
  // detach looks at.
  lemma AdminKeepsOthers(k: State, c: PluginConf)
    requires Indexed(k)
    ensures var k2 := AdminReset(k, c);
            && Indexed(k2) && k2.ports == k.ports && k2.links.Keys == k.links.Keys
            && forall j :: j in k.links ==> k2.links[j] == k.links[j].(vfs := k2.links[j].vfs)
  {
  }

  lemma AdminTwice(k: State, c: PluginConf)
    requires Indexed(k) && Find(AdminReset(k, c).links, c.pfName, 0) == Find(k.links, c.pfName, 0)
    ensures AdminReset(AdminReset(k, c), c) == AdminReset(k, c)
  {
    var k2, pf := AdminReset(k, c), Find(k.links, c.pfName, 0);
    if k2 != k {
      assert k2.links[pf].vfs[c.vfID := c.origVfState.adminMAC.mac] == k2.links[pf].vfs;
      assert k2.links[pf := k2.links[pf]] == k2.links;
    }
  }

  lemma AdminBesideUnplug(k: State, r: int, c: PluginConf)
    requires Indexed(k) && r in k.links
    requires Find(Unplugged(k, r, c).links, c.pfName, 0) == Find(k.links, c.pfName, 0)
    ensures r in AdminReset(k, c).links
    ensures Unplugged(AdminReset(k, c), r, c) == AdminReset(Unplugged(k, r, c), c)
  {
    var l, t := Unplugged(AdminReset(k, c), r, c).links, AdminReset(Unplugged(k, r, c), c).links;
    assert l.Keys == t.Keys;
    assert forall j :: j in l ==> l[j] == t[j];
  }

  lemma AdminBesidePrune(off: State, c: PluginConf)
    requires Indexed(off) && UplinkOf(AdminReset(off, c).links, c) == UplinkOf(off.links, c)
    ensures Pruned(AdminReset(off, c), c) == AdminReset(Pruned(off, c), c)
  {
    var u, k2 := UplinkOf(off.links, c), AdminReset(off, c);
    AdminKeepsOthers(off, c);
    forall v ensures CarriedElsewhere(k2, u, v) <==> CarriedElsewhere(off, u, v) {
      SameMastersSameCarriers(off, k2, u, v);
    }
    assert UnusedVids(k2, u, ConfVids(c)) == UnusedVids(off, u, ConfVids(c));
  }

  lemma UplinkBesideAdmin(k: State, off: State, c: PluginConf)
    requires Valid(k) && Indexed(off) && off.links.Keys == k.links.Keys
    requires forall j :: j in k.links ==> off.links[j].name == k.links[j].name && off.links[j].netns == k.links[j].netns
    ensures UplinkOf(AdminReset(off, c).links, c) == UplinkOf(off.links, c)
    ensures Find(AdminReset(off, c).links, c.pfName, 0) == Find(off.links, c.pfName, 0)
  {
    AdminKeepsOthers(off, c);
    FindSame(k, off.links, c.pfName, 0);
    FindSame(k, AdminReset(off, c).links, c.pfName, 0);
  }

  lemma FindBesideAdmin(k: State, k1: State, c: PluginConf)
    requires Valid(k) && SameButUp(k, k1, Find(k.links, c.representor, 0)) && Indexed(k1)
    ensures var r, rep := Find(k.links, c.representor, 0), c.representor;
            && Find(k1.links, rep, 0) == r && Find(AdminReset(k1, c).links, rep, 0) == r
            && AdminReset(k1, c).links.Keys == k1.links.Keys == k.links.Keys
    ensures var r := Find(k.links, c.representor, 0);
            r in k.links ==> Find(Unplugged(k1, r, c).links, c.pfName, 0) == Find(k1.links, c.pfName, 0)
  {
    var r := Find(k.links, c.representor, 0);
    AdminKeepsOthers(k1, c);
    FindSame(k, k1.links, c.representor, 0);
    FindSame(k, AdminReset(k1, c).links, c.representor, 0);
    FindSame(k, k1.links, c.pfName, 0);
    if r in k.links {
      FindSame(k, Unplugged(k1, r, c).links, c.pfName, 0);
    }
  }

  lemma DetachBesideAdmin(k: State, k1: State, c: PluginConf)
    requires Valid(k) && SameButUp(k, k1, Find(k.links, c.representor, 0)) && Indexed(k1)
    ensures Detached(AdminReset(k1, c), c) == AdminReset(Detached(k1, c), c)
  {
    var r := Find(k.links, c.representor, 0);
    FindBesideAdmin(k, k1, c);
    if r in k.links {
      AdminBesideUnplug(k1, r, c);
      UplinkBesideAdmin(k, Unplugged(k1, r, c), c);
      AdminBesidePrune(Unplugged(k1, r, c), c);
    }
  }

  lemma PartlyIsIndexed(k: State, c: PluginConf, stage: nat, gone: set<int>)
    requires Valid(k)
    ensures Indexed(DetachedPartly(k, c, stage, gone))
  {
    assert forall j :: j in k.links ==> LinkOk(k.links, j);
  }

  // With a userspace driver even a DEL that got through, but whose cache file
  // could not be removed, comes to the same when it is done again.
  lemma DoneAgain(w: World, w2: World, c: PluginConf, a: Attachment, netns: nat)
    requires Valid(w.k) && c.isUserspaceDriver && GotThrough(w, w2, c, a, netns, true) && w2.files == w.files
    ensures DelFinal(w2, c, a, netns) == DelFinal(w, c, a, netns)
  {
    var stage: nat, gone :| WentThrough(w, w2, c, a, netns, stage, gone) && OnlyUnused(w.k, c, gone);
    var k1, d := DetachedPartly(w.k, c, stage, gone), Detached(w.k, c);
    DetachedAgain(w.k, c, stage, gone);
    PartlySameButUp(w.k, c, stage, gone);
    PartlyIsIndexed(w.k, c, stage, gone);
    DetachBesideAdmin(w.k, k1, c);
    DetachedIsIndexed(w.k, c);
    UplinkBesideAdmin(w.k, d, c);
    AdminTwice(d, c);
    assert w.leases - {a} - {a} == w.leases - {a};
  }

  lemma DetachedIsIndexed(k: State, c: PluginConf)
    requires Valid(k)
    ensures var d := Detached(k, c);
            && Indexed(d) && d.links.Keys == k.links.Keys
            && forall j :: j in k.links ==> d.links[j].name == k.links[j].name && d.links[j].netns == k.links[j].netns
  {
    assert forall j :: j in k.links ==> LinkOk(k.links, j);
  }

  lemma AttemptKeepsPod(w: World, w2: World, c: PluginConf, a: Attachment, netns: nat)
    requires FailedAttempt(w, w2, c, a, netns)
    ensures Find(w2.k.links, a.ifName, netns) == Find(w.k.links, a.ifName, netns) && w2.k.links.Keys == w.k.links.Keys
  {
    var stage: nat, gone, freed, downed :| AttemptedTo(w, w2, c, a, netns, stage, gone, freed, downed);
    PartlySameButUp(w.k, c, stage, gone);
    FindSame(w.k, w2.k.links, a.ifName, netns);
  }

  // After any attempt that a DEL can still follow, that DEL reaches the state it
  // would have reached without the attempt.
  lemma AttemptKeepsEnd(w: World, w2: World, c: PluginConf, a: Attachment, netns: nat, done: bool, moved: bool)
    requires Valid(w.k) && netns > 0 && Attempted(w, w2, c, a, netns, done, moved, true)
    requires Renames(c, a) && Valid(w2.k)
    ensures SameEnd(w, w2, c, a, netns)
  {
    if Completable(w2, c, a, netns) {
      ZeroIsNoLink(w2.k);
      if done {
        DoneAgain(w, w2, c, a, netns);
      } else {
        AttemptKeepsPod(w, w2, c, a, netns);
        RetriesConverge([w, w2], c, a, netns);
      }
    }
  }
}
