/**
 What a CmdAdd that has failed leaves behind, for every step that can fail.
 */
module Rollback {
  import opened Kernel
  import opened Types
  import opened Effects
  import opened Cache
  import opened Netlink
  import opened AttachDetach
  import opened Lifecycle
  import opened RoundTrip
  import opened Undo

  lemma AttachedIsOnTheBridge(k: State, k1: State, c: PluginConf, c1: PluginConf, r: int)
    requires Valid(k) && AttachSucceeded(k, k1, c, c1) && r == Find(k.links, c1.representor, 0)
    ensures OnTheBridge(k, k1, c1, r, Find(k.links, c1.actualBridge, 0))
    ensures k.links[r].kind.Device? && (c1.mtu != 0 ==> c1.origRepState.mtu == k.links[r].mtu)
    ensures k1.links[r := k.links[r].(up := false)] == k.links[r := k.links[r].(up := false)]
  {
    assert LinkOk(k.links, r);
  }

  lemma DetachAttached(k: State, k1: State, c: PluginConf, c1: PluginConf, r: int, pf: int)
    requires Valid(k) && AttachSucceeded(k, k1, c, c1)
    requires Is(k.links, r, c1.representor, 0) && Is(k.links, pf, c1.pfName, 0) && r != pf && k.links[r].master == 0
    ensures Detached(k1, c1) == State(k.links[r := k.links[r].(up := false)], PortsAfterBoth(k, c1))
  {
    FindIs(k, r, c1.representor, 0);
    AttachedIsOnTheBridge(k, k1, c, c1, r);
    DetachUndoesAttach(k, k1, c1, r, Find(k.links, c1.actualBridge, 0), pf);
  }

  // Undoing an ADD that failed in ApplyVFConfig: only the up flag of the
  // representor differs.  c2 may have the administrative MAC address recorded.
  lemma RollbackAfterAttach(k: State, w: World, c: PluginConf, c1: PluginConf, c2: PluginConf,
                            a: Attachment, ns: NetNS, r: int, pf: int)
    requires Valid(k) && AttachSucceeded(k, w.k, c, c1) && c2 == c1.(origVfState := c2.origVfState)
    requires Is(k.links, r, c1.representor, 0) && Is(k.links, pf, c1.pfName, 0) && r != pf && k.links[r].master == 0
    ensures UndoneAll([LogFailure, Detach], w, c2, a, ns)
            == w.(k := State(k.links[r := k.links[r].(up := false)], PortsAfterBoth(k, c2)))
  {
    DetachAttached(k, w.k, c, c1, r, pf);
    assert Detached(w.k, c2) == Detached(w.k, c1);
    assert PortsAfterBoth(k, c2) == PortsAfterBoth(k, c1);
    assert [LogFailure, Detach] == [LogFailure] + [Detach];
    UndoneInTurn([LogFailure], [Detach], w, c2, a, ns);
    UndoneOne(Detach, w, c2, a, ns);
    UndoneOne(LogFailure, Undone(Detach, w, c2, a, ns), c2, a, ns);
  }

  // Where a CmdAdd ended: the step that failed, or none.
  datatype Stage = Preparing | Attaching | Applying | SettingUp | Configuring | Storing | Informing | Complete

  // A configuration as ParseConf returns it: the VF has no pod name yet, and it
  // has a host name unless it has a userspace driver.
  predicate Fresh(c: PluginConf) {
    c.contIFNames == "" && (c.origVfState.hostIFName == "" <==> c.isUserspaceDriver)
  }

  // The state and the registered handlers when configuring or setting up the VF
  // has failed, from the state k1 and the configuration c1 after the attach.
  ghost predicate VfNotAdded(stage: Stage, k1: State, k2: State, c1: PluginConf, c: PluginConf, st: Steps,
                             a: Attachment, netns: nat, hs: seq<Handler>) {
    match stage
    case Applying => hs == [LogFailure, Detach] && k2 == k1 && c == c1.(origVfState := c.origVfState)
    case SettingUp =>
      && hs == [LogFailure, Detach, Release] && !c1.isUserspaceDriver
      && ApplySucceeded(k1, st.k2, c1, st.c2)
      && Valid(st.k2) && Valid(k2)
      && SetupFailed(st.k2, k2, st.c2, a.ifName, netns, st.call)
      && c == st.c2.(origVfState := c.origVfState) && c.origVfState.hostIFName == c1.origVfState.hostIFName
    case _ => false
  }

  // The same for all steps on the links.
  ghost predicate DevicesNotAdded(stage: Stage, k: State, k2: State, c0: PluginConf, c: PluginConf, st: Steps,
                                  a: Attachment, netns: nat, hs: seq<Handler>) {
    if stage.Attaching? then hs == [LogFailure] && (st.unplugged ==> AttachRolledBack(k, k2, c, st.added))
    else
      && Valid(k)
      && AttachSucceeded(k, st.k1, c0, st.c1)
      && VfNotAdded(stage, st.k1, k2, st.c1, c, st, a, netns, hs)
  }

  // The state and the registered handlers when CmdAdd is about to return.
  ghost predicate AddOutcome(stage: Stage, w: World, w2: World, c0: PluginConf, c: PluginConf, st: Steps, leased: bool,
                             a: Attachment, netns: nat, hs: seq<Handler>) {
    match stage
    case Preparing => w2 == w && hs == [LogFailure]
    case Attaching => w2 == w.(k := w2.k) && DevicesNotAdded(stage, w.k, w2.k, c0, c, st, a, netns, hs)
    case Applying => w2 == w.(k := w2.k) && DevicesNotAdded(stage, w.k, w2.k, c0, c, st, a, netns, hs)
    case SettingUp =>
      w2 == w.(k := w2.k) && DevicesNotAdded(stage, w.k, w2.k, c0, c, st, a, netns, hs) && Fresh(c0)
    case Informing =>
      AddSucceeded(w, w2, c0, st, a, netns) && c == st.c3 && Fresh(c0) && hs == Registered(c, c.netConf.ipamType != "")
    case Complete =>
      AddSucceeded(w, w2, c0, st, a, netns) && c == st.c3 && Fresh(c0) && hs == Registered(c, c.netConf.ipamType != "")
    case _ =>
      && DevicesAdded(w.k, w2.k, c0, st, a.ifName, netns) && c == st.c3 && Fresh(c0)
      && hs == Registered(c, leased)
      && w2 == World(w2.k, if leased then w.leases + {a} else w.leases, w.files)
  }

  lemma LinkStepFailed(stage: Stage, w: World, w2: World, c0: PluginConf, c: PluginConf, st: Steps, leased: bool,
                       a: Attachment, netns: nat, hs: seq<Handler>)
    requires DevicesNotAdded(stage, w.k, w2.k, c0, c, st, a, netns, hs)
    requires w2.leases == w.leases && w2.files == w.files && Fresh(c0)
    ensures AddOutcome(stage, w, w2, c0, c, st, leased, a, netns, hs)
    ensures stage.Attaching? || stage.Applying? || stage.SettingUp?
  {
  }

  lemma LinkStepsDone(stage: Stage, w: World, w2: World, c0: PluginConf, c: PluginConf, st: Steps, leased: bool,
                      a: Attachment, netns: nat, hs: seq<Handler>)
    requires DevicesAdded(w.k, w2.k, c0, st, a.ifName, netns) && c == st.c3 && Fresh(c0)
    requires stage.Configuring? || stage.Storing? || stage.Informing? || stage.Complete?
    requires hs == Registered(c, false) + if leased then [FreeLease] else []
    requires w2.leases == if leased then w.leases + {a} else w.leases
    requires w2.files == if stage.Informing? || stage.Complete? then w.files[StateRef(a) := Marshal(c)] else w.files
    requires stage.Informing? || stage.Complete? ==> leased == (c.netConf.ipamType != "")
    ensures AddOutcome(stage, w, w2, c0, c, st, leased, a, netns, hs)
  {
    assert hs == Registered(c, leased);
  }

  // A CmdAdd as it stands before its deferred undo runs, with the number of calls
  // that have failed on the host by then; `undone` tells whether every call of the
  // undo succeeded.
  datatype AddRun = AddRun(stage: Stage, w: World, c0: PluginConf, c: PluginConf, st: Steps, leased: bool,
                           handlers: seq<Handler>, failures: nat, undone: bool)

  ghost predicate Outcome(run: AddRun, w: World, a: Attachment, netns: nat) {
    AddOutcome(run.stage, w, run.w, run.c0, run.c, run.st, run.leased, a, netns, run.handlers)
  }

  // ADD fails in AttachRepresentor: a representor that was on no bridge is on
  // none and has no VLAN table, no other port has lost a VLAN, and all else of
  // the plugin's state is as before.
  lemma FailedAttachLeavesNothing(run: AddRun, w: World, a: Attachment, netns: nat, ns: NetNS, q: int)
    requires Outcome(run, w, a, netns) && run.stage.Attaching? && run.st.unplugged && Valid(w.k)
    requires var r := Find(w.k.links, run.c.representor, 0); r in w.k.links && w.k.links[r].master == 0
    ensures var w2, r := UndoneAll(run.handlers, run.w, run.c, a, ns), Find(w.k.links, run.c.representor, 0);
            && w2 == run.w && w2.leases == w.leases && w2.files == w.files
            && r in w2.k.links && w2.k.links[r].master == 0 && r !in w2.k.ports
            && (q in w2.k.ports <==> q in w.k.ports)
            && (q in w.k.ports ==> w.k.ports[q].vids <= w2.k.ports[q].vids <= w.k.ports[q].vids + run.st.added)
  {
    UndoneOne(LogFailure, run.w, run.c, a, ns);
    FailedAttachLeavesNoPort(w.k, run.w.k, run.c, run.st.added, q);
  }

  // Representor and VF as they were but down; the PF still with the requested
  // administrative MAC address.
  function RolledBackLinks(k: State, c: PluginConf, r: int, pf: int, vf: int): map<int, Link>
    requires r in k.links && pf in k.links && (!c.isUserspaceDriver ==> vf in k.links)
  {
    BothDown(k, c, r, vf)[pf := WithAdmin(k.links[pf], c)]
  }

  // The VF as VF setup leaves it.
  function PodLink(l: Link, c: PluginConf, a: Attachment, netns: nat): Link {
    Dressed(l, c).(name := a.ifName, netns := netns, up := true, master := 0)
  }

  // The links after the undo of an ADD whose VF setup went through: representor
  // and PF as above, but a VF with a kernel driver still in its pod.
  function LinksLeft(k: State, c: PluginConf, r: int, pf: int, vf: int, a: Attachment, netns: nat): map<int, Link>
    requires r in k.links && pf in k.links && (!c.isUserspaceDriver ==> vf in k.links)
  {
    var host := k.links[r := k.links[r].(up := false)][pf := WithAdmin(k.links[pf], c)];
    if c.isUserspaceDriver then host else host[vf := PodLink(k.links[vf], c, a, netns)]
  }

  lemma LinksLeftAfterAdd(k: State, c: PluginConf, r: int, b: int, pf: int, vf: int, a: Attachment, netns: nat)
    requires Valid(k) && ThreeDevices(k, c, r, pf, vf)
    ensures LinksAfterAdd(k, c, r, b, pf, vf, a, netns)[r := k.links[r].(up := false)]
            == LinksLeft(k, c, r, pf, vf, a, netns)
  {
    assert LinkOk(k.links, r) && LinkOk(k.links, pf);
  }

  lemma DetachAfterSetup(k: State, k2: State, c: PluginConf, r: int, b: int, pf: int, vf: int, a: Attachment,
                         netns: nat)
    requires AddLeft(k, k2, c, r, b, pf, vf, a, netns)
    requires k2.ports == Attached(k, c).ports && k.links[r].kind.Device?
    ensures Detached(k2, c) == State(LinksLeft(k, c, r, pf, vf, a, netns), PortsAfterBoth(k, c))
  {
    DetachAfterAdd(k, k2, c, r, b, pf, vf, a, netns);
    LinksLeftAfterAdd(k, c, r, b, pf, vf, a, netns);
    TablesAreRestored(k, k2, c, r, b, pf, vf, a, netns);
  }

  // The undo after VF setup: in IPAM, when saving, or in the device info file.
  lemma UndoAfterSetup(k: State, w: World, c: PluginConf, st: Steps, a: Attachment, netns: nat, leased: bool,
                       r: int, pf: int, vf: int)
    requires DevicesAdded(k, w.k, c, st, a.ifName, netns) && ThreeDevices(k, st.c1, r, pf, vf)
    ensures UndoneAll(Registered(st.c3, leased), w, st.c3, a, Closed(netns))
            == World(State(LinksLeft(k, st.c3, r, pf, vf, a, netns), PortsAfterBoth(k, st.c3)),
                     if leased then w.leases - {a} else w.leases, w.files)
  {
    AddShape(k, w.k, c, st, a, netns, r, pf, vf);
    DetachAfterSetup(k, w.k, st.c3, r, Find(k.links, c.actualBridge, 0), pf, vf, a, netns);
    UndoneWhenClosed(w, st.c3, a, Closed(netns), leased);
  }

  // VF setup went through and a later step failed.
  predicate FailedLate(stage: Stage) {
    stage.Configuring? || stage.Storing? || stage.Informing?
  }

  // What such a CmdAdd had done.
  lemma LateOutcome(run: AddRun, w: World, a: Attachment, netns: nat)
    requires Outcome(run, w, a, netns) && FailedLate(run.stage)
    ensures DevicesAdded(w.k, run.w.k, run.c0, run.st, a.ifName, netns) && run.c == run.st.c3
    ensures exists leased ::
              && run.handlers == Registered(run.c, leased)
              && run.w.leases == (if leased then w.leases + {a} else w.leases)
    ensures run.w.files == if run.stage.Informing? then w.files[StateRef(a) := Marshal(run.c)] else w.files
  {
    var leased := if run.stage.Informing? then run.c.netConf.ipamType != "" else run.leased;
    if run.stage.Informing? {
      SavedFields(w, run.w, run.c0, run.st, a, netns);
    }
    assert run.handlers == Registered(run.c, leased);
  }

  lemma FailedApplyIsUndone(run: AddRun, w: World, a: Attachment, netns: nat, r: int, pf: int, vf: int)
    requires Outcome(run, w, a, netns) && run.stage.Applying? && ThreeDevices(w.k, run.st.c1, r, pf, vf)
    ensures UndoneAll(run.handlers, run.w, run.c, a, Closed(netns))
            == World(State(w.k.links[r := w.k.links[r].(up := false)], PortsAfterBoth(w.k, run.c)), w.leases, w.files)
  {
    RollbackAfterAttach(w.k, run.w, run.c0, run.st.c1, run.c, a, Closed(netns), r, pf);
  }

  lemma FailedLateIsUndone(run: AddRun, w: World, a: Attachment, netns: nat, r: int, pf: int, vf: int)
    requires Outcome(run, w, a, netns) && FailedLate(run.stage)
    requires ThreeDevices(w.k, run.st.c1, r, pf, vf) && a !in w.leases
    ensures !run.c.isUserspaceDriver ==> vf in w.k.links
    ensures UndoneAll(run.handlers, run.w, run.c, a, Closed(netns))
            == World(State(LinksLeft(w.k, run.c, r, pf, vf, a, netns), PortsAfterBoth(w.k, run.c)), w.leases,
                     if run.stage.Informing? then w.files[StateRef(a) := Marshal(run.c)] else w.files)
  {
    LateOutcome(run, w, a, netns);
    var leased :| run.handlers == Registered(run.c, leased)
                  && run.w.leases == (if leased then w.leases + {a} else w.leases);
    UndoAfterSetup(w.k, run.w, run.c0, run.st, a, netns, leased, r, pf, vf);
    assert w.leases + {a} - {a} == w.leases;
  }

  // ADD fails in ApplyVFConfig, in IPAM, when saving or in the device info file,
  // and its undo succeeds: leases and tables are as before, a file has been
  // written only in the last case, and the links are as before up to the up flag
  // of the representor, the administrative MAC address, when one was requested
  // and ApplyVFConfig had set it, and a VF with a kernel driver that VF setup had
  // put into the pod.
  lemma FailedAddIsUndone(run: AddRun, w: World, a: Attachment, netns: nat, r: int, pf: int, vf: int)
    requires Outcome(run, w, a, netns) && (run.stage.Applying? || FailedLate(run.stage))
    requires ThreeDevices(w.k, run.st.c1, r, pf, vf) && a !in w.leases
    ensures FailedLate(run.stage) && !run.c.isUserspaceDriver ==> vf in w.k.links
    ensures UndoneAll(run.handlers, run.w, run.c, a, Closed(netns))
            == World(State(if run.stage.Applying? then w.k.links[r := w.k.links[r].(up := false)]
                           else LinksLeft(w.k, run.c, r, pf, vf, a, netns),
                           PortsAfterBoth(w.k, run.c)),
                     w.leases,
                     if run.stage.Informing? then w.files[StateRef(a) := Marshal(run.c)] else w.files)
  {
    if run.stage.Applying? {
      FailedApplyIsUndone(run, w, a, netns, r, pf, vf);
    } else {
      FailedLateIsUndone(run, w, a, netns, r, pf, vf);
    }
  }

  lemma LinksAreBackIffUserspace(k: State, c: PluginConf, r: int, pf: int, vf: int, a: Attachment, netns: nat)
    requires ThreeDevices(k, c, r, pf, vf) && netns > 0
    ensures LinksLeft(k, c, r, pf, vf, a, netns) == RolledBackLinks(k, c, r, pf, vf) <==> c.isUserspaceDriver
    ensures !c.isUserspaceDriver ==> LinksLeft(k, c, r, pf, vf, a, netns)[vf] == PodLink(k.links[vf], c, a, netns)
  {
    if !c.isUserspaceDriver {
      assert LinksLeft(k, c, r, pf, vf, a, netns)[vf].netns == netns;
      assert RolledBackLinks(k, c, r, pf, vf)[vf].netns == 0;
    } else {
      assert LinksLeft(k, c, r, pf, vf, a, netns) == RolledBackLinks(k, c, r, pf, vf);
    }
  }

  // So an ADD that fails after VF setup is undone if and only if the VF has a
  // userspace driver; any other VF stays in the pod, under the pod name and
  // exactly as VF setup left it.
  lemma UndoneIffUserspace(run: AddRun, w: World, a: Attachment, netns: nat, r: int, pf: int, vf: int)
    requires Outcome(run, w, a, netns) && FailedLate(run.stage) && netns > 0
    requires ThreeDevices(w.k, run.st.c1, r, pf, vf) && a !in w.leases
    ensures var k2 := UndoneAll(run.handlers, run.w, run.c, a, Closed(netns)).k;
            && (run.c.isUserspaceDriver <==>
                  k2 == State(RolledBackLinks(w.k, run.c, r, pf, vf), PortsAfterBoth(w.k, run.c)))
            && (!run.c.isUserspaceDriver ==>
                  && Is(k2.links, vf, a.ifName, netns)
                  && vf in run.w.k.links && k2.links[vf] == run.w.k.links[vf]
                  && k2.links[vf] == PodLink(w.k.links[vf], run.c, a, netns))
  {
    FailedAddIsUndone(run, w, a, netns, r, pf, vf);
    LateOutcome(run, w, a, netns);
    AddShape(w.k, run.w.k, run.c0, run.st, a, netns, r, pf, vf);
    LinksAreBackIffUserspace(w.k, run.c, r, pf, vf, a, netns);
  }

  lemma FindNamed(k: State, k1: State, pf: int, vf: int, c: PluginConf)
    requires Valid(k) && k1.links.Keys == k.links.Keys && Is(k.links, pf, c.pfName, 0)
    requires forall j :: j in k.links ==> k1.links[j].name == k.links[j].name && k1.links[j].netns == k.links[j].netns
    ensures Find(k1.links, c.pfName, 0) == pf
  {
    FindIsKept(k, k1.links, pf, c.pfName, 0);
  }

  lemma VfBeforeSetup(k: State, c0: PluginConf, st: Steps, r: int, pf: int, vf: int)
    requires Valid(k) && AttachSucceeded(k, st.k1, c0, st.c1) && ApplySucceeded(st.k1, st.k2, st.c1, st.c2)
             && Valid(st.k2)
    requires ThreeDevices(k, st.c1, r, pf, vf) && !c0.isUserspaceDriver
    ensures vf in st.k2.links && st.k2.links[vf] == k.links[vf]
    ensures Find(st.k2.links, st.c2.origVfState.hostIFName, 0) == vf
    ensures Is(st.k2.links, r, st.c2.representor, 0)
  {
    FindIs(k, r, st.c1.representor, 0);
    assert LinkOk(k.links, r) && LinkOk(k.links, pf) && LinkOk(k.links, vf);
    FindNamed(k, st.k1, pf, vf, st.c1);
    FindIs(st.k2, vf, st.c2.origVfState.hostIFName, 0);
  }

  lemma SetupLeavesOthers(k: State, st: Steps, k3: State, c: PluginConf, ifName: string, netns: nat, r: int, vf: int)
    requires vf in k.links && vf in st.k2.links && st.k2.links[vf] == k.links[vf] && r != vf
    requires Find(st.k2.links, st.c2.origVfState.hostIFName, 0) == vf
    requires Is(st.k2.links, r, c.representor, 0) && Valid(k3)
    requires SetupFailed(st.k2, k3, st.c2, ifName, netns, st.call)
    ensures var d := Detached(k3, c);
            && vf in d.links
            && d.links[vf] == SetupUpTo(k.links[vf], vf, st.c2, ifName, netns, st.call)
  {
    FindIs(k3, r, c.representor, 0);
    assert LinkOk(k3.links, r);
  }

  // The VF is the VF it was exactly when the failing call came before the renaming.
  lemma HarmlessIffBeforeRenaming(l: Link, i: int, c: PluginConf, ifName: string, netns: nat, call: SetupCall)
    requires l.name != TempName(i) && l.netns == 0 && netns > 0
    ensures var now := SetupUpTo(l, i, c, ifName, netns, call);
            now == l.(up := now.up) <==> !AfterRenaming(call)
  {
  }

  // ADD fails in SetupVF: the VF stays as the calls before the failing one left
  // it.  The closed handle is one reason; with an open one ReleaseVF would refuse.
  lemma FailedSetupKeepsVF(run: AddRun, w: World, a: Attachment, netns: nat, ns: NetNS, r: int, pf: int, vf: int)
    requires Outcome(run, w, a, netns) && run.stage.SettingUp? && netns > 0
    requires ThreeDevices(w.k, run.st.c1, r, pf, vf) && run.c0.origVfState.hostIFName != TempName(vf)
    ensures var k := UndoneAll(run.handlers, run.w, run.c, a, ns).k;
            && k == Detached(run.w.k, run.c)
            && vf in k.links
            && k.links[vf] == SetupUpTo(w.k.links[vf], vf, run.st.c2, a.ifName, netns, run.st.call)
            && (k.links[vf] == w.k.links[vf].(up := k.links[vf].up) <==> !AfterRenaming(run.st.call))
  {
    ReleaseDoesNothing(run.w, run.c, a, ns);
    VfBeforeSetup(w.k, run.c0, run.st, r, pf, vf);
    SetupLeavesOthers(w.k, run.st, run.w.k, run.c, a.ifName, netns, r, vf);
    HarmlessIffBeforeRenaming(w.k.links[vf], vf, run.st.c2, a.ifName, netns, run.st.call);
  }
}
