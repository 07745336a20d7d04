/**
 What comes after an ADD that has failed: the DEL that the runtime sends next, and
 a host on which the VF is left in its pod.
 */
module FailedAdd {
  import opened Wrappers
  import opened BridgeNames
  import opened Config
  import opened Arguments
  import opened Kernel
  import opened Types
  import opened Effects
  import opened Cache
  import opened Netlink
  import opened Lifecycle
  import opened AttachDetach
  import opened RoundTrip
  import opened Undo
  import opened Rollback
  import opened Retry

  // A complete detach is one that has come through all its stages.
  lemma DetachedIsLastStage(k: State, c: PluginConf) returns (gone: set<int>)
    ensures OnlyUnused(k, c, gone) && Detached(k, c) == DetachedPartly(k, c, 3, gone)
  {
    var r := Find(k.links, c.representor, 0);
    gone := {};
    if r in k.links {
      var off := Unplugged(k, r, c);
      gone := UnusedVids(off, UplinkOf(off.links, c), ConfVids(c));
    }
  }

  // The undo of an ADD is a DEL that got no further than detach and lease.
  lemma UndoneIsPartlyDeleted(run: AddRun, w: World, a: Attachment, netns: nat) returns (gone: set<int>)
    requires Outcome(run, w, a, netns) && run.stage.Informing?
    ensures OnlyUnused(run.w.k, run.c, gone)
    ensures UndoneAll(run.handlers, run.w, run.c, a, Closed(netns))
            == DelPartly(run.w, run.c, a, netns, 3, gone, true, false)
  {
    gone := DetachedIsLastStage(run.w.k, run.c);
    UndoneWhenClosed(run.w, run.c, a, Closed(netns), run.c.netConf.ipamType != "");
  }

  // An ADD that returned nil without its device info has been undone, the VF
  // still in the pod; but its cache file is there, and the DEL that finds it
  // brings everything back, as after an ADD that went through.
  lemma DelAfterUndoneAdd(run: AddRun, w: World, a: Attachment, netns: nat, r: int, pf: int, vf: int)
    requires Outcome(run, w, a, netns) && run.stage.Informing? && netns > 0
    requires ThreeDevices(w.k, run.st.c1, r, pf, vf) && a !in w.leases && StateRef(a) !in w.files
    ensures var now := UndoneAll(run.handlers, run.w, run.c, a, Closed(netns));
            && StateRef(a) in now.files
            && DelFinal(now, Unmarshal(now.files[StateRef(a)], ZERO_CONF), a, netns)
               == World(State(BothDown(w.k, run.c0, r, vf), PortsAfterBoth(w.k, run.c0)), w.leases, w.files)
  {
    var now := UndoneAll(run.handlers, run.w, run.c, a, Closed(netns));
    var gone := UndoneIsPartlyDeleted(run, w, a, netns);
    SavedFields(w, run.w, run.c0, run.st, a, netns);
    AddThenDelRestores(w, run.w, run.c0, run.st, a, netns, r, pf, vf);
    CacheRoundTrip(run.c);
    DelFinalOfStored(now, run.c, a, netns);
    DelFinalOfStored(run.w, run.c, a, netns);
    RetryReachesSameState(run.w, run.c, a, netns, 3, gone, true, false);
  }

  // A bridge, a PF with one VF, its representor and the VF, nothing attached.
  const BRIDGE := Link(1, "b", 0, 1500, 11, true, 0, Bridge, map[])
  const PF := Link(2, "pf", 0, 1500, 12, true, 0, Kind.Device, map[0 := 13])
  const REP := Link(3, "rep", 0, 1500, 14, false, 0, Kind.Device, map[])
  const VF := Link(4, "vf00", 0, 1500, 15, false, 0, Kind.Device, map[])
  const HOST := State(map[1 := BRIDGE, 2 := PF, 3 := REP, 4 := VF], map[])
  const POD := 7
  const NET_CONF := ZERO_NET_CONF.(name := "net", bridge := "b", deviceID := "0000:03:02.3")
  const CONF := ZERO_CONF.(netConf := NET_CONF, pfName := "pf", actualBridge := "b",
                           origVfState := VfState("vf00", Unset, Unset, 0))

  // The call with which CmdAdd gets that configuration.
  const CALL := Args("cid", "eth0", Some(POD), Some(Unset), Some(NET_CONF))
  const DEVICE := Device.Device(Some("pf"), Some(0), Some("vf00"), Some(false))
  const REPS := map[("pf", 0) := "rep"]

  lemma HostIsValid()
    ensures Valid(HOST)
  {
    assert Ranked(HOST.links, map[1 := 0, 2 := 0, 3 := 0, 4 := 0]);
    forall i, j, name, netns | Is(HOST.links, i, name, netns) && Is(HOST.links, j, name, netns) ensures i == j {
      assert |HOST.links[i].name| == i && |HOST.links[j].name| == j;
    }
  }

  lemma CallIsUsable()
    ensures Usable(HOST, CALL, DEVICE, CONF, POD) && Placed(HOST, REPS, DEVICE, 3, 2, 4)
  {
    SplitIsTheOnlyWay(Split("b"), ["b"]);
    assert TrimSpace("b") == "b";
    assert BridgeList("b") == ["b"];
  }

  // The representor on the bridge.
  lemma HostAttached() returns (k1: State, c1: PluginConf)
    ensures Valid(k1) && AttachSucceeded(HOST, k1, CONF, c1)
    ensures c1 == CONF.(representor := "rep")
    ensures k1.links == HOST.links[3 := REP.(up := true, master := 1)] && 4 !in k1.ports
  {
    HostIsValid();
    c1 := CONF.(representor := "rep");
    FindIs(HOST, 3, "rep", 0);
    FindIs(HOST, 1, "b", 0);
    var up := Prepared(REP, c1);
    SetLinkIsValid(HOST, up);
    SetMasterIsValid(SetLink(HOST, up), 3, 1);
    EnslavedInSteps(HOST, 3, 1, c1);
    var on := Enslaved(HOST, 3, 1, c1);
    SetPortIsValid(on, 3, Configured(BasePort(HOST, 3, 1), c1.trunk, c1.netConf.vlan));
    k1 := Joined(HOST, 3, 1, c1);
  }

  // And then the VF in the pod.
  lemma HostWithPod(k1: State, c2: PluginConf) returns (k3: State, c3: PluginConf)
    requires Valid(k1) && k1.links == HOST.links[3 := REP.(up := true, master := 1)] && 4 !in k1.ports
    requires c2.origVfState.hostIFName == "vf00" && c2.mac.Unset? && c2.mtu == 0
    ensures Valid(k3) && SetupSucceeded(k1, k3, c2, c3, "eth0", POD)
  {
    FindIs(k1, 4, "vf00", 0);
    c3 := WithVfState(c2, VF).(contIFNames := "eth0");
    k3 := InPod(k1, 4, c2, "eth0", POD);
    MoveToIsValid(k1, 4, POD);
    var moved := MoveTo(k1, 4, POD);
    var l := moved.links[4].(name := "eth0", up := true);
    SetLinkIsValid(moved, l);
    assert k3 == SetLink(moved, l);
  }

  // An ADD on this host whose cache.Save fails: its undo succeeds, and the VF
  // stays in the pod, with no cache file by which a DEL could find it.
  lemma VfIsLeftInPod() returns (run: AddRun, w: World, a: Attachment)
    ensures a == AttachmentOf(CALL) && w == World(HOST, {}, map[])
    ensures Outcome(run, w, a, POD) && run.stage.Storing? && !run.c.isUserspaceDriver
    ensures Usable(HOST, CALL, DEVICE, run.c0, POD) && RepresentorKnown(REPS, run.c)
    ensures var now := UndoneAll(run.handlers, run.w, run.c, a, Closed(POD));
            Is(now.k.links, 4, a.ifName, POD) && now.leases == {} && now.files == map[]
  {
    HostIsValid();
    CallIsUsable();
    a := AttachmentOf(CALL);
    w := World(HOST, {}, map[]);
    var k1, c1 := HostAttached();
    FindIs(k1, 2, "pf", 0);
    var c2 := c1.(origVfState := c1.origVfState.(adminMAC := Addr(13)));
    var k3, c3 := HostWithPod(k1, c2);
    var st := Steps(true, {}, k1, c1, k1, c2, LookUpVf, c3);
    run := AddRun(Storing, World(k3, {}, map[]), CONF, c3, st, false, Registered(c3, false), 1, true);
    assert DevicesAdded(HOST, k3, CONF, st, "eth0", POD);
    UndoneIffUserspace(run, w, a, POD, 3, 2, 4);
    FailedAddIsUndone(run, w, a, POD, 3, 2, 4);
  }
}
