/**
 What a CmdAdd reports, and what it has done for its caller when it got through: in
 terms of the arguments and the PCI device, without the configuration in between.
 */
module Reports {
  import opened Wrappers
  import opened VlanLists
  import opened VlanIds
  import opened Kernel
  import opened Types
  import opened Effects
  import opened Cache
  import opened Config
  import opened Arguments
  import opened Lifecycle
  import opened AttachDetach
  import opened RoundTrip
  import opened Rollback
  import opened Promises

  // Why the steps of a CmdAdd none of whose calls failed did not get through.
  ghost predicate Refused(stage: Stage, k: State, c: PluginConf) {
    match stage
    case Applying => ApplyRefused(k, c)
    case Configuring => c.netConf.ipamType != ""          // its result had no address
    case Informing => c.netConf.deviceInfoFile != ""
    case _ => false
  }

  // What is known of a CmdAdd that started in w with `before` failed calls.
  ghost predicate Reported(run: AddRun, w: World, reps: map<(string, int), string>, args: Args, dev: Device,
                           before: nat) {
    && before <= run.failures
    && Outcome(run, w, AttachmentOf(args), NsOf(args.netns))
    && (!run.stage.Preparing? ==> Usable(w.k, args, dev, run.c0, NsOf(args.netns)))
    && (!run.stage.Preparing? && !run.stage.Attaching? ==> RepresentorKnown(reps, run.c))
    // nothing but a failed call or a refusal keeps an ADD from getting through
    && (run.failures == before && !run.stage.Complete? ==>
          if run.stage.Preparing? then Unusable(w.k, args, dev) else Refused(run.stage, w.k, run.c0))
  }

  // What is asked about tables and links does not depend on what ADD records.
  lemma SameQuestions(k: State, c: PluginConf, c0: PluginConf, r: int, pf: int, vf: int, a: Attachment, netns: nat)
    requires c.netConf == c0.netConf && c.trunk == c0.trunk && c.mac == c0.mac && c.mtu == c0.mtu
    requires c.pfName == c0.pfName && c.vfID == c0.vfID && c.isUserspaceDriver == c0.isUserspaceDriver
    requires r in k.links && pf in k.links && (!c.isUserspaceDriver ==> vf in k.links)
    ensures PortsAfterBoth(k, c) == PortsAfterBoth(k, c0)
    ensures LinksLeft(k, c, r, pf, vf, a, netns) == LinksLeft(k, c0, r, pf, vf, a, netns)
  {
  }

  // A CmdAdd that has set the VF up.
  lemma SetUpInRun(run: AddRun, w: World, a: Attachment, netns: nat)
    requires Outcome(run, w, a, netns) && (FailedLate(run.stage) || run.stage.Complete?)
    ensures DevicesAdded(w.k, run.w.k, run.c0, run.st, a.ifName, netns) && run.c == run.st.c3
  {
    if FailedLate(run.stage) {
      LateOutcome(run, w, a, netns);
    }
  }

  // In such a run the links where the devices are placed are those the undo and
  // the DEL are about.
  lemma PlacedForRun(run: AddRun, w: World, reps: map<(string, int), string>, args: Args, dev: Device, before: nat,
                     r: int, pf: int, vf: int)
    requires Reported(run, w, reps, args, dev, before) && Placed(w.k, reps, dev, r, pf, vf)
    requires FailedLate(run.stage) || run.stage.Complete?
    ensures DevicesAdded(w.k, run.w.k, run.c0, run.st, args.ifName, NsOf(args.netns)) && run.c == run.st.c3
    ensures ThreeDevices(w.k, run.st.c1, r, pf, vf)
    ensures ThreeDevices(w.k, run.c0.(representor := run.c.representor), r, pf, vf)
    ensures PortsAfterBoth(w.k, run.c) == PortsAfterBoth(w.k, run.c0)
    ensures LinksLeft(w.k, run.c, r, pf, vf, AttachmentOf(args), NsOf(args.netns))
            == LinksLeft(w.k, run.c0, r, pf, vf, AttachmentOf(args), NsOf(args.netns))
  {
    var a, netns := AttachmentOf(args), NsOf(args.netns);
    SetUpInRun(run, w, a, netns);
    AddedFields(w.k, run.w.k, run.c0, run.st, args.ifName, netns);
    PlacedAreThreeDevices(w.k, reps, args, dev, netns, run.c0, run.c, r, pf, vf);
    PlacedAreThreeDevices(w.k, reps, args, dev, netns, run.c0, run.st.c1, r, pf, vf);
    SameQuestions(w.k, run.c, run.c0, r, pf, vf, a, netns);
  }

  // Before its undo a CmdAdd has touched no lease and no file but its own.
  lemma OutcomeOwnEntries(run: AddRun, w: World, a: Attachment, netns: nat)
    requires Outcome(run, w, a, netns)
    ensures OwnEntriesOnly(w, run.w, a)
  {
    if run.stage.Complete? || run.stage.Informing? {
      SavedFields(w, run.w, run.c0, run.st, a, netns);
      FileAdded(w.files, StateRef(a), Marshal(run.st.c3));
      LeaseAdded(w.leases, a);
    } else if run.stage.Configuring? || run.stage.Storing? {
      LeaseAdded(w.leases, a);
    }
  }

  lemma FileAdded(files: map<string, Document>, ref: string, d: Document)
    ensures files[ref := d] - {ref} == files - {ref}
  {
  }

  lemma LeaseAdded(leases: set<Attachment>, a: Attachment)
    ensures leases + {a} - {a} == leases - {a}
  {
  }

  // A VLAN that the configuration asks for.
  ghost predicate AsksForVlan(conf: NetConf, v: int) {
    Requested(conf.trunk, v) || (conf.vlan > 0 && v == conf.vlan)
  }

  // The MAC address that a call asks for: the runtime configuration goes before
  // CNI_ARGS, and these before the configuration.
  predicate AsksForMac(args: Args, mac: MacText)
    requires args.stdin.Some? && args.env.Some?
  {
    var conf, env := args.stdin.value, args.env.value;
    if conf.runtimeMac != Unset then mac == conf.runtimeMac
    else if env != Unset then mac == env
    else mac == conf.mac
  }

  // The representor is up, has the MTU asked for, and is on a bridge that is
  // configured.  When several are, it is on the bridge of the uplink.
  ghost predicate RepresentorAdded(k: State, k2: State, conf: NetConf, r: int, pf: int)
    requires r in k.links && pf in k.links
  {
    && r in k2.links && k2.links[r].up && k2.links[r].mtu == (if conf.mtu == 0 then k.links[r].mtu else conf.mtu)
    && k2.links[r] == k.links[r].(up := true, mtu := k2.links[r].mtu, master := k2.links[r].master)
    && OnConfiguredBridge(k, k2.links[r].master, BridgeList(conf.bridge), pf)
  }

  ghost predicate OnConfiguredBridge(k: State, b: int, names: seq<string>, pf: int)
    requires pf in k.links
  {
    && b in k.links && k.links[b].kind.Bridge? && k.links[b].netns == 0 && k.links[b].name in names
    && (|names| > 1 && k.links[pf].kind.Device? ==>
          forall u :: u in k.ports && u in k.links && StandsFor(k.links, u, pf) ==> k.links[u].master == b)
  }

  // Its port has exactly the VLANs asked for, and the native one.
  ghost predicate PortAdded(k2: State, conf: NetConf, r: int) {
    && r in k2.ports
    && var t, plain := k2.ports[r], conf.trunk == [] && conf.vlan == 0;
       && (forall v :: v in t.vids <==> AsksForVlan(conf, v) || (plain && v == 1))
       && t.pvid == (if conf.vlan > 0 then Some(conf.vlan) else if plain then Some(1) else None)
       && (forall v :: v in t.untagged <==> t.pvid == Some(v))
  }

  // The uplink has them as well, when that is asked for; no other port has changed.
  ghost predicate UplinkAdded(k: State, k2: State, conf: NetConf, r: int, pf: int)
    requires pf in k.links
  {
    && k2.ports.Keys == k.ports.Keys + {r}
    && forall q :: q in k.ports && q != r ==>
         if conf.setUplinkVlan && StandsFor(k.links, q, pf) then
           forall v :: v in k2.ports[q].vids <==> v in k.ports[q].vids || AsksForVlan(conf, v)
         else k2.ports[q] == k.ports[q]
  }

  // The PF has the MAC address asked for as the administrative one of that VF.
  ghost predicate AdminAdded(k: State, k2: State, args: Args, vfid: int, pf: int)
    requires pf in k.links && args.stdin.Some? && args.env.Some?
  {
    && vfid in k.links[pf].vfs && pf in k2.links
    && forall mac :: AsksForMac(args, mac) ==>
         && !mac.Malformed?
         && k2.links[pf] == if mac.Addr? then k.links[pf].(vfs := k.links[pf].vfs[vfid := mac.mac]) else k.links[pf]
  }

  // The VF is in the pod under the name of the interface, up, with MAC and MTU.
  ghost predicate InterfaceAdded(k: State, k2: State, args: Args, vf: int)
    requires vf in k.links && args.stdin.Some? && args.env.Some?
  {
    && vf in k2.links
    && var l, l2 := k.links[vf], k2.links[vf];
       && l2.name == args.ifName && args.netns == Some(l2.netns) && l2.up
       && l2.mtu == (if args.stdin.value.mtu == 0 then l.mtu else args.stdin.value.mtu)
       && (forall mac :: AsksForMac(args, mac) ==> l2.mac == if mac.Addr? then mac.mac else l.mac)
       && l2 == l.(name := l2.name, netns := l2.netns, up := true, mtu := l2.mtu, mac := l2.mac)
  }

  // The cache file tells DEL the devices, and what they had before.
  ghost predicate SavedForDel(k: State, files: map<string, Document>, args: Args, dev: Device, r: int, pf: int, vf: int)
    requires r in k.links && pf in k.links && (!NoInterface(dev) ==> vf in k.links)
    requires args.stdin.Some? && args.env.Some?
  {
    && RefOf(args) in files
    && var saved, conf := Unmarshal(files[RefOf(args)], ZERO_CONF), args.stdin.value;
       && dev.pf == Some(saved.pfName) && dev.vfid == Some(saved.vfID) && saved.representor == k.links[r].name
       && saved.isUserspaceDriver == NoInterface(dev) && saved.netConf.ipamType == conf.ipamType
       && saved.mtu == conf.mtu && AsksForMac(args, saved.mac)
       && (saved.mtu != 0 ==> saved.origRepState.mtu == k.links[r].mtu)
       && saved.vfID in k.links[pf].vfs && saved.origVfState.adminMAC == Addr(k.links[pf].vfs[saved.vfID])
       && (!NoInterface(dev) ==>
             && saved.contIFNames == args.ifName && saved.origVfState.hostIFName == k.links[vf].name
             && (saved.mac != Unset ==> saved.origVfState.effectiveMAC == Addr(k.links[vf].mac))
             && (saved.mtu != 0 ==> saved.origVfState.mtu == k.links[vf].mtu))
       && saved.netConf.setUplinkVlan == conf.setUplinkVlan && saved.netConf.vlan == conf.vlan
       && forall v :: v in saved.trunk <==> Requested(conf.trunk, v)
  }

  ghost predicate DevicesAsAsked(k: State, k2: State, args: Args, dev: Device, r: int, pf: int, vf: int)
    requires r in k.links && pf in k.links && (!NoInterface(dev) ==> vf in k.links)
    requires args.stdin.Some? && args.env.Some? && dev.vfid.Some?
  {
    && RepresentorAdded(k, k2, args.stdin.value, r, pf)
    && PortAdded(k2, args.stdin.value, r)
    && UplinkAdded(k, k2, args.stdin.value, r, pf)
    && AdminAdded(k, k2, args, dev.vfid.value, pf)
    && (!NoInterface(dev) ==> InterfaceAdded(k, k2, args, vf))
    && OtherLinksKept(k, k2, if NoInterface(dev) then {r, pf} else {r, pf, vf})
  }

  // What a CmdAdd that got through has done, the devices being where the PCI device
  // says they are.
  ghost predicate AddedAsAsked(w: World, w2: World, args: Args, dev: Device, r: int, pf: int, vf: int)
    requires r in w.k.links && pf in w.k.links && (!NoInterface(dev) ==> vf in w.k.links)
  {
    && args.stdin.Some? && args.env.Some? && dev.vfid.Some?
    && DevicesAsAsked(w.k, w2.k, args, dev, r, pf, vf)
    && (AttachmentOf(args) in w2.leases <==> args.stdin.value.ipamType != "" || AttachmentOf(args) in w.leases)
    && SavedForDel(w.k, w2.files, args, dev, r, pf, vf)
  }

  ghost predicate OtherLinksKept(k: State, k2: State, changed: set<int>) {
    k2.links.Keys == k.links.Keys && forall j :: j in k.links && j !in changed ==> k2.links[j] == k.links[j]
  }

  lemma AskedInTheConfiguration(conf: NetConf, c: PluginConf)
    requires VlansParsed(conf, c)
    ensures forall v :: Asked(c, v) <==> AsksForVlan(conf, v)
    ensures c.trunk == [] <==> conf.trunk == []
    ensures 0 <= conf.vlan <= 4094 && c.netConf.vlan == conf.vlan
    ensures forall v :: v in c.trunk <==> Requested(conf.trunk, v)
  {
    ParsedVlansDoNotWrap(conf, c);
    forall v | v in c.trunk ensures 1 <= v <= 4094 {
      assert v in VlanList(c.trunk, c.netConf.vlan);
    }
    if conf.trunk != [] {
      var v :| Requested(conf.trunk, v);
      assert v in c.trunk;
    }
    forall v ensures Asked(c, v) <==> AsksForVlan(conf, v) {
      if AsksForVlan(conf, v) && v in c.trunk {
        assert v % 0x1_0000 == v;
      }
    }
  }

  // The bridge found for the uplink is the one the uplink is a port of.
  lemma BridgeOfUplink(k: State, pf: int, pfName: string, names: seq<string>, b: int)
    requires Valid(k) && Is(k.links, pf, pfName, 0)
    requires b in k.links && k.links[b].kind.Bridge? && ChosenFrom(k.links, pfName, names, k.links[b].name)
    requires k.links[b].netns == 0
    ensures OnConfiguredBridge(k, b, names, pf)
  {
    if |names| > 1 && k.links[pf].kind.Device? {
      FindIs(k, pf, pfName, 0);
      var p :| IsParentBridge(k.links, pf, p) && p in k.links && k.links[p].name == k.links[b].name;
      BondAgrees(k.links, pf, p);
      forall u | u in k.ports && u in k.links && StandsFor(k.links, u, pf) ensures k.links[u].master == b {
        ParentOfUplink(k, u, pf, p);
        FindIs(k, b, k.links[b].name, 0);
        FindIs(k, p, k.links[b].name, 0);
      }
    }
  }

  lemma ParentOfUplink(k: State, u: int, pf: int, p: int)
    requires Valid(k) && pf in k.links && k.links[pf].netns == 0 && u in k.ports && u in k.links
    requires StandsFor(k.links, u, pf) && IsParentBridge(k.links, u, p)
    ensures k.links[u].master == p && p in k.links && k.links[p].netns == 0
  {
    PortIsLink(k, u);
    assert LinkOk(k.links, pf) && LinkOk(k.links, k.links[u].master);
    ParentOfPort(k, u, p);
  }

  // What a CmdAdd that got through made of its arguments.
  ghost predicate Made(k: State, args: Args, dev: Device, c0: PluginConf, c: PluginConf) {
    && Usable(k, args, dev, c0, NsOf(args.netns))
    && c.netConf == c0.netConf && c.trunk == c0.trunk && c.mac == c0.mac && c.mtu == c0.mtu
    && c.pfName == c0.pfName && c.vfID == c0.vfID && c.actualBridge == c0.actualBridge
    && c.isUserspaceDriver == c0.isUserspaceDriver && c.origVfState.hostIFName == c0.origVfState.hostIFName
  }

  lemma MadeOfArguments(k: State, args: Args, dev: Device, c0: PluginConf, c: PluginConf)
    requires Made(k, args, dev, c0, c)
    ensures var conf := args.stdin.value;
            && c.mtu == conf.mtu && AsksForMac(args, c.mac) && c.netConf == conf.(bridge := c.netConf.bridge)
            && dev.pf == Some(c.pfName) && dev.vfid == Some(c.vfID) && c.isUserspaceDriver == NoInterface(dev)
            && VlansParsed(conf, c)
            && ChosenFrom(k.links, c.pfName, BridgeList(conf.bridge), c.actualBridge)
  {
    var conf, parsed := args.stdin.value, c0.(mac := args.stdin.value.mac);
    assert BridgeOption(parsed.netConf.bridge) == BridgeOption(conf.bridge);
    assert BridgeList(parsed.netConf.bridge) == BridgeList(conf.bridge);
    assert BridgeChosen(k.links, parsed, parsed.actualBridge);
  }

  lemma RepresentorIsAdded(k: State, k2: State, args: Args, dev: Device, c0: PluginConf, c: PluginConf, r: int, b: int,
                           pf: int, vf: int)
    requires Made(k, args, dev, c0, c) && AddLeft(k, k2, c, r, b, pf, vf, AttachmentOf(args), NsOf(args.netns))
    requires b in k.links && b == Find(k.links, c.actualBridge, 0) && k.links[b].kind.Bridge?
    ensures RepresentorAdded(k, k2, args.stdin.value, r, pf)
  {
    MadeOfArguments(k, args, dev, c0, c);
    ZeroIsNoLink(k);
    BridgeOfUplink(k, pf, c.pfName, BridgeList(args.stdin.value.bridge), b);
  }

  lemma UplinkStandsForPf(k: State, c: PluginConf, pf: int)
    requires Valid(k) && Is(k.links, pf, c.pfName, 0)
    ensures forall q :: IsUplink(k, c.pfName, q) <==> StandsFor(k.links, q, pf)
  {
    forall q ensures IsUplink(k, c.pfName, q) <==> StandsFor(k.links, q, pf) {
      if p :| Is(k.links, p, c.pfName, 0) && StandsFor(k.links, q, p) {
        FindIs(k, p, c.pfName, 0);
        FindIs(k, pf, c.pfName, 0);
      }
    }
  }

  lemma TablesAreAdded(k: State, k2: State, conf: NetConf, c: PluginConf, r: int, b: int, pf: int)
    requires Valid(k) && Is(k.links, pf, c.pfName, 0) && r in k.links && k.links[r].master != b
    requires RepresentorTables(k, k2, c, r, b) && VlansParsed(conf, c) && c.netConf.setUplinkVlan == conf.setUplinkVlan
    ensures PortAdded(k2, conf, r) && UplinkAdded(k, k2, conf, r, pf)
  {
    AskedInTheConfiguration(conf, c);
    UplinkStandsForPf(k, c, pf);
  }

  lemma PortsAreAdded(k: State, k2: State, args: Args, dev: Device, c0: PluginConf, c: PluginConf, r: int, b: int,
                      pf: int, vf: int)
    requires Made(k, args, dev, c0, c) && AddLeft(k, k2, c, r, b, pf, vf, AttachmentOf(args), NsOf(args.netns))
    requires b in k.links && b == Find(k.links, c.actualBridge, 0) && k.links[b].kind.Bridge?
    requires k.links[r].kind.Device? && k2.ports == Attached(k, c).ports
    ensures PortAdded(k2, args.stdin.value, r) && UplinkAdded(k, k2, args.stdin.value, r, pf)
  {
    MadeOfArguments(k, args, dev, c0, c);
    ZeroIsNoLink(k);
    FindIs(k, r, c.representor, 0);
    FindIs(k, pf, c.pfName, 0);
    assert k.links[r].name != c.pfName;
    AttachedTables(k, c, r, b);
    TablesAreAdded(k, k2, args.stdin.value, c, r, b, pf);
  }

  lemma LinksAreAdded(k: State, k2: State, args: Args, dev: Device, c0: PluginConf, c: PluginConf, r: int, b: int,
                      pf: int, vf: int)
    requires Made(k, args, dev, c0, c) && AddLeft(k, k2, c, r, b, pf, vf, AttachmentOf(args), NsOf(args.netns))
    ensures AdminAdded(k, k2, args, c.vfID, pf) && (!NoInterface(dev) ==> InterfaceAdded(k, k2, args, vf))
    ensures OtherLinksKept(k, k2, if NoInterface(dev) then {r, pf} else {r, pf, vf})
  {
    MadeOfArguments(k, args, dev, c0, c);
    forall mac | AsksForMac(args, mac) ensures mac == c.mac {
    }
  }

  lemma FileIsSaved(k: State, k2: State, files: map<string, Document>, args: Args, dev: Device, c0: PluginConf,
                    c: PluginConf, r: int, b: int, pf: int, vf: int)
    requires Made(k, args, dev, c0, c) && AddLeft(k, k2, c, r, b, pf, vf, AttachmentOf(args), NsOf(args.netns))
    requires RefOf(args) in files && files[RefOf(args)] == Marshal(c)
    requires !c.isUserspaceDriver ==> c.contIFNames == args.ifName
    ensures SavedForDel(k, files, args, dev, r, pf, vf)
  {
    MadeOfArguments(k, args, dev, c0, c);
    AskedInTheConfiguration(args.stdin.value, c);
    CacheRoundTrip(c);
  }

  lemma MadeByDevices(k: State, k3: State, args: Args, dev: Device, c0: PluginConf, st: Steps)
    requires DevicesAdded(k, k3, c0, st, args.ifName, NsOf(args.netns))
    requires Usable(k, args, dev, c0, NsOf(args.netns))
    ensures Made(k, args, dev, c0, st.c3)
    ensures !c0.isUserspaceDriver ==> st.c3.contIFNames == args.ifName
    ensures var b := Find(k.links, c0.actualBridge, 0); b in k.links && k.links[b].kind.Bridge?
  {
    AddedFields(k, k3, c0, st, args.ifName, NsOf(args.netns));
  }

  lemma DevicesAreAdded(k: State, k2: State, args: Args, dev: Device, c0: PluginConf, c: PluginConf, r: int, b: int,
                        pf: int, vf: int)
    requires Made(k, args, dev, c0, c) && AddLeft(k, k2, c, r, b, pf, vf, AttachmentOf(args), NsOf(args.netns))
    requires b in k.links && b == Find(k.links, c.actualBridge, 0) && k.links[b].kind.Bridge?
    requires k.links[r].kind.Device? && k2.ports == Attached(k, c).ports
    ensures dev.vfid.Some? && (!NoInterface(dev) ==> vf in k.links)
    ensures DevicesAsAsked(k, k2, args, dev, r, pf, vf)
  {
    MadeOfArguments(k, args, dev, c0, c);
    RepresentorIsAdded(k, k2, args, dev, c0, c, r, b, pf, vf);
    PortsAreAdded(k, k2, args, dev, c0, c, r, b, pf, vf);
    LinksAreAdded(k, k2, args, dev, c0, c, r, b, pf, vf);
  }

  lemma CompleteRun(run: AddRun, w: World, a: Attachment, netns: nat)
    requires Outcome(run, w, a, netns) && run.stage.Complete?
    ensures AddSucceeded(w, run.w, run.c0, run.st, a, netns) && run.c == run.st.c3
  {
  }

  lemma ShapeInRun(run: AddRun, w: World, reps: map<(string, int), string>, args: Args, dev: Device, before: nat,
                   r: int, pf: int, vf: int)
    requires Reported(run, w, reps, args, dev, before) && run.stage.Complete? && Placed(w.k, reps, dev, r, pf, vf)
    ensures AddLeft(w.k, run.w.k, run.c, r, Find(w.k.links, run.c0.actualBridge, 0), pf, vf, AttachmentOf(args),
                    NsOf(args.netns))
    ensures run.w.k.ports == Attached(w.k, run.c).ports && w.k.links[r].kind.Device?
  {
    PlacedForRun(run, w, reps, args, dev, before, r, pf, vf);
    AddShape(w.k, run.w.k, run.c0, run.st, AttachmentOf(args), NsOf(args.netns), r, pf, vf);
  }

  lemma AddIsAsAsked(run: AddRun, w: World, reps: map<(string, int), string>, args: Args, dev: Device, before: nat,
                     r: int, pf: int, vf: int)
    requires Reported(run, w, reps, args, dev, before) && run.stage.Complete? && Placed(w.k, reps, dev, r, pf, vf)
    ensures AddedAsAsked(w, run.w, args, dev, r, pf, vf)
  {
    var b := Find(w.k.links, run.c0.actualBridge, 0);
    CompleteRun(run, w, AttachmentOf(args), NsOf(args.netns));
    MadeByDevices(w.k, run.w.k, args, dev, run.c0, run.st);
    ShapeInRun(run, w, reps, args, dev, before, r, pf, vf);
    SavedFields(w, run.w, run.c0, run.st, AttachmentOf(args), NsOf(args.netns));
    MadeOfArguments(w.k, args, dev, run.c0, run.c);
    DevicesAreAdded(w.k, run.w.k, args, dev, run.c0, run.c, r, b, pf, vf);
    FileIsSaved(w.k, run.w.k, run.w.files, args, dev, run.c0, run.c, r, b, pf, vf);
  }

  // A call, a device and a host of which nothing but a failing request, or an IPAM
  // result without address, keeps an ADD from getting through.
  ghost predicate NothingInTheWay(k: State, args: Args, dev: Device) {
    && args.stdin.Some? && args.env.Some? && Accepted(k.links, args.stdin.value, dev)
    && (forall mac :: AsksForMac(args, mac) ==> !mac.Malformed?)
    && (forall pf :: Is(k.links, pf, dev.pf.value, 0) ==> dev.vfid.value in k.links[pf].vfs)
    && args.stdin.value.deviceInfoFile == ""
  }

  lemma NothingStopsAdd(run: AddRun, w: World, reps: map<(string, int), string>, args: Args, dev: Device, before: nat)
    requires Reported(run, w, reps, args, dev, before) && Valid(w.k)
    requires run.failures == before && NothingInTheWay(w.k, args, dev)
    ensures run.stage.Complete? || (run.stage.Configuring? && args.stdin.value.ipamType != "")
  {
    ZeroIsNoLink(w.k);
    if !run.stage.Preparing? {
      assert AsksForMac(args, run.c0.mac);
      assert Made(w.k, args, dev, run.c0, run.c0);
      MadeOfArguments(w.k, args, dev, run.c0, run.c0);
    }
  }

  // All that a CmdAdd keeps to before its undo.
  lemma CompleteAdd(run: AddRun, w: World, reps: map<(string, int), string>, args: Args, dev: Device, before: nat)
    requires Reported(run, w, reps, args, dev, before) && Valid(w.k)
    ensures OwnEntriesOnly(w, run.w, AttachmentOf(args))
    ensures run.failures == before && NothingInTheWay(w.k, args, dev) ==>
              run.stage.Complete? || (run.stage.Configuring? && args.stdin.value.ipamType != "")
    ensures run.stage.Complete? ==>
              forall r, pf, vf :: Placed(w.k, reps, dev, r, pf, vf) ==> AddedAsAsked(w, run.w, args, dev, r, pf, vf)
  {
    OutcomeOwnEntries(run, w, AttachmentOf(args), NsOf(args.netns));
    if run.failures == before && NothingInTheWay(w.k, args, dev) {
      NothingStopsAdd(run, w, reps, args, dev, before);
    }
    if run.stage.Complete? {
      forall r, pf, vf | Placed(w.k, reps, dev, r, pf, vf) ensures AddedAsAsked(w, run.w, args, dev, r, pf, vf) {
        AddIsAsAsked(run, w, reps, args, dev, before, r, pf, vf);
      }
    }
  }
}
