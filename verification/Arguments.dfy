/** What a CNI call is given, and what it makes of it before it changes anything. */
module Arguments {
  import opened Wrappers
  import opened VlanLists
  import opened Kernel
  import opened Types
  import opened Effects
  import opened Cache
  import opened Config
  import opened Lifecycle

  // The CNI arguments.  netns is None for an empty path, env None for CNI_ARGS
  // that do not parse, stdin None for a configuration that does not.
  datatype Args = Args(containerID: string, ifName: string, netns: Option<nat>, env: Option<MacText>,
                       stdin: Option<NetConf>)

  function NsOf(path: Option<nat>): nat {
    if path.Some? then path.value else 0
  }

  function AttachmentOf(args: Args): Attachment {
    Attachment(if args.stdin.Some? then args.stdin.value.name else "", args.containerID, args.ifName)
  }

  function RefOf(args: Args): string {
    StateRef(AttachmentOf(args))
  }

  // Calls for two attachments, of whose container ids and interface names none
  // holds a dash.
  predicate Apart(x: Args, y: Args) {
    && x.stdin.Some? && '-' !in x.containerID && '-' !in x.ifName
    && y.stdin.Some? && '-' !in y.containerID && '-' !in y.ifName
    && (x.stdin.value.name != y.stdin.value.name || x.containerID != y.containerID || x.ifName != y.ifName)
  }

  // They share neither cache file nor lease.
  lemma CallsAreKeptApart(x: Args, y: Args)
    requires Apart(x, y)
    ensures RefOf(x) != RefOf(y) && AttachmentOf(x) != AttachmentOf(y)
  {
    if RefOf(x) == RefOf(y) {
      StateRefIsInjective(AttachmentOf(x), AttachmentOf(y));
    }
  }

  // Cache file and lease of the call y are as they were.
  ghost predicate EntryKept(w: World, w2: World, y: Args) {
    && (RefOf(y) in w2.files <==> RefOf(y) in w.files)
    && (RefOf(y) in w.files ==> w2.files[RefOf(y)] == w.files[RefOf(y)])
    && (AttachmentOf(y) in w2.leases <==> AttachmentOf(y) in w.leases)
  }

  // The call x leaves them so for all those that are apart from it.
  ghost predicate OthersKept(w: World, w2: World, x: Args) {
    forall y :: Apart(x, y) ==> EntryKept(w, w2, y)
  }

  // No file and no lease has changed but those of one attachment.
  ghost predicate OwnEntriesOnly(w: World, w2: World, a: Attachment) {
    w2.files - {StateRef(a)} == w.files - {StateRef(a)} && w2.leases - {a} == w.leases - {a}
  }

  lemma OwnEntriesKeepOthers(w: World, w2: World, x: Args)
    requires OwnEntriesOnly(w, w2, AttachmentOf(x))
    ensures OthersKept(w, w2, x)
  {
    forall y | Apart(x, y) ensures EntryKept(w, w2, y) {
      CallsAreKeptApart(x, y);
      var f, f2 := w.files - {RefOf(x)}, w2.files - {RefOf(x)};
      assert RefOf(y) in f2 <==> RefOf(y) in f;
      assert AttachmentOf(y) in w2.leases - {AttachmentOf(x)} <==> AttachmentOf(y) in w.leases - {AttachmentOf(x)};
    }
  }

  // The runtime configuration overrides CNI_ARGS, which override the configuration.
  function RequestedMac(env: MacText, runtime: MacText, conf: MacText): MacText {
    if !runtime.Unset? then runtime else if !env.Unset? then env else conf
  }

  // The configuration a CmdAdd works with, in a pod that exists.
  ghost predicate Usable(k: State, args: Args, dev: Device, c: PluginConf, netns: nat) {
    && args.netns == Some(netns) && netns > 0
    && args.stdin.Some? && args.env.Some?
    && Parsed(k.links, args.stdin.value, dev, c.(mac := args.stdin.value.mac))
    && c.mac == RequestedMac(args.env.value, args.stdin.value.runtimeMac, args.stdin.value.mac)
  }

  // There is no such configuration, whatever the namespace.
  ghost predicate Unusable(k: State, args: Args, dev: Device) {
    args.stdin.None? || args.env.None? || !Accepted(k.links, args.stdin.value, dev)
  }

  lemma UnusableHasNoConf(k: State, args: Args, dev: Device, c: PluginConf, netns: nat)
    requires Unusable(k, args, dev)
    ensures !Usable(k, args, dev, c, netns)
  {
    if args.stdin.Some? {
      AcceptedIffParsed(k.links, args.stdin.value, dev);
    }
  }

  // The representor of the VF has been looked up.
  predicate RepresentorKnown(reps: map<(string, int), string>, c: PluginConf) {
    (c.pfName, c.vfID) in reps && c.representor == reps[(c.pfName, c.vfID)]
  }

  // Where the devices are before an ADD: PF, representor and VF are three links in
  // the init namespace, representor and VF on no bridge.
  ghost predicate Placed(k: State, reps: map<(string, int), string>, dev: Device, r: int, pf: int, vf: int) {
    && dev.pf.Some? && dev.vfid.Some? && (dev.pf.value, dev.vfid.value) in reps
    && Is(k.links, r, reps[(dev.pf.value, dev.vfid.value)], 0) && k.links[r].master == 0
    && Is(k.links, pf, dev.pf.value, 0) && r != pf
    && (!NoInterface(dev) ==> Is(k.links, vf, dev.linkName.value, 0) && k.links[vf].master == 0 && vf != r && vf != pf)
  }

  // They are what the configuration refers to.  c has come from the usable c0.
  lemma PlacedAreThreeDevices(k: State, reps: map<(string, int), string>, args: Args, dev: Device, netns: nat,
                              c0: PluginConf, c: PluginConf, r: int, pf: int, vf: int)
    requires Usable(k, args, dev, c0, netns) && Placed(k, reps, dev, r, pf, vf)
    requires c.pfName == c0.pfName && c.vfID == c0.vfID && RepresentorKnown(reps, c)
    requires c.isUserspaceDriver == c0.isUserspaceDriver && c.origVfState.hostIFName == c0.origVfState.hostIFName
    ensures ThreeDevices(k, c, r, pf, vf)
  {
  }

  // The attach does not touch what ApplyVFConfig checks.
  lemma RefusedBeforeAttach(k: State, k1: State, c: PluginConf, c1: PluginConf)
    requires Valid(k) && AttachSucceeded(k, k1, c, c1)
    ensures ApplyRefused(k1, c1) <==> ApplyRefused(k, c)
  {
    FindSame(k, k1.links, c.pfName, 0);
  }

  // Nor is any VLAN changed by the conversion to 16 bits in the configuration that
  // DEL loads, which is what ADD had made of the parsed one.
  lemma LoadedVlansDoNotWrap(conf: NetConf, c: PluginConf, k: State, k3: State, st: Steps, ifName: string, netns: nat)
    requires VlansParsed(conf, c) && DevicesAdded(k, k3, c, st, ifName, netns)
    ensures var loaded := Unmarshal(Marshal(st.c3), ZERO_CONF);
            && VlanList(loaded.trunk, loaded.netConf.vlan) == VlanList(c.trunk, c.netConf.vlan)
            && (forall v :: v in VlanList(loaded.trunk, loaded.netConf.vlan) ==> 1 <= v <= 4094 && Vid(v) == v)
            && ConfVids(loaded) == set v | v in VlanList(loaded.trunk, loaded.netConf.vlan)
  {
    CacheRoundTrip(st.c3);
    ParsedVlansDoNotWrap(conf, c);
  }
}
