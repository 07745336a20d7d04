/** CmdAdd and CmdDel with their undo handlers: pkg/plugin/plugin.go and cmdcontext.go. */
module Plugin {
  import opened Wrappers
  import opened Kernel
  import opened Netlink
  import opened Types
  import opened Effects
  import opened Cache
  import opened Config
  import opened Arguments
  import opened Lifecycle
  import opened Undo
  import opened Rollback
  import opened Retry
  import opened Attempts
  import opened Reports
  import M = Manager

  // Outcome of an IPAM ADD.
  datatype IpamResult = IpamResult(convertible: bool, ips: nat)

  // Before the first step.
  function NoSteps(k: State, c: PluginConf): Steps {
    Steps(true, {}, k, c, k, c, LookUpVf, c)
  }

  class Ipam {
    const h: Host
    var leases: set<Attachment>

    constructor (h: Host)
      ensures this.h == h && leases == {}
    {
      this.h := h;
      leases := {};
    }

    method ExecAdd(a: Attachment) returns (ok: bool, r: IpamResult)
      modifies this`leases, h`failures
      ensures ok ==> leases == old(leases) + {a} && h.failures == old(h.failures)
      ensures !ok ==> leases == old(leases) && h.failures > old(h.failures)
    {
      ok := *;
      var convertible: bool, ips: nat := *, *;
      r := IpamResult(convertible, ips);
      if ok {
        leases := leases + {a};
      } else {
        h.failures := h.failures + 1;
      }
    }

    // Deleting a lease that is not there is no error.
    method ExecDel(a: Attachment) returns (ok: bool)
      modifies this`leases, h`failures
      ensures ok ==> leases == old(leases) - {a} && h.failures == old(h.failures)
      ensures !ok ==> leases == old(leases) && h.failures > old(h.failures)
    {
      ok := *;
      if ok {
        leases := leases - {a};
      } else {
        h.failures := h.failures + 1;
      }
    }

    // Addresses and routes inside the pod are no part of the kernel state here.
    method ConfigureIface() returns (ok: bool)
      modifies h`failures
      ensures ok ==> h.failures == old(h.failures)
      ensures !ok ==> h.failures > old(h.failures)
    {
      ok := *;
      if !ok {
        h.failures := h.failures + 1;
      }
    }
  }

  // The undo stack of one command, and its handle on the pod namespace.
  class CmdContext {
    var netNS: NetNS
    var errorHandlers: seq<Handler>

    constructor ()
      ensures errorHandlers == [] && netNS == Unopened
    {
      errorHandlers, netNS := [], Unopened;
    }

    method RegisterErrorHandler(f: Handler)
      modifies this`errorHandlers
      ensures errorHandlers == old(errorHandlers) + [f]
    {
      errorHandlers := errorHandlers + [f];
    }

    // The deferred Close, which is deferred only once there is a handle.
    method CloseNetNS()
      modifies this`netNS
      ensures !netNS.Opened?
      ensures netNS == if old(netNS).Opened? then Closed(old(netNS).netns) else old(netNS)
    {
      if netNS.Opened? {
        netNS := Closed(netNS.netns);
      }
    }
  }

  class Plugin {
    const h: Host
    const manager: M.Manager
    const ipam: Ipam
    const cache: FsStateCache

    constructor (h: Host)
      ensures this.h == h && Wired()
      ensures fresh(manager) && fresh(ipam) && fresh(cache)
    {
      this.h := h;
      manager := new M.Manager(h);
      ipam := new Ipam(h);
      cache := new FsStateCache(h);
    }

    ghost predicate Wired() {
      manager.h == h && ipam.h == h && cache.h == h
    }

    // No namespace entered, no lock held.
    ghost predicate Ready()
      reads h
    {
      Valid(h.k) && h.ns == 0 && !h.locked
    }

    ghost function World(): World
      reads h, ipam, cache
    {
      Lifecycle.World.World(h.k, ipam.leases, cache.files)
    }

    // The handler of the VF enters the pod first; with a closed handle that is an error.
    method RunHandler(f: Handler, ctx: CmdContext, p: PluginConfRef, a: Attachment)
      requires Wired() && Ready() && (ctx.netNS.Opened? ==> ctx.netNS.netns > 0)
      modifies h, ipam
      ensures Ready() && h.failures >= old(h.failures)
      ensures h.failures == old(h.failures) && (f.Release? && ctx.netNS.Opened? ==> MacRestorable(p.c)) ==>
                World() == Undone(f, old(World()), p.c, a, ctx.netNS)
      ensures Tried(f, old(World()), World(), p.c, a, ctx.netNS)
      ensures f.Release? && (!ctx.netNS.Opened? || ReleaseRefused(p.c)) ==> World() == old(World())
    {
      match f
      case LogFailure =>
      case Detach =>
        var _, _, _ := manager.DetachRepresentor(p.c);
      case Release =>
        var found := h.EnterThrough(ctx.netNS);
        if found {
          var link: Link;
          found, link := h.LinkByName(a.ifName);
          h.Leave(0);
        }
        if found {
          var _, _ := manager.ReleaseVF(p.c, a.ifName, ctx.netNS.netns);
        }
      case FreeLease =>
        var _ := ipam.ExecDel(a);
    }

    // Runs the registered handlers in reverse order when the command has failed.
    method HandleError(ctx: CmdContext, failed: bool, p: PluginConfRef, a: Attachment)
      requires Wired() && Ready() && (ctx.netNS.Opened? ==> ctx.netNS.netns > 0)
      modifies h, ipam
      ensures Ready() && h.failures >= old(h.failures)
      ensures failed ==> TriedAll(ctx.errorHandlers, old(World()), World(), p.c, a, ctx.netNS)
      ensures !failed ==> World() == old(World()) && h.failures == old(h.failures)
      ensures failed && h.failures == old(h.failures)
              && (Release in ctx.errorHandlers && ctx.netNS.Opened? ==> MacRestorable(p.c)) ==>
                World() == UndoneAll(ctx.errorHandlers, old(World()), p.c, a, ctx.netNS)
    {
      if failed {
        ghost var hs := ctx.errorHandlers;
        var i := |ctx.errorHandlers| - 1;
        assert hs[i + 1..] == [];
        while i >= 0
          invariant -1 <= i < |hs| && ctx.errorHandlers == hs
          invariant Ready() && h.failures >= old(h.failures)
          invariant h.failures == old(h.failures) && (Release in hs && ctx.netNS.Opened? ==> MacRestorable(p.c)) ==>
                      World() == UndoneAll(hs[i + 1..], old(World()), p.c, a, ctx.netNS)
          invariant TriedAll(hs[i + 1..], old(World()), World(), p.c, a, ctx.netNS)
          invariant unchanged(cache, p, ctx)
        {
          assert hs[i] in hs;
          RunHandler(ctx.errorHandlers[i], ctx, p, a);
          assert hs[i..][0] == hs[i] && hs[i..][1..] == hs[i + 1..];
          i := i - 1;
        }
        assert hs[0..] == hs;
      }
    }

    // The VF part of CmdDel; `moved` when the VF has its host name again, `downed`
    // when it has only been taken down.
    method ReleaseAndReset(c: PluginConf, a: Attachment, netns: nat)
      returns (ok: bool, ghost moved: bool, ghost downed: bool)
      requires Wired() && Ready() && netns > 0
      modifies h
      ensures Ready() && h.failures >= old(h.failures) && h.listFailures == old(h.listFailures)
      ensures ok ==> h.k == VfPart(old(h.k), c, a, netns)
      ensures !ok && DelAccepts(c) ==> h.failures > old(h.failures)
      ensures !ok && !moved ==> h.k == if downed then VfDown(old(h.k), a, netns) else old(h.k)
      ensures downed || moved ==> !c.isUserspaceDriver && Find(old(h.k).links, a.ifName, netns) in old(h.k).links
      ensures !c.isUserspaceDriver && ok ==> moved
      ensures !ok && moved ==>
                var vf := Find(old(h.k).links, a.ifName, netns);
                OnlyLink(old(h.k), h.k, vf) && h.k.links[vf].name == c.origVfState.hostIFName
      ensures moved && c.origVfState.hostIFName != a.ifName ==> Find(h.k.links, a.ifName, netns) == 0
    {
      moved, downed := false, false;
      if !c.isUserspaceDriver {
        ghost var i := Find(h.k.links, a.ifName, netns);
        assert i in h.k.links ==> LinkOk(h.k.links, i);
        ok, moved := manager.ReleaseVF(c, a.ifName, netns);
        if !ok {
          downed := !moved && h.k != old(h.k);
          if moved && c.origVfState.hostIFName != a.ifName {
            VfIsGone(old(h.k), h.k, a, netns);
          }
          return;
        }
        moved := true;
        VfIsGone(old(h.k), h.k, a, netns);
      }
      ghost var k1 := h.k;
      ok := manager.ResetVFConfig(c);
      assert Find(k1.links, c.pfName, 0) in k1.links ==> LinkOk(k1.links, Find(k1.links, c.pfName, 0));
      FindSame(k1, h.k.links, a.ifName, netns);
    }

    // CmdDel after the detach: lease, namespace, VF.  `missing` when the path of the
    // namespace does not exist.
    method ReleaseResources(c: PluginConf, a: Attachment, path: Option<nat>)
      returns (ret: bool, err: bool, ghost freed: bool, ghost downed: bool, ghost moved: bool, ghost missing: bool)
      requires Wired() && Ready()
      modifies h, ipam
      ensures Ready() && h.failures >= old(h.failures) && h.listFailures == old(h.listFailures)
      ensures ipam.leases == if freed then old(ipam.leases) - {a} else old(ipam.leases)
      ensures freed ==> c.netConf.ipamType != ""
      // the lease goes before anything else is done
      ensures c.netConf.ipamType != "" && !freed ==> err && !missing && !moved && !downed
      ensures !ret ==> err
      ensures missing ==> err
      ensures err ==> (ret <==> missing)
      ensures err && DelAccepts(c) ==> h.failures > old(h.failures)
      ensures !err ==> NsOf(path) > 0 && h.k == VfPart(old(h.k), c, a, NsOf(path))
      ensures err && !moved ==> h.k == if downed then VfDown(old(h.k), a, NsOf(path)) else old(h.k)
      ensures downed || moved ==> !c.isUserspaceDriver && Find(old(h.k).links, a.ifName, NsOf(path)) in old(h.k).links
      ensures !err && !c.isUserspaceDriver ==> moved
      ensures err && moved ==>
                var vf := Find(old(h.k).links, a.ifName, NsOf(path));
                OnlyLink(old(h.k), h.k, vf) && h.k.links[vf].name == c.origVfState.hostIFName
      ensures moved && c.origVfState.hostIFName != a.ifName ==> Find(h.k.links, a.ifName, NsOf(path)) == 0
    {
      freed, downed, moved, missing := false, false, false, false;
      var ok: bool;
      if c.netConf.ipamType != "" {
        ok := ipam.ExecDel(a);
        err := !ok;
        if err {
          return false, err, freed, downed, moved, missing;
        }
        freed := true;
      }
      var netns: nat, notExist: bool;
      ok, netns, notExist := h.GetNS(path);
      err := !ok;
      if err {
        return notExist, err, freed, downed, moved, notExist;
      }
      ok, moved, downed := ReleaseAndReset(c, a, netns);
      err := !ok;
      ret := ok;
    }

    // The steps of CmdDel on a loaded configuration.  `ret` is what CmdDel
    // returns, `err` what the deferred functions see; `mid` is the failure counter
    // after the detach, whose own failures do not count.
    method RunDel(c: PluginConf, a: Attachment, path: Option<nat>)
      returns (ret: bool, err: bool, ghost stage: nat, ghost gone: set<int>, ghost freed: bool, ghost downed: bool,
        ghost moved: bool, ghost mid: nat, ghost missing: bool)
      requires Wired() && Ready()
      modifies h, ipam
      ensures Ready() && h.failures >= mid >= old(h.failures) && h.listFailures >= old(h.listFailures)
      ensures ipam.leases - {a} == old(ipam.leases) - {a}
      ensures (moved || missing) && c.netConf.ipamType != "" ==> a !in ipam.leases
      ensures !ret ==> err
      ensures missing ==> err
      ensures err ==> (ret <==> missing)
      ensures err && DelAccepts(c) ==> h.failures > mid
      ensures stage < 3 ==> mid > old(h.failures)
      ensures !err ==> WentThrough(old(World()), World(), c, a, NsOf(path), stage, gone)
      ensures h.failures == old(h.failures) && DelAccepts(c) ==>
                ret && !err && NsOf(path) > 0
                && World() == DelFinal(old(World()), c, a, NsOf(path)).(files := cache.files)
      ensures err && !moved ==> World() == DelPartly(old(World()), c, a, NsOf(path), stage, gone, freed, downed)
      ensures downed || moved ==> !c.isUserspaceDriver && Find(old(h.k).links, a.ifName, NsOf(path)) in old(h.k).links
      ensures !err && !c.isUserspaceDriver ==> moved
      ensures gone <= ConfVids(c) && (h.listFailures == old(h.listFailures) ==> OnlyUnused(old(h.k), c, gone))
      ensures err && moved ==> LeftVf(old(World()), World(), c, a, NsOf(path), stage, gone)
      ensures !c.isUserspaceDriver && Find(old(h.k).links, a.ifName, NsOf(path)) == 0 ==> err && !moved
      ensures moved && c.origVfState.hostIFName != a.ifName ==> Find(h.k.links, a.ifName, NsOf(path)) == 0
    {
      var detached: bool;
      detached, stage, gone := manager.DetachRepresentor(c);
      mid := h.failures;
      PartlySameButUp(old(h.k), c, stage, gone);
      FindSame(old(h.k), h.k.links, a.ifName, NsOf(path));
      ZeroIsNoLink(h.k);
      ret, err, freed, downed, moved, missing := ReleaseResources(c, a, path);
    }

    // The steps, and when they got through the deferred removal of the cache entry.
    method DelLoaded(c: PluginConf, a: Attachment, path: Option<nat>)
      returns (ret: bool, ghost done: bool, ghost moved: bool, ghost missing: bool, ghost mid: nat)
      requires Wired() && Ready()
      modifies h, ipam, cache
      ensures Ready() && h.failures >= old(h.failures) && h.listFailures >= old(h.listFailures)
      ensures h.failures == old(h.failures) && DelAccepts(c) && StateRef(a) in old(cache.files) ==>
                ret && done && World() == DelFinal(old(World()), c, a, NsOf(path))
      ensures Attempted(old(World()), World(), c, a, NsOf(path), done, moved, h.listFailures == old(h.listFailures))
      // failures of the detach do not count
      ensures h.failures >= mid
      ensures h.failures == mid && DelAccepts(c) ==> ret && done
      ensures h.failures == mid && done ==> StateRef(a) !in cache.files
      ensures OwnEntriesOnly(old(World()), World(), a)
      ensures (moved || missing) && c.netConf.ipamType != "" ==> a !in ipam.leases
      ensures !ret ==> !done
      ensures missing ==> !done
      ensures !done ==> (ret <==> missing)
    {
      var err: bool;
      ghost var stage: nat, gone, freed, downed;
      ret, err, stage, gone, freed, downed, moved, mid, missing := RunDel(c, a, path);
      done := !err;
      if !err {
        var _ := cache.Delete(cache.GetStateRef(a.network, a.cid, a.ifName));
        assert WentThrough(old(World()), World(), c, a, NsOf(path), stage, gone);
      } else if !moved {
        assert StoppedAt(old(World()), World(), c, a, NsOf(path), stage, gone, freed, downed);
        assert h.listFailures == old(h.listFailures) ==>
                 AttemptedTo(old(World()), World(), c, a, NsOf(path), stage, gone, freed, downed);
      }
    }

    // `mid` is the failure counter after the detach, None when there was no detach.
    method CmdDel(args: Args)
      returns (ret: bool, ghost done: bool, ghost c: PluginConf, ghost moved: bool, ghost missing: bool,
        ghost mid: Option<nat>)
      requires Wired() && Ready()
      modifies h, ipam, cache
      ensures Ready() && h.failures >= old(h.failures)
      // without a namespace, a configuration or a cache entry there is nothing to do
      ensures args.netns.None? ==> ret && World() == old(World())
      ensures args.netns.Some? && args.stdin.None? ==> !ret && World() == old(World())
      ensures args.stdin.Some? && RefOf(args) !in old(cache.files) ==> ret && World() == old(World())
      // a DEL in which everything succeeds
      ensures args.stdin.Some? && args.netns.Some? && RefOf(args) in old(cache.files) ==>
                var saved := Unmarshal(old(cache.files)[RefOf(args)], ZERO_CONF);
                h.failures == old(h.failures) && DelAccepts(saved) ==>
                  ret && done && World() == DelFinal(old(World()), saved, AttachmentOf(args), NsOf(args.netns))
      // one in which the detach may have failed: it gets through, and the entry goes
      ensures mid == Some(h.failures) && DelAccepts(c) ==> ret && done
      ensures mid == Some(h.failures) && done ==> RefOf(args) !in cache.files
      ensures mid.Some? ==>
                && args.netns.Some? && args.stdin.Some? && RefOf(args) in old(cache.files)
                && c == Unmarshal(old(cache.files)[RefOf(args)], ZERO_CONF)
      ensures mid.None? ==> !done && World() == old(World())
      ensures mid.None? && args.netns.Some? && args.stdin.Some? ==> ret && h.failures > old(h.failures)
      // how far any other DEL has come
      ensures done || moved || World() != old(World()) ==>
                && RefOf(args) in old(cache.files) && c == Unmarshal(old(cache.files)[RefOf(args)], ZERO_CONF)
                && Attempted(old(World()), World(), c, AttachmentOf(args), NsOf(args.netns), done, moved,
                             h.listFailures == old(h.listFailures))
      ensures !ret ==> !done
      // a path that does not exist any more: nil, and the entry stays
      ensures missing ==> ret && !done
      // and, like a VF that has been moved, it comes after the lease
      ensures (moved || missing) && c.netConf.ipamType != "" ==> AttachmentOf(args) !in ipam.leases
      ensures !done && World() != old(World()) ==> (ret <==> missing)
      ensures h.listFailures >= old(h.listFailures)
      // another attachment keeps its lease and its cache file
      ensures OthersKept(old(World()), World(), args)
    {
      done, c, moved, missing, mid := false, ZERO_CONF, false, false, None;
      if args.netns.None? {
        return true, done, c, moved, missing, mid;
      }
      if args.stdin.None? {
        return false, done, c, moved, missing, mid;
      }
      var a := AttachmentOf(args);
      var pRef := cache.GetStateRef(a.network, a.cid, a.ifName);
      var p := new PluginConfRef();
      var loaded := cache.Load(pRef, p);
      if !loaded {
        return true, done, c, moved, missing, mid;
      }
      c := p.c;
      ghost var detached: nat;
      ret, done, moved, missing, detached := DelLoaded(p.c, a, args.netns);
      mid := Some(detached);
      OwnEntriesKeepOthers(old(World()), World(), args);
    }

    // The MAC address of CNI_ARGS overrides that of the configuration, and the
    // one of runtimeConfig overrides both.
    method GetMACAddressConfig(env: Option<MacText>, p: PluginConfRef) returns (ok: bool)
      modifies p
      ensures ok <==> env.Some?
      ensures ok ==> p.c == old(p.c).(mac := RequestedMac(env.value, old(p.c).netConf.runtimeMac, old(p.c).mac))
      ensures ok && old(p.c).netConf.runtimeMac != Unset ==> p.c.mac == old(p.c).netConf.runtimeMac
      ensures ok && old(p.c).netConf.runtimeMac == Unset && env.value != Unset ==> p.c.mac == env.value
      ensures ok && old(p.c).netConf.runtimeMac == Unset && env.value == Unset ==> p.c.mac == old(p.c).mac
      ensures !ok ==> p.c == old(p.c)
    {
      if env.None? {
        return false;
      }
      if !env.value.Unset? {
        p.c := p.c.(mac := env.value);
      }
      if !p.c.netConf.runtimeMac.Unset? {
        p.c := p.c.(mac := p.c.netConf.runtimeMac);
      }
      return true;
    }

    // The steps of CmdAdd on the VF, once the representor is attached.
    method AddVF(ctx: CmdContext, p: PluginConfRef, a: Attachment, netns: nat)
      returns (ok: bool, mac: MacText, ghost stage: Stage, ghost st: Steps)
      requires Wired() && Ready() && netns > 0 && ctx.netNS == Opened(netns)
      requires ctx.errorHandlers == [LogFailure, Detach]
      modifies h, ctx`errorHandlers, p
      ensures Ready() && h.failures >= old(h.failures)
      ensures st.k1 == old(h.k) && st.c1 == old(p.c)
      ensures p.c.pfName == old(p.c).pfName && p.c.vfID == old(p.c).vfID && p.c.representor == old(p.c).representor
      ensures ok ==> VfAdded(old(h.k), h.k, old(p.c), st, a.ifName, netns) && p.c == st.c3
      ensures ok ==> ctx.errorHandlers == Registered(p.c, false)
      ensures !ok ==> VfNotAdded(stage, old(h.k), h.k, old(p.c), p.c, st, a, netns, ctx.errorHandlers)
      ensures !ok && h.failures == old(h.failures) ==> stage.Applying? && ApplyRefused(old(h.k), old(p.c))
    {
      mac, stage := Unset, Applying;
      st := NoSteps(h.k, p.c);
      ok := manager.ApplyVFConfig(p);
      if !ok {
        return;
      }
      stage, st := SettingUp, st.(k2 := h.k, c2 := p.c, c3 := p.c);
      if !p.c.isUserspaceDriver {
        ghost var call: SetupCall;
        ok, mac, call := manager.SetupVF(p, a.ifName, ctx.netNS.netns);
        ctx.RegisterErrorHandler(Release);
        st := st.(call := call, c3 := p.c);
      }
    }

    // The part of CmdAdd that works on links: attach, VF configuration, VF setup.
    method AddDevices(ctx: CmdContext, p: PluginConfRef, a: Attachment, netns: nat)
      returns (ok: bool, mac: MacText, ghost stage: Stage, ghost st: Steps)
      requires Wired() && Ready() && netns > 0 && ctx.netNS == Opened(netns)
      requires ctx.errorHandlers == [LogFailure]
      modifies h, ctx`errorHandlers, p
      ensures Ready() && h.failures >= old(h.failures)
      ensures ok ==> DevicesAdded(old(h.k), h.k, old(p.c), st, a.ifName, netns) && p.c == st.c3
      ensures ok ==> ctx.errorHandlers == Registered(p.c, false)
      ensures !ok ==> DevicesNotAdded(stage, old(h.k), h.k, old(p.c), p.c, st, a, netns, ctx.errorHandlers)
      ensures !ok && h.failures == old(h.failures) ==> stage.Applying? && ApplyRefused(old(h.k), old(p.c))
      ensures ok || !stage.Attaching? ==> RepresentorKnown(h.reps, p.c)
    {
      mac, stage := Unset, Attaching;
      st := NoSteps(h.k, p.c);
      ghost var unplugged: bool, added: set<int>;
      ok, unplugged, added := manager.AttachRepresentor(p);
      if !ok {
        st := st.(unplugged := unplugged, added := added);
        return;
      }
      ctx.RegisterErrorHandler(Detach);
      RefusedBeforeAttach(old(h.k), h.k, old(p.c), p.c);
      ok, mac, stage, st := AddVF(ctx, p, a, netns);
    }

    method ConfigureIPAM(ctx: CmdContext, c: PluginConf, a: Attachment) returns (ok: bool, ghost leased: bool)
      requires Wired() && Ready() && ctx.netNS.Opened?
      modifies h, ipam, ctx`errorHandlers
      ensures Ready() && h.failures >= old(h.failures) && h.k == old(h.k)
      ensures ipam.leases == if leased then old(ipam.leases) + {a} else old(ipam.leases)
      ensures ctx.errorHandlers == old(ctx.errorHandlers) + if leased then [FreeLease] else []
      ensures ok ==> leased
    {
      leased := false;
      var r: IpamResult;
      ok, r := ipam.ExecAdd(a);
      if !ok {
        return;
      }
      ctx.RegisterErrorHandler(FreeLease);
      leased := true;
      if !r.convertible || r.ips == 0 {
        return false, leased;
      }
      if !c.isUserspaceDriver {
        ok := h.EnterThrough(ctx.netNS);
        if ok {
          ok := ipam.ConfigureIface();
          h.Leave(0);
        }
      }
    }

    // Merging the representor into the device info file.
    method UpdateDeviceInfo(c: PluginConf) returns (ok: bool)
      ensures c.netConf.deviceInfoFile == "" ==> ok
    {
      ok := *;
      if c.netConf.deviceInfoFile == "" {
        ok := true;
      }
    }

    // The configuration, the namespace and the MAC address of a CmdAdd.
    method Prepare(ctx: CmdContext, p: PluginConfRef, args: Args, dev: Device) returns (ok: bool, netns: nat)
      requires Wired() && Ready() && p.c == ZERO_CONF
      modifies h`failures, ctx`netNS, p
      ensures h.failures >= old(h.failures)
      ensures ok ==> Usable(h.k, args, dev, p.c, netns) && Fresh(p.c) && ctx.netNS == Opened(netns)
      ensures !ok && h.failures == old(h.failures) ==> Unusable(h.k, args, dev)
    {
      netns := 0;
      ok := ParseConf(h, args.stdin, dev, p);
      if !ok {
        return;
      }
      ghost var parsed := p.c;
      var notExist: bool;
      ok, netns, notExist := h.GetNS(args.netns);
      if !ok {
        return;
      }
      ctx.netNS := Opened(netns);
      ok := GetMACAddressConfig(args.env, p);
      assert ok ==> p.c.(mac := args.stdin.value.mac) == parsed;
    }

    // The part of CmdAdd after VF setup: IPAM, cache, device info.
    method StoreResult(ctx: CmdContext, c: PluginConf, a: Attachment)
      returns (ret: bool, err: bool, ghost stage: Stage, ghost leased: bool)
      requires Wired() && Ready() && ctx.netNS.Opened?
      modifies h, ipam, cache, ctx`errorHandlers
      ensures Ready() && h.failures >= old(h.failures) && h.k == old(h.k)
      ensures ctx.errorHandlers == old(ctx.errorHandlers) + if leased then [FreeLease] else []
      ensures ipam.leases == if leased then old(ipam.leases) + {a} else old(ipam.leases)
      ensures stage.Configuring? || stage.Storing? || stage.Informing? || stage.Complete?
      ensures ret <==> stage.Informing? || stage.Complete?
      ensures err <==> !stage.Complete?
      ensures ret ==> leased == (c.netConf.ipamType != "")
      ensures h.failures == old(h.failures) ==>
                && !stage.Storing?
                && (stage.Configuring? ==> c.netConf.ipamType != "")
                && (stage.Informing? ==> c.netConf.deviceInfoFile != "")
      ensures cache.files == if ret then old(cache.files)[StateRef(a) := Marshal(c)] else old(cache.files)
    {
      stage, leased, ret, err := Configuring, false, false, true;
      var ok: bool;
      if c.netConf.ipamType != "" {
        ok, leased := ConfigureIPAM(ctx, c, a);
        if !ok {
          return;
        }
      }
      stage := Storing;
      ok := cache.Save(cache.GetStateRef(a.network, a.cid, a.ifName), c);
      if !ok {
        return;
      }
      ok := UpdateDeviceInfo(c);
      stage, err, ret := if ok then Complete else Informing, !ok, true;
    }

    // The steps of CmdAdd once it knows configuration and namespace.
    method RunSteps(ctx: CmdContext, p: PluginConfRef, a: Attachment, netns: nat)
      returns (ret: bool, err: bool, ghost stage: Stage, ghost st: Steps, ghost leased: bool)
      requires Wired() && Ready() && a.ifName != "" && netns > 0 && Fresh(p.c)
      requires ctx.netNS == Opened(netns) && ctx.errorHandlers == [LogFailure]
      modifies h, ipam, cache, ctx`errorHandlers, p
      ensures Ready() && h.failures >= old(h.failures)
      ensures ret <==> stage.Informing? || stage.Complete?
      ensures err <==> !stage.Complete?
      ensures !stage.Preparing?
      ensures AddOutcome(stage, old(World()), World(), old(p.c), p.c, st, leased, a, netns, ctx.errorHandlers)
      ensures h.failures == old(h.failures) && !stage.Complete? ==> Refused(stage, old(h.k), old(p.c))
      ensures !stage.Attaching? ==> RepresentorKnown(h.reps, p.c)
    {
      leased, ret, err := false, false, true;
      ghost var w, c0 := World(), p.c;
      var ok: bool, macAddr: MacText;
      ok, macAddr, stage, st := AddDevices(ctx, p, a, netns);
      if !ok {
        LinkStepFailed(stage, w, World(), c0, p.c, st, leased, a, netns, ctx.errorHandlers);
        return;
      }
      ret, err, stage, leased := StoreResult(ctx, p.c, a);
      LinkStepsDone(stage, w, World(), c0, p.c, st, leased, a, netns, ctx.errorHandlers);
    }

    // CmdAdd up to its return; `err` is what the deferred undo will see.
    method RunAdd(ctx: CmdContext, p: PluginConfRef, args: Args, dev: Device)
      returns (ret: bool, err: bool, ghost stage: Stage, ghost c0: PluginConf, ghost st: Steps, ghost leased: bool)
      requires Wired() && Ready() && args.ifName != "" && p.c == ZERO_CONF && ctx.errorHandlers == []
      modifies h, ipam, cache, ctx, p
      ensures Ready() && h.failures >= old(h.failures)
      ensures ret <==> stage.Informing? || stage.Complete?
      ensures err <==> !stage.Complete?
      ensures AddOutcome(stage, old(World()), World(), c0, p.c, st, leased, AttachmentOf(args), NsOf(args.netns),
                ctx.errorHandlers)
      ensures !stage.Preparing? ==> Usable(old(h.k), args, dev, c0, NsOf(args.netns))
      ensures !stage.Preparing? ==> ctx.netNS == Opened(NsOf(args.netns))
      ensures h.failures == old(h.failures) && !stage.Complete? ==>
                if stage.Preparing? then Unusable(old(h.k), args, dev) else Refused(stage, old(h.k), c0)
      ensures !stage.Preparing? && !stage.Attaching? ==> RepresentorKnown(h.reps, p.c)
    {
      stage, leased, ret, err := Preparing, false, false, true;
      st := NoSteps(h.k, p.c);
      c0 := p.c;
      ctx.RegisterErrorHandler(LogFailure);
      assert ctx.errorHandlers == [LogFailure];
      var ok, netns := Prepare(ctx, p, args, dev);
      if ok {
        c0 := p.c;
        ret, err, stage, st, leased := RunSteps(ctx, p, AttachmentOf(args), netns);
      }
    }

    // The deferred calls of CmdAdd, the last deferred first: the namespace handle is
    // closed, and when a step has failed the undo handlers run in reverse order of
    // their registration.
    method RunDeferred(ctx: CmdContext, failed: bool, p: PluginConfRef, a: Attachment)
      requires Wired() && Ready()
      requires ctx.netNS.Opened? || ctx.errorHandlers == [LogFailure]
      modifies h, ipam, ctx`netNS
      ensures Ready() && h.failures >= old(h.failures)
      ensures ipam.leases - {a} == old(ipam.leases) - {a}
      ensures !failed ==> World() == old(World()) && h.failures == old(h.failures)
      ensures failed && ctx.errorHandlers == [LogFailure] ==> World() == old(World())
      ensures failed && old(ctx.netNS).Opened? ==>
                TriedAll(ctx.errorHandlers, old(World()), World(), p.c, a, Closed(old(ctx.netNS).netns))
      ensures failed && old(ctx.netNS).Opened? && h.failures == old(h.failures) ==>
                World() == UndoneAll(ctx.errorHandlers, old(World()), p.c, a, Closed(old(ctx.netNS).netns))
    {
      ctx.CloseNetNS();
      HandleError(ctx, failed, p, a);
      if failed {
        TriedKeepsOthers(ctx.errorHandlers, old(World()), World(), p.c, a, ctx.netNS);
        OnlyTheMessage(old(World()), p.c, a, ctx.netNS);
      }
    }

    // CmdAdd: the steps, and then its deferred calls.
    method CmdAdd(args: Args, dev: Device) returns (ret: bool, ghost run: AddRun)
      requires Wired() && Ready() && args.ifName != ""
      modifies h, ipam, cache
      ensures Ready() && h.failures >= old(h.failures)
      ensures ret <==> run.stage.Informing? || run.stage.Complete?
      ensures Reported(run, old(World()), h.reps, args, dev, old(h.failures))
      ensures run.failures <= h.failures && (run.undone <==> h.failures == run.failures)
      ensures cache.files == run.w.files
      ensures run.stage.Complete? ==> World() == run.w && run.undone
      ensures !run.stage.Complete? && run.undone ==>
                World() == UndoneAll(run.handlers, run.w, run.c, AttachmentOf(args), Closed(NsOf(args.netns)))
      ensures !run.stage.Complete? ==>
                TriedAll(run.handlers, run.w, World(), run.c, AttachmentOf(args), Closed(NsOf(args.netns)))
      // an ADD that got through has done what it was asked for
      ensures run.stage.Complete? ==>
                forall r, pf, vf :: Placed(old(h.k), h.reps, dev, r, pf, vf) ==>
                  AddedAsAsked(old(World()), World(), args, dev, r, pf, vf)
      // and with nothing in its way it does get through
      ensures run.failures == old(h.failures) && NothingInTheWay(old(h.k), args, dev) ==>
                run.stage.Complete? || (run.stage.Configuring? && args.stdin.value.ipamType != "")
      // another attachment keeps its lease and its cache file
      ensures OthersKept(old(World()), World(), args)
    {
      var ctx := new CmdContext();
      var p := new PluginConfRef();
      var err: bool;
      ghost var stage, c0, st, leased;
      ret, err, stage, c0, st, leased := RunAdd(ctx, p, args, dev);
      ghost var w, hs, failures := World(), ctx.errorHandlers, h.failures;
      RunDeferred(ctx, err, p, AttachmentOf(args));
      run := AddRun(stage, w, c0, p.c, st, leased, hs, failures, h.failures == failures);
      if stage.Preparing? {
        OnlyTheMessage(w, run.c, AttachmentOf(args), Closed(NsOf(args.netns)));
      }
      CompleteAdd(run, old(World()), h.reps, args, dev, old(h.failures));
      OwnEntriesKeepOthers(old(World()), World(), args);
    }
  }
}
