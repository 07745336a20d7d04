/** CNI calls in sequence, each in a process of its own. */
module Scenarios {
  import opened Kernel
  import opened Types
  import opened Effects
  import opened Cache
  import opened Config
  import opened Netlink
  import opened Arguments
  import opened Lifecycle
  import opened AttachDetach
  import opened RoundTrip
  import opened Undo
  import opened Rollback
  import opened FailedAdd
  import opened Attempts
  import opened Reports
  import P = Plugin

  // A DEL from w2, with what its cache file holds, is accepted and ends in `end`.
  ghost predicate EndsIn(w2: World, a: Attachment, netns: nat, end: World) {
    && StateRef(a) in w2.files
    && DelAccepts(Unmarshal(w2.files[StateRef(a)], ZERO_CONF))
    && DelFinal(w2, Unmarshal(w2.files[StateRef(a)], ZERO_CONF), a, netns) == end
  }

  lemma EndAfterComplete(run: AddRun, w: World, a: Attachment, netns: nat, r: int, pf: int, vf: int)
    requires Outcome(run, w, a, netns) && run.stage.Complete? && a.ifName != ""
    requires ThreeDevices(w.k, run.st.c1, r, pf, vf) && a !in w.leases && StateRef(a) !in w.files
    ensures EndsIn(run.w, a, netns,
                   World(State(BothDown(w.k, run.c0, r, vf), PortsAfterBoth(w.k, run.c0)), w.leases, w.files))
  {
    SavedConfIsAccepted(w.k, run.w.k, run.c0, run.st, a.ifName, netns);
    SavedFields(w, run.w, run.c0, run.st, a, netns);
    CacheRoundTrip(run.c);
    AddThenDelRestores(w, run.w, run.c0, run.st, a, netns, r, pf, vf);
  }

  lemma EndAfterUndone(run: AddRun, w: World, a: Attachment, netns: nat, r: int, pf: int, vf: int)
    requires Outcome(run, w, a, netns) && run.stage.Informing? && a.ifName != "" && netns > 0
    requires ThreeDevices(w.k, run.st.c1, r, pf, vf) && a !in w.leases && StateRef(a) !in w.files
    ensures EndsIn(UndoneAll(run.handlers, run.w, run.c, a, Closed(netns)), a, netns,
                   World(State(BothDown(w.k, run.c0, r, vf), PortsAfterBoth(w.k, run.c0)), w.leases, w.files))
  {
    LateOutcome(run, w, a, netns);
    SavedConfIsAccepted(w.k, run.w.k, run.c0, run.st, a.ifName, netns);
    CacheRoundTrip(run.c);
    FailedAddIsUndone(run, w, a, netns, r, pf, vf);
    DelAfterUndoneAdd(run, w, a, netns, r, pf, vf);
  }

  // The DEL after an ADD that returned nil, in terms of the configuration ADD was given.
  lemma DelAfterAdd(run: AddRun, w: World, w2: World, reps: map<(string, int), string>, args: Args, dev: Device,
                    before: nat, r: int, pf: int, vf: int)
    requires Reported(run, w, reps, args, dev, before) && Placed(w.k, reps, dev, r, pf, vf)
    requires args.ifName != "" && AttachmentOf(args) !in w.leases && RefOf(args) !in w.files
    requires run.stage.Complete? || run.stage.Informing?
    requires w2 == if run.stage.Complete? then run.w
                   else UndoneAll(run.handlers, run.w, run.c, AttachmentOf(args), Closed(NsOf(args.netns)))
    ensures EndsIn(w2, AttachmentOf(args), NsOf(args.netns),
                   World(State(BothDown(w.k, run.c0, r, vf), PortsAfterBoth(w.k, run.c0)), w.leases, w.files))
  {
    PlacedForRun(run, w, reps, args, dev, before, r, pf, vf);
    if run.stage.Complete? {
      EndAfterComplete(run, w, AttachmentOf(args), NsOf(args.netns), r, pf, vf);
    } else {
      EndAfterUndone(run, w, AttachmentOf(args), NsOf(args.netns), r, pf, vf);
    }
  }

  // An ADD that returns nil, and the DEL for it: when every call after the steps
  // of the ADD succeeds, DEL returns nil, and links, tables, leases and cache are
  // as they were before.
  method AddThenDel(plugin: P.Plugin, args: Args, dev: Device, ghost r: int, ghost pf: int, ghost vf: int)
    returns (added: bool, deleted: bool, ghost run: AddRun)
    requires plugin.Wired() && plugin.Ready() && args.ifName != ""
    requires AttachmentOf(args) !in plugin.ipam.leases && RefOf(args) !in plugin.cache.files
    modifies plugin.h, plugin.ipam, plugin.cache
    ensures plugin.Ready()
    ensures Reported(run, old(plugin.World()), plugin.h.reps, args, dev, old(plugin.h.failures))
    ensures run.failures <= plugin.h.failures && (added <==> run.stage.Complete? || run.stage.Informing?)
    ensures plugin.h.failures == run.failures && added && Placed(old(plugin.h.k), plugin.h.reps, dev, r, pf, vf) ==>
              deleted
              && plugin.World() == World(State(BothDown(old(plugin.h.k), run.c0, r, vf),
                                               PortsAfterBoth(old(plugin.h.k), run.c0)),
                                         old(plugin.ipam.leases), old(plugin.cache.files))
  {
    ghost var w := plugin.World();
    ghost var before := plugin.h.failures;
    added, run := plugin.CmdAdd(args, dev);
    if added && run.undone && Placed(w.k, plugin.h.reps, dev, r, pf, vf) {
      DelAfterAdd(run, w, plugin.World(), plugin.h.reps, args, dev, before, r, pf, vf);
    }
    ghost var done, c, moved, missing, detached;
    deleted, done, c, moved, missing, detached := plugin.CmdDel(args);
  }

  // An ADD that fails, its undo succeeding, and the DEL for it.  There is no cache
  // file, so DEL returns nil and does nothing, and a VF with a kernel driver that
  // IPAM or cache.Save failed for stays in its pod.  So it does when no call fails
  // but the loading of that file, because the IPAM result has no address.
  method FailedAddThenDel(plugin: P.Plugin, args: Args, dev: Device, ghost r: int, ghost pf: int, ghost vf: int)
    returns (added: bool, deleted: bool, ghost run: AddRun, ghost mid: nat)
    requires plugin.Wired() && plugin.Ready() && args.ifName != ""
    requires AttachmentOf(args) !in plugin.ipam.leases && RefOf(args) !in plugin.cache.files
    modifies plugin.h, plugin.ipam, plugin.cache
    ensures plugin.Ready()
    ensures Reported(run, old(plugin.World()), plugin.h.reps, args, dev, old(plugin.h.failures))
    ensures added <==> run.stage.Complete? || run.stage.Informing?
    // `mid` is the failure counter between the two calls
    ensures run.failures <= mid <= plugin.h.failures && (run.undone <==> mid == run.failures)
    ensures !added && args.netns.Some? && args.stdin.Some? ==> mid < plugin.h.failures
    ensures run.undone && (run.stage.Configuring? || run.stage.Storing?)
            && Placed(old(plugin.h.k), plugin.h.reps, dev, r, pf, vf) ==>
              deleted
              && plugin.World() == World(State(LinksLeft(old(plugin.h.k), run.c0, r, pf, vf, AttachmentOf(args),
                                                         NsOf(args.netns)),
                                               PortsAfterBoth(old(plugin.h.k), run.c0)),
                                         old(plugin.ipam.leases), old(plugin.cache.files))
    ensures !added && plugin.h.failures <= old(plugin.h.failures) + 1
            && args.netns.Some? && !Unusable(old(plugin.h.k), args, dev) && !ApplyRefused(old(plugin.h.k), run.c0)
            ==> run.undone && run.stage.Configuring?
  {
    ghost var w := plugin.World();
    ghost var before := plugin.h.failures;
    added, run := plugin.CmdAdd(args, dev);
    mid := plugin.h.failures;
    if run.undone && (run.stage.Configuring? || run.stage.Storing?) && Placed(w.k, plugin.h.reps, dev, r, pf, vf) {
      PlacedForRun(run, w, plugin.h.reps, args, dev, before, r, pf, vf);
      FailedAddIsUndone(run, w, AttachmentOf(args), NsOf(args.netns), r, pf, vf);
    }
    ghost var done, c, moved, missing, detached;
    deleted, done, c, moved, missing, detached := plugin.CmdDel(args);
  }

  // DEL tried any number of times.  If a DEL can still get through afterwards,
  // its cache file there and a VF with a kernel driver in the pod, it will end
  // where it would have ended at the beginning, whatever the attempts have done.
  method DelAttempts(plugin: P.Plugin, args: Args, attempts: nat)
    requires plugin.Wired() && plugin.Ready()
    requires args.stdin.Some? && args.netns.Some? && args.netns.value > 0
    modifies plugin.h, plugin.ipam, plugin.cache
    ensures plugin.Ready() && plugin.h.failures >= old(plugin.h.failures)
    ensures plugin.h.listFailures >= old(plugin.h.listFailures)
    ensures RefOf(args) in plugin.cache.files ==> plugin.cache.files == old(plugin.cache.files)
    ensures RefOf(args) in old(plugin.cache.files) && plugin.h.listFailures == old(plugin.h.listFailures) ==>
              var saved := Unmarshal(old(plugin.cache.files)[RefOf(args)], ZERO_CONF);
              Renames(saved, AttachmentOf(args)) ==>
                SameEnd(old(plugin.World()), plugin.World(), saved, AttachmentOf(args), args.netns.value)
  {
    ghost var w, a, netns := plugin.World(), AttachmentOf(args), args.netns.value;
    ghost var saved := if StateRef(a) in w.files then Unmarshal(w.files[StateRef(a)], ZERO_CONF) else ZERO_CONF;
    var i := 0;
    while i < attempts
      invariant plugin.Ready() && plugin.h.failures >= old(plugin.h.failures)
      invariant plugin.h.listFailures >= old(plugin.h.listFailures)
      invariant StateRef(a) in plugin.cache.files ==> plugin.cache.files == w.files
      invariant plugin.h.listFailures == old(plugin.h.listFailures) && Renames(saved, a) ==>
                  SameEnd(w, plugin.World(), saved, a, netns)
    {
      ghost var now, lists := plugin.World(), plugin.h.listFailures;
      var deleted: bool;
      ghost var done, c, moved, missing, detached;
      deleted, done, c, moved, missing, detached := plugin.CmdDel(args);
      if (done || moved || plugin.World() != now) && plugin.h.listFailures == lists && Renames(saved, a) {
        AttemptKeepsEnd(now, plugin.World(), saved, a, netns, done, moved);
      }
      i := i + 1;
    }
  }

  // A call for some pod.
  datatype Call = AddCall(args: Args, dev: Device) | DelCall(args: Args)

  // Calls for other attachments, as many as one likes, failing or not: the cache
  // file and the lease of this one stay what they are.
  method OtherCalls(plugin: P.Plugin, x: Args, calls: seq<Call>)
    requires plugin.Wired() && plugin.Ready()
    requires forall call :: call in calls ==> Apart(call.args, x) && call.args.ifName != ""
    modifies plugin.h, plugin.ipam, plugin.cache
    ensures plugin.Ready()
    ensures EntryKept(old(plugin.World()), plugin.World(), x)
  {
    var n := 0;
    while n < |calls|
      invariant 0 <= n <= |calls| && plugin.Ready()
      invariant EntryKept(old(plugin.World()), plugin.World(), x)
    {
      assert calls[n] in calls;
      match calls[n] {
        case AddCall(args, dev) =>
          var added: bool;
          ghost var run;
          added, run := plugin.CmdAdd(args, dev);
        case DelCall(args) =>
          var deleted: bool;
          ghost var done, c, moved, missing, detached;
          deleted, done, c, moved, missing, detached := plugin.CmdDel(args);
      }
      n := n + 1;
    }
  }

  lemma CompletableBefore(w: World, w2: World, c: PluginConf, a: Attachment, netns: nat, moved: bool, listed: bool)
    requires Attempted(w, w2, c, a, netns, true, moved, listed) && StateRef(a) in w.files
    ensures Completable(w, c, a, netns)
  {
  }

  // And when every call of one more attempt succeeds, it does end there.
  method DelUntilDone(plugin: P.Plugin, args: Args, attempts: nat) returns (deleted: bool, ghost before: nat)
    requires plugin.Wired() && plugin.Ready()
    requires args.stdin.Some? && args.netns.Some? && args.netns.value > 0
    modifies plugin.h, plugin.ipam, plugin.cache
    ensures plugin.Ready()
    // `before` is the failure counter before the last attempt
    ensures old(plugin.h.failures) <= before <= plugin.h.failures
    ensures RefOf(args) in old(plugin.cache.files)
            && plugin.h.failures == before && plugin.h.listFailures == old(plugin.h.listFailures) ==>
              var saved := Unmarshal(old(plugin.cache.files)[RefOf(args)], ZERO_CONF);
              DelAccepts(saved) && Renames(saved, AttachmentOf(args)) ==>
                && deleted
                && plugin.World() == DelFinal(old(plugin.World()), saved, AttachmentOf(args), args.netns.value)
  {
    DelAttempts(plugin, args, attempts);
    before := plugin.h.failures;
    ghost var w := plugin.World();
    ghost var done, c, moved, missing, detached;
    deleted, done, c, moved, missing, detached := plugin.CmdDel(args);
    if done {
      CompletableBefore(w, plugin.World(), c, AttachmentOf(args), args.netns.value, moved,
                        plugin.h.listFailures == old(plugin.h.listFailures));
    }
  }
}
