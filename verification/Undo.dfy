/**
 The undo stack of CmdAdd: its handlers, and what running them in reverse order
 comes to.

 The handlers run when CmdAdd returns, and so does the deferred Close of the
 namespace handle.  Deferred calls run last in, first out, so Close comes first:
 the handler that is to release the VF finds its handle closed.
 */
module Undo {
  import opened Kernel
  import opened Types
  import opened Effects
  import opened Cache
  import opened Lifecycle
  import opened Netlink

  // The undo functions that CmdAdd registers.
  datatype Handler = LogFailure | Detach | Release | FreeLease

  // What one of them does when all its calls succeed, with the namespace handle
  // as it is then.
  ghost function Undone(h: Handler, w: World, c: PluginConf, a: Attachment, ns: NetNS): World {
    match h
    case LogFailure => w
    case Detach => w.(k := Detached(w.k, c))
    case Release =>
      w.(k := if !ns.Opened? || ReleaseRefused(c) then w.k else Released(w.k, Find(w.k.links, a.ifName, ns.netns), c))
    case FreeLease => w.(leases := w.leases - {a})
  }

  // All of them, the last registered first.
  ghost function UndoneAll(hs: seq<Handler>, w: World, c: PluginConf, a: Attachment, ns: NetNS): World {
    if hs == [] then w else Undone(hs[0], UndoneAll(hs[1..], w, c, a, ns), c, a, ns)
  }

  // What one of them can have done, whichever of its calls failed.
  ghost predicate Tried(h: Handler, w: World, w2: World, c: PluginConf, a: Attachment, ns: NetNS) {
    && w2.files == w.files
    && match h
       case LogFailure => w2 == w
       case Detach => w2.leases == w.leases && DetachTried(w.k, w2.k, c)
       case Release =>
         && w2.leases == w.leases
         && (w2.k == w.k || (ns.Opened? && OnlyLink(w.k, w2.k, Find(w.k.links, a.ifName, ns.netns))))
       case FreeLease => w2.k == w.k && (w2.leases == w.leases || w2.leases == w.leases - {a})
  }

  ghost predicate DetachTried(k: State, k2: State, c: PluginConf) {
    exists stage: nat, gone :: gone <= ConfVids(c) && k2 == DetachedPartly(k, c, stage, gone)
  }

  // And all of them, the last registered first.
  ghost predicate TriedAll(hs: seq<Handler>, w: World, w2: World, c: PluginConf, a: Attachment, ns: NetNS) {
    if hs == [] then w2 == w
    else exists w1 :: TriedAll(hs[1..], w, w1, c, a, ns) && Tried(hs[0], w1, w2, c, a, ns)
  }

  // An undo, complete or not, touches no file, and no lease but its own.
  lemma {:induction false} TriedKeepsOthers(hs: seq<Handler>, w: World, w2: World, c: PluginConf, a: Attachment,
                                            ns: NetNS)
    requires TriedAll(hs, w, w2, c, a, ns)
    ensures w2.files == w.files && w2.leases - {a} == w.leases - {a}
  {
    if hs == [] {
    } else {
      var w1 :| TriedAll(hs[1..], w, w1, c, a, ns) && Tried(hs[0], w1, w2, c, a, ns);
      TriedKeepsOthers(hs[1..], w, w1, c, a, ns);
    }
  }

  // With nothing registered but the log message the handle does not matter.
  lemma OnlyTheMessage(w: World, c: PluginConf, a: Attachment, ns: NetNS)
    ensures UndoneAll([LogFailure], w, c, a, ns) == w
    ensures TriedAll([LogFailure], w, w, c, a, ns)
    ensures forall w2 :: TriedAll([LogFailure], w, w2, c, a, ns) ==> w2 == w
  {
    assert [LogFailure][1..] == [];
    assert TriedAll([LogFailure][1..], w, w, c, a, ns) && Tried(LogFailure, w, w, c, a, ns);
  }

  // The handlers registered once VF setup has gone through.
  function Registered(c: PluginConf, leased: bool): seq<Handler> {
    [LogFailure, Detach] + (if c.isUserspaceDriver then [] else [Release]) + (if leased then [FreeLease] else [])
  }

  lemma {:induction false} UndoneInTurn(hs: seq<Handler>, later: seq<Handler>, w: World, c: PluginConf, a: Attachment,
                                        ns: NetNS)
    ensures UndoneAll(hs + later, w, c, a, ns) == UndoneAll(hs, UndoneAll(later, w, c, a, ns), c, a, ns)
  {
    if hs == [] {
      assert hs + later == later;
    } else {
      UndoneInTurn(hs[1..], later, w, c, a, ns);
      assert (hs + later)[1..] == hs[1..] + later;
    }
  }

  lemma UndoneOne(h: Handler, w: World, c: PluginConf, a: Attachment, ns: NetNS)
    ensures UndoneAll([h], w, c, a, ns) == Undone(h, w, c, a, ns)
  {
    assert [h][1..] == [];
  }

  // Releasing the lease comes first, then the VF, then the representor.
  lemma UndoneRegistered(w: World, c: PluginConf, a: Attachment, ns: NetNS, leased: bool)
    ensures var w1 := if leased then Undone(FreeLease, w, c, a, ns) else w;
            var w2 := if c.isUserspaceDriver then w1 else Undone(Release, w1, c, a, ns);
            UndoneAll(Registered(c, leased), w, c, a, ns) == Undone(Detach, w2, c, a, ns)
  {
    var vf := if c.isUserspaceDriver then [] else [Release];
    var lease := if leased then [FreeLease] else [];
    assert Registered(c, leased) == [LogFailure] + ([Detach] + (vf + lease));
    UndoneInTurn([LogFailure], [Detach] + (vf + lease), w, c, a, ns);
    UndoneInTurn([Detach], vf + lease, w, c, a, ns);
    UndoneInTurn(vf, lease, w, c, a, ns);
    UndoneOne(FreeLease, w, c, a, ns);
    var w1 := UndoneAll(lease, w, c, a, ns);
    UndoneOne(Release, w1, c, a, ns);
    var w2 := UndoneAll(vf, w1, c, a, ns);
    UndoneOne(Detach, w2, c, a, ns);
    UndoneOne(LogFailure, Undone(Detach, w2, c, a, ns), c, a, ns);
  }

  // With the handle closed, VF and PF are left alone, whatever the driver.
  lemma UndoneWhenClosed(w: World, c: PluginConf, a: Attachment, ns: NetNS, leased: bool)
    requires !ns.Opened?
    ensures UndoneAll(Registered(c, leased), w, c, a, ns)
            == World(Detached(w.k, c), if leased then w.leases - {a} else w.leases, w.files)
  {
    UndoneRegistered(w, c, a, ns, leased);
  }

  // So are they when ReleaseVF refuses.
  lemma ReleaseDoesNothing(w: World, c: PluginConf, a: Attachment, ns: NetNS)
    requires !ns.Opened? || ReleaseRefused(c)
    ensures UndoneAll([LogFailure, Detach, Release], w, c, a, ns) == w.(k := Detached(w.k, c))
  {
    assert [LogFailure, Detach, Release] == [LogFailure] + ([Detach] + [Release]);
    UndoneInTurn([LogFailure], [Detach] + [Release], w, c, a, ns);
    UndoneInTurn([Detach], [Release], w, c, a, ns);
    UndoneOne(Release, w, c, a, ns);
    UndoneOne(Detach, w, c, a, ns);
    UndoneOne(LogFailure, Undone(Detach, w, c, a, ns), c, a, ns);
  }

  // The MAC address ReleaseVF puts back is known, or it puts none back.
  predicate MacRestorable(c: PluginConf) {
    ReleaseRefused(c) || c.mac.Unset? || c.origVfState.effectiveMAC.Addr?
  }
}
