/**
 No leak, and equality at rest.  In runs without failures and crashes, with one
 uplink and every representor using setUplinkVlan, a VLAN above 1 that was
 nowhere at the start is on the uplink only while a port of the bridge carries
 it or a detacher is still about to remove it; with no process running, the
 uplink carries it exactly when an attached representor is configured with it.
 */
module UplinkAtRest {
  import opened UplinkMachine
  import opened UplinkSafety

  // Every ADD starts from a representor that is on no bridge, every DEL uses
  // what the ADD saved, and no call fails.
  predicate Disciplined(s: State, e: Event, u: int) {
    match e
    case StartAttach(_, c) => c.uplink == u && c.setUplink && c.rep !in s.master
    case StartDetach(_, c) => c.rep in s.completed && s.completed[c.rep] == c
    case Rollback(_) => true
    case Go(_) => true
    case Exit(_) => true
    case _ => false
  }

  predicate IsDisciplined(s: State, es: seq<Event>, u: int)
    requires IsRun(s, es)
    decreases |es|
  {
    es == [] || (Disciplined(s, es[0], u) && IsDisciplined(Step(s, es[0]), es[1..], u))
  }

  // What a detacher past its unmastering has not taken off the uplink yet.
  function Remaining(pc: Proc): seq<int> {
    match pc
    case DetachResolve(c) => c.Vlans()
    case DetachLock(c, _) => c.Vlans()
    case DetachList(c, _) => c.Vlans()
    case DetachTables(c, _, _) => c.Vlans()
    case DetachDelete(_, _, del) => del
    case _ => []
  }

  ghost predicate Pending(s: State, v: int) {
    exists p :: p in s.procs && v in Remaining(s.procs[p])
  }

  ghost predicate OnBridge(s: State, q: int, u: int) {
    q in s.master && u in s.master && s.master[q] == s.master[u]
  }

  ghost predicate Carried(s: State, u: int, v: int) {
    exists q :: q != u && OnBridge(s, q, u) && v in Table(s, q)
  }

  // An attacher that has its representor on the bridge and is not through yet.
  predicate Joining(pc: Proc) {
    pc.AttachDefault? || pc.AttachTrunk? || pc.AttachPvid? || pc.AttachResolve? || pc.AttachLock? || pc.AttachUplink?
  }

  ghost predicate JoinedBy(s: State, q: int, v: int, p: nat) {
    p in s.procs && Joining(s.procs[p]) && s.procs[p].c.rep == q && v in s.procs[p].c.Vlans()
  }

  // A port with v in its table is there by a lifecycle that is configured with v.
  ghost predicate Owned(s: State, q: int, u: int, v: int) {
    && OnBridge(s, q, u)
    && ((q in s.completed && v in s.completed[q].Vlans()) || exists p :: JoinedBy(s, q, v, p))
  }

  ghost predicate ProcRest(s: State, p: nat, u: int)
    requires p in s.procs
  {
    var pc := s.procs[p];
    var c := pc.c;
    && c.uplink == u
    && c.setUplink
    && (match pc
        case AttachStart(_) => c.rep !in s.master
        case AttachLock(_, found) => found
        case AttachUplink(_, found, _) => found
        case AttachUnlock(_, ok) => ok && c.rep in s.completed && s.completed[c.rep] == c
        case AttachUndo(_) => false
        case AttachDone(_) => c.rep in s.completed && s.completed[c.rep] == c
        case DetachStart(_) => c.rep in s.completed && s.completed[c.rep] == c
        case DetachLock(_, found) => found
        case DetachList(_, found) => found
        case DetachTables(_, found, brif) => found && u !in brif
        case DetachDelete(_, found, _) => found
        case _ => true)
  }

  ghost predicate RestInv(s: State, u: int, v: int) {
    && u in s.uplinks
    && u in s.master
    && (forall p :: p in s.procs ==> ProcRest(s, p, u))
    && (forall r :: r in s.completed ==> s.completed[r].uplink == u && s.completed[r].setUplink)
    && (forall q :: q != u && v in Table(s, q) ==> Owned(s, q, u, v))
    && (v in Table(s, u) ==> Carried(s, u, v) || Pending(s, v))
  }

  // All of the safety invariant that one step of p needs here.
  ghost predicate Known(s: State, p: nat) {
    p in s.procs && ProcInv(s, p) && OneOwner(s)
  }

  lemma OwnedIsKept(s: State, s2: State, p: nat, q: int, u: int, v: int)
    requires Known(s, p) && LocalStep(s, s2, p) && Owned(s, q, u, v)
    requires q != s.procs[p].c.rep && u != s.procs[p].c.rep
    ensures Owned(s2, q, u, v)
  {
    if !(q in s.completed && v in s.completed[q].Vlans()) {
      var w :| JoinedBy(s, q, v, w);
      assert JoinedBy(s2, q, v, w);
    }
  }

  // What was on the uplink is still carried or pending.
  lemma LocalKeepsUplink(s: State, s2: State, p: nat, u: int, v: int)
    requires Known(s, p) && RestInv(s, u, v) && LocalStep(s, s2, p) && ProcRest(s2, p, u)
    requires var rep := s.procs[p].c.rep;
             v in Table(s, rep) && v !in Table(s2, rep) ==> v in Remaining(s2.procs[p])
    requires v in Table(s2, s.procs[p].c.rep) ==> OnBridge(s2, s.procs[p].c.rep, u)
    requires v in Remaining(s.procs[p]) && v !in Remaining(s2.procs[p]) ==> Carried(s2, u, v)
    ensures v in Table(s2, u) ==> Carried(s2, u, v) || Pending(s2, v)
  {
    var rep := s.procs[p].c.rep;
    if v in Table(s2, u) {
      if Carried(s, u, v) {
        var q :| q != u && OnBridge(s, q, u) && v in Table(s, q);
        if q != rep || v in Table(s2, rep) {
          assert OnBridge(s2, q, u);
        }
      } else {
        var w :| w in s.procs && v in Remaining(s.procs[w]);
        assert w != p ==> v in Remaining(s2.procs[w]);
      }
    }
  }

  lemma LocalKeepsRest(s: State, s2: State, p: nat, u: int, v: int)
    requires Known(s, p) && RestInv(s, u, v) && LocalStep(s, s2, p)
    requires ProcRest(s2, p, u)
    requires forall q :: q in s2.procs && q != p ==> ProcRest(s2, q, u)
    requires var rep := s.procs[p].c.rep;
             && (rep in s2.completed ==> s2.completed[rep].uplink == u && s2.completed[rep].setUplink)
             && (v in Table(s2, rep) ==> Owned(s2, rep, u, v))
             && (v in Table(s, rep) && v !in Table(s2, rep) ==> v in Remaining(s2.procs[p]))
    requires v in Remaining(s.procs[p]) && v !in Remaining(s2.procs[p]) ==> Carried(s2, u, v)
    ensures RestInv(s2, u, v)
  {
    var rep := s.procs[p].c.rep;
    forall q | q != u && v in Table(s2, q) ensures Owned(s2, q, u, v) {
      if q != rep {
        OwnedIsKept(s, s2, p, q, u, v);
      }
    }
    LocalKeepsUplink(s, s2, p, u, v);
  }

  // Only the process that moves and its representor change, so what the other
  // processes are known for stays.
  lemma OthersRest(s: State, s2: State, p: nat, u: int)
    requires Known(s, p) && LocalStep(s, s2, p)
    requires forall q :: q in s.procs ==> ProcRest(s, q, u)
    ensures forall q :: q in s2.procs && q != p ==> ProcRest(s2, q, u)
  {
    forall q | q in s2.procs && q != p ensures ProcRest(s2, q, u) {
      assert ProcRest(s, q, u);
      assert s.procs[q].c.rep != s.procs[p].c.rep;
    }
  }

  lemma JoinGoKeepsRest(s: State, p: nat, u: int, v: int)
    requires Known(s, p) && RestInv(s, u, v) && Enabled(s, Go(p)) && v > 1
    requires s.procs[p].AttachStart? || s.procs[p].AttachDefault?
    ensures RestInv(Advance(s, p), u, v)
  {
    var s2, rep := Advance(s, p), s.procs[p].c.rep;
    assert ProcRest(s, p, u);
    OthersRest(s, s2, p, u);
    if v in Table(s, rep) {
      assert Owned(s, rep, u, v);
    }
    if v in Table(s2, rep) {
      var w :| s.procs[p].AttachDefault? ==> rep !in s.completed && JoinedBy(s, rep, v, w);
      assert JoinedBy(s2, rep, v, p);
    }
    LocalKeepsRest(s, s2, p, u, v);
  }

  // The VLANs an attacher puts on its port are VLANs it is configured with.
  lemma PortGoKeepsRest(s: State, p: nat, u: int, v: int)
    requires Known(s, p) && RestInv(s, u, v) && Enabled(s, Go(p))
    requires s.procs[p].AttachTrunk? || s.procs[p].AttachPvid?
    ensures RestInv(Advance(s, p), u, v)
  {
    var s2, c := Advance(s, p), s.procs[p].c;
    assert ProcRest(s, p, u);
    OthersRest(s, s2, p, u);
    if v in Table(s, c.rep) {
      assert Owned(s, c.rep, u, v);
      var w :| JoinedBy(s, c.rep, v, w);
      assert w == p;
    }
    assert v in Table(s2, c.rep) ==> JoinedBy(s2, c.rep, v, p);
    LocalKeepsRest(s, s2, p, u, v);
  }

  // A step that leaves all masters and all tables but the uplink's alone.
  lemma UplinkKeepsRest(s: State, s2: State, u: int, v: int)
    requires RestInv(s, u, v) && s2.uplinks == s.uplinks && s2.master == s.master
    requires forall q :: q != u ==> Table(s2, q) == Table(s, q)
    requires forall q :: q in s2.procs ==> ProcRest(s2, q, u)
    requires forall q :: q in s2.completed ==> s2.completed[q].uplink == u && s2.completed[q].setUplink
    requires forall q :: q in s.completed && v in s.completed[q].Vlans() && v in Table(s, q)
               ==> q in s2.completed && v in s2.completed[q].Vlans()
    requires forall q, w :: JoinedBy(s, q, v, w)
               ==> JoinedBy(s2, q, v, w) || (q in s2.completed && v in s2.completed[q].Vlans())
    requires v in Table(s2, u) ==> v in Table(s, u) || exists q :: q != u && OnBridge(s, q, u) && v in Table(s, q)
    requires v in Table(s2, u) ==>
               (forall w :: w in s.procs && v in Remaining(s.procs[w]) ==> w in s2.procs && v in Remaining(s2.procs[w]))
    ensures RestInv(s2, u, v)
  {
    forall q | q != u && v in Table(s2, q) ensures Owned(s2, q, u, v) {
      assert Owned(s, q, u, v);
      if !(q in s.completed && v in s.completed[q].Vlans()) {
        var w :| JoinedBy(s, q, v, w);
        assert JoinedBy(s2, q, v, w) || (q in s2.completed && v in s2.completed[q].Vlans());
      }
    }
    if v in Table(s2, u) {
      if q :| q != u && OnBridge(s, q, u) && v in Table(s, q) {
        assert OnBridge(s2, q, u) && v in Table(s2, q);
      } else {
        var w :| w in s.procs && v in Remaining(s.procs[w]);
        assert v in Remaining(s2.procs[w]);
      }
    }
  }

  // A step that only moves process p on, or takes or frees the lock for it.
  lemma QuietKeepsRest(s: State, s2: State, p: nat, u: int, v: int)
    requires p in s.procs && RestInv(s, u, v) && p in s2.procs
    requires s2 == s.(procs := s.procs[p := s2.procs[p]], lock := s2.lock)
    requires s2.procs[p].c == s.procs[p].c && ProcRest(s2, p, u)
    requires Joining(s.procs[p]) ==> Joining(s2.procs[p])
    requires v in Remaining(s.procs[p]) ==> v in Remaining(s2.procs[p])
    ensures RestInv(s2, u, v)
  {
    forall q | q in s2.procs && q != p ensures ProcRest(s2, q, u) {
      assert ProcRest(s, q, u);
    }
    forall q, w | JoinedBy(s, q, v, w) ensures JoinedBy(s2, q, v, w) {
    }
    UplinkKeepsRest(s, s2, u, v);
  }

  lemma QuietAttachKeepsRest(s: State, p: nat, u: int, v: int)
    requires Known(s, p) && RestInv(s, u, v) && Enabled(s, Go(p))
    requires s.procs[p].AttachResolve? || s.procs[p].AttachLock? || s.procs[p].AttachUnlock?
    ensures RestInv(Advance(s, p), u, v)
  {
    assert ProcRest(s, p, u);
    QuietKeepsRest(s, Advance(s, p), p, u, v);
  }

  lemma QuietDetachKeepsRest(s: State, p: nat, u: int, v: int)
    requires Known(s, p) && RestInv(s, u, v) && Enabled(s, Go(p))
    requires s.procs[p].DetachResolve? || s.procs[p].DetachLock? || s.procs[p].DetachUnlock?
    ensures RestInv(Advance(s, p), u, v)
  {
    assert ProcRest(s, p, u);
    QuietKeepsRest(s, Advance(s, p), p, u, v);
  }

  lemma ListGoKeepsRest(s: State, p: nat, u: int, v: int)
    requires Known(s, p) && RestInv(s, u, v) && Enabled(s, Go(p)) && s.procs[p].DetachList?
    ensures RestInv(Advance(s, p), u, v)
  {
    assert ProcRest(s, p, u);
    QuietKeepsRest(s, Advance(s, p), p, u, v);
  }

  lemma AddKeepsJoined(s: State, p: nat, v: int)
    requires Known(s, p) && Enabled(s, Go(p)) && s.procs[p].AttachUplink?
    ensures var s2 := Advance(s, p);
            forall q, w :: JoinedBy(s, q, v, w) ==>
              JoinedBy(s2, q, v, w) || (q in s2.completed && v in s2.completed[q].Vlans())
  {
  }

  lemma AddKeepsProcs(s: State, p: nat, u: int)
    requires Known(s, p) && Enabled(s, Go(p)) && s.procs[p].AttachUplink?
    requires forall q :: q in s.procs ==> ProcRest(s, q, u)
    ensures var s2 := Advance(s, p);
            forall q :: q in s2.procs ==> ProcRest(s2, q, u)
  {
    var s2, c := Advance(s, p), s.procs[p].c;
    assert ProcRest(s, p, u);
    forall q | q in s2.procs && q != p ensures ProcRest(s2, q, u) {
      assert ProcRest(s, q, u) && s.procs[q].c.rep != c.rep;
    }
  }

  // The port carries the VLAN before the uplink does.
  lemma AddGoKeepsRest(s: State, p: nat, u: int, v: int)
    requires Known(s, p) && RestInv(s, u, v) && Enabled(s, Go(p)) && s.procs[p].AttachUplink?
    ensures RestInv(Advance(s, p), u, v)
  {
    var s2, c := Advance(s, p), s.procs[p].c;
    assert ProcRest(s, p, u);
    AddKeepsProcs(s, p, u);
    AddKeepsJoined(s, p, v);
    assert v in Table(s2, u) && v !in Table(s, u) ==> OnBridge(s, c.rep, u) && v in Table(s, c.rep);
    UplinkKeepsRest(s, s2, u, v);
  }

  // The detach hands what its representor carried over to its own pending list.
  lemma LeaveGoKeepsRest(s: State, p: nat, u: int, v: int)
    requires Known(s, p) && RestInv(s, u, v) && Enabled(s, Go(p)) && s.procs[p].DetachStart?
    ensures RestInv(Advance(s, p), u, v)
  {
    var s2, c := Advance(s, p), s.procs[p].c;
    assert ProcRest(s, p, u);
    OthersRest(s, s2, p, u);
    if v in Table(s, c.rep) {
      assert Owned(s, c.rep, u, v);
    }
    LocalKeepsRest(s, s2, p, u, v);
  }

  lemma TablesGoKeepsRest(s: State, p: nat, u: int, v: int)
    requires Known(s, p) && RestInv(s, u, v) && Enabled(s, Go(p)) && s.procs[p].DetachTables?
    ensures RestInv(Advance(s, p), u, v)
  {
    var s2, c, brif := Advance(s, p), s.procs[p].c, s.procs[p].brif;
    assert ProcRest(s, p, u);
    OthersRest(s, s2, p, u);
    if v in c.Vlans() && v !in Unused(s, brif, c.Vlans()) {
      UnusedIsUncarried(s, brif, c.Vlans());
      var q :| q in brif && v in Table(s, q);
      assert Owned(s, q, u, v);
      assert OnBridge(s2, q, u) && v in Table(s2, q);
    }
    if v in Table(s, c.rep) {
      assert Owned(s, c.rep, u, v);
    }
    LocalKeepsRest(s, s2, p, u, v);
  }

  lemma DeleteGoKeepsRest(s: State, p: nat, u: int, v: int)
    requires Known(s, p) && RestInv(s, u, v) && Enabled(s, Go(p)) && s.procs[p].DetachDelete?
    ensures RestInv(Advance(s, p), u, v)
  {
    var s2 := Advance(s, p);
    assert ProcRest(s, p, u);
    forall q | q in s2.procs && q != p ensures ProcRest(s2, q, u) {
      assert ProcRest(s, q, u);
    }
    forall q, w | JoinedBy(s, q, v, w) ensures JoinedBy(s2, q, v, w) {
    }
    UplinkKeepsRest(s, s2, u, v);
  }

  lemma GoKeepsRest(s: State, p: nat, u: int, v: int)
    requires Known(s, p) && RestInv(s, u, v) && Enabled(s, Go(p)) && v > 1
    ensures RestInv(Advance(s, p), u, v)
  {
    assert ProcRest(s, p, u);
    match s.procs[p]
    case AttachStart(_) => JoinGoKeepsRest(s, p, u, v);
    case AttachDefault(_) => JoinGoKeepsRest(s, p, u, v);
    case AttachTrunk(_, _) => PortGoKeepsRest(s, p, u, v);
    case AttachPvid(_) => PortGoKeepsRest(s, p, u, v);
    case AttachUplink(_, _, _) => AddGoKeepsRest(s, p, u, v);
    case DetachStart(_) => LeaveGoKeepsRest(s, p, u, v);
    case DetachTables(_, _, _) => TablesGoKeepsRest(s, p, u, v);
    case DetachDelete(_, _, _) => DeleteGoKeepsRest(s, p, u, v);
    case AttachUndo(_) => assert false;
    case AttachResolve(_) => QuietAttachKeepsRest(s, p, u, v);
    case AttachLock(_, _) => QuietAttachKeepsRest(s, p, u, v);
    case AttachUnlock(_, _) => QuietAttachKeepsRest(s, p, u, v);
    case DetachList(_, _) => ListGoKeepsRest(s, p, u, v);
    case _ => QuietDetachKeepsRest(s, p, u, v);
  }

  // Starting a process touches no table and no pending work.
  lemma StartKeepsRest(s: State, e: Event, u: int, v: int)
    requires OneOwner(s) && RestInv(s, u, v) && Enabled(s, e) && Disciplined(s, e, u)
             && (e.StartAttach? || e.StartDetach?)
    requires e.StartAttach? ==> e.c.rep !in s.completed
    ensures RestInv(Step(s, e), u, v)
  {
    var s2 := Step(s, e);
    assert s2.completed == s.completed;
    forall q | q in s2.procs && q != e.p ensures ProcRest(s2, q, u) {
      assert ProcRest(s, q, u);
    }
    forall q, w | JoinedBy(s, q, v, w) ensures JoinedBy(s2, q, v, w) {
    }
    UplinkKeepsRest(s, s2, u, v);
  }

  // Nor does rolling back or ending one.
  lemma EndKeepsRest(s: State, e: Event, u: int, v: int)
    requires OneOwner(s) && RestInv(s, u, v) && Enabled(s, e) && (e.Rollback? || e.Exit?)
    ensures RestInv(Step(s, e), u, v)
  {
    var s2 := Step(s, e);
    assert ProcRest(s, e.p, u);
    forall q | q in s2.procs && q != e.p ensures ProcRest(s2, q, u) {
      assert ProcRest(s, q, u);
    }
    forall q, w | JoinedBy(s, q, v, w) ensures JoinedBy(s2, q, v, w) {
    }
    UplinkKeepsRest(s, s2, u, v);
  }

  // Before the first call: one uplink on its bridge, and v on no port at all.
  ghost predicate FreshVlan(s: State, u: int, v: int) {
    Init(s) && u in s.uplinks && u in s.master && forall q :: v !in Table(s, q)
  }

  lemma {:induction false} RunKeepsRest(s: State, es: seq<Event>, u: int, v: int)
    requires Inv(s) && RestInv(s, u, v) && v > 1 && IsRun(s, es) && IsDisciplined(s, es, u)
    ensures Inv(After(s, es)) && RestInv(After(s, es), u, v)
    decreases |es|
  {
    if es == [] {
    } else {
      StepKeepsInv(s, es[0]);
      if es[0].Go? {
        assert ProcInv(s, es[0].p);
        GoKeepsRest(s, es[0].p, u, v);
      } else if es[0].StartAttach? || es[0].StartDetach? {
        assert forall r :: r in s.completed ==> CompletedInv(s, r);
        StartKeepsRest(s, es[0], u, v);
      } else {
        EndKeepsRest(s, es[0], u, v);
      }
      RunKeepsRest(Step(s, es[0]), es[1..], u, v);
    }
  }

  lemma UplinkDoesNotLeak(s: State, es: seq<Event>, u: int, v: int)
    requires FreshVlan(s, u, v) && v > 1 && IsRun(s, es) && IsDisciplined(s, es, u)
    ensures v in Table(After(s, es), u) ==> Carried(After(s, es), u, v) || Pending(After(s, es), v)
  {
    RunKeepsRest(s, es, u, v);
  }

  lemma UplinkIsExactAtRest(s: State, es: seq<Event>, u: int, v: int)
    requires FreshVlan(s, u, v) && v > 1 && IsRun(s, es) && IsDisciplined(s, es, u)
    requires After(s, es).procs == map[]
    ensures var t := After(s, es);
            v in Table(t, u) <==> exists r :: r in t.completed && v in t.completed[r].Vlans()
    ensures var t := After(s, es);
            forall r :: r in t.completed ==> OnBridge(t, r, u) && (v in Table(t, r) <==> v in t.completed[r].Vlans())
  {
    var t := After(s, es);
    RunKeepsRest(s, es, u, v);
    assert forall r :: r in t.completed ==> CompletedInv(t, r);
    if v in Table(t, u) {
      var q :| q != u && OnBridge(t, q, u) && v in Table(t, q);
      assert Owned(t, q, u, v);
    }
    forall r | r in t.completed && v in Table(t, r) ensures v in t.completed[r].Vlans() {
      assert CompletedInv(t, r);
      assert Owned(t, r, u, v);
    }
  }
}
