/**
 Safety of the uplink protocol: a representor whose setUplinkVlan attach went
 through has all its VLANs on the uplink for as long as it stays on the bridge,
 whatever other processes do, whichever calls fail and whoever crashes.
 */
module UplinkSafety {
  import opened Wrappers
  import opened UplinkMachine

  predicate Covers(t: set<int>, vs: seq<int>) {
    forall v :: v in vs ==> v in t
  }

  // The property itself.
  ghost predicate Safe(s: State) {
    forall r :: r in s.completed ==>
      && r in s.master
      && s.master[r] == s.completed[r].bridge
      && Covers(Table(s, s.completed[r].uplink), s.completed[r].Vlans())
  }

  // No completed representor on the uplink of c uses a VLAN of del.
  ghost predicate Unwanted(s: State, c: Conf, del: seq<int>) {
    forall r, v :: r in s.completed && s.completed[r].uplink == c.uplink && v in del ==> v !in s.completed[r].Vlans()
  }

  ghost predicate Attached(s: State, c: Conf) {
    c.rep in s.master && s.master[c.rep] == c.bridge
  }

  // What is known about a representor whose attach went through.
  ghost predicate CompletedInv(s: State, r: int)
    requires r in s.completed
  {
    var c := s.completed[r];
    && c.rep == r
    && WellFormed(s, c)
    && Attached(s, c)
    && Covers(Table(s, r), c.Vlans())
    && Covers(Table(s, c.uplink), c.Vlans())
  }

  // What is known about a running process.
  ghost predicate ProcInv(s: State, p: nat)
    requires p in s.procs
  {
    var pc := s.procs[p];
    var c := pc.c;
    && WellFormed(s, c)
    && (match pc
        case AttachStart(_) => c.rep !in s.completed
        case AttachDefault(_) => c.rep !in s.completed && Attached(s, c)
        case AttachTrunk(_, i) =>
          c.rep !in s.completed && Attached(s, c) && i <= |c.trunk| && Covers(Table(s, c.rep), c.trunk[..i])
        case AttachPvid(_) => c.rep !in s.completed && Attached(s, c) && Covers(Table(s, c.rep), c.trunk)
        case AttachResolve(_) => c.rep !in s.completed && Attached(s, c) && Covers(Table(s, c.rep), c.Vlans())
        case AttachLock(_, _) => c.rep !in s.completed && Attached(s, c) && Covers(Table(s, c.rep), c.Vlans())
        case AttachUplink(_, _, i) =>
          && c.rep !in s.completed && Attached(s, c) && Covers(Table(s, c.rep), c.Vlans())
          && s.lock == Some(p) && i <= |c.Vlans()| && Covers(Table(s, c.uplink), c.Vlans()[..i])
        case AttachUnlock(_, ok) =>
          s.lock == Some(p) && (if ok then c.rep in s.completed && s.completed[c.rep] == c else c.rep !in s.completed)
        case AttachDone(_) => c.setUplink ==> c.rep in s.completed && s.completed[c.rep] == c
        case AttachUndo(_) => c.rep !in s.completed
        case DetachList(_, _) => s.lock == Some(p)
        case DetachTables(_, found, brif) =>
          && s.lock == Some(p)
          && forall r :: r in s.completed && s.completed[r].uplink == c.uplink ==> r in brif
        case DetachDelete(_, found, del) => s.lock == Some(p) && (found ==> Unwanted(s, c, del))
        case DetachUnlock(_) => s.lock == Some(p)
        case _ => true)
  }

  // A representor belongs to one running process at a time.
  ghost predicate OneOwner(s: State) {
    forall p, q :: p in s.procs && q in s.procs && s.procs[p].c.rep == s.procs[q].c.rep ==> p == q
  }

  // The inductive invariant.
  ghost predicate Inv(s: State) {
    && (forall r :: r in s.completed ==> CompletedInv(s, r))
    && (forall p :: p in s.procs ==> ProcInv(s, p))
    && OneOwner(s)
  }

  // s2 differs from s only in process p and in what belongs to its representor.
  ghost predicate LocalStep(s: State, s2: State, p: nat) {
    && p in s.procs
    && p in s2.procs
    && s2.procs == s.procs[p := s2.procs[p]]
    && s2.procs[p].c == s.procs[p].c
    && s2.uplinks == s.uplinks
    && (s2.lock == s.lock || LockFree(s, p))
    && var c := s.procs[p].c;
       && (forall q :: q != c.rep ==> Table(s2, q) == Table(s, q))
       && (forall q :: q != c.rep ==> (q in s2.master <==> q in s.master))
       && (forall q :: q != c.rep && q in s.master && q in s2.master ==> s2.master[q] == s.master[q])
       && (s2.completed == s.completed
           || s2.completed == s.completed - {c.rep}
           || (s2.completed == s.completed[c.rep := c] && s.lock == Some(p)))
  }

  // A local step leaves what is known about every other process alone.
  lemma LocalKeepsProc(s: State, s2: State, p: nat, q: nat)
    requires Inv(s) && LocalStep(s, s2, p) && q in s.procs && q != p
    ensures ProcInv(s2, q)
  {
    assert ProcInv(s, p) && ProcInv(s, q);
    assert s.procs[q].c.rep != s.procs[p].c.rep;
  }

  // It is enough to look at the process that moved and at its representor.
  lemma LocalKeepsInv(s: State, s2: State, p: nat)
    requires Inv(s) && LocalStep(s, s2, p)
    requires ProcInv(s2, p)
    requires s.procs[p].c.rep in s2.completed ==> CompletedInv(s2, s.procs[p].c.rep)
    ensures Inv(s2)
  {
    assert ProcInv(s, p);
    forall q | q in s2.procs && q != p ensures ProcInv(s2, q) {
      LocalKeepsProc(s, s2, p, q);
    }
    forall r | r in s2.completed && r != s.procs[p].c.rep ensures CompletedInv(s2, r) {
      assert CompletedInv(s, r);
    }
  }

  // A step inside the critical section changes the table of the uplink only.
  ghost predicate UplinkStep(s: State, s2: State, p: nat) {
    && p in s.procs
    && p in s2.procs
    && s2 == s.(procs := s.procs[p := s2.procs[p]], vlans := s2.vlans)
    && s2.procs[p].c == s.procs[p].c
    && s.lock == Some(p)
    && forall q :: q != s.procs[p].c.uplink ==> Table(s2, q) == Table(s, q)
  }

  lemma UplinkKeepsInv(s: State, s2: State, p: nat)
    requires Inv(s) && UplinkStep(s, s2, p)
    requires ProcInv(s2, p)
    requires forall r :: r in s.completed && s.completed[r].uplink == s.procs[p].c.uplink
               ==> Covers(Table(s2, s.procs[p].c.uplink), s.completed[r].Vlans())
    ensures Inv(s2)
  {
    assert ProcInv(s, p);
    forall q | q in s2.procs && q != p ensures ProcInv(s2, q) {
      assert ProcInv(s, q);
    }
    forall r | r in s2.completed ensures CompletedInv(s2, r) {
      assert CompletedInv(s, r);
    }
  }

  // A step that only moves process p on, or takes or frees the lock for it.
  lemma QuietKeepsInv(s: State, s2: State, p: nat)
    requires Inv(s) && p in s.procs && p in s2.procs
    requires s2 == s.(procs := s.procs[p := s2.procs[p]], lock := s2.lock)
    requires s2.procs[p].c == s.procs[p].c
    requires s2.lock == s.lock || LockFree(s, p)
    requires ProcInv(s2, p)
    ensures Inv(s2)
  {
    forall q | q in s2.procs && q != p ensures ProcInv(s2, q) {
      assert ProcInv(s, q);
    }
    forall r | r in s2.completed ensures CompletedInv(s2, r) {
      assert CompletedInv(s, r);
    }
  }

  lemma EnslaveGoKeepsInv(s: State, p: nat)
    requires Inv(s) && Enabled(s, Go(p)) && s.procs[p].AttachStart?
    ensures Inv(Advance(s, p))
  {
    assert ProcInv(s, p);
    LocalKeepsInv(s, Advance(s, p), p);
  }

  lemma DefaultGoKeepsInv(s: State, p: nat)
    requires Inv(s) && Enabled(s, Go(p)) && s.procs[p].AttachDefault?
    ensures Inv(Advance(s, p))
  {
    assert ProcInv(s, p);
    LocalKeepsInv(s, Advance(s, p), p);
  }

  lemma TrunkGoKeepsInv(s: State, p: nat)
    requires Inv(s) && Enabled(s, Go(p)) && s.procs[p].AttachTrunk?
    ensures Inv(Advance(s, p))
  {
    assert ProcInv(s, p);
    var c, i := s.procs[p].c, s.procs[p].i;
    if i < |c.trunk| {
      assert c.trunk[..i + 1] == c.trunk[..i] + [c.trunk[i]];
    } else {
      assert c.trunk[..i] == c.trunk;
    }
    LocalKeepsInv(s, Advance(s, p), p);
  }

  lemma PvidGoKeepsInv(s: State, p: nat)
    requires Inv(s) && Enabled(s, Go(p)) && s.procs[p].AttachPvid?
    ensures Inv(Advance(s, p))
  {
    assert ProcInv(s, p);
    LocalKeepsInv(s, Advance(s, p), p);
  }

  lemma AttachLockGoKeepsInv(s: State, p: nat)
    requires Inv(s) && Enabled(s, Go(p))
             && (s.procs[p].AttachResolve? || s.procs[p].AttachLock? || s.procs[p].AttachUnlock?)
    ensures Inv(Advance(s, p))
  {
    assert ProcInv(s, p);
    QuietKeepsInv(s, Advance(s, p), p);
  }

  lemma DetachLockGoKeepsInv(s: State, p: nat)
    requires Inv(s) && Enabled(s, Go(p))
             && (s.procs[p].DetachResolve? || s.procs[p].DetachLock? || s.procs[p].DetachUnlock?)
    ensures Inv(Advance(s, p))
  {
    assert ProcInv(s, p);
    QuietKeepsInv(s, Advance(s, p), p);
  }

  lemma AddKeepsProcInv(s: State, p: nat)
    requires p in s.procs && ProcInv(s, p) && Enabled(s, Go(p))
    requires s.procs[p].AttachUplink? && s.procs[p].i < |s.procs[p].c.Vlans()|
    ensures p in Advance(s, p).procs && ProcInv(Advance(s, p), p)
  {
    var c, i := s.procs[p].c, s.procs[p].i;
    assert c.Vlans()[..i + 1] == c.Vlans()[..i] + [c.Vlans()[i]];
  }

  lemma AddGoKeepsInv(s: State, p: nat)
    requires Inv(s) && Enabled(s, Go(p)) && s.procs[p].AttachUplink? && s.procs[p].i < |s.procs[p].c.Vlans()|
    ensures Inv(Advance(s, p))
  {
    assert ProcInv(s, p);
    AddKeepsProcInv(s, p);
    assert forall r :: r in s.completed ==> CompletedInv(s, r);
    UplinkKeepsInv(s, Advance(s, p), p);
  }

  // The last VLAN is on the uplink: the attach is through.
  lemma CompleteGoKeepsInv(s: State, p: nat)
    requires Inv(s) && Enabled(s, Go(p)) && s.procs[p].AttachUplink? && s.procs[p].i >= |s.procs[p].c.Vlans()|
    ensures Inv(Advance(s, p))
  {
    assert ProcInv(s, p);
    var c := s.procs[p].c;
    assert c.Vlans()[..s.procs[p].i] == c.Vlans();
    LocalKeepsInv(s, Advance(s, p), p);
  }

  // What the search leaves over: the VLANs that no port of the snapshot carries.
  lemma {:induction false} UnusedIsUncarried(s: State, brif: set<int>, vs: seq<int>)
    ensures forall v :: v in Unused(s, brif, vs) <==> v in vs && !CarriedBy(s, brif, v)
  {
    if vs == [] {
    } else {
      UnusedIsUncarried(s, brif, vs[1..]);
      assert forall v :: v in vs <==> v == vs[0] || v in vs[1..];
    }
  }

  // Nothing of a completed attach is unused: its port is in the snapshot and carries it.
  lemma UnusedIsUnwanted(s: State, c: Conf, brif: set<int>, vs: seq<int>)
    requires forall r :: r in s.completed && s.completed[r].uplink == c.uplink
               ==> r in brif && Covers(Table(s, r), s.completed[r].Vlans())
    ensures Unwanted(s, c, Unused(s, brif, vs))
  {
    UnusedIsUncarried(s, brif, vs);
    forall r, v | r in s.completed && s.completed[r].uplink == c.uplink && v in s.completed[r].Vlans()
      ensures CarriedBy(s, brif, v)
    {
      assert r in brif && v in Table(s, r);
    }
  }

  lemma LeaveGoKeepsInv(s: State, p: nat)
    requires Inv(s) && Enabled(s, Go(p)) && (s.procs[p].AttachUndo? || s.procs[p].DetachStart?)
    ensures Inv(Advance(s, p))
  {
    assert ProcInv(s, p);
    LocalKeepsInv(s, Advance(s, p), p);
  }

  lemma ListGoKeepsInv(s: State, p: nat)
    requires Inv(s) && Enabled(s, Go(p)) && s.procs[p].DetachList?
    ensures Inv(Advance(s, p))
  {
    assert ProcInv(s, p);
    assert forall r :: r in s.completed ==> CompletedInv(s, r);
    QuietKeepsInv(s, Advance(s, p), p);
  }

  lemma TablesGoKeepsInv(s: State, p: nat)
    requires Inv(s) && Enabled(s, Go(p)) && s.procs[p].DetachTables?
    ensures Inv(Advance(s, p))
  {
    assert ProcInv(s, p);
    var c := s.procs[p].c;
    assert forall r :: r in s.completed ==> CompletedInv(s, r);
    UnusedIsUnwanted(s, c, s.procs[p].brif, c.Vlans());
    QuietKeepsInv(s, Advance(s, p), p);
  }

  lemma DeleteGoKeepsInv(s: State, p: nat)
    requires Inv(s) && Enabled(s, Go(p)) && s.procs[p].DetachDelete?
    ensures Inv(Advance(s, p))
  {
    assert ProcInv(s, p);
    var c, del := s.procs[p].c, s.procs[p].del;
    assert forall r :: r in s.completed ==> CompletedInv(s, r);
    if del == [] {
      QuietKeepsInv(s, Advance(s, p), p);
    } else {
      assert forall v :: v in del[1..] ==> v in del;
      assert Unwanted(s, c, del);
      assert Unwanted(s, c, del[1..]);
      assert del[0] in del;
      UplinkKeepsInv(s, Advance(s, p), p);
    }
  }

  lemma GoKeepsInv(s: State, p: nat)
    requires Inv(s) && Enabled(s, Go(p))
    ensures Inv(Advance(s, p))
  {
    match s.procs[p]
    case AttachStart(_) => EnslaveGoKeepsInv(s, p);
    case AttachDefault(_) => DefaultGoKeepsInv(s, p);
    case AttachTrunk(_, _) => TrunkGoKeepsInv(s, p);
    case AttachPvid(_) => PvidGoKeepsInv(s, p);
    case AttachUplink(c, _, i) =>
      if i < |c.Vlans()| {
        AddGoKeepsInv(s, p);
      } else {
        CompleteGoKeepsInv(s, p);
      }
    case AttachUndo(_) => LeaveGoKeepsInv(s, p);
    case DetachStart(_) => LeaveGoKeepsInv(s, p);
    case DetachList(_, _) => ListGoKeepsInv(s, p);
    case DetachTables(_, _, _) => TablesGoKeepsInv(s, p);
    case DetachDelete(_, _, _) => DeleteGoKeepsInv(s, p);
    case DetachResolve(_) => DetachLockGoKeepsInv(s, p);
    case DetachLock(_, _) => DetachLockGoKeepsInv(s, p);
    case DetachUnlock(_) => DetachLockGoKeepsInv(s, p);
    case _ => AttachLockGoKeepsInv(s, p);
  }

  lemma StartAttachKeepsInv(s: State, e: Event)
    requires Inv(s) && Enabled(s, e) && e.StartAttach?
    ensures Inv(Step(s, e))
  {
    var s2 := Step(s, e);
    forall q | q in s2.procs && q != e.p ensures ProcInv(s2, q) {
      assert ProcInv(s, q);
    }
    forall r | r in s2.completed ensures CompletedInv(s2, r) {
      assert CompletedInv(s, r);
    }
  }

  lemma StartDetachKeepsCompleted(s: State, e: Event, r: int)
    requires Enabled(s, e) && e.StartDetach? && r in s.completed && CompletedInv(s, r)
    ensures CompletedInv(Step(s, e), r)
  {
  }

  lemma StartDetachKeepsProc(s: State, e: Event, q: nat)
    requires Enabled(s, e) && e.StartDetach? && q in s.procs && ProcInv(s, q)
    ensures q in Step(s, e).procs && ProcInv(Step(s, e), q)
  {
  }

  lemma StartDetachKeepsInv(s: State, e: Event)
    requires Inv(s) && Enabled(s, e) && e.StartDetach?
    ensures Inv(Step(s, e))
  {
    var s2 := Step(s, e);
    forall q | q in s2.procs && q != e.p ensures ProcInv(s2, q) {
      StartDetachKeepsProc(s, e, q);
    }
    forall r | r in s2.completed ensures CompletedInv(s2, r) {
      StartDetachKeepsCompleted(s, e, r);
    }
  }

  lemma EndKeepsInv(s: State, e: Event)
    requires Inv(s) && Enabled(s, e) && (e.Exit? || e.Crash?)
    ensures Inv(Step(s, e))
  {
    var s2 := Step(s, e);
    forall q | q in s2.procs ensures ProcInv(s2, q) {
      assert ProcInv(s, q);
    }
    forall r | r in s2.completed ensures CompletedInv(s2, r) {
      assert CompletedInv(s, r);
    }
  }

  lemma FailKeepsInv(s: State, e: Event)
    requires Inv(s) && Enabled(s, e) && (e.Fail? || e.Miss? || e.Rollback? || e.KeepLock?)
    ensures Inv(Step(s, e))
  {
    assert ProcInv(s, e.p);
    QuietKeepsInv(s, Step(s, e), e.p);
  }

  lemma StepKeepsInv(s: State, e: Event)
    requires Inv(s) && Enabled(s, e) && !e.ListFails?
    ensures Inv(Step(s, e))
  {
    match e
    case Go(p) => GoKeepsInv(s, p);
    case StartAttach(_, _) => StartAttachKeepsInv(s, e);
    case StartDetach(_, _) => StartDetachKeepsInv(s, e);
    case Exit(_) => EndKeepsInv(s, e);
    case Crash(_) => EndKeepsInv(s, e);
    case _ => FailKeepsInv(s, e);
  }

  predicate ListsSucceed(es: seq<Event>) {
    forall e :: e in es ==> !e.ListFails?
  }

  lemma {:induction false} RunKeepsInv(s: State, es: seq<Event>)
    requires Inv(s) && IsRun(s, es) && ListsSucceed(es)
    ensures Inv(After(s, es))
    decreases |es|
  {
    if es == [] {
    } else {
      assert es[0] in es && forall e :: e in es[1..] ==> e in es;
      StepKeepsInv(s, es[0]);
      RunKeepsInv(Step(s, es[0]), es[1..]);
    }
  }

  // The representor of c is on its bridge and the uplink has all its VLANs.
  ghost predicate Served(s: State, c: Conf) {
    Attached(s, c) && Covers(Table(s, c.uplink), c.Vlans())
  }

  // The main result: over every interleaving, failure and crash, for every
  // representor whose attach went through and for every process whose
  // AttachRepresentor has just returned nil.
  lemma UplinkIsSafe(s: State, es: seq<Event>)
    requires Init(s) && IsRun(s, es) && ListsSucceed(es)
    ensures Safe(After(s, es))
    ensures var t := After(s, es);
            forall p :: p in t.procs && t.procs[p].AttachDone? && t.procs[p].c.setUplink ==> Served(t, t.procs[p].c)
  {
    RunKeepsInv(s, es);
    var t := After(s, es);
    assert forall r :: r in t.completed ==> CompletedInv(t, r);
    assert forall p :: p in t.procs ==> ProcInv(t, p);
  }

  // The dropped error of BridgeVlanList: the next deletions stay harmless if
  // and only if no completed representor on the uplink shares a VLAN.
  lemma ListFailureKeepsInvIff(s: State, p: nat)
    requires Inv(s) && Enabled(s, ListFails(p)) && s.procs[p].found
    ensures Inv(Step(s, ListFails(p))) <==> Unwanted(s, s.procs[p].c, s.procs[p].c.Vlans())
  {
    assert ProcInv(s, p);
    var c, s2 := s.procs[p].c, Step(s, ListFails(p));
    assert forall r :: r in s.completed ==> CompletedInv(s, r);
    if Unwanted(s, c, c.Vlans()) {
      QuietKeepsInv(s, s2, p);
    } else {
      assert !Unwanted(s2, c, c.Vlans());
      assert !ProcInv(s2, p);
    }
  }

  // n times the same event.
  function Repeat(e: Event, n: nat): (es: seq<Event>)
    ensures |es| == n && forall x :: x in es ==> x == e
  {
    if n == 0 then [] else [e] + Repeat(e, n - 1)
  }

  function AsSet(vs: seq<int>): set<int> {
    set v | v in vs
  }

  // t is s with process p at pc and one table replaced.
  ghost predicate TableStep(s: State, t: State, p: nat, pc: Proc, port: int, table: set<int>) {
    && t == s.(procs := s.procs[p := pc], vlans := t.vlans)
    && Table(t, port) == table
    && forall q :: q != port ==> Table(t, q) == Table(s, q)
  }

  // Left to itself, a detacher deletes from the uplink all that it set out to
  // delete, and changes nothing else.
  lemma {:induction false} DeletesAll(s: State, p: nat)
    requires p in s.procs && s.procs[p].DetachDelete? && s.procs[p].found
    ensures var c, es := s.procs[p].c, Repeat(Go(p), |s.procs[p].del|);
            && IsRun(s, es)
            && TableStep(s, After(s, es), p, DetachDelete(c, true, []), c.uplink,
                         Table(s, c.uplink) - AsSet(s.procs[p].del))
    decreases |s.procs[p].del|
  {
    var c, del := s.procs[p].c, s.procs[p].del;
    if del == [] {
      assert s.procs[p := s.procs[p]] == s.procs;
      assert Table(s, c.uplink) - AsSet(del) == Table(s, c.uplink);
    } else {
      var s2 := Step(s, Go(p));
      DeletesAll(s2, p);
      assert del == [del[0]] + del[1..];
      assert Table(s, c.uplink) - {del[0]} - AsSet(del[1..]) == Table(s, c.uplink) - AsSet(del);
      assert Repeat(Go(p), |del|)[1..] == Repeat(Go(p), |del| - 1);
    }
  }

  // So one failed BridgeVlanList call takes a VLAN off the uplink under a
  // representor that is attached and uses it.
  lemma ListFailureIsUnsafe(s: State, p: nat, r: int, v: int)
    requires Inv(s) && Enabled(s, ListFails(p)) && s.procs[p].found
    requires r in s.completed && s.completed[r].uplink == s.procs[p].c.uplink
    requires v in s.completed[r].Vlans() && v in s.procs[p].c.Vlans()
    ensures var es := [ListFails(p)] + Repeat(Go(p), |s.procs[p].c.Vlans()|);
            && IsRun(s, es) && Safe(s) && !Safe(After(s, es))
            && After(s, es).completed == s.completed && v !in Table(After(s, es), s.completed[r].uplink)
  {
    var s2 := Step(s, ListFails(p));
    DeletesAll(s2, p);
    var es := [ListFails(p)] + Repeat(Go(p), |s.procs[p].c.Vlans()|);
    assert es[1..] == Repeat(Go(p), |s.procs[p].c.Vlans()|);
    assert forall q :: q in s.completed ==> CompletedInv(s, q);
    assert v !in Table(After(s, es), s.procs[p].c.uplink);
  }
}
