/**
 Progress of the uplink protocol: a process that is let run comes to its end after
 a bounded number of calls, and nobody waits for a lock that cannot be released.
 */
module UplinkProgress {
  import opened Wrappers
  import opened UplinkMachine
  import opened UplinkLock
  import opened UplinkSoloFailures

  predicate Ended(pc: Proc) {
    pc.AttachDone? || pc.Finished?
  }

  // How many calls a process can still make.
  function CallsLeft(pc: Proc): nat {
    var v, t := |pc.c.Vlans()|, |pc.c.trunk|;
    match pc
    case AttachStart(_) => 9 + v + t
    case AttachDefault(_) => 8 + v + t
    case AttachTrunk(_, i) => 7 + v + if i < t then t - i else 0
    case AttachPvid(_) => 6 + v
    case AttachResolve(_) => 5 + v
    case AttachLock(_, _) => 4 + v
    case AttachUplink(_, _, i) => 3 + if i < v then v - i else 0
    case AttachUnlock(_, _) => 2
    case AttachUndo(_) => 1
    case DetachStart(_) => 7 + v
    case DetachResolve(_) => 6 + v
    case DetachLock(_, _) => 5 + v
    case DetachList(_, _) => 4 + v
    case DetachTables(_, _, _) => 3 + v
    case DetachDelete(_, _, del) => 2 + |del|
    case DetachUnlock(_) => 1
    case AttachDone(_) => 0
    case Finished(_) => 0
  }

  // However many processes there are and wherever they stand, another one may start
  // with a representor that none of them is about.
  lemma AnotherMayStart(s: State, p: nat, c: Conf)
    requires p !in s.procs && s.lock != Some(p)
    requires c.uplink in s.uplinks && c.uplink in s.master && s.master[c.uplink] == c.bridge && c.rep !in s.uplinks
    requires forall q :: q in s.procs ==> s.procs[q].c.rep != c.rep
    ensures Enabled(s, StartAttach(p, c)) && Enabled(s, StartDetach(p, c))
    ensures var t := Step(s, StartAttach(p, c));
            t.procs == s.procs[p := AttachStart(c)] && t.master == s.master && t.vlans == s.vlans && t.lock == s.lock
    ensures Step(s, StartDetach(p, c)) == s.(procs := s.procs[p := DetachStart(c)])
  {
  }

  // A process that has not ended makes its next call, successfully or not; it waits
  // only for a lock that another one holds.
  lemma NextCall(s: State, p: nat)
    requires p in s.procs && !Ended(s.procs[p])
    ensures Enabled(s, Go(p)) || Enabled(s, Fail(p))
    ensures (s.procs[p].AttachLock? || s.procs[p].DetachLock?) ==> (Enabled(s, Go(p)) <==> LockFree(s, p))
    ensures !s.procs[p].AttachLock? && !s.procs[p].DetachLock? && !Enabled(s, Go(p)) ==>
              (s.procs[p].AttachUplink? || s.procs[p].DetachDelete?) && !s.procs[p].found
  {
  }

  // What it waits for comes: whoever holds the lock can go on, or ends.
  lemma HolderGoesOn(s: State, es: seq<Event>, p: nat)
    requires Init(s) && IsRun(s, es) && !LockFree(After(s, es), p)
    ensures var t := After(s, es);
            var q := t.lock.value;
            && q != p && q in t.procs
            && (Ended(t.procs[q]) ==> Enabled(t, Exit(q)) && Step(t, Exit(q)).lock == None)
            && (!Ended(t.procs[q]) ==> Enabled(t, Go(q)) || Enabled(t, Fail(q)))
  {
    RunIsExclusive(s, es);
    var t := After(s, es);
    if !Ended(t.procs[t.lock.value]) {
      NextCall(t, t.lock.value);
    }
  }

  lemma {:induction false} UnusedIsNoLonger(s: State, brif: set<int>, vs: seq<int>)
    ensures |Unused(s, brif, vs)| <= |vs|
  {
    if vs == [] {
    } else {
      UnusedIsNoLonger(s, brif, vs[1..]);
    }
  }

  lemma TablesCallIsOneLess(s: State, p: nat)
    requires p in s.procs && s.procs[p].DetachTables?
    ensures CallsLeft(Advance(s, p).procs[p]) < CallsLeft(s.procs[p])
  {
    UnusedIsNoLonger(s, s.procs[p].brif, s.procs[p].c.Vlans());
  }

  lemma DetachCallIsOneLess(s: State, p: nat)
    requires p in s.procs && Detaching(s.procs[p]) && !s.procs[p].DetachTables? && Enabled(s, Go(p))
    ensures CallsLeft(Advance(s, p).procs[p]) < CallsLeft(s.procs[p])
  {
    match s.procs[p]
    case DetachStart(_) =>
    case DetachResolve(_) =>
    case DetachLock(_, _) =>
    case DetachList(_, _) =>
    case DetachDelete(_, _, _) =>
    case _ =>
  }

  predicate OnPort(pc: Proc) {
    pc.AttachStart? || pc.AttachDefault? || pc.AttachTrunk? || pc.AttachPvid?
  }

  lemma PortCallIsOneLess(s: State, p: nat)
    requires p in s.procs && OnPort(s.procs[p]) && Enabled(s, Go(p))
    ensures CallsLeft(Advance(s, p).procs[p]) < CallsLeft(s.procs[p])
  {
    match s.procs[p]
    case AttachStart(_) =>
    case AttachDefault(_) =>
    case AttachTrunk(_, _) =>
    case _ =>
  }

  lemma UplinkCallIsOneLess(s: State, p: nat)
    requires p in s.procs && !Detaching(s.procs[p]) && !OnPort(s.procs[p]) && Enabled(s, Go(p))
    ensures CallsLeft(Advance(s, p).procs[p]) < CallsLeft(s.procs[p])
  {
    match s.procs[p]
    case AttachResolve(_) =>
    case AttachLock(_, _) =>
    case AttachUplink(_, _, _) =>
    case AttachUnlock(_, _) =>
    case _ =>
  }

  lemma GoIsOneLess(s: State, p: nat)
    requires p in s.procs && Enabled(s, Go(p))
    ensures p in Advance(s, p).procs && CallsLeft(Advance(s, p).procs[p]) < CallsLeft(s.procs[p])
  {
    GoKeepsOthers(s, p);
    if s.procs[p].DetachTables? {
      TablesCallIsOneLess(s, p);
    } else if Detaching(s.procs[p]) {
      DetachCallIsOneLess(s, p);
    } else if OnPort(s.procs[p]) {
      PortCallIsOneLess(s, p);
    } else {
      UplinkCallIsOneLess(s, p);
    }
  }

  lemma FailureIsOneLess(s: State, p: nat)
    requires p in s.procs && Enabled(s, Fail(p))
    ensures CallsLeft(AfterFailure(s.procs[p])) < CallsLeft(s.procs[p])
  {
  }

  // Starting, ending and rolling back are no calls.
  predicate IsCall(e: Event) {
    e.Go? || e.Fail? || e.Miss? || e.ListFails? || e.KeepLock?
  }

  lemma CallIsOneLess(s: State, e: Event)
    requires Enabled(s, e) && IsCall(e)
    ensures e.p in Step(s, e).procs && CallsLeft(Step(s, e).procs[e.p]) < CallsLeft(s.procs[e.p])
  {
    if e.Go? {
      GoIsOneLess(s, e.p);
    } else if e.Fail? {
      FailureIsOneLess(s, e.p);
    }
  }

  // The calls that process p makes in a run.
  function CallsMade(es: seq<Event>, p: nat): nat {
    if es == [] then 0 else (if es[0].p == p && IsCall(es[0]) then 1 else 0) + CallsMade(es[1..], p)
  }

  // Whatever the others do, it makes no more than it had left, as long as it is
  // neither started again nor rolled back.
  lemma {:induction false} CallsAreBounded(s: State, es: seq<Event>, p: nat)
    requires p in s.procs && IsRun(s, es) && forall e :: e in es && e.p == p ==> IsCall(e)
    ensures p in After(s, es).procs
    ensures CallsMade(es, p) + CallsLeft(After(s, es).procs[p]) <= CallsLeft(s.procs[p])
    decreases |es|
  {
    if es == [] {
    } else {
      assert es[0] in es && forall e :: e in es[1..] ==> e in es;
      StepKeepsOthers(s, es[0]);
      if es[0].p == p {
        CallIsOneLess(s, es[0]);
      }
      CallsAreBounded(Step(s, es[0]), es[1..], p);
    }
  }

  // A process that ends in whatever way leaves masters and tables as they are.
  lemma EndingKeepsTables(s: State, p: nat)
    requires p in s.procs
    ensures Enabled(s, Crash(p))
    ensures var t := Step(s, Crash(p));
            t.procs == s.procs - {p} && t.master == s.master && t.vlans == s.vlans && t.completed == s.completed
            && t.lock != Some(p) && (LockFree(s, p) || t.lock == s.lock)
    ensures Ended(s.procs[p]) <==> Enabled(s, Exit(p))
    ensures Enabled(s, Exit(p)) ==> Step(s, Exit(p)) == Step(s, Crash(p))
  {
  }

  // A process that has not found the bond of its PF changes no table of the bridge
  // any more, but for taking its representor off.
  lemma MissedBondKeepsTables(s: State, e: Event, p: nat)
    requires p in s.procs && Enabled(s, e) && CallOf(e, p)
    requires match s.procs[p]
             case AttachUplink(_, found, _) => !found
             case DetachDelete(_, found, _) => !found
             case _ => false
    ensures Step(s, e).master == s.master && Step(s, e).vlans == s.vlans
  {
  }
}
