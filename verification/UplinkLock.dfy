/**
 The file lock of the uplink protocol: one process at a time is in a critical
 section, and no lock is left behind, whichever calls fail and whoever crashes.
 */
module UplinkLock {
  import opened Wrappers
  import opened UplinkMachine

  // Between a successful Lock and the Unlock that belongs to it.
  predicate Critical(pc: Proc) {
    || pc.AttachUplink? || pc.AttachUnlock?
    || pc.DetachList? || pc.DetachTables? || pc.DetachDelete? || pc.DetachUnlock?
  }

  // Whoever is in a critical section holds the lock, so that is one process at
  // most, and whoever holds the lock is running.
  ghost predicate Exclusive(s: State) {
    && (forall p :: p in s.procs && Critical(s.procs[p]) ==> s.lock == Some(p))
    && (s.lock.Some? ==> s.lock.value in s.procs)
  }

  // Nobody else holds it.
  ghost predicate HeldInside(s: State) {
    s.lock.Some? ==> s.lock.value in s.procs && Critical(s.procs[s.lock.value])
  }

  // Only process p and the lock may differ, and the lock only if nobody else has it.
  ghost predicate OthersKept(s: State, s2: State, p: nat) {
    && (forall q :: q != p ==> (q in s2.procs <==> q in s.procs) && (q in s.procs ==> s2.procs[q] == s.procs[q]))
    && (s2.lock == s.lock || (LockFree(s, p) && (s2.lock == None || s2.lock == Some(p))))
  }

  lemma GoKeepsOthers(s: State, p: nat)
    requires Enabled(s, Go(p))
    ensures OthersKept(s, Advance(s, p), p)
  {
  }

  lemma StepKeepsOthers(s: State, e: Event)
    requires Enabled(s, e)
    ensures OthersKept(s, Step(s, e), e.p)
  {
    if e.Go? {
      GoKeepsOthers(s, e.p);
    }
  }

  // Process p holds the lock inside a critical section, and after it only when
  // Unlock failed.
  ghost predicate OwnPart(s: State, p: nat) {
    && (p in s.procs && Critical(s.procs[p]) ==> s.lock == Some(p))
    && (s.lock == Some(p) ==> p in s.procs)
  }

  predicate Detaching(pc: Proc) {
    || pc.DetachStart? || pc.DetachResolve? || pc.DetachLock? || pc.DetachList? || pc.DetachTables?
    || pc.DetachDelete? || pc.DetachUnlock?
  }

  lemma DetachGoKeepsOwn(s: State, p: nat)
    requires Enabled(s, Go(p)) && OwnPart(s, p) && Detaching(s.procs[p])
    ensures OwnPart(Advance(s, p), p)
    ensures HeldInside(s) ==> HeldInside(Advance(s, p))
  {
  }

  lemma AttachGoKeepsOwn(s: State, p: nat)
    requires Enabled(s, Go(p)) && OwnPart(s, p) && !Detaching(s.procs[p])
    ensures OwnPart(Advance(s, p), p)
    ensures HeldInside(s) ==> HeldInside(Advance(s, p))
  {
  }

  lemma GoKeepsOwn(s: State, p: nat)
    requires Enabled(s, Go(p)) && OwnPart(s, p)
    ensures OwnPart(Advance(s, p), p)
    ensures HeldInside(s) ==> HeldInside(Advance(s, p))
  {
    if Detaching(s.procs[p]) {
      DetachGoKeepsOwn(s, p);
    } else {
      AttachGoKeepsOwn(s, p);
    }
  }

  lemma StepKeepsOwn(s: State, e: Event)
    requires Enabled(s, e) && OwnPart(s, e.p)
    ensures OwnPart(Step(s, e), e.p)
    ensures HeldInside(s) && !e.KeepLock? ==> HeldInside(Step(s, e))
  {
    if e.Go? {
      GoKeepsOwn(s, e.p);
    }
  }

  lemma StepIsExclusive(s: State, e: Event)
    requires Exclusive(s) && Enabled(s, e)
    ensures Exclusive(Step(s, e))
    ensures HeldInside(s) && !e.KeepLock? ==> HeldInside(Step(s, e))
  {
    StepKeepsOthers(s, e);
    StepKeepsOwn(s, e);
  }

  lemma {:induction false} RunIsExclusive(s: State, es: seq<Event>)
    requires Exclusive(s) && IsRun(s, es)
    ensures Exclusive(After(s, es))
    ensures HeldInside(s) && (forall e :: e in es ==> !e.KeepLock?) ==> HeldInside(After(s, es))
    decreases |es|
  {
    if es == [] {
    } else {
      StepIsExclusive(s, es[0]);
      RunIsExclusive(Step(s, es[0]), es[1..]);
      assert forall e :: e in es[1..] ==> e in es;
      assert es[0] in es;
    }
  }

  // Over every run: mutual exclusion, and a lock that is held by nobody once
  // all processes have ended.  When no Unlock fails it is held inside critical
  // sections only.
  lemma LockIsNeverLeftBehind(s: State, es: seq<Event>, p: nat, q: nat)
    requires Init(s) && IsRun(s, es)
    ensures var t := After(s, es);
            && (p in t.procs && q in t.procs && Critical(t.procs[p]) && Critical(t.procs[q]) ==> p == q)
            && (t.procs == map[] ==> t.lock == None)
            && ((forall e :: e in es ==> !e.KeepLock?) && t.lock == Some(p) ==> p in t.procs && Critical(t.procs[p]))
  {
    RunIsExclusive(s, es);
  }
}
