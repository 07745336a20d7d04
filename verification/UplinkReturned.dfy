/**
 Safety as the caller of AttachRepresentor sees it: once the call has returned
 nil, the uplink has the VLANs of the representor for as long as it stays on the
 bridge and no new attach is started for it, whether or not its process still runs.
 */
module UplinkReturned {
  import opened UplinkMachine
  import opened UplinkSafety

  // A process that may still put its representor on the bridge.
  predicate Attaching(pc: Proc) {
    || pc.AttachStart? || pc.AttachDefault? || pc.AttachTrunk? || pc.AttachPvid?
    || pc.AttachResolve? || pc.AttachLock? || pc.AttachUplink?
  }

  // The representor of c is there by the attach of c, or not at all.
  ghost predicate Settled(s: State, c: Conf) {
    && (c.rep in s.master ==> c.rep in s.completed && s.completed[c.rep] == c)
    && (forall p :: p in s.procs && s.procs[p].c.rep == c.rep ==> !Attaching(s.procs[p]))
  }

  predicate NoNewAttach(es: seq<Event>, rep: int) {
    forall e :: e in es && e.StartAttach? ==> e.c.rep != rep
  }

  // What a call of another lifecycle's process leaves alone.
  lemma GoOfAnother(s: State, p: nat, rep: int)
    requires Enabled(s, Go(p)) && s.procs[p].c.rep != rep
    ensures var s2 := Advance(s, p);
            && (rep in s2.master <==> rep in s.master)
            && (rep in s2.completed <==> rep in s.completed)
            && (rep in s.completed ==> s2.completed[rep] == s.completed[rep])
            && p in s2.procs && s2.procs == s.procs[p := s2.procs[p]] && s2.procs[p].c == s.procs[p].c
  {
  }

  // A process that is past its attach does not put the representor on the bridge.
  lemma GoOfItsOwn(s: State, p: nat)
    requires Enabled(s, Go(p)) && !Attaching(s.procs[p])
    ensures var s2, rep := Advance(s, p), s.procs[p].c.rep;
            && (rep in s2.master ==> rep in s.master && s2.completed == s.completed)
            && p in s2.procs && s2.procs == s.procs[p := s2.procs[p]] && !Attaching(s2.procs[p])
            && s2.procs[p].c == s.procs[p].c
  {
  }

  lemma GoKeepsSettled(s: State, p: nat, c: Conf)
    requires Settled(s, c) && Enabled(s, Go(p))
    ensures Settled(Advance(s, p), c)
  {
    if s.procs[p].c.rep == c.rep {
      GoOfItsOwn(s, p);
    } else {
      GoOfAnother(s, p, c.rep);
    }
  }

  lemma StepKeepsSettled(s: State, e: Event, c: Conf)
    requires Settled(s, c) && Enabled(s, e) && NoNewAttach([e], c.rep)
    ensures Settled(Step(s, e), c)
  {
    assert e in [e];
    if e.Go? {
      GoKeepsSettled(s, e.p, c);
    }
  }

  lemma {:induction false} RunKeepsSettled(s: State, es: seq<Event>, c: Conf)
    requires Settled(s, c) && IsRun(s, es) && NoNewAttach(es, c.rep)
    ensures Settled(After(s, es), c)
    decreases |es|
  {
    if es == [] {
    } else {
      assert es[0] in es && forall e :: e in es[1..] ==> e in es;
      StepKeepsSettled(s, es[0], c);
      RunKeepsSettled(Step(s, es[0]), es[1..], c);
    }
  }

  // `before` leads to the return of an attach, `after` is whatever follows.
  lemma ReturnedAttachIsSafe(s: State, before: seq<Event>, p: nat, after: seq<Event>)
    requires Init(s) && IsRun(s, before) && ListsSucceed(before)
    requires var t := After(s, before);
             && p in t.procs && t.procs[p].AttachDone? && t.procs[p].c.setUplink
             && IsRun(t, after) && ListsSucceed(after) && NoNewAttach(after, t.procs[p].c.rep)
    ensures var c, u := After(s, before).procs[p].c, After(After(s, before), after);
            c.rep in u.master ==> Served(u, c)
  {
    RunKeepsInv(s, before);
    var t := After(s, before);
    assert ProcInv(t, p);
    RunKeepsInv(t, after);
    RunKeepsSettled(t, after, t.procs[p].c);
    var u := After(t, after);
    assert forall r :: r in u.completed ==> CompletedInv(u, r);
  }
}
