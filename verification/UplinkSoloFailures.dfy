/**
 A process that runs alone and in which any calls fail: what it can have done to
 the VLAN tables when it ends.
 */
module UplinkSoloFailures {
  import opened UplinkMachine
  import opened UplinkSafety
  import opened UplinkSolo

  // A call of process p, successful or not; of BridgeVlanList only successful.
  predicate CallOf(e: Event, p: nat) {
    e.p == p && (e.Go? || e.Fail? || e.Miss? || e.KeepLock?)
  }

  predicate CallsOf(es: seq<Event>, p: nat) {
    forall e :: e in es ==> CallOf(e, p)
  }

  // Masters and tables other than those of representor and uplink are as in s.
  ghost predicate OwnPartOnly(s: State, t: State, p: nat, c: Conf) {
    && p in t.procs && t.procs[p].c == c
    && (forall q :: q != c.rep ==> (q in t.master <==> q in s.master))
    && (forall q :: q != c.rep && q in s.master ==> t.master[q] == s.master[q])
    && (forall q :: q != c.rep && q != c.uplink ==> Table(t, q) == Table(s, q))
  }

  // No failing call is that of an undo.
  predicate UndoGoesThrough(s: State, es: seq<Event>, p: nat)
    requires IsRun(s, es)
    decreases |es|
  {
    es == [] || (!UndoFails(s, es[0], p) && UndoGoesThrough(Step(s, es[0]), es[1..], p))
  }

  predicate UndoFails(s: State, e: Event, p: nat) {
    e == Fail(p) && p in s.procs && s.procs[p].AttachUndo?
  }

  // The port table while the trunk is being added, i of its VLANs done.
  function PortSoFar(c: Conf, i: nat): set<int>
    requires i <= |c.trunk|
  {
    (if c.vlan > 1 || |c.trunk| > 0 then {} else {1}) + AsSet(c.trunk[..i])
  }

  // The representor is on the bridge with its complete table.
  predicate PortComplete(t: State, c: Conf) {
    c.rep in t.master && t.master[c.rep] == c.bridge && Table(t, c.rep) == PortVids(c)
  }

  // An attach on its way.  The uplink has gained configured VLANs at most, and only
  // when it is to have them.  What is on the port, and in the end on the uplink, the
  // place of the process tells; where it is finished the representor is off the bridge.
  ghost predicate AttachPath(s: State, t: State, p: nat, c: Conf) {
    && OwnPartOnly(s, t, p, c)
    && Table(s, c.uplink) <= Table(t, c.uplink) <= Table(s, c.uplink) + AsSet(c.Vlans())
    && (!c.setUplink ==> Table(t, c.uplink) == Table(s, c.uplink))
    && (c.rep !in t.master ==> Table(t, c.rep) == {})
    && AttachStands(t, t.procs[p], c)
  }

  ghost predicate AttachStands(t: State, pc: Proc, c: Conf) {
    match pc
    case AttachStart(_) => c.rep !in t.master
    case AttachDefault(_) => c.rep in t.master && t.master[c.rep] == c.bridge && Table(t, c.rep) == {1}
    case AttachTrunk(_, i) =>
      c.rep in t.master && t.master[c.rep] == c.bridge && i <= |c.trunk| && Table(t, c.rep) == PortSoFar(c, i)
    case AttachPvid(_) =>
      c.rep in t.master && t.master[c.rep] == c.bridge && Table(t, c.rep) == PortSoFar(c, |c.trunk|)
    case AttachResolve(_) => PortComplete(t, c) && c.setUplink
    case AttachLock(_, _) => PortComplete(t, c) && c.setUplink
    case AttachUplink(_, _, i) =>
      PortComplete(t, c) && c.setUplink && i <= |c.Vlans()| && AsSet(c.Vlans()[..i]) <= Table(t, c.uplink)
    case AttachUnlock(_, ok) =>
      PortComplete(t, c) && c.setUplink && (ok ==> AsSet(c.Vlans()) <= Table(t, c.uplink))
    case AttachUndo(_) => true
    case AttachDone(_) => PortComplete(t, c) && (c.setUplink ==> AsSet(c.Vlans()) <= Table(t, c.uplink))
    case Finished(_) => c.rep !in t.master
    case _ => false
  }

  lemma AsSetOneMore(vs: seq<int>, i: nat)
    requires i < |vs|
    ensures AsSet(vs[..i + 1]) == AsSet(vs[..i]) + {vs[i]}
  {
    assert vs[..i + 1] == vs[..i] + [vs[i]];
  }

  lemma JoinGoOnPath(s: State, t: State, p: nat, c: Conf)
    requires AttachPath(s, t, p, c) && c.rep != c.uplink && Enabled(t, Go(p))
    requires t.procs[p].AttachStart? || t.procs[p].AttachDefault?
    ensures AttachPath(s, Advance(t, p), p, c)
  {
    assert c.trunk[..0] == [];
  }

  lemma TrunkGoOnPath(s: State, t: State, p: nat, c: Conf)
    requires AttachPath(s, t, p, c) && c.rep != c.uplink && Enabled(t, Go(p)) && t.procs[p].AttachTrunk?
    ensures AttachPath(s, Advance(t, p), p, c)
  {
    var i := t.procs[p].i;
    if i < |c.trunk| {
      AsSetOneMore(c.trunk, i);
      assert PortSoFar(c, i) + {c.trunk[i]} == PortSoFar(c, i + 1);
    }
  }

  lemma PvidGoOnPath(s: State, t: State, p: nat, c: Conf)
    requires AttachPath(s, t, p, c) && c.rep != c.uplink && Enabled(t, Go(p)) && t.procs[p].AttachPvid?
    ensures AttachPath(s, Advance(t, p), p, c)
  {
    var t2 := Advance(t, p);
    PortVidsInSteps(c);
    assert c.trunk[..|c.trunk|] == c.trunk;
    assert forall q :: q != c.rep ==> Table(t2, q) == Table(t, q);
    assert Table(t2, c.rep) == PortVids(c);
  }

  lemma UplinkAddOnPath(s: State, t: State, p: nat, c: Conf)
    requires AttachPath(s, t, p, c) && c.rep != c.uplink && t.procs[p].AttachUplink? && t.procs[p].i < |c.Vlans()|
    ensures AttachPath(s, Advance(t, p), p, c)
  {
    var i, t2 := t.procs[p].i, Advance(t, p);
    assert c.Vlans()[i] in c.Vlans();
    AsSetOneMore(c.Vlans(), i);
    assert forall q :: q != c.uplink ==> Table(t2, q) == Table(t, q);
    assert Table(t2, c.uplink) == Table(t, c.uplink) + {c.Vlans()[i]};
  }

  lemma UplinkDoneOnPath(s: State, t: State, p: nat, c: Conf)
    requires AttachPath(s, t, p, c) && c.rep != c.uplink && t.procs[p].AttachUplink? && t.procs[p].i >= |c.Vlans()|
    ensures AttachPath(s, Advance(t, p), p, c)
  {
    assert c.Vlans()[..t.procs[p].i] == c.Vlans();
  }

  lemma LockGoOnPath(s: State, t: State, p: nat, c: Conf)
    requires AttachPath(s, t, p, c) && c.rep != c.uplink && Enabled(t, Go(p))
    requires t.procs[p].AttachResolve? || t.procs[p].AttachLock?
    ensures AttachPath(s, Advance(t, p), p, c)
  {
    assert c.Vlans()[..0] == [];
  }

  lemma UnlockGoOnPath(s: State, t: State, p: nat, c: Conf)
    requires AttachPath(s, t, p, c) && c.rep != c.uplink && Enabled(t, Go(p))
    requires t.procs[p].AttachUnlock? || t.procs[p].AttachUndo?
    ensures AttachPath(s, Advance(t, p), p, c)
  {
  }

  lemma FailureOnPath(s: State, t: State, p: nat, c: Conf)
    requires AttachPath(s, t, p, c) && Enabled(t, Fail(p)) && !t.procs[p].AttachUndo?
    ensures AttachPath(s, At(t, p, AfterFailure(t.procs[p])), p, c)
  {
  }

  lemma MissOnPath(s: State, t: State, e: Event, p: nat, c: Conf)
    requires AttachPath(s, t, p, c) && Enabled(t, e) && CallOf(e, p) && (e.Miss? || e.KeepLock?)
    ensures AttachPath(s, Step(t, e), p, c)
  {
  }

  lemma GoOnPath(s: State, t: State, p: nat, c: Conf)
    requires AttachPath(s, t, p, c) && c.rep != c.uplink && Enabled(t, Go(p))
    ensures AttachPath(s, Advance(t, p), p, c)
  {
    match t.procs[p]
    case AttachStart(_) => JoinGoOnPath(s, t, p, c);
    case AttachDefault(_) => JoinGoOnPath(s, t, p, c);
    case AttachTrunk(_, _) => TrunkGoOnPath(s, t, p, c);
    case AttachPvid(_) => PvidGoOnPath(s, t, p, c);
    case AttachUplink(_, _, i) =>
      if i < |c.Vlans()| {
        UplinkAddOnPath(s, t, p, c);
      } else {
        UplinkDoneOnPath(s, t, p, c);
      }
    case AttachUnlock(_, _) => UnlockGoOnPath(s, t, p, c);
    case AttachUndo(_) => UnlockGoOnPath(s, t, p, c);
    case _ => LockGoOnPath(s, t, p, c);
  }

  lemma CallOnPath(s: State, t: State, e: Event, p: nat, c: Conf)
    requires AttachPath(s, t, p, c) && c.rep != c.uplink && Enabled(t, e) && CallOf(e, p) && !UndoFails(t, e, p)
    ensures AttachPath(s, Step(t, e), p, c)
  {
    if e.Go? {
      GoOnPath(s, t, p, c);
    } else if e.Fail? {
      FailureOnPath(s, t, p, c);
    } else {
      MissOnPath(s, t, e, p, c);
    }
  }

  lemma {:induction false} RunOnPath(s: State, t: State, es: seq<Event>, p: nat, c: Conf)
    requires AttachPath(s, t, p, c) && c.rep != c.uplink && IsRun(t, es) && CallsOf(es, p) && UndoGoesThrough(t, es, p)
    ensures AttachPath(s, After(t, es), p, c)
    decreases |es|
  {
    if es == [] {
    } else {
      assert es[0] in es && forall e :: e in es[1..] ==> e in es;
      CallOnPath(s, t, es[0], p, c);
      RunOnPath(s, Step(t, es[0]), es[1..], p, c);
    }
  }

  // Before the first event of an attach.
  ghost predicate AboutToAttach(s: State, p: nat) {
    && p in s.procs && s.procs[p].AttachStart?
    && var c := s.procs[p].c;
       c.rep != c.uplink && c.rep !in s.master && Table(s, c.rep) == {}
  }

  // However calls have failed, the undo not among them: an attach that returned nil
  // has done all it should, and one that failed has taken the representor off the
  // bridge and left configured VLANs on the uplink at most.
  lemma AttachFailsAlone(s: State, es: seq<Event>, p: nat)
    requires AboutToAttach(s, p) && IsRun(s, es) && CallsOf(es, p) && UndoGoesThrough(s, es, p)
    ensures var c, t := s.procs[p].c, After(s, es);
            && OwnPartOnly(s, t, p, c)
            && Table(s, c.uplink) <= Table(t, c.uplink) <= Table(s, c.uplink) + AsSet(c.Vlans())
            && (t.procs[p].Finished? ==> c.rep !in t.master && Table(t, c.rep) == {})
            && (t.procs[p].AttachDone? ==>
                  && c.rep in t.master && t.master[c.rep] == c.bridge && Table(t, c.rep) == PortVids(c)
                  && Table(t, c.uplink)
                     == if c.setUplink then Table(s, c.uplink) + AsSet(c.Vlans()) else Table(s, c.uplink))
  {
    RunOnPath(s, s, es, p, s.procs[p].c);
  }

  predicate IsAttach(pc: Proc) {
    !pc.DetachStart? && !pc.DetachResolve? && !pc.DetachLock? && !pc.DetachList? && !pc.DetachTables?
    && !pc.DetachDelete? && !pc.DetachUnlock?
  }

  // An attach on its way to returning an error.
  predicate GivesUp(pc: Proc) {
    (pc.AttachUnlock? && !pc.ok) || pc.AttachUndo? || pc.Finished?
  }

  lemma SuccessDoesNotGiveUp(s: State, p: nat)
    requires p in s.procs && IsAttach(s.procs[p]) && Enabled(s, Go(p))
    ensures var t := Advance(s, p);
            p in t.procs && IsAttach(t.procs[p]) && (GivesUp(t.procs[p]) <==> GivesUp(s.procs[p]))
  {
    match s.procs[p]
    case AttachStart(_) =>
    case AttachDefault(_) =>
    case AttachTrunk(_, _) =>
    case AttachPvid(_) =>
    case AttachResolve(_) =>
    case AttachLock(_, _) =>
    case AttachUplink(_, _, _) =>
    case AttachUnlock(_, _) =>
    case _ =>
  }

  lemma FailureGivesUp(s: State, p: nat)
    requires p in s.procs && IsAttach(s.procs[p]) && Enabled(s, Fail(p))
    ensures var pc := AfterFailure(s.procs[p]); IsAttach(pc) && GivesUp(pc)
  {
  }

  lemma CallGivesUpIffItFails(s: State, e: Event, p: nat)
    requires p in s.procs && IsAttach(s.procs[p]) && Enabled(s, e) && CallOf(e, p)
    ensures var t := Step(s, e);
            p in t.procs && IsAttach(t.procs[p]) && (GivesUp(t.procs[p]) <==> GivesUp(s.procs[p]) || e == Fail(p))
  {
    if e.Go? {
      SuccessDoesNotGiveUp(s, p);
    } else if e.Fail? {
      FailureGivesUp(s, p);
    }
  }

  // The bond aside, no failing call goes unnoticed, and nothing else makes an attach fail.
  lemma {:induction false} GivesUpIffACallFails(s: State, es: seq<Event>, p: nat)
    requires p in s.procs && IsAttach(s.procs[p]) && IsRun(s, es) && CallsOf(es, p)
    ensures var t := After(s, es);
            p in t.procs && IsAttach(t.procs[p]) && (GivesUp(t.procs[p]) <==> GivesUp(s.procs[p]) || Fail(p) in es)
    decreases |es|
  {
    if es == [] {
    } else {
      assert es[0] in es && forall e :: e in es[1..] ==> e in es;
      assert es == [es[0]] + es[1..];
      CallGivesUpIffItFails(s, es[0], p);
      GivesUpIffACallFails(Step(s, es[0]), es[1..], p);
    }
  }

  // A detach on its way: before the representor is off the bridge nothing has
  // changed, and after it the uplink has lost only VLANs no other port carries.
  ghost predicate DetachPath(s: State, t: State, p: nat, c: Conf)
    requires c.uplink in s.master && c.rep != c.uplink
  {
    && OwnPartOnly(s, t, p, c)
    && (if c.rep in t.master then t.master == s.master && t.vlans == s.vlans
        else
          && Table(t, c.rep) == {}
          && Table(s, c.uplink) - NotCarried(s, c) <= Table(t, c.uplink) <= Table(s, c.uplink))
    && (match t.procs[p]
        case DetachStart(_) => t.master == s.master && t.vlans == s.vlans
        case DetachResolve(_) => c.setUplink && c.rep !in t.master
        case DetachLock(_, _) => c.setUplink && c.rep !in t.master
        case DetachList(_, _) => c.setUplink && c.rep !in t.master
        case DetachTables(_, found, brif) => c.setUplink && c.rep !in t.master && (found ==> brif == Ports(t, c, true))
        case DetachDelete(_, found, del) =>
          c.setUplink && c.rep !in t.master && (found ==> AsSet(del) <= NotCarried(s, c))
        case DetachUnlock(_) => c.setUplink && c.rep !in t.master
        case Finished(_) => !c.setUplink ==> Table(t, c.uplink) == Table(s, c.uplink)
        case _ => false)
  }

  lemma LeaveGoOnPath(s: State, t: State, p: nat, c: Conf)
    requires c.uplink in s.master && c.rep != c.uplink && DetachPath(s, t, p, c)
    requires Enabled(t, Go(p)) && t.procs[p].DetachStart?
    ensures DetachPath(s, Advance(t, p), p, c)
  {
  }

  lemma CarrierOnPath(s: State, t: State, p: nat, c: Conf, v: int)
    requires c.uplink in s.master && OwnPartOnly(s, t, p, c) && c.rep != c.uplink && OtherCarries(s, c, v)
    ensures c.uplink in t.master && OtherCarries(t, c, v)
  {
    var q :| q in s.master && q != c.rep && q != c.uplink && s.master[q] == s.master[c.uplink] && v in Table(s, q);
    assert q in t.master && v in Table(t, q);
  }

  // What the snapshots find unused, no port carries that was there at the start.
  lemma UnusedOnPath(s: State, t: State, p: nat, c: Conf)
    requires c.uplink in s.master && OwnPartOnly(s, t, p, c) && c.rep != c.uplink && c.rep !in t.master
    ensures c.uplink in t.master && AsSet(Unused(t, Ports(t, c, true), c.Vlans())) <= NotCarried(s, c)
  {
    UnusedIsNotCarried(t, t, c);
    forall v | OtherCarries(s, c, v) ensures OtherCarries(t, c, v) {
      CarrierOnPath(s, t, p, c, v);
    }
  }

  lemma TablesGoOnPath(s: State, t: State, p: nat, c: Conf)
    requires c.uplink in s.master && c.rep != c.uplink && DetachPath(s, t, p, c)
    requires Enabled(t, Go(p)) && t.procs[p].DetachTables?
    ensures DetachPath(s, Advance(t, p), p, c)
  {
    UnusedOnPath(s, t, p, c);
  }

  lemma DeleteGoOnPath(s: State, t: State, p: nat, c: Conf)
    requires c.uplink in s.master && c.rep != c.uplink && DetachPath(s, t, p, c)
    requires Enabled(t, Go(p)) && t.procs[p].DetachDelete?
    ensures DetachPath(s, Advance(t, p), p, c)
  {
    var del := t.procs[p].del;
    if del != [] {
      assert del[0] in AsSet(del) && AsSet(del[1..]) <= AsSet(del);
    }
  }

  lemma OtherDetachGoOnPath(s: State, t: State, p: nat, c: Conf)
    requires c.uplink in s.master && c.rep != c.uplink && DetachPath(s, t, p, c) && Enabled(t, Go(p))
    requires t.procs[p].DetachResolve? || t.procs[p].DetachLock? || t.procs[p].DetachList? || t.procs[p].DetachUnlock?
    ensures DetachPath(s, Advance(t, p), p, c)
  {
  }

  lemma DetachFailureOnPath(s: State, t: State, e: Event, p: nat, c: Conf)
    requires c.uplink in s.master && c.rep != c.uplink && DetachPath(s, t, p, c)
    requires Enabled(t, e) && CallOf(e, p) && !e.Go?
    ensures DetachPath(s, Step(t, e), p, c)
  {
  }

  lemma DetachCallOnPath(s: State, t: State, e: Event, p: nat, c: Conf)
    requires c.uplink in s.master && c.rep != c.uplink && DetachPath(s, t, p, c) && Enabled(t, e) && CallOf(e, p)
    ensures DetachPath(s, Step(t, e), p, c)
  {
    if !e.Go? {
      DetachFailureOnPath(s, t, e, p, c);
    } else {
      match t.procs[p]
      case DetachStart(_) => LeaveGoOnPath(s, t, p, c);
      case DetachTables(_, _, _) => TablesGoOnPath(s, t, p, c);
      case DetachDelete(_, _, _) => DeleteGoOnPath(s, t, p, c);
      case _ => OtherDetachGoOnPath(s, t, p, c);
    }
  }

  lemma {:induction false} DetachRunOnPath(s: State, t: State, es: seq<Event>, p: nat, c: Conf)
    requires c.uplink in s.master && c.rep != c.uplink && DetachPath(s, t, p, c) && IsRun(t, es) && CallsOf(es, p)
    ensures DetachPath(s, After(t, es), p, c)
    decreases |es|
  {
    if es == [] {
    } else {
      assert es[0] in es && forall e :: e in es[1..] ==> e in es;
      DetachCallOnPath(s, t, es[0], p, c);
      DetachRunOnPath(s, Step(t, es[0]), es[1..], p, c);
    }
  }

  // A detach that has ended, wherever it failed.
  lemma DetachFailsAlone(s: State, es: seq<Event>, p: nat)
    requires p in s.procs && s.procs[p].DetachStart? && IsRun(s, es) && CallsOf(es, p)
    requires var c := s.procs[p].c;
             c.rep != c.uplink && c.uplink in s.master && (c.rep !in s.master ==> Table(s, c.rep) == {})
    requires p in After(s, es).procs && After(s, es).procs[p].Finished?
    ensures var c, t := s.procs[p].c, After(s, es);
            && OwnPartOnly(s, t, p, c)
            && (if c.rep in t.master then t.master == s.master && t.vlans == s.vlans
                else
                  && Table(t, c.rep) == {}
                  && Table(s, c.uplink) - NotCarried(s, c) <= Table(t, c.uplink) <= Table(s, c.uplink)
                  && (!c.setUplink ==> Table(t, c.uplink) == Table(s, c.uplink)))
  {
    DetachRunOnPath(s, s, es, p, s.procs[p].c);
  }
}
