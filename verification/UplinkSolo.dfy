/**
 A process that runs alone and whose calls all succeed: what a whole attach and a
 whole detach do to masters, VLAN tables and lock.
 */
module UplinkSolo {
  import opened Wrappers
  import opened UplinkMachine
  import opened UplinkSafety

  // Process p, moving alone and without failures, gets from s to t.
  ghost predicate Reaches(s: State, p: nat, t: State) {
    exists n: nat :: ReachesIn(s, p, t, n)
  }

  ghost predicate ReachesIn(s: State, p: nat, t: State, n: nat) {
    IsRun(s, Repeat(Go(p), n)) && After(s, Repeat(Go(p), n)) == t
  }

  lemma ReachesItself(s: State, p: nat)
    ensures Reaches(s, p, s)
  {
    assert ReachesIn(s, p, s, 0);
  }

  // One more step in front.
  lemma ReachesFromBefore(s: State, p: nat, t: State)
    requires Enabled(s, Go(p)) && Reaches(Advance(s, p), p, t)
    ensures Reaches(s, p, t)
  {
    var n: nat :| ReachesIn(Advance(s, p), p, t, n);
    assert Repeat(Go(p), n + 1)[1..] == Repeat(Go(p), n);
    assert ReachesIn(s, p, t, n + 1);
  }

  lemma {:induction false} ReachesOn(s: State, p: nat, t: State, u: State, n: nat)
    requires ReachesIn(s, p, t, n) && Reaches(t, p, u)
    ensures Reaches(s, p, u)
    decreases n
  {
    if n == 0 {
    } else {
      assert Repeat(Go(p), n)[1..] == Repeat(Go(p), n - 1);
      assert ReachesIn(Advance(s, p), p, t, n - 1);
      ReachesOn(Advance(s, p), p, t, u, n - 1);
      ReachesFromBefore(s, p, u);
    }
  }

  lemma ReachesThrough(s: State, p: nat, t: State, u: State)
    requires Reaches(s, p, t) && Reaches(t, p, u)
    ensures Reaches(s, p, u)
  {
    var n: nat :| ReachesIn(s, p, t, n);
    ReachesOn(s, p, t, u, n);
  }

  lemma AsSetFrom(vs: seq<int>, i: nat)
    requires i < |vs|
    ensures AsSet(vs[i..]) == {vs[i]} + AsSet(vs[i + 1..])
  {
    assert vs[i..] == [vs[i]] + vs[i + 1..];
  }

  // One VLAN more in a table, and then some others.
  lemma AddThenStep(s: State, s1: State, t: State, p: nat, pc: Proc, port: int, v: int, rest: set<int>)
    requires p in s1.procs && s1 == At(SetTable(s, port, Table(s, port) + {v}), p, s1.procs[p])
    requires TableStep(s1, t, p, pc, port, Table(s, port) + {v} + rest)
    ensures TableStep(s, t, p, pc, port, Table(s, port) + ({v} + rest))
  {
    assert s1.procs[p := pc] == s.procs[p := pc];
    assert Table(s, port) + {v} + rest == Table(s, port) + ({v} + rest);
    assert forall q :: q != port ==> Table(s1, q) == Table(s, q);
  }

  lemma TrunkStep(s: State, p: nat) returns (t: State)
    requires p in s.procs && s.procs[p].AttachTrunk? && s.procs[p].i < |s.procs[p].c.trunk|
    ensures var c, i := s.procs[p].c, s.procs[p].i;
            Reaches(s, p, t) && t == At(SetTable(s, c.rep, Table(s, c.rep) + {c.trunk[i]}), p, AttachTrunk(c, i + 1))
  {
    t := Advance(s, p);
    ReachesItself(t, p);
    ReachesFromBefore(s, p, t);
  }

  lemma {:induction false} TrunkAlone(s: State, p: nat) returns (t: State)
    requires p in s.procs && s.procs[p].AttachTrunk? && s.procs[p].i <= |s.procs[p].c.trunk|
    ensures var c := s.procs[p].c;
            Reaches(s, p, t)
            && TableStep(s, t, p, AttachTrunk(c, |c.trunk|), c.rep, Table(s, c.rep) + AsSet(c.trunk[s.procs[p].i..]))
    decreases |s.procs[p].c.trunk| - s.procs[p].i
  {
    var c, i := s.procs[p].c, s.procs[p].i;
    if i < |c.trunk| {
      var next := TrunkStep(s, p);
      t := TrunkAlone(next, p);
      AsSetFrom(c.trunk, i);
      AddThenStep(s, next, t, p, AttachTrunk(c, |c.trunk|), c.rep, c.trunk[i], AsSet(c.trunk[i + 1..]));
      ReachesThrough(s, p, next, t);
    } else {
      t := s;
      ReachesItself(t, p);
    }
  }

  lemma AddStep(s: State, p: nat) returns (t: State)
    requires p in s.procs && s.procs[p].AttachUplink? && s.procs[p].found && s.procs[p].i < |s.procs[p].c.Vlans()|
    ensures var c, i := s.procs[p].c, s.procs[p].i;
            Reaches(s, p, t)
            && t == At(SetTable(s, c.uplink, Table(s, c.uplink) + {c.Vlans()[i]}), p, AttachUplink(c, true, i + 1))
  {
    t := Advance(s, p);
    ReachesItself(t, p);
    ReachesFromBefore(s, p, t);
  }

  lemma {:induction false} AddsAlone(s: State, p: nat) returns (t: State)
    requires p in s.procs && s.procs[p].AttachUplink? && s.procs[p].found && s.procs[p].i <= |s.procs[p].c.Vlans()|
    ensures var c := s.procs[p].c;
            Reaches(s, p, t)
            && TableStep(s, t, p, AttachUplink(c, true, |c.Vlans()|), c.uplink,
                         Table(s, c.uplink) + AsSet(c.Vlans()[s.procs[p].i..]))
    decreases |s.procs[p].c.Vlans()| - s.procs[p].i
  {
    var c, i, vs := s.procs[p].c, s.procs[p].i, s.procs[p].c.Vlans();
    if i < |vs| {
      var next := AddStep(s, p);
      t := AddsAlone(next, p);
      AsSetFrom(vs, i);
      AddThenStep(s, next, t, p, AttachUplink(c, true, |vs|), c.uplink, vs[i], AsSet(vs[i + 1..]));
      ReachesThrough(s, p, next, t);
    } else {
      t := s;
      ReachesItself(t, p);
    }
  }

  // The VLANs of a freshly attached port.
  function PortVids(c: Conf): set<int> {
    if c.trunk == [] && c.vlan <= 0 then {1} else AsSet(c.Vlans())
  }

  // From AttachStart to the first trunk VLAN.
  lemma JoinAlone(s: State, p: nat) returns (t: State)
    requires p in s.procs && s.procs[p].AttachStart? && s.procs[p].c.rep !in s.master
    ensures var c := s.procs[p].c;
            && Reaches(s, p, t)
            && t == s.(procs := s.procs[p := AttachTrunk(c, 0)], master := s.master[c.rep := c.bridge],
                 vlans := t.vlans)
            && Table(t, c.rep) == (if c.vlan > 1 || |c.trunk| > 0 then {} else {1})
            && forall q :: q != c.rep ==> Table(t, q) == Table(s, q)
  {
    var s1 := Advance(s, p);
    t := Advance(s1, p);
    ReachesItself(t, p);
    ReachesFromBefore(s1, p, t);
    ReachesFromBefore(s, p, t);
  }

  // The port VLAN, once the trunk is complete.
  lemma PvidAlone(s: State, p: nat) returns (t: State)
    requires p in s.procs && s.procs[p].AttachTrunk? && s.procs[p].i == |s.procs[p].c.trunk|
    ensures var c := s.procs[p].c;
            Reaches(s, p, t)
            && TableStep(s, t, p, if c.setUplink then AttachResolve(c) else AttachDone(c), c.rep,
                         Table(s, c.rep) + if c.vlan > 0 then {c.vlan} else {})
  {
    var s1 := Advance(s, p);
    t := Advance(s1, p);
    ReachesItself(t, p);
    ReachesFromBefore(s1, p, t);
    ReachesFromBefore(s, p, t);
  }

  lemma PortVidsInSteps(c: Conf)
    ensures var start: set<int> := if c.vlan > 1 || |c.trunk| > 0 then {} else {1};
            start + AsSet(c.trunk) + (if c.vlan > 0 then {c.vlan} else {}) == PortVids(c)
  {
    assert c.trunk == [] ==> AsSet(c.trunk) == {};
    assert AsSet(c.Vlans()) == AsSet(c.trunk) + if c.vlan > 0 then {c.vlan} else {};
  }

  // From AttachStart to the complete port table.
  lemma PortAlone(s: State, p: nat) returns (t: State)
    requires p in s.procs && s.procs[p].AttachStart? && s.procs[p].c.rep !in s.master
    ensures var c := s.procs[p].c;
            && Reaches(s, p, t)
            && t == s.(procs := s.procs[p := if c.setUplink then AttachResolve(c) else AttachDone(c)],
                       master := s.master[c.rep := c.bridge], vlans := t.vlans)
            && Table(t, c.rep) == PortVids(c)
            && forall q :: q != c.rep ==> Table(t, q) == Table(s, q)
  {
    var c := s.procs[p].c;
    var s2 := JoinAlone(s, p);
    var s3 := TrunkAlone(s2, p);
    t := PvidAlone(s3, p);
    PortVidsInSteps(c);
    assert c.trunk[0..] == c.trunk;
    ReachesThrough(s2, p, s3, t);
    ReachesThrough(s, p, s2, t);
  }

  lemma LockAlone(s: State, p: nat) returns (t: State)
    requires p in s.procs && s.procs[p].AttachResolve? && LockFree(s, p)
    ensures Reaches(s, p, t) && t == s.(procs := s.procs[p := AttachUplink(s.procs[p].c, true, 0)], lock := Some(p))
  {
    var s1 := Advance(s, p);
    t := Advance(s1, p);
    ReachesItself(t, p);
    ReachesFromBefore(s1, p, t);
    ReachesFromBefore(s, p, t);
  }

  lemma UnlockAlone(s: State, p: nat) returns (t: State)
    requires p in s.procs && s.procs[p].AttachUplink? && s.procs[p].i == |s.procs[p].c.Vlans()| && s.lock == Some(p)
    ensures var c := s.procs[p].c;
            Reaches(s, p, t)
            && t == s.(procs := s.procs[p := AttachDone(c)], lock := None, completed := s.completed[c.rep := c])
  {
    var s1 := Advance(s, p);
    t := Advance(s1, p);
    ReachesItself(t, p);
    ReachesFromBefore(s1, p, t);
    ReachesFromBefore(s, p, t);
  }

  // From the complete port table to the end of an attach that sets the uplink.
  lemma ExtendAlone(s: State, p: nat) returns (t: State)
    requires p in s.procs && s.procs[p].AttachResolve? && LockFree(s, p)
    ensures var c := s.procs[p].c;
            && Reaches(s, p, t)
            && t == s.(procs := s.procs[p := AttachDone(c)], vlans := t.vlans, lock := None,
                 completed := s.completed[c.rep := c])
            && Table(t, c.uplink) == Table(s, c.uplink) + AsSet(c.Vlans())
            && forall q :: q != c.uplink ==> Table(t, q) == Table(s, q)
  {
    var c := s.procs[p].c;
    var s2 := LockAlone(s, p);
    var s3 := AddsAlone(s2, p);
    t := UnlockAlone(s3, p);
    assert c.Vlans()[0..] == c.Vlans();
    assert forall q :: Table(t, q) == Table(s3, q) && Table(s2, q) == Table(s, q);
    ReachesThrough(s2, p, s3, t);
    ReachesThrough(s, p, s2, t);
  }

  // A whole attach.
  lemma AttachAlone(s: State, p: nat) returns (t: State)
    requires p in s.procs && s.procs[p].AttachStart? && s.procs[p].c.rep !in s.master && LockFree(s, p)
    requires s.procs[p].c.rep != s.procs[p].c.uplink
    ensures var c := s.procs[p].c;
            && Reaches(s, p, t)
            && t.procs == s.procs[p := AttachDone(c)]
            && t.master == s.master[c.rep := c.bridge]
            && t.uplinks == s.uplinks
            && t.lock == (if c.setUplink then None else s.lock)
            && t.completed == (if c.setUplink then s.completed[c.rep := c] else s.completed)
            && Table(t, c.rep) == PortVids(c)
            && Table(t, c.uplink) == (if c.setUplink then Table(s, c.uplink) + AsSet(c.Vlans()) else Table(s, c.uplink))
            && forall q :: q != c.rep && q != c.uplink ==> Table(t, q) == Table(s, q)
  {
    var c := s.procs[p].c;
    t := PortAlone(s, p);
    if c.setUplink {
      var u := ExtendAlone(t, p);
      ReachesThrough(s, p, t, u);
      t := u;
    }
  }

  // The end of the deletion loop.
  lemma DeletedAlone(s: State, p: nat) returns (t: State)
    requires p in s.procs && s.procs[p].DetachDelete? && s.procs[p].del == []
    ensures Reaches(s, p, t) && t == s.(procs := s.procs[p := DetachUnlock(s.procs[p].c)])
  {
    t := Advance(s, p);
    ReachesItself(t, p);
    ReachesFromBefore(s, p, t);
  }

  lemma DeleteAlone(s: State, p: nat) returns (t: State)
    requires p in s.procs && s.procs[p].DetachDelete? && s.procs[p].found
    ensures var c := s.procs[p].c;
            && Reaches(s, p, t)
            && TableStep(s, t, p, DetachUnlock(c), c.uplink, Table(s, c.uplink) - AsSet(s.procs[p].del))
  {
    DeletesAll(s, p);
    var deleted := After(s, Repeat(Go(p), |s.procs[p].del|));
    assert ReachesIn(s, p, deleted, |s.procs[p].del|);
    t := DeletedAlone(deleted, p);
    ReachesThrough(s, p, deleted, t);
  }

  // Some port of the bridge other than the uplink carries v once rep is gone.
  ghost predicate OtherCarries(s: State, c: Conf, v: int)
    requires c.uplink in s.master
  {
    exists q :: q in s.master && q != c.rep && q != c.uplink && s.master[q] == s.master[c.uplink] && v in Table(s, q)
  }

  // The configured VLANs that no other port carries.
  ghost function NotCarried(s: State, c: Conf): set<int>
    requires c.uplink in s.master
  {
    set v | v in c.Vlans() && !OtherCarries(s, c, v)
  }

  // The snapshot of the ports finds what other ports carry.
  lemma PortsCarry(s: State, s2: State, c: Conf)
    requires c.uplink in s.master && c.rep !in s.master && s2.vlans == s.vlans
    ensures forall v :: OtherCarries(s, c, v) <==> CarriedBy(s2, Ports(s, c, true), v)
  {
    assert forall q :: Table(s2, q) == Table(s, q);
    forall v ensures OtherCarries(s, c, v) <==> CarriedBy(s2, Ports(s, c, true), v) {
      if OtherCarries(s, c, v) {
        var q :| q in s.master && q != c.rep && q != c.uplink && s.master[q] == s.master[c.uplink] && v in Table(s, q);
        assert q in Ports(s, c, true) && v in Table(s2, q);
      }
      if CarriedBy(s2, Ports(s, c, true), v) {
        var q :| q in Ports(s, c, true) && v in Table(s2, q);
        assert q in s.master && v in Table(s, q);
      }
    }
  }

  // The list of unused VLANs, whichever process and lock changes came between.
  lemma UnusedIsNotCarried(s: State, s2: State, c: Conf)
    requires c.uplink in s.master && c.rep !in s.master && s2.vlans == s.vlans
    ensures AsSet(Unused(s2, Ports(s, c, true), c.Vlans())) == NotCarried(s, c)
  {
    PortsCarry(s, s2, c);
    UnusedIsUncarried(s2, Ports(s, c, true), c.Vlans());
    var unused := Unused(s2, Ports(s, c, true), c.Vlans());
    forall v ensures v in AsSet(unused) <==> v in NotCarried(s, c) {
      assert v in AsSet(unused) <==> v in unused;
    }
  }

  // The link snapshot, taken under the lock.
  lemma ListAlone(s: State, p: nat) returns (t: State)
    requires p in s.procs && s.procs[p].DetachLock? && s.procs[p].found && LockFree(s, p)
             && s.procs[p].c.uplink in s.master
    ensures var c := s.procs[p].c;
            Reaches(s, p, t)
            && t == s.(procs := s.procs[p := DetachTables(c, true, Ports(s, c, true))], lock := Some(p))
  {
    var s1 := Advance(s, p);
    t := Advance(s1, p);
    assert Ports(s1, s.procs[p].c, true) == Ports(s, s.procs[p].c, true);
    ReachesItself(t, p);
    ReachesFromBefore(s1, p, t);
    ReachesFromBefore(s, p, t);
  }

  // From the lock to the list of unused VLANs.
  lemma SnapshotsAlone(s: State, p: nat) returns (t: State)
    requires p in s.procs && s.procs[p].DetachLock? && s.procs[p].found && LockFree(s, p)
             && s.procs[p].c.uplink in s.master
    requires s.procs[p].c.rep !in s.master
    ensures var c := s.procs[p].c;
            && Reaches(s, p, t) && p in t.procs && t.procs[p].DetachDelete?
            && t == s.(procs := s.procs[p := DetachDelete(c, true, t.procs[p].del)], lock := Some(p))
            && AsSet(t.procs[p].del) == NotCarried(s, c)
  {
    var s2 := ListAlone(s, p);
    t := Advance(s2, p);
    UnusedIsNotCarried(s, s2, s.procs[p].c);
    ReachesItself(t, p);
    ReachesFromBefore(s2, p, t);
    ReachesThrough(s, p, s2, t);
  }

  // From the lock to the end of a detach.
  lemma PruneAlone(s: State, p: nat) returns (t: State)
    requires p in s.procs && s.procs[p].DetachLock? && s.procs[p].found && LockFree(s, p)
             && s.procs[p].c.uplink in s.master
    requires s.procs[p].c.rep !in s.master
    ensures var c := s.procs[p].c;
            Reaches(s, p, t)
            && t == s.(procs := s.procs[p := Finished(c)], vlans := t.vlans, lock := None)
            && Table(t, c.uplink) == Table(s, c.uplink) - NotCarried(s, c)
            && forall q :: q != c.uplink ==> Table(t, q) == Table(s, q)
  {
    var s3 := SnapshotsAlone(s, p);
    var s4 := DeleteAlone(s3, p);
    t := Advance(s4, p);
    assert forall q :: Table(t, q) == Table(s4, q) && Table(s3, q) == Table(s, q);
    ReachesItself(t, p);
    ReachesFromBefore(s4, p, t);
    ReachesThrough(s3, p, s4, t);
    ReachesThrough(s, p, s3, t);
  }

  // A whole detach.
  lemma DetachAlone(s: State, p: nat) returns (t: State)
    requires p in s.procs && s.procs[p].DetachStart? && LockFree(s, p) && s.procs[p].c.uplink in s.master
    requires s.procs[p].c.rep != s.procs[p].c.uplink
    ensures var c := s.procs[p].c;
            && Reaches(s, p, t)
            && t.procs == s.procs[p := Finished(c)]
            && t.master == s.master - {c.rep}
            && Table(t, c.rep) == {}
            && Table(t, c.uplink) == (if c.setUplink then Table(s, c.uplink) - NotCarried(s, c)
                                      else Table(s, c.uplink))
            && forall q :: q != c.rep && q != c.uplink ==> Table(t, q) == Table(s, q)
  {
    var c := s.procs[p].c;
    var s1 := Advance(s, p);
    if !c.setUplink {
      t := s1;
      ReachesItself(t, p);
    } else {
      var s2 := Advance(s1, p);
      t := PruneAlone(s2, p);
      assert forall q :: q != c.rep ==> Table(s2, q) == Table(s, q);
      forall v ensures OtherCarries(s2, c, v) <==> OtherCarries(s, c, v) {
      }
      ReachesFromBefore(s1, p, t);
    }
    ReachesFromBefore(s, p, t);
  }
}
