/**
 A run that breaks the safety of the uplink: two representors are attached with
 a VLAN in common, and while one of them is detached BridgeVlanList fails once.
 */
module UplinkListFailure {
  import opened Wrappers
  import opened UplinkMachine
  import opened UplinkSafety
  import opened UplinkSolo

  lemma {:induction false} RunOn(s: State, es: seq<Event>, fs: seq<Event>)
    requires IsRun(s, es) && IsRun(After(s, es), fs)
    ensures IsRun(s, es + fs) && After(s, es + fs) == After(After(s, es), fs)
    decreases |es|
  {
    if es == [] {
      assert es + fs == fs;
    } else {
      RunOn(Step(s, es[0]), es[1..], fs);
      assert (es + fs)[1..] == es[1..] + fs;
    }
  }

  lemma RunOne(s: State, e: Event)
    requires Enabled(s, e)
    ensures IsRun(s, [e]) && After(s, [e]) == Step(s, e)
  {
    assert [e][1..] == [];
    assert IsRun(Step(s, e), []);
  }

  // Every call succeeds and no process crashes.
  predicate Smooth(es: seq<Event>) {
    forall e :: e in es ==> e.StartAttach? || e.StartDetach? || e.Go? || e.Exit?
  }

  ghost predicate LeadsTo(s: State, es: seq<Event>, t: State) {
    IsRun(s, es) && After(s, es) == t && Smooth(es)
  }

  lemma LeadsOn(s: State, es: seq<Event>, t: State, fs: seq<Event>, u: State)
    requires LeadsTo(s, es, t) && LeadsTo(t, fs, u)
    ensures LeadsTo(s, es + fs, u)
  {
    RunOn(s, es, fs);
  }

  lemma OneEvent(s: State, e: Event)
    requires Enabled(s, e) && Smooth([e])
    ensures LeadsTo(s, [e], Step(s, e))
  {
    RunOne(s, e);
  }

  // Nothing is going on, and c can be attached.
  predicate Ready(s: State, c: Conf) {
    s.procs == map[] && s.lock == None && WellFormed(s, c) && c.setUplink
  }

  // The attach of an ADD, in a process of its own.
  lemma AttachPart(s: State, c: Conf) returns (es: seq<Event>, t: State)
    requires Ready(s, c) && c.rep !in s.master
    ensures LeadsTo(s, es, t)
    ensures t.procs == map[0 := AttachDone(c)] && t.lock == None && t.uplinks == s.uplinks
    ensures t.master == s.master[c.rep := c.bridge] && t.completed == (s.completed - {c.rep})[c.rep := c]
  {
    var s1 := Step(s, StartAttach(0, c));
    OneEvent(s, StartAttach(0, c));
    t := AttachAlone(s1, 0);
    var n: nat :| ReachesIn(s1, 0, t, n);
    assert LeadsTo(s1, Repeat(Go(0), n), t);
    LeadsOn(s, [StartAttach(0, c)], s1, Repeat(Go(0), n), t);
    es := [StartAttach(0, c)] + Repeat(Go(0), n);
  }

  // The whole ADD, to the end of its process.
  lemma AttachRun(s: State, c: Conf) returns (es: seq<Event>, t: State)
    requires Ready(s, c) && c.rep !in s.master
    ensures LeadsTo(s, es, t)
    ensures t.procs == map[] && t.lock == None && t.uplinks == s.uplinks
    ensures t.master == s.master[c.rep := c.bridge] && t.completed == (s.completed - {c.rep})[c.rep := c]
  {
    var s2;
    es, s2 := AttachPart(s, c);
    t := Step(s2, Exit(0));
    OneEvent(s2, Exit(0));
    LeadsOn(s, es, s2, [Exit(0)], t);
    es := es + [Exit(0)];
  }

  // A DEL up to the point where it lists the VLAN tables.
  lemma DetachRun(s: State, c: Conf) returns (es: seq<Event>, t: State)
    requires Ready(s, c)
    ensures LeadsTo(s, es, t)
    ensures 0 in t.procs && t.procs[0].DetachTables? && t.procs[0].c == c && t.procs[0].found
    ensures t.completed == s.completed - {c.rep}
  {
    var s1 := Step(s, StartDetach(0, c));
    var s2 := Step(s1, Go(0));
    var s3 := Step(s2, Go(0));
    var s4 := Step(s3, Go(0));
    t := Step(s4, Go(0));
    OneEvent(s, StartDetach(0, c));
    OneEvent(s1, Go(0));
    OneEvent(s2, Go(0));
    OneEvent(s3, Go(0));
    OneEvent(s4, Go(0));
    LeadsOn(s3, [Go(0)], s4, [Go(0)], t);
    LeadsOn(s2, [Go(0)], s3, [Go(0)] + [Go(0)], t);
    LeadsOn(s1, [Go(0)], s2, [Go(0)] + ([Go(0)] + [Go(0)]), t);
    es := [StartDetach(0, c)] + ([Go(0)] + ([Go(0)] + ([Go(0)] + [Go(0)])));
    LeadsOn(s, [StartDetach(0, c)], s1, [Go(0)] + ([Go(0)] + ([Go(0)] + [Go(0)])), t);
  }

  // Two lifecycles that share VLAN v of one uplink.
  predicate Sharing(a: Conf, b: Conf, v: int) {
    && a.uplink == b.uplink && a.bridge == b.bridge && a.setUplink && b.setUplink
    && a.rep != b.rep && a.rep != a.uplink && b.rep != a.uplink
    && v in a.Vlans() && v in b.Vlans()
  }

  // Both attach, then b detaches up to its second snapshot.
  lemma RunToSnapshots(a: Conf, b: Conf, v: int) returns (s: State, es: seq<Event>, t: State)
    requires Sharing(a, b, v)
    ensures Init(s) && LeadsTo(s, es, t)
    ensures 0 in t.procs && t.procs[0].DetachTables? && t.procs[0].c == b && t.procs[0].found
    ensures a.rep in t.completed && t.completed[a.rep] == a
  {
    s := State(map[], None, {a.uplink}, map[a.uplink := a.bridge], map[], map[]);
    var es1, s1 := AttachRun(s, a);
    var es2, s2 := AttachRun(s1, b);
    var es3;
    es3, t := DetachRun(s2, b);
    LeadsOn(s, es1, s1, es2, s2);
    LeadsOn(s, es1 + es2, s2, es3, t);
    es := es1 + es2 + es3;
  }

  // For any two such lifecycles: both attach, b detaches, a single call fails,
  // and the uplink has lost a VLAN of a, which is attached and stays so.
  lemma OneListFailureIsEnough(a: Conf, b: Conf, v: int) returns (s: State, es: seq<Event>, p: nat, fs: seq<Event>)
    requires Sharing(a, b, v)
    ensures Init(s) && Smooth(es) && Smooth(fs) && IsRun(s, es + ([ListFails(p)] + fs))
    ensures var t := After(s, es + ([ListFails(p)] + fs));
            !Safe(t) && a.rep in t.completed && t.completed[a.rep] == a && v !in Table(t, a.uplink)
  {
    var t;
    s, es, t := RunToSnapshots(a, b, v);
    RunKeepsInv(s, es);
    p, fs := 0, Repeat(Go(0), |b.Vlans()|);
    ListFailureIsUnsafe(t, 0, a.rep, v);
    RunOn(s, es, [ListFails(p)] + fs);
  }
}
