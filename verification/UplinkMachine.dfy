/**
 The uplink VLAN protocol as a state machine.

 Every CNI call is an operating system process of its own, so any number of
 them run at once; one event is one netlink call of one process.  An attacher
 puts its VLANs on the representor port outside any lock and only then adds them
 to the uplink under the file lock.  A detacher unmasters the representor first
 and only then, under the lock, takes its two snapshots and prunes the uplink.
 */
module UplinkMachine {
  import opened Wrappers
  import opened VlanLists

  // What one ADD/DEL lifecycle is configured with, its link names already resolved.
  datatype Conf = Conf(rep: int, bridge: int, uplink: int, trunk: seq<int>, vlan: int, setUplink: bool) {
    function Vlans(): seq<int> {
      VlanList(trunk, vlan)
    }
  }

  // One CNI process: where it stands, and its local variables.
  datatype Proc =
    | AttachStart(c: Conf)                                    // about to set the master
    | AttachDefault(c: Conf)                                  // about to drop the default VLAN
    | AttachTrunk(c: Conf, i: nat)                            // trunk[..i] is on the port
    | AttachPvid(c: Conf)                                     // about to add the port VLAN
    | AttachResolve(c: Conf)                                  // about to look up the PF and its bond
    | AttachLock(c: Conf, found: bool)                        // about to take the lock
    | AttachUplink(c: Conf, found: bool, i: nat)              // locked; Vlans()[..i] is on the uplink
    | AttachUnlock(c: Conf, ok: bool)                         // about to release the lock
    | AttachUndo(c: Conf)                                     // failed; about to unmaster the representor
    | AttachDone(c: Conf)                                     // AttachRepresentor returned nil
    | DetachStart(c: Conf)                                    // about to unmaster the representor
    | DetachResolve(c: Conf)                                  // about to look up the PF, its bond and the bridge
    | DetachLock(c: Conf, found: bool)                        // about to take the lock
    | DetachList(c: Conf, found: bool)                        // locked; about to list the links
    | DetachTables(c: Conf, found: bool, brif: set<int>)      // locked; about to list the VLAN tables
    | DetachDelete(c: Conf, found: bool, del: seq<int>)       // locked; del is still to be deleted
    | DetachUnlock(c: Conf)                                   // about to release the lock
    | Finished(c: Conf)                                       // nothing left to do

  datatype State = State(
    procs: map<nat, Proc>,
    lock: Option<nat>,              // the process holding the file lock
    uplinks: set<int>,              // links that are never a representor
    master: map<int, int>,          // bridge of every bridge port
    vlans: map<int, set<int>>,      // VLAN table of every bridge port
    completed: map<int, Conf>)      // representors whose setUplinkVlan attach went through

  datatype Event =
    | StartAttach(p: nat, c: Conf)
    | StartDetach(p: nat, c: Conf)
    | Rollback(p: nat)              // an ADD that fails later detaches in the same process
    | Go(p: nat)                    // the next call of p succeeds
    | Fail(p: nat)                  // the next call of p fails without effect
    | Miss(p: nat)                  // looking up the bond fails: the PF itself is taken for the uplink
    | ListFails(p: nat)             // BridgeVlanList fails and its error is dropped
    | KeepLock(p: nat)              // Unlock fails: the lock stays until the process ends
    | Exit(p: nat)
    | Crash(p: nat)

  function Table(s: State, port: int): set<int> {
    if port in s.vlans then s.vlans[port] else {}
  }

  // ActualBridge is the bridge of the uplink, and a representor is no uplink.
  predicate WellFormed(s: State, c: Conf) {
    && c.uplink in s.uplinks
    && c.uplink in s.master
    && s.master[c.uplink] == c.bridge
    && c.rep !in s.uplinks
  }

  predicate Idle(s: State, rep: int) {
    forall q :: q in s.procs ==> s.procs[q].c.rep != rep
  }

  predicate LockFree(s: State, p: nat) {
    s.lock == None || s.lock == Some(p)
  }

  predicate Enabled(s: State, e: Event) {
    match e
    case StartAttach(p, c) => p !in s.procs && s.lock != Some(p) && WellFormed(s, c) && Idle(s, c.rep)
    case StartDetach(p, c) => p !in s.procs && s.lock != Some(p) && WellFormed(s, c) && Idle(s, c.rep)
    case Rollback(p) => p in s.procs && s.procs[p].AttachDone?
    case Go(p) =>
      p in s.procs &&
      (match s.procs[p]
       case AttachLock(_, _) => LockFree(s, p)
       case DetachLock(_, _) => LockFree(s, p)
       // the PF of a bond is no bridge port: VLAN calls on it fail
       case AttachUplink(c, found, i) => found || i >= |c.Vlans()|
       case DetachDelete(_, found, del) => found || del == []
       case AttachDone(_) => false
       case Finished(_) => false
       case _ => true)
    case Fail(p) =>
      p in s.procs &&
      (match s.procs[p]
       // only a state that makes a call can fail
       case AttachDefault(c) => c.vlan > 1 || |c.trunk| > 0
       case AttachTrunk(c, i) => i < |c.trunk|
       case AttachPvid(c) => c.vlan > 0
       case AttachUplink(c, _, i) => i < |c.Vlans()|
       case DetachDelete(_, _, del) => del != []
       case AttachUnlock(_, _) => false
       case DetachTables(_, _, _) => false
       case DetachUnlock(_) => false
       case AttachDone(_) => false
       case Finished(_) => false
       case _ => true)
    case Miss(p) => p in s.procs && (s.procs[p].AttachResolve? || s.procs[p].DetachResolve?)
    case ListFails(p) => p in s.procs && s.procs[p].DetachTables?
    case KeepLock(p) => p in s.procs && (s.procs[p].AttachUnlock? || s.procs[p].DetachUnlock?)
    case Exit(p) => p in s.procs && (s.procs[p].AttachDone? || s.procs[p].Finished?)
    case Crash(p) => p in s.procs
  }

  function At(s: State, p: nat, pc: Proc): State {
    s.(procs := s.procs[p := pc])
  }

  function SetTable(s: State, port: int, t: set<int>): State {
    s.(vlans := s.vlans[port := t])
  }

  // Enslaving to the bridge the port is already on changes nothing; otherwise
  // the kernel gives the new port VLAN 1.
  function SetMaster(s: State, c: Conf): State {
    if c.rep in s.master && s.master[c.rep] == c.bridge then s
    else s.(master := s.master[c.rep := c.bridge], vlans := s.vlans[c.rep := {1}])
  }

  // Leaving the bridge flushes the VLAN table of the port.
  function NoMaster(s: State, rep: int): State {
    s.(master := s.master - {rep}, vlans := s.vlans - {rep}, completed := s.completed - {rep})
  }

  function Ports(s: State, c: Conf, found: bool): set<int>
    requires c.uplink in s.master
  {
    set q | q in s.master && s.master[q] == s.master[c.uplink] && (found ==> q != c.uplink)
  }

  predicate CarriedBy(s: State, brif: set<int>, v: int) {
    exists q :: q in brif && v in Table(s, q)
  }

  // The configured VLANs that no port in brif carries, in configuration order.
  function Unused(s: State, brif: set<int>, vs: seq<int>): seq<int> {
    if vs == [] then []
    else
      (if CarriedBy(s, brif, vs[0]) then [] else [vs[0]]) + Unused(s, brif, vs[1..])
  }

  function Release(s: State, p: nat): State {
    s.(lock := if s.lock == Some(p) then None else s.lock)
  }

  // The next call of process p succeeds.
  function Advance(s: State, p: nat): State
    requires p in s.procs
  {
    match s.procs[p]
    case AttachStart(c) => At(SetMaster(s, c), p, AttachDefault(c))
    case AttachDefault(c) =>
      At(if c.vlan > 1 || |c.trunk| > 0 then SetTable(s, c.rep, Table(s, c.rep) - {1}) else s, p, AttachTrunk(c, 0))
    case AttachTrunk(c, i) =>
      if i < |c.trunk| then At(SetTable(s, c.rep, Table(s, c.rep) + {c.trunk[i]}), p, AttachTrunk(c, i + 1))
      else At(s, p, AttachPvid(c))
    case AttachPvid(c) =>
      At(if c.vlan > 0 then SetTable(s, c.rep, Table(s, c.rep) + {c.vlan}) else s, p,
         if c.setUplink then AttachResolve(c) else AttachDone(c))
    case AttachResolve(c) => At(s, p, AttachLock(c, true))
    case AttachLock(c, found) => At(s.(lock := Some(p)), p, AttachUplink(c, found, 0))
    case AttachUplink(c, found, i) =>
      if i < |c.Vlans()| then
        At(SetTable(s, c.uplink, Table(s, c.uplink) + {c.Vlans()[i]}), p, AttachUplink(c, found, i + 1))
      else At(s.(completed := s.completed[c.rep := c]), p, AttachUnlock(c, true))
    case AttachUnlock(c, ok) => At(Release(s, p), p, if ok then AttachDone(c) else AttachUndo(c))
    case AttachUndo(c) => At(NoMaster(s, c.rep), p, Finished(c))
    case DetachStart(c) => At(NoMaster(s, c.rep), p, if c.setUplink then DetachResolve(c) else Finished(c))
    case DetachResolve(c) => At(s, p, DetachLock(c, true))
    case DetachLock(c, found) => At(s.(lock := Some(p)), p, DetachList(c, found))
    case DetachList(c, found) =>
      At(s, p, DetachTables(c, found, if c.uplink in s.master then Ports(s, c, found) else {}))
    case DetachTables(c, found, brif) => At(s, p, DetachDelete(c, found, Unused(s, brif, c.Vlans())))
    case DetachDelete(c, found, del) =>
      if del == [] then At(s, p, DetachUnlock(c))
      else At(SetTable(s, c.uplink, Table(s, c.uplink) - {del[0]}), p, DetachDelete(c, found, del[1..]))
    case DetachUnlock(c) => At(Release(s, p), p, Finished(c))
    case AttachDone(_) => s
    case Finished(_) => s
  }

  // Where a process goes when its next call fails.
  function AfterFailure(pc: Proc): Proc {
    match pc
    case AttachStart(c) => Finished(c)
    case AttachUplink(c, _, _) => AttachUnlock(c, false)
    case AttachUndo(c) => Finished(c)
    case DetachStart(c) => Finished(c)
    case DetachResolve(c) => Finished(c)
    case DetachLock(c, _) => Finished(c)
    case DetachList(c, _) => DetachUnlock(c)
    case DetachDelete(c, _, _) => DetachUnlock(c)
    case _ => AttachUndo(pc.c)
  }

  function Step(s: State, e: Event): State
    requires Enabled(s, e)
  {
    match e
    case StartAttach(p, c) => At(s.(completed := s.completed - {c.rep}), p, AttachStart(c))
    case StartDetach(p, c) => At(s, p, DetachStart(c))
    case Rollback(p) => At(s, p, DetachStart(s.procs[p].c))
    case Go(p) => Advance(s, p)
    case Fail(p) => At(s, p, AfterFailure(s.procs[p]))
    case Miss(p) =>
      var c := s.procs[p].c;
      At(s, p, if s.procs[p].AttachResolve? then AttachLock(c, false) else DetachLock(c, false))
    case ListFails(p) => At(s, p, DetachDelete(s.procs[p].c, s.procs[p].found, s.procs[p].c.Vlans()))
    case KeepLock(p) =>
      At(s, p, match s.procs[p]
               case AttachUnlock(c, ok) => if ok then AttachDone(c) else AttachUndo(c)
               case _ => Finished(s.procs[p].c))
    case Exit(p) => Release(s, p).(procs := s.procs - {p})
    case Crash(p) => Release(s, p).(procs := s.procs - {p})
  }

  // A run is a sequence of events, each enabled where it happens.
  predicate IsRun(s: State, es: seq<Event>)
    decreases |es|
  {
    es == [] || (Enabled(s, es[0]) && IsRun(Step(s, es[0]), es[1..]))
  }

  function After(s: State, es: seq<Event>): State
    requires IsRun(s, es)
    decreases |es|
  {
    if es == [] then s else After(Step(s, es[0]), es[1..])
  }

  // Before the first CNI call: no process, a free lock, any bridges, ports and tables.
  predicate Init(s: State) {
    s.procs == map[] && s.lock == None && s.completed == map[]
  }
}
