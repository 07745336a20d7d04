/**
 The kernel state the plugin works on, and what each netlink request does to it.
 */
module Kernel {
  import opened Wrappers

  datatype Kind = Bridge | Bond | Device

  // A link with its attributes.  A value of this type that the plugin holds is
  // the snapshot LinkByName took; later requests do not refresh it.
  datatype Link = Link(
    index: int,
    name: string,
    netns: nat,             // 0 is the init network namespace
    mtu: int,
    mac: int,               // effective MAC address
    up: bool,
    master: int,            // index of the master, 0 for none
    kind: Kind,
    vfs: map<int, int>)     // administrative MAC address of every VF of a PF

  // VLAN table of a bridge port.
  datatype PortVlans = PortVlans(vids: set<int>, pvid: Option<int>, untagged: set<int>)

  datatype State = State(links: map<int, Link>, ports: map<int, PortVlans>)

  // What the kernel gives a port that joins a bridge.
  const DEFAULT_PORT := PortVlans({1}, Some(1), {1})

  // Adding VLANs as egress tagged: they stop being the PVID and untagged.
  function Tag(t: PortVlans, vs: set<int>): PortVlans {
    PortVlans(t.vids + vs, if t.pvid.Some? && t.pvid.value in vs then None else t.pvid, t.untagged - vs)
  }

  // Adding one VLAN as PVID and egress untagged.
  function TagNative(t: PortVlans, v: int): PortVlans {
    PortVlans(t.vids + {v}, Some(v), t.untagged + {v})
  }

  // Deleting VLANs; those that are absent do not matter.
  function Without(t: PortVlans, vs: set<int>): PortVlans {
    PortVlans(t.vids - vs, if t.pvid.Some? && t.pvid.value in vs then None else t.pvid, t.untagged - vs)
  }

  predicate IsPort(links: map<int, Link>, i: int) {
    i in links && links[i].master in links && links[links[i].master].kind.Bridge?
  }

  ghost predicate Ranked(links: map<int, Link>, rank: map<int, nat>) {
    && links.Keys <= rank.Keys
    && forall i :: i in links && links[i].master in links ==> rank[links[i].master] > rank[i]
  }

  // Following masters never comes back to where it started.
  ghost predicate Acyclic(links: map<int, Link>) {
    exists rank :: Ranked(links, rank)
  }

  predicate Is(links: map<int, Link>, i: int, name: string, netns: nat) {
    i in links && links[i].name == name && links[i].netns == netns
  }

  ghost predicate LinkOk(links: map<int, Link>, i: int)
    requires i in links
  {
    var l := links[i];
    && l.index == i
    && i > 0
    && (l.master != 0 ==>
          && l.master in links
          && !links[l.master].kind.Device?
          && links[l.master].netns == l.netns
          && (links[l.master].kind.Bridge? ==> !l.kind.Bridge?))
  }

  ghost predicate NamesDiffer(links: map<int, Link>) {
    forall i, j, name, netns {:trigger Is(links, i, name, netns), Is(links, j, name, netns)} ::
      Is(links, i, name, netns) && Is(links, j, name, netns) ==> i == j
  }

  // What the kernel itself guarantees.
  ghost predicate Valid(k: State) {
    && (forall i {:trigger LinkOk(k.links, i)} :: i in k.links ==> LinkOk(k.links, i))
    && NamesDiffer(k.links)
    && (forall i {:trigger IsPort(k.links, i)} :: i in k.ports <==> IsPort(k.links, i))
    && Acyclic(k.links)
  }

  function SetLink(k: State, l: Link): State {
    k.(links := k.links[l.index := l])
  }

  function SetPort(k: State, i: int, t: PortVlans): State {
    k.(ports := k.ports[i := t])
  }

  // The state with VLANs added to a port, when there are any.
  function Tagged(k: State, i: int, vs: set<int>): State {
    if vs == {} || i !in k.ports then k else SetPort(k, i, Tag(k.ports[i], vs))
  }

  // The state with VLANs removed from a port, when there are any.
  function Removed(k: State, i: int, vs: set<int>): State {
    if vs == {} || i !in k.ports then k else SetPort(k, i, Without(k.ports[i], vs))
  }

  lemma TaggedAsSetPort(k: State, i: int, vs: set<int>)
    requires i in k.ports
    ensures Tagged(k, i, vs) == SetPort(k, i, Tag(k.ports[i], vs))
  {
    if vs == {} {
      assert Tag(k.ports[i], vs) == k.ports[i];
      assert k.ports[i := k.ports[i]] == k.ports;
    }
  }

  lemma TaggedAgain(k: State, i: int, vs: set<int>, v: int)
    requires i in k.ports
    ensures var t := Tagged(k, i, vs);
            i in t.ports && SetPort(t, i, Tag(t.ports[i], {v})) == Tagged(k, i, vs + {v})
  {
    assert vs + {v} != {} by {
      assert v in vs + {v};
    }
    if vs == {} {
      assert vs + {v} == {v};
    } else {
      var t := k.ports[i];
      assert t.vids + vs + {v} == t.vids + (vs + {v});
      assert t.untagged - vs - {v} == t.untagged - (vs + {v});
    }
  }

  lemma RemovedAgain(k: State, i: int, vs: set<int>, v: int)
    requires i in k.ports
    ensures var t := Removed(k, i, vs);
            i in t.ports && SetPort(t, i, Without(t.ports[i], {v})) == Removed(k, i, vs + {v})
  {
    assert vs + {v} != {} by {
      assert v in vs + {v};
    }
    if vs == {} {
      assert vs + {v} == {v};
    } else {
      var t := k.ports[i];
      assert t.vids - vs - {v} == t.vids - (vs + {v});
      assert t.untagged - vs - {v} == t.untagged - (vs + {v});
    }
  }

  // Enslaving to the master a link already has changes nothing.
  function SetMaster(k: State, i: int, bridge: int): State
    requires i in k.links
  {
    if k.links[i].master == bridge then k
    else State(k.links[i := k.links[i].(master := bridge)], k.ports[i := DEFAULT_PORT])
  }

  // Leaving a bridge flushes the VLAN table of the port.
  function NoMaster(k: State, i: int): State
    requires i in k.links
  {
    State(k.links[i := k.links[i].(master := 0)], k.ports - {i})
  }

  // A link that changes namespace keeps its index and loses its master.
  function MoveTo(k: State, i: int, netns: nat): State
    requires i in k.links
  {
    if k.links[i].netns == netns then k
    else State(k.links[i := k.links[i].(netns := netns, master := 0)], k.ports - {i})
  }

  // The same link, down.
  function Down(k: State, i: int): State {
    if i !in k.links then k else State(k.links[i := k.links[i].(up := false)], k.ports)
  }

  function NameIsFree(k: State, name: string, netns: nat): (free: bool) {
    forall j :: j in k.links ==> !Is(k.links, j, name, netns)
  }

  lemma ZeroIsNoLink(k: State)
    requires Valid(k)
    ensures 0 !in k.links
  {
    assert 0 in k.links ==> LinkOk(k.links, 0);
  }

  lemma PortIsLink(k: State, i: int)
    requires Valid(k) && i in k.ports
    ensures IsPort(k.links, i) && LinkOk(k.links, i)
  {
    assert IsPort(k.links, i);
  }

  lemma NoPortWithoutMaster(k: State, i: int)
    requires Valid(k) && i in k.links && k.links[i].master == 0
    ensures i !in k.ports
  {
    ZeroIsNoLink(k);
    assert i in k.ports <==> IsPort(k.links, i);
  }

  lemma SetLinkIsValid(k: State, l: Link)
    requires Valid(k) && l.index in k.links
    requires var o := k.links[l.index]; l.netns == o.netns && l.master == o.master && l.kind == o.kind
    requires l.name == k.links[l.index].name || NameIsFree(k, l.name, l.netns)
    ensures Valid(SetLink(k, l))
  {
    var k2 := SetLink(k, l);
    forall a, b, name, ns | Is(k2.links, a, name, ns) && Is(k2.links, b, name, ns) ensures a == b {
      assert Is(k.links, a, k.links[a].name, k.links[a].netns) && Is(k.links, b, k.links[b].name, k.links[b].netns);
      assert Is(k.links, a, name, ns) || Is(k.links, b, name, ns) || a == b;
    }
    forall i | i in k2.links ensures LinkOk(k2.links, i) {
      assert LinkOk(k.links, i);
    }
    forall i ensures i in k2.ports <==> IsPort(k2.links, i) {
      assert i in k.ports <==> IsPort(k.links, i);
    }
    var rank :| Ranked(k.links, rank);
    assert Ranked(k2.links, rank);
  }

  lemma SetPortIsValid(k: State, i: int, t: PortVlans)
    requires Valid(k) && i in k.ports
    ensures Valid(SetPort(k, i, t))
  {
    forall j ensures j in SetPort(k, i, t).ports <==> IsPort(k.links, j) {
      assert j in k.ports <==> IsPort(k.links, j);
    }
  }

  lemma SetMasterIsValid(k: State, i: int, bridge: int)
    requires Valid(k) && i in k.links && bridge in k.links
    requires k.links[i].kind.Device? && k.links[bridge].kind.Bridge? && k.links[i].netns == k.links[bridge].netns
    ensures Valid(SetMaster(k, i, bridge))
  {
    var k2 := SetMaster(k, i, bridge);
    forall a, b, name, ns | Is(k2.links, a, name, ns) && Is(k2.links, b, name, ns) ensures a == b {
      assert Is(k.links, a, k.links[a].name, k.links[a].netns) && Is(k.links, b, k.links[b].name, k.links[b].netns);
      assert Is(k.links, a, name, ns) || Is(k.links, b, name, ns) || a == b;
    }
    forall j | j in k2.links ensures LinkOk(k2.links, j) {
      assert LinkOk(k.links, j);
    }
    forall j ensures j in k2.ports <==> IsPort(k2.links, j) {
      assert j in k.ports <==> IsPort(k.links, j);
    }
    var rank :| Ranked(k.links, rank);
    // nothing is enslaved to a plain device, so it can go below everything else
    var rank2 := map j | j in rank :: if j == i then 0 else rank[j] + 1;
    forall j | j in k2.links && k2.links[j].master in k2.links ensures rank2[k2.links[j].master] > rank2[j] {
      assert LinkOk(k.links, j);
    }
    assert Ranked(k2.links, rank2);
  }

  lemma NoMasterIsValid(k: State, i: int)
    requires Valid(k) && i in k.links
    ensures Valid(NoMaster(k, i))
  {
    var k2 := NoMaster(k, i);
    forall a, b, name, ns | Is(k2.links, a, name, ns) && Is(k2.links, b, name, ns) ensures a == b {
      assert Is(k.links, a, k.links[a].name, k.links[a].netns) && Is(k.links, b, k.links[b].name, k.links[b].netns);
      assert Is(k.links, a, name, ns) || Is(k.links, b, name, ns) || a == b;
    }
    ZeroIsNoLink(k);
    forall j | j in k2.links ensures LinkOk(k2.links, j) {
      assert LinkOk(k.links, j);
    }
    forall j ensures j in k2.ports <==> IsPort(k2.links, j) {
      assert j in k.ports <==> IsPort(k.links, j);
    }
    var rank :| Ranked(k.links, rank);
    assert Ranked(k2.links, rank);
  }

  lemma MoveToIsValid(k: State, i: int, netns: nat)
    requires Valid(k) && i in k.links && k.links[i].kind.Device?
    requires k.links[i].netns == netns || NameIsFree(k, k.links[i].name, netns)
    ensures Valid(MoveTo(k, i, netns))
  {
    var k2 := MoveTo(k, i, netns);
    if k2 != k {
      forall a, b, name, ns | Is(k2.links, a, name, ns) && Is(k2.links, b, name, ns) ensures a == b {
        assert Is(k.links, a, k.links[a].name, k.links[a].netns) && Is(k.links, b, k.links[b].name, k.links[b].netns);
        assert Is(k.links, a, name, ns) || Is(k.links, b, name, ns) || a == b;
      }
      ZeroIsNoLink(k);
      forall j | j in k2.links ensures LinkOk(k2.links, j) {
        assert LinkOk(k.links, j);
      }
      forall j ensures j in k2.ports <==> IsPort(k2.links, j) {
        assert j in k.ports <==> IsPort(k.links, j);
      }
      var rank :| Ranked(k.links, rank);
      assert Ranked(k2.links, rank);
    }
  }

  // The link of that name in that namespace, 0 when there is none.
  ghost function Find(links: map<int, Link>, name: string, netns: nat): (i: int)
    ensures i != 0 ==> Is(links, i, name, netns)
  {
    if exists j :: Is(links, j, name, netns) then var j :| Is(links, j, name, netns); j else 0
  }

  lemma FindIs(k: State, i: int, name: string, netns: nat)
    requires Valid(k) && Is(k.links, i, name, netns)
    ensures Find(k.links, name, netns) == i
  {
    assert forall j :: j in k.links ==> LinkOk(k.links, j);
  }

  // Attributes other than name and namespace do not matter for finding a link.
  lemma FindIsKept(k: State, links2: map<int, Link>, i: int, name: string, netns: nat)
    requires Valid(k) && Is(links2, i, name, netns)
    requires forall j :: j in links2 ==>
               j in k.links && links2[j].name == k.links[j].name && links2[j].netns == k.links[j].netns
    ensures Find(links2, name, netns) == i
  {
    ZeroIsNoLink(k);
    forall j | Is(links2, j, name, netns) ensures j == i {
      assert Is(k.links, j, name, netns) && Is(k.links, i, name, netns);
    }
  }

  lemma FindSame(k: State, links2: map<int, Link>, name: string, netns: nat)
    requires Valid(k) && links2.Keys == k.links.Keys
    requires forall j :: j in k.links ==> links2[j].name == k.links[j].name && links2[j].netns == k.links[j].netns
    ensures Find(links2, name, netns) == Find(k.links, name, netns)
  {
    var i := Find(k.links, name, netns);
    if i != 0 {
      FindIsKept(k, links2, i, name, netns);
    } else {
      ZeroIsNoLink(k);
      forall j ensures !Is(links2, j, name, netns) {
        assert !Is(k.links, j, name, netns);
      }
    }
  }

  // Index reached after n hops from a link to its master; 0 once the chain has ended.
  function MasterAt(links: map<int, Link>, i: int, n: nat): int {
    if n == 0 then i
    else
      var j := MasterAt(links, i, n - 1);
      if j in links then links[j].master else 0
  }

  ghost predicate FirstBridgeAt(links: map<int, Link>, i: int, n: nat, b: int) {
    && MasterAt(links, i, n) == b
    && b in links
    && links[b].kind.Bridge?
    && forall m: nat :: m < n ==> MasterAt(links, i, m) in links && !links[MasterAt(links, i, m)].kind.Bridge?
  }

  // b is the first bridge on the master chain of i, i itself included.
  ghost predicate IsParentBridge(links: map<int, Link>, i: int, b: int) {
    exists n: nat :: FirstBridgeAt(links, i, n, b)
  }

  ghost predicate EndsAt(links: map<int, Link>, i: int, n: nat) {
    && MasterAt(links, i, n) !in links
    && forall m: nat :: m < n ==> MasterAt(links, i, m) in links && !links[MasterAt(links, i, m)].kind.Bridge?
  }

  // The chain ends without meeting a bridge.
  ghost predicate ChainEnds(links: map<int, Link>, i: int) {
    exists n: nat :: EndsAt(links, i, n)
  }

  lemma ParentBridgeIsUnique(links: map<int, Link>, i: int, a: int, b: int)
    requires IsParentBridge(links, i, a) && IsParentBridge(links, i, b)
    ensures a == b
  {
    var m: nat :| FirstBridgeAt(links, i, m, a);
    var n: nat :| FirstBridgeAt(links, i, n, b);
    assert m < n || n < m || m == n;
  }

  // A bridge port has its master as parent bridge.
  lemma ParentOfPort(k: State, u: int, b: int)
    requires Valid(k) && u in k.ports && u in k.links && IsParentBridge(k.links, u, b)
    ensures b == k.links[u].master
  {
    PortIsLink(k, u);
    assert LinkOk(k.links, k.links[u].master);
    assert MasterAt(k.links, u, 0) == u && MasterAt(k.links, u, 1) == k.links[u].master;
    assert FirstBridgeAt(k.links, u, 1, k.links[u].master);
    ParentBridgeIsUnique(k.links, u, b, k.links[u].master);
  }

  // A chain that ends has no bridge on it, wherever one looks.
  lemma NoParentWhenChainEnds(links: map<int, Link>, i: int, b: int)
    requires ChainEnds(links, i)
    ensures !IsParentBridge(links, i, b)
  {
    var n: nat :| EndsAt(links, i, n);
    forall m: nat ensures !FirstBridgeAt(links, i, m, b) {
      assert m < n || n < m || m == n;
    }
  }

  // What the walk looks for exists, or the chain ends: there is no third case.
  lemma {:induction false} WalkIsDecided(k: State, i: int, n: nat, rank: map<int, nat>)
    requires Valid(k) && Ranked(k.links, rank) && MasterAt(k.links, i, n) in k.links
    requires forall m: nat :: m < n ==>
               MasterAt(k.links, i, m) in k.links && !k.links[MasterAt(k.links, i, m)].kind.Bridge?
    ensures ChainEnds(k.links, i) || exists b :: IsParentBridge(k.links, i, b)
    decreases set j | j in k.links && rank[j] > rank[MasterAt(k.links, i, n)]
  {
    var at := MasterAt(k.links, i, n);
    if k.links[at].kind.Bridge? {
      assert FirstBridgeAt(k.links, i, n, at);
      assert IsParentBridge(k.links, i, at);
    } else if k.links[at].master in k.links {
      var ahead := set j | j in k.links && rank[j] > rank[at];
      assert k.links[at].master in ahead;
      WalkIsDecided(k, i, n + 1, rank);
    } else {
      assert EndsAt(k.links, i, n + 1);
    }
  }

  // On a valid host every link has exactly one of the two.
  lemma ParentOrEnd(k: State, i: int)
    requires Valid(k) && i in k.links
    ensures ChainEnds(k.links, i) <==> !exists b :: IsParentBridge(k.links, i, b)
  {
    var rank :| Ranked(k.links, rank);
    WalkIsDecided(k, i, 0, rank);
    forall b ensures ChainEnds(k.links, i) ==> !IsParentBridge(k.links, i, b) {
      if ChainEnds(k.links, i) {
        NoParentWhenChainEnds(k.links, i, b);
      }
    }
  }

  lemma {:induction false} OneHopEarlier(links: map<int, Link>, i: int, n: nat)
    requires i in links
    ensures MasterAt(links, i, n + 1) == MasterAt(links, links[i].master, n)
  {
    if n == 0 {
    } else {
      OneHopEarlier(links, i, n - 1);
    }
  }

  // From a link that is no bridge, its master has the same parent bridge: the
  // bond stands for its member.
  lemma BondAgrees(links: map<int, Link>, i: int, b: int)
    requires i in links && !links[i].kind.Bridge?
    ensures IsParentBridge(links, i, b) <==> IsParentBridge(links, links[i].master, b)
  {
    var m := links[i].master;
    if IsParentBridge(links, i, b) {
      var n: nat :| FirstBridgeAt(links, i, n, b);
      OneHopEarlier(links, i, n - 1);
      forall j: nat | j < n - 1 ensures MasterAt(links, m, j) in links && !links[MasterAt(links, m, j)].kind.Bridge? {
        OneHopEarlier(links, i, j);
      }
      assert FirstBridgeAt(links, m, n - 1, b);
    }
    if IsParentBridge(links, m, b) {
      var n: nat :| FirstBridgeAt(links, m, n, b);
      OneHopEarlier(links, i, n);
      forall j: nat | j < n + 1 ensures MasterAt(links, i, j) in links && !links[MasterAt(links, i, j)].kind.Bridge? {
        if j > 0 {
          OneHopEarlier(links, i, j - 1);
        }
      }
      assert FirstBridgeAt(links, i, n + 1, b);
    }
  }
}
