/** The VLANs one configuration asks for, shared by attach, uplink add and uplink delete. */
module VlanLists {

  // Trunk, followed by Vlan when it is set.
  function VlanList(trunk: seq<int>, vlan: int): seq<int> {
    trunk + if vlan > 0 then [vlan] else []
  }

  // The conversion uint16(vlan) made by every VLAN call.
  function Vid(vlan: int): int {
    vlan % 0x1_0000
  }

  function Vids(vs: seq<int>): set<int> {
    set v | v in vs :: Vid(v)
  }

  lemma VidsOfPrefix(vs: seq<int>, i: nat)
    requires i < |vs|
    ensures Vids(vs[..i + 1]) == Vids(vs[..i]) + {Vid(vs[i])}
  {
    assert vs[..i + 1] == vs[..i] + [vs[i]];
    forall v | v in vs[..i] ensures v in vs[..i + 1] {
    }
    assert vs[i] in vs[..i + 1];
  }

  lemma VidsOfAppend(vs: seq<int>, ws: seq<int>)
    ensures Vids(vs + ws) == Vids(vs) + Vids(ws)
  {
    forall v | v in vs || v in ws ensures v in vs + ws {
    }
  }

  // VLAN numbers survive the conversion unchanged.
  lemma VidsAreExact(vs: seq<int>)
    requires forall v :: v in vs ==> 1 <= v <= 4094
    ensures Vids(vs) == set v | v in vs
  {
    forall x ensures x in Vids(vs) <==> x in vs {
      assert x in vs ==> Vid(x) == x;
    }
  }
}
