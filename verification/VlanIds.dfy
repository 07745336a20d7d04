/** Trunk normalisation: pkg/config/vlan.go. */
module VlanIds {
  import opened Wrappers

  datatype Trunk = Trunk(minID: Option<int>, maxID: Option<int>, id: Option<int>)

  // VIDs 0 and 4095 are reserved, section 9.6 of IEEE 802.1Q.
  predicate VlanIdIsOutOfRange(vlanID: int) {
    vlanID < 1 || vlanID > 4094
  }

  predicate InRange(v: Option<int>) {
    v.Some? ==> 1 <= v.value <= 4094
  }

  // Every bound and id that is given is a VLAN number, and a maximum is not
  // below its minimum.
  predicate WellFormedItem(t: Trunk) {
    && InRange(t.minID)
    && InRange(t.maxID)
    && InRange(t.id)
    && (t.minID.Some? && t.maxID.Some? ==> t.minID.value <= t.maxID.value)
  }

  // The item asks for v: by its id, or by a range that has both ends.
  predicate Names(t: Trunk, v: int) {
    || t.id == Some(v)
    || (t.minID.Some? && t.maxID.Some? && t.minID.value <= v <= t.maxID.value)
  }

  ghost predicate Requested(trunks: seq<Trunk>, v: int) {
    exists t :: t in trunks && Names(t, v)
  }

  ghost predicate Acceptable(trunks: seq<Trunk>) {
    && (forall t :: t in trunks ==> WellFormedItem(t))
    && exists v :: Requested(trunks, v)
  }

  predicate StrictlyIncreasing(s: seq<int>) {
    forall i, j :: 0 <= i < j < |s| ==> s[i] < s[j]
  }

  // ids is the normal form of trunks.
  ghost predicate IsNormalForm(trunks: seq<Trunk>, ids: seq<int>) {
    && StrictlyIncreasing(ids)
    && forall v :: v in ids <==> Requested(trunks, v)
  }

  // The VLANs of one item, the body of the first loop; None for its error returns.
  method CollectItem(item: Trunk, vlans: set<int>) returns (r: Option<set<int>>)
    ensures r.Some? <==> WellFormedItem(item)
    ensures r.Some? ==> forall v :: v in r.value <==> v in vlans || Names(item, v)
  {
    var minID, maxID := 0, 0;
    var found := vlans;
    if item.minID.Some? {
      minID := item.minID.value;
      if VlanIdIsOutOfRange(minID) {
        return None;
      }
    }
    if item.maxID.Some? {
      maxID := item.maxID.value;
      if VlanIdIsOutOfRange(maxID) || maxID < minID {
        return None;
      }
    }
    if minID > 0 && maxID > 0 {
      var v := minID;
      while v <= maxID
        invariant minID <= v <= maxID + 1
        invariant forall x :: x in found <==> x in vlans || minID <= x < v
      {
        found := found + {v};
        v := v + 1;
      }
    }
    if item.id.Some? {
      if VlanIdIsOutOfRange(item.id.value) {
        return None;
      }
      found := found + {item.id.value};
    }
    return Some(found);
  }

  // The keys of a Go map, or any other collection, in an order nobody promises.
  method InAnyOrder(s: set<int>) returns (keys: seq<int>)
    ensures forall v :: v in keys <==> v in s
    ensures forall i, j :: 0 <= i < j < |keys| ==> keys[i] != keys[j]
  {
    var rest := s;
    keys := [];
    while exists k :: k in rest
      invariant rest <= s
      invariant forall v :: v in keys <==> v in s && v !in rest
      invariant forall i, j :: 0 <= i < j < |keys| ==> keys[i] != keys[j]
      decreases rest
    {
      var k :| k in rest;
      keys := keys + [k];
      rest := rest - {k};
    }
  }

  lemma InsertedElements(s: seq<int>, i: nat, x: int)
    requires i <= |s|
    ensures forall v :: v in s[..i] + [x] + s[i..] <==> v == x || v in s
  {
    assert s == s[..i] + s[i..];
    assert forall v :: v in s[..i] + s[i..] <==> v in s[..i] || v in s[i..];
  }

  // One insertion of a sorting pass.
  method Insert(sorted: seq<int>, x: int) returns (r: seq<int>)
    requires StrictlyIncreasing(sorted) && x !in sorted
    ensures StrictlyIncreasing(r)
    ensures forall v :: v in r <==> v == x || v in sorted
  {
    var i := 0;
    while i < |sorted| && sorted[i] < x
      invariant 0 <= i <= |sorted|
      invariant forall k :: 0 <= k < i ==> sorted[k] < x
    {
      i := i + 1;
    }
    assert i < |sorted| ==> x < sorted[i];
    r := sorted[..i] + [x] + sorted[i..];
    forall a, b | 0 <= a < b < |r| ensures r[a] < r[b] {
      assert r[a] == if a < i then sorted[a] else if a == i then x else sorted[a - 1];
      assert r[b] == if b < i then sorted[b] else if b == i then x else sorted[b - 1];
    }
    InsertedElements(sorted, i, x);
  }

  method Sort(s: seq<int>) returns (sorted: seq<int>)
    requires forall i, j :: 0 <= i < j < |s| ==> s[i] != s[j]
    ensures StrictlyIncreasing(sorted)
    ensures forall v :: v in sorted <==> v in s
  {
    sorted := [];
    var n := 0;
    while n < |s|
      invariant 0 <= n <= |s|
      invariant StrictlyIncreasing(sorted)
      invariant forall v :: v in sorted <==> v in s[..n]
    {
      sorted := Insert(sorted, s[n]);
      assert s[..n + 1] == s[..n] + [s[n]];
      n := n + 1;
    }
    assert s[..n] == s;
  }

  method SplitVlanIds(trunks: seq<Trunk>) returns (r: Result<seq<int>>)
    ensures r.Ok? <==> Acceptable(trunks)
    ensures r.Ok? ==> IsNormalForm(trunks, r.value)
  {
    var vlans: set<int> := {};
    var n := 0;
    while n < |trunks|
      invariant 0 <= n <= |trunks|
      invariant forall i :: 0 <= i < n ==> WellFormedItem(trunks[i])
      invariant forall v :: v in vlans <==> exists i :: 0 <= i < n && Names(trunks[i], v)
    {
      var item := CollectItem(trunks[n], vlans);
      if item.None? {
        assert trunks[n] in trunks;
        return Err;
      }
      vlans := item.value;
      n := n + 1;
    }
    forall v ensures v in vlans <==> Requested(trunks, v) {
      if v in vlans {
        var i :| 0 <= i < n && Names(trunks[i], v);
        assert trunks[i] in trunks;
      }
    }
    if vlans == {} {
      return Err;
    }
    var one :| one in vlans;
    assert Requested(trunks, one);
    var vlanIds := InAnyOrder(vlans);
    vlanIds := Sort(vlanIds);
    return Ok(vlanIds);
  }

  // Every accepted list is made of VLAN numbers.
  lemma NormalFormIsInRange(trunks: seq<Trunk>, ids: seq<int>)
    requires Acceptable(trunks) && IsNormalForm(trunks, ids)
    ensures ids != [] && forall v :: v in ids ==> 1 <= v <= 4094
  {
    var v :| Requested(trunks, v);
    assert v in ids;
    forall x | x in ids ensures 1 <= x <= 4094 {
      var t :| t in trunks && Names(t, x);
    }
  }

  lemma {:induction false} SameElementsSameList(a: seq<int>, b: seq<int>)
    requires StrictlyIncreasing(a) && StrictlyIncreasing(b)
    requires forall v :: v in a <==> v in b
    ensures a == b
    decreases |a|
  {
    assert |a| > 0 ==> a[0] in a;
    assert |b| > 0 ==> b[0] in b;
    if a == [] {
    } else {
      assert a[0] == b[0];
      forall v ensures v in a[1..] <==> v in b[1..] {
        assert v in a <==> v == a[0] || v in a[1..];
        assert v in b <==> v == b[0] || v in b[1..];
      }
      SameElementsSameList(a[1..], b[1..]);
      assert a == [a[0]] + a[1..] && b == [b[0]] + b[1..];
    }
  }

  // Items may be reordered and repeated freely: whether splitting succeeds ...
  lemma AcceptanceIgnoresOrderAndRepetition(t1: seq<Trunk>, t2: seq<Trunk>)
    requires forall t :: t in t1 <==> t in t2
    ensures Acceptable(t1) <==> Acceptable(t2)
  {
    forall v ensures Requested(t1, v) <==> Requested(t2, v) {
    }
  }

  // ... and what it gives.
  lemma SplitIgnoresOrderAndRepetition(t1: seq<Trunk>, t2: seq<Trunk>, ids1: seq<int>, ids2: seq<int>)
    requires forall t :: t in t1 <==> t in t2
    requires IsNormalForm(t1, ids1) && IsNormalForm(t2, ids2)
    ensures ids1 == ids2
  {
    forall v ensures Requested(t1, v) <==> Requested(t2, v) {
    }
    SameElementsSameList(ids1, ids2);
  }

  // The normal form written as single ids again.
  function AsSingles(ids: seq<int>): (ts: seq<Trunk>)
    ensures |ts| == |ids| && forall i :: 0 <= i < |ids| ==> ts[i] == Trunk(None, None, Some(ids[i]))
  {
    if ids == [] then [] else [Trunk(None, None, Some(ids[0]))] + AsSingles(ids[1..])
  }

  lemma SinglesRequest(ids: seq<int>, v: int)
    ensures Requested(AsSingles(ids), v) <==> v in ids
  {
    var ts := AsSingles(ids);
    if v in ids {
      var i :| 0 <= i < |ids| && ids[i] == v;
      assert ts[i] in ts && Names(ts[i], v);
    }
    if Requested(ts, v) {
      var t :| t in ts && Names(t, v);
      var i :| 0 <= i < |ts| && ts[i] == t;
      assert ids[i] == v;
    }
  }

  // The numbers up to n that are asked for.
  ghost function RequestedUpTo(trunks: seq<Trunk>, n: nat): seq<int> {
    if n == 0 then [] else RequestedUpTo(trunks, n - 1) + if Requested(trunks, n) then [n] else []
  }

  lemma {:induction false} RequestedUpToIsSorted(trunks: seq<Trunk>, n: nat)
    ensures StrictlyIncreasing(RequestedUpTo(trunks, n))
    ensures forall v :: v in RequestedUpTo(trunks, n) <==> 1 <= v <= n && Requested(trunks, v)
  {
    if n == 0 {
    } else {
      RequestedUpToIsSorted(trunks, n - 1);
      var before := RequestedUpTo(trunks, n - 1);
      assert forall i :: 0 <= i < |before| ==> before[i] in before;
    }
  }

  // Every acceptable list has a normal form.
  lemma NormalFormExists(trunks: seq<Trunk>) returns (ids: seq<int>)
    requires Acceptable(trunks)
    ensures IsNormalForm(trunks, ids)
  {
    ids := RequestedUpTo(trunks, 4094);
    RequestedUpToIsSorted(trunks, 4094);
    forall v | Requested(trunks, v) ensures 1 <= v <= 4094 {
      var t :| t in trunks && Names(t, v);
      assert WellFormedItem(t);
    }
  }

  // Splitting the normal form again gives it back.
  lemma SplitIsIdempotent(trunks: seq<Trunk>, ids: seq<int>, again: seq<int>)
    requires Acceptable(trunks) && IsNormalForm(trunks, ids)
    requires IsNormalForm(AsSingles(ids), again)
    ensures Acceptable(AsSingles(ids))
    ensures again == ids
  {
    NormalFormIsInRange(trunks, ids);
    forall v ensures v in again <==> v in ids {
      SinglesRequest(ids, v);
    }
    SameElementsSameList(again, ids);
    SinglesRequest(ids, ids[0]);
    forall t | t in AsSingles(ids) ensures WellFormedItem(t) {
      var i :| 0 <= i < |ids| && AsSingles(ids)[i] == t;
      assert ids[i] in ids;
    }
  }

  lemma OneItemRequests(t: Trunk, v: int)
    ensures Requested([t], v) <==> Names(t, v)
  {
    assert t in [t];
  }

  // One range gives the numbers from its minimum to its maximum, both included.
  lemma RangeAlone(min: int, max: int, ids: seq<int>)
    requires min <= max && IsNormalForm([Trunk(Some(min), Some(max), None)], ids)
    ensures |ids| == max - min + 1 && forall i :: 0 <= i < |ids| ==> ids[i] == min + i
  {
    var numbers := seq(max - min + 1, i => min + i);
    forall v ensures v in numbers <==> v in ids {
      OneItemRequests(Trunk(Some(min), Some(max), None), v);
      assert min <= v <= max ==> numbers[v - min] == v;
    }
    SameElementsSameList(ids, numbers);
  }

  // Where the accepted numbers begin and end; a range with one end alone asks for nothing.
  lemma SingleItems(min: int, max: int, id: int)
    ensures Acceptable([Trunk(None, None, Some(id))]) <==> 1 <= id <= 4094
    ensures Acceptable([Trunk(Some(min), Some(max), None)]) <==> 1 <= min <= max <= 4094
    ensures !Acceptable([Trunk(Some(min), None, None)]) && !Acceptable([Trunk(None, Some(max), None)])
  {
    var one, range := Trunk(None, None, Some(id)), Trunk(Some(min), Some(max), None);
    OneItemRequests(one, id);
    OneItemRequests(range, min);
    assert one in [one] && range in [range];
    forall v ensures !Requested([Trunk(Some(min), None, None)], v) && !Requested([Trunk(None, Some(max), None)], v) {
      OneItemRequests(Trunk(Some(min), None, None), v);
      OneItemRequests(Trunk(None, Some(max), None), v);
    }
  }
}
