/** The state cache of pkg/cache/cache.go and the JSON form of PluginConf. */
module Cache {
  import opened VlanIds
  import opened Types
  import opened Netlink

  // The JSON keys of PluginConf and of the NetConf embedded in it.
  datatype Key =
    | KName | KIpam | KDebug | KBridge | KVlan | KSetUplinkVlan | KDeviceID | KRuntimeConfig
    | KIsUserspaceDriver | KOrigVfState | KOrigRepState | KPfName | KActualBridge | KRepresentor | KVfid | KContIfNames
    | KMac | KMtu | KTrunk                                    // used by both structs

  // Nested objects share no key with anything and are kept whole.
  datatype Value =
    | Flag(flag: bool)
    | Num(num: int)
    | Text(text: string)
    | Mac(mac: MacText)
    | Nums(nums: seq<int>)
    | Trunks(trunks: seq<Trunk>)
    | IpamObject(ipamType: string)
    | RuntimeObject(runtimeMac: MacText, deviceInfoFile: string)
    | VfObject(vf: VfState)
    | RepObject(rep: RepState)

  type Document = map<Key, Value>

  // Keys of the outer struct: a field of the embedded struct with one of them
  // is neither written nor read.
  predicate IsOuter(k: Key) {
    k.KIsUserspaceDriver? || k.KOrigVfState? || k.KOrigRepState? || k.KPfName? || k.KActualBridge? || k.KMac? || k.KMtu?
    || k.KRepresentor? || k.KVfid? || k.KContIfNames? || k.KTrunk?
  }

  predicate IsInner(k: Key) {
    k.KName? || k.KIpam? || k.KDebug? || k.KBridge? || k.KVlan? || k.KTrunk? || k.KSetUplinkVlan? || k.KMac? || k.KMtu?
    || k.KDeviceID? || k.KRuntimeConfig?
  }

  // omitempty
  predicate Omitted(n: NetConf, k: Key) {
    || (k.KDebug? && !n.debug)
    || (k.KBridge? && n.bridge == "")
    || (k.KVlan? && n.vlan == 0)
    || (k.KMac? && n.mac == Unset)
  }

  function InnerValue(n: NetConf, k: Key): Value {
    match k
    case KName => Text(n.name)
    case KIpam => IpamObject(n.ipamType)
    case KDebug => Flag(n.debug)
    case KBridge => Text(n.bridge)
    case KVlan => Num(n.vlan)
    case KTrunk => Trunks(n.trunk)
    case KSetUplinkVlan => Flag(n.setUplinkVlan)
    case KMac => Mac(n.mac)
    case KMtu => Num(n.mtu)
    case KDeviceID => Text(n.deviceID)
    case _ => RuntimeObject(n.runtimeMac, n.deviceInfoFile)
  }

  function OuterValue(c: PluginConf, k: Key): Value {
    match k
    case KIsUserspaceDriver => Flag(c.isUserspaceDriver)
    case KOrigVfState => VfObject(c.origVfState)
    case KOrigRepState => RepObject(c.origRepState)
    case KPfName => Text(c.pfName)
    case KActualBridge => Text(c.actualBridge)
    case KMac => Mac(c.mac)
    case KMtu => Num(c.mtu)
    case KRepresentor => Text(c.representor)
    case KVfid => Num(c.vfID)
    case KContIfNames => Text(c.contIFNames)
    case _ => Nums(c.trunk)
  }

  // json.Marshal: the outer struct wins where both have a key.
  function Marshal(c: PluginConf): Document {
    map k: Key | IsOuter(k) || (IsInner(k) && !Omitted(c.netConf, k)) ::
      if IsOuter(k) then OuterValue(c, k) else InnerValue(c.netConf, k)
  }

  // The keys that are left for the embedded struct.
  function InnerPart(d: Document): Document {
    map k | k in d && !IsOuter(k) :: d[k]
  }

  // A key that is absent, or holds a value of another type, leaves the field as it is.
  function TextAt(d: Document, k: Key, now: string): string {
    if k in d && d[k].Text? then d[k].text else now
  }

  function NumAt(d: Document, k: Key, now: int): int {
    if k in d && d[k].Num? then d[k].num else now
  }

  function FlagAt(d: Document, k: Key, now: bool): bool {
    if k in d && d[k].Flag? then d[k].flag else now
  }

  function MacAt(d: Document, k: Key, now: MacText): MacText {
    if k in d && d[k].Mac? then d[k].mac else now
  }

  function InnerFrom(d: Document, n: NetConf): NetConf {
    NetConf(
      TextAt(d, KName, n.name),
      if KIpam in d && d[KIpam].IpamObject? then d[KIpam].ipamType else n.ipamType,
      FlagAt(d, KDebug, n.debug),
      TextAt(d, KBridge, n.bridge),
      NumAt(d, KVlan, n.vlan),
      if KTrunk in d && d[KTrunk].Trunks? then d[KTrunk].trunks else n.trunk,
      FlagAt(d, KSetUplinkVlan, n.setUplinkVlan),
      MacAt(d, KMac, n.mac),
      NumAt(d, KMtu, n.mtu),
      TextAt(d, KDeviceID, n.deviceID),
      if KRuntimeConfig in d && d[KRuntimeConfig].RuntimeObject? then d[KRuntimeConfig].runtimeMac else n.runtimeMac,
      if KRuntimeConfig in d && d[KRuntimeConfig].RuntimeObject? then d[KRuntimeConfig].deviceInfoFile
      else n.deviceInfoFile)
  }

  function OuterFrom(d: Document, c: PluginConf): PluginConf {
    PluginConf(
      c.netConf,
      FlagAt(d, KIsUserspaceDriver, c.isUserspaceDriver),
      if KOrigVfState in d && d[KOrigVfState].VfObject? then d[KOrigVfState].vf else c.origVfState,
      if KOrigRepState in d && d[KOrigRepState].RepObject? then d[KOrigRepState].rep else c.origRepState,
      TextAt(d, KPfName, c.pfName),
      TextAt(d, KActualBridge, c.actualBridge),
      MacAt(d, KMac, c.mac),
      NumAt(d, KMtu, c.mtu),
      TextAt(d, KRepresentor, c.representor),
      NumAt(d, KVfid, c.vfID),
      TextAt(d, KContIfNames, c.contIFNames),
      if KTrunk in d && d[KTrunk].Nums? then d[KTrunk].nums else c.trunk)
  }

  // json.Unmarshal into an existing PluginConf
  function Unmarshal(d: Document, c: PluginConf): PluginConf {
    OuterFrom(d, c).(netConf := InnerFrom(InnerPart(d), c.netConf))
  }

  // What survives the cache: all but the three shadowed fields.
  function Stored(c: PluginConf): PluginConf {
    c.(netConf := c.netConf.(trunk := [], mac := Unset, mtu := 0))
  }

  // d holds what Marshal writes for the embedded struct.
  ghost predicate HasInner(d: Document, n: NetConf) {
    && (forall k :: k in d <==> IsInner(k) && !IsOuter(k) && !Omitted(n, k))
    && (forall k :: k in d ==> d[k] == InnerValue(n, k))
  }

  ghost predicate HasOuter(d: Document, c: PluginConf) {
    forall k :: IsOuter(k) ==> k in d && d[k] == OuterValue(c, k)
  }

  lemma InnerScalars(d: Document, n: NetConf)
    requires HasInner(d, n)
    ensures var r := InnerFrom(d, ZERO_NET_CONF);
            && r.debug == n.debug && r.setUplinkVlan == n.setUplinkVlan && r.vlan == n.vlan
            && r.mac == Unset && r.mtu == 0 && r.trunk == []
  {
  }

  lemma InnerTexts(d: Document, n: NetConf)
    requires HasInner(d, n)
    ensures var r := InnerFrom(d, ZERO_NET_CONF);
            r.name == n.name && r.deviceID == n.deviceID && r.bridge == n.bridge
  {
  }

  lemma InnerObjects(d: Document, n: NetConf)
    requires HasInner(d, n)
    ensures var r := InnerFrom(d, ZERO_NET_CONF);
            r.ipamType == n.ipamType && r.runtimeMac == n.runtimeMac && r.deviceInfoFile == n.deviceInfoFile
  {
  }

  lemma OuterScalars(d: Document, c: PluginConf)
    requires HasOuter(d, c)
    ensures var r := OuterFrom(d, ZERO_CONF);
            r.isUserspaceDriver == c.isUserspaceDriver && r.mac == c.mac && r.mtu == c.mtu && r.vfID == c.vfID
  {
  }

  lemma OuterObjects(d: Document, c: PluginConf)
    requires HasOuter(d, c)
    ensures var r := OuterFrom(d, ZERO_CONF);
            r.origVfState == c.origVfState && r.origRepState == c.origRepState && r.trunk == c.trunk
  {
  }

  lemma OuterTexts(d: Document, c: PluginConf)
    requires HasOuter(d, c)
    ensures var r := OuterFrom(d, ZERO_CONF);
            && r.pfName == c.pfName && r.actualBridge == c.actualBridge && r.representor == c.representor
            && r.contIFNames == c.contIFNames
  {
  }

  // A later process reads back what the earlier one saved, the shadowed fields excepted.
  lemma CacheRoundTrip(c: PluginConf)
    ensures Unmarshal(Marshal(c), ZERO_CONF) == Stored(c)
  {
    var d := Marshal(c);
    OuterScalars(d, c);
    OuterTexts(d, c);
    OuterObjects(d, c);
    InnerScalars(InnerPart(d), c.netConf);
    InnerTexts(InnerPart(d), c.netConf);
    InnerObjects(InnerPart(d), c.netConf);
  }

  datatype Attachment = Attachment(network: string, cid: string, ifName: string)

  function StateRef(a: Attachment): string {
    a.network + "-" + a.cid + "-" + a.ifName
  }

  // Neither the container id nor the interface name holds a dash.
  predicate Dashless(a: Attachment) {
    '-' !in a.cid && '-' !in a.ifName
  }

  lemma LastDash(a: string, x: string, b: string, y: string)
    requires '-' !in x && '-' !in y && a + "-" + x == b + "-" + y
    ensures a == b && x == y
  {
    var s := a + "-" + x;
    assert forall i :: |a| < i < |s| ==> s[i] == x[i - |a| - 1] && s[i] in x;
    assert forall i :: |b| < i < |s| ==> s[i] == y[i - |b| - 1] && s[i] in y;
    assert s[|a|] == '-' && s[|b|] == '-';
    assert |a| == |b|;
    assert a == s[..|a|] == b && x == s[|a| + 1..] == y;
  }

  // Attachments never share a cache file, whatever the network is called.
  lemma StateRefIsInjective(a: Attachment, b: Attachment)
    requires Dashless(a) && Dashless(b) && StateRef(a) == StateRef(b)
    ensures a == b
  {
    LastDash(a.network + "-" + a.cid, a.ifName, b.network + "-" + b.cid, b.ifName);
    LastDash(a.network, a.cid, b.network, b.cid);
  }

  // With a dash in the container id they can, and with one in the interface name.
  lemma DashesCollide(network: string, x: string, y: string, ifName: string)
    ensures StateRef(Attachment(network, x + "-" + y, ifName)) == StateRef(Attachment(network + "-" + x, y, ifName))
    ensures Attachment(network, x + "-" + y, ifName) != Attachment(network + "-" + x, y, ifName)
  {
    assert network + "-" + (x + "-" + y) + "-" + ifName == (network + "-" + x) + "-" + y + "-" + ifName;
    assert |network| < |network + "-" + x|;
  }

  lemma DashesInNamesCollide(network: string, cid: string, x: string, y: string)
    ensures StateRef(Attachment(network, cid, x + "-" + y)) == StateRef(Attachment(network + "-" + cid, x, y))
    ensures Attachment(network, cid, x + "-" + y) != Attachment(network + "-" + cid, x, y)
  {
    assert network + "-" + cid + "-" + (x + "-" + y) == (network + "-" + cid) + "-" + x + "-" + y;
    assert |network| < |network + "-" + cid|;
  }

  datatype Op = Saving(a: Attachment, c: PluginConf) | Deleting(a: Attachment)

  // The cache directory after some operations.
  function Files(files: map<string, Document>, ops: seq<Op>): map<string, Document>
    decreases |ops|
  {
    if ops == [] then files
    else match ops[0]
      case Saving(a, c) => Files(files[StateRef(a) := Marshal(c)], ops[1..])
      case Deleting(a) => Files(files - {StateRef(a)}, ops[1..])
  }

  // The same operations on a map from attachments.
  function Entries(entries: map<Attachment, Document>, ops: seq<Op>): map<Attachment, Document>
    decreases |ops|
  {
    if ops == [] then entries
    else match ops[0]
      case Saving(a, c) => Entries(entries[a := Marshal(c)], ops[1..])
      case Deleting(a) => Entries(entries - {a}, ops[1..])
  }

  ghost predicate Agree(files: map<string, Document>, entries: map<Attachment, Document>) {
    forall a :: Dashless(a) ==>
      (StateRef(a) in files <==> a in entries) && (a in entries ==> files[StateRef(a)] == entries[a])
  }

  // Over any sequence of Save and Delete, Load sees a map keyed by attachment.
  lemma {:induction false} CacheIsAMap(files: map<string, Document>, entries: map<Attachment, Document>, ops: seq<Op>)
    requires Agree(files, entries) && forall op :: op in ops ==> Dashless(op.a)
    ensures Agree(Files(files, ops), Entries(entries, ops))
    decreases |ops|
  {
    if ops == [] {
    } else {
      var a := ops[0].a;
      assert ops[0] in ops;
      forall b | Dashless(b) && StateRef(b) == StateRef(a) ensures b == a {
        StateRefIsInjective(a, b);
      }
      match ops[0]
      case Saving(_, c) => CacheIsAMap(files[StateRef(a) := Marshal(c)], entries[a := Marshal(c)], ops[1..]);
      case Deleting(_) => CacheIsAMap(files - {StateRef(a)}, entries - {a}, ops[1..]);
    }
  }

  class FsStateCache {
    const h: Host
    var files: map<string, Document>

    constructor (h: Host)
      ensures this.h == h && files == map[]
    {
      this.h := h;
      files := map[];
    }

    function GetStateRef(network: string, cid: string, ifName: string): string {
      StateRef(Attachment(network, cid, ifName))
    }

    method Save(ref: string, c: PluginConf) returns (ok: bool)
      modifies this`files, h`failures
      ensures files == if ok then old(files)[ref := Marshal(c)] else old(files)
      ensures ok ==> h.failures == old(h.failures)
      ensures !ok ==> h.failures > old(h.failures)
    {
      ok := *;
      if ok {
        files := files[ref := Marshal(c)];
      } else {
        h.failures := h.failures + 1;
      }
    }

    method Load(ref: string, p: PluginConfRef) returns (ok: bool)
      modifies p, h`failures
      ensures ok ==> ref in files && p.c == Unmarshal(files[ref], old(p.c)) && h.failures == old(h.failures)
      ensures !ok ==> h.failures > old(h.failures)
    {
      ok := *;
      if ok && ref in files {
        p.c := Unmarshal(files[ref], p.c);
      } else {
        ok, h.failures := false, h.failures + 1;
      }
    }

    method Delete(ref: string) returns (ok: bool)
      modifies this`files, h`failures
      ensures files == if ok then old(files) - {ref} else old(files)
      ensures ok ==> ref in old(files) && h.failures == old(h.failures)
      ensures !ok ==> h.failures > old(h.failures)
    {
      ok := *;
      if ok && ref in files {
        files := files - {ref};
      } else {
        ok, h.failures := false, h.failures + 1;
      }
    }
  }
}
