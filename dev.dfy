/**
 * Network interface records and the interface-name classifier of
 * src/network/dev.rs: an interface's type is given by the first table
 * entry whose string is a prefix of its name.
 */
module Dev {
  import opened RustStr

  /** The kind of a network interface; the default is `Unknown`. */
  datatype DevType =
    | Unknown
    | Loopback
    | Ethernet
    | Wireless
    | Bridge
    | PointToPoint
    | Bluetooth
    | VirtualNetwork
    | Mesh

  /** A network interface. `mtu` is an `i32`, `sent` and `received` are `i64` counters. */
  datatype Dev = Dev(
    interface: string,
    ip: string,
    mac: string,
    mask: string,
    broadcast: string,
    mtu: int,
    sent: int,
    received: int,
    devType: DevType)

  /** `Dev::default()`: empty strings, zero counters and the default type. */
  function DefaultDev(): (d: Dev)
    ensures d.devType == Unknown
    ensures d.interface == d.ip == d.mac == d.mask == d.broadcast == ""
    ensures d.mtu == 0 && d.sent == 0 && d.received == 0
  {
    Dev("", "", "", "", "", 0, 0, 0, Unknown)
  }

  /** One row of the classifier table: a name prefix and the type it implies. */
  datatype NamePair = NamePair(prefix: string, devType: DevType)

  /** The classifier table, in source order; order decides between overlapping prefixes. */
  const ETH_NAMES: seq<NamePair> := [
    // ethernet
    NamePair("eth", Ethernet),
    NamePair("tap", Ethernet),
    NamePair("en", Ethernet),
    NamePair("net", Ethernet),
    NamePair("lo", Loopback),
    // wireless
    NamePair("ath", Wireless),
    NamePair("wlan", Wireless),
    NamePair("ra", Wireless),
    NamePair("wmaster", Wireless),
    NamePair("wl", Wireless),
    NamePair("ww", Wireless),
    // bridge
    NamePair("br", Bridge),
    NamePair("docker", Bridge),
    // point to point
    NamePair("ppp", PointToPoint),
    NamePair("tun", PointToPoint),
    // bluetooth
    NamePair("bnep", Bluetooth),
    // virtual
    NamePair("vmnet8", VirtualNetwork),
    NamePair("vmnet", VirtualNetwork),
    NamePair("vboxnet", VirtualNetwork),
    NamePair("ham", VirtualNetwork),
    NamePair("veth", VirtualNetwork),
    // mesh
    NamePair("msh", Mesh)
  ]

  /** Entry `k` of `table` is the first whose prefix begins `name`. */
  predicate IsFirstPrefix(table: seq<NamePair>, name: string, k: int) {
    && 0 <= k < |table|
    && StartsWith(name, table[k].prefix)
    && forall j :: 0 <= j < k ==> !StartsWith(name, table[j].prefix)
  }

  /** No entry of `table` begins `name`. */
  predicate NoPrefix(table: seq<NamePair>, name: string) {
    forall j :: 0 <= j < |table| ==> !StartsWith(name, table[j].prefix)
  }

  /** No entry of `table` maps to `Unknown`. */
  predicate NoUnknownEntry(table: seq<NamePair>) {
    forall j :: 0 <= j < |table| ==> table[j].devType != Unknown
  }

  /** The loop of `from_name` over `table`: the type of the first entry that is a prefix of `name`. */
  function TypeIn(table: seq<NamePair>, name: string): (r: DevType)
    ensures NoPrefix(table, name) ==> r == Unknown
    ensures forall k :: IsFirstPrefix(table, name, k) ==> r == table[k].devType
    decreases |table|
  {
    if table == [] then Unknown
    else if StartsWith(name, table[0].prefix) then table[0].devType
    else
      var r := TypeIn(table[1..], name);
      assert forall k :: IsFirstPrefix(table, name, k) ==> IsFirstPrefix(table[1..], name, k - 1);
      r
  }

  /** Whenever some entry is a prefix, there is a first one. */
  lemma {:induction false} FirstPrefixExists(table: seq<NamePair>, name: string)
    requires !NoPrefix(table, name)
    ensures exists k :: IsFirstPrefix(table, name, k)
    decreases |table|
  {
    if StartsWith(name, table[0].prefix) {
      assert IsFirstPrefix(table, name, 0);
    } else {
      FirstPrefixExists(table[1..], name);
      var k :| IsFirstPrefix(table[1..], name, k);
      assert IsFirstPrefix(table, name, k + 1);
    }
  }

  /** `DevType::from_name`. */
  function FromName(name: string): (r: DevType)
    ensures NoPrefix(ETH_NAMES, name) ==> r == Unknown
    ensures forall k :: IsFirstPrefix(ETH_NAMES, name, k) ==> r == ETH_NAMES[k].devType
  {
    TypeIn(ETH_NAMES, name)
  }

  /**
   * Since no table entry maps to `Unknown`, a name is classified `Unknown`
   * exactly when no entry is a prefix of it.
   */
  lemma UnknownIffNoPrefix(name: string)
    ensures FromName(name) == Unknown <==> NoPrefix(ETH_NAMES, name)
  {
    assert NoUnknownEntry(ETH_NAMES);
    if !NoPrefix(ETH_NAMES, name) {
      FirstPrefixExists(ETH_NAMES, name);
    }
  }

  /** Every prefix in the table is non-empty, so the empty name is `Unknown`. */
  lemma EmptyNameUnknown()
    ensures FromName("") == Unknown
  {
    assert forall j :: 0 <= j < |ETH_NAMES| ==> ETH_NAMES[j].prefix != [];
  }

  /** `p` disagrees with `name` within its first three characters. */
  predicate EarlyMismatch(name: string, p: string) {
    MismatchAt(name, p, 0) || MismatchAt(name, p, 1) || MismatchAt(name, p, 2)
  }

  /**
   * A name that begins with the prefix of entry `k` and disagrees early with
   * every earlier prefix is classified by entry `k`.
   */
  lemma ClassifiedBy(name: string, k: nat)
    requires k < |ETH_NAMES| && StartsWith(name, ETH_NAMES[k].prefix)
    requires forall j :: 0 <= j < k ==> EarlyMismatch(name, ETH_NAMES[j].prefix)
    ensures IsFirstPrefix(ETH_NAMES, name, k)
    ensures FromName(name) == ETH_NAMES[k].devType
  {
    forall j | 0 <= j < k ensures !StartsWith(name, ETH_NAMES[j].prefix) {
      var p := ETH_NAMES[j].prefix;
      if MismatchAt(name, p, 0) {
        MismatchNotPrefix(name, p, 0);
      } else if MismatchAt(name, p, 1) {
        MismatchNotPrefix(name, p, 1);
      } else {
        MismatchNotPrefix(name, p, 2);
      }
    }
    assert IsFirstPrefix(ETH_NAMES, name, k);
  }

  /** A name that disagrees early with every prefix of the table is `Unknown`. */
  lemma UnclassifiedName(name: string)
    requires forall j :: 0 <= j < |ETH_NAMES| ==> EarlyMismatch(name, ETH_NAMES[j].prefix)
    ensures FromName(name) == Unknown
  {
    forall j | 0 <= j < |ETH_NAMES| ensures !StartsWith(name, ETH_NAMES[j].prefix) {
      var p := ETH_NAMES[j].prefix;
      if MismatchAt(name, p, 0) {
        MismatchNotPrefix(name, p, 0);
      } else if MismatchAt(name, p, 1) {
        MismatchNotPrefix(name, p, 1);
      } else {
        MismatchNotPrefix(name, p, 2);
      }
    }
  }

  // Typical interface names, one per type.

  lemma LoopbackExample()
    ensures FromName("lo") == Loopback
  {
    ClassifiedBy("lo", 4);
  }

  lemma EthernetExample()
    ensures FromName("enp3s0") == Ethernet
  {
    ClassifiedBy("enp3s0", 2);
  }

  lemma WirelessExample()
    ensures FromName("wlan0") == Wireless
  {
    ClassifiedBy("wlan0", 6);
  }

  lemma BridgeExample()
    ensures FromName("docker0") == Bridge
  {
    ClassifiedBy("docker0", 12);
  }

  lemma PointToPointExample()
    ensures FromName("tun0") == PointToPoint
  {
    ClassifiedBy("tun0", 14);
  }

  lemma VirtualNetworkExample()
    ensures FromName("veth1a") == VirtualNetwork
  {
    ClassifiedBy("veth1a", 20);
  }

  lemma MeshExample()
    ensures FromName("msh0") == Mesh
  {
    ClassifiedBy("msh0", 21);
  }

  lemma BluetoothExample()
    ensures FromName("bnep0") == Bluetooth
  {
    ClassifiedBy("bnep0", 15);
  }

  /** Overlapping prefixes: "vmnet8" is listed before "vmnet". */
  lemma VmnetOrderExample()
    ensures FromName("vmnet80") == VirtualNetwork && IsFirstPrefix(ETH_NAMES, "vmnet80", 16)
  {
    ClassifiedBy("vmnet80", 16);
  }

  /** Overlapping prefixes: "wlan" is listed before "wl", which still catches "wlp2s0". */
  lemma WlOrderExample()
    ensures FromName("wlp2s0") == Wireless && IsFirstPrefix(ETH_NAMES, "wlp2s0", 9)
  {
    ClassifiedBy("wlp2s0", 9);
  }

  /** Matching is by prefix, not substring. */
  lemma SubstringExample()
    ensures FromName("myeth0") == Unknown
  {
    UnclassifiedName("myeth0");
  }

  /** Matching is case-sensitive. */
  lemma CaseExample()
    ensures FromName("ETH0") == Unknown
  {
    UnclassifiedName("ETH0");
  }
}
