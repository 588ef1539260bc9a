/**
 * The vendor table of src/computer/vendor.rs and its two first-match
 * lookups: a vendor string is identified by the first table entry whose id
 * occurs in it as a substring.
 */
module Vendor {
  import opened Common
  import opened RustStr

  /** One table row: an identifying substring, the canonical name and the web site. */
  datatype Vendor = Vendor(id: string, name: string, url: string)

  // The table is written in parts, in source order, so that the verifier can
  // index it; VENDOR_LIST is their concatenation.
  /** Peripheral and component vendors, first part. */
  const DEVICE_VENDORS_1: seq<Vendor> := [
    Vendor("ATI", "ATI Technologies", "https://www.amd.com"),
    Vendor("nVidia", "nVidia", "https://www.nvidia.com"),
    Vendor("NVidia", "nVidia", "https://www.nvidia.com"),
    Vendor("3Com", "3Com", "https://www.hpe.com"),
    Vendor("Intel", "Intel", "https://www.intel.com"),
    Vendor("Cirrus Logic", "Cirrus Logic", "https://www.cirrus.com"),
    Vendor("VIA Technologies", "VIA Technologies", "https://www.viatech.com"),
    Vendor("VIA", "VIA Technologies", "https://www.viatech.com"),
    Vendor("hp", "Hewlett-Packard", "https://www.hp.com"),
    Vendor("NEC Corporation", "NEC Coporation", "https://www.nec.com"),
    Vendor("MAXTOR", "MAXTOR", "https://www.seagate.com"),
    Vendor("SAMSUNG", "SAMSUNG", "https://www.samsung.com"),
    Vendor("PIONEER", "PIONEER", "https://www.pioneer.eur"),
    Vendor("PLEXTOR", "PLEXTOR", "https://www.goplextor.com"),
    Vendor("Realtek Semiconductor", "Realtek", "https://www.realtek.com"),
    Vendor("TOSHIBA", "TOSHIBA", "https://www.toshiba.com")
  ]
  /** Peripheral and component vendors, second part. */
  const DEVICE_VENDORS_2: seq<Vendor> := [
    Vendor("LITE-ON", "LITE-ON", "https://www.liteon.com"),
    Vendor("WDC", "Western Digital", "https://www.westerndigital.com"),
    Vendor("HL-DT-ST", "LG Electronics", "https://www.lg.com"),
    Vendor("ST", "SEAGATE", "https://www.seagate.com"),
    Vendor("Lexmark", "Lexmark", "https://www.lexmark.com"),
    Vendor("_NEC", "NEC Corporation", "https://www.necam.com"),
    Vendor("Creative Labs", "Creative Labs", "https://creative.com"),
    Vendor("Brooktree", "Conexant", "https://www.synaptics.com"),
    Vendor("Atheros", "Atheros Communications", "https://www.qualcomm.com"),
    Vendor("MATSHITA", "Panasonic", "https://panasonic.com"),
    Vendor("Silicon Image", "Silicon Image", "https://www.latticesemi.com"),
    Vendor("Silicon Integrated Image", "Silicon Image", "https://www.latticesemi.com"),
    Vendor("KYE", "KYE Systems", "https://global.geniusnet.com"),
    Vendor("Broadcom", "Broadcom", "https://www.broadcom.com"),
    Vendor("Apple", "Apple", "https://www.apple.com"),
    Vendor("IBM", "IBM", "https://www.ibm.com")
  ]
  /** Peripheral and component vendors, third part. */
  const DEVICE_VENDORS_3: seq<Vendor> := [
    Vendor("Dell", "Dell Computer", "https://www.dell.com"),
    Vendor("Logitech", "Logitech International", "https://www.logitech.com"),
    Vendor("FUJITSU", "Fujitsu", "https://www.fujitsu.com"),
    Vendor("CDU", "Sony", "https://www.sony.com"),
    Vendor("SanDisk", "SanDisk", "https://www.westerndigital.com"),
    Vendor("ExcelStor", "ExcelStor Technology", ""),
    Vendor("D-Link", "D-Link", "https://www.dlink.com"),
    Vendor("Giga-byte", "Gigabyte Technology", "https://www.gigabyte.com"),
    Vendor("Gigabyte", "Gigabyte Technology", "https://www.gigabyte.com"),
    Vendor("C-Media", "C-Media Electronics", "https://www.cmedia.com.tw"),
    Vendor("Avermedia", "AVerMedia Technologies", "https://www.averusa.com"),
    Vendor("Philips", "Philips", "https://www.philips.com"),
    Vendor("RaLink", "Ralink Technology", "https://www.mediatek.com"),
    Vendor("Siemens", "Siemens AG", "https://www.siemens.com"),
    Vendor("HP", "Hewlett-Packard", "https://www.hp.com"),
    Vendor("Hewlett-Packard", "Hewlett-Packard", "https://www.hp.com")
  ]
  /** Peripheral and component vendors, fourth part. */
  const DEVICE_VENDORS_4: seq<Vendor> := [
    Vendor("TEAC", "TEAC America", "https://www.teac.co.jp"),
    Vendor("Microsoft", "Microsoft", "https://www.microsoft.com"),
    Vendor("Memorex", "Memorex Products", "https://www.memorex.com"),
    Vendor("eMPIA", "eMPIA Technology", "https://www.empiatech.com"),
    Vendor("Canon", "Canon", "https://www.canon.com"),
    Vendor("A4Tech", "A4tech", "https://www.a4tech.com"),
    Vendor("ALCOR", "Alcor", "https://www.alcor.org"),
    Vendor("Vimicro", "Vimicro", "http://www.vimicro.com"),
    Vendor("OTi", "Ours Technology", "https://www.oti.com.tw"),
    Vendor("BENQ", "BenQ", "https://www.benq.com"),
    Vendor("Acer", "Acer", "https://www.acer.com"),
    Vendor("QUANTUM", "Quantum", "https://www.quantum.com"),
    Vendor("Kingston", "Kingston", "https://www.kingston.com"),
    Vendor("Chicony", "Chicony", "https://www.chicony.com"),
    Vendor("Genius", "Genius", "https://genius.ru")
  ]
  /** BIOS manufacturers. */
  const BIOS_VENDORS: seq<Vendor> := [
    Vendor("American Megatrends", "American Megatrends", "https://www.ami.com"),
    Vendor("Award", "Award Software International", "https://www.award-bios.com"),
    Vendor("Phoenix", "Phoenix Technologies", "https://www.phoenix.com")
  ]
  /** x86 CPU vendor strings. */
  const CPU_VENDORS: seq<Vendor> := [
    Vendor("AMDisbetter!", "Advanced Micro Devices", "https://www.amd.com"),
    Vendor("AuthenticAMD", "Advanced Micro Devices", "https://www.amd.com"),
    Vendor("CentaurHauls", "VIA (formerly Centaur Technology)", "https://www.via.tw"),
    Vendor("CyrixInstead", "Cyrix", "https://www.amd.com"),
    Vendor("GenuineIntel", "Intel", "https://www.intel.com"),
    Vendor("TransmetaCPU", "Transmeta", ""),
    Vendor("GenuineTMx86", "Transmeta", ""),
    Vendor("Geode by NSC", "National Semiconductor", ""),
    Vendor("NexGenDriven", "NexGen", ""),
    Vendor("RiseRiseRise", "Rise Technology", ""),
    Vendor("SiS SiS SiS", "Silicon Integrated Systems", ""),
    Vendor("UMC UMC UMC", "United Microelectronics Corporation", "https://www.umc.com"),
    Vendor("VIA VIA VIA", "VIA", "https://www.via.tw"),
    Vendor("Vortex86 SoC", "DMP Electronics", "https://www.vortex86.com")
  ]
  /** x86 hypervisor vendor strings. */
  const HYPERVISOR_VENDORS: seq<Vendor> := [
    Vendor("KVMKVMKVM", "KVM", "https://www.linux-kvm.org"),
    Vendor("Microsoft Hv", "Microsoft Hyper-V", "https://www.microsoft.com"),
    Vendor("lrpepyh vr", "Parallels", ""),
    Vendor("VMwareVMware", "VMware", "https://www.vmware.com"),
    Vendor("XenVMMXenVMM", "Xen HVM", "")
  ]

  /** The vendor table; order decides which of several matching entries wins. */
  const VENDOR_LIST: seq<Vendor> :=
    DEVICE_VENDORS_1 + DEVICE_VENDORS_2 + DEVICE_VENDORS_3 + DEVICE_VENDORS_4 +
    BIOS_VENDORS + CPU_VENDORS + HYPERVISOR_VENDORS

  /** Entry `k` of `list` is the first one whose id occurs in `s`. */
  predicate IsFirstMatch(list: seq<Vendor>, s: string, k: int) {
    && 0 <= k < |list|
    && Contains(s, list[k].id)
    && forall j :: 0 <= j < k ==> !Contains(s, list[j].id)
  }

  /** No entry of `list` has an id that occurs in `s`. */
  predicate NoMatch(list: seq<Vendor>, s: string) {
    forall j :: 0 <= j < |list| ==> !Contains(s, list[j].id)
  }

  /** Whenever some entry matches, there is a first one. */
  lemma {:induction false} FirstMatchExists(list: seq<Vendor>, s: string)
    requires !NoMatch(list, s)
    ensures exists k :: IsFirstMatch(list, s, k)
    decreases |list|
  {
    if Contains(s, list[0].id) {
      assert IsFirstMatch(list, s, 0);
    } else {
      FirstMatchExists(list[1..], s);
      var k :| IsFirstMatch(list[1..], s, k);
      assert IsFirstMatch(list, s, k + 1);
    }
  }

  /** The loop of `get_name` over `list`: the name of the first matching entry. */
  function NameIn(list: seq<Vendor>, s: string): (r: Option<string>)
    ensures r.None? <==> NoMatch(list, s)
    ensures forall k :: IsFirstMatch(list, s, k) ==> r == Some(list[k].name)
    decreases |list|
  {
    if list == [] then None
    else if Contains(s, list[0].id) then Some(list[0].name)
    else
      var r := NameIn(list[1..], s);
      assert forall k :: IsFirstMatch(list, s, k) ==> IsFirstMatch(list[1..], s, k - 1);
      r
  }

  /** The loop of `get_url` over `list`: the web site of the first matching entry. */
  function UrlIn(list: seq<Vendor>, s: string): (r: Option<string>)
    ensures r.None? <==> NoMatch(list, s)
    ensures forall k :: IsFirstMatch(list, s, k) ==> r == Some(list[k].url)
    decreases |list|
  {
    if list == [] then None
    else if Contains(s, list[0].id) then Some(list[0].url)
    else
      var r := UrlIn(list[1..], s);
      assert forall k :: IsFirstMatch(list, s, k) ==> IsFirstMatch(list[1..], s, k - 1);
      r
  }

  /** `get_name`: the name of the first table entry whose id occurs in `id`. */
  function GetName(id: string): (r: Option<string>)
    ensures r.None? <==> NoMatch(VENDOR_LIST, id)
    ensures forall k :: IsFirstMatch(VENDOR_LIST, id, k) ==> r == Some(VENDOR_LIST[k].name)
  {
    NameIn(VENDOR_LIST, id)
  }

  /** `get_url`: the web site of the first table entry whose id occurs in `id`. */
  function GetUrl(id: string): (r: Option<string>)
    ensures r.None? <==> NoMatch(VENDOR_LIST, id)
    ensures forall k :: IsFirstMatch(VENDOR_LIST, id, k) ==> r == Some(VENDOR_LIST[k].url)
  {
    UrlIn(VENDOR_LIST, id)
  }

  /** Name and web site always come from the same table entry, or are both absent. */
  lemma NameAndUrlAgree(id: string)
    ensures GetName(id).None? <==> GetUrl(id).None?
    ensures GetName(id).Some? ==>
      exists k :: IsFirstMatch(VENDOR_LIST, id, k) &&
        GetName(id) == Some(VENDOR_LIST[k].name) && GetUrl(id) == Some(VENDOR_LIST[k].url)
  {
    if !NoMatch(VENDOR_LIST, id) {
      FirstMatchExists(VENDOR_LIST, id);
    }
  }

  // ---------------------------------------------------------------------
  // Concrete lookups. That an id does NOT occur in a string is shown by a
  // witness character: a character of the id that the string lacks. `w[j]`
  // is the witness of entry `j`.

  /** `w[j]` is a character of the id of entry `j`, for every position of `w`. */
  predicate Witnesses(list: seq<Vendor>, w: string) {
    |w| <= |list| && forall j :: 0 <= j < |w| ==> w[j] in list[j].id
  }

  /** No character of `cs` occurs in `s`. */
  predicate Avoids(s: string, cs: set<char>) {
    forall k :: 0 <= k < |s| ==> s[k] !in cs
  }

  /** Witnesses for two consecutive parts of a table, the first complete when the second is used. */
  lemma WitnessesAppend(a: seq<Vendor>, b: seq<Vendor>, wa: string, wb: string)
    requires Witnesses(a, wa) && Witnesses(b, wb)
    requires |wa| < |a| ==> wb == []
    ensures Witnesses(a + b, wa + wb)
  {
    if wb == [] {
      assert wa + wb == wa;
    } else {
      forall j | 0 <= j < |wa + wb| ensures (wa + wb)[j] in (a + b)[j].id {
        if j >= |wa| {
          assert (wa + wb)[j] == wb[j - |wa|];
          assert (a + b)[j] == b[j - |a|];
        }
      }
    }
  }

  /** Every character of `w` is one of `cs`. */
  predicate Within(w: string, cs: set<char>) {
    forall j :: 0 <= j < |w| ==> w[j] in cs
  }

  lemma WithinConcat(a: string, b: string, cs: set<char>)
    requires Within(a, cs) && Within(b, cs)
    ensures Within(a + b, cs)
  {
    forall j | |a| <= j < |a + b| ensures (a + b)[j] in cs {
      assert (a + b)[j] == b[j - |a|];
    }
  }

  /** `w[j]` is a character of the id of entry `j`, for `j` from `lo` up to `hi`. */
  predicate WitnessRange(list: seq<Vendor>, w: string, lo: nat, hi: nat) {
    lo <= hi <= |w| && hi <= |list| && forall j :: lo <= j < hi ==> w[j] in list[j].id
  }

  /** No character of `s` from position `lo` up to `hi` is one of `cs`. */
  predicate AvoidsRange(s: string, cs: set<char>, lo: nat, hi: nat) {
    lo <= hi <= |s| && forall k :: lo <= k < hi ==> s[k] !in cs
  }

  /**
   * Witnesses for the parts of the table, in order, are witnesses for the
   * whole table, and drawn from `cs` when each part's are.
   */
  lemma TableWitnesses(w: seq<string>, cs: set<char>)
    requires |w| == 7 && forall i :: 0 <= i < 7 ==> Within(w[i], cs)
    requires Witnesses(DEVICE_VENDORS_1, w[0]) && Witnesses(DEVICE_VENDORS_2, w[1])
    requires Witnesses(DEVICE_VENDORS_3, w[2]) && Witnesses(DEVICE_VENDORS_4, w[3])
    requires Witnesses(BIOS_VENDORS, w[4]) && Witnesses(CPU_VENDORS, w[5])
    requires Witnesses(HYPERVISOR_VENDORS, w[6])
    requires |w[0]| < |DEVICE_VENDORS_1| ==> w[1] == []
    requires |w[1]| < |DEVICE_VENDORS_2| ==> w[2] == []
    requires |w[2]| < |DEVICE_VENDORS_3| ==> w[3] == []
    requires |w[3]| < |DEVICE_VENDORS_4| ==> w[4] == []
    requires |w[4]| < |BIOS_VENDORS| ==> w[5] == []
    requires |w[5]| < |CPU_VENDORS| ==> w[6] == []
    ensures Witnesses(VENDOR_LIST, w[0] + w[1] + w[2] + w[3] + w[4] + w[5] + w[6])
    ensures Within(w[0] + w[1] + w[2] + w[3] + w[4] + w[5] + w[6], cs)
  {
    var t2 := DEVICE_VENDORS_1 + DEVICE_VENDORS_2;
    var t3 := t2 + DEVICE_VENDORS_3;
    var t4 := t3 + DEVICE_VENDORS_4;
    var t5 := t4 + BIOS_VENDORS;
    var t6 := t5 + CPU_VENDORS;
    WitnessesAppend(DEVICE_VENDORS_1, DEVICE_VENDORS_2, w[0], w[1]);
    WitnessesAppend(t2, DEVICE_VENDORS_3, w[0] + w[1], w[2]);
    WitnessesAppend(t3, DEVICE_VENDORS_4, w[0] + w[1] + w[2], w[3]);
    WitnessesAppend(t4, BIOS_VENDORS, w[0] + w[1] + w[2] + w[3], w[4]);
    WitnessesAppend(t5, CPU_VENDORS, w[0] + w[1] + w[2] + w[3] + w[4], w[5]);
    WitnessesAppend(t6, HYPERVISOR_VENDORS, w[0] + w[1] + w[2] + w[3] + w[4] + w[5], w[6]);
    WithinConcat(w[0], w[1], cs);
    WithinConcat(w[0] + w[1], w[2], cs);
    WithinConcat(w[0] + w[1] + w[2], w[3], cs);
    WithinConcat(w[0] + w[1] + w[2] + w[3], w[4], cs);
    WithinConcat(w[0] + w[1] + w[2] + w[3] + w[4], w[5], cs);
    WithinConcat(w[0] + w[1] + w[2] + w[3] + w[4] + w[5], w[6], cs);
  }

  /**
   * Entry `k` is selected for `s` when `s` contains its id, lacks the witness
   * of each entry before `|w|`, and contains no id between the two: both
   * lookups then answer from entry `k`, whatever later entries match.
   */
  lemma SelectedByWitness(s: string, w: string, cs: set<char>, k: nat)
    requires |w| <= k < |VENDOR_LIST| && Witnesses(VENDOR_LIST, w)
    requires Within(w, cs) && Avoids(s, cs)
    requires forall j :: |w| <= j < k ==> !Contains(s, VENDOR_LIST[j].id)
    requires Contains(s, VENDOR_LIST[k].id)
    ensures GetName(s) == Some(VENDOR_LIST[k].name)
    ensures GetUrl(s) == Some(VENDOR_LIST[k].url)
  {
    forall j | 0 <= j < |w| ensures !Contains(s, VENDOR_LIST[j].id) {
      AbsentChar(s, VENDOR_LIST[j].id, w[j]);
    }
    assert IsFirstMatch(VENDOR_LIST, s, k);
  }

  /** Every id of `list` is non-empty. */
  predicate NonEmptyIds(list: seq<Vendor>) {
    forall j :: 0 <= j < |list| ==> list[j].id != []
  }

  lemma NonEmptyIdsConcat(a: seq<Vendor>, b: seq<Vendor>)
    requires NonEmptyIds(a) && NonEmptyIds(b)
    ensures NonEmptyIds(a + b)
  {
    forall j | |a| <= j < |a + b| ensures (a + b)[j].id != [] {
      assert (a + b)[j] == b[j - |a|];
    }
  }

  lemma DevicePartsNonEmptyIds()
    ensures NonEmptyIds(DEVICE_VENDORS_1) && NonEmptyIds(DEVICE_VENDORS_2)
    ensures NonEmptyIds(DEVICE_VENDORS_3) && NonEmptyIds(DEVICE_VENDORS_4)
  {
  }

  lemma OtherPartsNonEmptyIds()
    ensures NonEmptyIds(BIOS_VENDORS) && NonEmptyIds(CPU_VENDORS) && NonEmptyIds(HYPERVISOR_VENDORS)
  {
  }

  /** Every id of the table is non-empty. */
  lemma IdsNonEmpty()
    ensures NonEmptyIds(VENDOR_LIST)
  {
    DevicePartsNonEmptyIds();
    OtherPartsNonEmptyIds();
    var t2 := DEVICE_VENDORS_1 + DEVICE_VENDORS_2;
    var t3 := t2 + DEVICE_VENDORS_3;
    var t4 := t3 + DEVICE_VENDORS_4;
    var t5 := t4 + BIOS_VENDORS;
    var t6 := t5 + CPU_VENDORS;
    NonEmptyIdsConcat(DEVICE_VENDORS_1, DEVICE_VENDORS_2);
    NonEmptyIdsConcat(t2, DEVICE_VENDORS_3);
    NonEmptyIdsConcat(t3, DEVICE_VENDORS_4);
    NonEmptyIdsConcat(t4, BIOS_VENDORS);
    NonEmptyIdsConcat(t5, CPU_VENDORS);
    NonEmptyIdsConcat(t6, HYPERVISOR_VENDORS);
  }

  /** Since no id is empty, the empty string names no vendor. */
  lemma EmptyHasNoVendor()
    ensures GetName("") == None && GetUrl("") == None
  {
    IdsNonEmpty();
    forall j | 0 <= j < |VENDOR_LIST| ensures !Contains("", VENDOR_LIST[j].id) {
      AbsentChar("", VENDOR_LIST[j].id, VENDOR_LIST[j].id[0]);
    }
  }

  // The first string of the source's tests names Realtek, entry 14. Its web site is the table's, not the one the test expects.

  /** Witnesses of entries 0 to 13, part by part, and the characters they use. */
  const REALTEK_WITNESS: seq<string> := ["AVV3IsVVhNAAIP", "", "", "", "", "", ""]
  const REALTEK_CHARS: set<char> := {'A', 'V', '3', 'I', 's', 'h', 'N', 'P'}

  lemma RealtekPart1Range1()
    ensures WitnessRange(DEVICE_VENDORS_1, REALTEK_WITNESS[0], 0, 6)
  {
  }

  lemma RealtekPart1Range2()
    ensures WitnessRange(DEVICE_VENDORS_1, REALTEK_WITNESS[0], 6, 12)
  {
  }

  lemma RealtekPart1Range3()
    ensures WitnessRange(DEVICE_VENDORS_1, REALTEK_WITNESS[0], 12, 14)
  {
  }

  lemma RealtekPart1()
    ensures Witnesses(DEVICE_VENDORS_1, REALTEK_WITNESS[0]) && Within(REALTEK_WITNESS[0], REALTEK_CHARS)
  {
    RealtekPart1Range1();
    RealtekPart1Range2();
    RealtekPart1Range3();
  }

  lemma RealtekWitnesses()
    ensures Witnesses(VENDOR_LIST, REALTEK_WITNESS[0] + REALTEK_WITNESS[1] + REALTEK_WITNESS[2] + REALTEK_WITNESS[3] + REALTEK_WITNESS[4] + REALTEK_WITNESS[5] + REALTEK_WITNESS[6])
    ensures Within(REALTEK_WITNESS[0] + REALTEK_WITNESS[1] + REALTEK_WITNESS[2] + REALTEK_WITNESS[3] + REALTEK_WITNESS[4] + REALTEK_WITNESS[5] + REALTEK_WITNESS[6], REALTEK_CHARS)
  {
    RealtekPart1();
    TableWitnesses(REALTEK_WITNESS, REALTEK_CHARS);
  }

  /** Any string that begins with "Realtek Semiconductor" and lacks the witness characters is resolved by entry 14. */
  lemma RealtekSelected(s: string)
    requires StartsWith(s, "Realtek Semiconductor") && Avoids(s, REALTEK_CHARS)
    ensures GetName(s) == Some("Realtek") && GetUrl(s) == Some("https://www.realtek.com")
  {
    RealtekWitnesses();
    assert VENDOR_LIST[14] == Vendor("Realtek Semiconductor", "Realtek", "https://www.realtek.com");
    ContainsPrefix(s, "Realtek Semiconductor");
    SelectedByWitness(s, REALTEK_WITNESS[0] + REALTEK_WITNESS[1] + REALTEK_WITNESS[2] + REALTEK_WITNESS[3] + REALTEK_WITNESS[4] + REALTEK_WITNESS[5] + REALTEK_WITNESS[6], REALTEK_CHARS, 14);
  }

  lemma RealtekAvoids1()
    ensures AvoidsRange("Realtek Semiconductor Co., Ltd. RTL8821CE", REALTEK_CHARS, 0, 11)
  {
  }

  lemma RealtekAvoids2()
    ensures AvoidsRange("Realtek Semiconductor Co., Ltd. RTL8821CE", REALTEK_CHARS, 11, 22)
  {
  }

  lemma RealtekAvoids3()
    ensures AvoidsRange("Realtek Semiconductor Co., Ltd. RTL8821CE", REALTEK_CHARS, 22, 33)
  {
  }

  lemma RealtekAvoids4()
    ensures AvoidsRange("Realtek Semiconductor Co., Ltd. RTL8821CE", REALTEK_CHARS, 33, 41)
  {
  }

  lemma RealtekAvoids()
    ensures Avoids("Realtek Semiconductor Co., Ltd. RTL8821CE", REALTEK_CHARS)
  {
    RealtekAvoids1();
    RealtekAvoids2();
    RealtekAvoids3();
    RealtekAvoids4();
  }

  lemma RealtekExample()
    ensures GetName("Realtek Semiconductor Co., Ltd. RTL8821CE") == Some("Realtek")
    ensures GetUrl("Realtek Semiconductor Co., Ltd. RTL8821CE") == Some("https://www.realtek.com")
  {
    RealtekAvoids();
    RealtekSelected("Realtek Semiconductor Co., Ltd. RTL8821CE");
  }

  // The second string of the source's tests names Hewlett-Packard through entry 47: entry 46, "HP", does not occur in it although both of its letters do.

  /** Witnesses of entries 0 to 45, part by part, and the characters they use. */
  const HEWLETT_PACKARD_WITNESS: seq<string> := ["AVV3IiVVhiAAIXiI", "IWDSx_iBAASSKBAI", "DiIDSxDiiiAhiS", "", "", "", ""]
  const HEWLETT_PACKARD_CHARS: set<char> := {'A', 'V', '3', 'I', 'i', 'h', 'X', 'W', 'D', 'S', 'x', '_', 'B', 'K'}

  lemma HewlettPackardPart1Range1()
    ensures WitnessRange(DEVICE_VENDORS_1, HEWLETT_PACKARD_WITNESS[0], 0, 6)
  {
  }

  lemma HewlettPackardPart1Range2()
    ensures WitnessRange(DEVICE_VENDORS_1, HEWLETT_PACKARD_WITNESS[0], 6, 12)
  {
  }

  lemma HewlettPackardPart1Range3()
    ensures WitnessRange(DEVICE_VENDORS_1, HEWLETT_PACKARD_WITNESS[0], 12, 16)
  {
  }

  lemma HewlettPackardPart1()
    ensures Witnesses(DEVICE_VENDORS_1, HEWLETT_PACKARD_WITNESS[0]) && Within(HEWLETT_PACKARD_WITNESS[0], HEWLETT_PACKARD_CHARS)
  {
    HewlettPackardPart1Range1();
    HewlettPackardPart1Range2();
    HewlettPackardPart1Range3();
  }

  lemma HewlettPackardPart2Range1()
    ensures WitnessRange(DEVICE_VENDORS_2, HEWLETT_PACKARD_WITNESS[1], 0, 6)
  {
  }

  lemma HewlettPackardPart2Range2()
    ensures WitnessRange(DEVICE_VENDORS_2, HEWLETT_PACKARD_WITNESS[1], 6, 12)
  {
  }

  lemma HewlettPackardPart2Range3()
    ensures WitnessRange(DEVICE_VENDORS_2, HEWLETT_PACKARD_WITNESS[1], 12, 16)
  {
  }

  lemma HewlettPackardPart2()
    ensures Witnesses(DEVICE_VENDORS_2, HEWLETT_PACKARD_WITNESS[1]) && Within(HEWLETT_PACKARD_WITNESS[1], HEWLETT_PACKARD_CHARS)
  {
    HewlettPackardPart2Range1();
    HewlettPackardPart2Range2();
    HewlettPackardPart2Range3();
  }

  lemma HewlettPackardPart3Range1()
    ensures WitnessRange(DEVICE_VENDORS_3, HEWLETT_PACKARD_WITNESS[2], 0, 6)
  {
  }

  lemma HewlettPackardPart3Range2()
    ensures WitnessRange(DEVICE_VENDORS_3, HEWLETT_PACKARD_WITNESS[2], 6, 12)
  {
  }

  lemma HewlettPackardPart3Range3()
    ensures WitnessRange(DEVICE_VENDORS_3, HEWLETT_PACKARD_WITNESS[2], 12, 14)
  {
  }

  lemma HewlettPackardPart3()
    ensures Witnesses(DEVICE_VENDORS_3, HEWLETT_PACKARD_WITNESS[2]) && Within(HEWLETT_PACKARD_WITNESS[2], HEWLETT_PACKARD_CHARS)
  {
    HewlettPackardPart3Range1();
    HewlettPackardPart3Range2();
    HewlettPackardPart3Range3();
  }

  lemma HewlettPackardWitnesses()
    ensures Witnesses(VENDOR_LIST, HEWLETT_PACKARD_WITNESS[0] + HEWLETT_PACKARD_WITNESS[1] + HEWLETT_PACKARD_WITNESS[2] + HEWLETT_PACKARD_WITNESS[3] + HEWLETT_PACKARD_WITNESS[4] + HEWLETT_PACKARD_WITNESS[5] + HEWLETT_PACKARD_WITNESS[6])
    ensures Within(HEWLETT_PACKARD_WITNESS[0] + HEWLETT_PACKARD_WITNESS[1] + HEWLETT_PACKARD_WITNESS[2] + HEWLETT_PACKARD_WITNESS[3] + HEWLETT_PACKARD_WITNESS[4] + HEWLETT_PACKARD_WITNESS[5] + HEWLETT_PACKARD_WITNESS[6], HEWLETT_PACKARD_CHARS)
  {
    HewlettPackardPart1();
    HewlettPackardPart2();
    HewlettPackardPart3();
    TableWitnesses(HEWLETT_PACKARD_WITNESS, HEWLETT_PACKARD_CHARS);
  }

  /** Any string that begins with "Hewlett-Packard" and lacks the witness characters and does not contain "HP" is resolved by entry 47. */
  lemma HewlettPackardSelected(s: string)
    requires StartsWith(s, "Hewlett-Packard") && Avoids(s, HEWLETT_PACKARD_CHARS)
    requires !Contains(s, "HP")
    ensures GetName(s) == Some("Hewlett-Packard") && GetUrl(s) == Some("https://www.hp.com")
  {
    HewlettPackardWitnesses();
    assert VENDOR_LIST[47] == Vendor("Hewlett-Packard", "Hewlett-Packard", "https://www.hp.com");
    assert VENDOR_LIST[46].id == "HP";
    ContainsPrefix(s, "Hewlett-Packard");
    SelectedByWitness(s, HEWLETT_PACKARD_WITNESS[0] + HEWLETT_PACKARD_WITNESS[1] + HEWLETT_PACKARD_WITNESS[2] + HEWLETT_PACKARD_WITNESS[3] + HEWLETT_PACKARD_WITNESS[4] + HEWLETT_PACKARD_WITNESS[5] + HEWLETT_PACKARD_WITNESS[6], HEWLETT_PACKARD_CHARS, 47);
  }

  lemma HewlettPackardAvoids1()
    ensures AvoidsRange("Hewlett-Packard Company RTL8821CE", HEWLETT_PACKARD_CHARS, 0, 11)
  {
  }

  lemma HewlettPackardAvoids2()
    ensures AvoidsRange("Hewlett-Packard Company RTL8821CE", HEWLETT_PACKARD_CHARS, 11, 22)
  {
  }

  lemma HewlettPackardAvoids3()
    ensures AvoidsRange("Hewlett-Packard Company RTL8821CE", HEWLETT_PACKARD_CHARS, 22, 33)
  {
  }

  lemma HewlettPackardAvoids()
    ensures Avoids("Hewlett-Packard Company RTL8821CE", HEWLETT_PACKARD_CHARS)
  {
    HewlettPackardAvoids1();
    HewlettPackardAvoids2();
    HewlettPackardAvoids3();
  }

  lemma HewlettPackardLacksHp()
    ensures !Contains("Hewlett-Packard Company RTL8821CE", "HP")
  {
    var s := "Hewlett-Packard Company RTL8821CE";
    assert s[1] != 'P';
    assert forall k :: 1 <= k < |s| ==> s[k] != 'H';
    AbsentPastHead(s, "HP");
  }

  lemma HewlettPackardExample()
    ensures GetName("Hewlett-Packard Company RTL8821CE") == Some("Hewlett-Packard")
    ensures GetUrl("Hewlett-Packard Company RTL8821CE") == Some("https://www.hp.com")
  {
    HewlettPackardAvoids();
    HewlettPackardLacksHp();
    HewlettPackardSelected("Hewlett-Packard Company RTL8821CE");
  }

  // Order beats specificity: the CPU signature of entry 78 is caught first by entry 7, "VIA".

  /** Witnesses of entries 0 to 6, part by part, and the characters they use. */
  const VIA_TRIPLE_WITNESS: seq<string> := ["TnN3nCT", "", "", "", "", "", ""]
  const VIA_TRIPLE_CHARS: set<char> := {'T', 'n', 'N', '3', 'C'}

  lemma ViaTriplePart1Range1()
    ensures WitnessRange(DEVICE_VENDORS_1, VIA_TRIPLE_WITNESS[0], 0, 6)
  {
  }

  lemma ViaTriplePart1Range2()
    ensures WitnessRange(DEVICE_VENDORS_1, VIA_TRIPLE_WITNESS[0], 6, 7)
  {
  }

  lemma ViaTriplePart1()
    ensures Witnesses(DEVICE_VENDORS_1, VIA_TRIPLE_WITNESS[0]) && Within(VIA_TRIPLE_WITNESS[0], VIA_TRIPLE_CHARS)
  {
    ViaTriplePart1Range1();
    ViaTriplePart1Range2();
  }

  lemma ViaTripleWitnesses()
    ensures Witnesses(VENDOR_LIST, VIA_TRIPLE_WITNESS[0] + VIA_TRIPLE_WITNESS[1] + VIA_TRIPLE_WITNESS[2] + VIA_TRIPLE_WITNESS[3] + VIA_TRIPLE_WITNESS[4] + VIA_TRIPLE_WITNESS[5] + VIA_TRIPLE_WITNESS[6])
    ensures Within(VIA_TRIPLE_WITNESS[0] + VIA_TRIPLE_WITNESS[1] + VIA_TRIPLE_WITNESS[2] + VIA_TRIPLE_WITNESS[3] + VIA_TRIPLE_WITNESS[4] + VIA_TRIPLE_WITNESS[5] + VIA_TRIPLE_WITNESS[6], VIA_TRIPLE_CHARS)
  {
    ViaTriplePart1();
    TableWitnesses(VIA_TRIPLE_WITNESS, VIA_TRIPLE_CHARS);
  }

  /** Any string that begins with "VIA" and lacks the witness characters is resolved by entry 7. */
  lemma ViaTripleSelected(s: string)
    requires StartsWith(s, "VIA") && Avoids(s, VIA_TRIPLE_CHARS)
    ensures GetName(s) == Some("VIA Technologies") && GetUrl(s) == Some("https://www.viatech.com")
  {
    ViaTripleWitnesses();
    assert VENDOR_LIST[7] == Vendor("VIA", "VIA Technologies", "https://www.viatech.com");
    ContainsPrefix(s, "VIA");
    SelectedByWitness(s, VIA_TRIPLE_WITNESS[0] + VIA_TRIPLE_WITNESS[1] + VIA_TRIPLE_WITNESS[2] + VIA_TRIPLE_WITNESS[3] + VIA_TRIPLE_WITNESS[4] + VIA_TRIPLE_WITNESS[5] + VIA_TRIPLE_WITNESS[6], VIA_TRIPLE_CHARS, 7);
  }

  lemma ViaTripleAvoids1()
    ensures AvoidsRange("VIA VIA VIA", VIA_TRIPLE_CHARS, 0, 11)
  {
  }

  lemma ViaTripleAvoids()
    ensures Avoids("VIA VIA VIA", VIA_TRIPLE_CHARS)
  {
    ViaTripleAvoids1();
  }

  lemma ViaTripleExample()
    ensures GetName("VIA VIA VIA") == Some("VIA Technologies")
    ensures GetUrl("VIA VIA VIA") == Some("https://www.viatech.com")
  {
    ViaTripleAvoids();
    ViaTripleSelected("VIA VIA VIA");
  }

  // Order beats specificity: the hypervisor signature of entry 81 is caught first by entry 49, "Microsoft".

  /** Witnesses of entries 0 to 48, part by part, and the characters they use. */
  const MICROSOFT_HV_WITNESS: seq<string> := ["AnN3nCAAhNAANPnA", "NCLSLNCBAASSKBAB", "DLSCSSDGGCAPLSPP", "A", "", "", ""]
  const MICROSOFT_HV_CHARS: set<char> := {'A', 'n', 'N', '3', 'C', 'h', 'P', 'L', 'S', 'B', 'K', 'D', 'G'}

  lemma MicrosoftHvPart1Range1()
    ensures WitnessRange(DEVICE_VENDORS_1, MICROSOFT_HV_WITNESS[0], 0, 6)
  {
  }

  lemma MicrosoftHvPart1Range2()
    ensures WitnessRange(DEVICE_VENDORS_1, MICROSOFT_HV_WITNESS[0], 6, 12)
  {
  }

  lemma MicrosoftHvPart1Range3()
    ensures WitnessRange(DEVICE_VENDORS_1, MICROSOFT_HV_WITNESS[0], 12, 16)
  {
  }

  lemma MicrosoftHvPart1()
    ensures Witnesses(DEVICE_VENDORS_1, MICROSOFT_HV_WITNESS[0]) && Within(MICROSOFT_HV_WITNESS[0], MICROSOFT_HV_CHARS)
  {
    MicrosoftHvPart1Range1();
    MicrosoftHvPart1Range2();
    MicrosoftHvPart1Range3();
  }

  lemma MicrosoftHvPart2Range1()
    ensures WitnessRange(DEVICE_VENDORS_2, MICROSOFT_HV_WITNESS[1], 0, 6)
  {
  }

  lemma MicrosoftHvPart2Range2()
    ensures WitnessRange(DEVICE_VENDORS_2, MICROSOFT_HV_WITNESS[1], 6, 12)
  {
  }

  lemma MicrosoftHvPart2Range3()
    ensures WitnessRange(DEVICE_VENDORS_2, MICROSOFT_HV_WITNESS[1], 12, 16)
  {
  }

  lemma MicrosoftHvPart2()
    ensures Witnesses(DEVICE_VENDORS_2, MICROSOFT_HV_WITNESS[1]) && Within(MICROSOFT_HV_WITNESS[1], MICROSOFT_HV_CHARS)
  {
    MicrosoftHvPart2Range1();
    MicrosoftHvPart2Range2();
    MicrosoftHvPart2Range3();
  }

  lemma MicrosoftHvPart3Range1()
    ensures WitnessRange(DEVICE_VENDORS_3, MICROSOFT_HV_WITNESS[2], 0, 6)
  {
  }

  lemma MicrosoftHvPart3Range2()
    ensures WitnessRange(DEVICE_VENDORS_3, MICROSOFT_HV_WITNESS[2], 6, 12)
  {
  }

  lemma MicrosoftHvPart3Range3()
    ensures WitnessRange(DEVICE_VENDORS_3, MICROSOFT_HV_WITNESS[2], 12, 16)
  {
  }

  lemma MicrosoftHvPart3()
    ensures Witnesses(DEVICE_VENDORS_3, MICROSOFT_HV_WITNESS[2]) && Within(MICROSOFT_HV_WITNESS[2], MICROSOFT_HV_CHARS)
  {
    MicrosoftHvPart3Range1();
    MicrosoftHvPart3Range2();
    MicrosoftHvPart3Range3();
  }

  lemma MicrosoftHvPart4()
    ensures Witnesses(DEVICE_VENDORS_4, MICROSOFT_HV_WITNESS[3]) && Within(MICROSOFT_HV_WITNESS[3], MICROSOFT_HV_CHARS)
  {
  }

  lemma MicrosoftHvWitnesses()
    ensures Witnesses(VENDOR_LIST, MICROSOFT_HV_WITNESS[0] + MICROSOFT_HV_WITNESS[1] + MICROSOFT_HV_WITNESS[2] + MICROSOFT_HV_WITNESS[3] + MICROSOFT_HV_WITNESS[4] + MICROSOFT_HV_WITNESS[5] + MICROSOFT_HV_WITNESS[6])
    ensures Within(MICROSOFT_HV_WITNESS[0] + MICROSOFT_HV_WITNESS[1] + MICROSOFT_HV_WITNESS[2] + MICROSOFT_HV_WITNESS[3] + MICROSOFT_HV_WITNESS[4] + MICROSOFT_HV_WITNESS[5] + MICROSOFT_HV_WITNESS[6], MICROSOFT_HV_CHARS)
  {
    MicrosoftHvPart1();
    MicrosoftHvPart2();
    MicrosoftHvPart3();
    MicrosoftHvPart4();
    TableWitnesses(MICROSOFT_HV_WITNESS, MICROSOFT_HV_CHARS);
  }

  /** Any string that begins with "Microsoft" and lacks the witness characters is resolved by entry 49. */
  lemma MicrosoftHvSelected(s: string)
    requires StartsWith(s, "Microsoft") && Avoids(s, MICROSOFT_HV_CHARS)
    ensures GetName(s) == Some("Microsoft") && GetUrl(s) == Some("https://www.microsoft.com")
  {
    MicrosoftHvWitnesses();
    assert VENDOR_LIST[49] == Vendor("Microsoft", "Microsoft", "https://www.microsoft.com");
    ContainsPrefix(s, "Microsoft");
    SelectedByWitness(s, MICROSOFT_HV_WITNESS[0] + MICROSOFT_HV_WITNESS[1] + MICROSOFT_HV_WITNESS[2] + MICROSOFT_HV_WITNESS[3] + MICROSOFT_HV_WITNESS[4] + MICROSOFT_HV_WITNESS[5] + MICROSOFT_HV_WITNESS[6], MICROSOFT_HV_CHARS, 49);
  }

  lemma MicrosoftHvAvoids1()
    ensures AvoidsRange("Microsoft Hv", MICROSOFT_HV_CHARS, 0, 11)
  {
  }

  lemma MicrosoftHvAvoids2()
    ensures AvoidsRange("Microsoft Hv", MICROSOFT_HV_CHARS, 11, 12)
  {
  }

  lemma MicrosoftHvAvoids()
    ensures Avoids("Microsoft Hv", MICROSOFT_HV_CHARS)
  {
    MicrosoftHvAvoids1();
    MicrosoftHvAvoids2();
  }

  lemma MicrosoftHvExample()
    ensures GetName("Microsoft Hv") == Some("Microsoft")
    ensures GetUrl("Microsoft Hv") == Some("https://www.microsoft.com")
  {
    MicrosoftHvAvoids();
    MicrosoftHvSelected("Microsoft Hv");
  }

  // Lower-case "hp" is found as entry 8.

  /** Witnesses of entries 0 to 7, part by part, and the characters they use. */
  const LOWER_HP_WITNESS: seq<string> := ["AnN3nCAA", "", "", "", "", "", ""]
  const LOWER_HP_CHARS: set<char> := {'A', 'n', 'N', '3', 'C'}

  lemma LowerHpPart1Range1()
    ensures WitnessRange(DEVICE_VENDORS_1, LOWER_HP_WITNESS[0], 0, 6)
  {
  }

  lemma LowerHpPart1Range2()
    ensures WitnessRange(DEVICE_VENDORS_1, LOWER_HP_WITNESS[0], 6, 8)
  {
  }

  lemma LowerHpPart1()
    ensures Witnesses(DEVICE_VENDORS_1, LOWER_HP_WITNESS[0]) && Within(LOWER_HP_WITNESS[0], LOWER_HP_CHARS)
  {
    LowerHpPart1Range1();
    LowerHpPart1Range2();
  }

  lemma LowerHpWitnesses()
    ensures Witnesses(VENDOR_LIST, LOWER_HP_WITNESS[0] + LOWER_HP_WITNESS[1] + LOWER_HP_WITNESS[2] + LOWER_HP_WITNESS[3] + LOWER_HP_WITNESS[4] + LOWER_HP_WITNESS[5] + LOWER_HP_WITNESS[6])
    ensures Within(LOWER_HP_WITNESS[0] + LOWER_HP_WITNESS[1] + LOWER_HP_WITNESS[2] + LOWER_HP_WITNESS[3] + LOWER_HP_WITNESS[4] + LOWER_HP_WITNESS[5] + LOWER_HP_WITNESS[6], LOWER_HP_CHARS)
  {
    LowerHpPart1();
    TableWitnesses(LOWER_HP_WITNESS, LOWER_HP_CHARS);
  }

  /** Any string that begins with "hp" and lacks the witness characters is resolved by entry 8. */
  lemma LowerHpSelected(s: string)
    requires StartsWith(s, "hp") && Avoids(s, LOWER_HP_CHARS)
    ensures GetName(s) == Some("Hewlett-Packard") && GetUrl(s) == Some("https://www.hp.com")
  {
    LowerHpWitnesses();
    assert VENDOR_LIST[8] == Vendor("hp", "Hewlett-Packard", "https://www.hp.com");
    ContainsPrefix(s, "hp");
    SelectedByWitness(s, LOWER_HP_WITNESS[0] + LOWER_HP_WITNESS[1] + LOWER_HP_WITNESS[2] + LOWER_HP_WITNESS[3] + LOWER_HP_WITNESS[4] + LOWER_HP_WITNESS[5] + LOWER_HP_WITNESS[6], LOWER_HP_CHARS, 8);
  }

  lemma LowerHpExample()
    ensures GetName("hp") == Some("Hewlett-Packard")
    ensures GetUrl("hp") == Some("https://www.hp.com")
  {
    LowerHpSelected("hp");
  }

  // Upper-case "HP" is a separate entry, 46: matching is case-sensitive.

  /** Witnesses of entries 0 to 45, part by part, and the characters they use. */
  const UPPER_HP_WITNESS: seq<string> := ["AnN3nCAAhNAANLnA", "LCLSLNCBAASSKBAB", "DLSCSSDGGCAhLS", "", "", "", ""]
  const UPPER_HP_CHARS: set<char> := {'A', 'n', 'N', '3', 'C', 'h', 'L', 'S', 'B', 'K', 'D', 'G'}

  lemma UpperHpPart1Range1()
    ensures WitnessRange(DEVICE_VENDORS_1, UPPER_HP_WITNESS[0], 0, 6)
  {
  }

  lemma UpperHpPart1Range2()
    ensures WitnessRange(DEVICE_VENDORS_1, UPPER_HP_WITNESS[0], 6, 12)
  {
  }

  lemma UpperHpPart1Range3()
    ensures WitnessRange(DEVICE_VENDORS_1, UPPER_HP_WITNESS[0], 12, 16)
  {
  }

  lemma UpperHpPart1()
    ensures Witnesses(DEVICE_VENDORS_1, UPPER_HP_WITNESS[0]) && Within(UPPER_HP_WITNESS[0], UPPER_HP_CHARS)
  {
    UpperHpPart1Range1();
    UpperHpPart1Range2();
    UpperHpPart1Range3();
  }

  lemma UpperHpPart2Range1()
    ensures WitnessRange(DEVICE_VENDORS_2, UPPER_HP_WITNESS[1], 0, 6)
  {
  }

  lemma UpperHpPart2Range2()
    ensures WitnessRange(DEVICE_VENDORS_2, UPPER_HP_WITNESS[1], 6, 12)
  {
  }

  lemma UpperHpPart2Range3()
    ensures WitnessRange(DEVICE_VENDORS_2, UPPER_HP_WITNESS[1], 12, 16)
  {
  }

  lemma UpperHpPart2()
    ensures Witnesses(DEVICE_VENDORS_2, UPPER_HP_WITNESS[1]) && Within(UPPER_HP_WITNESS[1], UPPER_HP_CHARS)
  {
    UpperHpPart2Range1();
    UpperHpPart2Range2();
    UpperHpPart2Range3();
  }

  lemma UpperHpPart3Range1()
    ensures WitnessRange(DEVICE_VENDORS_3, UPPER_HP_WITNESS[2], 0, 6)
  {
  }

  lemma UpperHpPart3Range2()
    ensures WitnessRange(DEVICE_VENDORS_3, UPPER_HP_WITNESS[2], 6, 12)
  {
  }

  lemma UpperHpPart3Range3()
    ensures WitnessRange(DEVICE_VENDORS_3, UPPER_HP_WITNESS[2], 12, 14)
  {
  }

  lemma UpperHpPart3()
    ensures Witnesses(DEVICE_VENDORS_3, UPPER_HP_WITNESS[2]) && Within(UPPER_HP_WITNESS[2], UPPER_HP_CHARS)
  {
    UpperHpPart3Range1();
    UpperHpPart3Range2();
    UpperHpPart3Range3();
  }

  lemma UpperHpWitnesses()
    ensures Witnesses(VENDOR_LIST, UPPER_HP_WITNESS[0] + UPPER_HP_WITNESS[1] + UPPER_HP_WITNESS[2] + UPPER_HP_WITNESS[3] + UPPER_HP_WITNESS[4] + UPPER_HP_WITNESS[5] + UPPER_HP_WITNESS[6])
    ensures Within(UPPER_HP_WITNESS[0] + UPPER_HP_WITNESS[1] + UPPER_HP_WITNESS[2] + UPPER_HP_WITNESS[3] + UPPER_HP_WITNESS[4] + UPPER_HP_WITNESS[5] + UPPER_HP_WITNESS[6], UPPER_HP_CHARS)
  {
    UpperHpPart1();
    UpperHpPart2();
    UpperHpPart3();
    TableWitnesses(UPPER_HP_WITNESS, UPPER_HP_CHARS);
  }

  /** Any string that begins with "HP" and lacks the witness characters is resolved by entry 46. */
  lemma UpperHpSelected(s: string)
    requires StartsWith(s, "HP") && Avoids(s, UPPER_HP_CHARS)
    ensures GetName(s) == Some("Hewlett-Packard") && GetUrl(s) == Some("https://www.hp.com")
  {
    UpperHpWitnesses();
    assert VENDOR_LIST[46] == Vendor("HP", "Hewlett-Packard", "https://www.hp.com");
    ContainsPrefix(s, "HP");
    SelectedByWitness(s, UPPER_HP_WITNESS[0] + UPPER_HP_WITNESS[1] + UPPER_HP_WITNESS[2] + UPPER_HP_WITNESS[3] + UPPER_HP_WITNESS[4] + UPPER_HP_WITNESS[5] + UPPER_HP_WITNESS[6], UPPER_HP_CHARS, 46);
  }

  lemma UpperHpExample()
    ensures GetName("HP") == Some("Hewlett-Packard")
    ensures GetUrl("HP") == Some("https://www.hp.com")
  {
    UpperHpSelected("HP");
  }
}
