# xingtian system-information parsers, modelled in Dafny

xingtian is a Rust library that reports facts about a Linux machine. It
reads them from `/proc`, `/sys`, `/run/udev` and `/etc`. This project
models the part of it that turns that text into records, and proves
properties of the models:

- **Vendor names.** `vendor::get_name` and `get_url` pick the first entry
  of `VENDOR_LIST` whose id occurs in a vendor string.
- **Interface types.** `DevType::from_name` picks the first `ETH_NAMES`
  prefix of an interface name.
- **Power supplies.** The four `From<&str>` decoders of `power_supply`:
  `Type`, `Status`, `Technology` and `CapacityLevel`.
- **Routing table.** `/proc/net/route`: 11 whitespace-separated columns,
  six of them `i32`.
- **ARP table.** `/proc/net/arp`: 6 tab-separated columns.
- **Kernel modules.** `/proc/modules`: four leading tokens and the
  dependency list.
- **Nameservers.** `/etc/resolv.conf`: the `nameserver` lines, each looked
  up by a hostname lookup.
- **USB devices.** `scan_usb` and `scan_usb_event`:
  - the trimmed scalar attribute files;
  - the untagged `KEY=value` lines of `uevent`;
  - the `E:KEY=value` lines of the udev database entry that the parsed
    major and minor numbers name;
  - the directory scan that skips interface entries (paths with a `':'`).
- **Memory sizes.** `unit::parse_mem_size`: decimal digits with `b`, `k`,
  `m`, `g` and `t` multipliers.

File contents are parameters. A file that can be read is `Some(text)`, and
one that cannot is `None`, which the parser turns into the crate's
`IoError`. The USB scanner reads many files, so it takes a function
`fs: string -> Option<string>` from path to contents. A directory listing
is an `Option<seq<DirEntry>>`. The hostname lookup of a nameserver is an
abstract function `lookup: string -> Result<string>`.

The Rust string primitives the parsers rely on are modelled in `RustStr`:
- `lines`: also drops a `"\r"` before each `"\n"`, and a final empty line;
- `split_ascii_whitespace`;
- `split(char)`: keeps empty pieces;
- `trim`: Unicode `White_Space`;
- `starts_with` and `contains`;
- `parse::<i32>` and `parse::<usize>`: an optional sign (only `+` for
  `usize`), then one or more ASCII digits, range-checked.

Every loop of `routing_table`, `arp_table`, `module`, `dns_server`, `usb`
and `unit` is a `method` with a `while` loop, proved equal to a
specification function. The first-match searches of `vendor` (`get_name`,
`get_url`) and of `dev` (`from_name`) are recursive functions over their
tables (`NameIn`, `UrlIn`, `TypeIn`). The lemmas state the source's rules
about the specification functions:
- which lines fail, which are skipped and which yield records;
- that records keep input order;
- round trips: a rendered table parses back to the records it was rendered
  from.

Modules: `Common` (Option, Result, `Error`), `RustStr`, `Vendor`, `Dev`,
`PowerSupply`, `RoutingTable`, `ArpTable`, `ModuleList`, `DnsServer`,
`Usb`, `Unit`.

## Model

| member | source | states |
|---|---|---|
| Vendor.NameIn | src/computer/vendor.rs:112-119 | For any table: `None` exactly when no entry id occurs in the string; otherwise the name of the first entry whose id occurs in it |
| Vendor.UrlIn | src/computer/vendor.rs:122-129 | For any table: `None` exactly when no entry id occurs in the string; otherwise the url of the first matching entry |
| Vendor.GetName | src/computer/vendor.rs:112-119 | `get_name` over `VENDOR_LIST`: `None` exactly when no id is a substring of the input; otherwise the first matching entry's name, so earlier entries win |
| Vendor.GetUrl | src/computer/vendor.rs:122-129 | `get_url` over `VENDOR_LIST`: same selection, returning that entry's url |
| Vendor.NameAndUrlAgree | src/computer/vendor.rs:112-129 | `get_name` and `get_url` are both `None` or both `Some`, and then they come from the same first-matching entry |
| Vendor.FirstMatchExists | src/computer/vendor.rs:113-117 | If some entry matches, there is a first one |
| Vendor.IdsNonEmpty | src/computer/vendor.rs:20-109 | Every id in the table is non-empty |
| Vendor.EmptyHasNoVendor | src/computer/vendor.rs:20-118 | Because every id is non-empty, the empty string has no name and no url |
| Vendor.RealtekSelected | src/computer/vendor.rs:35 | Any string that starts with "Realtek Semiconductor" and avoids the characters of the earlier ids selects Realtek, with url https://www.realtek.com |
| Vendor.RealtekExample | src/computer/vendor.rs:137-140 | "Realtek Semiconductor Co., Ltd. RTL8821CE" gives name "Realtek" and url "https://www.realtek.com" (the table's url, not the test's) |
| Vendor.HewlettPackardSelected | src/computer/vendor.rs:67-68 | A string that starts with "Hewlett-Packard", lacks "HP" and avoids the earlier ids' characters selects Hewlett-Packard |
| Vendor.HewlettPackardExample | src/computer/vendor.rs:141-144 | "Hewlett-Packard Company RTL8821CE" gives "Hewlett-Packard" and "https://www.hp.com" |
| Vendor.ViaTripleSelected | src/computer/vendor.rs:27-28 | A string that starts with "VIA" and avoids the earlier ids' characters selects "VIA Technologies" through the "VIA" entry |
| Vendor.ViaTripleExample | src/computer/vendor.rs:28-101 | "VIA VIA VIA" gives "VIA Technologies" (the earlier "VIA" entry), not "VIA" from the later, more specific entry |
| Vendor.MicrosoftHvSelected | src/computer/vendor.rs:70 | A string that starts with "Microsoft" and avoids the earlier ids' characters selects "Microsoft" |
| Vendor.MicrosoftHvExample | src/computer/vendor.rs:70-105 | "Microsoft Hv" gives "Microsoft" (the earlier entry), not "Microsoft Hyper-V" |
| Vendor.LowerHpSelected | src/computer/vendor.rs:29 | Strings starting with lower-case "hp" (and avoiding earlier ids) select Hewlett-Packard through the "hp" entry |
| Vendor.LowerHpExample | src/computer/vendor.rs:29 | "hp" gives Hewlett-Packard |
| Vendor.UpperHpSelected | src/computer/vendor.rs:67 | Strings starting with "HP" (and avoiding earlier ids) select Hewlett-Packard through the separate upper-case entry |
| Vendor.UpperHpExample | src/computer/vendor.rs:67 | "HP" gives Hewlett-Packard: matching is case-sensitive, so "hp" and "HP" are distinct entries |
| Dev.DefaultDev | src/network/dev.rs:19-37 | The default `Dev` has type `Unknown`, empty strings and zero counters |
| Dev.TypeIn | src/network/dev.rs:76-84 | For any table: the type of the first entry whose string is a prefix of the name, or `Unknown` when none is |
| Dev.FromName | src/network/dev.rs:76-84 | `from_name` over `ETH_NAMES`: the first prefix entry's type, or `Unknown` when no entry is a prefix |
| Dev.UnknownIffNoPrefix | src/network/dev.rs:42-83 | No entry maps to `Unknown`, so the result is `Unknown` exactly when no entry is a prefix of the name |
| Dev.EmptyNameUnknown | src/network/dev.rs:42-83 | The empty name is `Unknown` |
| Dev.ClassifiedBy | src/network/dev.rs:77-80 | If entry k is a prefix of the name and every earlier entry mismatches, entry k is the first prefix and decides the type |
| Dev.UnclassifiedName | src/network/dev.rs:77-83 | A name that every entry mismatches is `Unknown` |
| Dev.LoopbackExample | src/network/dev.rs:48 | "lo" is Loopback |
| Dev.EthernetExample | src/network/dev.rs:46 | "enp3s0" is Ethernet |
| Dev.WirelessExample | src/network/dev.rs:51 | "wlan0" is Wireless |
| Dev.BridgeExample | src/network/dev.rs:58 | "docker0" is Bridge |
| Dev.PointToPointExample | src/network/dev.rs:61 | "tun0" is PointToPoint |
| Dev.VirtualNetworkExample | src/network/dev.rs:69 | "veth1a" is VirtualNetwork |
| Dev.MeshExample | src/network/dev.rs:71 | "msh0" is Mesh |
| Dev.BluetoothExample | src/network/dev.rs:63 | "bnep0" is Bluetooth |
| Dev.VmnetOrderExample | src/network/dev.rs:65-66 | "vmnet80" is selected by the earlier "vmnet8" entry (index 16) |
| Dev.WlOrderExample | src/network/dev.rs:51-54 | "wlp2s0" is selected by "wl" (index 9), after "wlan" fails |
| Dev.SubstringExample | src/network/dev.rs:78 | "myeth0" is `Unknown`: the match is on prefixes, not substrings |
| Dev.CaseExample | src/network/dev.rs:78 | "ETH0" is `Unknown`: matching is case-sensitive |
| PowerSupply.TypeFrom | src/device/power_supply.rs:59-81 | The result is `Unknown` or the variant whose literal is the input, and any variant whose literal is the input is the result |
| PowerSupply.StatusFrom | src/device/power_supply.rs:95-109 | The same exact-literal rule for `Status` |
| PowerSupply.TechnologyFrom | src/device/power_supply.rs:125-141 | The same exact-literal rule for `Technology` |
| PowerSupply.CapacityLevelFrom | src/device/power_supply.rs:156-171 | The same exact-literal rule for `CapacityLevel` |
| PowerSupply.TypeRoundTrip | src/device/power_supply.rs:61-74 | Decoding a variant's literal gives the variant; distinct variants have distinct literals |
| PowerSupply.StatusRoundTrip | src/device/power_supply.rs:97-102 | The same for `Status` |
| PowerSupply.TechnologyRoundTrip | src/device/power_supply.rs:127-134 | The same for `Technology` |
| PowerSupply.CapacityLevelRoundTrip | src/device/power_supply.rs:158-164 | The same for `CapacityLevel` |
| PowerSupply.UnrecognisedIsUnknown | src/device/power_supply.rs:75-170 | In all four decoders, a string that is no variant's literal is `Unknown` |
| PowerSupply.StatusExamples | src/device/power_supply.rs:97-103 | "charging" and " Charging" are `Unknown` (exact, untrimmed); "Not charging" is `NotCharging` and "NotCharging" is `Unknown` |
| PowerSupply.TechnologyExamples | src/device/power_supply.rs:130-131 | "Li-ion" and "Li-poly" decode, but the spellings "LiIon" and "LiPoly" are `Unknown` |
| PowerSupply.UnknownLiteral | src/device/power_supply.rs:62-159 | The literal "Unknown" decodes to `Unknown` in all four enums |
| RoutingTable.ParseRow | src/network/routing_table.rs:50-96 | The per-column loop over a data line's tokens returns exactly the row specification `RoutingRow` |
| RoutingTable.GetList | src/network/routing_table.rs:28-101 | The line loop returns exactly the table specification: `IoError` when the file cannot be read, otherwise line-by-line parsing |
| RoutingTable.RoutingRowOkIff | src/network/routing_table.rs:51-96 | A row parses exactly when it has at most 11 tokens and every numeric column present parses as `i32` |
| RoutingTable.RoutingRowFirstBadColumn | src/network/routing_table.rs:58-87 | The first numeric column that does not parse decides the error: that field's "Failed to parse" message |
| RoutingTable.RoutingRowTooWide | src/network/routing_table.rs:89-94 | A 12th token, once the numeric columns parse, fails with "expect 11 parts" |
| RoutingTable.RoutingRowColumn | src/network/routing_table.rs:54-87 | Each present column lands in its own field: text columns verbatim (hex is not decoded), numeric ones as their `i32` value |
| RoutingTable.RoutingRowFields | src/network/routing_table.rs:54-87 | All present columns at once, as above |
| RoutingTable.NumericFieldOfRow | src/network/routing_table.rs:58-87 | A numeric column of a parsed row parses as `i32`, and the field holds that value |
| RoutingTable.RoutingRowDefaults | src/network/routing_table.rs:51 | Short rows are accepted; the missing columns keep the defaults `""` and `0` |
| RoutingTable.RoutingRowOfFormat | src/network/routing_table.rs:52-96 | The 11 columns of any record with `i32`-range numbers parse back to that record |
| RoutingTable.ParseLineSome | src/network/routing_table.rs:34-97 | A line yields a record exactly when it is a data line (not a header, not blank) whose tokens parse, and the record is that row |
| RoutingTable.ParseRoutingLinesAppend | src/network/routing_table.rs:33-97 | Parsing two blocks of lines is the first block's records followed by the second's, or the first error |
| RoutingTable.ParseRoutingLinesOkIff | src/network/routing_table.rs:33-98 | The table parses exactly when every line does |
| RoutingTable.ParseRoutingLinesRecords | src/network/routing_table.rs:33-97 | One record per data line, in line order, each the row parse of its line |
| RoutingTable.BadHeaderFails | src/network/routing_table.rs:34-42 | A header line anywhere without exactly 11 tokens fails the whole parse |
| RoutingTable.BadFirstHeader | src/network/routing_table.rs:34-42 | Such a header as the first line fails with "expect 11 parts" |
| RoutingTable.SkippedLineIrrelevant | src/network/routing_table.rs:43-48 | Removing a line that yields nothing (a well-formed header or a blank line) does not change the result |
| RoutingTable.BlankLineSkipped | src/network/routing_table.rs:46-48 | A whitespace-only line yields nothing |
| RoutingTable.RoutingTableRoundTrip | src/network/routing_table.rs:28-101 | Rendering writable records one per line and parsing the text gives the records back |
| ArpTable.ParseRow | src/network/arp_table.rs:44-61 | The per-field loop returns exactly the row specification `ArpRow` |
| ArpTable.GetList | src/network/arp_table.rs:22-66 | The line loop returns exactly the table specification: `IoError` when unreadable, otherwise line-by-line parsing |
| ArpTable.ArpRowOkIff | src/network/arp_table.rs:46-61 | A row parses exactly when it has at most 6 fields, and otherwise fails with "expect 6 parts" |
| ArpTable.ArpRowFields | src/network/arp_table.rs:45-53 | Field c of a parsed row is the c-th tab piece verbatim, empty pieces included; missing fields are `""` |
| ArpTable.ArpRowOfJoin | src/network/arp_table.rs:44-61 | The six fields joined by tabs, none holding a tab, parse back to the record |
| ArpTable.ParseLineErrIff | src/network/arp_table.rs:28-59 | A line fails exactly when it is a header without exactly 6 tab fields or a data line with more than 6, always with the width error |
| ArpTable.ParseLineSome | src/network/arp_table.rs:28-62 | A line yields a record exactly when it is a data line with at most 6 fields |
| ArpTable.ParseArpLinesAppend | src/network/arp_table.rs:27-62 | Two blocks of lines parse as the first's records followed by the second's, or the first error |
| ArpTable.ParseArpLinesOkIff | src/network/arp_table.rs:27-63 | The table parses exactly when every line does |
| ArpTable.ParseArpLinesError | src/network/arp_table.rs:31-58 | The only possible failure is the width error: every field is a string copy |
| ArpTable.ParseArpLinesRecords | src/network/arp_table.rs:27-62 | One record per data line, in line order, each the row parse of its line |
| ArpTable.BadHeaderFails | src/network/arp_table.rs:28-36 | A header line anywhere without exactly 6 tab fields fails the whole parse |
| ArpTable.BadFirstHeader | src/network/arp_table.rs:28-36 | Such a header as the first line fails with "expect 6 parts" |
| ArpTable.SkippedLineIrrelevant | src/network/arp_table.rs:37-42 | Removing a line that yields nothing does not change the result |
| ArpTable.ArpTableRoundTrip | src/network/arp_table.rs:22-66 | Rendering writable records as tab-separated lines and parsing the text gives them back |
| ModuleList.DropEmpty | src/computer/module.rs:65 | The kept pieces are non-empty pieces of the input, and together they hold the same text |
| ModuleList.DropEmptyKeeps | src/computer/module.rs:65 | A string is kept exactly when it is a non-empty piece |
| ModuleList.DropEmptyNone | src/computer/module.rs:65 | When no piece is empty, all are kept in order |
| ModuleList.Dependencies | src/computer/module.rs:58-68 | No dependency is empty or holds a `','` |
| ModuleList.DependenciesMeaning | src/computer/module.rs:63-67 | Other than `"-"`, the dependencies are the non-empty comma pieces, and together they are the field without its commas |
| ModuleList.DependenciesOfFormat | src/computer/module.rs:62-67 | Joining non-empty comma-free names with commas (other than the single name `"-"`) and splitting them again gives the names back |
| ModuleList.DashDependencies | src/computer/module.rs:62 | Exactly `"-"` means no dependencies |
| ModuleList.DashCommaDependencies | src/computer/module.rs:62-67 | `"-,"` gives `["-"]`: only the exact token `"-"` is special |
| ModuleList.TrailingCommaDependencies | src/computer/module.rs:65 | `"llc,"` gives `["llc"]`: empty pieces are dropped |
| ModuleList.ParseModule | src/computer/module.rs:42-74 | The token-by-token parse of one line returns exactly the line specification `ModuleLine` |
| ModuleList.GetList | src/computer/module.rs:36-78 | The line loop returns exactly the list specification: `IoError` when unreadable, otherwise one module per line |
| ModuleList.ModuleRowOkIff | src/computer/module.rs:42-74 | A line parses exactly when it has four tokens, the second a `usize` and the third an `i32`; the module is the name, the size and the dependencies of the fourth, and the count is discarded |
| ModuleList.ModuleRowIgnoresRest | src/computer/module.rs:42-68 | Tokens after the fourth are ignored: there is no arity check |
| ModuleList.BlankLineFails | src/computer/module.rs:43-46 | A blank line is not skipped: it fails with "Failed to parse module name" |
| ModuleList.ParseModuleLinesOkIff | src/computer/module.rs:41-75 | The list parses exactly when every line does |
| ModuleList.ParseModuleLinesRecords | src/computer/module.rs:41-74 | One module per line, in line order, each its line's parse |
| ModuleList.ModuleRowOfFormat | src/computer/module.rs:42-74 | The four tokens of a writable module, with any `i32` count, parse back to the module |
| ModuleList.ModuleLineOfFormat | src/computer/module.rs:42-74 | So does the line joining them, with any extra tokens after them |
| ModuleList.ModuleListRoundTrip | src/computer/module.rs:36-78 | Rendering writable modules one per line and parsing the text gives them back |
| DnsServer.ReadLine | src/network/dns_server.rs:24-34 | The token handling of one line returns exactly the line specification `DnsLine` |
| DnsServer.GetList | src/network/dns_server.rs:18-38 | The line loop returns exactly the list specification: `IoError` when unreadable, otherwise one server per nameserver line |
| DnsServer.DnsLineMeaning | src/network/dns_server.rs:24-34 | A line fails exactly when it is a nameserver line with no address or whose lookup fails; it yields a server exactly when it is a nameserver line, and then it is the address with its looked-up hostname |
| DnsServer.ParseDnsLinesOkIff | src/network/dns_server.rs:23-37 | The list succeeds exactly when every line does, so one failed lookup fails it |
| DnsServer.ParseDnsLinesRecords | src/network/dns_server.rs:23-37 | One server per nameserver line, in file order, each the line's address and its successful lookup |
| DnsServer.IndentedLine | src/network/dns_server.rs:24-25 | Leading whitespace does not matter |
| DnsServer.OtherLineIgnored | src/network/dns_server.rs:25 | A line whose first token is not exactly "nameserver" yields nothing |
| DnsServer.NameserverAddress | src/network/dns_server.rs:25-29 | The address is the second token; later tokens are ignored |
| DnsServer.MissingAddress | src/network/dns_server.rs:26-28 | "nameserver" alone fails with "Invalid nameserver" |
| DnsServer.CommentedOut | src/network/dns_server.rs:25 | "#nameserver ip" yields nothing |
| DnsServer.NameserverLineOf | src/network/dns_server.rs:25-34 | A rendered nameserver line yields its address with the hostname, or the lookup's own error |
| DnsServer.ResolvRoundTrip | src/network/dns_server.rs:23-37 | Parsing rendered nameserver lines gives the servers of those addresses, in order, or the first failed lookup's error |
| DnsServer.DnsListOfRender | src/network/dns_server.rs:18-38 | The same for the whole file |
| Unit.ParseMemSize | src/base/unit.rs:6-34 | The character loop returns exactly the specification `MemSize`: `None` for the empty string, otherwise the fold over the trimmed text |
| Unit.StepShift | src/base/unit.rs:19-30 | A non-digit either rejects the text or multiplies the size so far by 2 to the power of its shift |
| Unit.UnitFactors | src/base/unit.rs:21-30 | The multipliers are 1024, 2^20, 2^30 and 2^40 |
| Unit.MemSizeOfNoneIff | src/base/unit.rs:13-31 | The fold fails exactly when some character is invalid |
| Unit.InvalidCharRejects | src/base/unit.rs:25-28 | An invalid character anywhere gives `None` |
| Unit.MemSizeOfDigits | src/base/unit.rs:14-17 | A digit string accumulates to its decimal value |
| Unit.MemSizeDigits | src/base/unit.rs:7-17 | A non-empty digit string gives its decimal value |
| Unit.MemSizeBlank | src/base/unit.rs:7-11 | The empty check comes before trimming: `""` gives `None`, any other whitespace-only text gives `Some(0)` |
| Unit.SameShiftSameSize | src/base/unit.rs:19-30 | Two units with the same shift give the same result wherever they stand |
| Unit.UnitCaseInsensitive | src/base/unit.rs:20-24 | Each unit letter and its upper-case form have the same shift |
| Unit.EmptyExample | src/base/unit.rs:43 | `""` gives `None` |
| Unit.SixteenExample | src/base/unit.rs:44 | "16" gives 16 |
| Unit.SixteenTrailingExample | src/base/unit.rs:45 | "16 \t\n" gives 16 |
| Unit.FourKExample | src/base/unit.rs:46 | "4k" gives 4096 |
| Unit.FourSpaceKExample | src/base/unit.rs:47 | "4 K" gives 4096 |
| Unit.FourMExample | src/base/unit.rs:48 | "4M" gives 4194304 |
| Unit.SpaceFourSpaceMExample | src/base/unit.rs:49 | " 4 M" gives 4194304 |
| Unit.KiloThenDigitExample | src/base/unit.rs:12-31 | "1k1" gives 10241: digits keep accumulating after a multiplier |
| Unit.KiloKiloExample | src/base/unit.rs:30 | "1kk" gives 2^20: each multiplier scales the size so far |
| Unit.UnknownUnitExample | src/base/unit.rs:25-28 | "4x" gives `None` |
| Unit.DecimalPointExample | src/base/unit.rs:25-28 | "1.5G" gives `None` |
| Unit.InnerNewlineExample | src/base/unit.rs:11-28 | "1\n2" gives `None`: only the ends are trimmed |
| Usb.GetSet | src/device/usb.rs:10-42 | Setting one attribute changes that attribute and no other |
| Usb.KeyFieldOwned | src/device/usb.rs:115-163 | A key of either dialect names only fields that dialect owns: the six uevent attributes or the 13 udev properties |
| Usb.Body | src/device/usb.rs:98-134 | The text a line contributes always holds an `'='` |
| Usb.FoldSnoc | src/device/usb.rs:97-164 | Reading one more line applies that line's assignment to the device read so far |
| Usb.ReadUevent | src/device/usb.rs:97-124 | The uevent line loop returns exactly the fold of the uevent assignments over the lines |
| Usb.ReadUdev | src/device/usb.rs:129-164 | The udev line loop returns exactly the fold of the udev assignments over the lines |
| Usb.ScanUsbEvent | src/device/usb.rs:66-167 | Reading one device returns exactly the device specification `UsbEventOf`: scalars, then uevent, then the udev entry that the parsed numbers name |
| Usb.ScanEntriesStep | src/device/usb.rs:50-59 | One step of the directory loop: an error stops the scan, a skipped entry adds nothing, a device is appended |
| Usb.ScanUsb | src/device/usb.rs:46-62 | The directory loop returns exactly the scan specification: `IoError` for an unreadable directory, otherwise the listing's devices |
| Usb.EntryIgnored | src/device/usb.rs:98-132 | A line without `'='` assigns nothing, and neither does a udev line without the "E:" tag |
| Usb.SplitKeyValue | src/device/usb.rs:101-113 | The key is the untrimmed text before the first `'='`; the value is the text up to the second `'='`, trimmed, and the rest is dropped |
| Usb.FirstPiece | src/device/usb.rs:101-109 | Text without an `'='` that stands before an `'='` or the end is the first split piece |
| Usb.UeventEntryOfLine | src/device/usb.rs:97-123 | An untagged `key=value…` line assigns the field its exact key names, if any, the trimmed value |
| Usb.UdevEntryOfLine | src/device/usb.rs:129-163 | An `E:key=value…` line assigns the udev property its key names, if any, the trimmed value |
| Usb.IndentedKeyIgnored | src/device/usb.rs:101-115 | Keys are not trimmed: " MAJOR=…" assigns nothing |
| Usb.StepGet | src/device/usb.rs:115-163 | One assignment sets its own field and no other |
| Usb.AssignLastWins | src/device/usb.rs:115-123 | After several assignments, a field holds the value of the last one to it |
| Usb.AssignUntouched | src/device/usb.rs:122-162 | A field no assignment sets keeps its value |
| Usb.AssignIndependent | src/device/usb.rs:115-123 | What the assignments leave in a field depends only on them and that field's starting value |
| Usb.FoldLastWins | src/device/usb.rs:97-164 | For a repeated key, the last line assigning the field decides it |
| Usb.FoldUntouched | src/device/usb.rs:97-164 | A field no line assigns keeps its value |
| Usb.FoldOthers | src/device/usb.rs:115-163 | A dialect never changes the scalar attributes or the other dialect's fields |
| Usb.FoldIndependent | src/device/usb.rs:97-164 | What the lines leave in a field depends only on the lines and that field's starting value |
| Usb.AttrLineEntry | src/device/usb.rs:98-146 | A written `KEY=value` line, tagged "E:" for udev, reads back as that pair's assignment |
| Usb.RenderRoundTrip | src/device/usb.rs:97-164 | Writable pairs, written one per line, read back as their assignments, in order |
| Usb.RoundTripField | src/device/usb.rs:97-164 | Read back, each field holds the trimmed value of the last pair that assigns it |
| Usb.UeventPairsWritable | src/device/usb.rs:115-121 | The uevent pairs of a device with storable values can be written |
| Usb.UeventPairEntries | src/device/usb.rs:115-121 | Each uevent attribute of a device is assigned by exactly one of its pairs, with its own trimmed value |
| Usb.UeventRoundTrip | src/device/usb.rs:97-124 | Writing a device's six uevent attributes and reading them back, from any starting device, restores each of them |
| Usb.ScalarsGet | src/device/usb.rs:67-93 | A scalar attribute is its file's contents, trimmed, or `""` if the file cannot be read; every other attribute starts empty |
| Usb.UdevPathFromUevent | src/device/usb.rs:126 | The udev path depends only on the uevent lines: the scalar files do not change the parsed major and minor numbers |
| Usb.UsbEventErrors | src/device/usb.rs:95-166 | Reading fails exactly when the uevent file or the udev entry for the parsed (possibly empty) numbers cannot be read, with that file's error; attribute values are never rejected |
| Usb.UsbEventValue | src/device/usb.rs:66-167 | A successful read is the scalars, then the uevent lines, then the lines of udev entry "/run/udev/data/c" major ":" minor |
| Usb.UnscalarGet | src/device/usb.rs:67 | An attribute with no scalar file starts as the default `""` |
| Usb.ThroughBoth | src/device/usb.rs:97-164 | A field neither dialect owns passes both line loops unchanged |
| Usb.ScalarThroughBoth | src/device/usb.rs:69-164 | A scalar attribute keeps its file's trimmed value through both line loops |
| Usb.ThroughUevent | src/device/usb.rs:97-164 | A uevent field that starts empty ends as the uevent lines alone leave it |
| Usb.ThroughUdev | src/device/usb.rs:97-164 | A udev field that starts empty ends as the udev lines alone leave it |
| Usb.ScalarField | src/device/usb.rs:69-93 | In a read device, each scalar attribute is its file's trimmed contents, or `""` when the file is missing |
| Usb.UeventField | src/device/usb.rs:95-124 | In a read device, each uevent attribute comes from the uevent lines alone |
| Usb.UdevField | src/device/usb.rs:126-164 | In a read device, each udev property comes from the lines of the udev entry alone |
| Usb.FieldClasses | src/device/usb.rs:10-42 | Every attribute is exactly one of: scalar, uevent, udev |
| Usb.EntryDeviceMeaning | src/device/usb.rs:50-58 | An entry fails only when it cannot be read, or when it is a device directory (a path without `':'`) that cannot be read; it yields a device exactly when it is such a path |
| Usb.ScanEntriesOkIff | src/device/usb.rs:50-59 | The scan succeeds exactly when every entry does: one failing device fails it |
| Usb.ScanEntriesRecords | src/device/usb.rs:50-61 | One device per path without `':'`, in directory order, each that path's read device |
| RustStr.Lines | src/network/routing_table.rs:33 | `str::lines`: no line holds a line feed, and only the empty text has no lines |
| RustStr.LinesCons | src/network/arp_table.rs:27 | A line followed by a line feed is the first line, with a trailing `"\r"` removed |
| RustStr.SplitAsciiWhitespace | src/network/routing_table.rs:50 | `split_ascii_whitespace` yields only non-empty tokens without ASCII whitespace |
| RustStr.SplitLeadingBlank | src/network/dns_server.rs:24 | Leading ASCII whitespace does not change the tokens |
| RustStr.SplitJoinSpaced | src/computer/module.rs:42 | Tokens joined by spaces split back into the same tokens |
| RustStr.Split | src/network/arp_table.rs:44 | `split(c)` yields at least one piece, and none holds `c`; it yields more than one exactly when `c` occurs |
| RustStr.SplitJoin | src/network/arp_table.rs:44 | Pieces without `c`, joined by `c`, split back into the same pieces, empty ones included |
| RustStr.JoinSplit | src/network/arp_table.rs:44 | Joining the pieces of a split restores the text |
| RustStr.ConcatSplit | src/computer/module.rs:64 | The pieces of a split, together, are the text without the separator |
| RustStr.TrimBounds | src/device/usb.rs:70 | `trim` yields text with no whitespace at either end, and it is empty exactly when the text is all whitespace |
| RustStr.IndexOf | src/device/usb.rs:101 | The first position of a character that occurs |
| RustStr.ParseI32 | src/network/routing_table.rs:59-61 | `parse::<i32>`: a value, when there is one, lies in the `i32` range |
| RustStr.ParseUsize | src/computer/module.rs:47-51 | `parse::<usize>`: a value, when there is one, is at most the 64-bit `usize` maximum |
| RustStr.ParseI32OfString | src/network/routing_table.rs:59-61 | The decimal text of any `i32` parses back to it |
| RustStr.ParseUsizeOfString | src/computer/module.rs:47-51 | The decimal text of any `usize` parses back to it |
| RustStr.DecimalOfNatToString | src/computer/module.rs:47-51 | Decimal text denotes the number it was written from |

## Left out

- File and directory access (`fs::read_to_string`, `fs::read_dir`, `DirEntry::path`, `Path::to_str`): contents, listings and read failures are parameters. A listing entry is `EntryError` (an unreadable entry), `NonUtf8` (a path `to_str` rejects) or a path.
- `Usb.JoinPath` models `Path::join` only for the relative names the scanner uses ("bMaxPower", "uevent", …); the absolute-name case of `Path::join` is not modelled.
- `io::Error` payloads and error message rendering: `Error` keeps the file name, and a reason tag for `ParseFile`. `IoErrorDetail`, `AddrParseError` and `DnsError` are extra variants, because the USB scanner and the hostname lookup use errors that src/error.rs does not declare.
- `get_hostname_by_ip` (src/network/dns_server.rs:42-50): address parsing and the `getnameinfo` network call. It is the abstract `lookup` parameter.
- `power_supply::get_list` (src/device/power_supply.rs:175-189): a directory filter with OS path semantics. `read_detail` (src/device/power_supply.rs:193-195) is `todo!()`.
- `module::get_detail` (src/computer/module.rs:82-84): it is `todo!()`.
- uptime.rs, bootup.rs, environment.rs, language.rs, group.rs, sensor.rs and mod.rs under src/computer and src/device: floating point, an external utmp parser, the process environment, or no behaviour at all. They are not part of this model.
- `log::warn!` diagnostics: they have no effect on results.
- The `parts.next()` failure branches in src/device/usb.rs:102-113 and 135-146: they cannot be taken, because the line is known to contain `'='`, so a split yields at least two pieces. The model has no separate branch for them.
- The vendor test's url expectations (src/computer/vendor.rs:150-156) contradict the table (lines 35 and 68). The model states the table's urls.
- Usb.UeventRoundTrip: the device-level round trip is stated for the uevent attributes only. For udev, the line-level round trip (`Usb.RenderRoundTrip`, `Usb.RoundTripField`) covers both dialects.
- Unit.ParseMemSize: does not model `i64` overflow. Debug builds panic and release builds wrap; the model computes with unbounded integers.
- The `i64` traffic counters and the `i32` MTU of `Dev` are unbounded integers. Nothing in the modelled code computes with them.
