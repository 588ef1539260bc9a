/**
 * The USB scanner of src/device/usb.rs. Each device directory under
 * /sys/bus/usb/devices yields one `UsbDev`: five scalar attribute files,
 * trimmed; the untagged `KEY=value` lines of its `uevent` file; and the
 * `E:KEY=value` lines of the udev database entry named by the parsed major
 * and minor numbers. The file system is a parameter: a function from a path
 * to the file's contents, `None` when the file cannot be read.
 */
module Usb {
  import opened Common
  import opened RustStr

  const DIR := "/sys/bus/usb/devices"
  const UEVENT_FILE := "usb uevent"
  const UDEV_DIR := "/run/udev/data/c"

  /** A USB device as the scanner fills it in; every attribute is text and `""` until something sets it. */
  datatype UsbDev = UsbDev(
    maxPower: string, manufacturer: string, product: string, speed: string, version: string,
    major: string, minor: string, devName: string, devType: string, busNum: string, devNum: string,
    bus: string, model: string, modelId: string, serial: string, serialShort: string,
    vendor: string, vendorId: string, revision: string, usbInterfaces: string,
    vendorFromDatabase: string, modelFromDatabase: string, pathWithUsbRevision: string, path: string)

  /** `UsbDev::default()`. */
  const DEFAULT := UsbDev("", "", "", "", "", "", "", "", "", "", "", "", "", "", "", "", "", "", "", "", "", "", "", "")

  /** The attributes of a device, one per field. */
  datatype Field =
    | MaxPower | Manufacturer | Product | Speed | Version
    | Major | Minor | DevName | DevType | BusNum | DevNum
    | Bus | Model | ModelId | Serial | SerialShort | Vendor | VendorId | Revision
    | UsbInterfaces | VendorFromDatabase | ModelFromDatabase | PathWithUsbRevision | Path

  /** The value of one attribute. */
  function Get(dev: UsbDev, f: Field): string {
    match f
    case MaxPower => dev.maxPower
    case Manufacturer => dev.manufacturer
    case Product => dev.product
    case Speed => dev.speed
    case Version => dev.version
    case Major => dev.major
    case Minor => dev.minor
    case DevName => dev.devName
    case DevType => dev.devType
    case BusNum => dev.busNum
    case DevNum => dev.devNum
    case Bus => dev.bus
    case Model => dev.model
    case ModelId => dev.modelId
    case Serial => dev.serial
    case SerialShort => dev.serialShort
    case Vendor => dev.vendor
    case VendorId => dev.vendorId
    case Revision => dev.revision
    case UsbInterfaces => dev.usbInterfaces
    case VendorFromDatabase => dev.vendorFromDatabase
    case ModelFromDatabase => dev.modelFromDatabase
    case PathWithUsbRevision => dev.pathWithUsbRevision
    case Path => dev.path
  }

  /** The device with one attribute assigned. */
  function Set(dev: UsbDev, f: Field, v: string): UsbDev {
    UsbDev(
      if f == MaxPower then v else dev.maxPower,
      if f == Manufacturer then v else dev.manufacturer,
      if f == Product then v else dev.product,
      if f == Speed then v else dev.speed,
      if f == Version then v else dev.version,
      if f == Major then v else dev.major,
      if f == Minor then v else dev.minor,
      if f == DevName then v else dev.devName,
      if f == DevType then v else dev.devType,
      if f == BusNum then v else dev.busNum,
      if f == DevNum then v else dev.devNum,
      if f == Bus then v else dev.bus,
      if f == Model then v else dev.model,
      if f == ModelId then v else dev.modelId,
      if f == Serial then v else dev.serial,
      if f == SerialShort then v else dev.serialShort,
      if f == Vendor then v else dev.vendor,
      if f == VendorId then v else dev.vendorId,
      if f == Revision then v else dev.revision,
      if f == UsbInterfaces then v else dev.usbInterfaces,
      if f == VendorFromDatabase then v else dev.vendorFromDatabase,
      if f == ModelFromDatabase then v else dev.modelFromDatabase,
      if f == PathWithUsbRevision then v else dev.pathWithUsbRevision,
      if f == Path then v else dev.path)
  }

  /** Assigning an attribute sets that attribute and no other. */
  lemma GetSet(dev: UsbDev, f: Field, v: string, g: Field)
    ensures Get(Set(dev, f, v), g) == if f == g then v else Get(dev, g)
  {
  }

  // ---------------------------------------------------------------------------
  // The two attribute dialects

  /** The untagged `KEY=value` lines of a sysfs `uevent` file, and the `E:KEY=value` lines of a udev database entry. */
  datatype Dialect = Uevent | Udev

  /** The field a `uevent` key assigns. */
  function UeventKey(key: string): Option<Field> {
    if key == "MAJOR" then Some(Major)
    else if key == "MINOR" then Some(Minor)
    else if key == "DEVNAME" then Some(DevName)
    else if key == "DEVTYPE" then Some(DevType)
    else if key == "BUSNUM" then Some(BusNum)
    else if key == "DEVNUM" then Some(DevNum)
    else None
  }

  /** The field a udev property assigns. */
  function UdevKey(key: string): Option<Field> {
    if key == "ID_BUS" then Some(Bus)
    else if key == "ID_MODEL" then Some(Model)
    else if key == "ID_MODEL_ID" then Some(ModelId)
    else if key == "ID_SERIAL" then Some(Serial)
    else if key == "ID_SERIAL_SHORT" then Some(SerialShort)
    else if key == "ID_VENDOR" then Some(Vendor)
    else if key == "ID_VENDOR_ID" then Some(VendorId)
    else if key == "ID_REVISION" then Some(Revision)
    else if key == "ID_USB_INTERFACES" then Some(UsbInterfaces)
    else if key == "ID_VENDOR_FROM_DATABASE" then Some(VendorFromDatabase)
    else if key == "ID_MODEL_FROM_DATABASE" then Some(ModelFromDatabase)
    else if key == "ID_PATH_WITH_USB_REVISION" then Some(PathWithUsbRevision)
    else if key == "ID_PATH" then Some(Path)
    else None
  }

  function KeyField(d: Dialect, key: string): Option<Field> {
    match d
    case Uevent => UeventKey(key)
    case Udev => UdevKey(key)
  }

  /** The fields a dialect can assign: the six `uevent` attributes, or the thirteen udev properties. */
  predicate Owns(d: Dialect, f: Field) {
    match d
    case Uevent => f.Major? || f.Minor? || f.DevName? || f.DevType? || f.BusNum? || f.DevNum?
    case Udev =>
      f.Bus? || f.Model? || f.ModelId? || f.Serial? || f.SerialShort? || f.Vendor? || f.VendorId?
      || f.Revision? || f.UsbInterfaces? || f.VendorFromDatabase? || f.ModelFromDatabase?
      || f.PathWithUsbRevision? || f.Path?
  }

  /** A key names only fields its dialect owns. */
  lemma KeyFieldOwned(d: Dialect, key: string)
    ensures KeyField(d, key).Some? ==> Owns(d, KeyField(d, key).value)
  {
  }

  const TAG := "E:"

  /** A tagged line that holds an '=' holds one after its tag. */
  lemma EqualsPastTag(line: string)
    requires StartsWith(line, TAG) && '=' in line
    ensures '=' in line[|TAG|..]
  {
    var i :| 0 <= i < |line| && line[i] == '=';
    assert line[..2] == TAG;
    assert i >= 2 && line[|TAG|..][i - 2] == '=';
  }

  /** The text a line's key and value are split from, when the line is used at all. */
  function Body(d: Dialect, line: string): (b: Option<string>)
    ensures b.Some? ==> '=' in b.value
  {
    match d
    case Uevent => if '=' in line then Some(line) else None
    case Udev =>
      if StartsWith(line, TAG) && '=' in line then EqualsPastTag(line); Some(line[|TAG|..]) else None
  }

  /** The key is the untrimmed text before the first '='; the value is the text up to the next '=', trimmed. */
  function KeyValue(text: string): (string, string)
    requires '=' in text
  {
    var parts := Split(text, '=');
    (parts[0], Trim(parts[1]))
  }

  /** The field a line assigns, and the value it assigns, or nothing for a line that assigns nothing. */
  function Entry(d: Dialect, line: string): Option<(Field, string)> {
    var b := Body(d, line);
    if b.None? then None
    else
      var kv := KeyValue(b.value);
      var f := KeyField(d, kv.0);
      if f.None? then None else Some((f.value, kv.1))
  }

  /** What each line assigns, in order. */
  function Entries(d: Dialect, lines: seq<string>): (es: seq<Option<(Field, string)>>)
    ensures |es| == |lines|
    ensures forall k :: 0 <= k < |lines| ==> es[k] == Entry(d, lines[k])
  {
    seq(|lines|, k requires 0 <= k < |lines| => Entry(d, lines[k]))
  }

  /** The device after one assignment, or unchanged by none. */
  function Step(dev: UsbDev, e: Option<(Field, string)>): UsbDev {
    if e.Some? then Set(dev, e.value.0, e.value.1) else dev
  }

  /** The device after the assignments, taken in order. */
  function Assign(dev: UsbDev, es: seq<Option<(Field, string)>>): UsbDev
    decreases |es|
  {
    if es == [] then dev else Step(Assign(dev, es[..|es| - 1]), es[|es| - 1])
  }

  /** The device after the lines, taken in order. */
  function Fold(d: Dialect, dev: UsbDev, lines: seq<string>): UsbDev {
    Assign(dev, Entries(d, lines))
  }

  lemma FoldSnoc(d: Dialect, dev: UsbDev, lines: seq<string>, i: nat)
    requires i < |lines|
    ensures Fold(d, dev, lines[..i + 1]) == Step(Fold(d, dev, lines[..i]), Entry(d, lines[i]))
  {
    var es := Entries(d, lines[..i + 1]);
    assert es[..i] == Entries(d, lines[..i]);
  }

  // ---------------------------------------------------------------------------
  // The line loops

  /** The `uevent` loop: each line holding an '=' assigns the field its key names, if any. */
  method ReadUevent(dev: UsbDev, content: string) returns (next: UsbDev)
    ensures next == Fold(Uevent, dev, Lines(content))
  {
    var lines := Lines(content);
    next := dev;
    var i := 0;
    while i < |lines|
      invariant 0 <= i <= |lines|
      invariant next == Fold(Uevent, dev, lines[..i])
      decreases |lines| - i
    {
      var line := lines[i];
      FoldSnoc(Uevent, dev, lines, i);
      i := i + 1;
      if '=' !in line {
        continue;
      }
      var parts := Split(line, '=');
      var key := parts[0];
      var value := Trim(parts[1]);
      var f := UeventKey(key);
      if f.Some? {
        next := Set(next, f.value, value);
      }
    }
    assert lines[..i] == lines;
  }

  /** The udev loop: each line starting with "E:" and holding an '=' assigns the field its key names, if any. */
  method ReadUdev(dev: UsbDev, content: string) returns (next: UsbDev)
    ensures next == Fold(Udev, dev, Lines(content))
  {
    var lines := Lines(content);
    next := dev;
    var i := 0;
    while i < |lines|
      invariant 0 <= i <= |lines|
      invariant next == Fold(Udev, dev, lines[..i])
      decreases |lines| - i
    {
      var line := lines[i];
      FoldSnoc(Udev, dev, lines, i);
      i := i + 1;
      if !StartsWith(line, TAG) || '=' !in line {
        continue;
      }
      EqualsPastTag(line);
      var parts := Split(line[|TAG|..], '=');
      var key := parts[0];
      var value := Trim(parts[1]);
      var f := UdevKey(key);
      if f.Some? {
        next := Set(next, f.value, value);
      }
    }
    assert lines[..i] == lines;
  }

  // ---------------------------------------------------------------------------
  // One device

  /** `Path::join` with a relative name. */
  function JoinPath(dir: string, name: string): string {
    if dir == [] || dir[|dir| - 1] == '/' then dir + name else dir + "/" + name
  }

  /** The udev database entry of the character device `major:minor`. */
  function UdevPath(major: string, minor: string): string {
    UDEV_DIR + major + ":" + minor
  }

  /** A scalar attribute file's contents, trimmed, or `""` when it cannot be read. */
  function Scalar(content: Option<string>): string {
    if content.Some? then Trim(content.value) else ""
  }

  /** The file each scalar attribute is read from. */
  function ScalarFile(f: Field): Option<string> {
    match f
    case MaxPower => Some("bMaxPower")
    case Manufacturer => Some("manufacturer")
    case Product => Some("product")
    case Speed => Some("speed")
    case Version => Some("version")
    case _ => None
  }

  /** The default device with the five scalar attributes read from `dir`. */
  function Scalars(dir: string, fs: string -> Option<string>): UsbDev {
    DEFAULT.(
      maxPower := Scalar(fs(JoinPath(dir, "bMaxPower"))),
      manufacturer := Scalar(fs(JoinPath(dir, "manufacturer"))),
      product := Scalar(fs(JoinPath(dir, "product"))),
      speed := Scalar(fs(JoinPath(dir, "speed"))),
      version := Scalar(fs(JoinPath(dir, "version"))))
  }

  /** The device after its scalar files and its `uevent` file, when that can be read. */
  function UeventDev(dir: string, fs: string -> Option<string>): Option<UsbDev> {
    var uevent := fs(JoinPath(dir, "uevent"));
    if uevent.None? then None else Some(Fold(Uevent, Scalars(dir, fs), Lines(uevent.value)))
  }

  /** The device read from `dir`, or the error of its unreadable `uevent` file or udev entry. */
  function UsbEventOf(dir: string, fs: string -> Option<string>): Result<UsbDev> {
    var dev := UeventDev(dir, fs);
    if dev.None? then Err(IoError(UEVENT_FILE))
    else
      var path := UdevPath(dev.value.major, dev.value.minor);
      var udev := fs(path);
      if udev.None? then Err(IoErrorDetail(path)) else Ok(Fold(Udev, dev.value, Lines(udev.value)))
  }

  /** `scan_usb_event`: the scalar files, then the `uevent` file, then the udev entry its numbers name. */
  method ScanUsbEvent(dir: string, fs: string -> Option<string>) returns (result: Result<UsbDev>)
    ensures result == UsbEventOf(dir, fs)
  {
    var dev := DEFAULT;
    var s := fs(JoinPath(dir, "bMaxPower"));
    if s.Some? {
      dev := dev.(maxPower := Trim(s.value));
    }
    s := fs(JoinPath(dir, "manufacturer"));
    if s.Some? {
      dev := dev.(manufacturer := Trim(s.value));
    }
    s := fs(JoinPath(dir, "product"));
    if s.Some? {
      dev := dev.(product := Trim(s.value));
    }
    s := fs(JoinPath(dir, "speed"));
    if s.Some? {
      dev := dev.(speed := Trim(s.value));
    }
    s := fs(JoinPath(dir, "version"));
    if s.Some? {
      dev := dev.(version := Trim(s.value));
    }
    assert dev == Scalars(dir, fs);

    var ueventContent := fs(JoinPath(dir, "uevent"));
    if ueventContent.None? {
      return Err(IoError(UEVENT_FILE));
    }
    dev := ReadUevent(dev, ueventContent.value);

    var path := UdevPath(dev.major, dev.minor);
    var udevContent := fs(path);
    if udevContent.None? {
      return Err(IoErrorDetail(path));
    }
    dev := ReadUdev(dev, udevContent.value);
    return Ok(dev);
  }

  // ---------------------------------------------------------------------------
  // All devices

  /** A directory entry: unreadable, a path that is not valid text, or a path. */
  datatype DirEntry = EntryError | NonUtf8 | EntryPath(path: string)

  /** What one entry contributes: nothing, the device of its directory, or the first error. */
  function EntryDevice(e: DirEntry, fs: string -> Option<string>): Result<Option<UsbDev>> {
    match e
    case EntryError => Err(IoError(DIR))
    case NonUtf8 => Ok(None)
    case EntryPath(p) =>
      if ':' in p then Ok(None)
      else
        var dev :- UsbEventOf(p, fs);
        Ok(Some(dev))
  }

  /** The devices of the entries in order, or the first error. */
  function ScanEntries(es: seq<DirEntry>, fs: string -> Option<string>): Result<seq<UsbDev>>
    decreases |es|
  {
    if es == [] then Ok([])
    else
      var o :- EntryDevice(es[0], fs);
      PrependOk(if o.Some? then [o.value] else [], ScanEntries(es[1..], fs))
  }

  /** The devices of a listing of the device directory, `None` when it cannot be listed. */
  function ScanOf(listing: Option<seq<DirEntry>>, fs: string -> Option<string>): Result<seq<UsbDev>> {
    if listing.None? then Err(IoError(DIR)) else ScanEntries(listing.value, fs)
  }

  /** One turn of the directory loop: entry `i`'s device, if any, then the devices of the rest. */
  lemma ScanEntriesStep(es: seq<DirEntry>, i: nat, list: seq<UsbDev>, fs: string -> Option<string>)
    requires i < |es|
    ensures EntryDevice(es[i], fs).Err? ==>
      PrependOk(list, ScanEntries(es[i..], fs)) == EntryDevice(es[i], fs).PropagateFailure()
    ensures EntryDevice(es[i], fs) == Ok(None) ==>
      PrependOk(list, ScanEntries(es[i..], fs)) == PrependOk(list, ScanEntries(es[i + 1..], fs))
    ensures EntryDevice(es[i], fs).Ok? && EntryDevice(es[i], fs).value.Some? ==>
      PrependOk(list, ScanEntries(es[i..], fs))
        == PrependOk(list + [EntryDevice(es[i], fs).value.value], ScanEntries(es[i + 1..], fs))
  {
    var t := es[i..];
    assert t[0] == es[i] && t[1..] == es[i + 1..];
    var o := EntryDevice(es[i], fs);
    if o.Ok? {
      var xs := if o.value.Some? then [o.value.value] else [];
      PrependOkAssoc(list, xs, ScanEntries(es[i + 1..], fs));
      if o.value.None? {
        assert list + xs == list;
      }
    }
  }

  /** `scan_usb`: the device of every entry whose path holds no ':', in listing order. */
  method ScanUsb(listing: Option<seq<DirEntry>>, fs: string -> Option<string>) returns (result: Result<seq<UsbDev>>)
    ensures result == ScanOf(listing, fs)
  {
    if listing.None? {
      return Err(IoError(DIR));
    }
    var es := listing.value;
    var list: seq<UsbDev> := [];
    var i := 0;
    assert es[0..] == es;
    PrependOkNil(ScanEntries(es, fs));
    while i < |es|
      invariant 0 <= i <= |es|
      invariant ScanEntries(es, fs) == PrependOk(list, ScanEntries(es[i..], fs))
      decreases |es| - i
    {
      ScanEntriesStep(es, i, list, fs);
      var entry := es[i];
      i := i + 1;
      if entry.EntryError? {
        return Err(IoError(DIR));
      }
      if entry.EntryPath? && ':' !in entry.path {
        var dev :- ScanUsbEvent(entry.path, fs);
        list := list + [dev];
      }
    }
    assert es[i..] == [];
    AppendNil(list);
    return Ok(list);
  }

  // ---------------------------------------------------------------------------
  // Properties of the line dialects

  /** The line assigns field `f`. */
  predicate Assigns(d: Dialect, line: string, f: Field) {
    Sets(Entry(d, line), f)
  }

  /** A line without an '=' assigns nothing; nor does a udev line without the "E:" tag. */
  lemma EntryIgnored(d: Dialect, line: string)
    ensures '=' !in line ==> Entry(d, line).None?
    ensures d == Udev && !StartsWith(line, TAG) ==> Entry(d, line).None?
  {
  }

  /** Text without an '=' before an '=' or the end is the first piece of its split. */
  lemma FirstPiece(value: string, rest: string)
    requires '=' !in value
    requires rest == [] || rest[0] == '='
    ensures Split(value + rest, '=')[0] == value
  {
    if rest != [] {
      assert value + rest == value + ['='] + rest[1..];
      SplitAt(value, '=', rest[1..]);
    } else {
      assert value + rest == value;
    }
  }

  /** The value is the text between the first and the second '=', trimmed. */
  lemma SplitKeyValue(key: string, value: string, rest: string)
    requires '=' !in key && '=' !in value
    requires rest == [] || rest[0] == '='
    ensures '=' in key + "=" + value + rest
    ensures KeyValue(key + "=" + value + rest) == (key, Trim(value))
  {
    var s := key + "=" + value + rest;
    assert s == key + ['='] + (value + rest);
    assert s[|key|] == '=';
    SplitAt(key, '=', value + rest);
    FirstPiece(value, rest);
  }

  /**
   * An untagged `key=value` line, possibly followed by a second '=' and more,
   * assigns the field its untrimmed key names, if any, the trimmed value.
   */
  lemma UeventEntryOfLine(key: string, value: string, rest: string)
    requires '=' !in key && '=' !in value
    requires rest == [] || rest[0] == '='
    ensures Entry(Uevent, key + "=" + value + rest) ==
      if UeventKey(key).Some? then Some((UeventKey(key).value, Trim(value))) else None
  {
    SplitKeyValue(key, value, rest);
  }

  /** The same for a udev line: its text after the "E:" tag. */
  lemma UdevEntryOfLine(key: string, value: string, rest: string)
    requires '=' !in key && '=' !in value
    requires rest == [] || rest[0] == '='
    ensures Entry(Udev, TAG + key + "=" + value + rest) ==
      if UdevKey(key).Some? then Some((UdevKey(key).value, Trim(value))) else None
  {
    var line := TAG + key + "=" + value + rest;
    assert line[..|TAG|] == TAG;
    assert line[|TAG|..] == key + "=" + value + rest;
    SplitKeyValue(key, value, rest);
  }

  /** The key is not trimmed: an indented `MAJOR` names no field. */
  lemma IndentedKeyIgnored(value: string)
    requires '=' !in value
    ensures Entry(Uevent, " MAJOR=" + value) == None
  {
    assert " MAJOR=" + value == " MAJOR" + "=" + value + "";
    UeventEntryOfLine(" MAJOR", value, "");
    assert " MAJOR" != "MAJOR" && " MAJOR" != "MINOR";
  }

  /** The assignment sets field `f`. */
  predicate Sets(e: Option<(Field, string)>, f: Field) {
    e.Some? && e.value.0 == f
  }

  /** One assignment sets its field and leaves every other field as it was. */
  lemma StepGet(dev: UsbDev, e: Option<(Field, string)>, f: Field)
    ensures Get(Step(dev, e), f) == if Sets(e, f) then e.value.1 else Get(dev, f)
  {
    if e.Some? {
      GetSet(dev, e.value.0, e.value.1, f);
    }
  }

  /** A field ends with the value of the last assignment to it. */
  lemma {:induction false} AssignLastWins(dev: UsbDev, es: seq<Option<(Field, string)>>, f: Field, k: nat)
    requires k < |es| && Sets(es[k], f)
    requires forall j :: k < j < |es| ==> !Sets(es[j], f)
    ensures Get(Assign(dev, es), f) == es[k].value.1
    decreases |es|
  {
    var n := |es| - 1;
    StepGet(Assign(dev, es[..n]), es[n], f);
    if k < n {
      AssignLastWins(dev, es[..n], f, k);
    }
  }

  /** A field nothing assigns keeps its value. */
  lemma {:induction false} AssignUntouched(dev: UsbDev, es: seq<Option<(Field, string)>>, f: Field)
    requires forall j :: 0 <= j < |es| ==> !Sets(es[j], f)
    ensures Get(Assign(dev, es), f) == Get(dev, f)
    decreases |es|
  {
    if es != [] {
      var n := |es| - 1;
      StepGet(Assign(dev, es[..n]), es[n], f);
      AssignUntouched(dev, es[..n], f);
    }
  }

  /** What the assignments leave in a field depends only on them and that field's starting value. */
  lemma {:induction false} AssignIndependent(a: UsbDev, b: UsbDev, es: seq<Option<(Field, string)>>, f: Field)
    requires Get(a, f) == Get(b, f)
    ensures Get(Assign(a, es), f) == Get(Assign(b, es), f)
    decreases |es|
  {
    if es != [] {
      var n := |es| - 1;
      StepGet(Assign(a, es[..n]), es[n], f);
      StepGet(Assign(b, es[..n]), es[n], f);
      AssignIndependent(a, b, es[..n], f);
    }
  }

  /** A field ends with the value the last line assigning it gives it. */
  lemma FoldLastWins(d: Dialect, dev: UsbDev, lines: seq<string>, f: Field, k: nat)
    requires k < |lines| && Assigns(d, lines[k], f)
    requires forall j :: k < j < |lines| ==> !Assigns(d, lines[j], f)
    ensures Get(Fold(d, dev, lines), f) == Entry(d, lines[k]).value.1
  {
    AssignLastWins(dev, Entries(d, lines), f, k);
  }

  /** A field no line assigns keeps its value. */
  lemma FoldUntouched(d: Dialect, dev: UsbDev, lines: seq<string>, f: Field)
    requires forall j :: 0 <= j < |lines| ==> !Assigns(d, lines[j], f)
    ensures Get(Fold(d, dev, lines), f) == Get(dev, f)
  {
    AssignUntouched(dev, Entries(d, lines), f);
  }

  /** A dialect changes no field it does not own: the scalar attributes, and the other dialect's. */
  lemma FoldOthers(d: Dialect, dev: UsbDev, lines: seq<string>, f: Field)
    requires !Owns(d, f)
    ensures Get(Fold(d, dev, lines), f) == Get(dev, f)
  {
    forall j | 0 <= j < |lines| ensures !Assigns(d, lines[j], f) {
      var b := Body(d, lines[j]);
      if b.Some? {
        KeyFieldOwned(d, KeyValue(b.value).0);
      }
    }
    FoldUntouched(d, dev, lines, f);
  }

  /** What the lines leave in a field depends only on the lines and that field's starting value. */
  lemma FoldIndependent(d: Dialect, a: UsbDev, b: UsbDev, lines: seq<string>, f: Field)
    requires Get(a, f) == Get(b, f)
    ensures Get(Fold(d, a, lines), f) == Get(Fold(d, b, lines), f)
  {
    AssignIndependent(a, b, Entries(d, lines), f);
  }

  // ---------------------------------------------------------------------------
  // Writing attribute lines and reading them back

  /** The line that writes `key=value` in a dialect: with the "E:" tag for udev. */
  function AttrLine(d: Dialect, key: string, value: string): string {
    (if d.Udev? then TAG else "") + key + "=" + value
  }

  /** One line per pair, each ended by a line feed. */
  function Render(d: Dialect, kvs: seq<(string, string)>): string
    decreases |kvs|
  {
    if kvs == [] then "" else AttrLine(d, kvs[0].0, kvs[0].1) + "\n" + Render(d, kvs[1..])
  }

  /** What a pair assigns when read back: the field its key names, with the trimmed value. */
  function PairEntry(d: Dialect, kv: (string, string)): Option<(Field, string)> {
    var f := KeyField(d, kv.0);
    if f.Some? then Some((f.value, Trim(kv.1))) else None
  }

  /** A pair that a line can hold: no '=' or line feed in key or value, and no carriage return ending it. */
  predicate Writable(kv: (string, string)) {
    '=' !in kv.0 && '=' !in kv.1 && '\n' !in kv.0 && '\n' !in kv.1 && (kv.1 == [] || kv.1[|kv.1| - 1] != '\r')
  }

  /** Every pair is writable. */
  predicate AllWritable(kvs: seq<(string, string)>)
  {
    forall k :: 0 <= k < |kvs| ==> Writable(kvs[k])
  }

  /** The line written for a writable pair assigns what the pair assigns. */
  lemma AttrLineEntry(d: Dialect, kv: (string, string))
    requires Writable(kv)
    ensures Entry(d, AttrLine(d, kv.0, kv.1)) == PairEntry(d, kv)
    ensures '\n' !in AttrLine(d, kv.0, kv.1) && StripCr(AttrLine(d, kv.0, kv.1)) == AttrLine(d, kv.0, kv.1)
  {
    var line := AttrLine(d, kv.0, kv.1);
    if d.Udev? {
      assert line == TAG + kv.0 + "=" + kv.1 + "";
      UdevEntryOfLine(kv.0, kv.1, "");
    } else {
      assert line == kv.0 + "=" + kv.1 + "";
      UeventEntryOfLine(kv.0, kv.1, "");
    }
  }

  /** The entries of one line, then of the lines after it. */
  lemma EntriesCons(d: Dialect, line: string, rest: seq<string>)
    ensures Entries(d, [line] + rest) == [Entry(d, line)] + Entries(d, rest)
  {
    var lines := [line] + rest;
    var es := Entries(d, lines);
    var expected := [Entry(d, line)] + Entries(d, rest);
    forall k | 0 <= k < |lines| ensures es[k] == expected[k] {
      if k > 0 {
        assert lines[k] == rest[k - 1];
      }
    }
  }

  /** A line for a writable pair, then more text: what the pair assigns, then what the rest assigns. */
  lemma RenderStep(d: Dialect, kv: (string, string), rest: string)
    requires Writable(kv)
    ensures Entries(d, Lines(AttrLine(d, kv.0, kv.1) + "\n" + rest)) == [PairEntry(d, kv)] + Entries(d, Lines(rest))
  {
    var line := AttrLine(d, kv.0, kv.1);
    AttrLineEntry(d, kv);
    LinesCons(line, rest);
    EntriesCons(d, line, Lines(rest));
  }

  /**
   * Rendered writable pairs read back as their assignments in order: each
   * pair assigns the field its key names, with its trimmed value, or nothing.
   */
  lemma {:induction false} RenderRoundTrip(d: Dialect, kvs: seq<(string, string)>)
    requires AllWritable(kvs)
    ensures |Entries(d, Lines(Render(d, kvs)))| == |kvs|
    ensures forall k :: 0 <= k < |kvs| ==> Entries(d, Lines(Render(d, kvs)))[k] == PairEntry(d, kvs[k])
    decreases |kvs|
  {
    if kvs != [] {
      var rest := kvs[1..];
      assert Writable(kvs[0]);
      assert AllWritable(rest) by {
        forall k | 0 <= k < |rest| ensures Writable(rest[k]) {
          assert rest[k] == kvs[k + 1];
        }
      }
      RenderStep(d, kvs[0], Render(d, rest));
      RenderRoundTrip(d, rest);
      var es := Entries(d, Lines(Render(d, kvs)));
      assert es == [PairEntry(d, kvs[0])] + Entries(d, Lines(Render(d, kvs[1..])));
      forall k | 0 < k < |kvs| ensures es[k] == PairEntry(d, kvs[k]) {
        assert kvs[k] == kvs[1..][k - 1];
      }
    }
  }

  /** Read back, a field holds the value of the last pair that assigns it. */
  lemma RoundTripField(d: Dialect, kvs: seq<(string, string)>, start: UsbDev, f: Field, k: nat)
    requires forall j :: 0 <= j < |kvs| ==> Writable(kvs[j])
    requires k < |kvs| && Sets(PairEntry(d, kvs[k]), f)
    requires forall j :: k < j < |kvs| ==> !Sets(PairEntry(d, kvs[j]), f)
    ensures Get(Fold(d, start, Lines(Render(d, kvs))), f) == PairEntry(d, kvs[k]).value.1
  {
    RenderRoundTrip(d, kvs);
    AssignLastWins(start, Entries(d, Lines(Render(d, kvs))), f, k);
  }

  /** The `uevent` attributes of a device as `KEY=value` pairs. */
  function UeventPairs(dev: UsbDev): seq<(string, string)> {
    [("MAJOR", dev.major), ("MINOR", dev.minor), ("DEVNAME", dev.devName),
     ("DEVTYPE", dev.devType), ("BUSNUM", dev.busNum), ("DEVNUM", dev.devNum)]
  }

  /** Where each `uevent` attribute stands among the pairs. */
  function UeventIndex(f: Field): nat
    requires Owns(Uevent, f)
  {
    match f
    case Major => 0
    case Minor => 1
    case DevName => 2
    case DevType => 3
    case BusNum => 4
    case DevNum => 5
  }

  /** A value a `uevent` line can hold and that reading it back leaves as it is. */
  predicate Storable(v: string) {
    Writable(("", v)) && Trim(v) == v
  }

  /** The pairs of a device with storable values can be written. */
  lemma UeventPairsWritable(dev: UsbDev)
    requires Storable(dev.major) && Storable(dev.minor) && Storable(dev.devName)
    requires Storable(dev.devType) && Storable(dev.busNum) && Storable(dev.devNum)
    ensures forall k :: 0 <= k < |UeventPairs(dev)| ==> Writable(UeventPairs(dev)[k])
  {
  }

  /** The pairs of a device read back as assignments of its own values, each field once. */
  lemma UeventPairEntries(dev: UsbDev, f: Field)
    requires Owns(Uevent, f)
    ensures var kvs := UeventPairs(dev);
      |kvs| == 6 && UeventIndex(f) < 6 && Sets(PairEntry(Uevent, kvs[UeventIndex(f)]), f) &&
      PairEntry(Uevent, kvs[UeventIndex(f)]).value.1 == Trim(Get(dev, f)) &&
      forall j :: 0 <= j < 6 && j != UeventIndex(f) ==> !Sets(PairEntry(Uevent, kvs[j]), f)
  {
  }

  /**
   * Writing the `uevent` attributes of a device and reading them back, from
   * any starting device, restores each of them.
   */
  lemma UeventRoundTrip(dev: UsbDev, start: UsbDev, f: Field)
    requires Storable(dev.major) && Storable(dev.minor) && Storable(dev.devName)
    requires Storable(dev.devType) && Storable(dev.busNum) && Storable(dev.devNum)
    requires Owns(Uevent, f)
    ensures Get(Fold(Uevent, start, Lines(Render(Uevent, UeventPairs(dev)))), f) == Get(dev, f)
  {
    var kvs := UeventPairs(dev);
    UeventPairsWritable(dev);
    UeventPairEntries(dev, f);
    assert Storable(Get(dev, f));
    RoundTripField(Uevent, kvs, start, f, UeventIndex(f));
  }

  // ---------------------------------------------------------------------------
  // Properties of one device

  /** The scalar attributes come from their files; every other attribute starts empty. */
  lemma ScalarsGet(dir: string, fs: string -> Option<string>, f: Field)
    ensures Get(Scalars(dir, fs), f) == if ScalarFile(f).Some? then Scalar(fs(JoinPath(dir, ScalarFile(f).value))) else ""
  {
  }

  /** The lines of the `uevent` file of `dir`, when it can be read. */
  function UeventLines(dir: string, fs: string -> Option<string>): seq<string>
    requires fs(JoinPath(dir, "uevent")).Some?
  {
    Lines(fs(JoinPath(dir, "uevent")).value)
  }

  /** The udev entry named by the numbers the `uevent` lines give, starting from empty ones. */
  function UdevPathOf(dir: string, fs: string -> Option<string>): string
    requires fs(JoinPath(dir, "uevent")).Some?
  {
    var numbers := Fold(Uevent, DEFAULT, UeventLines(dir, fs));
    UdevPath(numbers.major, numbers.minor)
  }

  /** The scalar files do not change the udev entry the `uevent` lines name. */
  lemma UdevPathFromUevent(dir: string, fs: string -> Option<string>)
    requires fs(JoinPath(dir, "uevent")).Some?
    ensures var dev := Fold(Uevent, Scalars(dir, fs), UeventLines(dir, fs));
      UdevPath(dev.major, dev.minor) == UdevPathOf(dir, fs)
  {
    var lines := UeventLines(dir, fs);
    ScalarsGet(dir, fs, Major);
    ScalarsGet(dir, fs, Minor);
    FoldIndependent(Uevent, Scalars(dir, fs), DEFAULT, lines, Major);
    FoldIndependent(Uevent, Scalars(dir, fs), DEFAULT, lines, Minor);
  }

  /**
   * Reading a device fails exactly when its `uevent` file or the udev entry
   * named by the parsed (possibly empty) major and minor numbers cannot be
   * read, and then with that file's error; the scalar files never fail it.
   */
  lemma UsbEventErrors(dir: string, fs: string -> Option<string>)
    ensures fs(JoinPath(dir, "uevent")).None? ==> UsbEventOf(dir, fs) == Err(IoError(UEVENT_FILE))
    ensures fs(JoinPath(dir, "uevent")).Some? ==>
      (UsbEventOf(dir, fs).Err? <==> fs(UdevPathOf(dir, fs)).None?) &&
      (UsbEventOf(dir, fs).Err? ==> UsbEventOf(dir, fs) == Err(IoErrorDetail(UdevPathOf(dir, fs))))
  {
    if fs(JoinPath(dir, "uevent")).Some? {
      UdevPathFromUevent(dir, fs);
    }
  }

  /** The device a successful read yields, after its `uevent` lines and its udev lines. */
  lemma UsbEventValue(dir: string, fs: string -> Option<string>)
    requires UsbEventOf(dir, fs).Ok?
    ensures fs(JoinPath(dir, "uevent")).Some? && fs(UdevPathOf(dir, fs)).Some?
    ensures UsbEventOf(dir, fs).value ==
      Fold(Udev, Fold(Uevent, Scalars(dir, fs), UeventLines(dir, fs)), Lines(fs(UdevPathOf(dir, fs)).value))
  {
    UdevPathFromUevent(dir, fs);
  }

  /** An attribute without a scalar file starts empty. */
  lemma UnscalarGet(dir: string, fs: string -> Option<string>, f: Field)
    requires ScalarFile(f).None?
    ensures Get(Scalars(dir, fs), f) == Get(DEFAULT, f) == ""
  {
  }

  /** A field neither dialect owns keeps its starting value through both loops. */
  lemma ThroughBoth(scalars: UsbDev, ue: seq<string>, ud: seq<string>, f: Field)
    requires !Owns(Uevent, f) && !Owns(Udev, f)
    ensures Get(Fold(Udev, Fold(Uevent, scalars, ue), ud), f) == Get(scalars, f)
  {
    FoldOthers(Uevent, scalars, ue, f);
    FoldOthers(Udev, Fold(Uevent, scalars, ue), ud, f);
  }

  /** A scalar attribute keeps the value read from its file through both loops. */
  lemma ScalarThroughBoth(dir: string, fs: string -> Option<string>, ue: seq<string>, ud: seq<string>, f: Field)
    requires ScalarFile(f).Some?
    ensures Get(Fold(Udev, Fold(Uevent, Scalars(dir, fs), ue), ud), f) == Scalar(fs(JoinPath(dir, ScalarFile(f).value)))
  {
    ScalarsGet(dir, fs, f);
    ThroughBoth(Scalars(dir, fs), ue, ud, f);
  }

  /** A `uevent` field that starts empty ends as the `uevent` lines alone leave it. */
  lemma ThroughUevent(scalars: UsbDev, ue: seq<string>, ud: seq<string>, f: Field)
    requires Owns(Uevent, f) && Get(scalars, f) == Get(DEFAULT, f)
    ensures Get(Fold(Udev, Fold(Uevent, scalars, ue), ud), f) == Get(Fold(Uevent, DEFAULT, ue), f)
  {
    FoldIndependent(Uevent, scalars, DEFAULT, ue, f);
    FoldOthers(Udev, Fold(Uevent, scalars, ue), ud, f);
  }

  /** A udev field that starts empty ends as the udev lines alone leave it. */
  lemma ThroughUdev(scalars: UsbDev, ue: seq<string>, ud: seq<string>, f: Field)
    requires Owns(Udev, f) && Get(scalars, f) == Get(DEFAULT, f)
    ensures Get(Fold(Udev, Fold(Uevent, scalars, ue), ud), f) == Get(Fold(Udev, DEFAULT, ud), f)
  {
    FoldOthers(Uevent, scalars, ue, f);
    FoldIndependent(Udev, Fold(Uevent, scalars, ue), DEFAULT, ud, f);
  }

  /** A scalar attribute is its file's contents, trimmed, or `""` when the file cannot be read. */
  lemma ScalarField(dir: string, fs: string -> Option<string>, f: Field)
    requires UsbEventOf(dir, fs).Ok? && ScalarFile(f).Some?
    ensures Get(UsbEventOf(dir, fs).value, f) == Scalar(fs(JoinPath(dir, ScalarFile(f).value)))
  {
    UsbEventValue(dir, fs);
    ScalarThroughBoth(dir, fs, UeventLines(dir, fs), Lines(fs(UdevPathOf(dir, fs)).value), f);
  }

  /** A `uevent` attribute comes from the `uevent` lines alone. */
  lemma UeventField(dir: string, fs: string -> Option<string>, f: Field)
    requires UsbEventOf(dir, fs).Ok? && Owns(Uevent, f)
    ensures Get(UsbEventOf(dir, fs).value, f) == Get(Fold(Uevent, DEFAULT, UeventLines(dir, fs)), f)
  {
    UsbEventValue(dir, fs);
    UnscalarGet(dir, fs, f);
    ThroughUevent(Scalars(dir, fs), UeventLines(dir, fs), Lines(fs(UdevPathOf(dir, fs)).value), f);
  }

  /** A udev property comes from the lines of the udev entry alone. */
  lemma UdevField(dir: string, fs: string -> Option<string>, f: Field)
    requires UsbEventOf(dir, fs).Ok? && Owns(Udev, f)
    ensures fs(UdevPathOf(dir, fs)).Some?
    ensures Get(UsbEventOf(dir, fs).value, f) == Get(Fold(Udev, DEFAULT, Lines(fs(UdevPathOf(dir, fs)).value)), f)
  {
    UsbEventValue(dir, fs);
    UnscalarGet(dir, fs, f);
    ThroughUdev(Scalars(dir, fs), UeventLines(dir, fs), Lines(fs(UdevPathOf(dir, fs)).value), f);
  }

  /** Every attribute is exactly one of: scalar, `uevent`, udev. */
  lemma FieldClasses(f: Field)
    ensures ScalarFile(f).Some? || Owns(Uevent, f) || Owns(Udev, f)
    ensures !(ScalarFile(f).Some? && Owns(Uevent, f)) && !(ScalarFile(f).Some? && Owns(Udev, f))
    ensures !(Owns(Uevent, f) && Owns(Udev, f))
  {
  }

  // ---------------------------------------------------------------------------
  // Properties of the scan

  /** An entry is accepted unless it cannot be read, or it is a device directory that cannot be read. */
  lemma EntryDeviceMeaning(e: DirEntry, fs: string -> Option<string>)
    ensures EntryDevice(e, fs).Ok? <==> !e.EntryError? && (e.EntryPath? && ':' !in e.path ==> UsbEventOf(e.path, fs).Ok?)
    ensures EntryDevice(e, fs).Ok? ==> (EntryDevice(e, fs).value.Some? <==> e.EntryPath? && ':' !in e.path)
  {
  }

  /** The scan succeeds exactly when every entry is accepted. */
  lemma {:induction false} ScanEntriesOkIff(es: seq<DirEntry>, fs: string -> Option<string>)
    ensures ScanEntries(es, fs).Ok? <==> forall k :: 0 <= k < |es| ==> EntryDevice(es[k], fs).Ok?
    decreases |es|
  {
    if es != [] {
      ScanEntriesOkIff(es[1..], fs);
      assert forall k :: 1 <= k < |es| ==> es[k] == es[1..][k - 1];
      if EntryDevice(es[0], fs).Ok? && ScanEntries(es[1..], fs).Ok? {
        assert forall k :: 0 <= k < |es| ==> EntryDevice(es[k], fs).Ok? by {
          forall k | 0 <= k < |es| ensures EntryDevice(es[k], fs).Ok? {
            if k > 0 { assert EntryDevice(es[1..][k - 1], fs).Ok?; }
          }
        }
      }
    }
  }

  /** The device directories of a listing, in order: its paths that hold no ':'. */
  function DevicePaths(es: seq<DirEntry>): seq<string>
    decreases |es|
  {
    if es == [] then []
    else (if es[0].EntryPath? && ':' !in es[0].path then [es[0].path] else []) + DevicePaths(es[1..])
  }

  /** Devices read from their paths, followed by more such, are still read from theirs. */
  lemma DevicesAppend(r1: seq<UsbDev>, p1: seq<string>, r2: seq<UsbDev>, p2: seq<string>, fs: string -> Option<string>)
    requires |r1| == |p1| && |r2| == |p2|
    requires forall k :: 0 <= k < |p1| ==> UsbEventOf(p1[k], fs) == Ok(r1[k])
    requires forall k :: 0 <= k < |p2| ==> UsbEventOf(p2[k], fs) == Ok(r2[k])
    ensures forall k :: 0 <= k < |p1 + p2| ==> UsbEventOf((p1 + p2)[k], fs) == Ok((r1 + r2)[k])
  {
    forall k | 0 <= k < |p1 + p2| ensures UsbEventOf((p1 + p2)[k], fs) == Ok((r1 + r2)[k]) {
      if k >= |p1| {
        assert (p1 + p2)[k] == p2[k - |p1|] && (r1 + r2)[k] == r2[k - |p1|];
      }
    }
  }

  /**
   * An accepted scan has one device per device directory, in listing order:
   * device `k` is the one read from the `k`-th path without a ':'.
   */
  lemma {:induction false} ScanEntriesRecords(es: seq<DirEntry>, fs: string -> Option<string>)
    requires ScanEntries(es, fs).Ok?
    ensures |ScanEntries(es, fs).value| == |DevicePaths(es)|
    ensures forall k :: 0 <= k < |DevicePaths(es)| ==>
      UsbEventOf(DevicePaths(es)[k], fs) == Ok(ScanEntries(es, fs).value[k])
    decreases |es|
  {
    if es != [] {
      EntryDeviceMeaning(es[0], fs);
      ScanEntriesRecords(es[1..], fs);
      var head: seq<string> := if es[0].EntryPath? && ':' !in es[0].path then [es[0].path] else [];
      var devs: seq<UsbDev> := if head != [] then [UsbEventOf(head[0], fs).value] else [];
      assert ScanEntries(es, fs) == PrependOk(devs, ScanEntries(es[1..], fs));
      DevicesAppend(devs, head, ScanEntries(es[1..], fs).value, DevicePaths(es[1..]), fs);
    }
  }
}
