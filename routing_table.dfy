/**
 * The kernel routing table parser of src/network/routing_table.rs. The
 * table text is read line by line: a header line (beginning "Iface") must
 * have 11 columns, blank lines are skipped, and every other line becomes one
 * record, its whitespace-separated columns assigned to the record's fields
 * in order.
 */
module RoutingTable {
  import opened Common
  import opened RustStr

  const FILE := "/proc/net/route"
  const WIDTH_ERROR := "Failed to parse route file, expect 11 parts"

  /** One route; the numeric fields are `i32`. */
  datatype Routing = Routing(
    interface: string,
    destination: string,
    gateway: string,
    flags: string,
    refcnt: int,
    used: int,
    metric: int,
    mask: string,
    mtu: int,
    window: int,
    irtt: int)

  /** `Routing::default()`. */
  function DefaultRouting(): Routing {
    Routing("", "", "", "", 0, 0, 0, "", 0, 0, 0)
  }

  /** An `i32` column or the error naming it. */
  function IntField(part: string, reason: string): Result<int> {
    var v := ParseI32(part);
    if v.Some? then Ok(v.value) else Err(ParseFile(FILE, reason))
  }

  /** Column `i` of `parts`, or the default when the row is shorter. */
  function Column(parts: seq<string>, i: nat): string {
    if i < |parts| then parts[i] else ""
  }

  /** Numeric column `i` is absent or an `i32`. */
  predicate IntColumnOk(parts: seq<string>, i: nat) {
    i >= |parts| || ParseI32(parts[i]).Some?
  }

  /** Numeric column `i` of `parts`, or the default when it is absent or not an `i32`. */
  function IntColumn(parts: seq<string>, i: nat): int {
    if i < |parts| && ParseI32(parts[i]).Some? then ParseI32(parts[i]).value else 0
  }

  /**
   * Why a data row is refused: the first of the six numeric columns that is
   * not an `i32`, otherwise a twelfth column; `None` for an accepted row.
   */
  function RowError(parts: seq<string>): Option<string> {
    if !IntColumnOk(parts, 4) then Some("Failed to parse refcnt")
    else if !IntColumnOk(parts, 5) then Some("Failed to parse used")
    else if !IntColumnOk(parts, 6) then Some("Failed to parse metric")
    else if !IntColumnOk(parts, 8) then Some("Failed to parse mtu")
    else if !IntColumnOk(parts, 9) then Some("Failed to parse window")
    else if !IntColumnOk(parts, 10) then Some("Failed to parse irtt")
    else if |parts| > 11 then Some(WIDTH_ERROR)
    else None
  }

  /** The record of a row: columns 0 to 10 fill the fields in order, missing columns keep their defaults. */
  function RowRecord(parts: seq<string>): Routing {
    Routing(Column(parts, 0), Column(parts, 1), Column(parts, 2), Column(parts, 3),
            IntColumn(parts, 4), IntColumn(parts, 5), IntColumn(parts, 6), Column(parts, 7),
            IntColumn(parts, 8), IntColumn(parts, 9), IntColumn(parts, 10))
  }

  /**
   * The record a data row denotes: columns 0 to 10 fill the fields in order,
   * missing columns keep their defaults, the six numeric columns must parse
   * as `i32` (the first one that does not is reported) and a twelfth column
   * is an error.
   */
  function RoutingRow(parts: seq<string>): Result<Routing> {
    if RowError(parts).Some? then Err(ParseFile(FILE, RowError(parts).value))
    else Ok(RowRecord(parts))
  }

  /** The error for numeric column `c` that is not an `i32`. */
  function NumericReason(c: int): string {
    match c
    case 4 => "Failed to parse refcnt"
    case 5 => "Failed to parse used"
    case 6 => "Failed to parse metric"
    case 8 => "Failed to parse mtu"
    case 9 => "Failed to parse window"
    case _ => "Failed to parse irtt"
  }

  /** The effect of column `index` holding `part` on the record built so far. */
  function SetColumn(r: Routing, index: nat, part: string): Result<Routing> {
    match index
    case 0 => Ok(r.(interface := part))
    case 1 => Ok(r.(destination := part))
    case 2 => Ok(r.(gateway := part))
    case 3 => Ok(r.(flags := part))
    case 4 => var v :- IntField(part, "Failed to parse refcnt"); Ok(r.(refcnt := v))
    case 5 => var v :- IntField(part, "Failed to parse used"); Ok(r.(used := v))
    case 6 => var v :- IntField(part, "Failed to parse metric"); Ok(r.(metric := v))
    case 7 => Ok(r.(mask := part))
    case 8 => var v :- IntField(part, "Failed to parse mtu"); Ok(r.(mtu := v))
    case 9 => var v :- IntField(part, "Failed to parse window"); Ok(r.(window := v))
    case 10 => var v :- IntField(part, "Failed to parse irtt"); Ok(r.(irtt := v))
    case _ => Err(ParseFile(FILE, WIDTH_ERROR))
  }

  /** The empty row denotes the default record. */
  lemma RoutingRowEmpty()
    ensures RoutingRow([]) == Ok(DefaultRouting())
  {
  }

  /**
   * Assigning the columns one at a time, as the source does, builds the
   * record the row denotes: one more column is one more `SetColumn`.
   */
  lemma RoutingRowStep(parts: seq<string>, i: nat)
    requires i < |parts| && RoutingRow(parts[..i]).Ok?
    ensures RoutingRow(parts[..i + 1]) == SetColumn(RoutingRow(parts[..i]).value, i, parts[i])
  {
    var p, q := parts[..i], parts[..i + 1];
    PrefixColumn(parts, i, 0); PrefixColumn(parts, i, 1); PrefixColumn(parts, i, 2);
    PrefixColumn(parts, i, 3); PrefixColumn(parts, i, 4); PrefixColumn(parts, i, 5);
    PrefixColumn(parts, i, 6); PrefixColumn(parts, i, 7); PrefixColumn(parts, i, 8);
    PrefixColumn(parts, i, 9); PrefixColumn(parts, i, 10);
  }

  /** Column `c` of the first `i + 1` columns against column `c` of the first `i`. */
  lemma PrefixColumn(parts: seq<string>, i: nat, c: nat)
    requires i < |parts|
    ensures var p, q := parts[..i], parts[..i + 1];
      && |p| == i && |q| == i + 1
      && (c != i ==> Column(q, c) == Column(p, c) && IntColumnOk(q, c) == IntColumnOk(p, c) && IntColumn(q, c) == IntColumn(p, c))
      && (c == i ==> Column(q, c) == parts[i] && IntColumnOk(p, c) && Column(p, c) == "" &&
                     IntColumnOk(q, c) == ParseI32(parts[i]).Some? &&
                     (ParseI32(parts[i]).Some? ==> IntColumn(q, c) == ParseI32(parts[i]).value))
  {
    var p, q := parts[..i], parts[..i + 1];
    if c < i { assert q[c] == p[c]; }
    if c == i { assert q[c] == parts[i]; }
  }

  /**
   * One turn of the column loop: column `index` either extends the record
   * of the prefix or decides the whole row's error.
   */
  lemma RoutingRowAdvance(parts: seq<string>, index: nat, routing: Routing, next: Result<Routing>)
    requires index < |parts| && RoutingRow(parts[..index]) == Ok(routing)
    requires next == SetColumn(routing, index, parts[index])
    ensures next.Ok? ==> RoutingRow(parts[..index + 1]) == next
    ensures next.Err? ==> RoutingRow(parts) == next
  {
    RoutingRowStep(parts, index);
    if next.Err? {
      RoutingRowErrorStays(parts, index + 1);
    }
  }

  /** Once a prefix of the row fails, the whole row fails with the same error. */
  lemma RoutingRowErrorStays(parts: seq<string>, i: nat)
    requires i <= |parts| && RoutingRow(parts[..i]).Err?
    ensures RoutingRow(parts) == RoutingRow(parts[..i])
  {
    var p := parts[..i];
    assert forall c :: 0 <= c < i ==> parts[c] == p[c];
  }

  /** A header line: one that begins with "Iface". */
  predicate IsHeader(line: string) {
    StartsWith(line, "Iface")
  }

  /** A line that is neither a header nor blank, and so holds a route. */
  predicate IsDataLine(line: string) {
    !IsHeader(line) && Trim(line) != []
  }

  /**
   * What one line contributes: a header with the wrong number of columns is
   * an error, other headers and blank lines contribute nothing, and a data
   * line contributes its record or the error in it.
   */
  function ParseLine(line: string): Result<Option<Routing>> {
    if IsHeader(line) then
      if |SplitAsciiWhitespace(line)| != 11 then Err(ParseFile(FILE, WIDTH_ERROR)) else Ok(None)
    else if Trim(line) == [] then Ok(None)
    else
      var r :- RoutingRow(SplitAsciiWhitespace(line));
      Ok(Some(r))
  }

  /** The records of the lines in order, or the first error among them. */
  function ParseRoutingLines(lines: seq<string>): Result<seq<Routing>>
    decreases |lines|
  {
    if lines == [] then Ok([])
    else
      var o :- ParseLine(lines[0]);
      PrependOk(if o.Some? then [o.value] else [], ParseRoutingLines(lines[1..]))
  }

  /** The routing table denoted by the contents of the route file, or why there is none. */
  function RoutingTableOf(content: Option<string>): Result<seq<Routing>> {
    if content.None? then Err(IoError(FILE)) else ParseRoutingLines(Lines(content.value))
  }

  /** One step of the line loop: line `i`'s contribution, then the records of the rest. */
  lemma ParseRoutingLinesStep(lines: seq<string>, i: nat, list: seq<Routing>)
    requires i < |lines|
    ensures ParseLine(lines[i]).Err? ==>
      PrependOk(list, ParseRoutingLines(lines[i..])) == ParseLine(lines[i]).PropagateFailure()
    ensures ParseLine(lines[i]) == Ok(None) ==>
      PrependOk(list, ParseRoutingLines(lines[i..])) == PrependOk(list, ParseRoutingLines(lines[i + 1..]))
    ensures ParseLine(lines[i]).Ok? && ParseLine(lines[i]).value.Some? ==>
      PrependOk(list, ParseRoutingLines(lines[i..]))
        == PrependOk(list + [ParseLine(lines[i]).value.value], ParseRoutingLines(lines[i + 1..]))
  {
    var t := lines[i..];
    assert t[0] == lines[i] && t[1..] == lines[i + 1..];
    var o := ParseLine(lines[i]);
    if o.Ok? {
      var xs := if o.value.Some? then [o.value.value] else [];
      PrependOkAssoc(list, xs, ParseRoutingLines(lines[i + 1..]));
      if o.value.None? {
        assert list + xs == list;
      }
    }
  }

  /** The column loop of `get_list`: the fields of one data row, assigned in order. */
  method ParseRow(parts: seq<string>) returns (result: Result<Routing>)
    ensures result == RoutingRow(parts)
  {
    var routing := DefaultRouting();
    var index := 0;
    RoutingRowEmpty();
    while index < |parts|
      invariant 0 <= index <= |parts|
      invariant RoutingRow(parts[..index]) == Ok(routing)
      decreases |parts| - index
    {
      var part := parts[index];
      var next: Result<Routing>;
      match index {
        case 0 => next := Ok(routing.(interface := part));
        case 1 => next := Ok(routing.(destination := part));
        case 2 => next := Ok(routing.(gateway := part));
        case 3 => next := Ok(routing.(flags := part));
        case 4 =>
          var v := ParseI32(part);
          next := if v.None? then Err(ParseFile(FILE, "Failed to parse refcnt")) else Ok(routing.(refcnt := v.value));
        case 5 =>
          var v := ParseI32(part);
          next := if v.None? then Err(ParseFile(FILE, "Failed to parse used")) else Ok(routing.(used := v.value));
        case 6 =>
          var v := ParseI32(part);
          next := if v.None? then Err(ParseFile(FILE, "Failed to parse metric")) else Ok(routing.(metric := v.value));
        case 7 => next := Ok(routing.(mask := part));
        case 8 =>
          var v := ParseI32(part);
          next := if v.None? then Err(ParseFile(FILE, "Failed to parse mtu")) else Ok(routing.(mtu := v.value));
        case 9 =>
          var v := ParseI32(part);
          next := if v.None? then Err(ParseFile(FILE, "Failed to parse window")) else Ok(routing.(window := v.value));
        case 10 =>
          var v := ParseI32(part);
          next := if v.None? then Err(ParseFile(FILE, "Failed to parse irtt")) else Ok(routing.(irtt := v.value));
        case _ => next := Err(ParseFile(FILE, WIDTH_ERROR));
      }
      assert next == SetColumn(routing, index, part);
      RoutingRowAdvance(parts, index, routing, next);
      if next.Err? {
        return next;
      }
      routing := next.value;
      index := index + 1;
    }
    assert parts[..index] == parts;
    return Ok(routing);
  }

  /** `get_list`, over the file's contents (`None` when it cannot be read). */
  method GetList(content: Option<string>) returns (result: Result<seq<Routing>>)
    ensures result == RoutingTableOf(content)
  {
    if content.None? {
      return Err(IoError(FILE));
    }
    var lines := Lines(content.value);
    var list: seq<Routing> := [];
    var i := 0;
    assert lines[0..] == lines;
    PrependOkNil(ParseRoutingLines(lines));
    while i < |lines|
      invariant 0 <= i <= |lines|
      invariant ParseRoutingLines(lines) == PrependOk(list, ParseRoutingLines(lines[i..]))
      decreases |lines| - i
    {
      var line := lines[i];
      ParseRoutingLinesStep(lines, i, list);
      if StartsWith(line, "Iface") {
        assert IsHeader(line);
        if |SplitAsciiWhitespace(line)| != 11 {
          return Err(ParseFile(FILE, WIDTH_ERROR));
        }
        i := i + 1;
        continue;
      }
      if Trim(line) == [] {
        i := i + 1;
        continue;
      }
      var routing :- ParseRow(SplitAsciiWhitespace(line));
      assert ParseLine(line) == Ok(Some(routing));
      list := list + [routing];
      i := i + 1;
    }
    assert lines[i..] == [];
    AppendNil(list);
    return Ok(list);
  }

  // ---------------------------------------------------------------------------
  // Properties of one row

  /** The columns that hold an `i32`. */
  predicate IsNumericColumn(c: int) {
    c == 4 || c == 5 || c == 6 || c == 8 || c == 9 || c == 10
  }

  /** The columns of a record, written the way the route file writes them. */
  function FormatRouting(r: Routing): seq<string> {
    [r.interface, r.destination, r.gateway, r.flags,
     I32ToString(r.refcnt), I32ToString(r.used), I32ToString(r.metric),
     r.mask, I32ToString(r.mtu), I32ToString(r.window), I32ToString(r.irtt)]
  }

  /** Every numeric field of `r` is an `i32`. */
  predicate InI32Range(r: Routing) {
    && I32_MIN <= r.refcnt <= I32_MAX && I32_MIN <= r.used <= I32_MAX
    && I32_MIN <= r.metric <= I32_MAX && I32_MIN <= r.mtu <= I32_MAX
    && I32_MIN <= r.window <= I32_MAX && I32_MIN <= r.irtt <= I32_MAX
  }

  /** `given` in column `c` denotes the same value as `shown`: the same text, or the same `i32`. */
  predicate SameColumn(c: int, given: string, shown: string) {
    if IsNumericColumn(c) then ParseI32(given) == ParseI32(shown) else given == shown
  }

  /**
   * A row is accepted exactly when it has at most 11 columns and each of
   * its numeric columns is an `i32`.
   */
  lemma RoutingRowOkIff(parts: seq<string>)
    ensures RoutingRow(parts).Ok? <==>
      |parts| <= 11 && forall c :: 0 <= c < |parts| && IsNumericColumn(c) ==> ParseI32(parts[c]).Some?
  {
    if RoutingRow(parts).Ok? {
      forall c | 0 <= c < |parts| && IsNumericColumn(c) ensures ParseI32(parts[c]).Some? {
        assert c == 4 || c == 5 || c == 6 || c == 8 || c == 9 || c == 10;
      }
    }
  }

  /**
   * The first numeric column that is not an `i32` decides the error, even
   * when the row is also too wide.
   */
  lemma RoutingRowFirstBadColumn(parts: seq<string>, c: nat)
    requires c < |parts| && IsNumericColumn(c) && ParseI32(parts[c]).None?
    requires forall d :: 0 <= d < c && IsNumericColumn(d) ==> ParseI32(parts[d]).Some?
    ensures RoutingRow(parts) == Err(ParseFile(FILE, NumericReason(c)))
  {
    if c > 4 { assert ParseI32(parts[4]).Some?; }
    if c > 5 { assert ParseI32(parts[5]).Some?; }
    if c > 6 { assert ParseI32(parts[6]).Some?; }
    if c > 8 { assert ParseI32(parts[8]).Some?; }
    if c > 9 { assert ParseI32(parts[9]).Some?; }
  }

  /** A row of valid numeric columns but more than 11 columns fails on its width. */
  lemma RoutingRowTooWide(parts: seq<string>)
    requires |parts| > 11
    requires forall c :: 0 <= c < |parts| && IsNumericColumn(c) ==> ParseI32(parts[c]).Some?
    ensures RoutingRow(parts) == Err(ParseFile(FILE, WIDTH_ERROR))
  {
    assert IsNumericColumn(4) && IsNumericColumn(5) && IsNumericColumn(6);
    assert IsNumericColumn(8) && IsNumericColumn(9) && IsNumericColumn(10);
  }

  /**
   * An accepted row's record carries each present column verbatim (string
   * columns) or as the `i32` it spells (numeric columns).
   */
  lemma RoutingRowFields(parts: seq<string>)
    requires RoutingRow(parts).Ok?
    ensures forall c :: 0 <= c < |parts| ==> SameColumn(c, parts[c], FormatRouting(RoutingRow(parts).value)[c])
  {
    forall c | 0 <= c < |parts| ensures SameColumn(c, parts[c], FormatRouting(RoutingRow(parts).value)[c]) {
      RoutingRowColumn(parts, c);
    }
  }

  /** Column `c` of an accepted row, as its record shows it. */
  lemma RoutingRowColumn(parts: seq<string>, c: nat)
    requires RoutingRow(parts).Ok? && c < |parts|
    ensures SameColumn(c, parts[c], FormatRouting(RoutingRow(parts).value)[c])
  {
    if IsNumericColumn(c) {
      var v := ParseI32(parts[c]).value;
      NumericFieldOfRow(parts, c);
      ParseI32OfString(v);
    } else {
      FormatRoutingColumns(RowRecord(parts));
    }
  }

  /** A numeric column of an accepted row is the `i32` it spells, stored in its field. */
  lemma NumericFieldOfRow(parts: seq<string>, c: nat)
    requires RoutingRow(parts).Ok? && c < |parts| && IsNumericColumn(c)
    ensures ParseI32(parts[c]).Some?
    ensures FormatRouting(RoutingRow(parts).value)[c] == I32ToString(ParseI32(parts[c]).value)
  {
    assert IntColumnOk(parts, c) by {
      if c > 4 { assert IntColumnOk(parts, 4); }
    }
    FormatRoutingColumns(RowRecord(parts));
  }

  /** An accepted row shorter than 11 columns leaves the default in every absent column. */
  lemma RoutingRowDefaults(parts: seq<string>)
    requires RoutingRow(parts).Ok?
    ensures forall c :: |parts| <= c < 11 ==> FormatRouting(RoutingRow(parts).value)[c] == FormatRouting(DefaultRouting())[c]
  {
    FormatRoutingColumns(RowRecord(parts));
    FormatRoutingColumns(DefaultRouting());
  }

  /** Writing a record's columns and reading them back gives the record. */
  lemma RoutingRowOfFormat(r: Routing)
    requires InI32Range(r)
    ensures RoutingRow(FormatRouting(r)) == Ok(r)
  {
    var ts := FormatRouting(r);
    FormatRoutingColumns(r);
    IntColumnOfString(ts, 4, r.refcnt);
    IntColumnOfString(ts, 5, r.used);
    IntColumnOfString(ts, 6, r.metric);
    IntColumnOfString(ts, 8, r.mtu);
    IntColumnOfString(ts, 9, r.window);
    IntColumnOfString(ts, 10, r.irtt);
    assert RowError(ts) == None;
    assert RowRecord(ts) == r;
  }

  /** The columns of the written form of `r`, one by one. */
  lemma FormatRoutingColumns(r: Routing)
    ensures var ts := FormatRouting(r);
      && |ts| == 11
      && ts[0] == r.interface && ts[1] == r.destination
      && ts[2] == r.gateway && ts[3] == r.flags && ts[7] == r.mask
      && ts[4] == I32ToString(r.refcnt) && ts[5] == I32ToString(r.used)
      && ts[6] == I32ToString(r.metric) && ts[8] == I32ToString(r.mtu)
      && ts[9] == I32ToString(r.window) && ts[10] == I32ToString(r.irtt)
  {
  }

  /** A column holding the decimal form of an `i32` is read as that `i32`. */
  lemma IntColumnOfString(ts: seq<string>, c: nat, v: int)
    requires c < |ts| && ts[c] == I32ToString(v) && I32_MIN <= v <= I32_MAX
    ensures IntColumnOk(ts, c) && IntColumn(ts, c) == v
  {
    ParseI32OfString(v);
  }

  // ---------------------------------------------------------------------------
  // Properties of the whole table

  /** The lines that hold a route, in order. */
  function DataLines(lines: seq<string>): seq<string>
    decreases |lines|
  {
    if lines == [] then []
    else (if IsDataLine(lines[0]) then [lines[0]] else []) + DataLines(lines[1..])
  }

  /** A line contributes a record exactly when it is a data line whose row is accepted. */
  lemma ParseLineSome(line: string)
    ensures ParseLine(line).Ok? && ParseLine(line).value.Some? <==>
      IsDataLine(line) && RoutingRow(SplitAsciiWhitespace(line)).Ok?
    ensures ParseLine(line).Ok? && ParseLine(line).value.Some? ==>
      ParseLine(line).value.value == RoutingRow(SplitAsciiWhitespace(line)).value
  {
  }

  /** Parsing two blocks of lines: the records of the first, then those of the second. */
  lemma {:induction false} ParseRoutingLinesAppend(a: seq<string>, b: seq<string>)
    ensures ParseRoutingLines(a + b) ==
      if ParseRoutingLines(a).Ok? then PrependOk(ParseRoutingLines(a).value, ParseRoutingLines(b))
      else ParseRoutingLines(a)
    decreases |a|
  {
    if a == [] {
      assert a + b == b;
      PrependOkNil(ParseRoutingLines(b));
    } else {
      assert (a + b)[0] == a[0];
      assert (a + b)[1..] == a[1..] + b;
      ParseRoutingLinesAppend(a[1..], b);
      var o := ParseLine(a[0]);
      if o.Ok? {
        var head: seq<Routing> := if o.value.Some? then [o.value.value] else [];
        var ra := ParseRoutingLines(a[1..]);
        if ra.Ok? {
          PrependOkAssoc(head, ra.value, ParseRoutingLines(b));
        }
      }
    }
  }

  /** The table is accepted exactly when every one of its lines is. */
  lemma {:induction false} ParseRoutingLinesOkIff(lines: seq<string>)
    ensures ParseRoutingLines(lines).Ok? <==> forall k :: 0 <= k < |lines| ==> ParseLine(lines[k]).Ok?
    decreases |lines|
  {
    if lines != [] {
      ParseRoutingLinesOkIff(lines[1..]);
      assert forall k :: 1 <= k < |lines| ==> lines[k] == lines[1..][k - 1];
      if ParseLine(lines[0]).Ok? && ParseRoutingLines(lines[1..]).Ok? {
        assert forall k :: 0 <= k < |lines| ==> ParseLine(lines[k]).Ok? by {
          forall k | 0 <= k < |lines| ensures ParseLine(lines[k]).Ok? {
            if k > 0 { assert ParseLine(lines[1..][k - 1]).Ok?; }
          }
        }
      }
    }
  }

  /** Records that match their data lines, followed by more such, still match theirs. */
  lemma RowsAppend(r1: seq<Routing>, d1: seq<string>, r2: seq<Routing>, d2: seq<string>)
    requires |r1| == |d1| && |r2| == |d2|
    requires forall k :: 0 <= k < |d1| ==> RoutingRow(SplitAsciiWhitespace(d1[k])) == Ok(r1[k])
    requires forall k :: 0 <= k < |d2| ==> RoutingRow(SplitAsciiWhitespace(d2[k])) == Ok(r2[k])
    ensures forall k :: 0 <= k < |d1 + d2| ==> RoutingRow(SplitAsciiWhitespace((d1 + d2)[k])) == Ok((r1 + r2)[k])
  {
    forall k | 0 <= k < |d1 + d2|
      ensures RoutingRow(SplitAsciiWhitespace((d1 + d2)[k])) == Ok((r1 + r2)[k])
    {
      if k >= |d1| {
        assert (d1 + d2)[k] == d2[k - |d1|] && (r1 + r2)[k] == r2[k - |d1|];
      }
    }
  }

  /**
   * An accepted table has one record per data line, in line order: record
   * `k` is the one row `k` of the data lines denotes.
   */
  lemma {:induction false} ParseRoutingLinesRecords(lines: seq<string>)
    requires ParseRoutingLines(lines).Ok?
    ensures |ParseRoutingLines(lines).value| == |DataLines(lines)|
    ensures forall k :: 0 <= k < |DataLines(lines)| ==>
      RoutingRow(SplitAsciiWhitespace(DataLines(lines)[k])) == Ok(ParseRoutingLines(lines).value[k])
    decreases |lines|
  {
    if lines != [] {
      var o := ParseLine(lines[0]);
      ParseLineSome(lines[0]);
      ParseRoutingLinesRecords(lines[1..]);
      var head: seq<Routing> := if o.value.Some? then [o.value.value] else [];
      var dhead := if IsDataLine(lines[0]) then [lines[0]] else [];
      assert ParseRoutingLines(lines) == PrependOk(head, ParseRoutingLines(lines[1..]));
      RowsAppend(head, dhead, ParseRoutingLines(lines[1..]).value, DataLines(lines[1..]));
    }
  }

  /** A header with other than 11 columns anywhere makes the whole table an error. */
  lemma BadHeaderFails(lines: seq<string>, k: nat)
    requires k < |lines| && IsHeader(lines[k]) && |SplitAsciiWhitespace(lines[k])| != 11
    ensures ParseRoutingLines(lines).Err?
  {
    ParseRoutingLinesOkIff(lines);
  }

  /** A table that begins with a bad header fails on its width before any row is read. */
  lemma BadFirstHeader(header: string, rest: seq<string>)
    requires IsHeader(header) && |SplitAsciiWhitespace(header)| != 11
    ensures ParseRoutingLines([header] + rest) == Err(ParseFile(FILE, WIDTH_ERROR))
  {
    assert ([header] + rest)[0] == header;
  }

  /** Removing a line that contributes nothing - a blank line or a good header - changes nothing. */
  lemma SkippedLineIrrelevant(a: seq<string>, line: string, b: seq<string>)
    requires ParseLine(line) == Ok(None)
    ensures ParseRoutingLines(a + [line] + b) == ParseRoutingLines(a + b)
  {
    ParseRoutingLinesAppend(a, [line] + b);
    ParseRoutingLinesAppend(a, b);
    assert ([line] + b)[0] == line && ([line] + b)[1..] == b;
    assert a + [line] + b == a + ([line] + b);
    PrependOkNil(ParseRoutingLines(b));
  }

  /** A line holding only whitespace contributes nothing. */
  lemma BlankLineSkipped(line: string)
    requires AllWhitespace(line)
    ensures ParseLine(line) == Ok(None)
  {
    TrimBounds(line);
  }

  // ---------------------------------------------------------------------------
  // Writing a table and reading it back

  /**
   * A record the route file can hold unambiguously: its string columns are
   * single non-empty tokens, its numbers are `i32`, and its interface does
   * not look like the header.
   */
  predicate Writable(r: Routing) {
    && InI32Range(r)
    && (forall c :: 0 <= c < 11 && !IsNumericColumn(c) ==>
          FormatRouting(r)[c] != [] && NoAsciiWhitespace(FormatRouting(r)[c]))
    && !IsHeader(r.interface)
  }

  /** The line of the route file that holds `r`. */
  function RouteLine(r: Routing): string {
    JoinSpaced(FormatRouting(r))
  }

  /** Route lines, each ended by a line feed. */
  function RenderRoutes(rs: seq<Routing>): string
    decreases |rs|
  {
    if rs == [] then "" else RouteLine(rs[0]) + "\n" + RenderRoutes(rs[1..])
  }

  /** The columns of a writable record are tokens. */
  lemma WritableColumns(r: Routing)
    requires Writable(r)
    ensures forall c :: 0 <= c < 11 ==> FormatRouting(r)[c] != [] && NoAsciiWhitespace(FormatRouting(r)[c])
  {
    I32ToStringToken(r.refcnt);
    I32ToStringToken(r.used);
    I32ToStringToken(r.metric);
    I32ToStringToken(r.mtu);
    I32ToStringToken(r.window);
    I32ToStringToken(r.irtt);
  }

  /** The line written for a writable record is a data line without line breaks. */
  lemma RouteLineIsData(r: Routing)
    requires Writable(r)
    ensures IsDataLine(RouteLine(r))
    ensures '\n' !in RouteLine(r) && '\r' !in RouteLine(r)
  {
    var ts := FormatRouting(r);
    WritableColumns(r);
    JoinSpacedNoBreak(ts);
    I32ToStringToken(r.refcnt);
    assert ts[4] == I32ToString(r.refcnt) && !IsWhitespace(ts[4][0]);
    if IsHeader(RouteLine(r)) {
      JoinSpacedStartsWith(ts, "Iface");
    }
    TrimBounds(RouteLine(r));
    if AllWhitespace(RouteLine(r)) {
      JoinSpacedBlank(ts);
    }
  }

  /** The line written for a writable record reads back as that record. */
  lemma ParseRouteLine(r: Routing)
    requires Writable(r)
    ensures ParseLine(RouteLine(r)) == Ok(Some(r))
  {
    RouteLineIsData(r);
    WritableColumns(r);
    SplitJoinSpaced(FormatRouting(r));
    RoutingRowOfFormat(r);
  }

  /** The first line of a table and the lines after it. */
  lemma ParseRoutingLinesCons(line: string, rest: seq<string>)
    ensures ParseRoutingLines([line] + rest) ==
      if ParseLine(line).Err? then ParseLine(line).PropagateFailure()
      else PrependOk(if ParseLine(line).value.Some? then [ParseLine(line).value.value] else [], ParseRoutingLines(rest))
  {
    assert ([line] + rest)[0] == line && ([line] + rest)[1..] == rest;
  }

  /** The text of a route line followed by more text splits into that line and the lines of the rest. */
  lemma RouteLineLines(r: Routing, rest: string)
    requires Writable(r)
    ensures Lines(RouteLine(r) + "\n" + rest) == [RouteLine(r)] + Lines(rest)
  {
    RouteLineIsData(r);
    LinesCons(RouteLine(r), rest);
  }

  /** Every record of `rs` is writable. */
  predicate AllWritable(rs: seq<Routing>)
  {
    forall k :: 0 <= k < |rs| ==> Writable(rs[k])
  }

  /** A rendered table of writable records reads back as those records. */
  lemma {:induction false} RoutingTableRoundTrip(rs: seq<Routing>)
    requires AllWritable(rs)
    ensures RoutingTableOf(Some(RenderRoutes(rs))) == Ok(rs)
    decreases |rs|
  {
    if rs != [] {
      var rest := RenderRoutes(rs[1..]);
      assert RenderRoutes(rs) == RouteLine(rs[0]) + "\n" + rest;
      RouteStep(rs[0], rest);
      RoutingTableRoundTrip(rs[1..]);
      assert rs == [rs[0]] + rs[1..];
    }
  }

  /** A rendered record, then more text: the record, then the records of the text. */
  lemma RouteStep(r: Routing, rest: string)
    requires Writable(r)
    ensures ParseRoutingLines(Lines(RouteLine(r) + "\n" + rest)) == PrependOk([r], ParseRoutingLines(Lines(rest)))
  {
    var line := RouteLine(r);
    RouteLineLines(r, rest);
    ParseRouteLine(r);
    ParseRoutingLinesCons(line, Lines(rest));
  }
}
