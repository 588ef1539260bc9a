/**
 * The ARP table parser of src/network/arp_table.rs. The table text is read
 * line by line: a header line (beginning "Iface") must have 6 tab-separated
 * fields, blank lines are skipped, and every other line becomes one record,
 * its tab-separated fields copied into the record's fields in order. Fields
 * are split on single tabs, so an empty field still takes its position.
 */
module ArpTable {
  import opened Common
  import opened RustStr

  const FILE := "/proc/net/arp"
  const WIDTH_ERROR := "Failed to parse arp file, expect 6 parts"
  const TAB := '\t'

  /** One ARP entry; `device` is the network interface. */
  datatype Arp = Arp(
    ip: string,
    hwType: string,
    flags: string,
    hwAddress: string,
    mask: string,
    device: string)

  /** `Arp::default()`. */
  function DefaultArp(): Arp {
    Arp("", "", "", "", "", "")
  }

  /** Field `i` of `parts`, or the default when the row is shorter. */
  function Column(parts: seq<string>, i: nat): string {
    if i < |parts| then parts[i] else ""
  }

  /**
   * The record a data row denotes: fields 0 to 5 fill the record in order,
   * missing fields stay empty, and a seventh field is an error.
   */
  function ArpRow(parts: seq<string>): Result<Arp> {
    if |parts| > 6 then Err(ParseFile(FILE, WIDTH_ERROR))
    else Ok(Arp(Column(parts, 0), Column(parts, 1), Column(parts, 2),
                Column(parts, 3), Column(parts, 4), Column(parts, 5)))
  }

  /** The effect of field `index` holding `part` on the record built so far. */
  function SetColumn(a: Arp, index: nat, part: string): Result<Arp> {
    match index
    case 0 => Ok(a.(ip := part))
    case 1 => Ok(a.(hwType := part))
    case 2 => Ok(a.(flags := part))
    case 3 => Ok(a.(hwAddress := part))
    case 4 => Ok(a.(mask := part))
    case 5 => Ok(a.(device := part))
    case _ => Err(ParseFile(FILE, WIDTH_ERROR))
  }

  /** Assigning the fields one at a time builds the record the row denotes. */
  lemma ArpRowStep(parts: seq<string>, i: nat)
    requires i < |parts| && ArpRow(parts[..i]).Ok?
    ensures ArpRow(parts[..i + 1]) == SetColumn(ArpRow(parts[..i]).value, i, parts[i])
  {
    var p, q := parts[..i], parts[..i + 1];
    assert forall c :: 0 <= c < i ==> q[c] == p[c];
    assert q[i] == parts[i];
  }

  /** Once a prefix of the row is too wide, so is the row. */
  lemma ArpRowErrorStays(parts: seq<string>, i: nat)
    requires i <= |parts| && ArpRow(parts[..i]).Err?
    ensures ArpRow(parts) == ArpRow(parts[..i])
  {
  }

  /** A header line: one that begins with "Iface". */
  predicate IsHeader(line: string) {
    StartsWith(line, "Iface")
  }

  /** A line that is neither a header nor blank, and so holds an entry. */
  predicate IsDataLine(line: string) {
    !IsHeader(line) && Trim(line) != []
  }

  /**
   * What one line contributes: a header with other than 6 fields is an
   * error, other headers and blank lines contribute nothing, and a data line
   * contributes its record or the width error.
   */
  function ParseLine(line: string): Result<Option<Arp>> {
    if IsHeader(line) then
      if |Split(line, TAB)| != 6 then Err(ParseFile(FILE, WIDTH_ERROR)) else Ok(None)
    else if Trim(line) == [] then Ok(None)
    else
      var a :- ArpRow(Split(line, TAB));
      Ok(Some(a))
  }

  /** The records of the lines in order, or the first error among them. */
  function ParseArpLines(lines: seq<string>): Result<seq<Arp>>
    decreases |lines|
  {
    if lines == [] then Ok([])
    else
      var o :- ParseLine(lines[0]);
      PrependOk(if o.Some? then [o.value] else [], ParseArpLines(lines[1..]))
  }

  /** The ARP table denoted by the contents of the ARP file, or why there is none. */
  function ArpTableOf(content: Option<string>): Result<seq<Arp>> {
    if content.None? then Err(IoError(FILE)) else ParseArpLines(Lines(content.value))
  }

  /** One step of the line loop: line `i`'s contribution, then the records of the rest. */
  lemma ParseArpLinesStep(lines: seq<string>, i: nat, list: seq<Arp>)
    requires i < |lines|
    ensures ParseLine(lines[i]).Err? ==>
      PrependOk(list, ParseArpLines(lines[i..])) == ParseLine(lines[i]).PropagateFailure()
    ensures ParseLine(lines[i]) == Ok(None) ==>
      PrependOk(list, ParseArpLines(lines[i..])) == PrependOk(list, ParseArpLines(lines[i + 1..]))
    ensures ParseLine(lines[i]).Ok? && ParseLine(lines[i]).value.Some? ==>
      PrependOk(list, ParseArpLines(lines[i..]))
        == PrependOk(list + [ParseLine(lines[i]).value.value], ParseArpLines(lines[i + 1..]))
  {
    var t := lines[i..];
    assert t[0] == lines[i] && t[1..] == lines[i + 1..];
    var o := ParseLine(lines[i]);
    if o.Ok? {
      var xs := if o.value.Some? then [o.value.value] else [];
      PrependOkAssoc(list, xs, ParseArpLines(lines[i + 1..]));
      if o.value.None? {
        assert list + xs == list;
      }
    }
  }

  /** The field loop of `get_list`: the fields of one data row, copied in order. */
  method ParseRow(parts: seq<string>) returns (result: Result<Arp>)
    ensures result == ArpRow(parts)
  {
    var arp := DefaultArp();
    var index := 0;
    while index < |parts|
      invariant 0 <= index <= |parts|
      invariant ArpRow(parts[..index]) == Ok(arp)
      decreases |parts| - index
    {
      var part := parts[index];
      ArpRowStep(parts, index);
      match index {
        case 0 => arp := arp.(ip := part);
        case 1 => arp := arp.(hwType := part);
        case 2 => arp := arp.(flags := part);
        case 3 => arp := arp.(hwAddress := part);
        case 4 => arp := arp.(mask := part);
        case 5 => arp := arp.(device := part);
        case _ =>
          ArpRowErrorStays(parts, index + 1);
          return Err(ParseFile(FILE, WIDTH_ERROR));
      }
      index := index + 1;
    }
    assert parts[..index] == parts;
    return Ok(arp);
  }

  /** `get_list`, over the file's contents (`None` when it cannot be read). */
  method GetList(content: Option<string>) returns (result: Result<seq<Arp>>)
    ensures result == ArpTableOf(content)
  {
    if content.None? {
      return Err(IoError(FILE));
    }
    var lines := Lines(content.value);
    var list: seq<Arp> := [];
    var i := 0;
    assert lines[0..] == lines;
    PrependOkNil(ParseArpLines(lines));
    while i < |lines|
      invariant 0 <= i <= |lines|
      invariant ParseArpLines(lines) == PrependOk(list, ParseArpLines(lines[i..]))
      decreases |lines| - i
    {
      var line := lines[i];
      ParseArpLinesStep(lines, i, list);
      if StartsWith(line, "Iface") {
        assert IsHeader(line);
        if |Split(line, TAB)| != 6 {
          return Err(ParseFile(FILE, WIDTH_ERROR));
        }
        i := i + 1;
        continue;
      }
      if Trim(line) == [] {
        i := i + 1;
        continue;
      }
      var arp :- ParseRow(Split(line, TAB));
      assert ParseLine(line) == Ok(Some(arp));
      list := list + [arp];
      i := i + 1;
    }
    assert lines[i..] == [];
    AppendNil(list);
    return Ok(list);
  }

  // ---------------------------------------------------------------------------
  // Properties of one row

  /** The fields of a record, in file order. */
  function FormatArp(a: Arp): seq<string> {
    [a.ip, a.hwType, a.flags, a.hwAddress, a.mask, a.device]
  }

  /** All fields are copies, so the only way a row fails is by having more than 6 fields. */
  lemma ArpRowOkIff(parts: seq<string>)
    ensures ArpRow(parts).Ok? <==> |parts| <= 6
    ensures ArpRow(parts).Err? ==> ArpRow(parts).error == ParseFile(FILE, WIDTH_ERROR)
  {
  }

  /**
   * An accepted row's record holds each present field verbatim, at its own
   * position, and the empty default in every absent one.
   */
  lemma ArpRowFields(parts: seq<string>)
    requires |parts| <= 6
    ensures ArpRow(parts).Ok?
    ensures forall c :: 0 <= c < |parts| ==> FormatArp(ArpRow(parts).value)[c] == parts[c]
    ensures forall c :: |parts| <= c < 6 ==> FormatArp(ArpRow(parts).value)[c] == ""
  {
  }

  /** Splitting the tab-joined fields of a tab-free record gives back the record, empty fields included. */
  lemma ArpRowOfJoin(a: Arp)
    requires forall c :: 0 <= c < 6 ==> TAB !in FormatArp(a)[c]
    ensures ArpRow(Split(Join(FormatArp(a), TAB), TAB)) == Ok(a)
  {
    SplitJoin(FormatArp(a), TAB);
  }

  // ---------------------------------------------------------------------------
  // Properties of the whole table

  /** The lines that hold an entry, in order. */
  function DataLines(lines: seq<string>): seq<string>
    decreases |lines|
  {
    if lines == [] then []
    else (if IsDataLine(lines[0]) then [lines[0]] else []) + DataLines(lines[1..])
  }

  /**
   * A line fails exactly when it is a header whose field count is not 6 or
   * a data line with more than 6 fields.
   */
  lemma ParseLineErrIff(line: string)
    ensures ParseLine(line).Err? <==>
      (IsHeader(line) && |Split(line, TAB)| != 6) || (IsDataLine(line) && |Split(line, TAB)| > 6)
    ensures ParseLine(line).Err? ==> ParseLine(line).error == ParseFile(FILE, WIDTH_ERROR)
  {
  }

  /** A line contributes a record exactly when it is a data line of at most 6 fields. */
  lemma ParseLineSome(line: string)
    ensures ParseLine(line).Ok? && ParseLine(line).value.Some? <==> IsDataLine(line) && |Split(line, TAB)| <= 6
    ensures ParseLine(line).Ok? && ParseLine(line).value.Some? ==>
      ParseLine(line).value.value == ArpRow(Split(line, TAB)).value
  {
  }

  /** Parsing two blocks of lines: the records of the first, then those of the second. */
  lemma {:induction false} ParseArpLinesAppend(a: seq<string>, b: seq<string>)
    ensures ParseArpLines(a + b) ==
      if ParseArpLines(a).Ok? then PrependOk(ParseArpLines(a).value, ParseArpLines(b))
      else ParseArpLines(a)
    decreases |a|
  {
    if a == [] {
      assert a + b == b;
      PrependOkNil(ParseArpLines(b));
    } else {
      assert (a + b)[0] == a[0];
      assert (a + b)[1..] == a[1..] + b;
      ParseArpLinesAppend(a[1..], b);
      var o := ParseLine(a[0]);
      if o.Ok? {
        var head: seq<Arp> := if o.value.Some? then [o.value.value] else [];
        var ra := ParseArpLines(a[1..]);
        if ra.Ok? {
          PrependOkAssoc(head, ra.value, ParseArpLines(b));
        }
      }
    }
  }

  /** The table is accepted exactly when every one of its lines is. */
  lemma {:induction false} ParseArpLinesOkIff(lines: seq<string>)
    ensures ParseArpLines(lines).Ok? <==> forall k :: 0 <= k < |lines| ==> ParseLine(lines[k]).Ok?
    decreases |lines|
  {
    if lines != [] {
      ParseArpLinesOkIff(lines[1..]);
      assert forall k :: 1 <= k < |lines| ==> lines[k] == lines[1..][k - 1];
      if ParseLine(lines[0]).Ok? && ParseArpLines(lines[1..]).Ok? {
        assert forall k :: 0 <= k < |lines| ==> ParseLine(lines[k]).Ok? by {
          forall k | 0 <= k < |lines| ensures ParseLine(lines[k]).Ok? {
            if k > 0 { assert ParseLine(lines[1..][k - 1]).Ok?; }
          }
        }
      }
    }
  }

  /** Every failure of the table is the width error. */
  lemma {:induction false} ParseArpLinesError(lines: seq<string>)
    ensures ParseArpLines(lines).Err? ==> ParseArpLines(lines).error == ParseFile(FILE, WIDTH_ERROR)
    decreases |lines|
  {
    if lines != [] {
      ParseLineErrIff(lines[0]);
      ParseArpLinesError(lines[1..]);
    }
  }

  /** Records that match their data lines, followed by more such, still match theirs. */
  lemma RowsAppend(r1: seq<Arp>, d1: seq<string>, r2: seq<Arp>, d2: seq<string>)
    requires |r1| == |d1| && |r2| == |d2|
    requires forall k :: 0 <= k < |d1| ==> ArpRow(Split(d1[k], TAB)) == Ok(r1[k])
    requires forall k :: 0 <= k < |d2| ==> ArpRow(Split(d2[k], TAB)) == Ok(r2[k])
    ensures forall k :: 0 <= k < |d1 + d2| ==> ArpRow(Split((d1 + d2)[k], TAB)) == Ok((r1 + r2)[k])
  {
    forall k | 0 <= k < |d1 + d2|
      ensures ArpRow(Split((d1 + d2)[k], TAB)) == Ok((r1 + r2)[k])
    {
      if k >= |d1| {
        assert (d1 + d2)[k] == d2[k - |d1|] && (r1 + r2)[k] == r2[k - |d1|];
      }
    }
  }

  /**
   * An accepted table has one record per data line, in line order: record
   * `k` is the one row `k` of the data lines denotes.
   */
  lemma {:induction false} ParseArpLinesRecords(lines: seq<string>)
    requires ParseArpLines(lines).Ok?
    ensures |ParseArpLines(lines).value| == |DataLines(lines)|
    ensures forall k :: 0 <= k < |DataLines(lines)| ==>
      ArpRow(Split(DataLines(lines)[k], TAB)) == Ok(ParseArpLines(lines).value[k])
    decreases |lines|
  {
    if lines != [] {
      var o := ParseLine(lines[0]);
      ParseLineSome(lines[0]);
      ParseArpLinesRecords(lines[1..]);
      var head: seq<Arp> := if o.value.Some? then [o.value.value] else [];
      var dhead := if IsDataLine(lines[0]) then [lines[0]] else [];
      assert ParseArpLines(lines) == PrependOk(head, ParseArpLines(lines[1..]));
      RowsAppend(head, dhead, ParseArpLines(lines[1..]).value, DataLines(lines[1..]));
    }
  }

  /** A header with other than 6 fields anywhere makes the whole table an error. */
  lemma BadHeaderFails(lines: seq<string>, k: nat)
    requires k < |lines| && IsHeader(lines[k]) && |Split(lines[k], TAB)| != 6
    ensures ParseArpLines(lines).Err?
  {
    ParseArpLinesOkIff(lines);
  }

  /** A table that begins with a bad header fails before any row is read. */
  lemma BadFirstHeader(header: string, rest: seq<string>)
    requires IsHeader(header) && |Split(header, TAB)| != 6
    ensures ParseArpLines([header] + rest) == Err(ParseFile(FILE, WIDTH_ERROR))
  {
    assert ([header] + rest)[0] == header;
  }

  /** Removing a line that contributes nothing - a blank line or a good header - changes nothing. */
  lemma SkippedLineIrrelevant(a: seq<string>, line: string, b: seq<string>)
    requires ParseLine(line) == Ok(None)
    ensures ParseArpLines(a + [line] + b) == ParseArpLines(a + b)
  {
    ParseArpLinesAppend(a, [line] + b);
    ParseArpLinesAppend(a, b);
    assert ([line] + b)[0] == line && ([line] + b)[1..] == b;
    assert a + [line] + b == a + ([line] + b);
    PrependOkNil(ParseArpLines(b));
  }

  // ---------------------------------------------------------------------------
  // Writing a table and reading it back

  /**
   * A record the ARP file can hold unambiguously: no field holds a tab or a
   * line break, and the address is not blank and does not look like the
   * header. Other fields may be empty.
   */
  predicate Writable(a: Arp) {
    && (forall c :: 0 <= c < 6 ==>
          TAB !in FormatArp(a)[c] && '\n' !in FormatArp(a)[c] && '\r' !in FormatArp(a)[c])
    && !AllWhitespace(a.ip)
    && !IsHeader(a.ip)
  }

  /** The line of the ARP file that holds `a`. */
  function ArpLine(a: Arp): string {
    Join(FormatArp(a), TAB)
  }

  /** ARP lines, each ended by a line feed. */
  function RenderArps(arps: seq<Arp>): string
    decreases |arps|
  {
    if arps == [] then "" else ArpLine(arps[0]) + "\n" + RenderArps(arps[1..])
  }

  /** The line written for a writable record is a data line without line breaks. */
  lemma ArpLineIsData(a: Arp)
    requires Writable(a)
    ensures IsDataLine(ArpLine(a))
    ensures '\n' !in ArpLine(a) && '\r' !in ArpLine(a)
  {
    var fs, line := FormatArp(a), ArpLine(a);
    JoinAvoids(fs, TAB, '\n');
    JoinAvoids(fs, TAB, '\r');
    JoinHead(fs, TAB);
    var rest := line[|a.ip|..];
    assert line == a.ip + rest;
    if IsHeader(line) {
      PrefixBeforeBreak(a.ip, rest, "Iface");
    }
    TrimBounds(line);
  }

  /** The line written for a writable record reads back as that record. */
  lemma ParseArpLine(a: Arp)
    requires Writable(a)
    ensures ParseLine(ArpLine(a)) == Ok(Some(a))
  {
    ArpLineIsData(a);
    ArpRowOfJoin(a);
  }

  /** The first line of a table and the lines after it. */
  lemma ParseArpLinesCons(line: string, rest: seq<string>)
    ensures ParseArpLines([line] + rest) ==
      if ParseLine(line).Err? then ParseLine(line).PropagateFailure()
      else PrependOk(if ParseLine(line).value.Some? then [ParseLine(line).value.value] else [], ParseArpLines(rest))
  {
    assert ([line] + rest)[0] == line && ([line] + rest)[1..] == rest;
  }

  /** A rendered record, then more text: the record, then the records of the text. */
  lemma ArpStep(a: Arp, rest: string)
    requires Writable(a)
    ensures ParseArpLines(Lines(ArpLine(a) + "\n" + rest)) == PrependOk([a], ParseArpLines(Lines(rest)))
  {
    var line := ArpLine(a);
    ArpLineIsData(a);
    LinesCons(line, rest);
    assert StripCr(line) == line;
    ParseArpLine(a);
    ParseArpLinesCons(line, Lines(rest));
  }

  /** Every record of `arps` is writable. */
  predicate AllWritable(arps: seq<Arp>)
  {
    forall k :: 0 <= k < |arps| ==> Writable(arps[k])
  }

  /** A rendered table of writable records reads back as those records. */
  lemma {:induction false} ArpTableRoundTrip(arps: seq<Arp>)
    requires AllWritable(arps)
    ensures ArpTableOf(Some(RenderArps(arps))) == Ok(arps)
    decreases |arps|
  {
    if arps != [] {
      var rest := RenderArps(arps[1..]);
      assert RenderArps(arps) == ArpLine(arps[0]) + "\n" + rest;
      ArpStep(arps[0], rest);
      ArpTableRoundTrip(arps[1..]);
      assert arps == [arps[0]] + arps[1..];
    }
  }
}
