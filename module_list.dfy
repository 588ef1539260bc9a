/**
 * The kernel module list parser of src/computer/module.rs. Every line of the
 * module list is one module: its first whitespace-separated token is the
 * name, the second its size in bytes (a `usize`), the third a use count (an
 * `i32` that is checked and dropped) and the fourth its dependencies,
 * comma-separated, or "-" for none. Later tokens are ignored; there is no
 * skipping of blank lines.
 */
module ModuleList {
  import opened Common
  import opened RustStr

  const FILE := "/proc/modules"

  /** A loaded kernel module; `memoryBytes` is a `usize`. */
  datatype Module = Module(name: string, memoryBytes: nat, dependencies: seq<string>)

  // ---------------------------------------------------------------------------
  // Dependencies

  /** The pieces that are not empty, in order. */
  function DropEmpty(ps: seq<string>): (r: seq<string>)
    ensures forall k :: 0 <= k < |r| ==> r[k] != [] && r[k] in ps
    ensures Concat(r) == Concat(ps)
    decreases |ps|
  {
    if ps == [] then []
    else
      var rest := DropEmpty(ps[1..]);
      if ps[0] == [] then rest else [ps[0]] + rest
  }

  /** The comma-separated pieces of a token are kept exactly when they are not empty. */
  lemma {:induction false} DropEmptyKeeps(ps: seq<string>, x: string)
    ensures x in DropEmpty(ps) <==> x != [] && x in ps
    decreases |ps|
  {
    if ps != [] {
      DropEmptyKeeps(ps[1..], x);
      assert ps == [ps[0]] + ps[1..];
    }
  }

  /** The dependency field: exactly "-" means none, otherwise the non-empty comma-separated names. */
  function Dependencies(field: string): (r: seq<string>)
    ensures forall k :: 0 <= k < |r| ==> r[k] != [] && ',' !in r[k]
  {
    if field == "-" then [] else DropEmpty(Split(field, ','))
  }

  /**
   * Apart from the lone "-", the dependencies laid end to end are the field
   * without its commas, and every non-empty piece of the field is one.
   */
  lemma DependenciesMeaning(field: string, x: string)
    requires field != "-"
    ensures Concat(Dependencies(field)) == Without(field, ',')
    ensures x in Dependencies(field) <==> x != [] && x in Split(field, ',')
  {
    ConcatSplit(field, ',');
    DropEmptyKeeps(Split(field, ','), x);
  }

  /** How the module list writes a list of dependencies. */
  function FormatDependencies(ds: seq<string>): string {
    if ds == [] then "-" else Join(ds, ',')
  }

  /** Non-empty, comma-free names read back from their comma-joined form, unless the only one is "-". */
  lemma {:induction false} DependenciesOfFormat(ds: seq<string>)
    requires forall k :: 0 <= k < |ds| ==> ds[k] != [] && ',' !in ds[k]
    requires ds != ["-"]
    ensures Dependencies(FormatDependencies(ds)) == ds
  {
    if ds != [] {
      SplitJoin(ds, ',');
      DropEmptyNone(ds);
      if Join(ds, ',') == "-" {
        JoinHead(ds, ',');
        assert false;
      }
    }
  }

  /** Dropping empty pieces from pieces that are all non-empty changes nothing. */
  lemma {:induction false} DropEmptyNone(ps: seq<string>)
    requires forall k :: 0 <= k < |ps| ==> ps[k] != []
    ensures DropEmpty(ps) == ps
    decreases |ps|
  {
    if ps != [] {
      DropEmptyNone(ps[1..]);
      assert ps == [ps[0]] + ps[1..];
    }
  }

  /** Only the exact field "-" means no dependencies. */
  lemma DashDependencies()
    ensures Dependencies("-") == []
  {
  }

  /** A "-" followed by a comma is a dependency named "-". */
  lemma DashCommaDependencies()
    ensures Dependencies("-,") == ["-"]
  {
    SplitJoin(["-", ""], ',');
    assert Join(["-", ""], ',') == "-,";
  }

  /** A trailing comma is dropped with its empty piece. */
  lemma TrailingCommaDependencies()
    ensures Dependencies("llc,") == ["llc"]
  {
    SplitJoin(["llc", ""], ',');
    assert Join(["llc", ""], ',') == "llc,";
  }

  // ---------------------------------------------------------------------------
  // One line

  /**
   * The module the tokens of a line denote, or the first thing missing or
   * malformed among the name, the size, the count and the dependencies.
   */
  function ModuleRow(toks: seq<string>): Result<Module> {
    if |toks| < 1 then Err(ParseFile(FILE, "Failed to parse module name"))
    else if |toks| < 2 then Err(ParseFile(FILE, "Failed to parse memory bytes"))
    else if ParseUsize(toks[1]).None? then Err(ParseFile(FILE, "Failed to parse memory bytes as integer"))
    else if |toks| < 3 then Err(ParseFile(FILE, "Failed to parse count"))
    else if ParseI32(toks[2]).None? then Err(ParseFile(FILE, "Failed to parse count as integer"))
    else if |toks| < 4 then Err(ParseFile(FILE, "Failed to parse dependencies"))
    else Ok(Module(toks[0], ParseUsize(toks[1]).value, Dependencies(toks[3])))
  }

  /** The module one line of the list denotes. */
  function ModuleLine(line: string): Result<Module> {
    ModuleRow(SplitAsciiWhitespace(line))
  }

  /** The modules of the lines, one per line in order, or the first error. */
  function ParseModuleLines(lines: seq<string>): Result<seq<Module>>
    decreases |lines|
  {
    if lines == [] then Ok([])
    else
      var m :- ModuleLine(lines[0]);
      PrependOk([m], ParseModuleLines(lines[1..]))
  }

  /** The module list denoted by the contents of the modules file, or why there is none. */
  function ModuleListOf(content: Option<string>): Result<seq<Module>> {
    if content.None? then Err(IoError(FILE)) else ParseModuleLines(Lines(content.value))
  }

  /** One step of the line loop: line `i`'s module, then the modules of the rest. */
  lemma ParseModuleLinesStep(lines: seq<string>, i: nat, list: seq<Module>)
    requires i < |lines|
    ensures ModuleLine(lines[i]).Err? ==>
      PrependOk(list, ParseModuleLines(lines[i..])) == ModuleLine(lines[i]).PropagateFailure()
    ensures ModuleLine(lines[i]).Ok? ==>
      PrependOk(list, ParseModuleLines(lines[i..]))
        == PrependOk(list + [ModuleLine(lines[i]).value], ParseModuleLines(lines[i + 1..]))
  {
    var t := lines[i..];
    assert t[0] == lines[i] && t[1..] == lines[i + 1..];
    if ModuleLine(lines[i]).Ok? {
      PrependOkAssoc(list, [ModuleLine(lines[i]).value], ParseModuleLines(lines[i + 1..]));
    }
  }

  /** The tokens of one line, taken in turn from an iterator as `get_list` does. */
  method ParseModule(line: string) returns (result: Result<Module>)
    ensures result == ModuleLine(line)
  {
    var toks := SplitAsciiWhitespace(line);
    var iter := 0;
    if iter >= |toks| {
      return Err(ParseFile(FILE, "Failed to parse module name"));
    }
    var name := toks[iter];
    iter := iter + 1;
    if iter >= |toks| {
      return Err(ParseFile(FILE, "Failed to parse memory bytes"));
    }
    var memoryBytes := ParseUsize(toks[iter]);
    if memoryBytes.None? {
      return Err(ParseFile(FILE, "Failed to parse memory bytes as integer"));
    }
    iter := iter + 1;
    if iter >= |toks| {
      return Err(ParseFile(FILE, "Failed to parse count"));
    }
    var count := ParseI32(toks[iter]);
    if count.None? {
      return Err(ParseFile(FILE, "Failed to parse count as integer"));
    }
    iter := iter + 1;
    if iter >= |toks| {
      return Err(ParseFile(FILE, "Failed to parse dependencies"));
    }
    var dependencies := Dependencies(toks[iter]);
    return Ok(Module(name, memoryBytes.value, dependencies));
  }

  /** `get_list`, over the file's contents (`None` when it cannot be read). */
  method GetList(content: Option<string>) returns (result: Result<seq<Module>>)
    ensures result == ModuleListOf(content)
  {
    if content.None? {
      return Err(IoError(FILE));
    }
    var lines := Lines(content.value);
    var modules: seq<Module> := [];
    var i := 0;
    assert lines[0..] == lines;
    PrependOkNil(ParseModuleLines(lines));
    while i < |lines|
      invariant 0 <= i <= |lines|
      invariant ParseModuleLines(lines) == PrependOk(modules, ParseModuleLines(lines[i..]))
      decreases |lines| - i
    {
      ParseModuleLinesStep(lines, i, modules);
      var m :- ParseModule(lines[i]);
      modules := modules + [m];
      i := i + 1;
    }
    assert lines[i..] == [];
    AppendNil(modules);
    return Ok(modules);
  }

  // ---------------------------------------------------------------------------
  // Properties

  /**
   * A line is accepted exactly when it has a name, a `usize` size, an `i32`
   * count and a dependency field; the module takes the name, the size and
   * the dependencies of the fourth token.
   */
  lemma ModuleRowOkIff(toks: seq<string>)
    ensures ModuleRow(toks).Ok? <==>
      |toks| >= 4 && ParseUsize(toks[1]).Some? && ParseI32(toks[2]).Some?
    ensures ModuleRow(toks).Ok? ==>
      ModuleRow(toks).value.name == toks[0]
      && Some(ModuleRow(toks).value.memoryBytes) == ParseUsize(toks[1])
      && ModuleRow(toks).value.dependencies == Dependencies(toks[3])
  {
  }

  /** Only the first four tokens matter: later ones are ignored. */
  lemma ModuleRowIgnoresRest(toks: seq<string>, extra: seq<string>)
    requires |toks| >= 4
    ensures ModuleRow(toks + extra) == ModuleRow(toks)
  {
    var t := toks + extra;
    assert t[0] == toks[0] && t[1] == toks[1] && t[2] == toks[2] && t[3] == toks[3];
  }

  /** A blank line has no name: the whole list fails on it. */
  lemma BlankLineFails(line: string)
    requires forall k :: 0 <= k < |line| ==> IsAsciiWhitespace(line[k])
    ensures ModuleLine(line) == Err(ParseFile(FILE, "Failed to parse module name"))
  {
    SplitBlank(line);
  }

  /** The list is accepted exactly when each of its lines is. */
  lemma {:induction false} ParseModuleLinesOkIff(lines: seq<string>)
    ensures ParseModuleLines(lines).Ok? <==> forall k :: 0 <= k < |lines| ==> ModuleLine(lines[k]).Ok?
    decreases |lines|
  {
    if lines != [] {
      ParseModuleLinesOkIff(lines[1..]);
      assert forall k :: 1 <= k < |lines| ==> lines[k] == lines[1..][k - 1];
      if ModuleLine(lines[0]).Ok? && ParseModuleLines(lines[1..]).Ok? {
        assert forall k :: 0 <= k < |lines| ==> ModuleLine(lines[k]).Ok? by {
          forall k | 0 <= k < |lines| ensures ModuleLine(lines[k]).Ok? {
            if k > 0 { assert ModuleLine(lines[1..][k - 1]).Ok?; }
          }
        }
      }
    }
  }

  /** An accepted list has one module per line, in line order. */
  lemma {:induction false} ParseModuleLinesRecords(lines: seq<string>)
    requires ParseModuleLines(lines).Ok?
    ensures |ParseModuleLines(lines).value| == |lines|
    ensures forall k :: 0 <= k < |lines| ==> ModuleLine(lines[k]) == Ok(ParseModuleLines(lines).value[k])
    decreases |lines|
  {
    if lines != [] {
      ParseModuleLinesRecords(lines[1..]);
      var ms, rest := ParseModuleLines(lines).value, ParseModuleLines(lines[1..]).value;
      assert ms == [ModuleLine(lines[0]).value] + rest;
      forall k | 0 <= k < |lines| ensures ModuleLine(lines[k]) == Ok(ms[k]) {
        if k > 0 {
          assert lines[k] == lines[1..][k - 1] && ms[k] == rest[k - 1];
        }
      }
    }
  }

  // ---------------------------------------------------------------------------
  // Writing a list and reading it back

  /**
   * A module the list can hold: its name is one token, its size a `usize`,
   * and its dependencies non-empty tokens without commas, other than the
   * lone "-".
   */
  predicate Writable(m: Module) {
    && m.name != [] && NoAsciiWhitespace(m.name)
    && m.memoryBytes <= USIZE_MAX
    && (forall k :: 0 <= k < |m.dependencies| ==>
          m.dependencies[k] != [] && ',' !in m.dependencies[k] && NoAsciiWhitespace(m.dependencies[k]))
    && m.dependencies != ["-"]
  }

  /** The tokens of the line for `m`, with use count `count`. */
  function FormatModule(m: Module, count: int): seq<string> {
    [m.name, NatToString(m.memoryBytes), I32ToString(count), FormatDependencies(m.dependencies)]
  }

  /** The dependency field of a writable module is one token. */
  lemma FormatDependenciesToken(ds: seq<string>)
    requires forall k :: 0 <= k < |ds| ==> ds[k] != [] && ',' !in ds[k] && NoAsciiWhitespace(ds[k])
    ensures FormatDependencies(ds) != [] && NoAsciiWhitespace(FormatDependencies(ds))
  {
    if ds != [] {
      JoinHead(ds, ',');
      forall x | IsAsciiWhitespace(x) ensures x !in Join(ds, ',') {
        JoinAvoids(ds, ',', x);
      }
    }
  }

  /** The tokens written for a writable module read back as that module. */
  lemma ModuleRowOfFormat(m: Module, count: int)
    requires Writable(m) && I32_MIN <= count <= I32_MAX
    ensures ModuleRow(FormatModule(m, count)) == Ok(m)
  {
    ParseUsizeOfString(m.memoryBytes);
    ParseI32OfString(count);
    DependenciesOfFormat(m.dependencies);
  }

  /** The tokens written for a writable module are tokens. */
  lemma FormatModuleTokens(m: Module, count: int)
    requires Writable(m)
    ensures Tokens(FormatModule(m, count))
  {
    FormatDependenciesToken(m.dependencies);
    I32ToStringToken(count);
    NatToStringToken(m.memoryBytes);
  }

  /**
   * The line written for a writable module, followed by any further tokens,
   * reads back as that module.
   */
  lemma ModuleLineOfFormat(m: Module, count: int, extra: seq<string>)
    requires Writable(m) && I32_MIN <= count <= I32_MAX && Tokens(extra)
    ensures ModuleLine(JoinSpaced(FormatModule(m, count) + extra)) == Ok(m)
  {
    var toks := FormatModule(m, count);
    FormatModuleTokens(m, count);
    TokensAppend(toks, extra);
    SplitJoinSpaced(toks + extra);
    ModuleRowIgnoresRest(toks, extra);
    ModuleRowOfFormat(m, count);
  }

  /** The decimal digits of a number are one token. */
  lemma NatToStringToken(n: nat)
    ensures NatToString(n) != [] && NoAsciiWhitespace(NatToString(n))
  {
    assert forall k :: 0 <= k < |NatToString(n)| ==> IsDigit(NatToString(n)[k]);
  }

  /** Module lines with a zero use count and nothing after the dependencies, each ended by a line feed. */
  function RenderModules(ms: seq<Module>): string
    decreases |ms|
  {
    if ms == [] then "" else JoinSpaced(FormatModule(ms[0], 0)) + "\n" + RenderModules(ms[1..])
  }

  /** The first line of a list and the lines after it. */
  lemma ParseModuleLinesCons(line: string, rest: seq<string>)
    ensures ParseModuleLines([line] + rest) ==
      if ModuleLine(line).Err? then ModuleLine(line).PropagateFailure()
      else PrependOk([ModuleLine(line).value], ParseModuleLines(rest))
  {
    assert ([line] + rest)[0] == line && ([line] + rest)[1..] == rest;
  }

  /** A rendered module, then more text: the module, then the modules of the text. */
  lemma ModuleStep(m: Module, rest: string)
    requires Writable(m)
    ensures ParseModuleLines(Lines(JoinSpaced(FormatModule(m, 0)) + "\n" + rest)) ==
      PrependOk([m], ParseModuleLines(Lines(rest)))
  {
    var toks := FormatModule(m, 0);
    var line := JoinSpaced(toks);
    FormatModuleTokens(m, 0);
    JoinSpacedNoBreak(toks);
    LinesCons(line, rest);
    assert StripCr(line) == line;
    AppendNil(toks);
    ModuleLineOfFormat(m, 0, []);
    ParseModuleLinesCons(line, Lines(rest));
  }

  /** Every record of `ms` is writable. */
  predicate AllWritable(ms: seq<Module>)
  {
    forall k :: 0 <= k < |ms| ==> Writable(ms[k])
  }

  /** A rendered list of writable modules reads back as those modules. */
  lemma {:induction false} ModuleListRoundTrip(ms: seq<Module>)
    requires AllWritable(ms)
    ensures ModuleListOf(Some(RenderModules(ms))) == Ok(ms)
    decreases |ms|
  {
    if ms != [] {
      var rest := RenderModules(ms[1..]);
      assert RenderModules(ms) == JoinSpaced(FormatModule(ms[0], 0)) + "\n" + rest;
      ModuleStep(ms[0], rest);
      ModuleListRoundTrip(ms[1..]);
      assert ms == [ms[0]] + ms[1..];
    }
  }
}
