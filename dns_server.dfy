/**
 * The resolver configuration reader of src/network/dns_server.rs. Every line
 * whose first whitespace-separated token is exactly "nameserver" names one
 * DNS server by its second token; each server's host name comes from a
 * reverse lookup, which is a parameter of the model.
 */
module DnsServer {
  import opened Common
  import opened RustStr

  const FILE := "/etc/resolv.conf"
  const KEYWORD := "nameserver"

  /** A DNS server: its address as written, and the host name found for it. */
  datatype DnsServer = DnsServer(ip: string, hostname: string)

  /** `Some(address)` for a nameserver line, `None` for any other line, or the error of a line without an address. */
  function NameserverLine(line: string): Result<Option<string>> {
    var toks := SplitAsciiWhitespace(line);
    if |toks| >= 1 && toks[0] == KEYWORD then
      if |toks| < 2 then Err(ParseFile(FILE, "Invalid nameserver")) else Ok(Some(Trim(toks[1])))
    else Ok(None)
  }

  /** What one line contributes: nothing, or the server it names with the host name `lookup` gives, or the first error. */
  function DnsLine(line: string, lookup: string -> Result<string>): Result<Option<DnsServer>> {
    var o :- NameserverLine(line);
    if o.None? then Ok(None)
    else
      var hostname :- lookup(o.value);
      Ok(Some(DnsServer(o.value, hostname)))
  }

  /**
   * The servers of the lines in order, each with the host name `lookup`
   * gives for it, or the first error: a nameserver line without an address,
   * or a failed lookup.
   */
  function ParseDnsLines(lines: seq<string>, lookup: string -> Result<string>): Result<seq<DnsServer>>
    decreases |lines|
  {
    if lines == [] then Ok([])
    else
      var o :- DnsLine(lines[0], lookup);
      PrependOk(if o.Some? then [o.value] else [], ParseDnsLines(lines[1..], lookup))
  }

  /** The servers denoted by the contents of the resolver configuration, or why there are none. */
  function DnsListOf(content: Option<string>, lookup: string -> Result<string>): Result<seq<DnsServer>> {
    if content.None? then Err(IoError(FILE)) else ParseDnsLines(Lines(content.value), lookup)
  }

  /** One step of the line loop: line `i`'s server, if any, then the servers of the rest. */
  lemma ParseDnsLinesStep(lines: seq<string>, i: nat, list: seq<DnsServer>, lookup: string -> Result<string>)
    requires i < |lines|
    ensures DnsLine(lines[i], lookup).Err? ==>
      PrependOk(list, ParseDnsLines(lines[i..], lookup)) == DnsLine(lines[i], lookup).PropagateFailure()
    ensures DnsLine(lines[i], lookup) == Ok(None) ==>
      PrependOk(list, ParseDnsLines(lines[i..], lookup)) == PrependOk(list, ParseDnsLines(lines[i + 1..], lookup))
    ensures DnsLine(lines[i], lookup).Ok? && DnsLine(lines[i], lookup).value.Some? ==>
      PrependOk(list, ParseDnsLines(lines[i..], lookup))
        == PrependOk(list + [DnsLine(lines[i], lookup).value.value], ParseDnsLines(lines[i + 1..], lookup))
  {
    var t := lines[i..];
    assert t[0] == lines[i] && t[1..] == lines[i + 1..];
    var o := DnsLine(lines[i], lookup);
    if o.Ok? {
      var xs := if o.value.Some? then [o.value.value] else [];
      PrependOkAssoc(list, xs, ParseDnsLines(lines[i + 1..], lookup));
      if o.value.None? {
        assert list + xs == list;
      }
    }
  }

  /** The body of the line loop: the line's tokens, taken in turn from an iterator. */
  method ReadLine(line: string, lookup: string -> Result<string>) returns (result: Result<Option<DnsServer>>)
    ensures result == DnsLine(line, lookup)
  {
    var toks := SplitAsciiWhitespace(line);
    var iter := 0;
    if iter < |toks| && toks[iter] == KEYWORD {
      iter := iter + 1;
      if iter >= |toks| {
        return Err(ParseFile(FILE, "Invalid nameserver"));
      }
      var domain := Trim(toks[iter]);
      var hostname :- lookup(domain);
      return Ok(Some(DnsServer(domain, hostname)));
    }
    return Ok(None);
  }

  /** `get_list`, over the file's contents (`None` when it cannot be read) and a reverse lookup. */
  method GetList(content: Option<string>, lookup: string -> Result<string>) returns (result: Result<seq<DnsServer>>)
    ensures result == DnsListOf(content, lookup)
  {
    if content.None? {
      return Err(IoError(FILE));
    }
    var lines := Lines(content.value);
    var list: seq<DnsServer> := [];
    var i := 0;
    assert lines[0..] == lines;
    PrependOkNil(ParseDnsLines(lines, lookup));
    while i < |lines|
      invariant 0 <= i <= |lines|
      invariant ParseDnsLines(lines, lookup) == PrependOk(list, ParseDnsLines(lines[i..], lookup))
      decreases |lines| - i
    {
      ParseDnsLinesStep(lines, i, list, lookup);
      var server :- ReadLine(lines[i], lookup);
      if server.Some? {
        list := list + [server.value];
      }
      i := i + 1;
    }
    assert lines[i..] == [];
    AppendNil(list);
    return Ok(list);
  }

  // ---------------------------------------------------------------------------
  // Properties

  /** A nameserver line: its first token is exactly the keyword. */
  predicate IsNameserver(line: string) {
    var toks := SplitAsciiWhitespace(line);
    |toks| >= 1 && toks[0] == KEYWORD
  }

  /** The address of a nameserver line: its second token, trimmed, or nothing when it has none. */
  function Address(line: string): string {
    var toks := SplitAsciiWhitespace(line);
    if |toks| >= 2 then Trim(toks[1]) else ""
  }

  /** The addresses of the nameserver lines, in order. */
  function Addresses(lines: seq<string>): seq<string>
    decreases |lines|
  {
    if lines == [] then []
    else (if IsNameserver(lines[0]) then [Address(lines[0])] else []) + Addresses(lines[1..])
  }

  /**
   * A line is accepted exactly when it is not a nameserver line, or it is
   * one with an address that has a host name; it contributes a server
   * exactly when it is a nameserver line.
   */
  lemma DnsLineMeaning(line: string, lookup: string -> Result<string>)
    ensures DnsLine(line, lookup).Ok? <==>
      !IsNameserver(line) || (|SplitAsciiWhitespace(line)| >= 2 && lookup(Address(line)).Ok?)
    ensures DnsLine(line, lookup).Ok? ==>
      (DnsLine(line, lookup).value.Some? <==> IsNameserver(line))
    ensures DnsLine(line, lookup).Ok? && IsNameserver(line) ==>
      DnsLine(line, lookup).value.value == DnsServer(Address(line), lookup(Address(line)).value)
  {
  }

  /** The list is accepted exactly when every one of its lines is. */
  lemma {:induction false} ParseDnsLinesOkIff(lines: seq<string>, lookup: string -> Result<string>)
    ensures ParseDnsLines(lines, lookup).Ok? <==> forall k :: 0 <= k < |lines| ==> DnsLine(lines[k], lookup).Ok?
    decreases |lines|
  {
    if lines != [] {
      ParseDnsLinesOkIff(lines[1..], lookup);
      assert forall k :: 1 <= k < |lines| ==> lines[k] == lines[1..][k - 1];
      if DnsLine(lines[0], lookup).Ok? && ParseDnsLines(lines[1..], lookup).Ok? {
        assert forall k :: 0 <= k < |lines| ==> DnsLine(lines[k], lookup).Ok? by {
          forall k | 0 <= k < |lines| ensures DnsLine(lines[k], lookup).Ok? {
            if k > 0 { assert DnsLine(lines[1..][k - 1], lookup).Ok?; }
          }
        }
      }
    }
  }

  /** Servers that match their addresses, followed by more such, still match theirs. */
  lemma ServersAppend(r1: seq<DnsServer>, d1: seq<string>, r2: seq<DnsServer>, d2: seq<string>,
                      lookup: string -> Result<string>)
    requires |r1| == |d1| && |r2| == |d2|
    requires forall k :: 0 <= k < |d1| ==> lookup(d1[k]).Ok? && r1[k] == DnsServer(d1[k], lookup(d1[k]).value)
    requires forall k :: 0 <= k < |d2| ==> lookup(d2[k]).Ok? && r2[k] == DnsServer(d2[k], lookup(d2[k]).value)
    ensures forall k :: 0 <= k < |d1 + d2| ==>
      lookup((d1 + d2)[k]).Ok? && (r1 + r2)[k] == DnsServer((d1 + d2)[k], lookup((d1 + d2)[k]).value)
  {
    forall k | 0 <= k < |d1 + d2|
      ensures lookup((d1 + d2)[k]).Ok? && (r1 + r2)[k] == DnsServer((d1 + d2)[k], lookup((d1 + d2)[k]).value)
    {
      if k >= |d1| {
        assert (d1 + d2)[k] == d2[k - |d1|] && (r1 + r2)[k] == r2[k - |d1|];
      }
    }
  }

  /**
   * An accepted list has one server per nameserver line, in line order:
   * server `k` has the `k`-th address and the host name found for it.
   */
  lemma {:induction false} ParseDnsLinesRecords(lines: seq<string>, lookup: string -> Result<string>)
    requires ParseDnsLines(lines, lookup).Ok?
    ensures |ParseDnsLines(lines, lookup).value| == |Addresses(lines)|
    ensures forall k :: 0 <= k < |Addresses(lines)| ==>
      lookup(Addresses(lines)[k]).Ok? &&
      ParseDnsLines(lines, lookup).value[k] == DnsServer(Addresses(lines)[k], lookup(Addresses(lines)[k]).value)
    decreases |lines|
  {
    if lines != [] {
      DnsLineMeaning(lines[0], lookup);
      ParseDnsLinesRecords(lines[1..], lookup);
      var head: seq<string> := if IsNameserver(lines[0]) then [Address(lines[0])] else [];
      var servers: seq<DnsServer> := if IsNameserver(lines[0]) then [DnsServer(head[0], lookup(head[0]).value)] else [];
      assert ParseDnsLines(lines, lookup) == PrependOk(servers, ParseDnsLines(lines[1..], lookup));
      ServersAppend(servers, head, ParseDnsLines(lines[1..], lookup).value, Addresses(lines[1..]), lookup);
    }
  }

  /** Leading whitespace does not change what a line contributes. */
  lemma IndentedLine(w: string, line: string)
    requires forall k :: 0 <= k < |w| ==> IsAsciiWhitespace(w[k])
    ensures NameserverLine(w + line) == NameserverLine(line)
  {
    SplitLeadingBlank(w, line);
  }

  /** A line whose first token is not exactly the keyword contributes nothing, whatever follows. */
  lemma OtherLineIgnored(first: string, rest: seq<string>)
    requires Tokens([first] + rest) && first != KEYWORD
    ensures NameserverLine(JoinSpaced([first] + rest)) == Ok(None)
  {
    SplitJoinSpaced([first] + rest);
  }

  /** A nameserver line takes its second token, trimmed, as the address; later tokens are ignored. */
  lemma NameserverAddress(ip: string, rest: seq<string>)
    requires Tokens([KEYWORD, ip] + rest)
    ensures NameserverLine(JoinSpaced([KEYWORD, ip] + rest)) == Ok(Some(Trim(ip)))
  {
    SplitJoinSpaced([KEYWORD, ip] + rest);
  }

  /** The keyword alone is an error. */
  lemma MissingAddress()
    ensures NameserverLine(KEYWORD) == Err(ParseFile(FILE, "Invalid nameserver"))
  {
    KeywordToken();
    SplitJoinSpaced([KEYWORD]);
  }

  /** The keyword is one token. */
  lemma KeywordToken()
    ensures Tokens([KEYWORD])
  {
    assert forall k :: 0 <= k < |KEYWORD| ==> 'a' <= KEYWORD[k] <= 'z';
  }

  /** A commented-out server line is ignored. */
  lemma CommentedOut(ip: string)
    requires ip != [] && NoAsciiWhitespace(ip)
    ensures NameserverLine("#nameserver " + ip) == Ok(None)
  {
    var first := "#nameserver";
    assert forall k :: 0 <= k < |first| ==> first[k] == '#' || 'a' <= first[k] <= 'z';
    assert first != KEYWORD by {
      assert |first| != |KEYWORD|;
    }
    assert JoinSpaced([first, ip]) == "#nameserver " + ip;
    OtherLineIgnored(first, [ip]);
  }

  // ---------------------------------------------------------------------------
  // Writing a resolver configuration and reading it back

  /** An address the configuration can hold: one token with no whitespace that `trim` would remove. */
  predicate Writable(ip: string) {
    ip != [] && NoAsciiWhitespace(ip) && Trim(ip) == ip
  }

  /** One nameserver line per address, each ended by a line feed. */
  function RenderResolv(ips: seq<string>): string
    decreases |ips|
  {
    if ips == [] then "" else ResolvLine(ips[0]) + "\n" + RenderResolv(ips[1..])
  }

  /** The servers of the addresses in order, each with the host name `lookup` gives for it, or the first failed lookup. */
  function ServersOf(ips: seq<string>, lookup: string -> Result<string>): Result<seq<DnsServer>>
    decreases |ips|
  {
    if ips == [] then Ok([])
    else
      var hostname :- lookup(ips[0]);
      PrependOk([DnsServer(ips[0], hostname)], ServersOf(ips[1..], lookup))
  }

  /** The first line of a configuration and the lines after it. */
  lemma ParseDnsLinesCons(line: string, rest: seq<string>, lookup: string -> Result<string>)
    ensures ParseDnsLines([line] + rest, lookup) ==
      if DnsLine(line, lookup).Err? then DnsLine(line, lookup).PropagateFailure()
      else PrependOk(if DnsLine(line, lookup).value.Some? then [DnsLine(line, lookup).value.value] else [],
                     ParseDnsLines(rest, lookup))
  {
    assert ([line] + rest)[0] == line && ([line] + rest)[1..] == rest;
  }

  /** The line that names the server at `ip`. */
  function ResolvLine(ip: string): string {
    JoinSpaced([KEYWORD, ip])
  }

  /** The line for a token is the keyword and that token. */
  lemma ResolvLineTokens(ip: string)
    requires ip != [] && NoAsciiWhitespace(ip)
    ensures SplitAsciiWhitespace(ResolvLine(ip)) == [KEYWORD, ip]
    ensures '\n' !in ResolvLine(ip) && '\r' !in ResolvLine(ip)
  {
    KeywordToken();
    assert Tokens([KEYWORD, ip]);
    SplitJoinSpaced([KEYWORD, ip]);
    JoinSpacedNoBreak([KEYWORD, ip]);
  }

  /** The line written for a writable address names that server. */
  lemma NameserverLineOf(ip: string, lookup: string -> Result<string>)
    requires Writable(ip)
    ensures lookup(ip).Ok? ==> DnsLine(ResolvLine(ip), lookup) == Ok(Some(DnsServer(ip, lookup(ip).value)))
    ensures lookup(ip).Err? ==> DnsLine(ResolvLine(ip), lookup) == Err(lookup(ip).error)
  {
    ResolvLineTokens(ip);
    assert NameserverLine(ResolvLine(ip)) == Ok(Some(ip));
  }

  /** A nameserver line for a writable address, then more text: what the address contributes, then the rest. */
  lemma ResolvStep(ip: string, rest: string, lookup: string -> Result<string>)
    requires Writable(ip)
    ensures ParseDnsLines(Lines(ResolvLine(ip) + "\n" + rest), lookup) ==
      if lookup(ip).Err? then Err(lookup(ip).error)
      else PrependOk([DnsServer(ip, lookup(ip).value)], ParseDnsLines(Lines(rest), lookup))
  {
    var line := ResolvLine(ip);
    ResolvLineTokens(ip);
    LinesCons(line, rest);
    assert StripCr(line) == line;
    NameserverLineOf(ip, lookup);
    ParseDnsLinesCons(line, Lines(rest), lookup);
  }

  /** Every address is writable. */
  predicate AllWritable(ips: seq<string>)
  {
    forall k :: 0 <= k < |ips| ==> Writable(ips[k])
  }

  /**
   * A rendered configuration of writable addresses reads back as their
   * servers in order, and fails with the first failed lookup.
   */
  lemma {:induction false} ResolvRoundTrip(ips: seq<string>, lookup: string -> Result<string>)
    requires AllWritable(ips)
    ensures ParseDnsLines(Lines(RenderResolv(ips)), lookup) == ServersOf(ips, lookup)
    decreases |ips|
  {
    if ips != [] {
      ResolvRoundTrip(ips[1..], lookup);
      ResolvStep(ips[0], RenderResolv(ips[1..]), lookup);
    }
  }

  /** The same, from the contents of the resolver configuration. */
  lemma DnsListOfRender(ips: seq<string>, lookup: string -> Result<string>)
    requires AllWritable(ips)
    ensures DnsListOf(Some(RenderResolv(ips)), lookup) == ServersOf(ips, lookup)
  {
    ResolvRoundTrip(ips, lookup);
  }
}
