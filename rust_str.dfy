/**
 * The Rust string primitives the parsers are built from, as functions over
 * `seq<char>`: `lines`, `split_ascii_whitespace`, `split(char)`, `trim`,
 * `starts_with`, `contains` and `parse` for `i32` and `usize`.
 */
module RustStr {
  import opened Common

  // ---------------------------------------------------------------------------
  // Character classes

  /** `char::is_ascii_whitespace`: space, tab, line feed, form feed, carriage return. */
  predicate IsAsciiWhitespace(c: char) {
    c == ' ' || c == '\t' || c == '\n' || c == '\U{C}' || c == '\r'
  }

  /** `char::is_whitespace`, the Unicode White_Space property (used by `trim`). */
  predicate IsWhitespace(c: char) {
    || ('\t' <= c <= '\r')
    || c == ' ' || c == '\U{85}' || c == '\U{A0}' || c == '\U{1680}'
    || ('\U{2000}' <= c <= '\U{200A}')
    || c == '\U{2028}' || c == '\U{2029}' || c == '\U{202F}' || c == '\U{205F}'
    || c == '\U{3000}'
  }

  predicate AllWhitespace(s: string) {
    forall k :: 0 <= k < |s| ==> IsWhitespace(s[k])
  }

  predicate NoAsciiWhitespace(s: string) {
    forall k :: 0 <= k < |s| ==> !IsAsciiWhitespace(s[k])
  }

  predicate IsDigit(c: char) {
    '0' <= c <= '9'
  }

  predicate AllDigits(s: string) {
    forall k :: 0 <= k < |s| ==> IsDigit(s[k])
  }

  // ---------------------------------------------------------------------------
  // Searching

  /** `str::starts_with` with a string pattern. */
  predicate StartsWith(s: string, p: string) {
    |p| <= |s| && s[..|p|] == p
  }

  /** `p` occurs in `s` at position `i`. */
  predicate OccursAt(s: string, p: string, i: int) {
    0 <= i <= |s| - |p| && s[i..i + |p|] == p
  }

  /** `str::contains` with a string pattern: `p` occurs somewhere in `s`. */
  predicate Contains(s: string, p: string) {
    exists i | 0 <= i <= |s| - |p| :: OccursAt(s, p, i)
  }

  /** A pattern holding a character that `s` lacks is not contained in `s`. */
  lemma AbsentChar(s: string, p: string, c: char)
    requires c in p && c !in s
    ensures !Contains(s, p)
  {
  }

  /** A string contains each of its prefixes. */
  lemma ContainsPrefix(s: string, p: string)
    requires StartsWith(s, p)
    ensures Contains(s, p)
  {
    assert OccursAt(s, p, 0);
  }

  /**
   * A pattern that is not a prefix of `s` does not occur in `s` when its
   * first character appears nowhere in `s` but at the head.
   */
  lemma AbsentPastHead(s: string, p: string)
    requires p != [] && !StartsWith(s, p)
    requires forall k :: 1 <= k < |s| ==> s[k] != p[0]
    ensures !Contains(s, p)
  {
    forall i | 0 <= i <= |s| - |p| ensures !OccursAt(s, p, i) {
      if i > 0 {
        assert s[i..i + |p|][0] == s[i];
      }
    }
  }

  /** Position `i` of pattern `p` disagrees with `s`, or lies past its end. */
  predicate MismatchAt(s: string, p: string, i: int) {
    0 <= i < |p| && (i >= |s| || s[i] != p[i])
  }

  /** A pattern that disagrees with `s` at some position is not a prefix of `s`. */
  lemma MismatchNotPrefix(s: string, p: string, i: int)
    requires MismatchAt(s, p, i)
    ensures !StartsWith(s, p)
  {
    if |p| <= |s| {
      assert s[..|p|][i] == s[i];
    }
  }

  /** Index of the first occurrence of `c`. */
  function IndexOf(s: string, c: char): (i: nat)
    requires c in s
    ensures i < |s| && s[i] == c && c !in s[..i]
  {
    if s[0] == c then 0 else
      var j := IndexOf(s[1..], c);
      assert s[..j + 1] == [s[0]] + s[1..][..j];
      j + 1
  }

  // ---------------------------------------------------------------------------
  // Trimming

  /** `str::trim_start`. */
  function TrimStart(s: string): string {
    if s != [] && IsWhitespace(s[0]) then TrimStart(s[1..]) else s
  }

  /** `trim_start` drops a prefix of whitespace and leaves a suffix that does not begin with whitespace. */
  lemma {:induction false} TrimStartBounds(s: string)
    ensures var r := TrimStart(s);
      |r| <= |s| && r == s[|s| - |r|..] && AllWhitespace(s[..|s| - |r|]) &&
      (r == [] || !IsWhitespace(r[0]))
  {
    if s != [] && IsWhitespace(s[0]) {
      TrimStartBounds(s[1..]);
      var r := TrimStart(s[1..]);
      assert s[..|s| - |r|] == [s[0]] + s[1..][..|s[1..]| - |r|];
    }
  }

  /** `str::trim_end`. */
  function TrimEnd(s: string): string {
    if s != [] && IsWhitespace(s[|s| - 1]) then TrimEnd(s[..|s| - 1]) else s
  }

  /** `trim_end` drops a suffix of whitespace and leaves a prefix that does not end with whitespace. */
  lemma {:induction false} TrimEndBounds(s: string)
    ensures var r := TrimEnd(s);
      |r| <= |s| && r == s[..|r|] && AllWhitespace(s[|r|..]) &&
      (r == [] || !IsWhitespace(r[|r| - 1]))
  {
    if s != [] && IsWhitespace(s[|s| - 1]) {
      TrimEndBounds(s[..|s| - 1]);
      var r := TrimEnd(s[..|s| - 1]);
      assert s[|r|..] == s[..|s| - 1][|r|..] + [s[|s| - 1]];
    }
  }

  /** `str::trim`: drops leading and trailing Unicode whitespace. */
  function Trim(s: string): string {
    TrimEnd(TrimStart(s))
  }

  /**
   * The trimmed text is no longer than the text, has no whitespace at
   * either end, and is empty exactly when the text is all whitespace.
   */
  lemma TrimBounds(s: string)
    ensures |Trim(s)| <= |s|
    ensures Trim(s) == [] || (!IsWhitespace(Trim(s)[0]) && !IsWhitespace(Trim(s)[|Trim(s)| - 1]))
    ensures Trim(s) == [] <==> AllWhitespace(s)
  {
    var t := TrimStart(s);
    var r := TrimEnd(t);
    TrimStartBounds(s);
    TrimEndBounds(t);
    if r == [] {
      assert s == s[..|s| - |t|] + t;
    } else {
      assert r[0] == t[0];
    }
  }

  /** A trailing whitespace character is trimmed away. */
  lemma TrimEndWhitespace(s: string, w: char)
    requires IsWhitespace(w)
    ensures TrimEnd(s + [w]) == TrimEnd(s)
  {
    assert (s + [w])[..|s|] == s;
  }

  /** Trimming is a no-op on a string that has no whitespace at its ends. */
  lemma TrimNoOp(s: string)
    requires s == [] || (!IsWhitespace(s[0]) && !IsWhitespace(s[|s| - 1]))
    ensures Trim(s) == s
  {
  }

  // ---------------------------------------------------------------------------
  // Splitting

  /** `s` without one trailing carriage return. */
  function StripCr(line: string): string {
    if |line| > 0 && line[|line| - 1] == '\r' then line[..|line| - 1] else line
  }

  /**
   * `str::lines`: the pieces between line feeds; a line feed also drops one
   * carriage return before it, and a final line feed does not start an empty
   * last line.
   */
  function Lines(s: string): (ls: seq<string>)
    ensures forall k :: 0 <= k < |ls| ==> '\n' !in ls[k]
    ensures s == [] <==> ls == []
    decreases |s|
  {
    if s == [] then []
    else if '\n' in s then
      var i := IndexOf(s, '\n');
      var line := s[..i];
      [StripCr(line)] + Lines(s[i + 1..])
    else [s]
  }

  /** A line feed ends the first line; the rest of the text makes the next lines. */
  lemma LinesCons(line: string, rest: string)
    requires '\n' !in line
    ensures Lines(line + "\n" + rest) == [StripCr(line)] + Lines(rest)
  {
    var s := line + "\n" + rest;
    assert s[|line|] == '\n';
    var i := IndexOf(s, '\n');
    assert s[..i] == line;
    assert s[i + 1..] == rest;
  }

  /** Text without a line feed is one line, kept as it is. */
  lemma LinesSingle(line: string)
    requires '\n' !in line && line != []
    ensures Lines(line) == [line]
  {
  }

  /** Length of the leading run of characters that are not ASCII whitespace. */
  function TokenLength(s: string): (n: nat)
    ensures n <= |s|
    ensures forall k :: 0 <= k < n ==> !IsAsciiWhitespace(s[k])
    ensures n < |s| ==> IsAsciiWhitespace(s[n])
  {
    if s == [] || IsAsciiWhitespace(s[0]) then 0 else 1 + TokenLength(s[1..])
  }

  /**
   * `str::split_ascii_whitespace`: the maximal runs of non-whitespace
   * characters; runs of whitespace separate, and no token is empty.
   */
  function SplitAsciiWhitespace(s: string): (ts: seq<string>)
    ensures forall k :: 0 <= k < |ts| ==> ts[k] != [] && NoAsciiWhitespace(ts[k])
    decreases |s|
  {
    if s == [] then []
    else if IsAsciiWhitespace(s[0]) then SplitAsciiWhitespace(s[1..])
    else
      var n := TokenLength(s);
      [s[..n]] + SplitAsciiWhitespace(s[n..])
  }

  /** Every element is a token: non-empty and free of ASCII whitespace. */
  predicate Tokens(ts: seq<string>) {
    forall k :: 0 <= k < |ts| ==> ts[k] != [] && NoAsciiWhitespace(ts[k])
  }

  /** Leading ASCII whitespace does not change the tokens. */
  lemma {:induction false} SplitLeadingBlank(w: string, s: string)
    requires forall k :: 0 <= k < |w| ==> IsAsciiWhitespace(w[k])
    ensures SplitAsciiWhitespace(w + s) == SplitAsciiWhitespace(s)
    decreases |w|
  {
    if w != [] {
      assert (w + s)[0] == w[0] && (w + s)[1..] == w[1..] + s;
      SplitLeadingBlank(w[1..], s);
    } else {
      assert w + s == s;
    }
  }

  /** Two lists of tokens make one. */
  lemma TokensAppend(a: seq<string>, b: seq<string>)
    requires Tokens(a) && Tokens(b)
    ensures Tokens(a + b)
  {
    forall k | 0 <= k < |a + b| ensures (a + b)[k] != [] && NoAsciiWhitespace((a + b)[k]) {
      if k >= |a| {
        assert (a + b)[k] == b[k - |a|];
      }
    }
  }

  /** Tokens joined by single spaces. */
  function JoinSpaced(ts: seq<string>): string {
    if ts == [] then [] else if |ts| == 1 then ts[0] else ts[0] + " " + JoinSpaced(ts[1..])
  }

  /** Space-joined tokens hold no line feed and no carriage return. */
  lemma {:induction false} JoinSpacedNoBreak(ts: seq<string>)
    requires forall k :: 0 <= k < |ts| ==> NoAsciiWhitespace(ts[k])
    ensures '\n' !in JoinSpaced(ts) && '\r' !in JoinSpaced(ts)
    decreases |ts|
  {
    if |ts| > 1 {
      JoinSpacedNoBreak(ts[1..]);
    }
  }

  /** Space-joined tokens are blank only when every token is. */
  lemma {:induction false} JoinSpacedBlank(ts: seq<string>)
    requires AllWhitespace(JoinSpaced(ts))
    ensures forall k :: 0 <= k < |ts| ==> AllWhitespace(ts[k])
    decreases |ts|
  {
    if |ts| > 1 {
      var j, t, rest := JoinSpaced(ts), ts[0], JoinSpaced(ts[1..]);
      assert j == t + " " + rest;
      assert forall i :: 0 <= i < |t| ==> j[i] == t[i];
      assert forall i :: 0 <= i < |rest| ==> j[|t| + 1 + i] == rest[i];
      JoinSpacedBlank(ts[1..]);
      assert forall k :: 1 <= k < |ts| ==> ts[k] == ts[1..][k - 1];
    }
  }

  /** A whitespace-free prefix of a string that continues with whitespace or ends is a prefix of the part before. */
  lemma PrefixBeforeBreak(t: string, rest: string, p: string)
    requires rest == [] || IsAsciiWhitespace(rest[0])
    requires NoAsciiWhitespace(p) && StartsWith(t + rest, p)
    ensures StartsWith(t, p)
  {
    var j := t + rest;
    if rest == [] {
      assert j == t;
    } else {
      assert IsAsciiWhitespace(j[|t|]);
      if |t| < |p| {
        assert false;
      }
      assert t[..|p|] == j[..|p|];
    }
  }

  /** What follows the first token in space-joined tokens. */
  function JoinSpacedTail(ts: seq<string>): string
    requires |ts| >= 1
  {
    if |ts| == 1 then [] else " " + JoinSpaced(ts[1..])
  }

  /** Concatenation is associative. */
  lemma AppendAssoc(a: string, b: string, c: string)
    ensures a + b + c == a + (b + c)
  {
  }

  /** Space-joined tokens are the first token, then nothing or a blank and the rest. */
  lemma JoinSpacedHead(ts: seq<string>)
    requires |ts| >= 1
    ensures JoinSpaced(ts) == ts[0] + JoinSpacedTail(ts)
    ensures JoinSpacedTail(ts) == [] || IsAsciiWhitespace(JoinSpacedTail(ts)[0])
  {
    if |ts| == 1 {
      AppendNil(ts[0]);
    } else {
      AppendAssoc(ts[0], " ", JoinSpaced(ts[1..]));
    }
  }

  /** A whitespace-free prefix of space-joined tokens is a prefix of the first token. */
  lemma JoinSpacedStartsWith(ts: seq<string>, p: string)
    requires |ts| >= 1 && NoAsciiWhitespace(p) && StartsWith(JoinSpaced(ts), p)
    ensures StartsWith(ts[0], p)
  {
    JoinSpacedHead(ts);
    PrefixBeforeBreak(ts[0], JoinSpacedTail(ts), p);
  }

  /** A string of ASCII whitespace holds no token. */
  lemma {:induction false} SplitBlank(s: string)
    requires forall k :: 0 <= k < |s| ==> IsAsciiWhitespace(s[k])
    ensures SplitAsciiWhitespace(s) == []
    decreases |s|
  {
    if s != [] {
      SplitBlank(s[1..]);
    }
  }

  /** Splitting a space-joined list of tokens gives the tokens back. */
  lemma {:induction false} SplitJoinSpaced(ts: seq<string>)
    requires Tokens(ts)
    ensures SplitAsciiWhitespace(JoinSpaced(ts)) == ts
    decreases |ts|
  {
    if ts != [] {
      var t := ts[0];
      var rest := if |ts| == 1 then [] else " " + JoinSpaced(ts[1..]);
      var s := t + rest;
      assert JoinSpaced(ts) == s;
      TokenAt(t, rest);
      assert s[..|t|] == t;
      if |ts| == 1 {
        assert s[|t|..] == [];
      } else {
        assert s[|t|..] == " " + JoinSpaced(ts[1..]);
        SplitJoinSpaced(ts[1..]);
        assert (" " + JoinSpaced(ts[1..]))[1..] == JoinSpaced(ts[1..]);
        assert ts == [t] + ts[1..];
      }
    }
  }

  /** A non-empty whitespace-free prefix followed by whitespace or the end is one token. */
  lemma {:induction false} TokenAt(t: string, rest: string)
    requires t != [] && NoAsciiWhitespace(t)
    requires rest == [] || IsAsciiWhitespace(rest[0])
    ensures TokenLength(t + rest) == |t|
    decreases |t|
  {
    var s := t + rest;
    if |t| > 1 {
      assert s[1..] == t[1..] + rest;
      TokenAt(t[1..], rest);
    } else {
      assert s[1..] == rest;
    }
  }

  /** `str::split` on a character: the pieces between separators, empty ones included. */
  function Split(s: string, c: char): (ps: seq<string>)
    ensures |ps| >= 1
    ensures forall k :: 0 <= k < |ps| ==> c !in ps[k]
    ensures c in s <==> |ps| >= 2
    decreases |s|
  {
    if c in s then
      var i := IndexOf(s, c);
      [s[..i]] + Split(s[i + 1..], c)
    else [s]
  }

  /** Pieces joined with a separator character. */
  function Join(ps: seq<string>, c: char): string
    requires |ps| >= 1
  {
    if |ps| == 1 then ps[0] else ps[0] + [c] + Join(ps[1..], c)
  }

  /** A join is its first piece, then the separator or nothing. */
  lemma JoinHead(ps: seq<string>, c: char)
    requires |ps| >= 1
    ensures var j := Join(ps, c); j == ps[0] + j[|ps[0]|..] && (j[|ps[0]|..] == [] || j[|ps[0]|] == c)
  {
    if |ps| > 1 {
      var rest := [c] + Join(ps[1..], c);
      assert Join(ps, c) == ps[0] + rest;
      assert Join(ps, c)[|ps[0]|..] == rest;
    }
  }

  /** A character other than the separator that no piece holds is not in the join. */
  lemma {:induction false} JoinAvoids(ps: seq<string>, c: char, x: char)
    requires |ps| >= 1 && x != c
    requires forall k :: 0 <= k < |ps| ==> x !in ps[k]
    ensures x !in Join(ps, c)
    decreases |ps|
  {
    if |ps| > 1 {
      JoinAvoids(ps[1..], c, x);
    }
  }

  /** The pieces laid end to end. */
  function Concat(ps: seq<string>): string
    decreases |ps|
  {
    if ps == [] then [] else ps[0] + Concat(ps[1..])
  }

  /** Concatenating a first piece and more pieces. */
  lemma ConcatCons(head: string, ps: seq<string>)
    ensures Concat([head] + ps) == head + Concat(ps)
  {
    assert ([head] + ps)[0] == head && ([head] + ps)[1..] == ps;
  }

  /** A text is what comes before position `i`, the character there, and what follows. */
  lemma AroundIndex(s: string, i: nat)
    requires i < |s|
    ensures s == s[..i] + [s[i]] + s[i + 1..]
  {
  }

  /** `s` with every occurrence of `c` removed. */
  function Without(s: string, c: char): string
    decreases |s|
  {
    if s == [] then [] else (if s[0] == c then [] else [s[0]]) + Without(s[1..], c)
  }

  /** Removing a character distributes over concatenation. */
  lemma {:induction false} WithoutAppend(a: string, b: string, c: char)
    ensures Without(a + b, c) == Without(a, c) + Without(b, c)
    decreases |a|
  {
    if a != [] {
      assert (a + b)[0] == a[0] && (a + b)[1..] == a[1..] + b;
      WithoutAppend(a[1..], b, c);
    } else {
      assert a + b == b;
    }
  }

  /** Removing a character the string lacks changes nothing. */
  lemma {:induction false} WithoutAbsent(s: string, c: char)
    requires c !in s
    ensures Without(s, c) == s
    decreases |s|
  {
    if s != [] {
      WithoutAbsent(s[1..], c);
      assert s == [s[0]] + s[1..];
    }
  }

  /** Removing `c` from text around one occurrence of `c`. */
  lemma WithoutAround(a: string, b: string, c: char)
    requires c !in a
    ensures Without(a + [c] + b, c) == a + Without(b, c)
  {
    var t := [c] + b;
    assert a + [c] + b == a + t;
    WithoutAppend(a, t, c);
    WithoutAbsent(a, c);
    assert Without(t, c) == Without(b, c) by {
      assert t[0] == c && t[1..] == b;
    }
  }

  /** The pieces of a split, laid end to end, are the text without its separators. */
  lemma {:induction false} ConcatSplit(s: string, c: char)
    ensures Concat(Split(s, c)) == Without(s, c)
    decreases |s|
  {
    if c in s {
      var i := IndexOf(s, c);
      var head, tail := s[..i], s[i + 1..];
      var rest := Split(tail, c);
      assert Split(s, c) == [head] + rest;
      ConcatCons(head, rest);
      ConcatSplit(tail, c);
      AroundIndex(s, i);
      WithoutAround(head, tail, c);
    } else {
      WithoutAbsent(s, c);
    }
  }

  /** Joining the pieces of a split with the separator restores the text. */
  lemma {:induction false} JoinSplit(s: string, c: char)
    ensures Join(Split(s, c), c) == s
    decreases |s|
  {
    if c in s {
      var i := IndexOf(s, c);
      JoinSplit(s[i + 1..], c);
      assert s == s[..i] + [c] + s[i + 1..];
    }
  }

  /** A separator-free piece, the separator, then more: the piece is the first part of the split. */
  lemma SplitAt(a: string, c: char, b: string)
    requires c !in a
    ensures Split(a + [c] + b, c) == [a] + Split(b, c)
  {
    var s := a + [c] + b;
    assert s[|a|] == c;
    assert s[..|a|] == a;
    var i := IndexOf(s, c);
    assert i == |a|;
    assert s[i + 1..] == b;
  }

  /** Splitting a join of separator-free pieces gives the pieces back. */
  lemma {:induction false} SplitJoin(ps: seq<string>, c: char)
    requires |ps| >= 1
    requires forall k :: 0 <= k < |ps| ==> c !in ps[k]
    ensures Split(Join(ps, c), c) == ps
    decreases |ps|
  {
    if |ps| > 1 {
      SplitAt(ps[0], c, Join(ps[1..], c));
      SplitJoin(ps[1..], c);
      assert ps == [ps[0]] + ps[1..];
    }
  }

  // ---------------------------------------------------------------------------
  // Integers

  const I32_MIN: int := -0x8000_0000
  const I32_MAX: int := 0x7FFF_FFFF
  /** `usize` on a 64-bit target. */
  const USIZE_MAX: int := 0xFFFF_FFFF_FFFF_FFFF

  function DigitValue(c: char): nat
    requires IsDigit(c)
  {
    (c as int) - ('0' as int)
  }

  /** The value of a string of decimal digits, most significant first. */
  function DecimalValue(s: string): nat
    requires AllDigits(s)
    decreases |s|
  {
    if s == [] then 0 else 10 * DecimalValue(s[..|s| - 1]) + DigitValue(s[|s| - 1])
  }

  /** The digits of an integer after an optional leading sign. */
  function Unsigned(s: string): string {
    if s != [] && (s[0] == '+' || s[0] == '-') then s[1..] else s
  }

  /**
   * `str::parse::<i32>`: an optional `+` or `-`, then one or more ASCII
   * digits, whose value must lie in the `i32` range.
   */
  function ParseI32(s: string): (r: Option<int>)
    ensures r.Some? ==> I32_MIN <= r.value <= I32_MAX
  {
    var d := Unsigned(s);
    if d == [] || !AllDigits(d) then None
    else
      var v := if s[0] == '-' then -(DecimalValue(d) as int) else DecimalValue(d);
      if I32_MIN <= v <= I32_MAX then Some(v) else None
  }

  /**
   * `str::parse::<usize>`: an optional `+` (a `-` is an invalid digit), then
   * one or more ASCII digits, whose value must fit in 64 bits.
   */
  function ParseUsize(s: string): (r: Option<nat>)
    ensures r.Some? ==> r.value <= USIZE_MAX
  {
    var d := if s != [] && s[0] == '+' then s[1..] else s;
    if d == [] || !AllDigits(d) then None
    else if DecimalValue(d) <= USIZE_MAX then Some(DecimalValue(d)) else None
  }

  /** Decimal digits of a natural number, without leading zeros. */
  function NatToString(n: nat): (s: string)
    ensures s != [] && AllDigits(s)
    decreases n
  {
    var last := ['0' + ((n % 10) as char)];
    if n < 10 then last else NatToString(n / 10) + last
  }

  /** Reading back the digits of `n` gives `n`. */
  lemma {:induction false} DecimalOfNatToString(n: nat)
    ensures DecimalValue(NatToString(n)) == n
    decreases n
  {
    var s := NatToString(n);
    if n >= 10 {
      DecimalOfNatToString(n / 10);
      assert s[..|s| - 1] == NatToString(n / 10);
    }
  }

  /** The canonical decimal form of an `i32`, with `-` for negative values. */
  function I32ToString(n: int): string {
    if n < 0 then "-" + NatToString(-n) else NatToString(n)
  }

  /** The decimal form of an integer is one token that does not begin with whitespace. */
  lemma I32ToStringToken(n: int)
    ensures I32ToString(n) != [] && NoAsciiWhitespace(I32ToString(n)) && !IsWhitespace(I32ToString(n)[0])
  {
    var d := NatToString(if n < 0 then -n else n);
    assert forall k :: 0 <= k < |d| ==> IsDigit(d[k]);
  }

  /** Every `i32` value reads back from its decimal form. */
  lemma ParseI32OfString(n: int)
    requires I32_MIN <= n <= I32_MAX
    ensures ParseI32(I32ToString(n)) == Some(n)
  {
    var d := NatToString(if n < 0 then -n else n);
    var s := I32ToString(n);
    DecimalOfNatToString(if n < 0 then -n else n);
    if n < 0 {
      assert s == "-" + d;
      assert s[0] == '-' && s[1..] == d;
    } else {
      assert s == d;
      assert IsDigit(d[0]);
    }
    assert Unsigned(s) == d;
  }

  /** Every `usize` value reads back from its decimal form. */
  lemma ParseUsizeOfString(n: nat)
    requires n <= USIZE_MAX
    ensures ParseUsize(NatToString(n)) == Some(n)
  {
    DecimalOfNatToString(n);
  }
}
