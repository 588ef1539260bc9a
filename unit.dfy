/**
 * `parse_mem_size` of src/base/unit.rs: a memory size such as "4 M" or
 * "16k". After an emptiness check the text is trimmed and read one
 * character at a time: a digit extends the decimal value read so far, a
 * unit letter (k, m, g, t, either case) multiplies it by its power of two,
 * a space, tab, 'b' or 'B' multiplies it by one, and any other character
 * makes the whole text invalid.
 */
module Unit {
  import opened Common
  import opened RustStr

  /** `1 << shift`. */
  function Shl1(shift: nat): nat {
    if shift == 0 then 1 else 2 * Shl1(shift - 1)
  }

  /** Shifting by `a + b` is shifting by `a`, then by `b`. */
  lemma {:induction false} Shl1Add(a: nat, b: nat)
    ensures Shl1(a + b) == Shl1(a) * Shl1(b)
    decreases a
  {
    if a > 0 {
      Shl1Add(a - 1, b);
      assert Shl1(a + b) == 2 * Shl1(a - 1 + b);
    }
  }

  /** The four unit letters scale by kibi, mebi, gibi and tebi. */
  lemma UnitFactors()
    ensures Shl1(10) == 1024
    ensures Shl1(20) == 0x10_0000
    ensures Shl1(30) == 0x4000_0000
    ensures Shl1(40) == 0x100_0000_0000
  {
    assert Shl1(5) == 32;
    Shl1Add(5, 5);
    Shl1Add(10, 10);
    Shl1Add(20, 10);
    Shl1Add(30, 10);
  }

  /**
   * The shift a non-digit character stands for: 0 for a space, a tab, 'b'
   * or 'B', 10, 20, 30 and 40 for k, m, g and t in either case, and `None`
   * for every other character.
   */
  function UnitShift(c: char): Option<nat> {
    if c == ' ' || c == '\t' || c == 'b' || c == 'B' then Some(0)
    else if c == 'k' || c == 'K' then Some(10)
    else if c == 'm' || c == 'M' then Some(20)
    else if c == 'g' || c == 'G' then Some(30)
    else if c == 't' || c == 'T' then Some(40)
    else None
  }

  /** A character that makes the text invalid. */
  predicate IsInvalid(c: char) {
    !IsDigit(c) && UnitShift(c).None?
  }

  /**
   * The effect of character `c` on the size read so far: a digit is
   * appended, a unit multiplies by its factor (`StepShift` relates the
   * factors to the shifts), any other character is an error.
   */
  function Step(size: int, c: char): Option<int> {
    if IsDigit(c) then Some(10 * size + DigitValue(c))
    else if c == ' ' || c == '\t' || c == 'b' || c == 'B' then Some(size)
    else if c == 'k' || c == 'K' then Some(size * 0x400)
    else if c == 'm' || c == 'M' then Some(size * 0x10_0000)
    else if c == 'g' || c == 'G' then Some(size * 0x4000_0000)
    else if c == 't' || c == 'T' then Some(size * 0x100_0000_0000)
    else None
  }

  /** A non-digit multiplies the size by `1 << shift` for its shift, and is an error when it has none. */
  lemma StepShift(size: int, c: char)
    requires !IsDigit(c)
    ensures Step(size, c) == if UnitShift(c).None? then None else Some(size * Shl1(UnitShift(c).value))
  {
    UnitFactors();
  }

  /** The size `t` denotes once trimmed: its characters applied from left to right, starting at 0. */
  function MemSizeOf(t: string): Option<int>
    decreases |t|
  {
    if t == [] then Some(0)
    else
      var prefix := MemSizeOf(t[..|t| - 1]);
      if prefix.None? then None else Step(prefix.value, t[|t| - 1])
  }

  /** `parse_mem_size`: `None` for the empty text, otherwise the size of the trimmed text. */
  function MemSize(s: string): Option<int> {
    if s == [] then None else MemSizeOf(Trim(s))
  }

  /** `parse_mem_size`, with its loop over the characters of the trimmed text. */
  method ParseMemSize(s: string) returns (result: Option<int>)
    ensures result == MemSize(s)
  {
    if s == [] {
      return None;
    }
    var t := Trim(s);
    var size := 0;
    var i := 0;
    while i < |t|
      invariant 0 <= i <= |t|
      invariant MemSizeOf(t[..i]) == Some(size)
      decreases |t| - i
    {
      var c := t[i];
      if IsDigit(c) {
        AdvanceDigit(t, i, size);
        size := 10 * size + DigitValue(c);
        i := i + 1;
        continue;
      }
      var shift: nat;
      if c == ' ' || c == '\t' || c == 'b' || c == 'B' {
        shift := 0;
      } else if c == 'k' || c == 'K' {
        shift := 10;
      } else if c == 'm' || c == 'M' {
        shift := 20;
      } else if c == 'g' || c == 'G' {
        shift := 30;
      } else if c == 't' || c == 'T' {
        shift := 40;
      } else {
        InvalidAt(t, i);
        return None;
      }
      AdvanceUnit(t, i, size, shift);
      size := size * Shl1(shift);
      i := i + 1;
    }
    assert t[..i] == t;
    return Some(size);
  }

  // ---------------------------------------------------------------------------
  // Properties

  /** Reading one more character of `t` is one more `Step`. */
  lemma MemSizeOfSnoc(t: string, i: nat)
    requires i < |t|
    ensures MemSizeOf(t[..i + 1]) ==
      if MemSizeOf(t[..i]).None? then None else Step(MemSizeOf(t[..i]).value, t[i])
  {
    assert t[..i + 1][..i] == t[..i];
  }

  /** The loop's invariant carries over one character whose `Step` gives `next`. */
  lemma Advance(t: string, i: nat, size: int, next: int)
    requires i < |t| && MemSizeOf(t[..i]) == Some(size) && Step(size, t[i]) == Some(next)
    ensures MemSizeOf(t[..i + 1]) == Some(next)
  {
    MemSizeOfSnoc(t, i);
  }

  /** The loop's invariant carries over one digit. */
  lemma AdvanceDigit(t: string, i: nat, size: int)
    requires i < |t| && MemSizeOf(t[..i]) == Some(size) && IsDigit(t[i])
    ensures MemSizeOf(t[..i + 1]) == Some(10 * size + DigitValue(t[i]))
  {
    Advance(t, i, size, 10 * size + DigitValue(t[i]));
  }

  /** The loop's invariant carries over one unit character of shift `shift`. */
  lemma AdvanceUnit(t: string, i: nat, size: int, shift: nat)
    requires i < |t| && MemSizeOf(t[..i]) == Some(size)
    requires !IsDigit(t[i]) && UnitShift(t[i]) == Some(shift)
    ensures MemSizeOf(t[..i + 1]) == Some(size * Shl1(shift))
  {
    StepShift(size, t[i]);
    Advance(t, i, size, size * Shl1(shift));
  }

  /** Appending a character to `a` is one more `Step`. */
  lemma MemSizeOfAppend(a: string, c: char)
    ensures MemSizeOf(a + [c]) ==
      if MemSizeOf(a).None? then None else Step(MemSizeOf(a).value, c)
  {
    assert (a + [c])[..|a|] == a;
  }

  /** The text `a + [c] + b`, read up to the end of `b`'s prefix of length `n`. */
  lemma AroundPrefix(a: string, c: char, b: string)
    requires b != []
    ensures (a + [c] + b)[..|a + [c] + b| - 1] == a + [c] + b[..|b| - 1]
    ensures (a + [c] + b)[|a + [c] + b| - 1] == b[|b| - 1]
  {
  }

  /** A character that is neither a digit nor a unit makes any text holding it invalid. */
  lemma {:induction false} InvalidCharRejects(a: string, c: char, b: string)
    requires IsInvalid(c)
    ensures MemSizeOf(a + [c] + b) == None
    decreases |b|
  {
    if b == [] {
      assert a + [c] + b == a + [c];
      assert (a + [c])[..|a|] == a;
    } else {
      AroundPrefix(a, c, b);
      InvalidCharRejects(a, c, b[..|b| - 1]);
    }
  }

  /** Character `i` of `t` is neither a digit nor a unit, so `t` is invalid. */
  lemma InvalidAt(t: string, i: nat)
    requires i < |t| && IsInvalid(t[i])
    ensures MemSizeOf(t) == None
  {
    InvalidCharRejects(t[..i], t[i], t[i + 1..]);
    assert t[..i] + [t[i]] + t[i + 1..] == t;
  }

  /** A text is invalid exactly when one of its characters is neither a digit nor a unit. */
  lemma {:induction false} MemSizeOfNoneIff(t: string)
    ensures MemSizeOf(t).None? <==> exists i :: 0 <= i < |t| && IsInvalid(t[i])
    decreases |t|
  {
    if t != [] {
      var p := t[..|t| - 1];
      MemSizeOfNoneIff(p);
      if exists i :: 0 <= i < |p| && IsInvalid(p[i]) {
        var i :| 0 <= i < |p| && IsInvalid(p[i]);
        assert IsInvalid(t[i]);
      } else {
        assert forall i :: 0 <= i < |p| ==> !IsInvalid(t[i]) by {
          forall i | 0 <= i < |p| ensures !IsInvalid(t[i]) {
            assert p[i] == t[i];
          }
        }
      }
    }
  }

  /** A string of digits denotes its decimal value. */
  lemma {:induction false} MemSizeOfDigits(d: string)
    requires AllDigits(d)
    ensures MemSizeOf(d) == Some(DecimalValue(d))
    decreases |d|
  {
    if d != [] {
      var p := d[..|d| - 1];
      assert AllDigits(p) by {
        forall k | 0 <= k < |p| ensures IsDigit(p[k]) {
          assert p[k] == d[k];
        }
      }
      MemSizeOfDigits(p);
    }
  }

  /** A non-empty string of digits parses as its decimal value. */
  lemma MemSizeDigits(d: string)
    requires d != [] && AllDigits(d)
    ensures MemSize(d) == Some(DecimalValue(d))
  {
    TrimNoOp(d);
    MemSizeOfDigits(d);
  }

  /**
   * The emptiness check comes before trimming: the empty text has no size,
   * while a non-empty text of whitespace only has size 0.
   */
  lemma MemSizeBlank(s: string)
    requires AllWhitespace(s)
    ensures MemSize(s) == if s == [] then None else Some(0)
  {
    TrimBounds(s);
  }

  /**
   * Two characters that are both non-digits with the same shift are
   * interchangeable anywhere in the text; in particular upper and lower
   * case unit letters give the same size.
   */
  lemma {:induction false} SameShiftSameSize(a: string, c: char, d: char, b: string)
    requires !IsDigit(c) && !IsDigit(d) && UnitShift(c) == UnitShift(d)
    ensures MemSizeOf(a + [c] + b) == MemSizeOf(a + [d] + b)
    decreases |b|
  {
    if b == [] {
      assert a + [c] + b == a + [c];
      assert a + [d] + b == a + [d];
      MemSizeOfAppend(a, c);
      MemSizeOfAppend(a, d);
      if MemSizeOf(a).Some? {
        StepShift(MemSizeOf(a).value, c);
        StepShift(MemSizeOf(a).value, d);
      }
    } else {
      AroundPrefix(a, c, b);
      AroundPrefix(a, d, b);
      SameShiftSameSize(a, c, d, b[..|b| - 1]);
    }
  }

  /** Each unit letter has the same shift in either case. */
  lemma UnitCaseInsensitive(c: char)
    requires c in {'b', 'k', 'm', 'g', 't'}
    ensures var upper := (c as int - 32) as char;
      !IsDigit(c) && !IsDigit(upper) && UnitShift(c) == UnitShift(upper) && UnitShift(c).Some?
  {
  }

  /** Reading one character after `a`, which denotes `v`. */
  lemma Then(a: string, v: int, c: char)
    requires MemSizeOf(a) == Some(v)
    ensures MemSizeOf(a + [c]) == Step(v, c)
  {
    MemSizeOfAppend(a, c);
  }

  /** The empty text has no size. */
  lemma EmptyExample()
    ensures MemSize("") == None
  {
  }

  /** "16" is sixteen. */
  lemma SixteenExample()
    ensures MemSize("16") == Some(16)
  {
    TrimNoOp("16");
    Then("", 0, '1');
    Then("1", 1, '6');
    assert "1" + ['6'] == "16";
  }

  /** Trailing whitespace, a newline included, is trimmed away. */
  lemma SixteenTrailingExample()
    ensures MemSize("16 \t\n") == Some(16)
  {
    assert Trim("16 \t\n") == "16" by {
      TrimEndWhitespace("16 \t", '\n');
      assert "16 \t" + ['\n'] == "16 \t\n";
      TrimEndWhitespace("16 ", '\t');
      assert "16 " + ['\t'] == "16 \t";
      TrimEndWhitespace("16", ' ');
      assert "16" + [' '] == "16 ";
      TrimNoOp("16");
    }
    SixteenExample();
  }

  /** "4k" is four kibibytes. */
  lemma FourKExample()
    ensures MemSize("4k") == Some(4096)
  {
    TrimNoOp("4k");
    Then("", 0, '4');
    Then("4", 4, 'k');
    assert "4" + ['k'] == "4k";
  }

  /** "4 K": a space multiplies by one, and K is k. */
  lemma FourSpaceKExample()
    ensures MemSize("4 K") == Some(4096)
  {
    TrimNoOp("4 K");
    Then("", 0, '4');
    Then("4", 4, ' ');
    assert "4" + [' '] == "4 ";
    Then("4 ", 4, 'K');
    assert "4 " + ['K'] == "4 K";
  }

  /** "4M" is four mebibytes. */
  lemma FourMExample()
    ensures MemSize("4M") == Some(4194304)
  {
    TrimNoOp("4M");
    Then("", 0, '4');
    Then("4", 4, 'M');
    assert "4" + ['M'] == "4M";
  }

  /** Leading whitespace is trimmed away, inner spaces multiply by one. */
  lemma SpaceFourSpaceMExample()
    ensures MemSize(" 4 M") == Some(4194304)
  {
    TrimStartSpaceFourSpaceM();
    assert TrimEnd("4 M") == "4 M";
    FourSpaceMExample();
  }

  /** `trim_start` drops the leading space of " 4 M". */
  lemma TrimStartSpaceFourSpaceM()
    ensures TrimStart(" 4 M") == "4 M"
  {
    assert " 4 M"[1..] == "4 M";
  }

  /** "4 M": a space multiplies by one. */
  lemma FourSpaceMExample()
    ensures MemSizeOf("4 M") == Some(4194304)
  {
    Then("", 0, '4');
    Then("4", 4, ' ');
    assert "4" + [' '] == "4 ";
    Then("4 ", 4, 'M');
    assert "4 " + ['M'] == "4 M";
  }

  /** A unit scales the value read so far, and later digits keep accumulating. */
  lemma KiloThenDigitExample()
    ensures MemSize("1k1") == Some(10241)
  {
    TrimNoOp("1k1");
    Then("", 0, '1');
    Then("1", 1, 'k');
    assert "1" + ['k'] == "1k";
    Then("1k", 1024, '1');
    assert "1k" + ['1'] == "1k1";
  }

  /** Two units multiply. */
  lemma KiloKiloExample()
    ensures MemSize("1kk") == Some(1024 * 1024)
  {
    TrimNoOp("1kk");
    Then("", 0, '1');
    Then("1", 1, 'k');
    assert "1" + ['k'] == "1k";
    Then("1k", 1024, 'k');
    assert "1k" + ['k'] == "1kk";
  }

  /** An unknown unit gives no size. */
  lemma UnknownUnitExample()
    ensures MemSize("4x") == None
  {
    TrimNoOp("4x");
    InvalidAt("4x", 1);
  }

  /** A decimal point gives no size. */
  lemma DecimalPointExample()
    ensures MemSize("1.5G") == None
  {
    TrimNoOp("1.5G");
    InvalidAt("1.5G", 1);
  }

  /** A newline inside the text gives no size. */
  lemma InnerNewlineExample()
    ensures MemSize("1\n2") == None
  {
    TrimNoOp("1\n2");
    InvalidAt("1\n2", 1);
  }
}
