/** Exactly which texts are lengths: the reference definitions are unbounded numerals. */
module LengthTexts {
  import opened Basics
  import opened Bytes
  import opened ResponseHeaders

  /** The number a digit string denotes, with no bound. */
  function Numeral(digits: Bytes, base: nat): nat
    requires base == 10 || base == 16
  {
    if digits == [] then 0
    else
      var d := HexDigit(digits[|digits| - 1]);
      Numeral(digits[..|digits| - 1], base) * base + if d < 0 then 0 else d
  }

  /** The digits are the ASCII ones, letters in either case, and nothing else is a digit. */
  lemma DigitsAre(b: Byte, d: nat)
    requires d < 16
    ensures HexDigit(b) == d <==> b == "0123456789abcdef"[d] as int || b == "0123456789ABCDEF"[d] as int
    ensures HexDigit(b) == -1 || 0 <= HexDigit(b) < 16
    ensures IsDigit(b) <==> '0' as int <= b <= '9' as int
    ensures IsDigit(b) ==> Digit(b) == HexDigit(b) == b - '0' as int
  {
  }

  /** The safe integers end at 2^53 - 1. */
  lemma SafeIntegers()
    ensures MAX_SAFE_INTEGER == 9007199254740991
  {
  }

  predicate AllDigits(s: Bytes) {
    forall i :: 0 <= i < |s| ==> IsDigit(s[i])
  }

  predicate AllHexDigits(s: Bytes) {
    forall i :: 0 <= i < |s| ==> HexDigit(s[i]) != -1
  }

  /** Decimal digits without a leading zero. */
  predicate IsDecimal(s: Bytes) {
    s != [] && AllDigits(s) && (s[0] == 48 ==> |s| == 1)
  }

  /** `seen` followed by the digits of `s`. */
  function Continue(seen: nat, s: Bytes, base: nat): nat
    requires base == 10 || base == 16
    decreases |s|
  {
    if s == [] then seen
    else Continue(seen * base + (if HexDigit(s[0]) < 0 then 0 else HexDigit(s[0])), s[1..], base)
  }

  lemma {:induction false} ContinueGrows(seen: nat, s: Bytes, base: nat)
    requires base == 10 || base == 16
    ensures Continue(seen, s, base) >= seen
    decreases |s|
  {
    if s != [] {
      var d := if HexDigit(s[0]) < 0 then 0 else HexDigit(s[0]);
      ContinueGrows(seen * base + d, s[1..], base);
      assert seen * base >= seen;
    }
  }

  lemma {:induction false} ContinueAppend(seen: nat, s: Bytes, last: Byte, base: nat)
    requires base == 10 || base == 16
    ensures Continue(seen, s + [last], base)
         == Continue(seen, s, base) * base + if HexDigit(last) < 0 then 0 else HexDigit(last)
    decreases |s|
  {
    if s == [] {
      assert s + [last] == [last];
      assert [last][1..] == [];
    } else {
      assert (s + [last])[1..] == s[1..] + [last];
      ContinueAppend(seen * base + (if HexDigit(s[0]) < 0 then 0 else HexDigit(s[0])), s[1..], last, base);
    }
  }

  /** Reading left to right denotes the numeral. */
  lemma {:induction false} ContinueIsNumeral(s: Bytes, base: nat)
    requires base == 10 || base == 16
    ensures Continue(0, s, base) == Numeral(s, base)
  {
    if s != [] {
      var front := s[..|s| - 1];
      ContinueIsNumeral(front, base);
      ContinueAppend(0, front, s[|s| - 1], base);
      assert s == front + [s[|s| - 1]];
    }
  }

  /** No step leaves the safe integers unless the whole number does. */
  lemma {:induction false} ReadDecimalExact(s: Bytes, seen: nat)
    requires seen <= MAX_SAFE_INTEGER
    ensures ReadDecimal(s, seen)
         == if AllDigits(s) && Continue(seen, s, 10) <= MAX_SAFE_INTEGER then Some(Continue(seen, s, 10)) else None
  {
    if s != [] {
      if IsDigit(s[0]) {
        var next := seen * 10 + (s[0] - 48);
        ContinueGrows(next, s[1..], 10);
        if next <= MAX_SAFE_INTEGER {
          ReadDecimalExact(s[1..], next);
        }
        assert AllDigits(s) <==> AllDigits(s[1..]) by {
          assert s == [s[0]] + s[1..];
        }
      }
    }
  }

  /** Which of the two errors a bad size gets: a bad digit first, unless the prefix already overflows. */
  lemma {:induction false} ReadHexExact(s: Bytes, seen: nat)
    requires seen <= MAX_SAFE_INTEGER
    ensures ReadHex(s, seen).Ok? <==> AllHexDigits(s) && Continue(seen, s, 16) <= MAX_SAFE_INTEGER
    ensures ReadHex(s, seen).Ok? ==> ReadHex(s, seen).value == Continue(seen, s, 16)
    ensures AllHexDigits(s) && Continue(seen, s, 16) > MAX_SAFE_INTEGER ==> ReadHex(s, seen) == Err(UnsafeChunkSize)
  {
    if s != [] {
      var d := HexDigit(s[0]);
      if d != -1 {
        var next := seen * 16 + d;
        ContinueGrows(next, s[1..], 16);
        if next <= MAX_SAFE_INTEGER {
          ReadHexExact(s[1..], next);
        }
        assert AllHexDigits(s) <==> AllHexDigits(s[1..]) by {
          assert s == [s[0]] + s[1..];
        }
      }
    }
  }

  predicate IsLength(text: Bytes, n: nat) {
    IsDecimal(text) && Numeral(text, 10) == n && n <= MAX_SAFE_INTEGER
  }

  lemma ReadLengthExact(text: Bytes, n: nat)
    ensures ReadLength(text) == Some(n) <==> IsLength(text, n)
  {
    ReadDecimalExact(text, 0);
    ContinueIsNumeral(text, 10);
  }

  /** Every member, trimmed, is a decimal that denotes the safe integer `n`. */
  predicate AllAre(parts: seq<Bytes>, n: nat) {
    forall i :: 0 <= i < |parts| ==> IsLength(Trim(parts[i]), n)
  }

  lemma {:induction false} CombineExact(parts: seq<Bytes>, previous: Option<nat>, n: nat)
    requires parts != []
    ensures CombineLengths(parts, previous) == Some(n)
       <==> (previous == None || previous == Some(n)) && AllAre(parts, n)
  {
    hide Numeral, ReadDecimal, IsLength, IsDecimal, Trim, TrimLeft, TrimRight;
    var first := ReadLength(Trim(parts[0]));
    ReadLengthExact(Trim(parts[0]), n);
    if first.Some? {
      ReadLengthExact(Trim(parts[0]), first.value);
      if |parts| > 1 {
        CombineExact(parts[1..], first, n);
        assert parts == [parts[0]] + parts[1..];
      }
    }
  }

  /**
    * A Content-Length value is accepted exactly when every member of its comma list is a decimal without
    * leading zeros and all of them denote one safe integer, the same as the earlier header's if any.
    */
  lemma ContentLengthExact(value: Bytes, previous: Option<nat>, n: nat)
    ensures ParseContentLength(value, previous) == Ok(n)
       <==> (previous == None || previous == Some(n)) && AllAre(Split(value, COMMA), n)
  {
    CombineExact(Split(value, COMMA), previous, n);
  }

  /** A chunk-size line is accepted exactly when its size text is hexadecimal and denotes a safe integer. */
  lemma ChunkSizeExact(line: Bytes, n: nat)
    ensures ParseChunkSize(line) == Ok(n)
       <==> var text := ChunkSizeText(line);
            text != [] && AllHexDigits(text) && Numeral(text, 16) == n && n <= MAX_SAFE_INTEGER
  {
    var text := ChunkSizeText(line);
    ReadHexExact(text, 0);
    ContinueIsNumeral(text, 16);
  }

  // ---------------------------------------------------------------- printing

  /** A digit of `base`, upper-case letters when asked. */
  function PrintDigit(d: nat, upper: bool): (b: Byte)
    requires d < 16
    ensures HexDigit(b) == d && !IsOptionalWhitespace(b) && b != COMMA && b != SEMICOLON && b != CR
    ensures d < 10 ==> IsDigit(b) && (b == 48 <==> d == 0)
  {
    if d < 10 then 48 + d else if upper then 55 + d else 87 + d
  }

  function Print(n: nat, base: nat, upper: bool): (s: Bytes)
    requires base == 10 || base == 16
    ensures s != []
    decreases n
  {
    (if n < base then [] else Print(n / base, base, upper)) + [PrintDigit(n % base, upper)]
  }

  lemma DivMod(n: nat, base: nat)
    requires base == 10 || base == 16
    ensures n == (n / base) * base + n % base && (n >= base ==> 0 < n / base < n)
  {
    if base == 10 {
      assert n == (n / 10) * 10 + n % 10;
    } else {
      assert n == (n / 16) * 16 + n % 16;
    }
  }

  /** Every byte of a printed number is a digit, none of them white space or a separator. */
  lemma {:induction false} PrintDigits(n: nat, base: nat, upper: bool)
    requires base == 10 || base == 16
    ensures forall b :: b in Print(n, base, upper) ==>
              HexDigit(b) != -1 && !IsOptionalWhitespace(b) && b != COMMA && b != SEMICOLON && b != CR
    ensures base == 10 ==> AllDigits(Print(n, base, upper))
    decreases n
  {
    hide HexDigit, PrintDigit;
    DivMod(n, base);
    if n >= base {
      PrintDigits(n / base, base, upper);
    }
  }

  /** A printed number denotes what was printed and has no leading zero. */
  lemma {:induction false} PrintDenotes(n: nat, base: nat, upper: bool)
    requires base == 10 || base == 16
    ensures Numeral(Print(n, base, upper), base) == n
    ensures n > 0 ==> HexDigit(Print(n, base, upper)[0]) != 0
    ensures n == 0 ==> |Print(n, base, upper)| == 1
    decreases n
  {
    hide HexDigit, PrintDigit, Numeral;
    var last := PrintDigit(n % base, upper);
    DivMod(n, base);
    if n < base {
      assert Print(n, base, upper) == [] + [last];
      NumeralGrows([], last, base);
      NumeralNone(base);
    } else {
      PrintDenotes(n / base, base, upper);
      var front := Print(n / base, base, upper);
      assert Print(n, base, upper) == front + [last];
      NumeralGrows(front, last, base);
      assert Numeral(front, base) * base == (n / base) * base;
    }
  }

  lemma NumeralNone(base: nat)
    requires base == 10 || base == 16
    ensures Numeral([], base) == 0
  {
  }

  lemma NumeralGrows(front: Bytes, last: Byte, base: nat)
    requires base == 10 || base == 16
    ensures Numeral(front + [last], base)
         == Numeral(front, base) * base + if HexDigit(last) < 0 then 0 else HexDigit(last)
  {
    assert (front + [last])[..|front|] == front;
    hide HexDigit;
  }

  lemma NumeralOne(s: Bytes, base: nat)
    requires |s| == 1 && (base == 10 || base == 16)
    ensures Numeral(s, base) == if HexDigit(s[0]) < 0 then 0 else HexDigit(s[0])
  {
    assert s[..0] == [];
  }

  /** A printed number reads back, in either base and either case of its letters. */
  lemma PrintReads(n: nat, base: nat, upper: bool)
    requires base == 10 || base == 16
    ensures Numeral(Print(n, base, upper), base) == n
    ensures AllHexDigits(Print(n, base, upper))
    ensures base == 10 ==> IsDecimal(Print(n, base, upper))
    ensures forall b :: b in Print(n, base, upper) ==>
              !IsOptionalWhitespace(b) && b != COMMA && b != SEMICOLON && b != CR
  {
    hide Print, Numeral;
    PrintDigits(n, base, upper);
    PrintDenotes(n, base, upper);
  }

  predicate IsHexNumeral(digits: Bytes, n: nat) {
    digits != [] && AllHexDigits(digits) && Numeral(digits, 16) == n
  }

  /** Any hexadecimal digits, with whitespace around them and an extension after them, read as what they denote. */
  lemma ChunkSizeReads(digits: Bytes, n: nat, left: Bytes, right: Bytes, extension: Bytes)
    requires IsHexNumeral(digits, n) && n <= MAX_SAFE_INTEGER
    requires AllWhitespace(left) && AllWhitespace(right)
    requires extension == [] || extension[0] == SEMICOLON
    ensures ParseChunkSize(left + digits + right + extension) == Ok(n)
  {
    hide ParseChunkSize, Numeral, TrimLeft, TrimRight, IndexOf;
    assert forall b: Byte :: HexDigit(b) != -1 ==> !IsOptionalWhitespace(b) && b != SEMICOLON;
    var padded := left + digits + right;
    assert SEMICOLON !in padded;
    FindAfter(padded, SEMICOLON, extension);
    assert (padded + extension)[..|padded|] == padded;
    assert extension == [] ==> padded + extension == padded;
    TrimPadded(left, digits, right);
    ChunkSizeExact(left + digits + right + extension, n);
  }

  /** A printed size, in either case, with whitespace around it and an extension after it, reads back. */
  lemma ChunkSizeRoundTrip(n: nat, upper: bool, left: Bytes, right: Bytes, extension: Bytes)
    requires n <= MAX_SAFE_INTEGER
    requires AllWhitespace(left) && AllWhitespace(right)
    requires extension == [] || extension[0] == SEMICOLON
    ensures ParseChunkSize(left + Print(n, 16, upper) + right + extension) == Ok(n)
  {
    hide ParseChunkSize, Numeral, Print;
    PrintReads(n, 16, upper);
    ChunkSizeReads(Print(n, 16, upper), n, left, right, extension);
  }

  /** Every size line that is accepted has this shape. */
  lemma ChunkSizeShape(line: Bytes, n: nat)
    returns (digits: Bytes, left: Bytes, right: Bytes, extension: Bytes)
    requires ParseChunkSize(line) == Ok(n)
    ensures IsHexNumeral(digits, n) && n <= MAX_SAFE_INTEGER
    ensures AllWhitespace(left) && AllWhitespace(right)
    ensures extension == [] || extension[0] == SEMICOLON
    ensures line == left + digits + right + extension
  {
    hide ParseChunkSize, Numeral, Trim, IndexOf;
    ChunkSizeExact(line, n);
    var k := Find(line, [SEMICOLON]);
    var padded := if k == -1 then line else line[..k];
    digits := Trim(padded);
    left, right := TrimSplits(padded);
    extension := line[|padded|..];
    if k != -1 {
      assert line[k..k + 1] == [SEMICOLON];
    }
  }

  /** The only decimal without leading zeros that denotes a number is the printed one. */
  lemma {:induction false} DecimalIsPrinted(text: Bytes, n: nat)
    requires IsDecimal(text) && Numeral(text, 10) == n
    ensures text == Print(n, 10, false)
    decreases |text|
  {
    hide PrintDigit, HexDigit, Print, Numeral;
    var front, last := text[..|text| - 1], text[|text| - 1];
    DecimalDigit(last);
    NumeralLast(front, last);
    assert text == front + [last];
    PrintLast(Numeral(front, 10), HexDigit(last));
    if front == [] {
      NumeralNone(10);
    } else {
      assert front[0] == text[0];
      DecimalIsPrinted(front, Numeral(front, 10));
      DecimalPositive(front);
    }
  }

  lemma NumeralLast(front: Bytes, last: Byte)
    requires IsDigit(last)
    ensures Numeral(front + [last], 10) == Numeral(front, 10) * 10 + HexDigit(last)
  {
    assert (front + [last])[..|front|] == front;
  }

  lemma PrintLast(m: nat, d: nat)
    requires d < 10
    ensures Print(m * 10 + d, 10, false) == (if m == 0 then [] else Print(m, 10, false)) + [PrintDigit(d, false)]
  {
    hide PrintDigit;
    var n := m * 10 + d;
    assert n / 10 == m && n % 10 == d && (n < 10 <==> m == 0);
  }

  lemma DecimalDigit(b: Byte)
    requires IsDigit(b)
    ensures 0 <= HexDigit(b) < 10 && PrintDigit(HexDigit(b), false) == b
  {
  }

  /** A numeral that does not begin with a zero is positive. */
  lemma {:induction false} DecimalPositive(s: Bytes)
    requires s != [] && AllDigits(s) && s[0] != 48
    ensures Numeral(s, 10) > 0
  {
    if |s| == 1 {
      NumeralOne(s, 10);
    } else {
      DecimalPositive(s[..|s| - 1]);
    }
  }
}
