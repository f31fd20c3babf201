/** Byte buffers and the searches and trims that the parsers of the repository use. */
module Bytes {

  type Byte = b: int | 0 <= b < 256
  type Bytes = seq<Byte>

  const CR: Byte := 13
  const LF: Byte := 10
  const CRLF: Bytes := [13, 10]
  const HEADER_END: Bytes := [13, 10, 13, 10]

  predicate MatchAt(s: Bytes, pattern: Bytes, i: int) {
    0 <= i && i + |pattern| <= |s| && s[i..i + |pattern|] == pattern
  }

  /** A pattern does not match where its first byte does not stand. */
  lemma NoMatchAt(s: Bytes, pattern: Bytes, i: nat)
    requires |pattern| > 0 && i < |s| && s[i] != pattern[0]
    ensures !MatchAt(s, pattern, i)
  {
    if i + |pattern| <= |s| {
      assert s[i..i + |pattern|][0] == s[i];
    }
  }

  /** `Buffer.indexOf`: the first match at or after `from`, or -1. */
  function IndexOf(s: Bytes, pattern: Bytes, from: nat): (r: int)
    requires |pattern| > 0
    ensures r == -1 || r >= from
    ensures r == -1 ==> forall i :: from <= i ==> !MatchAt(s, pattern, i)
    ensures r != -1 ==> MatchAt(s, pattern, r) && forall i :: from <= i < r ==> !MatchAt(s, pattern, i)
    decreases |s| - from
  {
    if from + |pattern| > |s| then -1
    else if MatchAt(s, pattern, from) then from
    else IndexOf(s, pattern, from + 1)
  }

  /** The first match from the start of a buffer. */
  function Find(s: Bytes, pattern: Bytes): (r: int)
    requires |pattern| > 0
    ensures r == -1 || (r >= 0 && MatchAt(s, pattern, r))
  {
    IndexOf(s, pattern, 0)
  }

  /** A position is the first match exactly when it matches and nothing before it does. */
  lemma FindIs(s: Bytes, pattern: Bytes, k: nat)
    requires |pattern| > 0 && MatchAt(s, pattern, k)
    requires forall i :: 0 <= i < k ==> !MatchAt(s, pattern, i)
    ensures Find(s, pattern) == k
  {
  }

  lemma MatchShift(s: Bytes, pattern: Bytes, from: nat, i: nat)
    requires from <= |s|
    ensures MatchAt(s[from..], pattern, i) == MatchAt(s, pattern, from + i)
  {
    if i + |pattern| <= |s| - from {
      assert s[from..][i..i + |pattern|] == s[from + i..from + i + |pattern|];
    }
  }

  lemma {:induction false} IndexOfSuffix(s: Bytes, pattern: Bytes, from: nat, i: nat)
    requires |pattern| > 0 && from <= |s|
    ensures var r := IndexOf(s[from..], pattern, i);
            IndexOf(s, pattern, from + i) == if r == -1 then -1 else from + r
    decreases |s| - i
  {
    hide MatchAt;
    if from + i + |pattern| <= |s| {
      MatchShift(s, pattern, from, i);
      IndexOfSuffix(s, pattern, from, i + 1);
    }
  }

  /** Searching from an offset is searching the rest of the buffer. */
  lemma IndexOfShift(s: Bytes, pattern: Bytes, from: nat)
    requires |pattern| > 0 && from <= |s|
    ensures var r := Find(s[from..], pattern);
            IndexOf(s, pattern, from) == if r == -1 then -1 else from + r
  {
    hide IndexOf, MatchAt;
    IndexOfSuffix(s, pattern, from, 0);
  }

  /** Appending bytes never moves a match, and never creates one inside the old bytes. */
  lemma FindAppend(a: Bytes, b: Bytes, pattern: Bytes)
    requires |pattern| > 0
    ensures Find(a, pattern) != -1 ==> Find(a + b, pattern) == Find(a, pattern)
    ensures Find(a, pattern) == -1 && Find(a + b, pattern) != -1 ==> Find(a + b, pattern) + |pattern| > |a|
  {
    forall i | 0 <= i && i + |pattern| <= |a|
      ensures MatchAt(a + b, pattern, i) == MatchAt(a, pattern, i)
    {
      assert (a + b)[i..i + |pattern|] == a[i..i + |pattern|];
    }
    if Find(a, pattern) != -1 {
      FindIs(a + b, pattern, Find(a, pattern));
    }
  }

  predicate IsOptionalWhitespace(b: Byte) {
    b == 32 || b == 9
  }

  function TrimLeft(s: Bytes): (r: Bytes)
    ensures |r| <= |s| && r == s[|s| - |r|..]
    ensures r == [] || !IsOptionalWhitespace(r[0])
  {
    if s != [] && IsOptionalWhitespace(s[0]) then TrimLeft(s[1..]) else s
  }

  function TrimRight(s: Bytes): (r: Bytes)
    ensures |r| <= |s| && r == s[..|r|]
    ensures r == [] || !IsOptionalWhitespace(r[|r| - 1])
  {
    if s != [] && IsOptionalWhitespace(s[|s| - 1]) then TrimRight(s[..|s| - 1]) else s
  }

  /** Optional whitespace removed on both sides. */
  function Trim(s: Bytes): Bytes {
    TrimRight(TrimLeft(s))
  }

  predicate AllWhitespace(s: Bytes) {
    forall i :: 0 <= i < |s| ==> IsOptionalWhitespace(s[i])
  }

  /** Whitespace around a text that has none at its ends is exactly what trimming removes. */
  lemma TrimPadded(left: Bytes, core: Bytes, right: Bytes)
    requires AllWhitespace(left) && AllWhitespace(right)
    requires core != [] ==> !IsOptionalWhitespace(core[0]) && !IsOptionalWhitespace(core[|core| - 1])
    ensures Trim(left + core + right) == core
  {
    hide TrimLeft, TrimRight;
    if core == [] {
      TrimAllWhitespace(left + right);
      assert left + core + right == left + right;
    } else {
      TrimLeftPadded(left, core + right);
      assert left + core + right == left + (core + right);
      TrimRightPadded(core, right);
    }
  }

  lemma {:induction false} TrimAllWhitespace(s: Bytes)
    requires AllWhitespace(s)
    ensures TrimLeft(s) == [] && Trim(s) == []
  {
    if s != [] {
      TrimAllWhitespace(s[1..]);
    }
  }

  lemma TrimLeftOnce(s: Bytes)
    requires s != [] && IsOptionalWhitespace(s[0])
    ensures TrimLeft(s) == TrimLeft(s[1..])
  {
  }

  lemma {:induction false} TrimLeftPadded(left: Bytes, s: Bytes)
    requires AllWhitespace(left)
    requires s != [] ==> !IsOptionalWhitespace(s[0])
    ensures TrimLeft(left + s) == s
  {
    if left == [] {
      assert left + s == s;
    } else {
      hide TrimLeft, IsOptionalWhitespace;
      TrimLeftPadded(left[1..], s);
      assert (left + s)[0] == left[0] && (left + s)[1..] == left[1..] + s;
      TrimLeftOnce(left + s);
    }
  }

  lemma {:induction false} TrimRightPadded(s: Bytes, right: Bytes)
    requires AllWhitespace(right)
    requires s != [] ==> !IsOptionalWhitespace(s[|s| - 1])
    ensures TrimRight(s + right) == s
  {
    if right == [] {
      assert s + right == s;
    } else {
      var front := right[..|right| - 1];
      TrimRightPadded(s, front);
      assert (s + right)[..|s + right| - 1] == s + front;
    }
  }

  /** What trimming removes are spaces and tabs, and what it leaves has none at its ends. */
  lemma TrimSplits(s: Bytes) returns (left: Bytes, right: Bytes)
    ensures AllWhitespace(left) && AllWhitespace(right) && s == left + Trim(s) + right
    ensures forall b :: b in left + right ==> b == ' ' as int || b == '\t' as int
    ensures Trim(s) != [] ==> !IsOptionalWhitespace(Trim(s)[0]) && !IsOptionalWhitespace(Trim(s)[|Trim(s)| - 1])
    ensures Trim(s) != [] ==> Trim(s)[0] !in [32, 9] && Trim(s)[|Trim(s)| - 1] !in [32, 9]
  {
    hide TrimLeft, TrimRight;
    var middle := TrimLeft(s);
    left, right := s[..|s| - |middle|], middle[|TrimRight(middle)|..];
    TrimLeftRemoves(s);
    TrimRightRemoves(middle);
  }

  lemma {:induction false} TrimLeftRemoves(s: Bytes)
    ensures AllWhitespace(s[..|s| - |TrimLeft(s)|])
  {
    if s != [] && IsOptionalWhitespace(s[0]) {
      TrimLeftRemoves(s[1..]);
      assert s[..|s| - |TrimLeft(s)|] == [s[0]] + s[1..][..|s| - 1 - |TrimLeft(s)|];
    }
  }

  lemma {:induction false} TrimRightRemoves(s: Bytes)
    ensures AllWhitespace(s[|TrimRight(s)|..])
  {
    if s != [] && IsOptionalWhitespace(s[|s| - 1]) {
      var front := s[..|s| - 1];
      TrimRightRemoves(front);
      assert s[|TrimRight(s)|..] == front[|TrimRight(front)|..] + [s[|s| - 1]];
    }
  }

  /** A byte that is no whitespace keeps what is on its other side from being trimmed. */
  lemma {:induction false} TrimLeftUpTo(a: Bytes, b: Byte, rest: Bytes)
    requires !IsOptionalWhitespace(b)
    ensures TrimLeft(a + [b] + rest) == TrimLeft(a) + [b] + rest
  {
    var s := a + [b] + rest;
    if a != [] {
      assert s[1..] == a[1..] + [b] + rest;
      if IsOptionalWhitespace(a[0]) {
        TrimLeftUpTo(a[1..], b, rest);
      }
    }
  }

  lemma {:induction false} TrimRightDownTo(front: Bytes, b: Byte, rest: Bytes)
    requires !IsOptionalWhitespace(b)
    ensures TrimRight(front + [b] + rest) == front + [b] + TrimRight(rest)
  {
    var s := front + [b] + rest;
    if rest != [] {
      assert s[..|s| - 1] == front + [b] + rest[..|rest| - 1];
      if IsOptionalWhitespace(rest[|rest| - 1]) {
        TrimRightDownTo(front, b, rest[..|rest| - 1]);
      }
    }
  }

  /** The text cut at every separator; a text without one is its only part. */
  function Split(s: Bytes, separator: Byte): (parts: seq<Bytes>)
    ensures |parts| > 0
  {
    var k := Find(s, [separator]);
    if k == -1 then [s] else [s[..k]] + Split(s[k + 1..], separator)
  }

  function Join(parts: seq<Bytes>, separator: Byte): Bytes {
    if parts == [] then []
    else if |parts| == 1 then parts[0]
    else parts[0] + [separator] + Join(parts[1..], separator)
  }

  /** Cutting loses nothing and no part keeps a separator. */
  lemma {:induction false} SplitJoin(s: Bytes, separator: Byte)
    ensures Join(Split(s, separator), separator) == s
    ensures forall i :: 0 <= i < |Split(s, separator)| ==> separator !in Split(s, separator)[i]
  {
    var k := Find(s, [separator]);
    NoSeparatorBefore(s, separator);
    if k != -1 {
      SplitJoin(s[k + 1..], separator);
      assert s[k] == [separator][0];
      assert s == s[..k] + [separator] + s[k + 1..];
    }
  }

  lemma NoSeparatorBefore(s: Bytes, separator: Byte)
    ensures var k := Find(s, [separator]);
            separator !in s[..if k == -1 then |s| else k]
  {
    var k := Find(s, [separator]);
    forall i | 0 <= i < if k == -1 then |s| else k
      ensures s[i] != separator
    {
      assert !MatchAt(s, [separator], i);
      assert s[i..i + 1] == [s[i]];
    }
  }

  /** The first occurrence of a byte that a text does not contain is the one right after it. */
  lemma FindAfter(text: Bytes, b: Byte, rest: Bytes)
    requires b !in text
    requires rest == [] || rest[0] == b
    ensures Find(text + rest, [b]) == if rest == [] then -1 else |text|
  {
    var line := text + rest;
    forall i | 0 <= i < |text|
      ensures !MatchAt(line, [b], i)
    {
      assert line[i..i + 1] == [text[i]];
    }
    if rest != [] {
      assert line[|text|..|text| + 1] == [rest[0]];
      FindIs(line, [b], |text|);
    }
  }

  /** Parts without separators are what cutting their join gives back. */
  lemma {:induction false} JoinSplit(parts: seq<Bytes>, separator: Byte)
    requires parts != []
    requires forall i :: 0 <= i < |parts| ==> separator !in parts[i]
    ensures Split(Join(parts, separator), separator) == parts
  {
    hide IndexOf, Find;
    var s := Join(parts, separator);
    if |parts| == 1 {
      FindAfter(parts[0], separator, []);
      assert parts[0] + [] == parts[0];
    } else {
      JoinSplit(parts[1..], separator);
      var tail := [separator] + Join(parts[1..], separator);
      FindAfter(parts[0], separator, tail);
      assert s == parts[0] + tail;
      assert s[|parts[0]| + 1..] == Join(parts[1..], separator);
    }
  }

  /** The last part is the text after the last separator. */
  lemma {:induction false} SplitLast(a: Bytes, separator: Byte, b: Bytes)
    requires separator !in b
    ensures var parts := Split(a + [separator] + b, separator); parts[|parts| - 1] == b
    decreases |a|
  {
    hide IndexOf;
    var s := a + [separator] + b;
    assert s[|a|..|a| + 1] == [separator];
    assert MatchAt(s, [separator], |a|);
    var k := Find(s, [separator]);
    assert k != -1 && k <= |a|;
    if k == |a| {
      assert s[k + 1..] == b;
      FindAfter(b, separator, []);
      assert b + [] == b;
    } else {
      assert s[k + 1..] == a[k + 1..] + [separator] + b;
      SplitLast(a[k + 1..], separator, b);
    }
  }

  function ToLower(b: Byte): Byte {
    if 65 <= b <= 90 then b + 32 else b
  }

  predicate EqualsIgnoreCase(s: Bytes, expected: Bytes) {
    |s| == |expected| && forall i :: 0 <= i < |s| ==> ToLower(s[i]) == expected[i]
  }
}
