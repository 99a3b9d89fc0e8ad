/** String operations of the JavaScript runtime that the directory relies on:
    `join`, `split` on one character, `trim`, ASCII lower-casing, substring
    search, decimal rendering of counts and `parseInt`. */
module Text {
  import opened Seqs

  /** The characters JavaScript's `trim` and `\s` treat as white space
      (WhiteSpace and LineTerminator of ECMAScript). */
  predicate IsWhitespace(c: char)
  {
    c == ' ' || c == '\t' || c == '\n' || c == '\r' || c == '\U{B}' || c == '\U{C}'
    || c == '\U{A0}' || c == '\U{1680}' || ('\U{2000}' <= c <= '\U{200A}')
    || c == '\U{2028}' || c == '\U{2029}' || c == '\U{202F}' || c == '\U{205F}'
    || c == '\U{3000}' || c == '\U{FEFF}'
  }

  predicate IsDigit(c: char) { '0' <= c <= '9' }

  /** JavaScript truthiness of a string: it is not empty. */
  predicate NonEmptyText(s: string) { s != "" }

  /** `parts.join(sep)`. */
  function Join(parts: seq<string>, sep: string): string
  {
    if parts == [] then ""
    else if |parts| == 1 then parts[0]
    else parts[0] + sep + Join(parts[1..], sep)
  }

  /** A character that occurs neither in the separator nor in any part does not occur in the join. */
  lemma {:induction false} JoinAvoids(parts: seq<string>, sep: string, c: char)
    requires c !in sep
    requires forall k :: 0 <= k < |parts| ==> c !in parts[k]
    ensures c !in Join(parts, sep)
  {
    if |parts| > 1 {
      JoinAvoids(parts[1..], sep, c);
    }
  }

  lemma JoinEmptyIff(parts: seq<string>, sep: string)
    requires sep != []
    ensures Join(parts, sep) == "" <==> parts == [] || parts == [""]
  {
    if |parts| > 1 {
      assert |Join(parts, sep)| >= |sep|;
    }
  }

  /** Every part occurs in the join. */
  lemma {:induction false} JoinContainsParts(parts: seq<string>, sep: string)
    ensures forall k :: 0 <= k < |parts| ==> Contains(Join(parts, sep), parts[k])
  {
    if |parts| == 1 {
      assert OccursAt(Join(parts, sep), parts[0], 0);
    } else if |parts| > 1 {
      var rest := Join(parts[1..], sep);
      var s := Join(parts, sep);
      var off := |parts[0]| + |sep|;
      assert s == parts[0] + sep + rest;
      assert OccursAt(s, parts[0], 0) by { assert s[..|parts[0]|] == parts[0]; }
      JoinContainsParts(parts[1..], sep);
      forall k | 1 <= k < |parts| ensures Contains(s, parts[k]) {
        assert parts[k] == parts[1..][k - 1];
        var i :| 0 <= i <= |rest| - |parts[k]| && OccursAt(rest, parts[k], i);
        assert s[off + i..off + i + |parts[k]|] == rest[i..i + |parts[k]|];
        assert OccursAt(s, parts[k], off + i);
      }
    }
  }

  /** The second piece of a concatenation occurs in it. */
  lemma ContainsSecond(a: string, b: string, c: string, d: string)
    ensures Contains(a + b + c + d, b)
  {
    assert (a + b + c + d)[|a|..|a| + |b|] == b;
    assert OccursAt(a + b + c + d, b, |a|);
  }

  /** Position of the first `c` in `s`. */
  function IndexOf(s: string, c: char): (i: nat)
    requires c in s
    ensures i < |s| && s[i] == c && c !in s[..i]
  {
    if s[0] == c then 0
    else
      assert c in s[1..] by { var k :| 0 <= k < |s| && s[k] == c; assert s[1..][k - 1] == c; }
      var j := IndexOf(s[1..], c);
      assert s[..j + 1] == [s[0]] + s[1..][..j];
      j + 1
  }

  /** `s.split(sep)` for a one-character separator. */
  function Split(s: string, sep: char): (r: seq<string>)
    ensures |r| >= 1
    ensures forall k :: 0 <= k < |r| ==> sep !in r[k]
    decreases |s|
  {
    if sep !in s then [s]
    else
      var i := IndexOf(s, sep);
      [s[..i]] + Split(s[i + 1..], sep)
  }

  /** Splitting loses nothing: joining the pieces with the separator gives the string back. */
  lemma {:induction false} JoinSplit(s: string, sep: char)
    ensures Join(Split(s, sep), [sep]) == s
    decreases |s|
  {
    if sep in s {
      var i := IndexOf(s, sep);
      var rest := Split(s[i + 1..], sep);
      JoinSplit(s[i + 1..], sep);
      assert Split(s, sep) == [s[..i]] + rest;
      assert ([s[..i]] + rest)[1..] == rest;
      assert s == s[..i] + [sep] + s[i + 1..];
    }
  }

  /** Splitting a join of separator-free pieces gives the pieces back. */
  lemma {:induction false} SplitJoin(parts: seq<string>, sep: char)
    requires |parts| >= 1
    requires forall k :: 0 <= k < |parts| ==> sep !in parts[k]
    ensures Split(Join(parts, [sep]), sep) == parts
  {
    if |parts| == 1 {
    } else {
      var j := Join(parts[1..], [sep]);
      var s := parts[0] + [sep] + j;
      assert s[|parts[0]|] == sep;
      var i := IndexOf(s, sep);
      assert i == |parts[0]|;
      assert s[..i] == parts[0];
      assert s[i + 1..] == j;
      SplitJoin(parts[1..], sep);
    }
  }

  /** The index of the first character at or after `i` that is not white space. */
  function SkipSpace(s: string, i: nat): (k: nat)
    requires i <= |s|
    ensures i <= k <= |s|
    ensures forall j :: i <= j < k ==> IsWhitespace(s[j])
    ensures k < |s| ==> !IsWhitespace(s[k])
    decreases |s| - i
  {
    if i < |s| && IsWhitespace(s[i]) then SkipSpace(s, i + 1) else i
  }

  /** The end of `s[lo..hi]` once its trailing white space is dropped. */
  function SkipSpaceBack(s: string, lo: nat, hi: nat): (k: nat)
    requires lo <= hi <= |s|
    ensures lo <= k <= hi
    ensures forall j :: k <= j < hi ==> IsWhitespace(s[j])
    ensures k > lo ==> !IsWhitespace(s[k - 1])
    decreases hi - lo
  {
    if hi > lo && IsWhitespace(s[hi - 1]) then SkipSpaceBack(s, lo, hi - 1) else hi
  }

  /** `s` without its leading white space. */
  function TrimStart(s: string): (r: string)
    ensures |r| <= |s| && r == s[|s| - |r|..]
    ensures forall i :: 0 <= i < |s| - |r| ==> IsWhitespace(s[i])
    ensures r != [] ==> !IsWhitespace(r[0])
  {
    s[SkipSpace(s, 0)..]
  }

  /** How many characters `trim` removes from the front of `s`. */
  function TrimOffset(s: string): nat
  {
    SkipSpace(s, 0)
  }

  /** `s.trim()`: the part of `s` between its leading and its trailing white space. */
  function Trim(s: string): (r: string)
    ensures TrimOffset(s) + |r| <= |s| && r == s[TrimOffset(s)..TrimOffset(s) + |r|]
    ensures forall i :: 0 <= i < TrimOffset(s) ==> IsWhitespace(s[i])
    ensures forall i :: TrimOffset(s) + |r| <= i < |s| ==> IsWhitespace(s[i])
    ensures r != [] ==> !IsWhitespace(r[0]) && !IsWhitespace(r[|r| - 1])
  {
    var k := SkipSpace(s, 0);
    s[k..SkipSpaceBack(s, k, |s|)]
  }

  /** A string is blank when nothing but white space remains after trimming. */
  lemma TrimEmptyIff(s: string)
    ensures Trim(s) == "" <==> forall i :: 0 <= i < |s| ==> IsWhitespace(s[i])
  {
    if Trim(s) != "" {
      assert Trim(s)[0] == s[TrimOffset(s)];
    }
  }

  function LowerChar(c: char): char
  {
    if 'A' <= c <= 'Z' then (c as int + 32) as char else c
  }

  /** `s.toLowerCase()` on the ASCII letters. */
  function ToLower(s: string): (r: string)
    ensures |r| == |s|
    ensures forall i :: 0 <= i < |s| ==> r[i] == LowerChar(s[i])
  {
    if s == [] then [] else [LowerChar(s[0])] + ToLower(s[1..])
  }

  /** `sub` occurs in `s` starting at position `i`. */
  predicate OccursAt(s: string, sub: string, i: int)
  {
    0 <= i <= |s| - |sub| && s[i..i + |sub|] == sub
  }

  /** `s.includes(sub)`. */
  predicate Contains(s: string, sub: string)
  {
    exists i | 0 <= i <= |s| - |sub| :: OccursAt(s, sub, i)
  }

  /** `s.replace(/x/g, y)` for single characters. */
  function ReplaceChar(s: string, x: char, y: char): (r: string)
    ensures |r| == |s|
    ensures x != y ==> x !in r
    ensures forall i :: 0 <= i < |s| ==> r[i] == (if s[i] == x then y else s[i])
  {
    if s == [] then [] else [if s[0] == x then y else s[0]] + ReplaceChar(s[1..], x, y)
  }

  function DigitChar(d: nat): char
    requires d < 10
  {
    ('0' as int + d) as char
  }

  /** The decimal rendering of a count, as JavaScript's template strings print it. */
  function NatToString(n: nat): (r: string)
    ensures r != []
    ensures forall i :: 0 <= i < |r| ==> IsDigit(r[i])
    ensures r[0] == '0' ==> n == 0 && r == "0"
  {
    if n < 10 then [DigitChar(n)] else NatToString(n / 10) + [DigitChar(n % 10)]
  }

  /** An integer in JavaScript's text form (minus sign for negatives). */
  function IntToString(n: int): string
  {
    if n < 0 then "-" + NatToString(-n) else NatToString(n)
  }

  // ---- parseInt ----

  /** The result of `parseInt`: a whole number or NaN. Negative zero is not distinguished. */
  datatype ParsedInt = NotANumber | Integer(value: int)

  function DigitValue(c: char): (v: nat)
  {
    if '0' <= c <= '9' then c as int - '0' as int
    else if 'a' <= c <= 'z' then c as int - 'a' as int + 10
    else if 'A' <= c <= 'Z' then c as int - 'A' as int + 10
    else 36
  }

  predicate IsRadixDigit(c: char, radix: nat) { DigitValue(c) < radix }

  /** The longest prefix of `s` made of digits of the radix. */
  function DigitPrefix(s: string, radix: nat): (r: string)
    ensures |r| <= |s| && r == s[..|r|]
    ensures forall i :: 0 <= i < |r| ==> IsRadixDigit(r[i], radix)
    ensures |r| < |s| ==> !IsRadixDigit(s[|r|], radix)
  {
    if s == [] || !IsRadixDigit(s[0], radix) then []
    else [s[0]] + DigitPrefix(s[1..], radix)
  }

  /** The value of a digit string in the radix, most significant digit first. */
  function DigitsValue(s: string, radix: nat): nat
  {
    if s == [] then 0
    else DigitsValue(s[..|s| - 1], radix) * radix + Min(DigitValue(s[|s| - 1]), radix)
  }

  /** `parseInt(s)` with no radix argument: leading white space is skipped, an
      optional sign is read, a `0x`/`0X` prefix selects radix 16, and the longest
      run of digits is converted; no digits at all gives NaN. */
  function ParseInt(s: string): (r: ParsedInt)
    ensures r.Integer? ==> exists i :: 0 <= i < |s| && IsDigit(s[i])
    ensures r.Integer? && r.value < 0 ==> '-' in s
  {
    var t := TrimStart(s);
    var negative := t != [] && t[0] == '-';
    var u := if t != [] && (t[0] == '-' || t[0] == '+') then t[1..] else t;
    var hex := |u| >= 2 && u[0] == '0' && (u[1] == 'x' || u[1] == 'X');
    var radix := if hex then 16 else 10;
    var digits := DigitPrefix(if hex then u[2..] else u, radix);
    if digits == [] then NotANumber
    else if negative then Integer(0 - DigitsValue(digits, radix))
    else Integer(DigitsValue(digits, radix))
  }

  lemma {:induction false} NatToStringValue(n: nat)
    ensures DigitsValue(NatToString(n), 10) == n
  {
    if n >= 10 {
      NatToStringValue(n / 10);
      var s := NatToString(n);
      assert s[..|s| - 1] == NatToString(n / 10);
    }
  }

  lemma DigitPrefixWhole(s: string, radix: nat)
    requires forall i :: 0 <= i < |s| ==> IsRadixDigit(s[i], radix)
    ensures DigitPrefix(s, radix) == s
  {
    var r := DigitPrefix(s, radix);
    if |r| < |s| {
      assert false;
    }
  }

  /** The rendering of a count is read back whole by the decimal branch of
      `parseInt`: it has no white space, sign or hexadecimal prefix, all of it
      is digits, and its digits have the count's value. */
  lemma DecimalRendering(n: nat)
    ensures var d := NatToString(n);
      && !IsWhitespace(d[0]) && d[0] != '-' && d[0] != '+'
      && !(|d| >= 2 && d[0] == '0')
      && DigitPrefix(d, 10) == d && DigitsValue(d, 10) == n
  {
    var d := NatToString(n);
    forall i | 0 <= i < |d| ensures IsRadixDigit(d[i], 10) { assert IsDigit(d[i]); }
    DigitPrefixWhole(d, 10);
    NatToStringValue(n);
  }

  /** `parseInt` of a string that is all decimal digits with no `0x` prefix
      is the digits' value. */
  lemma ParseIntDecimal(d: string)
    requires d != [] && !IsWhitespace(d[0]) && d[0] != '-' && d[0] != '+'
    requires !(|d| >= 2 && d[0] == '0') && DigitPrefix(d, 10) == d
    ensures ParseInt(d) == Integer(DigitsValue(d, 10))
  {
    assert SkipSpace(d, 0) == 0;
    assert TrimStart(d) == d;
  }

  /** The same digits after a minus sign give the negated value. */
  lemma ParseIntNegativeDecimal(d: string)
    requires d != [] && !IsWhitespace(d[0]) && d[0] != '-' && d[0] != '+'
    requires !(|d| >= 2 && d[0] == '0') && DigitPrefix(d, 10) == d
    ensures ParseInt("-" + d) == Integer(0 - DigitsValue(d, 10))
  {
    var s := "-" + d;
    assert !IsWhitespace(s[0]);
    assert SkipSpace(s, 0) == 0;
    assert TrimStart(s) == s;
    assert s[1..] == d;
  }

  /** `parseInt` reads back every count the page renders: the round trip of
      decimal rendering and parsing is the identity. */
  lemma ParseIntNatToString(n: nat)
    ensures ParseInt(NatToString(n)) == Integer(n)
  {
    DecimalRendering(n);
    ParseIntDecimal(NatToString(n));
  }

  /** The same for a negative integer written with a minus sign. */
  lemma ParseIntIntToString(n: int)
    ensures ParseInt(IntToString(n)) == Integer(n)
  {
    if n >= 0 {
      ParseIntNatToString(n);
    } else {
      assert IntToString(n) == "-" + NatToString(-n);
      DecimalRendering(-n);
      ParseIntNegativeDecimal(NatToString(-n));
    }
  }
}
