/**
 * The handful of Python string operations the core relies on:
 * `str.upper`, `str.strip`, `sep.join(parts)`, `s.split(c)` and the
 * decimal rendering of a non-negative integer in an f-string.
 * Case mapping and whitespace are modelled on ASCII.
 */
module Strings {

  /** Upper-casing of one character, ASCII letters only. */
  function UpperChar(c: char): char {
    if 'a' <= c <= 'z' then (c as int - 'a' as int + 'A' as int) as char else c
  }

  /** `s.upper()`: every character upper-cased, length unchanged. */
  function Upper(s: string): string {
    seq(|s|, i requires 0 <= i < |s| => UpperChar(s[i]))
  }

  /** No character of `s` changes when upper-cased. */
  predicate IsUpper(s: string) {
    forall i :: 0 <= i < |s| ==> UpperChar(s[i]) == s[i]
  }

  lemma UpperIsUpper(s: string)
    ensures IsUpper(Upper(s))
  {
  }

  /** Upper-casing an upper-case string changes nothing. */
  lemma UpperFixesUpper(s: string)
    requires IsUpper(s)
    ensures Upper(s) == s
  {
  }

  /** `c.isspace()` for the ASCII range: tab, line feed, vertical tab,
      form feed, carriage return, the four separators 0x1C..0x1F and space. */
  predicate IsSpace(c: char) {
    9 <= c as int <= 13 || 28 <= c as int <= 32
  }

  /** Upper-casing never turns a space into a non-space or back. */
  lemma UpperKeepsSpaces(c: char)
    ensures IsSpace(UpperChar(c)) == IsSpace(c)
  {
  }

  /** `s.lstrip()`: drops the leading whitespace. */
  function StripLeft(s: string): (r: string)
    ensures |r| <= |s|
    ensures r == [] || !IsSpace(r[0])
  {
    if s != [] && IsSpace(s[0]) then StripLeft(s[1..]) else s
  }

  /** What `lstrip` drops is whitespace, and what it keeps is the rest of the string. */
  lemma {:induction false} StripLeftDropsSpaces(s: string)
    ensures StripLeft(s) == s[|s| - |StripLeft(s)|..]
    ensures forall i :: 0 <= i < |s| - |StripLeft(s)| ==> IsSpace(s[i])
  {
    if s != [] && IsSpace(s[0]) {
      StripLeftDropsSpaces(s[1..]);
    }
  }

  /** `s.rstrip()`: drops the trailing whitespace. */
  function StripRight(s: string): (r: string)
    ensures |r| <= |s|
    ensures r == [] || !IsSpace(r[|r| - 1])
  {
    if s != [] && IsSpace(s[|s| - 1]) then StripRight(s[..|s| - 1]) else s
  }

  /** What `rstrip` drops is whitespace, and what it keeps is the start of the string. */
  lemma {:induction false} StripRightDropsSpaces(s: string)
    ensures StripRight(s) == s[..|StripRight(s)|]
    ensures forall i :: |StripRight(s)| <= i < |s| ==> IsSpace(s[i])
  {
    if s != [] && IsSpace(s[|s| - 1]) {
      StripRightDropsSpaces(s[..|s| - 1]);
    }
  }

  /** Neither end of `s` is whitespace. */
  predicate IsStripped(s: string) {
    s == [] || (!IsSpace(s[0]) && !IsSpace(s[|s| - 1]))
  }

  /** `s.strip()`: whitespace removed at both ends. */
  function Strip(s: string): (r: string)
    ensures IsStripped(r)
    ensures |r| <= |s|
  {
    var left := StripLeft(s);
    StripRightDropsSpaces(left);
    StripRight(left)
  }

  /** `strip` keeps a slice of `s` and drops only whitespace on either side of it. */
  lemma StripKeepsSlice(s: string)
    ensures var a := |s| - |StripLeft(s)|;
      && a + |Strip(s)| <= |s| && Strip(s) == s[a..a + |Strip(s)|]
      && (forall i :: 0 <= i < a ==> IsSpace(s[i]))
      && (forall i :: a + |Strip(s)| <= i < |s| ==> IsSpace(s[i]))
  {
    StripLeftDropsSpaces(s);
    StripRightDropsSpaces(StripLeft(s));
  }

  /** Upper-casing commutes with taking a slice. */
  lemma UpperOfSlice(s: string, lo: nat, hi: nat)
    requires lo <= hi <= |s|
    ensures Upper(s)[lo..hi] == Upper(s[lo..hi])
  {
    var left := Upper(s)[lo..hi];
    var right := Upper(s[lo..hi]);
    assert |left| == |right| == hi - lo;
    forall k | 0 <= k < hi - lo ensures left[k] == right[k] {
      assert left[k] == UpperChar(s[lo + k]);
      assert right[k] == UpperChar(s[lo..hi][k]);
    }
  }

  /** Upper-casing and then stripping keeps the upper-cased form of one slice of `s`,
      and everything outside that slice is whitespace in `s` itself. */
  lemma UpperStripKeepsSlice(s: string)
    ensures var key := Strip(Upper(s));
      var a := |s| - |StripLeft(Upper(s))|;
      && a + |key| <= |s|
      && key == Upper(s[a..a + |key|])
      && (forall i :: 0 <= i < a ==> IsSpace(s[i]))
      && (forall i :: a + |key| <= i < |s| ==> IsSpace(s[i]))
  {
    var u := Upper(s);
    StripKeepsSlice(u);
    var key := Strip(u);
    var a := |u| - |StripLeft(u)|;
    assert |u| == |s| && a + |key| <= |u|;
    UpperOfSlice(s, a, a + |key|);
    forall i | 0 <= i < a ensures IsSpace(s[i]) {
      assert IsSpace(u[i]) && u[i] == UpperChar(s[i]);
      UpperKeepsSpaces(s[i]);
    }
    forall i | a + |key| <= i < |s| ensures IsSpace(s[i]) {
      assert IsSpace(u[i]) && u[i] == UpperChar(s[i]);
      UpperKeepsSpaces(s[i]);
    }
  }

  /** Stripping a string with no whitespace at either end returns it unchanged. */
  lemma StripFixesStripped(s: string)
    requires IsStripped(s)
    ensures Strip(s) == s
  {
  }

  /** `sep.join(parts)`. */
  function Join(sep: string, parts: seq<string>): string
  {
    if |parts| == 0 then ""
    else if |parts| == 1 then parts[0]
    else parts[0] + sep + Join(sep, parts[1..])
  }

  /** Joining one, two or three parts, written out. */
  lemma JoinOfFew(sep: string, parts: seq<string>)
    ensures |parts| == 1 ==> Join(sep, parts) == parts[0]
    ensures |parts| == 2 ==> Join(sep, parts) == parts[0] + sep + parts[1]
    ensures |parts| == 3 ==> Join(sep, parts) == parts[0] + sep + parts[1] + sep + parts[2]
  {
    if |parts| == 2 {
      assert Join(sep, parts[1..]) == parts[1];
    } else if |parts| == 3 {
      var rest := parts[1..];
      assert Join(sep, rest[1..]) == parts[2];
      assert Join(sep, rest) == parts[1] + sep + parts[2];
    }
  }

  /** `t` is a suffix of `s`. */
  predicate EndsWith(s: string, t: string) {
    |t| <= |s| && s[|s| - |t|..] == t
  }

  /** A joined string begins with its first part. */
  lemma {:induction false} JoinStartsWithFirst(sep: string, parts: seq<string>)
    requires |parts| >= 1
    ensures parts[0] <= Join(sep, parts)
  {
  }

  /** A joined string ends with its last part. */
  lemma {:induction false} JoinEndsWithLast(sep: string, parts: seq<string>)
    requires |parts| >= 1
    ensures EndsWith(Join(sep, parts), parts[|parts| - 1])
  {
    if |parts| > 1 {
      JoinEndsWithLast(sep, parts[1..]);
    }
  }

  /** `s.split(c)` for a one-character separator: the pieces between occurrences of `c`. */
  function Split(s: string, c: char): (r: seq<string>)
    ensures |r| >= 1
  {
    if s == [] then [""]
    else
      var rest := Split(s[1..], c);
      if s[0] == c then [""] + rest else [[s[0]] + rest[0]] + rest[1..]
  }

  lemma {:induction false} SplitWithoutSeparator(p: string, c: char)
    requires c !in p
    ensures Split(p, c) == [p]
  {
    if p != [] {
      assert p[0] != c && c !in p[1..];
      SplitWithoutSeparator(p[1..], c);
      assert [p[0]] + p[1..] == p;
    }
  }

  lemma {:induction false} SplitAfterPiece(p: string, t: string, c: char)
    requires c !in p
    ensures Split(p + [c] + t, c) == [p] + Split(t, c)
  {
    if p == [] {
      assert p + [c] + t == [c] + t;
      assert ([c] + t)[1..] == t;
    } else {
      assert (p + [c] + t)[1..] == p[1..] + [c] + t;
      SplitAfterPiece(p[1..], t, c);
      assert [p[0]] + p[1..] == p;
    }
  }

  /** Splitting a `c`-joined list of pieces that do not contain `c` gives the pieces back. */
  lemma {:induction false} SplitJoin(parts: seq<string>, c: char)
    requires |parts| >= 1
    requires forall k :: 0 <= k < |parts| ==> c !in parts[k]
    ensures Split(Join([c], parts), c) == parts
  {
    if |parts| == 1 {
      SplitWithoutSeparator(parts[0], c);
    } else {
      var rest := parts[1..];
      assert forall k :: 0 <= k < |rest| ==> rest[k] == parts[k + 1];
      SplitJoin(rest, c);
      assert Join([c], parts) == parts[0] + [c] + Join([c], rest);
      SplitAfterPiece(parts[0], Join([c], rest), c);
      assert [parts[0]] + rest == parts;
    }
  }

  /** The pieces after the first, each preceded by `pad`. */
  function PadTail(parts: seq<string>, pad: string): (r: seq<string>)
    ensures |r| == |parts|
  {
    if |parts| == 0 then [] else [parts[0]] + seq(|parts| - 1, k requires 0 <= k < |parts| - 1 => pad + parts[k + 1])
  }

  /** The padded list is the first part followed by the padded rest, whose own first part gains the pad. */
  lemma PadTailStep(parts: seq<string>, pad: string)
    requires |parts| > 1
    ensures PadTail(parts, pad)[0] == parts[0]
    ensures PadTail(parts, pad)[1..]
      == [pad + PadTail(parts[1..], pad)[0]] + PadTail(parts[1..], pad)[1..]
  {
    var padded := PadTail(parts, pad);
    var tail := PadTail(parts[1..], pad);
    var expected := [pad + tail[0]] + tail[1..];
    assert |padded[1..]| == |expected|;
    forall k | 0 <= k < |expected| ensures padded[1..][k] == expected[k] {
      if k > 0 {
        assert tail[k] == pad + parts[1..][k];
      }
    }
  }

  lemma {:induction false} JoinPadded(parts: seq<string>, c: char, pad: string)
    ensures Join([c] + pad, parts) == Join([c], PadTail(parts, pad))
  {
    if |parts| > 1 {
      JoinPadded(parts[1..], c, pad);
      var tail := PadTail(parts[1..], pad);
      var padded := PadTail(parts, pad);
      PadTailStep(parts, pad);
      calc {
        Join([c], padded);
        padded[0] + [c] + Join([c], padded[1..]);
        { JoinPaddedHead(tail, c, pad); }
        parts[0] + [c] + (pad + Join([c], tail));
        parts[0] + ([c] + pad) + Join([c], tail);
        parts[0] + ([c] + pad) + Join([c] + pad, parts[1..]);
        Join([c] + pad, parts);
      }
    }
  }

  lemma {:induction false} JoinPaddedHead(tail: seq<string>, c: char, pad: string)
    requires |tail| >= 1
    ensures Join([c], [pad + tail[0]] + tail[1..]) == pad + Join([c], tail)
  {
    var t := [pad + tail[0]] + tail[1..];
    if |tail| > 1 {
      assert t[1..] == tail[1..];
    }
  }

  /** Splitting a joined string at the first character of a longer separator
      gives back the parts, each one after the first preceded by the rest of the separator. */
  lemma SplitJoinPadded(parts: seq<string>, c: char, pad: string)
    requires |parts| >= 1
    requires c !in pad
    requires forall k :: 0 <= k < |parts| ==> c !in parts[k]
    ensures Split(Join([c] + pad, parts), c) == PadTail(parts, pad)
  {
    JoinPadded(parts, c, pad);
    var padded := PadTail(parts, pad);
    forall k | 0 <= k < |padded| ensures c !in padded[k] {
      if k > 0 {
        assert padded[k] == pad + parts[k];
      }
    }
    SplitJoin(padded, c);
  }

  /** The character of a decimal digit. */
  function DigitChar(d: nat): char
    requires d < 10
  {
    ('0' as int + d) as char
  }

  predicate IsDigit(c: char) {
    '0' <= c <= '9'
  }

  /** `f"{n}"` for a non-negative integer: its decimal digits, no leading zero. */
  function Decimal(n: nat): (r: string)
    ensures |r| >= 1
    ensures forall i :: 0 <= i < |r| ==> IsDigit(r[i])
    ensures |r| > 1 ==> r[0] != '0'
  {
    if n < 10 then [DigitChar(n)] else Decimal(n / 10) + [DigitChar(n % 10)]
  }

  /** The value of a string of decimal digits. */
  function DecimalValue(s: string): nat
    requires forall i :: 0 <= i < |s| ==> IsDigit(s[i])
  {
    if s == [] then 0
    else
      var last := s[|s| - 1];
      assert IsDigit(last);
      10 * DecimalValue(s[..|s| - 1]) + (last as int - '0' as int)
  }

  /** Reading back the rendering of `n` gives `n`. */
  lemma {:induction false} DecimalRoundTrip(n: nat)
    ensures DecimalValue(Decimal(n)) == n
  {
    if n >= 10 {
      DecimalRoundTrip(n / 10);
      var r := Decimal(n);
      assert r[..|r| - 1] == Decimal(n / 10);
    }
  }
}
