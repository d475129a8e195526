/**
 * The JavaScript string primitives the handlers rely on: white space as
 * `\s` and `trim()` see it, `toLowerCase()` on ASCII letters, `includes`,
 * the `/\s+/g` and `/[^0-9]/g` replacements, and the decimal rendering of a count.
 */
module Text {
  import opened Seqs

  /**
   * ECMAScript white space and line terminators: tab, line feed, vertical tab,
   * form feed, carriage return, space, no-break space, ogham space mark, the
   * en quad to hair space range, line and paragraph separators, narrow no-break
   * space, medium mathematical space, ideographic space and the byte order mark.
   */
  predicate IsSpace(c: char) {
    var n := c as int;
    (9 <= n <= 13) || n == 32 || n == 0xA0 || n == 0x1680 || (0x2000 <= n <= 0x200A)
    || n == 0x2028 || n == 0x2029 || n == 0x202F || n == 0x205F || n == 0x3000 || n == 0xFEFF
  }

  /** `\S` */
  predicate NotSpace(c: char) {
    !IsSpace(c)
  }

  /** `\d` and `[0-9]` */
  predicate IsDigit(c: char) {
    '0' <= c <= '9'
  }

  /** `toLowerCase()` on one character, ASCII letters only. */
  function Lower(c: char): char {
    if 'A' <= c <= 'Z' then (c as int + 32) as char else c
  }

  function ToLower(s: string): string {
    seq(|s|, i requires 0 <= i < |s| => Lower(s[i]))
  }

  /** `hay.includes(needle)`, searched left to right. */
  predicate Includes(hay: string, needle: string)
    decreases |hay|
  {
    needle <= hay || (hay != [] && Includes(hay[1..], needle))
  }

  /** `needle` sits in `hay` starting at index `i`. */
  predicate OccursAt(hay: string, needle: string, i: int) {
    0 <= i && i + |needle| <= |hay| && hay[i..i + |needle|] == needle
  }

  /** An occurrence in the tail is an occurrence one position further on. */
  lemma OccursShift(hay: string, needle: string, j: int)
    requires hay != [] && OccursAt(hay[1..], needle, j)
    ensures OccursAt(hay, needle, j + 1)
  {
    assert hay[1..][j..j + |needle|] == hay[j + 1..j + 1 + |needle|];
  }

  /** An occurrence past the first position is an occurrence in the tail. */
  lemma OccursUnshift(hay: string, needle: string, i: int)
    requires OccursAt(hay, needle, i) && i > 0
    ensures OccursAt(hay[1..], needle, i - 1)
  {
    assert hay[1..][i - 1..i - 1 + |needle|] == hay[i..i + |needle|];
  }

  /** `includes` finds exactly the substrings. */
  lemma {:induction false} IncludesIff(hay: string, needle: string)
    ensures Includes(hay, needle) <==> exists i :: OccursAt(hay, needle, i)
    decreases |hay|
  {
    if needle <= hay {
      assert OccursAt(hay, needle, 0);
    } else if hay != [] {
      IncludesIff(hay[1..], needle);
      if i :| OccursAt(hay, needle, i) {
        assert i != 0;
        OccursUnshift(hay, needle, i);
      }
      if j :| OccursAt(hay[1..], needle, j) {
        OccursShift(hay, needle, j);
      }
    } else {
      assert forall i :: !OccursAt(hay, needle, i);
    }
  }

  /** The empty string is found in every string. */
  lemma IncludesEmpty(hay: string)
    ensures Includes(hay, "")
  {
  }

  /** `hay.toLowerCase().includes(needle.toLowerCase())` */
  predicate ContainsIgnoringCase(hay: string, needle: string) {
    Includes(ToLower(hay), ToLower(needle))
  }

  /** `trimStart()`: drops the leading white space and nothing else. */
  function TrimStart(s: string): (r: string)
    ensures |r| <= |s| && r == s[|s| - |r|..]
    ensures r == [] || !IsSpace(r[0])
    ensures forall i :: 0 <= i < |s| - |r| ==> IsSpace(s[i])
    decreases |s|
  {
    if s != [] && IsSpace(s[0]) then TrimStart(s[1..]) else s
  }

  /** `trimEnd()`: drops the trailing white space and nothing else. */
  function TrimEnd(s: string): (r: string)
    ensures |r| <= |s| && r == s[..|r|]
    ensures r == [] || !IsSpace(r[|r| - 1])
    ensures forall i :: |r| <= i < |s| ==> IsSpace(s[i])
    decreases |s|
  {
    if s != [] && IsSpace(s[|s| - 1]) then TrimEnd(s[..|s| - 1]) else s
  }

  /** `trim()`; blank means nothing but white space. */
  function Trim(s: string): (r: string)
    ensures r == [] <==> forall i :: 0 <= i < |s| ==> IsSpace(s[i])
    ensures r != [] ==> !IsSpace(r[0]) && !IsSpace(r[|r| - 1])
  {
    var t := TrimStart(s);
    assert t != [] ==> s[|s| - |t|] == t[0];
    TrimEnd(t)
  }

  /** `!s.trim()`: nothing but white space, so trimming leaves the empty string. */
  predicate Blank(s: string) {
    forall i :: 0 <= i < |s| ==> IsSpace(s[i])
  }

  lemma BlankIffTrimEmpty(s: string)
    ensures Blank(s) <==> Trim(s) == ""
  {
  }

  /** `replace(/\s+/g, "")`: every white-space run removed. */
  function StripSpaces(s: string): string {
    Filter(s, NotSpace)
  }

  /** `replace(/[^0-9]/g, "")`: only the digits, in order. */
  function DigitsOnly(s: string): string {
    Filter(s, IsDigit)
  }

  /** Leading white space contributes nothing once white space is removed. */
  lemma StripIgnoresTrimStart(s: string)
    ensures StripSpaces(TrimStart(s)) == StripSpaces(s)
  {
    var t := TrimStart(s);
    var lead := s[..|s| - |t|];
    assert s == lead + t;
    forall i | 0 <= i < |lead|
      ensures !NotSpace(lead[i])
    {
      assert lead[i] == s[i];
    }
    FilterConcat(lead, t, NotSpace);
    FilterDropsAll(lead, NotSpace);
  }

  /** Trailing white space contributes nothing once white space is removed. */
  lemma StripIgnoresTrimEnd(s: string)
    ensures StripSpaces(TrimEnd(s)) == StripSpaces(s)
  {
    var r := TrimEnd(s);
    var trail := s[|r|..];
    assert s == r + trail;
    forall i | 0 <= i < |trail|
      ensures !NotSpace(trail[i])
    {
      assert trail[i] == s[|r| + i];
    }
    FilterConcat(r, trail, NotSpace);
    FilterDropsAll(trail, NotSpace);
  }

  /** Removing all white space makes a preceding `trim()` redundant. */
  lemma StripIgnoresTrim(s: string)
    ensures StripSpaces(Trim(s)) == StripSpaces(s)
  {
    StripIgnoresTrimStart(s);
    StripIgnoresTrimEnd(TrimStart(s));
  }

  function DigitChar(d: nat): (c: char)
    requires d < 10
    ensures IsDigit(c)
  {
    ('0' as int + d) as char
  }

  /** How a non-negative count is rendered in text. */
  function NatToString(n: nat): (r: string)
    ensures r != [] && forall k :: 0 <= k < |r| ==> IsDigit(r[k])
  {
    if n < 10 then [DigitChar(n)] else NatToString(n / 10) + [DigitChar(n % 10)]
  }

  /** Reads a string of decimal digits back as a number. */
  function ParseDecimal(s: string): nat
    requires forall k :: 0 <= k < |s| ==> IsDigit(s[k])
  {
    if s == [] then 0
    else
      assert IsDigit(s[|s| - 1]);
      var d := s[|s| - 1] as int - '0' as int;
      ParseDecimal(s[..|s| - 1]) * 10 + d
  }

  /** The rendering loses nothing: it reads back as the same count. */
  lemma {:induction false} NatToStringRoundTrip(n: nat)
    ensures ParseDecimal(NatToString(n)) == n
  {
    if n >= 10 {
      NatToStringRoundTrip(n / 10);
      var s := NatToString(n);
      assert s[..|s| - 1] == NatToString(n / 10);
    }
  }
}
