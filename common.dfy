/** Optional values, used for the source's std::optional results and nullable handles. */
module Wrappers {

  datatype Option<+T> = None | Some(value: T)
}

/** Character and string helpers shared by the components: ASCII case folding, substring
    search, membership in a string list, and decimal digit strings. */
module Text {

  /** The effect of the C library's `tolower` on one character in the "C" locale. */
  function LowerChar(c: char): char
  {
    if 'A' <= c <= 'Z' then (c as int + 32) as char else c
  }

  /** `std::transform(s.begin(), s.end(), s.begin(), ::tolower)`. */
  function ToLower(s: string): (r: string)
    ensures |r| == |s|
    ensures forall i :: 0 <= i < |s| ==> r[i] == LowerChar(s[i])
  {
    seq(|s|, i requires 0 <= i < |s| => LowerChar(s[i]))
  }

  /** `p` occurs in `s` starting at index `i`. */
  predicate OccursAt(s: string, p: string, i: nat)
  {
    i + |p| <= |s| && s[i..i + |p|] == p
  }

  /** `s.find(p) != std::string::npos`: `p` occurs somewhere in `s`. */
  predicate Contains(s: string, p: string)
  {
    exists i: nat :: i <= |s| && OccursAt(s, p, i)
  }

  /** `QStringList::contains`: a linear scan of the list. */
  function ListContains(list: seq<string>, s: string): (r: bool)
    ensures r <==> s in list
  {
    if list == [] then false
    else if list[0] == s then true
    else ListContains(list[1..], s)
  }

  predicate IsDigitChar(c: char)
  {
    '0' <= c <= '9'
  }

  /** A non-empty run of decimal digits, as `\d+` matches. */
  predicate IsDigits(s: string)
  {
    |s| > 0 && forall i :: 0 <= i < |s| ==> IsDigitChar(s[i])
  }

  function DigitChar(d: nat): (c: char)
    requires d < 10
    ensures IsDigitChar(c)
  {
    (('0' as int) + d) as char
  }

  function DigitValue(c: char): (d: nat)
    requires IsDigitChar(c)
    ensures d < 10
  {
    c as int - '0' as int
  }

  /** The longest run of digits at the start of `s`, and what follows it. */
  function SplitDigits(s: string): (r: (string, string))
    ensures r.0 + r.1 == s
    ensures forall i :: 0 <= i < |r.0| ==> IsDigitChar(r.0[i])
    ensures r.1 == [] || !IsDigitChar(r.1[0])
  {
    if s != [] && IsDigitChar(s[0]) then
      var (d, rest) := SplitDigits(s[1..]);
      ([s[0]] + d, rest)
    else ([], s)
  }

  /** A run of digits followed by a non-digit (or nothing) is read whole. */
  lemma {:induction false} SplitDigitsOf(digits: string, rest: string)
    requires forall i :: 0 <= i < |digits| ==> IsDigitChar(digits[i])
    requires rest == [] || !IsDigitChar(rest[0])
    ensures SplitDigits(digits + rest) == (digits, rest)
  {
    if digits != [] {
      assert (digits + rest)[1..] == digits[1..] + rest;
      SplitDigitsOf(digits[1..], rest);
      assert [digits[0]] + digits[1..] == digits;
    } else {
      assert digits + rest == rest;
    }
  }

  /** The number a string of digits denotes (what `std::stoi` yields for it when it fits). */
  function DecimalValue(s: string): nat
    requires forall i :: 0 <= i < |s| ==> IsDigitChar(s[i])
  {
    if s == [] then 0 else DecimalValue(s[..|s| - 1]) * 10 + DigitValue(s[|s| - 1])
  }

  /** How `operator<<` on a stream and `std::to_string` print a non-negative integer:
      its decimal digits, without leading zeros. */
  function NatToString(n: nat): (s: string)
    ensures IsDigits(s)
    ensures |s| > 1 ==> s[0] != '0'
  {
    if n < 10 then [DigitChar(n)] else NatToString(n / 10) + [DigitChar(n % 10)]
  }

  /** Reading back a printed number yields the number. */
  lemma {:induction false} DecimalValueOfNatToString(n: nat)
    ensures DecimalValue(NatToString(n)) == n
  {
    var s := NatToString(n);
    if n >= 10 {
      DecimalValueOfNatToString(n / 10);
      assert s[..|s| - 1] == NatToString(n / 10);
      assert DigitValue(s[|s| - 1]) == n % 10;
    } else {
      assert s[..|s| - 1] == [];
    }
  }
}
