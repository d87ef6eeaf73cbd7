/** Release versions of the updater: `major.minor.patch[-prerelease]`, parsed from release
    tags, printed for logs, and ordered to decide whether a release is newer. The order is
    the updater's own, not the precedence of Semantic Versioning: prerelease tags compare as
    whole strings. */
module Versions {

  import opened Wrappers
  import opened Text

  /** The components hold what `std::stoi` reads from digit groups, so they are never
      negative; the prerelease is empty for a release. */
  datatype Version = Version(major: nat, minor: nat, patch: nat, prerelease: string)

  /** The pieces of a version string as the tag regex `v?(\d+)\.(\d+)\.(\d+)(?:-(.+))?`
      captures them: whether a leading `v` is present, the three digit groups as written
      and the suffix after `-` (empty when the optional group did not participate). */
  datatype VersionText = VersionText(
    hasV: bool, major: string, minor: string, patch: string, prerelease: string)

  /** The characters the regex `.` does not match. */
  predicate IsLineBreak(c: char)
  {
    c == '\n' || c == '\r'
  }

  predicate NoLineBreak(s: string)
  {
    forall i :: 0 <= i < |s| ==> !IsLineBreak(s[i])
  }

  /** The captures of any string the whole regex matches. */
  predicate WellFormedText(t: VersionText)
  {
    IsDigits(t.major) && IsDigits(t.minor) && IsDigits(t.patch) && NoLineBreak(t.prerelease)
  }

  /** The string a set of captures comes from. */
  function Unparse(t: VersionText): string
  {
    (if t.hasV then "v" else "") + Body(t)
  }

  /** The three digit groups and the suffix. */
  function Body(t: VersionText): string
  {
    t.major + "." + t.minor + "." + t.patch + Suffix(t.prerelease)
  }

  /** The part after the three digit groups: `-` and the prerelease, when there is one. */
  function Suffix(prerelease: string): string
  {
    if prerelease == "" then "" else "-" + prerelease
  }

  /** A digit group `\d+` followed by the separator `sep`: the group and what follows the
      separator. The group is always the longest run of digits, because the separator is
      not a digit. */
  function Group(s: string, sep: char): Option<(string, string)>
  {
    var (d, rest) := SplitDigits(s);
    if d != [] && rest != [] && rest[0] == sep then Some((d, rest[1..])) else None
  }

  /** `std::regex_match` of the tag regex against the whole string, with its captures.
      A leading `v` is taken by `v?`, as no digit group can start with it. */
  function Scan(s: string): (r: Option<VersionText>)
  {
    if |s| > 0 && s[0] == 'v' then ScanNumbers(s[1..], true) else ScanNumbers(s, false)
  }

  /** The rest of the match, after the optional `v`. It is unique: each digit group must
      end at a `.`, at a `-` or at the end of the string, so every `\d+` takes the longest
      run of digits. */
  function ScanNumbers(t: string, hasV: bool): Option<VersionText>
  {
    match Group(t, '.')
    case None => None
    case Some((major, afterMajor)) =>
      match Group(afterMajor, '.')
      case None => None
      case Some((minor, afterMinor)) =>
        var (patch, suffix) := SplitDigits(afterMinor);
        if patch == [] then None
        else if suffix == [] then Some(VersionText(hasV, major, minor, patch, ""))
        else if suffix[0] == '-' && |suffix| > 1 && NoLineBreak(suffix[1..]) then
          Some(VersionText(hasV, major, minor, patch, suffix[1..]))
        else None
  }

  /** What `Group` reads is a digit group, the separator and the rest. */
  lemma GroupSound(s: string, sep: char)
    requires Group(s, sep).Some?
    ensures IsDigits(Group(s, sep).value.0)
    ensures s == Group(s, sep).value.0 + [sep] + Group(s, sep).value.1
  {
    var (d, rest) := SplitDigits(s);
    assert rest == [rest[0]] + rest[1..];
  }

  /** A digit group followed by a non-digit separator is read as such. */
  lemma GroupOf(digits: string, sep: char, rest: string)
    requires IsDigits(digits) && !IsDigitChar(sep)
    ensures Group(digits + [sep] + rest, sep) == Some((digits, rest))
  {
    SplitDigitsOf(digits, [sep] + rest);
    assert digits + [sep] + rest == digits + ([sep] + rest);
  }

  /** What `ScanNumbers` accepts is well formed, and its captures give back the string. */
  lemma ScanNumbersSound(t: string, hasV: bool)
    requires ScanNumbers(t, hasV).Some?
    ensures var r := ScanNumbers(t, hasV).value;
      WellFormedText(r) && r.hasV == hasV
      && t == Body(r)
  {
    GroupSound(t, '.');
    var (major, afterMajor) := Group(t, '.').value;
    GroupSound(afterMajor, '.');
    var (minor, afterMinor) := Group(afterMajor, '.').value;
    var (patch, suffix) := SplitDigits(afterMinor);
    var r := ScanNumbers(t, hasV).value;
    assert r == VersionText(hasV, major, minor, patch, r.prerelease);
    assert suffix == Suffix(r.prerelease) by {
      if suffix != [] {
        assert suffix == "-" + suffix[1..];
      }
    }
    calc {
      t;
      major + ['.'] + afterMajor;
      major + ['.'] + (minor + ['.'] + (patch + Suffix(r.prerelease)));
      { assert major + ['.'] + (minor + ['.'] + (patch + Suffix(r.prerelease)))
          == major + "." + minor + "." + patch + Suffix(r.prerelease); }
      Body(r);
    }
  }

  /** What `Scan` accepts is a well-formed string of the regex's form, and its captures
      put together give back the string. */
  lemma ScanSound(s: string)
    ensures Scan(s).Some? ==> WellFormedText(Scan(s).value) && Unparse(Scan(s).value) == s
  {
    if Scan(s).Some? {
      var hasV := |s| > 0 && s[0] == 'v';
      var t := if hasV then s[1..] else s;
      ScanNumbersSound(t, hasV);
      if hasV {
        assert s == "v" + s[1..];
      }
    }
  }

  /** The three digit groups and the suffix are read back as written. */
  lemma ScanNumbersOf(t: VersionText)
    requires WellFormedText(t)
    ensures ScanNumbers(Body(t), t.hasV) == Some(t)
  {
    var afterMinor := t.patch + Suffix(t.prerelease);
    var afterMajor := t.minor + "." + afterMinor;
    GroupOf(t.major, '.', afterMajor);
    assert Body(t) == t.major + ['.'] + afterMajor;
    GroupOf(t.minor, '.', afterMinor);
    assert afterMajor == t.minor + ['.'] + afterMinor;
    SplitDigitsOf(t.patch, Suffix(t.prerelease));
  }

  /** Every string of the regex's form is matched, with exactly its own captures. Together
      with `ScanSound`, the regex succeeds exactly on the strings `Unparse` produces from
      well-formed captures. */
  lemma ScanUnparse(t: VersionText)
    requires WellFormedText(t)
    ensures Scan(Unparse(t)) == Some(t)
  {
    var body := Body(t);
    ScanNumbersOf(t);
    assert body[0] == t.major[0];
    if t.hasV {
      assert Unparse(t)[1..] == body;
    } else {
      assert Unparse(t) == body;
    }
  }

  /** `Version::parse`: the digit groups become the numbers, the suffix the prerelease. */
  function Parse(s: string): Option<Version>
  {
    match Scan(s)
    case None => None
    case Some(t) =>
      Some(Version(DecimalValue(t.major), DecimalValue(t.minor), DecimalValue(t.patch), t.prerelease))
  }

  /** On a string of the regex's form, `parse` yields the values of the digit groups
      (leading zeros ignored) and the suffix; on any other string it yields nothing. */
  lemma ParseMeaning(s: string)
    ensures Parse(s).Some? <==> exists t :: WellFormedText(t) && Unparse(t) == s
    ensures forall t :: WellFormedText(t) && Unparse(t) == s ==>
      Parse(s) == Some(Version(DecimalValue(t.major), DecimalValue(t.minor), DecimalValue(t.patch), t.prerelease))
  {
    forall t | WellFormedText(t) && Unparse(t) == s
      ensures Scan(s) == Some(t)
    {
      ScanUnparse(t);
    }
    ScanSound(s);
  }

  /** `Version::to_string`: the three numbers joined by `.`, then `-prerelease` when the
      prerelease is not empty. */
  function ToString(v: Version): string
  {
    NatToString(v.major) + "." + NatToString(v.minor) + "." + NatToString(v.patch)
    + (if v.prerelease == "" then "" else "-" + v.prerelease)
  }

  /** Printing and parsing back gives the same version, for any prerelease the regex `.`
      can match. */
  lemma ParseToString(v: Version)
    requires NoLineBreak(v.prerelease)
    ensures Parse(ToString(v)) == Some(v)
  {
    var t := VersionText(false, NatToString(v.major), NatToString(v.minor), NatToString(v.patch), v.prerelease);
    assert Unparse(t) == ToString(v);
    ScanUnparse(t);
    DecimalValueOfNatToString(v.major);
    DecimalValueOfNatToString(v.minor);
    DecimalValueOfNatToString(v.patch);
  }

  /** `std::string::operator<`: lexicographic order on character codes, a proper prefix
      first. */
  predicate StringLess(a: string, b: string)
  {
    if a == [] then b != []
    else if b == [] then false
    else if a[0] != b[0] then a[0] < b[0]
    else StringLess(a[1..], b[1..])
  }

  lemma {:induction false} StringLessIrreflexive(a: string)
    ensures !StringLess(a, a)
  {
    if a != [] {
      StringLessIrreflexive(a[1..]);
    }
  }

  lemma {:induction false} StringLessTransitive(a: string, b: string, c: string)
    requires StringLess(a, b) && StringLess(b, c)
    ensures StringLess(a, c)
  {
    if a != [] && b != [] && c != [] && a[0] == b[0] && b[0] == c[0] {
      StringLessTransitive(a[1..], b[1..], c[1..]);
    }
  }

  lemma {:induction false} StringLessTotal(a: string, b: string)
    ensures StringLess(a, b) || StringLess(b, a) || a == b
  {
    if a != [] && b != [] && a[0] == b[0] {
      StringLessTotal(a[1..], b[1..]);
      if a[1..] == b[1..] {
        assert a == [a[0]] + a[1..] && b == [b[0]] + b[1..];
      }
    }
  }

  /** `Version::operator<`: numbers first, lexicographically; with equal numbers a release
      ranks above every prerelease; two prereleases compare as strings. */
  predicate Less(a: Version, b: Version)
  {
    if a.major != b.major then a.major < b.major
    else if a.minor != b.minor then a.minor < b.minor
    else if a.patch != b.patch then a.patch < b.patch
    else if a.prerelease == "" && b.prerelease != "" then false
    else if a.prerelease != "" && b.prerelease == "" then true
    else StringLess(a.prerelease, b.prerelease)
  }

  /** `operator>`, `operator<=`, `operator>=` and `operator!=`, each defined from `<` or
      `==` as the source does. */
  predicate Greater(a: Version, b: Version)
  {
    Less(b, a)
  }

  predicate LessOrEqual(a: Version, b: Version)
  {
    !Less(b, a)
  }

  predicate GreaterOrEqual(a: Version, b: Version)
  {
    !Less(a, b)
  }

  predicate NotEqual(a: Version, b: Version)
  {
    !(a == b)
  }

  /** `<` is a strict total order: exactly one of `a < b`, `b < a` and `a == b` holds, and
      it is transitive. */
  lemma LessTrichotomy(a: Version, b: Version)
    ensures (Less(a, b) && !Less(b, a) && a != b)
         || (!Less(a, b) && Less(b, a) && a != b)
         || (!Less(a, b) && !Less(b, a) && a == b)
  {
    if a.major == b.major && a.minor == b.minor && a.patch == b.patch {
      StringLessTotal(a.prerelease, b.prerelease);
      StringLessIrreflexive(a.prerelease);
      if StringLess(a.prerelease, b.prerelease) && StringLess(b.prerelease, a.prerelease) {
        StringLessTransitive(a.prerelease, b.prerelease, a.prerelease);
      }
    }
  }

  lemma LessTransitive(a: Version, b: Version, c: Version)
    requires Less(a, b) && Less(b, c)
    ensures Less(a, c)
  {
    if a.major == b.major == c.major && a.minor == b.minor == c.minor && a.patch == b.patch == c.patch
       && a.prerelease != "" && b.prerelease != "" && c.prerelease != "" {
      StringLessTransitive(a.prerelease, b.prerelease, c.prerelease);
    }
  }

  /** The derived operators agree with the order: `<=` is `<` or `==`, `>=` is `>` or
      `==`, and `>` is the converse of `<`. */
  lemma DerivedOperators(a: Version, b: Version)
    ensures LessOrEqual(a, b) <==> Less(a, b) || a == b
    ensures GreaterOrEqual(a, b) <==> Greater(a, b) || a == b
    ensures Greater(a, b) <==> !LessOrEqual(a, b)
    ensures NotEqual(a, b) <==> Less(a, b) || Greater(a, b)
  {
    LessTrichotomy(a, b);
  }

  /** A release ranks above every prerelease of the same numbers, whatever its tag. */
  lemma ReleaseAbovePrerelease(release: Version, pre: Version)
    requires release.prerelease == "" && pre.prerelease != ""
    requires (release.major, release.minor, release.patch) == (pre.major, pre.minor, pre.patch)
    ensures Greater(release, pre) && !Less(release, pre)
  {
  }

  /** A common prefix does not change the string order. */
  lemma {:induction false} StringLessCommonPrefix(p: string, a: string, b: string)
    ensures StringLess(p + a, p + b) <==> StringLess(a, b)
  {
    if p != [] {
      assert (p + a)[1..] == p[1..] + a && (p + b)[1..] == p[1..] + b;
      StringLessCommonPrefix(p[1..], a, b);
    } else {
      assert p + a == a && p + b == b;
    }
  }

  /** Unlike Semantic Versioning, numeric prerelease identifiers compare as text:
      `1.0.0-alpha.10` ranks below `1.0.0-alpha.2`. */
  lemma PrereleaseComparedAsText()
    ensures Less(Version(1, 0, 0, "alpha.10"), Version(1, 0, 0, "alpha.2"))
  {
    StringLessCommonPrefix("alpha.", "10", "2");
    assert "alpha." + "10" == "alpha.10" && "alpha." + "2" == "alpha.2";
  }

  /** The tags behind that example parse as expected. */
  lemma ParsePrereleaseTags()
    ensures Parse("v1.0.0-alpha.10") == Some(Version(1, 0, 0, "alpha.10"))
  {
    var t := VersionText(true, "1", "0", "0", "alpha.10");
    assert Unparse(t) == "v1.0.0-alpha.10" by {
      assert Suffix(t.prerelease) == "-alpha.10";
      assert Body(t) == "1.0.0-alpha.10";
    }
    assert DecimalValue("1") == 1 by { assert "1"[..0] == []; }
    assert DecimalValue("0") == 0 by { assert "0"[..0] == []; }
    assert WellFormedText(t) by {
      assert IsDigits("1") && IsDigits("0");
    }
    ScanUnparse(t);
  }
}
