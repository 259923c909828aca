/**
 The OS version labeller of main.go: the (major, minor, build) triple that
 RtlGetNtVersionNumbers reports becomes a marketing label and the build
 number as a decimal string.
 */
module OsVersion {
  import opened MachineInts
  import Decimal

  /** The first build that Windows 11 shipped with; earlier 10.0 builds are Windows 10. */
  const WINDOWS_11_FIRST_BUILD: nat := 22000

  datatype OperatingSystem = OperatingSystem(version: string, patch: string)

  const WINDOWS_PREFIX := "Windows "

  /**
   The label of the default branch. Read back, it is "Windows ", the major
   number in decimal, a dot, and the minor number in decimal.
   */
  function GenericLabel(major: U32, minor: U32): (s: string)
    ensures |s| >= 11 && s[..8] == WINDOWS_PREFIX
    ensures var d := 8 + FirstDot(s[8..]);
      && d < |s| && s[d] == '.'
      && Decimal.IsNumeral(s[8..d]) && Decimal.ParseDecimal(s[8..d]) == major
      && Decimal.IsNumeral(s[d + 1..]) && Decimal.ParseDecimal(s[d + 1..]) == minor
  {
    var a, b := Decimal.NatToString(major), Decimal.NatToString(minor);
    PrefixedDottedPair(WINDOWS_PREFIX, a, b);
    Decimal.ParseNatToString(major);
    Decimal.ParseNatToString(minor);
    WINDOWS_PREFIX + a + "." + b
  }

  /** Where the pieces of p + a + "." + b sit, for a string a of digits. */
  lemma PrefixedDottedPair(p: string, a: string, b: string)
    requires Decimal.AllDigits(a)
    ensures var s := p + a + "." + b;
      && s[..|p|] == p && FirstDot(s[|p|..]) == |a|
      && s[|p|..|p| + |a|] == a && s[|p| + |a|] == '.' && s[|p| + |a| + 1..] == b
  {
    var s := p + a + "." + b;
    assert s[|p|..] == a + "." + b;
    FirstDotAfterDigits(a, b);
  }

  /** The switch of main.go, first match winning, and the build rendered in decimal. */
  function Classify(major: U32, minor: U32, build: U32): (os: OperatingSystem)
    ensures (os.version == "Windows 11") <==> (major == 10 && minor == 0 && build >= WINDOWS_11_FIRST_BUILD)
    ensures (os.version == "Windows 10") <==> (major == 10 && minor == 0 && build < WINDOWS_11_FIRST_BUILD)
    ensures !(major == 10 && minor == 0) ==> os.version == GenericLabel(major, minor)
    ensures Decimal.IsNumeral(os.patch) && Decimal.ParseDecimal(os.patch) == build
  {
    Decimal.ParseNatToString(build);
    var version :=
      if major == 10 && minor == 0 && build >= WINDOWS_11_FIRST_BUILD then "Windows 11"
      else if major == 10 && minor == 0 then "Windows 10"
      else GenericLabel(major, minor);
    OperatingSystem(version, Decimal.NatToString(build))
  }

  /** The position of the first '.' in s, or |s| when there is none. */
  function FirstDot(s: string): (i: nat)
    ensures i <= |s| && (i < |s| ==> s[i] == '.')
  {
    if s == [] || s[0] == '.' then 0 else 1 + FirstDot(s[1..])
  }

  lemma {:induction false} FirstDotAfterDigits(a: string, b: string)
    requires Decimal.AllDigits(a)
    ensures FirstDot(a + "." + b) == |a|
  {
    if a != [] {
      assert (a + "." + b)[1..] == a[1..] + "." + b;
      FirstDotAfterDigits(a[1..], b);
    }
  }

  /**
   The contract of GenericLabel fixes the text: any string that reads back
   as "Windows ", the canonical numeral of major, a dot and the canonical
   numeral of minor is the label itself.
   */
  lemma GenericLabelIsUnique(s: string, major: U32, minor: U32)
    requires |s| >= 8 && s[..8] == WINDOWS_PREFIX
    requires var d := 8 + FirstDot(s[8..]);
      && d < |s|
      && Decimal.IsNumeral(s[8..d]) && Decimal.ParseDecimal(s[8..d]) == major
      && Decimal.IsNumeral(s[d + 1..]) && Decimal.ParseDecimal(s[d + 1..]) == minor
    ensures s == GenericLabel(major, minor)
  {
    var d := 8 + FirstDot(s[8..]);
    Decimal.NumeralIsNatToString(s[8..d]);
    Decimal.NumeralIsNatToString(s[d + 1..]);
    SplitAtDot(s, 8, d);
  }

  /** A string cut around the dot at index d, after a prefix of length n. */
  lemma SplitAtDot(s: string, n: nat, d: nat)
    requires n <= d < |s| && s[d] == '.'
    ensures s == s[..n] + s[n..d] + "." + s[d + 1..]
  {
    assert s[d..d + 1] == ".";
    assert s == s[..n] + s[n..d] + s[d..d + 1] + s[d + 1..];
  }

  /** The generic label names its version uniquely. */
  lemma GenericLabelInjective(major1: U32, minor1: U32, major2: U32, minor2: U32)
    ensures GenericLabel(major1, minor1) == GenericLabel(major2, minor2) <==> major1 == major2 && minor1 == minor2
  {
    if GenericLabel(major1, minor1) == GenericLabel(major2, minor2) {
      // the same label reads back as the same pair of numbers
      var s := GenericLabel(major1, minor1);
      var d := 8 + FirstDot(s[8..]);
      assert major1 == Decimal.ParseDecimal(s[8..d]) == major2;
      assert minor1 == Decimal.ParseDecimal(s[d + 1..]) == minor2;
    }
  }

  /** Two triples fall in the same class: both Windows 11, both Windows 10, or the same major.minor outside 10.0. */
  predicate SameRelease(major1: U32, minor1: U32, build1: U32, major2: U32, minor2: U32, build2: U32) {
    && major1 == major2 && minor1 == minor2
    && (major1 == 10 && minor1 == 0 ==> (build1 >= WINDOWS_11_FIRST_BUILD <==> build2 >= WINDOWS_11_FIRST_BUILD))
  }

  /** The version label identifies the release class, and nothing finer: the build never enters it. */
  lemma VersionLabelIdentifiesRelease(major1: U32, minor1: U32, build1: U32, major2: U32, minor2: U32, build2: U32)
    ensures (Classify(major1, minor1, build1).version == Classify(major2, minor2, build2).version)
              <==> SameRelease(major1, minor1, build1, major2, minor2, build2)
  {
    GenericLabelInjective(major1, minor1, major2, minor2);
  }

  /** The patch string names the build uniquely, whatever the version label. */
  lemma PatchIdentifiesBuild(major1: U32, minor1: U32, build1: U32, major2: U32, minor2: U32, build2: U32)
    ensures Classify(major1, minor1, build1).patch == Classify(major2, minor2, build2).patch <==> build1 == build2
  {
    Decimal.NatToStringInjective(build1, build2);
  }

  /** The documented classifications. */
  lemma ClassifyExamples(build: U32)
    ensures Classify(10, 0, 22000).version == "Windows 11"
    ensures Classify(10, 0, 19045).version == "Windows 10"
    ensures Classify(10, 0, 19045).patch == "19045"
    ensures Classify(6, 1, build).version == "Windows 6.1"
  {
  }
}
