/** Version identity: parsing, printing and precedence. */
module SemanticVersions {
  import opened Audio
  import opened Decimal
  import opened Sequences

  const UINT32_LIMIT := 0x1_0000_0000

  datatype SemanticVersion = SemanticVersion(major: nat, minor: nat, patch: nat, prerelease: string)
  {
    /** The numeric fields fit their type. */
    predicate Fits() { major < UINT32_LIMIT && minor < UINT32_LIMIT && patch < UINT32_LIMIT }
  }

  // ----- Searching ----------------------------------------------------------------------

  /** The first position of a character, or the length when there is none. */
  function First(s: string, c: char): (i: nat)
    ensures i <= |s| && (i < |s| ==> s[i] == c)
    ensures forall k :: 0 <= k < i ==> s[k] != c
  {
    if s == "" || s[0] == c then 0 else 1 + First(s[1..], c)
  }

  function LastOf(s: string, c: char): (i: nat)
    ensures i <= |s| && (i < |s| ==> s[i] == c && forall k :: i < k < |s| ==> s[k] != c)
    ensures i == |s| ==> forall k :: 0 <= k < |s| ==> s[k] != c
  {
    if s == "" then 0
    else if s[|s| - 1] == c then |s| - 1
    else
      var i := LastOf(s[..|s| - 1], c);
      if i == |s| - 1 then |s| else i
  }

  // ----- Prerelease identifiers ---------------------------------------------------------

  predicate IsIdentifierChar(c: char) {
    ('0' <= c <= '9') || ('a' <= c <= 'z') || ('A' <= c <= 'Z') || c == '-'
  }

  predicate IsIdentifier(s: string) {
    s != "" && forall i :: 0 <= i < |s| ==> IsIdentifierChar(s[i])
  }

  /** Identifiers with a dot between each two. */
  predicate IsDotted(text: string)
    decreases |text|
  {
    var dot := First(text, '.');
    IsIdentifier(text[..dot]) && (dot < |text| ==> IsDotted(text[dot + 1..]))
  }

  /** Something that may stand where it does: no dot follows a dot. */
  predicate CharOk(text: string, i: nat)
    requires i < |text|
  {
    && (text[i] == '.' || IsIdentifierChar(text[i]))
    && (i > 0 && text[i] == '.' ==> text[i - 1] != '.')
  }

  predicate CharsOk(text: string, n: nat)
    requires n <= |text|
  {
    forall i :: 0 <= i < n ==> CharOk(text, i)
  }

  /** The test as the loop makes it: no dot at either end or after another dot. */
  predicate WellDotted(text: string) {
    text != "" && text[0] != '.' && text[|text| - 1] != '.' && CharsOk(text, |text|)
  }

  lemma IdentifierIsWellDotted(text: string)
    requires First(text, '.') == |text|
    ensures WellDotted(text) <==> IsIdentifier(text)
    ensures text[..|text|] == text
  {
    if WellDotted(text) {
      forall i | 0 <= i < |text| ensures IsIdentifierChar(text[i]) { assert CharOk(text, i); }
    }
  }

  /** That test accepts exactly the dotted identifiers. */
  lemma {:induction false} WellDottedIsDotted(text: string)
    ensures WellDotted(text) <==> IsDotted(text)
    decreases |text|
  {
    var dot := First(text, '.');
    if dot == |text| {
      IdentifierIsWellDotted(text);
    } else {
      WellDottedIsDotted(text[dot + 1..]);
      if WellDotted(text) {
        RestIsWellDotted(text, dot);
      }
      if IsDotted(text) {
        DottedIsWellDotted(text, dot);
      }
    }
  }

  lemma RestIsWellDotted(text: string, dot: nat)
    requires dot == First(text, '.') && dot < |text| && WellDotted(text)
    ensures IsIdentifier(text[..dot]) && WellDotted(text[dot + 1..])
  {
    var head, rest := text[..dot], text[dot + 1..];
    forall i | 0 <= i < dot ensures IsIdentifierChar(head[i]) { assert CharOk(text, i); }
    assert CharOk(text, dot + 1) && text[dot + 1] == rest[0];
    forall i | 0 <= i < |rest| ensures CharOk(rest, i) {
      assert CharOk(text, dot + 1 + i);
    }
    assert text[|text| - 1] == rest[|rest| - 1];
  }

  lemma HeadCharOk(text: string, dot: nat, i: nat)
    requires i <= dot < |text| && text[dot] == '.' && IsIdentifier(text[..dot])
    ensures CharOk(text, i)
  {
    var head := text[..dot];
    assert i < dot ==> text[i] == head[i];
    assert i > 0 ==> text[i - 1] == head[i - 1];
  }

  lemma RestCharOk(text: string, dot: nat, i: nat)
    requires dot < i < |text| && text[dot + 1] != '.' && CharOk(text[dot + 1..], i - dot - 1)
    ensures CharOk(text, i)
  {
    var rest := text[dot + 1..];
    assert text[i] == rest[i - dot - 1];
    assert i > dot + 1 ==> text[i - 1] == rest[i - dot - 2];
  }

  lemma AllCharsOk(text: string, dot: nat)
    requires dot + 1 < |text| && text[dot] == '.' && text[dot + 1] != '.'
    requires IsIdentifier(text[..dot]) && CharsOk(text[dot + 1..], |text| - dot - 1)
    ensures CharsOk(text, |text|)
  {
    forall i | 0 <= i < |text| ensures CharOk(text, i) {
      if i <= dot {
        HeadCharOk(text, dot, i);
      } else {
        assert CharOk(text[dot + 1..], i - dot - 1);
        RestCharOk(text, dot, i);
      }
    }
  }

  lemma EndsOk(text: string, dot: nat)
    requires dot + 1 < |text| && IsIdentifier(text[..dot])
    requires text[dot + 1..][0] != '.' && text[dot + 1..][|text| - dot - 2] != '.'
    ensures text[0] != '.' && text[dot + 1] != '.' && text[|text| - 1] != '.'
  {
    assert text[0] == text[..dot][0];
  }

  lemma DottedIsWellDotted(text: string, dot: nat)
    requires dot < |text| && text[dot] == '.'
    requires IsIdentifier(text[..dot]) && WellDotted(text[dot + 1..])
    ensures WellDotted(text)
  {
    EndsOk(text, dot);
    AllCharsOk(text, dot);
  }

  /** A letter, a digit or a hyphen, or a dot that something other than a dot follows. */
  predicate MayStand(text: string, i: nat)
    requires i < |text|
  {
    || 'a' <= text[i] <= 'z' || 'A' <= text[i] <= 'Z' || '0' <= text[i] <= '9' || text[i] == '-'
    || (text[i] == '.' && i + 1 < |text| && text[i + 1] != '.')
  }

  /** The texts accepted as a prerelease, character by character. */
  predicate IsPrerelease(text: string) {
    text != "" && text[0] != '.' && forall i :: 0 <= i < |text| ==> MayStand(text, i)
  }

  lemma DottedIsPrerelease(text: string)
    ensures IsDotted(text) <==> IsPrerelease(text)
  {
    WellDottedIsDotted(text);
    if WellDotted(text) {
      forall i | 0 <= i < |text| ensures MayStand(text, i) {
        assert CharOk(text, i);
        assert i + 1 < |text| ==> CharOk(text, i + 1);
      }
    }
    if IsPrerelease(text) {
      assert MayStand(text, |text| - 1);
      forall i | 0 <= i < |text| ensures CharOk(text, i) {
        assert MayStand(text, i);
        assert i > 0 ==> MayStand(text, i - 1);
      }
    }
  }

  method IsValidPrerelease(text: string) returns (valid: bool)
    ensures valid <==> IsPrerelease(text)
    ensures valid <==> IsDotted(text)
  {
    WellDottedIsDotted(text);
    DottedIsPrerelease(text);
    if text == "" || text[0] == '.' || text[|text| - 1] == '.' {
      return false;
    }
    var previousWasDot := false;
    for i := 0 to |text|
      invariant CharsOk(text, i)
      invariant previousWasDot <==> i > 0 && text[i - 1] == '.'
    {
      var c := text[i];
      assert CharsOk(text, |text|) ==> CharOk(text, i);
      if c == '.' {
        if previousWasDot {
          return false;
        }
        previousWasDot := true;
      } else {
        previousWasDot := false;
        if !IsIdentifierChar(c) {
          return false;
        }
      }
    }
    valid := true;
  }

  // ----- Parsing and printing -----------------------------------------------------------

  predicate AllDigits(s: string) { forall i :: 0 <= i < |s| ==> IsDigit(s[i]) }

  /** One numeric field: digits without leading zeros, within 32 bits. */
  function ParseNumeric(text: string): Option<nat> {
    if text == "" || (|text| > 1 && text[0] == '0') then None
    else if !AllDigits(text) || Value(text) >= UINT32_LIMIT then None
    else Some(Value(text))
  }

  function ParseNumbers(text: string, prerelease: string): Option<SemanticVersion> {
    var firstDot, lastDot := First(text, '.'), LastOf(text, '.');
    if firstDot == |text| || firstDot == lastDot then None
    else
      var major := ParseNumeric(text[..firstDot]);
      var minor := ParseNumeric(text[firstDot + 1..lastDot]);
      var patch := ParseNumeric(text[lastDot + 1..]);
      if major.None? || minor.None? || patch.None? then None
      else Some(SemanticVersion(major.value, minor.value, patch.value, prerelease))
  }

  function Parse(text: string): Option<SemanticVersion> {
    var dash := First(text, '-');
    if dash == |text| then ParseNumbers(text, "")
    else if !IsDotted(text[dash + 1..]) then None
    else ParseNumbers(text[..dash], text[dash + 1..])
  }

  function Numbers(v: SemanticVersion): string {
    Print(v.major) + "." + Print(v.minor) + "." + Print(v.patch)
  }

  function ToString(v: SemanticVersion): string {
    Numbers(v) + if v.prerelease == "" then "" else "-" + v.prerelease
  }

  lemma NumericRoundTrip(n: nat)
    requires n < UINT32_LIMIT
    ensures ParseNumeric(Print(n)) == Some(n)
  {
    PrintIsCanonical(n);
    ValueOfPrint(n);
  }

  lemma NumericPrintsBack(text: string)
    requires ParseNumeric(text).Some?
    ensures AllDigits(text) && ParseNumeric(text).value < UINT32_LIMIT && Print(ParseNumeric(text).value) == text
  {
    PrintOfValue(text);
  }

  /** Digits, a dot, digits, a dot, digits: the dots are found where they are. */
  lemma DotsAreFound(a: string, b: string, c: string)
    requires AllDigits(a) && AllDigits(b) && AllDigits(c)
    ensures var text := a + "." + b + "." + c;
      && First(text, '.') == |a| && LastOf(text, '.') == |a| + 1 + |b|
      && text[..|a|] == a && text[|a| + 1..|a| + 1 + |b|] == b && text[|a| + 1 + |b| + 1..] == c
      && First(text, '-') == |text|
  {
    var text := a + "." + b + "." + c;
    assert text[|a|] == '.' && text[|a| + 1 + |b|] == '.';
    assert forall i :: 0 <= i < |a| ==> text[i] == a[i];
    assert forall i :: 0 <= i < |b| ==> text[|a| + 1 + i] == b[i];
    assert forall i :: 0 <= i < |c| ==> text[|a| + 1 + |b| + 1 + i] == c[i];
    forall i | 0 <= i < |text| ensures text[i] != '-' {
      assert i < |a| ==> IsDigit(a[i]);
      assert |a| < i < |a| + 1 + |b| ==> IsDigit(b[i - |a| - 1]);
      assert i > |a| + 1 + |b| ==> IsDigit(c[i - |a| - |b| - 2]);
    }
    forall i | |a| + 1 + |b| < i < |text| ensures text[i] != '.' {
      assert IsDigit(c[i - |a| - |b| - 2]);
    }
  }

  lemma FieldsParse(a: string, b: string, c: string, prerelease: string)
    requires AllDigits(a) && AllDigits(b) && AllDigits(c)
    requires ParseNumeric(a).Some? && ParseNumeric(b).Some? && ParseNumeric(c).Some?
    ensures ParseNumbers(a + "." + b + "." + c, prerelease)
         == Some(SemanticVersion(ParseNumeric(a).value, ParseNumeric(b).value, ParseNumeric(c).value, prerelease))
  {
    DotsAreFound(a, b, c);
  }

  lemma NumbersRoundTrip(v: SemanticVersion)
    requires v.Fits()
    ensures ParseNumbers(Numbers(v), v.prerelease) == Some(v)
    ensures First(Numbers(v), '-') == |Numbers(v)|
  {
    NumericRoundTrip(v.major);
    NumericRoundTrip(v.minor);
    NumericRoundTrip(v.patch);
    FieldsParse(Print(v.major), Print(v.minor), Print(v.patch), v.prerelease);
    DotsAreFound(Print(v.major), Print(v.minor), Print(v.patch));
  }

  lemma DashIsFound(numbers: string, rest: string)
    requires First(numbers, '-') == |numbers|
    ensures var text := numbers + "-" + rest;
      First(text, '-') == |numbers| && text[..|numbers|] == numbers && text[|numbers| + 1..] == rest
  {
    var text := numbers + "-" + rest;
    assert text[|numbers|] == '-';
    assert forall i :: 0 <= i < |numbers| ==> text[i] == numbers[i];
  }

  /** Everything parse accepts has fields in range and a valid prerelease or none. */
  lemma ParsedIsWellFormed(text: string)
    requires Parse(text).Some?
    ensures var v := Parse(text).value; v.Fits() && (v.prerelease == "" || IsDotted(v.prerelease))
  {
  }

  /** Parsing on the two parts of a text with a dash between them. */
  lemma ParseAtDash(numbers: string, rest: string)
    requires First(numbers, '-') == |numbers| && IsDotted(rest)
    ensures Parse(numbers + "-" + rest) == ParseNumbers(numbers, rest)
  {
    DashIsFound(numbers, rest);
  }

  lemma PrintedWithDash(v: SemanticVersion)
    requires v.prerelease != ""
    ensures ToString(v) == Numbers(v) + "-" + v.prerelease
  {
    Associate(Numbers(v), "-", v.prerelease);
  }

  lemma PrintedWithout(v: SemanticVersion)
    requires v.prerelease == ""
    ensures ToString(v) == Numbers(v)
  {
    ConcatEmpty(Numbers(v));
  }

  lemma PrintedParses(v: SemanticVersion)
    requires v.Fits() && (v.prerelease == "" || IsDotted(v.prerelease))
    ensures Parse(ToString(v)) == Some(v)
  {
    NumbersRoundTrip(v);
    if v.prerelease == "" {
      PrintedWithout(v);
    } else {
      ParseAtDash(Numbers(v), v.prerelease);
      PrintedWithDash(v);
    }
  }

  /** parse undoes toString exactly for the versions that have 32-bit fields and an empty or
      valid prerelease. */
  lemma ParseOfToString(v: SemanticVersion)
    ensures Parse(ToString(v)) == Some(v) <==> v.Fits() && (v.prerelease == "" || IsDotted(v.prerelease))
  {
    if v.Fits() && (v.prerelease == "" || IsDotted(v.prerelease)) {
      PrintedParses(v);
    }
    if Parse(ToString(v)) == Some(v) {
      ParsedIsWellFormed(ToString(v));
    }
  }

  lemma CutAtDots(text: string, i: nat, j: nat)
    requires i < j < |text| && text[i] == text[j] == '.'
    ensures text[..i] + "." + text[i + 1..j] + "." + text[j + 1..] == text
  {
  }

  lemma CutAtDash(text: string, i: nat)
    requires i < |text| && text[i] == '-'
    ensures text[..i] + "-" + text[i + 1..] == text
  {
  }

  lemma NumbersPrintBack(text: string, prerelease: string)
    requires ParseNumbers(text, prerelease).Some?
    ensures Numbers(ParseNumbers(text, prerelease).value) == text
    ensures ParseNumbers(text, prerelease).value.prerelease == prerelease
  {
    var firstDot, lastDot := First(text, '.'), LastOf(text, '.');
    assert firstDot < lastDot < |text|;
    NumericPrintsBack(text[..firstDot]);
    NumericPrintsBack(text[firstDot + 1..lastDot]);
    NumericPrintsBack(text[lastDot + 1..]);
    CutAtDots(text, firstDot, lastDot);
  }

  /** toString undoes parse on every string parse accepts. */
  lemma ToStringOfParse(text: string)
    requires Parse(text).Some?
    ensures ToString(Parse(text).value) == text
  {
    var dash := First(text, '-');
    if dash == |text| {
      NumbersPrintBack(text, "");
    } else {
      NumbersPrintBack(text[..dash], text[dash + 1..]);
      assert text[dash + 1..] != "";
      CutAtDash(text, dash);
      Associate(text[..dash], "-", text[dash + 1..]);
    }
  }

  /** How a version reads: three numbers with dots between them, and behind a dash the
      prerelease if there is one. */
  predicate Reads(v: SemanticVersion, text: string) {
    text == Print(v.major) + "." + Print(v.minor) + "." + Print(v.patch)
            + if v.prerelease == "" then "" else "-" + v.prerelease
  }

  /** parse accepts exactly the texts of the versions with 32-bit fields and no prerelease or a
      valid one, and returns the version the text reads. */
  lemma ParseAcceptsExactly(text: string, v: SemanticVersion)
    ensures Parse(text) == Some(v) <==>
      && Reads(v, text)
      && v.major < 4_294_967_296 && v.minor < 4_294_967_296 && v.patch < 4_294_967_296
      && (v.prerelease == "" || IsPrerelease(v.prerelease))
  {
    DottedIsPrerelease(v.prerelease);
    if Parse(text) == Some(v) {
      ToStringOfParse(text);
      ParsedIsWellFormed(text);
    }
    if Reads(v, text) {
      ParseOfToString(v);
    }
  }

  // ----- Precedence ---------------------------------------------------------------------

  datatype Ordering = Less | Equal | Greater

  function Flip(o: Ordering): Ordering {
    match o
    case Less => Greater
    case Equal => Equal
    case Greater => Less
  }

  function CompareNumbers(a: nat, b: nat): Ordering {
    if a < b then Less else if a > b then Greater else Equal
  }

  function CompareStrings(a: string, b: string): Ordering {
    if a == "" && b == "" then Equal
    else if a == "" then Less
    else if b == "" then Greater
    else if a[0] != b[0] then (if a[0] < b[0] then Less else Greater)
    else CompareStrings(a[1..], b[1..])
  }

  function Compare(a: SemanticVersion, b: SemanticVersion): Ordering {
    var major := CompareNumbers(a.major, b.major);
    if major != Equal then major else
      var minor := CompareNumbers(a.minor, b.minor);
      if minor != Equal then minor else
        var patch := CompareNumbers(a.patch, b.patch);
        if patch != Equal then patch
        else if (a.prerelease == "") != (b.prerelease == "") then (if a.prerelease == "" then Greater else Less)
        else CompareStrings(a.prerelease, b.prerelease)
  }

  lemma {:induction false} StringsAntisymmetric(a: string, b: string)
    ensures CompareStrings(b, a) == Flip(CompareStrings(a, b))
    ensures CompareStrings(a, b) == Equal <==> a == b
  {
    if a != "" && b != "" && a[0] == b[0] {
      StringsAntisymmetric(a[1..], b[1..]);
      assert a == [a[0]] + a[1..] && b == [b[0]] + b[1..];
    }
  }

  lemma {:induction false} StringsTransitive(a: string, b: string, c: string)
    requires CompareStrings(a, b) == Less && CompareStrings(b, c) == Less
    ensures CompareStrings(a, c) == Less
  {
    if a != "" && b != "" && c != "" && a[0] == b[0] == c[0] {
      StringsTransitive(a[1..], b[1..], c[1..]);
    }
  }

  /** Precedence is a total order, and equal exactly when the versions are. */
  lemma PrecedenceIsTotal(a: SemanticVersion, b: SemanticVersion)
    ensures Compare(b, a) == Flip(Compare(a, b))
    ensures Compare(a, b) == Equal <==> a == b
  {
    StringsAntisymmetric(a.prerelease, b.prerelease);
  }

  lemma PrecedenceIsTransitive(a: SemanticVersion, b: SemanticVersion, c: SemanticVersion)
    requires Compare(a, b) == Less && Compare(b, c) == Less
    ensures Compare(a, c) == Less
  {
    if CompareStrings(a.prerelease, b.prerelease) == Less && CompareStrings(b.prerelease, c.prerelease) == Less {
      StringsTransitive(a.prerelease, b.prerelease, c.prerelease);
    }
  }

  /** A release comes after every prerelease of it and before every one of the next patch. */
  lemma ReleaseOutranksPrereleases(v: SemanticVersion, prerelease: string, later: string)
    requires v.prerelease == "" && prerelease != ""
    ensures Compare(v.(prerelease := prerelease), v) == Less
    ensures Compare(v, v.(patch := v.patch + 1, prerelease := later)) == Less
  {
  }

  /** The texts agree up to k, where the first ends or has the smaller character. */
  predicate SmallerAt(a: string, b: string, k: nat) {
    && k <= |a| && k < |b| && a[..k] == b[..k]
    && (k == |a| || a[k] < b[k])
  }

  ghost predicate IsBefore(a: string, b: string) { exists k :: SmallerAt(a, b, k) }

  lemma HeadsAgree(a: string, b: string, k: nat)
    requires k > 0
    ensures SmallerAt(a, b, k) ==> a != "" && b != "" && a[0] == b[0]
  {
    if SmallerAt(a, b, k) {
      assert a[0] == a[..k][0] && b[0] == b[..k][0];
    }
  }

  lemma SmallerLater(a: string, b: string, k: nat)
    requires a != "" && b != "" && a[0] == b[0]
    ensures SmallerAt(a, b, k + 1) <==> SmallerAt(a[1..], b[1..], k)
  {
    if k + 1 <= |a| && k + 1 <= |b| {
      assert a[..k + 1] == [a[0]] + a[1..][..k];
      assert b[..k + 1] == [b[0]] + b[1..][..k];
      assert a[..k + 1] == b[..k + 1] ==> a[1..][..k] == a[..k + 1][1..] == b[1..][..k];
    }
  }

  lemma {:induction false} StringsCompareByFirstDifference(a: string, b: string)
    ensures CompareStrings(a, b) == Less <==> IsBefore(a, b)
  {
    if a == "" || b == "" || a[0] != b[0] {
      assert b != "" ==> (SmallerAt(a, b, 0) <==> a == "" || a[0] < b[0]);
      forall k: nat | k > 0 ensures !SmallerAt(a, b, k) {
        HeadsAgree(a, b, k);
      }
    } else {
      StringsCompareByFirstDifference(a[1..], b[1..]);
      if k: nat :| SmallerAt(a[1..], b[1..], k) {
        SmallerLater(a, b, k);
      }
      if k: nat :| SmallerAt(a, b, k) {
        if k > 0 {
          SmallerLater(a, b, k - 1);
        }
      }
    }
  }

  /** A prerelease is before the release, and before a prerelease that is later in the order of
      texts. */
  ghost predicate PrereleaseBefore(p: string, q: string) { p != "" && (q == "" || IsBefore(p, q)) }

  /** A version is below another by its major number, by the minor number among equal major ones,
      by the patch among equal minor ones, and then by the prerelease. */
  lemma PrecedenceIsByFields(a: SemanticVersion, b: SemanticVersion)
    ensures Compare(a, b) == Less <==>
      || a.major < b.major
      || (a.major == b.major && a.minor < b.minor)
      || (a.major == b.major && a.minor == b.minor && a.patch < b.patch)
      || (a.major == b.major && a.minor == b.minor && a.patch == b.patch
          && PrereleaseBefore(a.prerelease, b.prerelease))
  {
    StringsCompareByFirstDifference(a.prerelease, b.prerelease);
  }
}
