/** The regular expressions the forms test their fields against, each as an
    explicit predicate over the characters of the field. */
module Patterns {
  import opened Wrappers
  import opened JsString

  /** `/^[6-9]\d{9}$/` */
  predicate IsIndianMobile(s: string) {
    |s| == 10 && '6' <= s[0] <= '9' && AllDigits(s)
  }

  /** `/^[0-9]{10}$/` */
  predicate IsTenDigits(s: string) {
    |s| == 10 && AllDigits(s)
  }

  /** `/^\d{6}$/` */
  predicate IsPincode(s: string) {
    |s| == 6 && AllDigits(s)
  }

  /** `/^[a-zA-Z\s]*$/` */
  predicate LettersAndSpaces(s: string) {
    forall i :: 0 <= i < |s| ==> IsLetter(s[i]) || IsWs(s[i])
  }

  /** `name.length >= 2 && /^[a-zA-Z\s]*$/.test(name)`, which is also what
      `/^[a-zA-Z\s]{2,}$/` accepts. */
  predicate IsPersonName(s: string) {
    |s| >= 2 && LettersAndSpaces(s)
  }

  /** `IsPersonName` counts characters where `name.length` counts UTF-16
      units; the two agree because the pattern admits no astral character. */
  lemma PersonNameLengthInUnits(s: string)
    ensures IsPersonName(s) <==> Utf16Length(s) >= 2 && LettersAndSpaces(s)
  {
    if LettersAndSpaces(s) { LettersAndSpacesInBmp(s); }
  }

  /** `/^(?=.*[A-Za-z])(?=.*\d)[A-Za-z\d]{6,}$/`: the body admits only letters
      and digits, so the two look-aheads see the whole string. */
  predicate IsPassword(s: string) {
    && |s| >= 6
    && (forall i :: 0 <= i < |s| ==> IsLetter(s[i]) || IsDigit(s[i]))
    && (exists i :: 0 <= i < |s| && IsLetter(s[i]))
    && (exists i :: 0 <= i < |s| && IsDigit(s[i]))
  }

  lemma IndianMobileIsTenDigits(s: string)
    ensures IsIndianMobile(s) <==> IsTenDigits(s) && '6' <= s[0] <= '9'
  {
  }

  // ------------------------------------------------ /^[^\s@]+@[^\s@]+\.[^\s@]+$/

  predicate EmailAtom(c: char) { !IsWs(c) && c != '@' }

  predicate EmailSegment(t: string) {
    t != [] && forall i :: 0 <= i < |t| ==> EmailAtom(t[i])
  }

  /** `/^[^\s@]+@[^\s@]+\.[^\s@]+$/` read as a concatenation of its three
      non-empty segments and the two literal characters between them. */
  ghost predicate EmailRegexMatch(s: string) {
    exists at, dot ::
      && 0 <= at < dot < |s| && s[at] == '@' && s[dot] == '.'
      && EmailSegment(s[..at]) && EmailSegment(s[at + 1..dot]) && EmailSegment(s[dot + 1..])
  }

  predicate HasInnerDot(d: string) {
    exists k :: 0 < k < |d| - 1 && d[k] == '.'
  }

  /** The e-mail test as a scan: no whitespace anywhere, exactly one '@',
      something before it, and after it a '.' with text on both sides. */
  predicate IsEmail(s: string) {
    && (forall i :: 0 <= i < |s| ==> !IsWs(s[i]))
    && match IndexOf(s, "@", 0)
       case None => false
       case Some(at) => 0 < at && IndexOf(s, "@", at + 1).None? && HasInnerDot(s[at + 1..])
  }

  lemma OccursAtChar(s: string, c: char, i: int)
    requires 0 <= i < |s|
    ensures OccursAt(s, [c], i) <==> s[i] == c
  {
    if s[i] == c { assert s[i..i + 1] == [c]; }
  }

  lemma NoCharFrom(s: string, c: char, from: nat)
    requires forall j :: from <= j < |s| ==> s[j] != c
    ensures IndexOf(s, [c], from).None?
  {
    var r := IndexOf(s, [c], from);
    if r.Some? {
      OccursAtChar(s, c, r.value);
    }
  }

  lemma FirstChar(s: string, c: char, at: nat)
    requires at < |s| && s[at] == c
    requires forall j :: 0 <= j < at ==> s[j] != c
    ensures IndexOf(s, [c], 0) == Some(at)
  {
    OccursAtChar(s, c, at);
    var r := IndexOf(s, [c], 0);
    if r.Some? && r.value < at {
      OccursAtChar(s, c, r.value);
    }
  }

  lemma EmailScanMatches(s: string)
    requires IsEmail(s)
    ensures EmailRegexMatch(s)
  {
    var at := IndexOf(s, "@", 0).value;
    assert 0 < at && IndexOf(s, "@", at + 1).None?;
    var d := s[at + 1..];
    assert HasInnerDot(d);
    var k :| 0 < k < |d| - 1 && d[k] == '.';
    var dot := at + 1 + k;
    assert s[dot] == '.';
    forall j | 0 <= j < |s| && j != at ensures s[j] != '@' {
      assert !OccursAt(s, "@", j);
      OccursAtChar(s, '@', j);
    }
    assert EmailSegment(s[..at]);
    assert EmailSegment(s[at + 1..dot]);
    assert EmailSegment(s[dot + 1..]);
  }

  lemma SegmentChars(s: string, lo: nat, hi: nat)
    requires lo <= hi <= |s| && EmailSegment(s[lo..hi])
    ensures forall i :: lo <= i < hi ==> EmailAtom(s[i])
  {
    forall i | lo <= i < hi ensures EmailAtom(s[i]) {
      assert s[i] == s[lo..hi][i - lo];
    }
  }

  /** The scan's conditions, from the positions of the only '@' and of a
      '.' inside the part after it. */
  lemma EmailFromParts(s: string, at: nat, dot: nat)
    requires 0 < at && at + 1 < dot && dot + 1 < |s| && s[at] == '@' && s[dot] == '.'
    requires forall i :: 0 <= i < |s| ==> !IsWs(s[i])
    requires forall i :: 0 <= i < |s| && i != at ==> s[i] != '@'
    ensures IsEmail(s)
  {
    FirstChar(s, '@', at);
    NoCharFrom(s, '@', at + 1);
    var d := s[at + 1..];
    assert d[dot - at - 1] == '.';
  }

  lemma EmailMatchScans(s: string)
    requires EmailRegexMatch(s)
    ensures IsEmail(s)
  {
    var at, dot :| && 0 <= at < dot < |s| && s[at] == '@' && s[dot] == '.'
      && EmailSegment(s[..at]) && EmailSegment(s[at + 1..dot]) && EmailSegment(s[dot + 1..]);
    assert s[..at] == s[0..at] && s[dot + 1..] == s[dot + 1..|s|];
    SegmentChars(s, 0, at);
    SegmentChars(s, at + 1, dot);
    SegmentChars(s, dot + 1, |s|);
    EmailFromParts(s, at, dot);
  }

  /** The scan and the regular expression accept the same strings. */
  lemma EmailRegexIff(s: string)
    ensures IsEmail(s) <==> EmailRegexMatch(s)
  {
    if IsEmail(s) { EmailScanMatches(s); }
    if EmailRegexMatch(s) { EmailMatchScans(s); }
  }

  // ------------------------------ /^[a-zA-Z0-9._%+-]+@[a-zA-Z0-9.-]+\.[a-zA-Z]{2,}$/

  predicate LocalChar(c: char) {
    IsLetter(c) || IsDigit(c) || c == '.' || c == '_' || c == '%' || c == '+' || c == '-'
  }

  predicate DomainChar(c: char) {
    IsLetter(c) || IsDigit(c) || c == '.' || c == '-'
  }

  /** The vendor form's e-mail expression read as a concatenation: a non-empty
      local part, '@', a non-empty domain, '.', and at least two letters. */
  ghost predicate VendorEmailRegexMatch(s: string) {
    exists at, dot ::
      && 0 < at && at + 1 < dot && dot + 2 < |s| && s[at] == '@' && s[dot] == '.'
      && (forall i :: 0 <= i < at ==> LocalChar(s[i]))
      && (forall i :: at < i < dot ==> DomainChar(s[i]))
      && (forall i :: dot < i < |s| ==> IsLetter(s[i]))
  }

  /** The length of the longest all-letter suffix. */
  function TrailingLetters(s: string): (t: nat)
    ensures t <= |s|
    ensures forall i :: |s| - t <= i < |s| ==> IsLetter(s[i])
    ensures t < |s| ==> !IsLetter(s[|s| - t - 1])
  {
    if s != [] && IsLetter(s[|s| - 1]) then TrailingLetters(s[..|s| - 1]) + 1 else 0
  }

  lemma TrailingLettersAfter(s: string, dot: nat)
    requires dot < |s| && !IsLetter(s[dot])
    requires forall i :: dot < i < |s| ==> IsLetter(s[i])
    ensures TrailingLetters(s) == |s| - dot - 1
  {
    var t := TrailingLetters(s);
    assert |s| - t - 1 < dot + 1;
  }

  /** The same test as a scan: the first '@' splits the address; the top-level
      label is the longest all-letter suffix and must follow a '.'. */
  predicate IsVendorEmail(s: string) {
    match IndexOf(s, "@", 0)
    case None => false
    case Some(at) =>
      var t := TrailingLetters(s);
      var dot := |s| - t - 1;
      && 0 < at && t >= 2 && at + 1 < dot && s[dot] == '.'
      && (forall i :: 0 <= i < at ==> LocalChar(s[i]))
      && (forall i :: at < i < |s| ==> DomainChar(s[i]))
  }

  /** An address the vendor expression accepts is ASCII, so its `length`
      is its number of characters. */
  lemma VendorEmailInBmp(s: string)
    requires IsVendorEmail(s)
    ensures Utf16Length(s) == |s|
  {
    var at := IndexOf(s, "@", 0).value;
    OccursAtChar(s, '@', at);
    forall i | 0 <= i < |s| ensures !IsAstral(s[i]) {
      if i < at { assert LocalChar(s[i]); }
      else if i > at { assert DomainChar(s[i]); }
    }
  }

  lemma VendorEmailScanMatches(s: string)
    requires IsVendorEmail(s)
    ensures VendorEmailRegexMatch(s)
  {
    var at := IndexOf(s, "@", 0).value;
    var dot := |s| - TrailingLetters(s) - 1;
    assert 0 < at && at + 1 < dot && dot + 2 < |s|;
    OccursAtChar(s, '@', at);
  }

  lemma VendorEmailMatchScansAt(s: string, at: nat, dot: nat)
    requires 0 < at && at + 1 < dot && dot + 2 < |s| && s[at] == '@' && s[dot] == '.'
    requires forall i :: 0 <= i < at ==> LocalChar(s[i])
    requires forall i :: at < i < dot ==> DomainChar(s[i])
    requires forall i :: dot < i < |s| ==> IsLetter(s[i])
    ensures IsVendorEmail(s)
  {
    forall j | 0 <= j < at ensures s[j] != '@' {
      assert LocalChar(s[j]);
    }
    FirstChar(s, '@', at);
    TrailingLettersAfter(s, dot);
    forall i | at < i < |s| ensures DomainChar(s[i]) {
      if dot < i { assert IsLetter(s[i]); }
    }
  }

  lemma VendorEmailMatchScans(s: string)
    requires VendorEmailRegexMatch(s)
    ensures IsVendorEmail(s)
  {
    var at, dot :|
      && 0 < at && at + 1 < dot && dot + 2 < |s| && s[at] == '@' && s[dot] == '.'
      && (forall i :: 0 <= i < at ==> LocalChar(s[i]))
      && (forall i :: at < i < dot ==> DomainChar(s[i]))
      && (forall i :: dot < i < |s| ==> IsLetter(s[i]));
    VendorEmailMatchScansAt(s, at, dot);
  }

  /** The scan and the regular expression accept the same strings. */
  lemma VendorEmailRegexIff(s: string)
    ensures IsVendorEmail(s) <==> VendorEmailRegexMatch(s)
  {
    if IsVendorEmail(s) { VendorEmailScanMatches(s); }
    if VendorEmailRegexMatch(s) { VendorEmailMatchScans(s); }
  }
}
