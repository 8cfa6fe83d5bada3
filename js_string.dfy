/** The few JavaScript string primitives the forms rely on: the `\s` class and
    `trim()`, `includes`, and the camelCase helpers built from
    `replace(/([A-Z])/g, ' $1')`, `toLowerCase` and `toUpperCase`. */
module JsString {
  import opened Wrappers

  /** JavaScript's WhiteSpace and LineTerminator code points: the set matched by
      `\s` in a regular expression and removed by `String.prototype.trim`. */
  predicate IsWs(c: char) {
    c == ' ' || c == '\t' || c == '\n' || c == '\r' || c == '\U{000B}' || c == '\U{000C}'
    || c == '\U{00A0}' || c == '\U{1680}' || ('\U{2000}' <= c <= '\U{200A}')
    || c == '\U{2028}' || c == '\U{2029}' || c == '\U{202F}' || c == '\U{205F}'
    || c == '\U{3000}' || c == '\U{FEFF}'
  }

  /** `\d` and `[0-9]`: ASCII digits only. */
  predicate IsDigit(c: char) { '0' <= c <= '9' }

  /** `[a-zA-Z]` */
  predicate IsLetter(c: char) { 'a' <= c <= 'z' || 'A' <= c <= 'Z' }

  /** `[A-Z]` */
  predicate IsUpper(c: char) { 'A' <= c <= 'Z' }

  predicate AllWs(s: string) { forall i :: 0 <= i < |s| ==> IsWs(s[i]) }

  predicate AllDigits(s: string) { forall i :: 0 <= i < |s| ==> IsDigit(s[i]) }

  // ---------------------------------------------------------------- length

  /** A character outside the Basic Multilingual Plane, which UTF-16 stores
      as a surrogate pair. */
  predicate IsAstral(c: char) { c as int > 0xFFFF }

  predicate InBmp(s: string) { forall i :: 0 <= i < |s| ==> !IsAstral(s[i]) }

  /** `length`: the number of UTF-16 code units, two for an astral character. */
  function Utf16Length(s: string): (r: nat)
    ensures |s| <= r <= 2 * |s|
    ensures r == |s| <==> InBmp(s)
  {
    if s == [] then 0
    else
      var rest := Utf16Length(s[1..]);
      assert InBmp(s) <==> !IsAstral(s[0]) && InBmp(s[1..]) by {
        if InBmp(s) {
          assert forall i :: 0 <= i < |s[1..]| ==> s[1..][i] == s[i + 1];
        }
        if !IsAstral(s[0]) && InBmp(s[1..]) {
          forall i | 0 <= i < |s| ensures !IsAstral(s[i]) {
            if i > 0 { assert s[i] == s[1..][i - 1]; }
          }
        }
      }
      (if IsAstral(s[0]) then 2 else 1) + rest
  }

  /** Letters and whitespace all lie in the Basic Multilingual Plane. */
  lemma LettersAndSpacesInBmp(s: string)
    requires forall i :: 0 <= i < |s| ==> IsLetter(s[i]) || IsWs(s[i])
    ensures Utf16Length(s) == |s|
  {
    assert InBmp(s);
  }

  // ---------------------------------------------------------------- trim

  /** `trimStart()`: drops the longest all-whitespace prefix (see
      TrimStartSpec). */
  function TrimStart(s: string): string {
    if s != [] && IsWs(s[0]) then TrimStart(s[1..]) else s
  }

  lemma {:induction false} TrimStartSpec(s: string)
    ensures var r := TrimStart(s);
      && |r| <= |s| && r == s[|s| - |r|..]
      && AllWs(s[..|s| - |r|])
      && (r != [] ==> !IsWs(r[0]))
  {
    if s != [] && IsWs(s[0]) {
      TrimStartSpec(s[1..]);
      var r := TrimStart(s);
      assert s[..|s| - |r|] == [s[0]] + s[1..][..|s| - 1 - |r|];
    }
  }

  /** `trimEnd()`: drops the longest all-whitespace suffix (see TrimEndSpec). */
  function TrimEnd(s: string): string {
    if s != [] && IsWs(s[|s| - 1]) then TrimEnd(s[..|s| - 1]) else s
  }

  lemma {:induction false} TrimEndSpec(s: string)
    ensures var r := TrimEnd(s);
      && |r| <= |s| && r == s[..|r|]
      && AllWs(s[|r|..])
      && (r != [] ==> !IsWs(r[|r| - 1]))
  {
    if s != [] && IsWs(s[|s| - 1]) {
      var t := s[..|s| - 1];
      TrimEndSpec(t);
      var r := TrimEnd(s);
      assert s[|r|..] == t[|r|..] + [s[|s| - 1]];
    }
  }

  /** `trim()`: whitespace removed from both ends (see TrimSpec). */
  function Trim(s: string): string {
    TrimEnd(TrimStart(s))
  }

  /** The trimmed text is the piece of the original left between an
      all-whitespace prefix and an all-whitespace suffix. */
  lemma TrimIsPiece(s: string) returns (i: nat, j: nat)
    ensures i <= j <= |s| && Trim(s) == s[i..j] && AllWs(s[..i]) && AllWs(s[j..])
  {
    var t := TrimStart(s);
    TrimStartSpec(s);
    TrimEndSpec(t);
    var r := TrimEnd(t);
    i, j := |s| - |t|, |s| - |t| + |r|;
    assert s[j..] == t[|r|..];
  }

  /** The trimmed text is a piece of the original that neither starts nor
      ends with whitespace, and it is empty exactly when the original is all
      whitespace. */
  lemma TrimSpec(s: string)
    ensures var r := Trim(s);
      && |r| <= |s|
      && (exists i, j :: 0 <= i <= j <= |s| && r == s[i..j] && AllWs(s[..i]) && AllWs(s[j..]))
      && (r != [] ==> !IsWs(r[0]) && !IsWs(r[|r| - 1]))
      && (r == [] <==> AllWs(s))
  {
    var i, j := TrimIsPiece(s);
    var t := TrimStart(s);
    TrimStartSpec(s);
    TrimEndSpec(t);
    var r := TrimEnd(t);
    if r != [] {
      assert r[0] == t[0];
    }
    if r == [] {
      assert AllWs(t[|r|..]);
      assert s == s[..|s| - |t|] + t;
    }
  }

  /** `!s.trim()`: the JavaScript test for a blank field, which holds exactly
      when every character is whitespace (see BlankIsTrimmedEmpty). */
  predicate IsBlank(s: string) { AllWs(s) }

  lemma BlankIsTrimmedEmpty(s: string)
    ensures IsBlank(s) <==> Trim(s) == []
  {
    TrimSpec(s);
  }

  /** `x || fallback` on a text that may be missing: a missing or empty text
      gives way to the fallback. */
  function OrElse(x: Option<string>, fallback: string): (r: string)
    ensures x.Some? && x.value != "" ==> r == x.value
    ensures x.None? || x.value == "" ==> r == fallback
    ensures fallback != "" ==> r != ""
  {
    if x.Some? && x.value != "" then x.value else fallback
  }

  // ---------------------------------------------------------------- includes

  predicate OccursAt(s: string, sub: string, i: int) {
    0 <= i && i + |sub| <= |s| && s[i..i + |sub|] == sub
  }

  /** `s.indexOf(sub, from)`: the first position at or after `from` where
      `sub` occurs. */
  function IndexOf(s: string, sub: string, from: nat): (r: Option<nat>)
    ensures r.Some? ==> from <= r.value && OccursAt(s, sub, r.value)
    ensures r.Some? ==> forall j :: from <= j < r.value ==> !OccursAt(s, sub, j)
    ensures r.None? ==> forall j :: from <= j ==> !OccursAt(s, sub, j)
    decreases |s| - from
  {
    if from + |sub| > |s| then None
    else if s[from..from + |sub|] == sub then Some(from)
    else IndexOf(s, sub, from + 1)
  }

  /** `s.includes(sub)` */
  predicate Includes(s: string, sub: string) {
    IndexOf(s, sub, 0).Some?
  }

  lemma IncludesIff(s: string, sub: string)
    ensures Includes(s, sub) <==> exists i :: OccursAt(s, sub, i)
  {
    if !Includes(s, sub) {
      forall i ensures !OccursAt(s, sub, i) {
        if i >= 0 { assert IndexOf(s, sub, 0).None?; }
      }
    }
  }

  // ---------------------------------------------------------------- case

  /** `toLowerCase` on one character (ASCII letters only). */
  function LowerChar(c: char): char {
    if IsUpper(c) then (c as int - 'A' as int + 'a' as int) as char else c
  }

  /** `toUpperCase` on one character (ASCII letters only). */
  function UpperChar(c: char): char {
    if 'a' <= c <= 'z' then (c as int - 'a' as int + 'A' as int) as char else c
  }

  /** `toLowerCase()`, character by character. */
  function ToLower(s: string): (r: string)
    ensures |r| == |s|
    ensures forall i :: 0 <= i < |s| ==> r[i] == LowerChar(s[i])
  {
    if s == [] then [] else [LowerChar(s[0])] + ToLower(s[1..])
  }

  // ---------------------------------------------------------------- camelCase

  function CountUpper(s: string): nat {
    if s == [] then 0 else (if IsUpper(s[0]) then 1 else 0) + CountUpper(s[1..])
  }

  /** `s.replace(/([A-Z])/g, ' $1')`: a space before every capital letter. The
      result is longer by one character per capital and never starts with a
      capital (a capital is always preceded by the inserted space). */
  function SpaceBeforeCapitals(s: string): (r: string)
    ensures |r| == |s| + CountUpper(s)
    ensures r != [] ==> !IsUpper(r[0])
  {
    if s == [] then []
    else (if IsUpper(s[0]) then [' ', s[0]] else [s[0]]) + SpaceBeforeCapitals(s[1..])
  }

  /** A text without capitals is left as it is by both the spacing and the
      lower-casing. */
  lemma {:induction false} NoCapitalsUnchanged(s: string)
    requires forall i :: 0 <= i < |s| ==> !IsUpper(s[i])
    ensures SpaceBeforeCapitals(s) == s && ToLower(s) == s
  {
    if s != [] {
      NoCapitalsUnchanged(s[1..]);
      assert s == [s[0]] + s[1..];
    }
  }

  /** Removes each space that is directly followed by a capital letter: the
      inverse of SpaceBeforeCapitals. */
  function DropSpaceBeforeCapitals(t: string): string {
    if t == [] then []
    else if |t| >= 2 && t[0] == ' ' && IsUpper(t[1]) then [t[1]] + DropSpaceBeforeCapitals(t[2..])
    else [t[0]] + DropSpaceBeforeCapitals(t[1..])
  }

  /** No information is lost by the camelCase spacing: the original text is
      recovered from the spaced one, even when it already held spaces. */
  lemma {:induction false} SpacingRoundTrip(s: string)
    ensures DropSpaceBeforeCapitals(SpaceBeforeCapitals(s)) == s
  {
    if s != [] {
      var rest := SpaceBeforeCapitals(s[1..]);
      SpacingRoundTrip(s[1..]);
      if IsUpper(s[0]) {
        assert SpaceBeforeCapitals(s) == [' ', s[0]] + rest;
        assert ([' ', s[0]] + rest)[2..] == rest;
      } else {
        assert SpaceBeforeCapitals(s) == [s[0]] + rest;
        assert ([s[0]] + rest)[1..] == rest;
        if rest != [] {
          assert !IsUpper(rest[0]);
        }
      }
    }
  }
}
