/**
 * String helpers shared by the model: the JavaScript string operations the
 * application relies on (`trim`, `toLowerCase`, `includes`, `startsWith`,
 * `replace` with a string pattern, `padStart`, `Number.prototype.toString`,
 * `Array.prototype.join`), each stated over `seq<char>`.
 */
module Text {

  datatype Option<T> = None | Some(value: T)

  /** A thrown JavaScript value: an `Error` with its message, or anything
      else. */
  datatype Thrown = ErrorObject(message: string) | OtherValue

  /** `error instanceof Error ? error.message : fallback`. */
  function ErrorMessage(e: Thrown, fallback: string): (r: string)
    ensures e.ErrorObject? ==> r == e.message
    ensures e.OtherValue? ==> r == fallback
  {
    match e
    case ErrorObject(message) => message
    case OtherValue => fallback
  }

  /** The characters that JavaScript's `\s` class and `String.prototype.trim`
      both treat as white space: WhiteSpace plus LineTerminator. */
  const SpaceChars: set<char> :=
    {' ', '\t', '\n', '\r', '\U{000B}', '\U{000C}', '\U{00A0}', '\U{1680}',
     '\U{2000}', '\U{2001}', '\U{2002}', '\U{2003}', '\U{2004}', '\U{2005}',
     '\U{2006}', '\U{2007}', '\U{2008}', '\U{2009}', '\U{200A}',
     '\U{2028}', '\U{2029}', '\U{202F}', '\U{205F}', '\U{3000}', '\U{FEFF}'}

  predicate IsSpace(c: char)
  {
    c in SpaceChars
  }

  /** The characters after which a `^` in a multiline regular expression matches. */
  predicate IsLineTerminator(c: char)
  {
    c == '\n' || c == '\r' || c == '\U{2028}' || c == '\U{2029}'
  }

  predicate AllSpace(s: string)
  {
    forall i :: 0 <= i < |s| ==> IsSpace(s[i])
  }

  /** `s` occurs in `t` starting at index `i`. */
  predicate OccursAt(t: string, s: string, i: int)
  {
    0 <= i && i + |s| <= |t| && t[i..i + |s|] == s
  }

  /** `String.prototype.includes`. */
  predicate Contains(t: string, s: string)
  {
    exists i :: 0 <= i <= |t| - |s| && OccursAt(t, s, i)
  }

  /** `String.prototype.startsWith`. */
  predicate StartsWith(t: string, prefix: string)
  {
    |prefix| <= |t| && t[..|prefix|] == prefix
  }

  // ---------------------------------------------------------------------
  // trim

  /** The first index at or after `i` that does not hold white space. */
  function SkipSpaceForward(s: string, i: nat): (j: nat)
    requires i <= |s|
    ensures i <= j <= |s| && (j < |s| ==> !IsSpace(s[j]))
    ensures forall k :: i <= k < j ==> IsSpace(s[k])
    decreases |s| - i
  {
    if i < |s| && IsSpace(s[i]) then SkipSpaceForward(s, i + 1) else i
  }

  /** The least index `k`, with `lo <= k <= j`, such that `s[k..j]` is all white space. */
  function SkipSpaceBackward(s: string, lo: nat, j: nat): (k: nat)
    requires lo <= j <= |s|
    ensures lo <= k <= j && (lo < k ==> !IsSpace(s[k - 1]))
    ensures forall m :: k <= m < j ==> IsSpace(s[m])
  {
    if lo < j && IsSpace(s[j - 1]) then SkipSpaceBackward(s, lo, j - 1) else j
  }

  /** `s[i..j]` is what is left of `s` once the white space at both ends is
      cut: everything outside it is white space and it neither starts nor
      ends with white space. */
  predicate TrimBounds(s: string, i: int, j: int)
  {
    && 0 <= i <= j <= |s|
    && (forall k :: 0 <= k < i ==> IsSpace(s[k]))
    && (forall k :: j <= k < |s| ==> IsSpace(s[k]))
    && (i < j ==> !IsSpace(s[i]) && !IsSpace(s[j - 1]))
  }

  /** `String.prototype.trim`. */
  function Trim(s: string): (r: string)
    ensures |r| <= |s|
    ensures r == [] || (!IsSpace(r[0]) && !IsSpace(r[|r| - 1]))
  {
    var i := SkipSpaceForward(s, 0);
    var j := SkipSpaceBackward(s, i, |s|);
    s[i..j]
  }

  /** Trimming cuts exactly the white space at both ends. */
  lemma TrimCutsSpace(s: string)
    ensures exists i, j :: TrimBounds(s, i, j) && Trim(s) == s[i..j]
  {
    var i := SkipSpaceForward(s, 0);
    var j := SkipSpaceBackward(s, i, |s|);
    assert TrimBounds(s, i, j);
  }

  /** The trimmed text is empty exactly when the input is all white space. */
  lemma TrimEmpty(s: string)
    ensures Trim(s) == [] <==> AllSpace(s)
  {
    TrimCutsSpace(s);
    var r := Trim(s);
    var i, j :| TrimBounds(s, i, j) && r == s[i..j];
    if r == [] {
      assert i == j;
    } else {
      assert !IsSpace(s[i]);
    }
  }

  lemma TrimOfTrimmed(s: string)
    requires s == [] || (!IsSpace(s[0]) && !IsSpace(s[|s| - 1]))
    ensures Trim(s) == s
  {
    assert SkipSpaceForward(s, 0) == 0;
    assert SkipSpaceBackward(s, 0, |s|) == |s|;
    assert s[0..|s|] == s;
  }

  /** Trimming keeps only characters of its input. */
  lemma TrimKeepsCharacters(s: string, c: char)
    requires c !in s
    ensures c !in Trim(s)
  {
    TrimCutsSpace(s);
    var r := Trim(s);
    var i, j :| TrimBounds(s, i, j) && r == s[i..j];
  }

  // ---------------------------------------------------------------------
  // toLowerCase

  /** The lower case of one character, for every character whose lower case
      contains an ASCII letter: A-Z, KELVIN SIGN and LATIN CAPITAL LETTER I
      WITH DOT ABOVE (which lower-cases to two code points). */
  function LowerChar(c: char): (r: string)
    ensures |r| >= 1
    ensures 'A' <= c <= 'Z' ==> r == [(c as int + 32) as char]
    ensures !('A' <= c <= 'Z') && c != '\U{212A}' && c != '\U{0130}' ==> r == [c]
  {
    if 'A' <= c <= 'Z' then [(c as int + 32) as char]
    else if c == '\U{212A}' then "k"
    else if c == '\U{0130}' then "i\U{0307}"
    else [c]
  }

  /** `String.prototype.toLowerCase`, character by character. */
  function ToLower(s: string): (r: string)
    ensures |r| >= |s|
  {
    if s == [] then [] else LowerChar(s[0]) + ToLower(s[1..])
  }

  lemma {:induction false} ToLowerAppend(a: string, b: string)
    ensures ToLower(a + b) == ToLower(a) + ToLower(b)
  {
    if a == [] {
      assert a + b == b;
    } else {
      assert (a + b)[1..] == a[1..] + b;
      ToLowerAppend(a[1..], b);
    }
  }

  // ---------------------------------------------------------------------
  // replace (first occurrence of a string pattern)

  /** The index of the first occurrence of `pat` in `t` at or after `from`. */
  function IndexFrom(t: string, pat: string, from: nat): (r: Option<nat>)
    requires from <= |t| + 1
    ensures r.Some? ==> from <= r.value && OccursAt(t, pat, r.value)
    ensures r.Some? ==> forall j :: from <= j < r.value ==> !OccursAt(t, pat, j)
    ensures r.None? ==> forall j :: from <= j ==> !OccursAt(t, pat, j)
    decreases |t| + 1 - from
  {
    if from + |pat| > |t| then None
    else if t[from..from + |pat|] == pat then Some(from)
    else IndexFrom(t, pat, from + 1)
  }

  /** `String.prototype.indexOf` for a string pattern. */
  function IndexOf(t: string, pat: string): (r: Option<nat>)
    ensures r.None? <==> !Contains(t, pat)
    ensures r.Some? ==> OccursAt(t, pat, r.value) && forall j :: 0 <= j < r.value ==> !OccursAt(t, pat, j)
  {
    IndexFrom(t, pat, 0)
  }

  /** `String.prototype.replace(pattern, replacement)` with a string pattern:
      only the first occurrence is replaced, and the replacement is literal. */
  function ReplaceFirst(t: string, pat: string, rep: string): (r: string)
    ensures !Contains(t, pat) ==> r == t
    ensures Contains(t, pat) ==>
      exists i :: (OccursAt(t, pat, i) && (forall j :: 0 <= j < i ==> !OccursAt(t, pat, j))
                   && r == t[..i] + rep + t[i + |pat|..])
  {
    match IndexOf(t, pat)
    case None => t
    case Some(i) => t[..i] + rep + t[i + |pat|..]
  }

  /** A string in which `c` occurs exactly once, at `k`, holds a pattern that
      starts with `c` at no index other than `k`. */
  lemma OnlyOccurrence(t: string, pat: string, k: nat, c: char)
    requires k < |t| && t[k] == c
    requires forall i :: 0 <= i < |t| && i != k ==> t[i] != c
    requires |pat| > 0 && pat[0] == c
    ensures forall j :: OccursAt(t, pat, j) ==> j == k
  {
    forall j | OccursAt(t, pat, j) ensures j == k {
      assert t[j..j + |pat|][0] == t[j];
    }
  }

  // ---------------------------------------------------------------------
  // Number.prototype.toString and padStart

  predicate IsDigit(c: char) { '0' <= c <= '9' }

  function DigitChar(d: nat): (c: char)
    requires d < 10
    ensures IsDigit(c) && c as int - '0' as int == d
  {
    ('0' as int + d) as char
  }

  /** The decimal numeral of a natural number, without leading zeros. */
  function NatToString(n: nat): (r: string)
    ensures |r| > 0 && (forall i :: 0 <= i < |r| ==> IsDigit(r[i]))
    ensures r[0] == '0' ==> n == 0
  {
    if n < 10 then [DigitChar(n)] else NatToString(n / 10) + [DigitChar(n % 10)]
  }

  /** `Number.prototype.toString()` for an integral number. */
  function IntToString(n: int): (r: string)
    ensures n >= 0 ==> r == NatToString(n)
    ensures n < 0 ==> r == "-" + NatToString(-n)
  {
    if n < 0 then "-" + NatToString(-n) else NatToString(n)
  }

  /** The value of a numeral read digit by digit (the empty string is 0);
      meaningful for strings of decimal digits. */
  function DigitsValue(s: string): int
  {
    if s == [] then 0
    else DigitsValue(s[..|s| - 1]) * 10 + (s[|s| - 1] as int - '0' as int)
  }

  lemma {:induction false} NatToStringValue(n: nat)
    ensures DigitsValue(NatToString(n)) == n
  {
    if n >= 10 {
      var r := NatToString(n);
      assert r[..|r| - 1] == NatToString(n / 10);
      NatToStringValue(n / 10);
    }
  }

  /** Leading zeros do not change the value of a numeral. */
  lemma {:induction false} DigitsValueLeadingZero(s: string)
    ensures DigitsValue("0" + s) == DigitsValue(s)
  {
    if s != [] {
      assert ("0" + s)[..|"0" + s| - 1] == "0" + s[..|s| - 1];
      DigitsValueLeadingZero(s[..|s| - 1]);
    }
  }

  /** `String.prototype.padStart(width, fill)` with a one-character fill. */
  function PadStart(s: string, width: nat, fill: char): (r: string)
    ensures |r| == if |s| >= width then |s| else width
    ensures r[|r| - |s|..] == s
    ensures forall i :: 0 <= i < |r| - |s| ==> r[i] == fill
    decreases width - |s|
  {
    if |s| >= width then s else PadStart([fill] + s, width, fill)
  }

  // ---------------------------------------------------------------------
  // Array.prototype.join

  function Join(parts: seq<string>, sep: string): (r: string)
    ensures parts == [] ==> r == ""
    ensures |parts| == 1 ==> r == parts[0]
    ensures |parts| >= 2 ==> StartsWith(r, parts[0] + sep) && r[|parts[0]| + |sep|..] == Join(parts[1..], sep)
  {
    if parts == [] then "" else if |parts| == 1 then parts[0] else parts[0] + sep + Join(parts[1..], sep)
  }
}
