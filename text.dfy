/**
 * The string operations the application relies on: `String.prototype.split`
 * with a non-empty separator, `includes`, ASCII digit runs and their decimal
 * value (`/^\d*$/` and `Number` on such runs), upper/lower case mapping and
 * whitespace as `String.prototype.trim` sees it.
 */
module Text {
  import opened Wrappers

  /** `sep` occurs in `s` starting at index `j`. */
  predicate OccursAt(s: string, sep: string, j: nat)
  {
    j + |sep| <= |s| && s[j..j + |sep|] == sep
  }

  /** The first index `>= i` at which `sep` occurs in `s` (`indexOf(sep, i)`). */
  function IndexOf(s: string, sep: string, i: nat): (r: Option<nat>)
    requires |sep| > 0
    ensures r.Some? ==> i <= r.value && OccursAt(s, sep, r.value)
    decreases |s| - i
  {
    if i + |sep| > |s| then None
    else if s[i..i + |sep|] == sep then Some(i)
    else IndexOf(s, sep, i + 1)
  }

  /** `IndexOf` finds the first occurrence, and `None` means there is none at or after `i`. */
  lemma {:induction false} IndexOfFirst(s: string, sep: string, i: nat)
    requires |sep| > 0
    ensures IndexOf(s, sep, i).Some? ==> forall j :: i <= j < IndexOf(s, sep, i).value ==> !OccursAt(s, sep, j)
    ensures IndexOf(s, sep, i).None? ==> forall j :: i <= j ==> !OccursAt(s, sep, j)
    decreases |s| - i
  {
    if i + |sep| <= |s| && s[i..i + |sep|] != sep {
      IndexOfFirst(s, sep, i + 1);
    }
  }

  /** `s.includes(t)`: the empty string is included in every string. */
  predicate Includes(s: string, t: string)
  {
    |t| == 0 || IndexOf(s, t, 0).Some?
  }

  /** `s.split(sep)` for a non-empty separator: the pieces between occurrences, left to right. */
  function Split(s: string, sep: string): (r: seq<string>)
    requires |sep| > 0
    ensures |r| >= 1
    decreases |s|
  {
    match IndexOf(s, sep, 0)
    case None => [s]
    case Some(i) => [s[..i]] + Split(s[i + |sep|..], sep)
  }

  /** The inverse of `Split`: the pieces glued back together with `sep` between them. */
  function Join(parts: seq<string>, sep: string): string
    requires |parts| >= 1
  {
    if |parts| == 1 then parts[0] else parts[0] + sep + Join(parts[1..], sep)
  }

  /** Splitting and joining again gives back the original string. */
  lemma {:induction false} JoinSplit(s: string, sep: string)
    requires |sep| > 0
    ensures Join(Split(s, sep), sep) == s
    decreases |s|
  {
    var r := IndexOf(s, sep, 0);
    if r.Some? {
      var i := r.value;
      var rest := s[i + |sep|..];
      JoinSplit(rest, sep);
      var parts := Split(s, sep);
      assert parts == [s[..i]] + Split(rest, sep);
      assert |parts| >= 2 && parts[0] == s[..i] && parts[1..] == Split(rest, sep);
      assert Join(parts, sep) == s[..i] + sep + rest;
      assert s[i..i + |sep|] == sep;
      Pieces(s, i, i + |sep|);
    }
  }

  lemma Pieces(s: string, i: nat, j: nat)
    requires i <= j <= |s|
    ensures s[..i] + s[i..j] + s[j..] == s
  {
  }

  /** No character of `s` is `c`. */
  predicate Lacks(s: string, c: char)
  {
    forall j :: 0 <= j < |s| ==> s[j] != c
  }

  /** No index below `n` starts an occurrence when none of those characters is `sep[0]`. */
  lemma SkipUnmatched(s: string, sep: string, i: nat, n: nat)
    requires |sep| > 0 && i <= n <= |s|
    requires forall j :: i <= j < n ==> s[j] != sep[0]
    ensures IndexOf(s, sep, i) == IndexOf(s, sep, n)
    decreases n - i
  {
    if i < n {
      if i + |sep| <= |s| {
        assert s[i..i + |sep|][0] == s[i];
      }
      SkipUnmatched(s, sep, i + 1, n);
    }
  }

  /**
   * Joining pieces none of which contains the separator's first character and
   * splitting again gives back exactly those pieces.
   */
  lemma {:induction false} SplitJoin(parts: seq<string>, sep: string)
    requires |sep| > 0 && |parts| >= 1
    requires forall k :: 0 <= k < |parts| ==> Lacks(parts[k], sep[0])
    ensures Split(Join(parts, sep), sep) == parts
    decreases |parts|
  {
    var a := parts[0];
    if |parts| == 1 {
      SkipUnmatched(a, sep, 0, |a|);
    } else {
      var rest := Join(parts[1..], sep);
      var s := a + sep + rest;
      assert Join(parts, sep) == s;
      forall j | 0 <= j < |a| ensures s[j] != sep[0] {
        assert s[j] == a[j];
      }
      SkipUnmatched(s, sep, 0, |a|);
      assert s[|a|..|a| + |sep|] == sep;
      assert IndexOf(s, sep, 0) == Some(|a|);
      assert s[..|a|] == a;
      assert s[|a| + |sep|..] == rest;
      SplitJoin(parts[1..], sep);
      assert Split(s, sep) == [a] + parts[1..];
    }
  }

  // ---------------------------------------------------------------------------
  // Digits

  /** `\d` in a regular expression: an ASCII decimal digit. */
  predicate IsDigit(c: char)
  {
    '0' <= c <= '9'
  }

  /** `/^\d*$/.test(s)`: every character is a digit (the empty string passes). */
  predicate IsDigits(s: string)
  {
    forall i :: 0 <= i < |s| ==> IsDigit(s[i])
  }

  /** The decimal value of a digit run, most significant digit first; `""` has value 0. */
  function DigitsValue(s: string): (n: nat)
    requires IsDigits(s)
    decreases |s|
  {
    if s == [] then 0
    else DigitsValue(s[..|s| - 1]) * 10 + (s[|s| - 1] as int - '0' as int)
  }

  /** The decimal notation of `n` (`String(n)` for a non-negative integer): no leading zero. */
  function DecimalString(n: nat): (s: string)
    ensures IsDigits(s) && |s| >= 1
    ensures |s| > 1 ==> s[0] != '0'
    decreases n
  {
    var d := [('0' as int + n % 10) as char];
    if n < 10 then d else DecimalString(n / 10) + d
  }

  /** Reading back the decimal notation of a number gives the number. */
  lemma {:induction false} DecimalRoundTrip(n: nat)
    ensures DigitsValue(DecimalString(n)) == n
    decreases n
  {
    var s := DecimalString(n);
    if n >= 10 {
      DecimalRoundTrip(n / 10);
      assert s[..|s| - 1] == DecimalString(n / 10);
    }
  }

  /** A leading zero does not change the value of a digit run. */
  lemma {:induction false} LeadingZero(s: string)
    requires IsDigits(s)
    ensures IsDigits("0" + s) && DigitsValue("0" + s) == DigitsValue(s)
    decreases |s|
  {
    if s != [] {
      var t := "0" + s;
      assert t[..|t| - 1] == "0" + s[..|s| - 1];
      LeadingZero(s[..|s| - 1]);
    }
  }

  /** `n` in decimal, left-padded with zeros to at least `width` digits (a two-digit day, a four-digit year). */
  function Padded(n: nat, width: nat): (s: string)
    ensures IsDigits(s) && |s| >= width
  {
    var d := DecimalString(n);
    if |d| >= width then d else ZeroPrefixed(d, width - |d|)
  }

  /** `k` zeros in front of `s`. */
  function ZeroPrefixed(s: string, k: nat): (t: string)
    requires IsDigits(s)
    ensures IsDigits(t) && |t| == |s| + k
    ensures DigitsValue(t) == DigitsValue(s)
    decreases k
  {
    if k == 0 then s
    else
      var t := ZeroPrefixed(s, k - 1);
      LeadingZero(t);
      "0" + t
  }

  /** Padding does not change the value read back. */
  lemma PaddedValue(n: nat, width: nat)
    ensures DigitsValue(Padded(n, width)) == n
  {
    DecimalRoundTrip(n);
  }

  // ---------------------------------------------------------------------------
  // Case mapping and whitespace

  /**
   * `toUpperCase` on one character, for the ASCII letters, the Latin-1 letters
   * (U+00E0 to U+00FE without the division sign) and the basic Cyrillic block;
   * every other character is kept.
   */
  function UpperChar(c: char): char
  {
    if 'a' <= c <= 'z' then (c as int - 32) as char
    else if '\U{00E0}' <= c <= '\U{00FE}' && c != '\U{00F7}' then (c as int - 0x20) as char
    else if 'а' <= c <= 'я' then (c as int - 0x20) as char
    else if 'ѐ' <= c <= 'џ' then (c as int - 0x50) as char
    else c
  }

  /**
   * `toLowerCase` on one character, for the ASCII letters, the Latin-1 letters
   * (U+00C0 to U+00DE without the multiplication sign) and the basic Cyrillic
   * block; every other character is kept.
   */
  function LowerChar(c: char): char
  {
    if 'A' <= c <= 'Z' then (c as int + 32) as char
    else if '\U{00C0}' <= c <= '\U{00DE}' && c != '\U{00D7}' then (c as int + 0x20) as char
    else if 'А' <= c <= 'Я' then (c as int + 0x20) as char
    else if 'Ѐ' <= c <= 'Џ' then (c as int + 0x50) as char
    else c
  }

  function ToUpper(s: string): (r: string)
    ensures |r| == |s| && forall i :: 0 <= i < |s| ==> r[i] == UpperChar(s[i])
  {
    seq(|s|, i requires 0 <= i < |s| => UpperChar(s[i]))
  }

  function ToLower(s: string): (r: string)
    ensures |r| == |s| && forall i :: 0 <= i < |s| ==> r[i] == LowerChar(s[i])
  {
    seq(|s|, i requires 0 <= i < |s| => LowerChar(s[i]))
  }

  /** ECMAScript WhiteSpace and LineTerminator code points, which `trim` removes. */
  predicate IsWhitespace(c: char)
  {
    c == ' ' || c == '\t' || c == '\n' || c == '\r' || c == '\U{B}' || c == '\U{C}'
    || c == '\U{A0}' || c == '\U{1680}' || ('\U{2000}' <= c <= '\U{200A}')
    || c == '\U{2028}' || c == '\U{2029}' || c == '\U{202F}' || c == '\U{205F}'
    || c == '\U{3000}' || c == '\U{FEFF}'
  }

  /** `!s.trim()`: nothing but whitespace is left after trimming. */
  predicate IsBlank(s: string)
  {
    forall i :: 0 <= i < |s| ==> IsWhitespace(s[i])
  }
}
