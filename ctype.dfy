/** The part of <cctype> the core relies on, in the "C" locale, over characters that stand
    for the bytes of a std::string. Bytes outside ASCII are neither space nor letters there. */
module CType {

  /** std::isspace: space, \t, \n, \v, \f, \r. */
  predicate IsSpace(c: char)
  {
    c == ' ' || c == '\t' || c == '\n' || c == '\U{B}' || c == '\U{C}' || c == '\r'
  }

  /** std::isalpha: the ASCII letters only. */
  predicate IsAlpha(c: char)
  {
    ('A' <= c <= 'Z') || ('a' <= c <= 'z')
  }

  predicate IsDigit(c: char)
  {
    '0' <= c <= '9'
  }

  /** std::toupper: maps a..z to A..Z and leaves every other character alone. */
  function ToUpper(c: char): (u: char)
    ensures IsAlpha(u) <==> IsAlpha(c)
    ensures 'a' <= c <= 'z' ==> 'A' <= u <= 'Z'
    ensures !('a' <= c <= 'z') ==> u == c
  {
    if 'a' <= c <= 'z' then (c as int - 32) as char else c
  }

  /** std::tolower: maps A..Z to a..z and leaves every other character alone. */
  function ToLower(c: char): (l: char)
    ensures IsAlpha(l) <==> IsAlpha(c)
    ensures 'A' <= c <= 'Z' ==> 'a' <= l <= 'z'
    ensures !('A' <= c <= 'Z') ==> l == c
  {
    if 'A' <= c <= 'Z' then (c as int + 32) as char else c
  }

  /** The upper-cased copy that std::transform with toupper produces. */
  function Upper(s: string): (u: string)
    ensures |u| == |s|
    ensures forall k :: 0 <= k < |s| ==> u[k] == ToUpper(s[k])
  {
    seq(|s|, k requires 0 <= k < |s| => ToUpper(s[k]))
  }

  /** Number of leading whitespace characters: how far a scan that skips std::isspace
      characters from the front gets. */
  function LeadingSpaces(s: string): (n: nat)
    ensures n <= |s|
    ensures forall k :: 0 <= k < n ==> IsSpace(s[k])
    ensures n == |s| || !IsSpace(s[n])
  {
    if |s| > 0 && IsSpace(s[0]) then 1 + LeadingSpaces(s[1..]) else 0
  }

  /** Length of the maximal prefix of ASCII letters. */
  function LeadingLetters(s: string): (n: nat)
    ensures n <= |s|
    ensures forall k :: 0 <= k < n ==> IsAlpha(s[k])
    ensures n == |s| || !IsAlpha(s[n])
  {
    if |s| > 0 && IsAlpha(s[0]) then 1 + LeadingLetters(s[1..]) else 0
  }

  /** Length of the maximal prefix of decimal digits. */
  function LeadingDigits(s: string): (n: nat)
    ensures n <= |s|
    ensures forall k :: 0 <= k < n ==> IsDigit(s[k])
    ensures n == |s| || !IsDigit(s[n])
  {
    if |s| > 0 && IsDigit(s[0]) then 1 + LeadingDigits(s[1..]) else 0
  }

  /** A scan that stops at the first non-space stops where LeadingSpaces says. */
  lemma {:induction false} LeadingSpacesIs(s: string, n: nat)
    requires n <= |s|
    requires forall k :: 0 <= k < n ==> IsSpace(s[k])
    requires n == |s| || !IsSpace(s[n])
    ensures LeadingSpaces(s) == n
  {
    if n > 0 {
      LeadingSpacesIs(s[1..], n - 1);
    }
  }

  /** A scan that stops at the first non-letter stops where LeadingLetters says. */
  lemma {:induction false} LeadingLettersIs(s: string, n: nat)
    requires n <= |s|
    requires forall k :: 0 <= k < n ==> IsAlpha(s[k])
    requires n == |s| || !IsAlpha(s[n])
    ensures LeadingLetters(s) == n
  {
    if n > 0 {
      LeadingLettersIs(s[1..], n - 1);
    }
  }

  /** A scan that stops at the first non-digit stops where LeadingDigits says. */
  lemma {:induction false} LeadingDigitsIs(s: string, n: nat)
    requires n <= |s|
    requires forall k :: 0 <= k < n ==> IsDigit(s[k])
    requires n == |s| || !IsDigit(s[n])
    ensures LeadingDigits(s) == n
  {
    if n > 0 {
      LeadingDigitsIs(s[1..], n - 1);
    }
  }
}
