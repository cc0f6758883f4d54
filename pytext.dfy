/** The three Python string built-ins the bot relies on: `str.strip()`, `str.lower()`
    and the substring test `needle in haystack`. */
module PyText {

  /** The characters for which Python's `str.isspace()` holds, which `str.strip()` removes. */
  predicate IsSpace(c: char)
    ensures IsSpace(c) ==> !('!' <= c <= '~')  // no visible ASCII character is whitespace
  {
    c == ' ' || ('\t' <= c <= '\r') || ('\U{1C}' <= c <= '\U{1F}')
    || c == '\U{85}' || c == '\U{A0}' || c == '\U{1680}'
    || ('\U{2000}' <= c <= '\U{200A}') || c == '\U{2028}' || c == '\U{2029}'
    || c == '\U{202F}' || c == '\U{205F}' || c == '\U{3000}'
  }

  /** Number of whitespace characters at the start of `s`. */
  function LeadingSpace(s: string): (n: nat)
    ensures n <= |s|
    ensures forall k :: 0 <= k < n ==> IsSpace(s[k])
    ensures n < |s| ==> !IsSpace(s[n])
  {
    if s != [] && IsSpace(s[0]) then 1 + LeadingSpace(s[1..]) else 0
  }

  /** Number of whitespace characters at the end of `s`. */
  function TrailingSpace(s: string): (n: nat)
    ensures n <= |s|
    ensures forall k :: |s| - n <= k < |s| ==> IsSpace(s[k])
    ensures n < |s| ==> !IsSpace(s[|s| - 1 - n])
  {
    if s != [] && IsSpace(s[|s| - 1]) then 1 + TrailingSpace(s[..|s| - 1]) else 0
  }

  /** `s.strip()`: the longest slice of `s` that neither starts nor ends with whitespace,
      everything cut off on either side being whitespace. */
  function Strip(s: string): (r: string)
    ensures r == [] || (!IsSpace(r[0]) && !IsSpace(r[|r| - 1]))
    ensures exists i :: OccursAt(s, r, i)
                        && (forall k :: 0 <= k < i ==> IsSpace(s[k]))
                        && (forall k :: i + |r| <= k < |s| ==> IsSpace(s[k]))
  {
    var i := LeadingSpace(s);
    var t := s[i..];
    var r := t[..|t| - TrailingSpace(t)];
    assert OccursAt(s, r, i);
    r
  }

  /** Python's lowercase mapping of one character, as far as it can produce an ASCII
      character: `A`-`Z`, KELVIN SIGN (lowercased to `k`) and LATIN CAPITAL LETTER I WITH
      DOT ABOVE (lowercased to `i` followed by COMBINING DOT ABOVE). Every other
      character is kept as it is. */
  function LowerChar(c: char): (r: string)
    ensures 1 <= |r| <= 2
    ensures forall k :: 0 <= k < |r| ==> !IsAsciiUpper(r[k])
    ensures c < '\U{80}' && !IsAsciiUpper(c) ==> r == [c]
  {
    if IsAsciiUpper(c) then [(c as int + 32) as char]
    else if c == '\U{212A}' then ['k']
    else if c == '\U{130}' then ['i', '\U{307}']
    else [c]
  }

  predicate IsAsciiUpper(c: char) {
    'A' <= c <= 'Z'
  }

  /** `s.lower()`, character by character: never shorter than `s`, and free of ASCII
      capitals. */
  function Lower(s: string): (r: string)
    ensures |r| >= |s|
    ensures forall k :: 0 <= k < |r| ==> !IsAsciiUpper(r[k])
  {
    if s == [] then [] else LowerChar(s[0]) + Lower(s[1..])
  }

  lemma {:induction false} LowerAppend(a: string, b: string)
    ensures Lower(a + b) == Lower(a) + Lower(b)
  {
    if a == [] {
      assert a + b == b;
    } else {
      assert (a + b)[1..] == a[1..] + b;
      LowerAppend(a[1..], b);
    }
  }

  /** A string none of whose characters has a different lowercase form is its own
      lowercase. */
  lemma {:induction false} LowerOfLowercase(s: string)
    requires forall k :: 0 <= k < |s| ==> LowerChar(s[k]) == [s[k]]
    ensures Lower(s) == s
  {
    if s != [] {
      LowerOfLowercase(s[1..]);
    }
  }

  /** `sub` occurs in `s` starting at index `i`. */
  predicate OccursAt(s: string, sub: string, i: int) {
    0 <= i <= |s| - |sub| && s[i..i + |sub|] == sub
  }

  /** A string containing `sub` between two others contains it. */
  lemma ContainsInfix(a: string, sub: string, b: string)
    ensures Contains(a + sub + b, sub)
  {
    assert OccursAt(a + sub + b, sub, |a|);
  }

  /** Lowercasing keeps every occurrence of a string that is its own lowercase: a URL
      holding `tiktok.com` as typed still holds it after `lower()`. */
  lemma ContainsLowercaseInfix(s: string, sub: string)
    requires Lower(sub) == sub
    ensures Contains(s, sub) ==> Contains(Lower(s), sub)
  {
    if Contains(s, sub) {
      var i :| OccursAt(s, sub, i);
      var before, after := s[..i], s[i + |sub|..];
      assert s == before + sub + after;
      LowerAppend(before + sub, after);
      LowerAppend(before, sub);
      ContainsInfix(Lower(before), sub, Lower(after));
    }
  }

  /** `sub in s`: true exactly when `sub` occurs somewhere in `s`. */
  function Contains(s: string, sub: string): (r: bool)
    ensures r <==> exists i :: OccursAt(s, sub, i)
    decreases |s|
  {
    if |s| < |sub| then false
    else if s[..|sub|] == sub then assert OccursAt(s, sub, 0); true
    else
      var r := Contains(s[1..], sub);
      assert forall i :: OccursAt(s, sub, i) ==> OccursAt(s[1..], sub, i - 1);
      assert forall j :: OccursAt(s[1..], sub, j) ==> OccursAt(s, sub, j + 1);
      r
  }
}
