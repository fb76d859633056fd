/** The string operations that the program takes from its language. */
module Strings {
  function LowerChar(c: char): char {
    if 'A' <= c <= 'Z' then c - 'A' + 'a' else c
  }

  function ToLower(s: string): (r: string)
    ensures |r| == |s| && forall i :: 0 <= i < |s| ==> r[i] == LowerChar(s[i])
  {
    seq(|s|, i requires 0 <= i < |s| => LowerChar(s[i]))
  }

  predicate Includes(s: string, part: string) {
    exists i :: 0 <= i <= |s| && part <= s[i..]
  }

  /** The characters that trim removes. */
  predicate IsSpace(c: char) {
    || '\U{0009}' <= c <= '\U{000D}' || c == ' ' || c == '\U{00A0}' || c == '\U{1680}' || '\U{2000}' <= c <= '\U{200A}'
    || c == '\U{2028}' || c == '\U{2029}' || c == '\U{202F}' || c == '\U{205F}' || c == '\U{3000}' || c == '\U{FEFF}'
  }

  function TrimStart(s: string): string {
    if s != "" && IsSpace(s[0]) then TrimStart(s[1..]) else s
  }

  function TrimEnd(s: string): string {
    if s != "" && IsSpace(s[|s| - 1]) then TrimEnd(s[..|s| - 1]) else s
  }

  function Trim(s: string): string {
    TrimEnd(TrimStart(s))
  }

  lemma TrimSpaceFirst(s: string)
    ensures Trim(" " + s) == Trim(s)
  {
  }

  lemma {:induction false} TrimStartShrinks(s: string)
    ensures |TrimStart(s)| <= |s| && (|TrimStart(s)| == |s| ==> TrimStart(s) == s)
  {
    if s != "" && IsSpace(s[0]) { TrimStartShrinks(s[1..]); }
  }

  lemma {:induction false} TrimEndShrinks(s: string)
    ensures |TrimEnd(s)| <= |s|
  {
    if s != "" && IsSpace(s[|s| - 1]) { TrimEndShrinks(s[..|s| - 1]); }
  }

  lemma TrimShrinks(s: string)
    ensures |Trim(s)| <= |s|
  {
    TrimStartShrinks(s);
    TrimEndShrinks(TrimStart(s));
  }

  // ----- What they do -----

  predicate Spaces(s: string) {
    forall k :: 0 <= k < |s| ==> IsSpace(s[k])
  }

  lemma {:induction false} TrimStartSplits(s: string) returns (a: string)
    ensures s == a + TrimStart(s) && Spaces(a) && (TrimStart(s) != "" ==> !IsSpace(TrimStart(s)[0]))
  {
    if s != "" && IsSpace(s[0]) {
      a := TrimStartSplits(s[1..]);
      a := [s[0]] + a;
    } else {
      a := "";
    }
  }

  lemma {:induction false} TrimEndSplits(s: string) returns (z: string)
    ensures s == TrimEnd(s) + z && Spaces(z)
    ensures var t := TrimEnd(s); t != "" ==> !IsSpace(t[|t| - 1]) && t[0] == s[0]
  {
    if s != "" && IsSpace(s[|s| - 1]) {
      z := TrimEndSplits(s[..|s| - 1]);
      z := z + [s[|s| - 1]];
    } else {
      z := "";
    }
  }

  /** Trimming takes spaces from both ends, all of them, and nothing else. */
  lemma TrimIsExact(s: string) returns (a: string, z: string)
    ensures s == a + Trim(s) + z && Spaces(a) && Spaces(z)
    ensures var t := Trim(s); t != "" ==> !IsSpace(t[0]) && !IsSpace(t[|t| - 1])
  {
    a := TrimStartSplits(s);
    z := TrimEndSplits(TrimStart(s));
    assert a + (Trim(s) + z) == a + Trim(s) + z;
  }

  /** The 26 letters go to lower case, and every other character stays. */
  lemma LowerCaseIsExact(c: char)
    ensures var upper, lower := "ABCDEFGHIJKLMNOPQRSTUVWXYZ", "abcdefghijklmnopqrstuvwxyz";
            (forall i :: 0 <= i < 26 ==> LowerChar(upper[i]) == lower[i]) && (c !in upper ==> LowerChar(c) == c)
  {
    var upper := "ABCDEFGHIJKLMNOPQRSTUVWXYZ";
    assert 'A' <= c <= 'Z' ==> upper[c as int - 'A' as int] == c;
  }

  /** White space and line ends as ECMAScript lists them, by code point. */
  lemma SpacesAreListed(c: char)
    ensures IsSpace(c) <==> c as int in {0x9, 0xA, 0xB, 0xC, 0xD, 0x20, 0xA0, 0x1680, 0x2000, 0x2001, 0x2002, 0x2003,
                                         0x2004, 0x2005, 0x2006, 0x2007, 0x2008, 0x2009, 0x200A, 0x2028, 0x2029,
                                         0x202F, 0x205F, 0x3000, 0xFEFF}
  {
  }
}
