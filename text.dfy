/** Case mapping of strings, as the shopping list uses Foundation's
    `lowercased()` (to compare names) and `capitalized` (to store a new name).
    Both are modelled on the ASCII letters only: every other character is left
    as it is. */
module Text {

  /** The characters that end a word for `capitalized`: spaces, tabs and line terminators. */
  predicate IsWordSeparator(c: char) {
    c == ' ' || c == '\t' || c == '\n' || c == '\r'
  }

  predicate IsUpper(c: char) { 'A' <= c <= 'Z' }

  predicate IsLower(c: char) { 'a' <= c <= 'z' }

  function LowerChar(c: char): (r: char)
    ensures !IsUpper(r)
    ensures IsUpper(c) <==> r != c
  {
    if IsUpper(c) then (c as int + 32) as char else c
  }

  function UpperChar(c: char): (r: char)
    ensures !IsLower(r)
    ensures IsLower(c) <==> r != c
  {
    if IsLower(c) then (c as int - 32) as char else c
  }

  /** `s.lowercased()`. */
  function Lower(s: string): (r: string)
    ensures |r| == |s|
    ensures forall i :: 0 <= i < |s| ==> r[i] == LowerChar(s[i])
  {
    if s == [] then [] else [LowerChar(s[0])] + Lower(s[1..])
  }

  /** `s.capitalized`: the first character of every word in upper case, every
      other character in lower case. */
  function Capitalize(s: string): (r: string)
    ensures |r| == |s|
    ensures forall i :: 0 <= i < |s| ==>
      r[i] == if i == 0 || IsWordSeparator(s[i - 1]) then UpperChar(s[i]) else LowerChar(s[i])
  {
    CapitalizeFrom(s, true)
  }

  /** Capitalizes `s`, where `atWordStart` says whether the character before
      `s` ended a word. */
  function CapitalizeFrom(s: string, atWordStart: bool): (r: string)
    ensures |r| == |s|
    ensures forall i :: 0 <= i < |s| ==>
      r[i] == if (if i == 0 then atWordStart else IsWordSeparator(s[i - 1])) then UpperChar(s[i]) else LowerChar(s[i])
    ensures forall i :: 0 <= i < |s| ==> IsWordSeparator(r[i]) == IsWordSeparator(s[i])
  {
    if s == [] then []
    else
      [if atWordStart then UpperChar(s[0]) else LowerChar(s[0])]
      + CapitalizeFrom(s[1..], IsWordSeparator(s[0]))
  }

  /** Lower case forgets whatever case a letter had. */
  lemma LowerOfCaseChange(c: char)
    ensures LowerChar(UpperChar(c)) == LowerChar(c)
    ensures LowerChar(LowerChar(c)) == LowerChar(c)
  {
  }

  /** The bridge between the two case mappings: a capitalized name compares equal,
      case-insensitively, to the text it was made from. */
  lemma {:induction false} LowerOfCapitalizeFrom(s: string, atWordStart: bool)
    ensures Lower(CapitalizeFrom(s, atWordStart)) == Lower(s)
  {
    if s != [] {
      LowerOfCapitalizeFrom(s[1..], IsWordSeparator(s[0]));
      LowerOfCaseChange(s[0]);
    }
  }

  lemma LowerOfCapitalize(s: string)
    ensures Lower(Capitalize(s)) == Lower(s)
  {
    LowerOfCapitalizeFrom(s, true);
  }
}
