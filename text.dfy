/**
 The text normalisation applied to a generated reply before it is stored:
 `formatBotReply` in backend/index.js upper-cases the first character and
 appends the remainder with surrounding white space removed, using the
 JavaScript built-ins `toUpperCase` and `String.prototype.trim`.
 */
module Text {

  /** The code points of the WhiteSpace and LineTerminator productions of
      ECMAScript (ECMA-262), listed one by one. */
  const SPACES: string :=
    "\t\n\U{000B}\U{000C}\r \U{00A0}\U{1680}"
    + "\U{2000}\U{2001}\U{2002}\U{2003}\U{2004}\U{2005}\U{2006}\U{2007}\U{2008}\U{2009}\U{200A}"
    + "\U{2028}\U{2029}\U{202F}\U{205F}\U{3000}\U{FEFF}"

  /** A code point that `String.prototype.trim` strips; never a letter or
      a digit. */
  predicate IsSpace(c: char): (b: bool)
    ensures b ==> !('a' <= c <= 'z') && !('A' <= c <= 'Z') && !('0' <= c <= '9')
  {
    || c == '\t' || c == '\n' || c == '\U{000B}' || c == '\U{000C}' || c == '\r'
    || c == ' ' || c == '\U{00A0}' || c == '\U{1680}'
    || ('\U{2000}' <= c <= '\U{200A}')
    || c == '\U{2028}' || c == '\U{2029}' || c == '\U{202F}' || c == '\U{205F}'
    || c == '\U{3000}' || c == '\U{FEFF}'
  }

  /** `IsSpace` holds of exactly the listed code points. */
  lemma IsSpaceListed(c: char)
    ensures IsSpace(c) <==> c in SPACES
  {
  }

  /** Every character of `s` outside `s[i..j]` is white space. */
  ghost predicate SpaceOutside(s: string, i: nat, j: nat) {
    forall k :: 0 <= k < |s| && !(i <= k < j) ==> IsSpace(s[k])
  }

  /** `s` carries no strippable character at either end. */
  ghost predicate Trimmed(s: string) {
    s == [] || (!IsSpace(s[0]) && !IsSpace(s[|s| - 1]))
  }

  /** `r` is `s` with white space removed at both ends: a slice of `s`
      with only white space around it and none at its own ends. This is
      the reference definition that `Trim` is proved to meet uniquely. */
  ghost predicate IsTrimOf(s: string, r: string) {
    Trimmed(r) &&
    exists i: nat, j: nat :: i <= j <= |s| && r == s[i..j] && SpaceOutside(s, i, j)
  }

  /** Upper-casing of one character, on the ASCII range. */
  function Upper(c: char): (u: char)
    ensures 'a' <= c <= 'z' ==> 'A' <= u <= 'Z' && u as int - 'A' as int == c as int - 'a' as int
    ensures !('a' <= c <= 'z') ==> u == c
    ensures !('a' <= u <= 'z')
  {
    if 'a' <= c <= 'z' then (c as int - 32) as char else c
  }

  /** How many white-space characters `trimStart` removes: the index of the
      first character that is not white space, or `|s|` if there is none. */
  function LeadingSpace(s: string): (n: nat)
    ensures n <= |s|
    ensures forall k :: 0 <= k < n ==> IsSpace(s[k])
    ensures n < |s| ==> !IsSpace(s[n])
  {
    if s != [] && IsSpace(s[0]) then 1 + LeadingSpace(s[1..]) else 0
  }

  /** How many white-space characters `trimEnd` removes at the back. */
  function TrailingSpace(s: string): (n: nat)
    ensures n <= |s|
    ensures forall k :: |s| - n <= k < |s| ==> IsSpace(s[k])
    ensures n < |s| ==> !IsSpace(s[|s| - n - 1])
  {
    if s != [] && IsSpace(s[|s| - 1]) then 1 + TrailingSpace(s[..|s| - 1]) else 0
  }

  /** `String.prototype.trim`. */
  function Trim(s: string): (r: string)
    ensures IsTrimOf(s, r)
    ensures |r| <= |s|
  {
    var i := LeadingSpace(s);
    if i == |s| then
      assert SpaceOutside(s, 0, 0);
      []
    else
      var j := |s| - TrailingSpace(s);
      assert i < j;
      assert s[i..j][0] == s[i] && s[i..j][j - i - 1] == s[j - 1];
      s[i..j]
  }

  /** A slice with only white space around it and none at its ends is the
      trim: the start is the first non-space position and the end is one
      past the last. */
  lemma TrimSlice(s: string, i: nat, j: nat)
    requires i <= j <= |s| && SpaceOutside(s, i, j) && Trimmed(s[i..j])
    ensures Trim(s) == s[i..j]
  {
    if i < j {
      assert !IsSpace(s[i]) && !IsSpace(s[j - 1]) by {
        assert s[i..j][0] == s[i] && s[i..j][j - i - 1] == s[j - 1];
      }
    }
  }

  /** Any trim of `s` in the sense of `IsTrimOf` is the one `Trim` computes:
      `Trim` meets the reference definition and nothing else does. */
  lemma TrimUnique(s: string, r: string)
    requires IsTrimOf(s, r)
    ensures r == Trim(s)
  {
    var i: nat, j: nat :| i <= j <= |s| && r == s[i..j] && SpaceOutside(s, i, j);
    TrimSlice(s, i, j);
  }

  /** A string with no white space at either end is its own trim. */
  lemma TrimOfTrimmed(s: string)
    requires Trimmed(s)
    ensures Trim(s) == s
  {
    assert s[0..|s|] == s;
    TrimSlice(s, 0, |s|);
  }

  /** Trimming twice is trimming once. */
  lemma TrimIdempotent(s: string)
    ensures Trim(Trim(s)) == Trim(s)
  {
    TrimOfTrimmed(Trim(s));
  }

  /** `formatBotReply`: the first character upper-cased, followed by the
      trimmed remainder. White space at the front is not removed: it is the
      first character, and only the remainder is trimmed. */
  function FormatBotReply(text: string): (r: string)
    ensures r == [] <==> text == []
    ensures |r| <= |text|
    ensures text != [] ==> r[0] == Upper(text[0]) && IsTrimOf(text[1..], r[1..])
  {
    if text == [] then []
    else
      var rest := Trim(text[1..]);
      var r := [Upper(text[0])] + rest;
      assert r[1..] == rest;
      r
  }

  /** A reply that is already normalised is left as it is. */
  lemma FormatBotReplyIdempotent(text: string)
    ensures FormatBotReply(FormatBotReply(text)) == FormatBotReply(text)
  {
    if text != [] {
      var r := FormatBotReply(text);
      assert r[1..] == Trim(text[1..]);
      TrimIdempotent(text[1..]);
    }
  }

  lemma TrimExample()
    ensures Trim("ello world  ") == "ello world"
  {
    assert LeadingSpace("ello world  ") == 0;
    assert TrailingSpace("ello world  ") == 2;
  }

  /** The normalisation example: `"hello world  "` is stored as `"Hello world"`. */
  lemma FormatBotReplyExample()
    ensures FormatBotReply("hello world  ") == "Hello world"
  {
    var text := "hello world  ";
    assert text[1..] == "ello world  ";
    TrimExample();
    assert FormatBotReply(text) == [Upper('h')] + "ello world";
  }
}
