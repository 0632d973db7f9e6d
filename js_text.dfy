/** The few pieces of the JavaScript string library that the frontend relies on:
    `String.prototype.trim`, the regular-expression classes `\s` and `\w`,
    `toUpperCase`, `includes` and `replace(/x/g, y)`. */
module JsText {

  /** The characters ECMAScript calls WhiteSpace or LineTerminator. This one set is
      both what `trim` strips and what the regular-expression class `\s` matches. */
  predicate IsWhitespace(c: char)
  {
    || c == '\t' || c == '\n' || c == '\U{000B}' || c == '\U{000C}' || c == '\r'
    || c == ' ' || c == '\U{00A0}' || c == '\U{1680}'
    || ('\U{2000}' <= c <= '\U{200A}')
    || c == '\U{2028}' || c == '\U{2029}' || c == '\U{202F}' || c == '\U{205F}'
    || c == '\U{3000}' || c == '\U{FEFF}'
  }

  /** The regular-expression class `\w` (without the `u` and `i` flags). */
  predicate IsWordChar(c: char)
  {
    ('a' <= c <= 'z') || ('A' <= c <= 'Z') || ('0' <= c <= '9') || c == '_'
  }

  /** Every character of `s` is whitespace (the empty string included). */
  predicate IsBlank(s: string)
  {
    forall i :: 0 <= i < |s| ==> IsWhitespace(s[i])
  }

  /** `s` with its leading whitespace removed. */
  function TrimStart(s: string): (r: string)
    ensures |r| <= |s| && r == s[|s| - |r|..]
    ensures forall i :: 0 <= i < |s| - |r| ==> IsWhitespace(s[i])
    ensures r == [] || !IsWhitespace(r[0])
  {
    if s == [] || !IsWhitespace(s[0]) then s else TrimStart(s[1..])
  }

  /** `s` with its trailing whitespace removed. */
  function TrimEnd(s: string): (r: string)
    ensures |r| <= |s| && r == s[..|r|]
    ensures forall i :: |r| <= i < |s| ==> IsWhitespace(s[i])
    ensures r == [] || !IsWhitespace(r[|r| - 1])
  {
    if s == [] || !IsWhitespace(s[|s| - 1]) then s else TrimEnd(s[..|s| - 1])
  }

  /** `String.prototype.trim`. */
  function Trim(s: string): string
  {
    TrimEnd(TrimStart(s))
  }

  /** `s.trim()` is the empty string exactly when `s` holds only whitespace. */
  lemma TrimEmptyIffBlank(s: string)
    ensures Trim(s) == "" <==> IsBlank(s)
  {
    if IsBlank(s) {
      TrimStartOfBlank(s);
    } else {
      TrimOfNonBlank(s);
    }
  }

  /** A string with a non-whitespace character does not trim to nothing. */
  lemma TrimOfNonBlank(s: string)
    requires !IsBlank(s)
    ensures Trim(s) != ""
  {
    var k :| 0 <= k < |s| && !IsWhitespace(s[k]);
    var t := TrimStart(s);
    var j := k - (|s| - |t|);
    assert 0 <= j < |t| && t[j] == s[k];
    TrimEndKeepsNonBlank(t, j);
  }

  /** Trimming the end keeps a string that has a non-whitespace character non-empty. */
  lemma TrimEndKeepsNonBlank(t: string, j: nat)
    requires j < |t| && !IsWhitespace(t[j])
    ensures TrimEnd(t) != []
  {
    var r := TrimEnd(t);
    assert j < |r|;
  }

  /** Trimming the start of a blank string leaves nothing. */
  lemma {:induction false} TrimStartOfBlank(s: string)
    requires IsBlank(s)
    ensures TrimStart(s) == []
  {
    if s != [] {
      TrimStartOfBlank(s[1..]);
    }
  }

  /** `toUpperCase` on one character, for the ASCII letters. */
  function ToUpper(c: char): (u: char)
    ensures 'a' <= c <= 'z' ==> 'A' <= u <= 'Z' && u as int - c as int == 'A' as int - 'a' as int
    ensures !('a' <= c <= 'z') ==> u == c
  {
    if 'a' <= c <= 'z' then (c as int - 'a' as int + 'A' as int) as char else c
  }

  /** `s.charAt(0).toUpperCase() + s.slice(1)`: the first character upper-cased,
      the rest unchanged; the empty string stays empty. */
  function CapitalizeFirst(s: string): (r: string)
    ensures |r| == |s|
    ensures |s| > 0 ==> r[0] == ToUpper(s[0]) && r[1..] == s[1..]
  {
    if s == [] then [] else [ToUpper(s[0])] + s[1..]
  }

  /** `s.replace(/from/g, to)` for a one-character pattern and replacement. */
  function ReplaceChar(s: string, from: char, to: char): (r: string)
    ensures |r| == |s|
    ensures forall i :: 0 <= i < |s| ==> r[i] == (if s[i] == from then to else s[i])
  {
    if s == [] then [] else [if s[0] == from then to else s[0]] + ReplaceChar(s[1..], from, to)
  }

  /** `pat` occurs in `s` starting at index `i`. */
  predicate OccursAt(s: string, pat: string, i: nat)
  {
    i + |pat| <= |s| && s[i..i + |pat|] == pat
  }

  /** `s.includes(pat)`. */
  function Contains(s: string, pat: string): (b: bool)
    ensures b <==> exists i: nat :: OccursAt(s, pat, i)
    decreases |s|
  {
    if |pat| > |s| then false
    else if s[..|pat|] == pat then (assert OccursAt(s, pat, 0); true)
    else
      var rest := Contains(s[1..], pat);
      assert rest ==> exists i: nat :: OccursAt(s, pat, i) by {
        if rest {
          var j: nat :| OccursAt(s[1..], pat, j);
          assert s[j + 1..j + 1 + |pat|] == s[1..][j..j + |pat|];
          assert OccursAt(s, pat, j + 1);
        }
      }
      assert (exists i: nat :: OccursAt(s, pat, i)) ==> rest by {
        if exists i: nat :: OccursAt(s, pat, i) {
          var i: nat :| OccursAt(s, pat, i);
          assert i != 0;
          assert s[1..][i - 1..i - 1 + |pat|] == s[i..i + |pat|];
          assert OccursAt(s[1..], pat, i - 1);
        }
      }
      rest
  }

  /** A pattern holding a character that `s` lacks does not occur in `s`. */
  lemma AbsentCharBlocksMatch(s: string, pat: string, c: char)
    requires c in pat && c !in s
    ensures !Contains(s, pat)
  {
    forall i: nat ensures !OccursAt(s, pat, i) {
      if i + |pat| <= |s| {
        var k :| 0 <= k < |pat| && pat[k] == c;
        assert s[i..i + |pat|][k] == s[i + k];
      }
    }
  }

  /** `s.startsWith(prefix)`. */
  predicate StartsWith(s: string, prefix: string)
  {
    |prefix| <= |s| && s[..|prefix|] == prefix
  }
}
