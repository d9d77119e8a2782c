/** Character classes and string helpers shared by the annotation scanner,
    the insertion locator and the argument builder. Whitespace, letters and
    line breaks are restricted to ASCII. */
module Text {

  /** ASCII whitespace as JavaScript's `\s` and `String.prototype.trim` both
      see it: space, tab, line feed, vertical tab, form feed, carriage return. */
  predicate IsSpace(c: char) {
    c == ' ' || '\t' <= c <= '\r'
  }

  /** ASCII line terminators: the characters a regular-expression `.` refuses. */
  predicate IsLineBreak(c: char) {
    c == '\n' || c == '\r'
  }

  predicate AllSpace(s: string) {
    forall i :: 0 <= i < |s| ==> IsSpace(s[i])
  }

  predicate NoLineBreak(s: string) {
    forall i :: 0 <= i < |s| ==> !IsLineBreak(s[i])
  }

  predicate StartsWith(s: string, prefix: string) {
    |prefix| <= |s| && s[..|prefix|] == prefix
  }

  /** Length of the longest all-whitespace prefix of `s`. */
  function LeadingSpaces(s: string): (n: nat)
    ensures n <= |s| && AllSpace(s[..n])
    ensures n < |s| ==> !IsSpace(s[n])
  {
    if |s| == 0 || !IsSpace(s[0]) then 0
    else
      var m := LeadingSpaces(s[1..]);
      assert s[..1 + m] == [s[0]] + s[1..][..m];
      1 + m
  }

  /** The end of the text in `s[lo..e]`: the least index from which on only
      whitespace remains before `e`. */
  function TextEnd(s: string, lo: nat, e: nat): (r: nat)
    requires lo <= e <= |s|
    decreases e
    ensures lo <= r <= e
    ensures forall i :: r <= i < e ==> IsSpace(s[i])
    ensures r > lo ==> !IsSpace(s[r - 1])
  {
    if e == lo || !IsSpace(s[e - 1]) then e else TextEnd(s, lo, e - 1)
  }

  /** A whitespace run is determined by where it stops. */
  lemma {:induction false} LeadingSpacesUnique(s: string, n: nat)
    requires n <= |s| && AllSpace(s[..n])
    requires n < |s| ==> !IsSpace(s[n])
    ensures LeadingSpaces(s) == n
    decreases n
  {
    if n > 0 {
      assert IsSpace(s[0]) by {
        assert s[..n][0] == s[0];
      }
      var rest := s[1..][..n - 1];
      assert AllSpace(rest) by {
        forall i | 0 <= i < |rest|
          ensures IsSpace(rest[i])
        {
          assert rest[i] == s[..n][i + 1];
        }
      }
      LeadingSpacesUnique(s[1..], n - 1);
    }
  }

  /** Whitespace placed in front of a string lengthens its leading run by exactly that much. */
  lemma LeadingSpacesAppend(w: string, s: string)
    requires AllSpace(w)
    ensures LeadingSpaces(w + s) == |w| + LeadingSpaces(s)
  {
    var n := LeadingSpaces(s);
    assert (w + s)[..|w| + n] == w + s[..n];
    if |w| + n < |w + s| {
      assert (w + s)[|w| + n] == s[n];
    }
    LeadingSpacesUnique(w + s, |w| + n);
  }

  /** `String.prototype.trim`: the text between the leading and the trailing whitespace. */
  function Trim(s: string): (r: string)
    ensures LeadingSpaces(s) + |r| <= |s|
    ensures r == s[LeadingSpaces(s)..LeadingSpaces(s) + |r|]
    ensures forall i :: LeadingSpaces(s) + |r| <= i < |s| ==> IsSpace(s[i])
    ensures r != [] ==> !IsSpace(r[0]) && !IsSpace(r[|r| - 1])
    ensures r == [] <==> AllSpace(s)
  {
    var a := LeadingSpaces(s);
    var e := TextEnd(s, a, |s|);
    assert a == e <==> AllSpace(s) by {
      if a == e {
        forall i | 0 <= i < |s| ensures IsSpace(s[i]) {
          if i < a { assert s[..a][i] == s[i]; }
        }
      }
    }
    s[a..e]
  }

  /** A string that neither starts nor ends with whitespace is its own trim. */
  lemma TrimUnchanged(s: string)
    requires s != [] ==> !IsSpace(s[0]) && !IsSpace(s[|s| - 1])
    ensures Trim(s) == s
  {
    assert LeadingSpaces(s) == 0;
    assert s[0..|s|] == s;
  }

  /** Trimming keeps a first character that is not whitespace. */
  lemma TrimKeepsFirst(s: string)
    requires s != [] && !IsSpace(s[0])
    ensures Trim(s) != [] && Trim(s)[0] == s[0]
  {
    assert LeadingSpaces(s) == 0;
    var r := Trim(s);
    assert !AllSpace(s);
    assert s == s[..0] + r + s[|r|..];
    assert s[0] == (r + s[|r|..])[0];
  }

  /** `toLowerCase` on one character, restricted to ASCII letters: an upper-case
      letter becomes the same letter in lower case, anything else is unchanged. */
  function LowerAscii(c: char): (r: char)
    ensures 'A' <= c <= 'Z' ==> 'a' <= r <= 'z' && r as int - 'a' as int == c as int - 'A' as int
    ensures !('A' <= c <= 'Z') ==> r == c
  {
    if 'A' <= c <= 'Z' then (c as int + 32) as char else c
  }

  /** `s.charAt(0).toLowerCase()`: the lower-cased first character, or "" for "". */
  function FirstCharLower(s: string): (r: string)
    ensures |r| == if s == [] then 0 else 1
    ensures s != [] ==> r[0] == LowerAscii(s[0])
  {
    if s == [] then "" else [LowerAscii(s[0])]
  }
}
