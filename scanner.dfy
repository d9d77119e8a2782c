/** The annotation scanner of `isImplTokenize`: the trigger line is trimmed and
    matched against the regular expression `^//\s+(.*?)\s+@impl\s+(.*?)$`.
    The match is modelled with the backtracking order of a JavaScript regular
    expression engine: the first `\s+` (greedy) tries its widest run first and
    gives back one character at a time; for each width the lazy receiver capture
    tries the shortest length first. The second and third `\s+` can only succeed
    at their widest run, because `@` is not whitespace and because a line break
    left in the interfaces capture stays in it when the run is shortened. */
module Scanner {
  import opened Wrappers
  import opened Text

  /** The two captures: the receiver type and the interfaces text, verbatim. */
  datatype Annotation = Annotation(receiver: string, interfaces: string)

  const Keyword: string := "@impl"

  /** Where the receiver capture ends when the first `\s+` takes `k`
      characters and the receiver takes `l`. */
  function ReceiverEnd(k: nat, l: nat): nat {
    2 + k + l
  }

  /** Where `@impl` starts: after the widest whitespace run following the receiver. */
  function KeywordStart(t: string, k: nat, l: nat): nat
    requires ReceiverEnd(k, l) <= |t|
  {
    ReceiverEnd(k, l) + LeadingSpaces(t[ReceiverEnd(k, l)..])
  }

  /** Where the interfaces capture starts: after the widest whitespace run following `@impl`. */
  function InterfacesStart(t: string, k: nat, l: nat): nat
    requires ReceiverEnd(k, l) <= |t| && KeywordStart(t, k, l) + |Keyword| <= |t|
  {
    var q := KeywordStart(t, k, l) + |Keyword|;
    q + LeadingSpaces(t[q..])
  }

  /** The pattern matches `t` with the first `\s+` taking `k` characters and
      the receiver capture taking `l`. */
  predicate SplitsAt(t: string, k: nat, l: nat) {
    1 <= k && ReceiverEnd(k, l) <= |t| && PatternAt(t, k, l)
  }

  /** The pattern, piece by piece, for a split whose receiver fits in `t`. */
  predicate PatternAt(t: string, k: nat, l: nat)
    requires ReceiverEnd(k, l) <= |t|
  {
    && t[..2] == "//"
    && AllSpace(t[2..2 + k])
    && NoLineBreak(t[2 + k..ReceiverEnd(k, l)])
    && KeywordStart(t, k, l) > ReceiverEnd(k, l)
    && KeywordStart(t, k, l) + |Keyword| <= |t|
    && t[KeywordStart(t, k, l)..KeywordStart(t, k, l) + |Keyword|] == Keyword
    && InterfacesStart(t, k, l) > KeywordStart(t, k, l) + |Keyword|
    && NoLineBreak(t[InterfacesStart(t, k, l)..])
  }

  /** The captures of the split (k, l). */
  function Captures(t: string, k: nat, l: nat): Annotation
    requires SplitsAt(t, k, l)
  {
    Annotation(t[2 + k..ReceiverEnd(k, l)], t[InterfacesStart(t, k, l)..])
  }

  /** The engine tries (k, l) before (k2, l2): wider first run first, then shorter receiver. */
  predicate TriedBefore(k: nat, l: nat, k2: nat, l2: nat) {
    k > k2 || (k == k2 && l < l2)
  }

  /** The lazy receiver capture: the shortest receiver length, from `l` on, that completes a match. */
  function ShortestReceiver(t: string, k: nat, l: nat): (r: Option<nat>)
    decreases |t| - l
    ensures r.Some? ==> l <= r.value && SplitsAt(t, k, r.value)
    ensures r.Some? ==> forall l': nat :: l <= l' < r.value ==> !SplitsAt(t, k, l')
    ensures r.None? ==> forall l': nat :: l <= l' ==> !SplitsAt(t, k, l')
  {
    if ReceiverEnd(k, l) > |t| then None
    else if SplitsAt(t, k, l) then Some(l)
    else ShortestReceiver(t, k, l + 1)
  }

  /** The greedy first `\s+`: widths from `k` down to 1, each with its shortest receiver. */
  function WidestFirst(t: string, k: nat): (r: Option<(nat, nat)>)
    ensures r.Some? ==> r.value.0 <= k && SplitsAt(t, r.value.0, r.value.1)
    ensures r.Some? ==> forall l': nat :: l' < r.value.1 ==> !SplitsAt(t, r.value.0, l')
    ensures r.Some? ==> forall k': nat, l': nat :: r.value.0 < k' <= k ==> !SplitsAt(t, k', l')
    ensures r.None? ==> forall k': nat, l': nat :: k' <= k ==> !SplitsAt(t, k', l')
  {
    if k == 0 then None
    else
      var shortest := ShortestReceiver(t, k, 0);
      if shortest.Some? then Some((k, shortest.value))
      else
        assert forall l': nat :: !SplitsAt(t, k, l');
        WidestFirst(t, k - 1)
  }

  /** No split can give the first `\s+` more characters than the whitespace run after `//`. */
  lemma NoWiderSplit(t: string, k: nat, l: nat)
    requires |t| >= 2 && k > LeadingSpaces(t[2..])
    ensures !SplitsAt(t, k, l)
  {
  }

  /** The split the engine reports: the first one in backtracking order. */
  function FirstSplit(t: string): (r: Option<(nat, nat)>)
    ensures r.Some? ==> SplitsAt(t, r.value.0, r.value.1)
    ensures r.Some? ==> forall k: nat, l: nat :: TriedBefore(k, l, r.value.0, r.value.1) ==> !SplitsAt(t, k, l)
    ensures r.None? ==> forall k: nat, l: nat :: !SplitsAt(t, k, l)
  {
    if |t| < 2 || t[..2] != "//" then None
    else
      assert forall k: nat, l: nat :: k > LeadingSpaces(t[2..]) ==> !SplitsAt(t, k, l) by {
        forall k: nat, l: nat | k > LeadingSpaces(t[2..]) ensures !SplitsAt(t, k, l) {
          NoWiderSplit(t, k, l);
        }
      }
      WidestFirst(t, LeadingSpaces(t[2..]))
  }

  /** `String.prototype.match` with the annotation pattern, on already trimmed text. */
  function MatchAnnotation(t: string): Option<Annotation> {
    match FirstSplit(t)
    case None => None
    case Some((k, l)) => Some(Captures(t, k, l))
  }

  /** `isImplTokenize` on the text of the trigger line. */
  function Tokenize(lineText: string): Option<Annotation> {
    MatchAnnotation(Trim(lineText))
  }

  /** Every match is the trimmed line cut as `//`, whitespace, receiver,
      whitespace, `@impl`, whitespace, interfaces; neither capture holds a line
      break, and the interfaces capture is never empty and neither starts nor
      ends with whitespace. */
  lemma TokenizeShape(lineText: string) returns (w1: string, w2: string, w3: string)
    requires Tokenize(lineText).Some?
    ensures var a := Tokenize(lineText).value;
            && Trim(lineText) == "//" + w1 + a.receiver + w2 + Keyword + w3 + a.interfaces
            && w1 != [] && w2 != [] && w3 != []
            && AllSpace(w1) && AllSpace(w2) && AllSpace(w3)
            && NoLineBreak(a.receiver) && NoLineBreak(a.interfaces)
            && a.interfaces != []
            && !IsSpace(a.interfaces[0]) && !IsSpace(a.interfaces[|a.interfaces| - 1])
  {
    var t := Trim(lineText);
    var split := FirstSplit(t).value;
    assert !IsSpace(t[|t| - 1]);
    w1, w2, w3 := ShapeOfSplit(t, split.0, split.1);
  }

  /** `TokenizeShape` for one split of a text that does not end in whitespace. */
  lemma ShapeOfSplit(t: string, k: nat, l: nat) returns (w1: string, w2: string, w3: string)
    requires SplitsAt(t, k, l) && !IsSpace(t[|t| - 1])
    ensures var a := Captures(t, k, l);
            && t == "//" + w1 + a.receiver + w2 + Keyword + w3 + a.interfaces
            && w1 != [] && w2 != [] && w3 != []
            && AllSpace(w1) && AllSpace(w2) && AllSpace(w3)
            && NoLineBreak(a.receiver) && NoLineBreak(a.interfaces)
            && a.interfaces != []
            && !IsSpace(a.interfaces[0]) && !IsSpace(a.interfaces[|a.interfaces| - 1])
  {
    var a := Captures(t, k, l);
    var p := ReceiverEnd(k, l);
    var ks := KeywordStart(t, k, l);
    var q := ks + |Keyword|;
    var start := InterfacesStart(t, k, l);
    w1, w2, w3 := t[2..2 + k], t[p..ks], t[q..start];
    assert AllSpace(w2) by { assert t[p..][..ks - p] == w2; }
    assert AllSpace(w3) by { assert t[q..][..start - q] == w3; }
    assert t[start - 1] == w3[|w3| - 1];
    assert a.interfaces[0] == t[q..][start - q];
    assert a.interfaces[|a.interfaces| - 1] == t[|t| - 1];
    SplitReassembles(t, k, l, w1, w2, w3);
  }

  /** A split cuts `t` into seven consecutive pieces that make it up again. */
  lemma SplitReassembles(t: string, k: nat, l: nat, w1: string, w2: string, w3: string)
    requires SplitsAt(t, k, l)
    requires w1 == t[2..2 + k] && w2 == t[ReceiverEnd(k, l)..KeywordStart(t, k, l)]
    requires w3 == t[KeywordStart(t, k, l) + |Keyword|..InterfacesStart(t, k, l)]
    ensures var a := Captures(t, k, l);
            t == "//" + w1 + a.receiver + w2 + Keyword + w3 + a.interfaces
  {
    var a := Captures(t, k, l);
    var p := ReceiverEnd(k, l);
    var ks := KeywordStart(t, k, l);
    var q := ks + |Keyword|;
    var start := InterfacesStart(t, k, l);
    CapturesFrom(t, k, l, start);
    var tail5 := w3 + a.interfaces;
    var tail4 := Keyword + tail5;
    var tail3 := w2 + tail4;
    var tail2 := a.receiver + tail3;
    var tail1 := w1 + tail2;
    Glue(t, q, start, w3, a.interfaces);
    Glue(t, ks, q, Keyword, tail5);
    Glue(t, p, ks, w2, tail4);
    Glue(t, 2 + k, p, a.receiver, tail3);
    Glue(t, 2, 2 + k, w1, tail2);
    Glue(t, 0, 2, "//", tail1);
    assert t == t[0..];
    Regroup("//", w1, a.receiver, w2, Keyword, w3, a.interfaces);
  }

  /** A suffix of `s` is its slice up to `j` followed by its suffix from `j`. */
  lemma Glue(s: string, i: nat, j: nat, x: string, rest: string)
    requires i <= j <= |s| && s[i..j] == x && s[j..] == rest
    ensures s[i..] == x + rest
  {
    assert s[i..] == s[i..j] + s[j..];
  }

  /** Every match starts with the comment marker `//`. */
  lemma TokenizeStartsWithComment(lineText: string)
    requires Tokenize(lineText).Some?
    ensures |Trim(lineText)| >= 2 && Trim(lineText)[..2] == "//"
    ensures Trim(lineText)[0] == '/'
  {
    var t := Trim(lineText);
    assert SplitsAt(t, FirstSplit(t).value.0, FirstSplit(t).value.1);
    assert t[0] == t[..2][0];
  }

  /** Every match contains `@impl`, at the place `KeywordStart` names. */
  lemma TokenizeHasKeyword(lineText: string) returns (at: nat)
    requires Tokenize(lineText).Some?
    ensures at + |Keyword| <= |Trim(lineText)| && Trim(lineText)[at..at + |Keyword|] == Keyword
    ensures Trim(lineText)[at] == '@'
  {
    var t := Trim(lineText);
    var split := FirstSplit(t).value;
    at := KeywordStart(t, split.0, split.1);
    assert t[at] == t[at..at + |Keyword|][0];
  }

  /** The pieces of a line cut as the pattern describes form the split whose
      first run is `w1` and whose receiver is `recv`. */
  lemma SplitOfPieces(t: string, w1: string, recv: string, w2: string, w3: string, ifs: string)
    requires t == "//" + w1 + recv + w2 + Keyword + w3 + ifs
    requires w1 != [] && w2 != [] && w3 != []
    requires AllSpace(w1) && AllSpace(w2) && AllSpace(w3)
    requires NoLineBreak(recv) && NoLineBreak(ifs)
    ensures SplitsAt(t, |w1|, |recv|)
    ensures Captures(t, |w1|, |recv|) == Annotation(recv, ifs[LeadingSpaces(ifs)..])
    ensures t[2 + |w1|..ReceiverEnd(|w1|, |recv|)] == recv
  {
    Regroup("//", w1, recv, w2, Keyword, w3, ifs);
    var tail5 := w3 + ifs;
    var tail4 := Keyword + tail5;
    var tail3 := w2 + tail4;
    var tail2 := recv + tail3;
    SplitOfTails(t, w1, recv, w2, w3, ifs, tail2, tail3, tail4, tail5);
  }

  /** `SplitOfPieces`, with the line given as a chain of suffixes. */
  lemma SplitOfTails(t: string, w1: string, recv: string, w2: string, w3: string, ifs: string,
                     tail2: string, tail3: string, tail4: string, tail5: string)
    requires |t| >= 2 && t[..2] == "//" && t[2..] == w1 + tail2
    requires tail2 == recv + tail3 && tail3 == w2 + tail4
    requires tail4 == Keyword + tail5 && tail5 == w3 + ifs
    requires w1 != [] && w2 != [] && w3 != []
    requires AllSpace(w1) && AllSpace(w2) && AllSpace(w3)
    requires NoLineBreak(recv) && NoLineBreak(ifs)
    ensures SplitsAt(t, |w1|, |recv|)
    ensures Captures(t, |w1|, |recv|) == Annotation(recv, ifs[LeadingSpaces(ifs)..])
    ensures t[2 + |w1|..ReceiverEnd(|w1|, |recv|)] == recv
  {
    var k, l := |w1|, |recv|;
    var ks := ReceiverEnd(k, l) + |w2|;
    var start := ks + |Keyword| + |w3| + LeadingSpaces(ifs);
    TailsLayout(t, w1, recv, w2, w3, ifs, tail2, tail3, tail4, tail5);
    assert NoLineBreak(t[InterfacesStart(t, k, l)..]) by {
      assert t[InterfacesStart(t, k, l)..] == ifs[LeadingSpaces(ifs)..];
    }
    assert PatternAt(t, k, l);
    CapturesFrom(t, k, l, start);
  }

  /** Where each piece of a chain of suffixes sits in `t`. */
  lemma TailsLayout(t: string, w1: string, recv: string, w2: string, w3: string, ifs: string,
                    tail2: string, tail3: string, tail4: string, tail5: string)
    requires |t| >= 2 && t[2..] == w1 + tail2
    requires tail2 == recv + tail3 && tail3 == w2 + tail4
    requires tail4 == Keyword + tail5 && tail5 == w3 + ifs
    requires AllSpace(w1) && AllSpace(w2) && AllSpace(w3)
    ensures ReceiverEnd(|w1|, |recv|) <= |t|
    ensures t[2..2 + |w1|] == w1 && t[2 + |w1|..ReceiverEnd(|w1|, |recv|)] == recv
    ensures KeywordStart(t, |w1|, |recv|) == ReceiverEnd(|w1|, |recv|) + |w2|
    ensures KeywordStart(t, |w1|, |recv|) + |Keyword| <= |t|
    ensures t[KeywordStart(t, |w1|, |recv|)..KeywordStart(t, |w1|, |recv|) + |Keyword|] == Keyword
    ensures InterfacesStart(t, |w1|, |recv|)
              == KeywordStart(t, |w1|, |recv|) + |Keyword| + |w3| + LeadingSpaces(ifs)
    ensures t[InterfacesStart(t, |w1|, |recv|)..] == ifs[LeadingSpaces(ifs)..]
  {
    ReceiverLayout(t, w1, recv, tail2, tail3);
    KeywordLayout(t, |w1|, |recv|, w2, w3, ifs, tail4, tail5);
  }

  /** Where the first whitespace run and the receiver sit, given what follows `//`. */
  lemma ReceiverLayout(t: string, w1: string, recv: string, tail2: string, tail3: string)
    requires |t| >= 2 && t[2..] == w1 + tail2 && tail2 == recv + tail3
    ensures ReceiverEnd(|w1|, |recv|) <= |t|
    ensures t[2..2 + |w1|] == w1 && t[2 + |w1|..ReceiverEnd(|w1|, |recv|)] == recv
    ensures t[ReceiverEnd(|w1|, |recv|)..] == tail3
  {
    Peel(t, 2, w1, tail2);
    Peel(t, 2 + |w1|, recv, tail3);
  }

  /** Where `@impl` and the interfaces capture sit, given what follows the receiver. */
  lemma KeywordLayout(t: string, k: nat, l: nat, w2: string, w3: string, ifs: string,
                      tail4: string, tail5: string)
    requires ReceiverEnd(k, l) <= |t| && t[ReceiverEnd(k, l)..] == w2 + tail4
    requires tail4 == Keyword + tail5 && tail5 == w3 + ifs
    requires AllSpace(w2) && AllSpace(w3)
    ensures KeywordStart(t, k, l) == ReceiverEnd(k, l) + |w2|
    ensures KeywordStart(t, k, l) + |Keyword| <= |t|
    ensures t[KeywordStart(t, k, l)..KeywordStart(t, k, l) + |Keyword|] == Keyword
    ensures InterfacesStart(t, k, l) == KeywordStart(t, k, l) + |Keyword| + |w3| + LeadingSpaces(ifs)
    ensures t[InterfacesStart(t, k, l)..] == ifs[LeadingSpaces(ifs)..]
  {
    var ks := ReceiverEnd(k, l) + |w2|;
    KeywordStartAt(t, k, l, w2, tail4);
    KeywordFollowedBy(t, ReceiverEnd(k, l), w2, tail4, tail5);
    InterfacesLayout(t, k, l, ks, w3, ifs);
  }

  /** The text after the receiver, cut into its whitespace, `@impl` and the rest. */
  lemma KeywordFollowedBy(t: string, p: nat, w2: string, tail4: string, tail5: string)
    requires p <= |t| && t[p..] == w2 + tail4 && tail4 == Keyword + tail5
    ensures p + |w2| + |Keyword| <= |t|
    ensures t[p + |w2|..p + |w2| + |Keyword|] == Keyword && t[p + |w2| + |Keyword|..] == tail5
  {
    Peel(t, p, w2, tail4);
    Peel(t, p + |w2|, Keyword, tail5);
  }

  /** Where the interfaces capture sits, given what follows `@impl`. */
  lemma InterfacesLayout(t: string, k: nat, l: nat, ks: nat, w3: string, ifs: string)
    requires ReceiverEnd(k, l) <= |t| && KeywordStart(t, k, l) == ks && ks + |Keyword| <= |t|
    requires t[ks + |Keyword|..] == w3 + ifs && AllSpace(w3)
    ensures InterfacesStart(t, k, l) == ks + |Keyword| + |w3| + LeadingSpaces(ifs)
    ensures t[InterfacesStart(t, k, l)..] == ifs[LeadingSpaces(ifs)..]
  {
    var q := ks + |Keyword|;
    InterfacesStartAt(t, k, l, ks, w3, ifs);
    assert t[q + |w3|..] == ifs by {
      Peel(t, q, w3, ifs);
    }
    assert t[q + |w3| + LeadingSpaces(ifs)..] == ifs[LeadingSpaces(ifs)..];
  }

  /** Cutting a known prefix off a suffix of `s`. */
  lemma Peel(s: string, i: nat, a: string, rest: string)
    requires i <= |s| && s[i..] == a + rest
    ensures i + |a| <= |s| && s[i..i + |a|] == a && s[i + |a|..] == rest
  {
    assert s[i..][..|a|] == a;
    assert s[i..][|a|..] == rest;
  }

  /** `@impl` starts right after the whitespace that follows the receiver. */
  lemma KeywordStartAt(t: string, k: nat, l: nat, w: string, rest: string)
    requires ReceiverEnd(k, l) <= |t| && t[ReceiverEnd(k, l)..] == w + rest
    requires AllSpace(w) && rest != [] && rest[0] == '@'
    ensures KeywordStart(t, k, l) == ReceiverEnd(k, l) + |w|
  {
    LeadingSpacesAppend(w, rest);
  }

  /** The interfaces capture starts after all the whitespace that follows `@impl`. */
  lemma InterfacesStartAt(t: string, k: nat, l: nat, ks: nat, w: string, rest: string)
    requires ReceiverEnd(k, l) <= |t| && KeywordStart(t, k, l) == ks && ks + |Keyword| <= |t|
    requires t[ks + |Keyword|..] == w + rest && AllSpace(w)
    ensures InterfacesStart(t, k, l) == ks + |Keyword| + |w| + LeadingSpaces(rest)
  {
    LeadingSpacesAppend(w, rest);
  }

  /** Unfolds `Captures` once the interfaces capture has been located. */
  lemma CapturesFrom(t: string, k: nat, l: nat, start: nat)
    requires SplitsAt(t, k, l) && InterfacesStart(t, k, l) == start
    ensures Captures(t, k, l) == Annotation(t[2 + k..ReceiverEnd(k, l)], t[start..])
  {
  }

  /** Seven pieces concatenated left to right, grouped from the right. */
  lemma Regroup(a: string, b: string, c: string, d: string, e: string, f: string, g: string)
    ensures a + b + c + d + e + f + g == a + (b + (c + (d + (e + (f + g)))))
  {
  }

  /** Whenever the trimmed line can be cut as the pattern describes, it matches. */
  lemma TokenizeComplete(lineText: string, w1: string, recv: string, w2: string, w3: string, ifs: string)
    requires Trim(lineText) == "//" + w1 + recv + w2 + Keyword + w3 + ifs
    requires w1 != [] && w2 != [] && w3 != []
    requires AllSpace(w1) && AllSpace(w2) && AllSpace(w3)
    requires NoLineBreak(recv) && NoLineBreak(ifs)
    ensures Tokenize(lineText).Some?
  {
    SplitOfPieces(Trim(lineText), w1, recv, w2, w3, ifs);
  }

  /** A split that the engine meets before every other valid split is the one it reports. */
  lemma FirstSplitIs(t: string, k: nat, l: nat)
    requires SplitsAt(t, k, l)
    requires forall k': nat, l': nat {:trigger SplitsAt(t, k', l')} :: TriedBefore(k', l', k, l) ==> !SplitsAt(t, k', l')
    ensures FirstSplit(t) == Some((k, l))
  {
    var r := FirstSplit(t);
    assert r.Some? by {
      assert SplitsAt(t, k, l);
    }
    var k2, l2 := r.value.0, r.value.1;
    assert !TriedBefore(k2, l2, k, l) by {
      assert SplitsAt(t, k2, l2);
    }
    assert !TriedBefore(k, l, k2, l2) by {
      assert SplitsAt(t, k, l);
    }
    assert r == Some((k, l));
  }

  /** A receiver that stops right before a non-whitespace character is too short:
      no whitespace run separates it from `@impl`. */
  lemma NoSplitBeforeWord(t: string, k: nat, l: nat)
    requires ReceiverEnd(k, l) < |t| && !IsSpace(t[ReceiverEnd(k, l)])
    ensures !SplitsAt(t, k, l)
  {
    assert t[ReceiverEnd(k, l)..][0] == t[ReceiverEnd(k, l)];
  }

  /** With a receiver that is one word, the captures are exactly that word and
      everything after the whitespace that follows `@impl`. */
  lemma TokenizeWord(lineText: string, w1: string, recv: string, w2: string, w3: string, ifs: string)
    requires Trim(lineText) == "//" + w1 + recv + w2 + Keyword + w3 + ifs
    requires w1 != [] && w2 != [] && w3 != []
    requires AllSpace(w1) && AllSpace(w2) && AllSpace(w3)
    requires recv != [] && forall i :: 0 <= i < |recv| ==> !IsSpace(recv[i]) && !IsLineBreak(recv[i])
    requires NoLineBreak(ifs) && ifs != [] && !IsSpace(ifs[0])
    ensures Tokenize(lineText) == Some(Annotation(recv, ifs))
  {
    var t := Trim(lineText);
    SplitOfPieces(t, w1, recv, w2, w3, ifs);
    WordSplitIsFirst(t, |w1|, |recv|, recv);
    assert ifs[LeadingSpaces(ifs)..] == ifs by {
      assert LeadingSpaces(ifs) == 0;
    }
  }

  /** A split whose receiver is a non-empty word is the first: a wider first run
      would swallow the word's first character, a shorter receiver would stop
      right before a non-whitespace character. */
  lemma WordSplitIsFirst(t: string, k: nat, l: nat, recv: string)
    requires SplitsAt(t, k, l) && t[2 + k..ReceiverEnd(k, l)] == recv
    requires recv != [] && forall i :: 0 <= i < |recv| ==> !IsSpace(recv[i])
    ensures FirstSplit(t) == Some((k, l))
  {
    assert LeadingSpaces(t[2..]) == k by {
      assert t[2..][..k] == t[2..2 + k];
      assert t[2..][k] == recv[0];
      LeadingSpacesUnique(t[2..], k);
    }
    forall k': nat, l': nat | TriedBefore(k', l', k, l) ensures !SplitsAt(t, k', l') {
      if k' > k {
        NoWiderSplit(t, k', l');
      } else {
        assert t[ReceiverEnd(k', l')] == recv[l'];
        NoSplitBeforeWord(t, k', l');
      }
    }
    FirstSplitIs(t, k, l);
  }

  /** The common single-spaced form `// <Type> @impl <interfaces>` yields the
      type and the interfaces text as written. */
  lemma TokenizeSingleSpaced(recv: string, ifs: string)
    requires recv != [] && forall i :: 0 <= i < |recv| ==> !IsSpace(recv[i]) && !IsLineBreak(recv[i])
    requires ifs != [] && NoLineBreak(ifs) && !IsSpace(ifs[0]) && !IsSpace(ifs[|ifs| - 1])
    ensures Tokenize("// " + recv + " @impl " + ifs) == Some(Annotation(recv, ifs))
  {
    var line := "// " + recv + " @impl " + ifs;
    assert line == "//" + " " + recv + " " + Keyword + " " + ifs;
    assert line[|line| - 1] == ifs[|ifs| - 1];
    TrimUnchanged(line);
    TokenizeWord(line, " ", recv, " ", " ", ifs);
  }

  /** The single-spaced annotation with a two-name interface list. */
  lemma ExampleTwoInterfaces()
    ensures Tokenize("// Foo @impl Stringer, error") == Some(Annotation("Foo", "Stringer, error"))
  {
    assert "// Foo @impl Stringer, error" == "// " + "Foo" + " @impl " + "Stringer, error";
    TokenizeSingleSpaced("Foo", "Stringer, error");
  }

  /** An ordinary comment without `@impl` does not match. */
  lemma ExamplePlainComment()
    ensures Tokenize("// just a note") == None
  {
    var line := "// just a note";
    TrimUnchanged(line);
    if Tokenize(line).Some? {
      var at := TokenizeHasKeyword(line);
      NoAtSign(line, at);
    }
  }

  /** Not one character of the plain comment is `@`. */
  lemma NoAtSign(line: string, at: nat)
    requires line == "// just a note" && at < |line|
    ensures line[at] != '@'
  {
  }
}
