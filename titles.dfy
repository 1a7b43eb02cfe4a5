/**
 * Title extraction: a case-insensitive, whole-word search of the passenger's
 * name for one of a fixed list of honorifics, folded into five classes.
 *
 * The search follows the semantics of a regular expression of the form
 * `\b(w1|w2|...)\b` with the `i` flag: the leftmost position of the name at
 * which some alternative matches wins, and at that position the first
 * alternative in the pattern's order whose match is followed by a word
 * boundary.
 */
module Titles {
  import opened Wrappers

  datatype Title = Mr | Mrs | Miss | Master | Rare

  /** The pattern's alternatives, in the pattern's order, lower-cased. */
  function Vocabulary(): (v: seq<string>)
    ensures |v| == 18
    ensures forall k :: 0 <= k < |v| ==> v[k] != []
  {
    ["mr", "mrs", "miss", "master", "dr", "rev", "col", "major", "mlle",
     "mme", "ms", "lady", "sir", "capt", "countess", "don", "dona", "jonkheer"]
  }

  /** A character of the regular-expression class `\w`. */
  predicate IsWordChar(c: char) {
    ('a' <= c <= 'z') || ('A' <= c <= 'Z') || ('0' <= c <= '9') || c == '_'
  }

  /**
   * Case folding as case-insensitive matching does it without the unicode
   * flag: only ASCII letters fold onto the lower-case letters of the pattern.
   */
  function ToLower(c: char): (l: char)
    ensures 'A' <= c <= 'Z' ==> l as int == c as int + 32
    ensures !('A' <= c <= 'Z') ==> l == c
    ensures 'a' <= l <= 'z' ==> c == l || c == (l as int - 32) as char
  {
    if 'A' <= c <= 'Z' then (c as int + 32) as char else c
  }

  /** `\b` at position i: a word character on exactly one side of i. */
  predicate IsBoundary(s: string, i: nat)
    requires i <= |s|
  {
    (i > 0 && IsWordChar(s[i - 1])) != (i < |s| && IsWordChar(s[i]))
  }

  /** The text of s from position i on starts with w, up to case. */
  predicate FoldedAt(s: string, i: nat, w: string)
    requires i <= |s|
    decreases |w|
  {
    w == [] || (i < |s| && ToLower(s[i]) == w[0] && FoldedAt(s, i + 1, w[1..]))
  }

  /** The whole pattern matches at position i using alternative w. */
  predicate MatchesAt(s: string, i: nat, w: string)
    requires i <= |s|
  {
    IsBoundary(s, i) && FoldedAt(s, i, w) && i + |w| <= |s| && IsBoundary(s, i + |w|)
  }

  /** No alternative matches at position p. */
  ghost predicate NoMatchAt(s: string, p: nat) {
    forall k :: 0 <= k < |Vocabulary()| && p <= |s| ==> !MatchesAt(s, p, Vocabulary()[k])
  }

  /** No alternative matches at any position from i on. */
  ghost predicate NoMatchFrom(s: string, i: nat) {
    forall p :: i <= p <= |s| ==> NoMatchAt(s, p)
  }

  /**
   * Alternative k at position p is the match the regular expression reports
   * when the search starts at i: nothing matches further left, and no earlier
   * alternative matches at p.
   */
  ghost predicate IsFirstMatch(s: string, i: nat, p: nat, k: nat) {
    && i <= p <= |s|
    && k < |Vocabulary()|
    && MatchesAt(s, p, Vocabulary()[k])
    && (forall q :: i <= q < p ==> NoMatchAt(s, q))
    && (forall j :: 0 <= j < k ==> !MatchesAt(s, p, Vocabulary()[j]))
  }

  /** The index of the first alternative from j on that matches at position i. */
  function FirstAlternative(s: string, i: nat, j: nat): (r: Option<nat>)
    requires i <= |s| && j <= |Vocabulary()|
    ensures r.Some? ==> j <= r.value < |Vocabulary()| && MatchesAt(s, i, Vocabulary()[r.value])
    ensures r.Some? ==> forall k :: j <= k < r.value ==> !MatchesAt(s, i, Vocabulary()[k])
    ensures r.None? ==> forall k :: j <= k < |Vocabulary()| ==> !MatchesAt(s, i, Vocabulary()[k])
    decreases |Vocabulary()| - j
  {
    if j == |Vocabulary()| then None
    else if MatchesAt(s, i, Vocabulary()[j]) then Some(j)
    else FirstAlternative(s, i, j + 1)
  }

  /** The scan of s from position i on: the position and alternative of the leftmost match. */
  function Search(s: string, i: nat): (r: Option<(nat, nat)>)
    requires i <= |s|
    ensures r.Some? ==> IsFirstMatch(s, i, r.value.0, r.value.1)
    ensures r.None? ==> NoMatchFrom(s, i)
    decreases |s| - i
  {
    match FirstAlternative(s, i, 0)
    case Some(k) => Some((i, k))
    case None =>
      assert NoMatchAt(s, i);
      if i == |s| then None
      else
        var r := Search(s, i + 1);
        if r.Some? then FirstMatchExtends(s, i, r.value.0, r.value.1); r
        else NoMatchExtends(s, i); r
  }

  /**
   * The grouping of the matched alternative into the five title classes,
   * by its index in the pattern: the French and plain forms of "miss", the
   * forms of "mrs" and the noble titles for married women, then the titles
   * grouped as rare; the four common forms stand for themselves.
   */
  function TitleOfAlternative(k: nat): Title
    requires k < |Vocabulary()|
  {
    if k == 8 || k == 10 then Miss                       // mlle, ms
    else if k == 9 then Mrs                              // mme
    else if k == 11 || k == 14 || k == 16 then Mrs       // lady, countess, dona
    else if k in {13, 6, 7, 4, 5, 12, 15, 17} then Rare  // capt, col, major, dr, rev, sir, don, jonkheer
    else if k == 0 then Mr
    else if k == 1 then Mrs
    else if k == 2 then Miss
    else Master
  }

  /** The grouping, stated on the lower-cased words. */
  lemma TitleOfAlternativeWords(k: nat)
    requires k < |Vocabulary()|
    ensures TitleOfAlternative(k) == Mr <==> Vocabulary()[k] == "mr"
    ensures TitleOfAlternative(k) == Master <==> Vocabulary()[k] == "master"
    ensures TitleOfAlternative(k) == Miss <==> Vocabulary()[k] in ["miss", "mlle", "ms"]
    ensures TitleOfAlternative(k) == Mrs <==> Vocabulary()[k] in ["mrs", "mme", "lady", "countess", "dona"]
    ensures TitleOfAlternative(k) == Rare <==>
      Vocabulary()[k] in ["capt", "col", "major", "dr", "rev", "sir", "don", "jonkheer"]
  {
  }

  /** The title class of a name; "mr" when no honorific occurs as a whole word. */
  function ExtractTitle(name: string): Title {
    var r := Search(name, 0);
    if r.None? then Mr else TitleOfAlternative(r.value.1)
  }

  /**
   * The title is the class of the first whole-word match the regular
   * expression reports, and "mr" when there is none.
   */
  lemma ExtractTitleIsFirstMatch(name: string)
    ensures NoMatchFrom(name, 0) ==> ExtractTitle(name) == Mr
    ensures forall p: nat, k: nat :: IsFirstMatch(name, 0, p, k) ==> ExtractTitle(name) == TitleOfAlternative(k)
  {
    var r := Search(name, 0);
    if r.None? {
      NoMatchHasNoFirst(name, 0);
    } else {
      var (p, k) := r.value;
      FirstMatchUnique(name, 0, p, k);
      MatchRefutesNoMatch(name, 0, p, k);
    }
  }

  /** A match found from i + 1 on is the first from i on when nothing matches at i. */
  lemma FirstMatchExtends(s: string, i: nat, p: nat, k: nat)
    requires i < |s| && NoMatchAt(s, i) && IsFirstMatch(s, i + 1, p, k)
    ensures IsFirstMatch(s, i, p, k)
  {
  }

  lemma NoMatchExtends(s: string, i: nat)
    requires i < |s| && NoMatchAt(s, i) && NoMatchFrom(s, i + 1)
    ensures NoMatchFrom(s, i)
  {
  }

  /** A match at p rules out "no match from i on" for every i up to p. */
  lemma MatchRefutesNoMatch(s: string, i: nat, p: nat, k: nat)
    requires i <= p <= |s| && k < |Vocabulary()| && MatchesAt(s, p, Vocabulary()[k])
    ensures !NoMatchAt(s, p) && !NoMatchFrom(s, i)
  {
  }

  lemma NoMatchHasNoFirst(s: string, i: nat)
    requires NoMatchFrom(s, i)
    ensures forall p: nat, k: nat :: !IsFirstMatch(s, i, p, k)
  {
    forall p: nat, k: nat | i <= p <= |s| && k < |Vocabulary()|
      ensures !IsFirstMatch(s, i, p, k)
    {
      assert NoMatchAt(s, p);
    }
  }

  /** The reported match is determined by the text alone. */
  lemma FirstMatchUnique(s: string, i: nat, p: nat, k: nat)
    requires IsFirstMatch(s, i, p, k)
    ensures forall p': nat, k': nat :: IsFirstMatch(s, i, p', k') ==> p' == p && k' == k
  {
    forall p': nat, k': nat | IsFirstMatch(s, i, p', k')
      ensures p' == p && k' == k
    {
      MatchRefutesNoMatch(s, i, p, k);
      MatchRefutesNoMatch(s, i, p', k');
      assert p' == p;
    }
  }

  // Case-insensitivity of the search.

  /** Two texts that agree letter by letter once folded. */
  predicate SameUpToCase(s: string, t: string) {
    |s| == |t| && forall i :: 0 <= i < |s| ==> ToLower(s[i]) == ToLower(t[i])
  }

  /** Characters that fold alike are both word characters or neither. */
  lemma WordCharUpToCase(a: char, b: char)
    requires ToLower(a) == ToLower(b)
    ensures IsWordChar(a) == IsWordChar(b)
  {
  }

  lemma BoundaryUpToCase(s: string, t: string, i: nat)
    requires SameUpToCase(s, t) && i <= |s|
    ensures IsBoundary(s, i) == IsBoundary(t, i)
  {
    if i > 0 { WordCharUpToCase(s[i - 1], t[i - 1]); }
    if i < |s| { WordCharUpToCase(s[i], t[i]); }
  }

  lemma {:induction false} FoldedAtUpToCase(s: string, t: string, i: nat, w: string)
    requires SameUpToCase(s, t) && i <= |s|
    ensures FoldedAt(s, i, w) == FoldedAt(t, i, w)
    decreases |w|
  {
    if w != [] && i < |s| {
      FoldedAtUpToCase(s, t, i + 1, w[1..]);
    }
  }

  lemma MatchesAtUpToCase(s: string, t: string, i: nat, w: string)
    requires SameUpToCase(s, t) && i <= |s|
    ensures MatchesAt(s, i, w) == MatchesAt(t, i, w)
  {
    BoundaryUpToCase(s, t, i);
    FoldedAtUpToCase(s, t, i, w);
    if i + |w| <= |s| { BoundaryUpToCase(s, t, i + |w|); }
  }

  lemma NoMatchAtUpToCase(s: string, t: string, p: nat)
    requires SameUpToCase(s, t) && p <= |s|
    ensures NoMatchAt(s, p) == NoMatchAt(t, p)
  {
    forall k | 0 <= k < |Vocabulary()|
      ensures MatchesAt(s, p, Vocabulary()[k]) == MatchesAt(t, p, Vocabulary()[k])
    {
      MatchesAtUpToCase(s, t, p, Vocabulary()[k]);
    }
  }

  lemma FirstMatchUpToCase(s: string, t: string, p: nat, k: nat)
    requires SameUpToCase(s, t) && IsFirstMatch(s, 0, p, k)
    ensures IsFirstMatch(t, 0, p, k)
  {
    MatchesAtUpToCase(s, t, p, Vocabulary()[k]);
    forall q | 0 <= q < p
      ensures NoMatchAt(t, q)
    {
      NoMatchAtUpToCase(s, t, q);
    }
    forall j | 0 <= j < k
      ensures !MatchesAt(t, p, Vocabulary()[j])
    {
      MatchesAtUpToCase(s, t, p, Vocabulary()[j]);
    }
  }

  /** The search ignores case: names equal once folded get the same title. */
  lemma ExtractTitleUpToCase(s: string, t: string)
    requires SameUpToCase(s, t)
    ensures ExtractTitle(s) == ExtractTitle(t)
  {
    ExtractTitleIsFirstMatch(t);
    var r := Search(s, 0);
    if r.Some? {
      FirstMatchUpToCase(s, t, r.value.0, r.value.1);
    } else {
      forall p | 0 <= p <= |t|
        ensures NoMatchAt(t, p)
      {
        NoMatchAtUpToCase(s, t, p);
      }
    }
  }

  // Worked examples of the search.

  /** "Mr" is tried first but is not followed by a word boundary in "Mrs". */
  lemma MrsExample()
    ensures ExtractTitle("MRS. Smith") == Mrs
  {
    var s := "MRS. Smith";
    assert !IsBoundary(s, 2);
    assert !MatchesAt(s, 0, Vocabulary()[0]);
    assert MatchesAt(s, 0, Vocabulary()[1]);
    assert FirstAlternative(s, 0, 0) == Some(1);
  }

  /** Only "dr", "don" and "dona" start like "Donald", and none of them is a whole word there. */
  lemma DonaldAlternatives(s: string)
    requires s == "Donald"
    ensures NoMatchAt(s, 0)
  {
    forall k | 0 <= k < |Vocabulary()|
      ensures !MatchesAt(s, 0, Vocabulary()[k])
    {
      assert ToLower(s[0]) == 'd' && ToLower(s[1]) == 'o';
      assert !IsBoundary(s, 3) && !IsBoundary(s, 4);
    }
  }

  /** No alternative matches where there is no word boundary. */
  lemma NoMatchWithoutBoundary(s: string, p: nat)
    requires p <= |s| && !IsBoundary(s, p)
    ensures NoMatchAt(s, p)
  {
  }

  /** No alternative matches at the end of the text, since none is empty. */
  lemma NoMatchAtEnd(s: string)
    ensures NoMatchAt(s, |s|)
  {
    forall k | 0 <= k < |Vocabulary()|
      ensures !MatchesAt(s, |s|, Vocabulary()[k])
    {
      assert Vocabulary()[k] != [];
    }
  }

  /** No alternative occurs as a word in a text that reads "Donald". */
  lemma DonaldHasNoWord(s: string)
    requires s == "Donald"
    ensures NoMatchFrom(s, 0)
  {
    forall p | 0 <= p <= |s|
      ensures NoMatchAt(s, p)
    {
      if p == 0 {
        DonaldAlternatives(s);
      } else if p < |s| {
        assert !IsBoundary(s, p);
        NoMatchWithoutBoundary(s, p);
      } else {
        NoMatchAtEnd(s);
      }
    }
  }

  /** "Don" and "Dona" occur in "Donald" only as prefixes of a longer word. */
  lemma DonaldExample()
    ensures ExtractTitle("Donald") == Mr
  {
    DonaldHasNoWord("Donald");
    ExtractTitleIsFirstMatch("Donald");
  }
}
