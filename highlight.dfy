/** `highlightSuggestion(suggestion, query)`: the name is split on the case-insensitive
    pattern `(query)` and every part equal to the query, ignoring case, is shown bold.

    The split follows the ECMAScript algorithm of `String.prototype.split` with a
    regular-expression separator (RegExp.prototype[@@split]) for a pattern with one capture
    group: the text between two matches is one part and the captured match is the next. The
    query is taken literally and case is folded on ASCII letters only. */
module Highlight {

  /** One rendered piece of a suggestion: plain text or a `<b>` element. */
  datatype Segment = Segment(text: string, bold: bool)

  /** Case folding of one character (ASCII letters; everything else is left as it is). */
  function FoldChar(c: char): char
  {
    if 'A' <= c <= 'Z' then (c as int + 32) as char else c
  }

  /** `s.toLowerCase()` */
  function Lower(s: string): string
  {
    seq(|s|, i requires 0 <= i < |s| => FoldChar(s[i]))
  }

  /** The pattern `(pat)` with the `i` flag matches `s` at position `q`. */
  predicate MatchAt(s: string, q: nat, pat: string)
  {
    q + |pat| <= |s| && Lower(s[q..q + |pat|]) == Lower(pat)
  }

  /** No match of the pattern starts at a position in [lo, hi). */
  predicate NoMatchIn(s: string, pat: string, lo: nat, hi: nat)
  {
    forall j: nat :: lo <= j < hi ==> !MatchAt(s, j, pat)
  }

  /** The loop of the split algorithm: `p` is where the current part starts (the end of
      the last match), `q` the position where a match is tried next. A match that ends
      where the current part starts (an empty match at `p`) is skipped. */
  function SplitFrom(s: string, pat: string, p: nat, q: nat): (parts: seq<string>)
    requires p <= q <= |s|
    ensures |parts| % 2 == 1
    ensures forall k :: 0 <= k < |parts| && k % 2 == 1 ==> Lower(parts[k]) == Lower(pat)
    decreases |s| - q, if p == q then 0 else 1
  {
    if q == |s| then [s[p..]]
    else if !MatchAt(s, q, pat) then SplitFrom(s, pat, p, q + 1)
    else if q + |pat| == p then SplitFrom(s, pat, p, q + 1)
    else [s[p..q], s[q..q + |pat|]] + SplitFrom(s, pat, q + |pat|, q + |pat|)
  }

  /** `s.split(new RegExp(`(${pat})`, 'gi'))`; an empty string splits into no parts when
      the pattern matches it and into itself otherwise. */
  function Split(s: string, pat: string): seq<string>
  {
    if |s| == 0 then (if MatchAt(s, 0, pat) then [] else [s])
    else SplitFrom(s, pat, 0, 0)
  }

  /** The string the parts spell out, one after the other. */
  function Concat(parts: seq<string>): string
  {
    if parts == [] then "" else parts[0] + Concat(parts[1..])
  }

  /** Where part `k` starts, counted from the start of the first part. */
  function Offset(parts: seq<string>, k: nat): nat
    requires k <= |parts|
  {
    |Concat(parts[..k])|
  }

  /** The text a sequence of segments shows. */
  function Text(segments: seq<Segment>): string
  {
    if segments == [] then "" else segments[0].text + Text(segments[1..])
  }

  /** `parts.map(part => part.toLowerCase() === query.toLowerCase() ? <b>{part}</b> : part)` */
  function HighlightSuggestion(suggestion: string, query: string): seq<Segment>
  {
    var parts := Split(suggestion, query);
    seq(|parts|, i requires 0 <= i < |parts| => Segment(parts[i], Lower(parts[i]) == Lower(query)))
  }

  lemma ConcatTwoMore(a: string, b: string, t: seq<string>)
    ensures Concat([a, b] + t) == a + b + Concat(t)
  {
  }

  lemma OffsetTwoMore(a: string, b: string, t: seq<string>, k: nat)
    requires k <= |t|
    ensures Offset([a, b] + t, k + 2) == |a| + |b| + Offset(t, k)
  {
    assert ([a, b] + t)[..k + 2] == [a, b] + t[..k];
    ConcatTwoMore(a, b, t[..k]);
  }

  /** The parts produced from position `p` on spell out exactly the rest of the string. */
  lemma {:induction false} SplitFromConcat(s: string, pat: string, p: nat, q: nat)
    requires p <= q <= |s|
    ensures Concat(SplitFrom(s, pat, p, q)) == s[p..]
    decreases |s| - q, if p == q then 0 else 1
  {
    if q == |s| {
      assert Concat([s[p..]]) == s[p..] + Concat([]);
    } else if !MatchAt(s, q, pat) || q + |pat| == p {
      SplitFromConcat(s, pat, p, q + 1);
    } else {
      var e := q + |pat|;
      SplitFromConcat(s, pat, e, e);
      ConcatTwoMore(s[p..q], s[q..e], SplitFrom(s, pat, e, e));
      assert s[p..q] + s[q..e] + s[e..] == s[p..];
    }
  }

  /** Splitting loses and adds nothing: the parts concatenate back to the string. */
  lemma SplitConcat(s: string, pat: string)
    ensures Concat(Split(s, pat)) == s
  {
    if |s| > 0 {
      SplitFromConcat(s, pat, 0, 0);
    }
  }

  /** A part in which no match starts cannot itself equal the (non-empty) pattern. */
  lemma PlainPartDiffers(s: string, pat: string, lo: nat, hi: nat)
    requires |pat| > 0 && lo <= hi <= |s|
    requires NoMatchIn(s, pat, lo, hi)
    ensures Lower(s[lo..hi]) != Lower(pat)
  {
    if Lower(s[lo..hi]) == Lower(pat) {
      assert |Lower(s[lo..hi])| == hi - lo;
      assert s[lo..lo + |pat|] == s[lo..hi];
      assert MatchAt(s, lo, pat);
      assert false;
    }
  }

  /** The parts `r`, read from position `p` of `s`, alternate for the non-empty pattern
      `pat`: the even-numbered ones are text between matches (different from the pattern,
      and with no match starting inside them), the odd-numbered ones the matches. */
  ghost predicate Alternates(s: string, pat: string, p: nat, r: seq<string>)
  {
    && |r| % 2 == 1
    && (forall k :: 0 <= k < |r| ==> (k % 2 == 1 <==> Lower(r[k]) == Lower(pat)))
    && (forall k :: 0 <= k < |r| && k % 2 == 0 ==>
          NoMatchIn(s, pat, p + Offset(r, k), p + Offset(r, k) + |r[k]|))
  }

  /** The last part, after the last match. */
  lemma AlternatesLast(s: string, pat: string, p: nat)
    requires |pat| > 0 && p <= |s|
    requires NoMatchIn(s, pat, p, |s|)
    ensures Alternates(s, pat, p, [s[p..]])
  {
    assert [s[p..]][..0] == [];
    PlainPartDiffers(s, pat, p, |s|);
  }

  /** A part without matches and the match that ends it, in front of alternating parts. */
  lemma AlternatesCons(s: string, pat: string, p: nat, q: nat, t: seq<string>)
    requires |pat| > 0 && p <= q && q + |pat| <= |s|
    requires NoMatchIn(s, pat, p, q) && MatchAt(s, q, pat)
    requires Alternates(s, pat, q + |pat|, t)
    ensures Alternates(s, pat, p, [s[p..q], s[q..q + |pat|]] + t)
  {
    var e := q + |pat|;
    var r := [s[p..q], s[q..e]] + t;
    assert r[..0] == [];
    PlainPartDiffers(s, pat, p, q);
    forall k | 2 <= k < |r|
      ensures r[k] == t[k - 2] && p + Offset(r, k) == e + Offset(t, k - 2)
    {
      OffsetTwoMore(s[p..q], s[q..e], t, k - 2);
    }
  }

  /** For a non-empty pattern the parts from position `p` on alternate. */
  lemma {:induction false} SplitFromShape(s: string, pat: string, p: nat, q: nat)
    requires |pat| > 0 && p <= q <= |s|
    requires NoMatchIn(s, pat, p, q)
    ensures Alternates(s, pat, p, SplitFrom(s, pat, p, q))
    decreases |s| - q
  {
    if q == |s| {
      AlternatesLast(s, pat, p);
    } else if !MatchAt(s, q, pat) {
      SplitFromShape(s, pat, p, q + 1);
    } else {
      var e := q + |pat|;
      SplitFromShape(s, pat, e, e);
      assert SplitFrom(s, pat, p, q) == [s[p..q], s[q..e]] + SplitFrom(s, pat, e, e);
      AlternatesCons(s, pat, p, q, SplitFrom(s, pat, e, e));
    }
  }

  /** Without a match from `q` on, the rest of the string is the last part. */
  lemma {:induction false} SplitFromNoMatch(s: string, pat: string, p: nat, q: nat)
    requires p <= q <= |s|
    requires NoMatchIn(s, pat, q, |s|)
    ensures SplitFrom(s, pat, p, q) == [s[p..]]
    decreases |s| - q
  {
    if q < |s| {
      assert !MatchAt(s, q, pat);
      SplitFromNoMatch(s, pat, p, q + 1);
    }
  }

  /** The shape of `Split` for a non-empty query: an odd number of parts, the odd-numbered
      ones equal to the query ignoring case, the even-numbered ones different from it and
      with no occurrence of the query starting inside them. */
  lemma SplitShape(s: string, pat: string)
    requires |pat| > 0
    ensures var r := Split(s, pat);
      && |r| % 2 == 1
      && (forall k :: 0 <= k < |r| ==> (k % 2 == 1 <==> Lower(r[k]) == Lower(pat)))
      && (forall k :: 0 <= k < |r| && k % 2 == 0 ==>
            NoMatchIn(s, pat, Offset(r, k), Offset(r, k) + |r[k]|))
  {
    if |s| == 0 {
      AlternatesLast(s, pat, 0);
    } else {
      SplitFromShape(s, pat, 0, 0);
    }
  }

  lemma {:induction false} TextOfParts(segments: seq<Segment>, parts: seq<string>)
    requires |segments| == |parts|
    requires forall i :: 0 <= i < |parts| ==> segments[i].text == parts[i]
    ensures Text(segments) == Concat(parts)
  {
    if parts != [] {
      TextOfParts(segments[1..], parts[1..]);
    }
  }

  /** The highlighted suggestion reads exactly as the suggestion's name. */
  lemma HighlightJoinsBack(suggestion: string, query: string)
    ensures Text(HighlightSuggestion(suggestion, query)) == suggestion
  {
    TextOfParts(HighlightSuggestion(suggestion, query), Split(suggestion, query));
    SplitConcat(suggestion, query);
  }

  /** For a non-empty query the bold segments are exactly the occurrences of the query:
      segments alternate plain, bold, plain, ..., every bold one equals the query ignoring
      case, and no occurrence of the query starts inside a plain one. */
  lemma HighlightMarksMatches(suggestion: string, query: string)
    requires |query| > 0
    ensures var h := HighlightSuggestion(suggestion, query);
      && |h| % 2 == 1
      && (forall k :: 0 <= k < |h| ==> (h[k].bold <==> k % 2 == 1))
      && (forall k :: 0 <= k < |h| && h[k].bold ==> Lower(h[k].text) == Lower(query))
      && (forall k :: 0 <= k < |h| && !h[k].bold ==>
            NoMatchIn(suggestion, query, Offset(Split(suggestion, query), k),
                      Offset(Split(suggestion, query), k) + |h[k].text|))
  {
    SplitShape(suggestion, query);
  }

  /** The two names of the keyboard test, highlighted for the query "b". */
  lemma HighlightExamples()
    ensures HighlightSuggestion("Bulldog", "b") == [Segment("", false), Segment("B", true), Segment("ulldog", false)]
    ensures HighlightSuggestion("Beagle", "b") == [Segment("", false), Segment("B", true), Segment("eagle", false)]
  {
    LeadingMatchOnly("Bulldog", "b");
    assert "Bulldog"[..1] == "B" && "Bulldog"[1..] == "ulldog";
    LeadingMatchOnly("Beagle", "b");
    assert "Beagle"[..1] == "B" && "Beagle"[1..] == "eagle";
  }

  /** A name whose only occurrence of a one-letter query is its first letter. */
  lemma LeadingMatchOnly(s: string, pat: string)
    requires |pat| == 1 && 1 <= |s|
    requires FoldChar(s[0]) == FoldChar(pat[0])
    requires forall j :: 1 <= j < |s| ==> FoldChar(s[j]) != FoldChar(pat[0])
    ensures HighlightSuggestion(s, pat) == [Segment("", false), Segment(s[..1], true), Segment(s[1..], false)]
  {
    assert Lower(s[0..1]) == Lower(pat);
    forall j: nat | 1 <= j < |s| ensures !MatchAt(s, j, pat) {
      assert Lower(s[j..j + 1])[0] != Lower(pat)[0];
    }
    SplitFromNoMatch(s, pat, 1, 1);
    assert Split(s, pat) == ["", s[..1], s[1..]];
    assert Lower("") != Lower(pat) && Lower(s[1..]) != Lower(pat) by {
      if |s| == 2 { assert Lower(s[1..])[0] != Lower(pat)[0]; }
    }
  }
}
