/**
 * The classification of one item of a multivalue field. An item is
 * "sourced" when the regular expression `(.+)\s+\{(Q\d+)\}` matches it from
 * its first character (Python's `re.match`, which is anchored at the start
 * only); the name is the first group, not stripped, and the code the second.
 * Any other item is "plain" and its text is the item stripped.
 *
 * The matcher is written out for this one pattern: `.` is any character
 * except a newline, `\s` the ASCII whitespace of `Text.IsSpace`, `\d` an
 * ASCII digit. Because `(.+)` is greedy and backtracks, the match that the
 * regex engine reports is the one with the LONGEST first group.
 */
module Wikidata {
  import opened Text
  import opened Wrappers

  /** Prefix of the reference URL built from a code. */
  const EntityBase := "https://www.wikidata.org/wiki/"

  datatype Annotated = Plain(text: string) | Sourced(name: string, code: string)

  /** Reference definition of one match of `(.+)\s+\{(Q\d+)\}` at the start of
      `s`: group 1 is `s[..k]`, the whitespace is `s[k..j]`, `{` is at `j`,
      group 2 is `s[j + 1..e]` ("Q" and the digits) and `}` is at `e`.
      Whatever follows `e` is not part of the match. */
  predicate MatchAt(s: string, k: nat, j: nat, e: nat) {
    && 1 <= k < j
    && j + 2 < e < |s|
    && '\n' !in s[..k]
    && AllSpace(s[k..j])
    && s[j] == '{' && s[j + 1] == 'Q'
    && AllDigits(s[j + 2..e])
    && s[e] == '}'
  }

  ghost predicate Matches(s: string) {
    exists k: nat, j: nat, e: nat :: MatchAt(s, k, j, e)
  }

  // ---------------------------------------------------------------------------
  // The matcher

  /** End of the run of whitespace that starts at `i`. */
  function SkipSpaces(s: string, i: nat): (j: nat)
    requires i <= |s|
    ensures i <= j <= |s|
    decreases |s| - i
  {
    if i < |s| && IsSpace(s[i]) then SkipSpaces(s, i + 1) else i
  }

  /** End of the run of digits that starts at `i`. */
  function SkipDigits(s: string, i: nat): (j: nat)
    requires i <= |s|
    ensures i <= j <= |s|
    decreases |s| - i
  {
    if i < |s| && IsDigit(s[i]) then SkipDigits(s, i + 1) else i
  }

  /** Reads `\s+\{Q\d+\}` from position `k`; gives the positions of the two braces. */
  function TailAt(s: string, k: nat): (r: Option<(nat, nat)>)
    requires k <= |s|
    ensures r.Some? ==> k < r.value.0 && r.value.0 + 2 < r.value.1 < |s|
  {
    var j := SkipSpaces(s, k);
    if k < j && j + 2 < |s| && s[j] == '{' && s[j + 1] == 'Q' then
      var e := SkipDigits(s, j + 2);
      if j + 2 < e < |s| && s[e] == '}' then Some((j, e)) else None
    else None
  }

  /** Group 1 may end at `k`. */
  predicate SplitsAt(s: string, k: nat) {
    1 <= k <= |s| && '\n' !in s[..k] && TailAt(s, k).Some?
  }

  /** The backtracking of the greedy `(.+)`: the longest candidate first. The
      result is the end of group 1 and the positions of the two braces. */
  function Search(s: string, k: nat): (r: Option<(nat, nat, nat)>)
    requires k <= |s|
    ensures r.Some? ==> r.value.0 <= k && r.value.0 < r.value.1 && r.value.1 + 2 < r.value.2 < |s|
    decreases k
  {
    if k == 0 then None
    else if SplitsAt(s, k) then Some((k, TailAt(s, k).value.0, TailAt(s, k).value.1))
    else Search(s, k - 1)
  }

  lemma {:induction false} SkipSpacesSpec(s: string, i: nat)
    requires i <= |s|
    ensures AllSpace(s[i..SkipSpaces(s, i)])
    ensures SkipSpaces(s, i) < |s| ==> !IsSpace(s[SkipSpaces(s, i)])
    decreases |s| - i
  {
    if i < |s| && IsSpace(s[i]) {
      SkipSpacesSpec(s, i + 1);
      var j := SkipSpaces(s, i);
      assert s[i..j] == [s[i]] + s[i + 1..j];
    }
  }

  lemma {:induction false} SkipDigitsSpec(s: string, i: nat)
    requires i <= |s|
    ensures AllDigits(s[i..SkipDigits(s, i)])
    ensures SkipDigits(s, i) < |s| ==> !IsDigit(s[SkipDigits(s, i)])
    decreases |s| - i
  {
    if i < |s| && IsDigit(s[i]) {
      SkipDigitsSpec(s, i + 1);
      var j := SkipDigits(s, i);
      assert s[i..j] == [s[i]] + s[i + 1..j];
    }
  }

  lemma {:induction false} SkipSpacesAt(s: string, i: nat, j: nat)
    requires i <= j < |s| && AllSpace(s[i..j]) && !IsSpace(s[j])
    ensures SkipSpaces(s, i) == j
    decreases j - i
  {
    if i < j {
      assert s[i..j][0] == s[i];
      assert s[i + 1..j] == s[i..j][1..];
      SkipSpacesAt(s, i + 1, j);
    }
  }

  lemma {:induction false} SkipDigitsAt(s: string, i: nat, j: nat)
    requires i <= j < |s| && AllDigits(s[i..j]) && !IsDigit(s[j])
    ensures SkipDigits(s, i) == j
    decreases j - i
  {
    if i < j {
      assert s[i..j][0] == s[i];
      assert s[i + 1..j] == s[i..j][1..];
      SkipDigitsAt(s, i + 1, j);
    }
  }

  /** The matcher finds exactly the matches of the reference definition. */
  lemma TailAtIsMatch(s: string, k: nat, j: nat, e: nat)
    requires 1 <= k <= |s| && '\n' !in s[..k]
    ensures TailAt(s, k) == Some((j, e)) <==> MatchAt(s, k, j, e)
  {
    if MatchAt(s, k, j, e) {
      SkipSpacesAt(s, k, j);
      SkipDigitsAt(s, j + 2, e);
    }
    if TailAt(s, k) == Some((j, e)) {
      SkipSpacesSpec(s, k);
      SkipDigitsSpec(s, j + 2);
    }
  }

  /** The search reports a candidate, and no later position up to `k` is one. */
  lemma {:induction false} SearchSpec(s: string, k: nat)
    requires k <= |s|
    ensures Search(s, k).Some? ==>
      && SplitsAt(s, Search(s, k).value.0)
      && TailAt(s, Search(s, k).value.0) == Some((Search(s, k).value.1, Search(s, k).value.2))
    ensures forall k' :: (if Search(s, k).Some? then Search(s, k).value.0 else 0) < k' <= k ==> !SplitsAt(s, k')
    decreases k
  {
    if k > 0 && !SplitsAt(s, k) {
      SearchSpec(s, k - 1);
    }
  }

  /** Every match is a candidate that the search considers, so none has a
      longer first group than the one the search reports. */
  lemma MatchBounded(s: string, k: nat, j: nat, e: nat)
    requires MatchAt(s, k, j, e)
    ensures Search(s, |s|).Some? && k <= Search(s, |s|).value.0
  {
    TailAtIsMatch(s, k, j, e);
    assert SplitsAt(s, k);
    SearchSpec(s, |s|);
  }

  /** What the regex engine reports for `s`: no match, or the match whose
      first group is longest. */
  lemma LongestMatch(s: string)
    ensures Search(s, |s|).Some? <==> Matches(s)
    ensures Search(s, |s|).Some? ==>
      var (k, j, e) := Search(s, |s|).value;
      && MatchAt(s, k, j, e)
      && forall k': nat, j': nat, e': nat :: MatchAt(s, k', j', e') ==> k' <= k
  {
    var r := Search(s, |s|);
    forall k': nat, j': nat, e': nat | MatchAt(s, k', j', e')
      ensures r.Some? && k' <= r.value.0
    {
      MatchBounded(s, k', j', e');
    }
    if r.Some? {
      SearchSpec(s, |s|);
      var (k, j, e) := r.value;
      TailAtIsMatch(s, k, j, e);
    }
  }

  // ---------------------------------------------------------------------------
  // Classification

  /** The classification of one item, as the builder's loops do it: the
      regex groups when it matches, otherwise the stripped item. */
  function Classify(item: string): (r: Annotated)
    ensures r.Sourced? ==> |r.name| < |item| && r.name == item[..|r.name|] && r.code != []
  {
    match Search(item, |item|)
    case Some((k, j, e)) => Sourced(item[..k], item[j + 1..e])
    case None => Plain(Strip(item))
  }

  /** An item is sourced exactly when the pattern matches it; the name is then
      group 1 of the match with the longest group 1 (so the last `{Q...}`
      wins), unstripped, and the code is "Q" and its digits. A plain item's
      text is the item stripped. */
  lemma ClassifySpec(item: string)
    ensures var r := Classify(item);
      && (r.Sourced? <==> Matches(item))
      && (r.Plain? ==> r.text == Strip(item))
      && (r.Sourced? ==> exists j: nat, e: nat :: MatchAt(item, |r.name|, j, e) && r.code == item[j + 1..e])
      && (r.Sourced? ==> r.name == item[..|r.name|] && r.name != [] && '\n' !in r.name)
      && (r.Sourced? ==> |r.code| >= 2 && r.code[0] == 'Q' && AllDigits(r.code[1..]))
      && (r.Sourced? ==> forall k: nat, j: nat, e: nat :: MatchAt(item, k, j, e) ==> k <= |r.name|)
  {
    LongestMatch(item);
    if Search(item, |item|).Some? {
      var (k, j, e) := Search(item, |item|).value;
      assert item[j + 2..e] == item[j + 1..e][1..];
    }
  }

  /** The display text of an item, as it becomes an element's text. */
  function DisplayText(item: string): (r: string)
  {
    match Classify(item)
    case Sourced(name, _) => name
    case Plain(text) => text
  }

  /** The display text is empty exactly when the item is blank. */
  lemma DisplayTextEmpty(item: string)
    ensures DisplayText(item) == [] <==> AllSpace(item)
  {
    BlankIsPlain(item);
    ClassifySpec(item);
  }

  /** A sourced item always holds a non-blank character (its brace), so a
      blank item is plain. */
  lemma BlankIsPlain(item: string)
    ensures Classify(item).Sourced? ==> !AllSpace(item)
  {
    ClassifySpec(item);
    if Classify(item).Sourced? {
      var k: nat, j: nat, e: nat :| MatchAt(item, k, j, e);
      assert item[j] == '{';
    }
  }

  /** The reference URL of a code. */
  function Ref(code: string): (r: string)
  {
    EntityBase + code
  }
}
