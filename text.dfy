/**
 * The string operations that the PBCore builder applies to metadata values:
 * `str.split(sep)`, `str.strip()`, `str.split()` followed by `"".join(...)`,
 * and `str.rsplit(sep, 1)[0]`, on the ASCII part of Python's whitespace.
 */
module Text {

  /** Python's `str.isspace` restricted to ASCII: space, \t \n \v \f \r and the
      four separators 0x1C-0x1F. `re`'s `\s` agrees with it on ASCII. */
  predicate IsSpace(c: char) {
    c == ' ' || c == '\t' || c == '\n' || c == '\U{0B}' || c == '\U{0C}' || c == '\r'
    || c == '\U{1C}' || c == '\U{1D}' || c == '\U{1E}' || c == '\U{1F}'
  }

  /** ASCII decimal digit, as `\d` is read here. */
  predicate IsDigit(c: char) {
    '0' <= c <= '9'
  }

  predicate AllSpace(s: string) {
    forall i :: 0 <= i < |s| ==> IsSpace(s[i])
  }

  predicate NoSpace(s: string) {
    forall i :: 0 <= i < |s| ==> !IsSpace(s[i])
  }

  predicate AllDigits(s: string) {
    forall i :: 0 <= i < |s| ==> IsDigit(s[i])
  }

  /** Index of the first occurrence of `c` in `s`. */
  function IndexOf(s: string, c: char): (i: nat)
    requires c in s
    ensures i < |s| && s[i] == c && c !in s[..i]
  {
    if s[0] == c then 0 else IndexOf(s[1..], c) + 1
  }

  lemma {:induction false} IndexOfAt(s: string, c: char, i: nat)
    requires i < |s| && s[i] == c && c !in s[..i]
    ensures IndexOf(s, c) == i
  {
    if i > 0 {
      assert s[0] == s[..i][0];
      assert s[1..][..i - 1] == s[..i][1..];
      IndexOfAt(s[1..], c, i - 1);
    }
  }

  /** Index of the last occurrence of `c` in `s`. */
  function LastIndexOf(s: string, c: char): (i: nat)
    requires c in s
    ensures i < |s| && s[i] == c && c !in s[i + 1..]
  {
    if s[|s| - 1] == c then |s| - 1 else LastIndexOf(s[..|s| - 1], c)
  }

  // ---------------------------------------------------------------------------
  // s.split(sep) and its inverse sep.join(parts)

  /** `sep.join(parts)`. */
  function Join(parts: seq<string>, sep: char): (r: string)
  {
    if |parts| == 0 then ""
    else if |parts| == 1 then parts[0]
    else parts[0] + [sep] + Join(parts[1..], sep)
  }

  /** `s.split(sep)` for a one-character separator: the maximal pieces between
      separators, empty pieces included, always at least one piece. */
  function Split(s: string, sep: char): (parts: seq<string>)
    ensures |parts| >= 1
    ensures forall i :: 0 <= i < |parts| ==> sep !in parts[i]
    ensures Join(parts, sep) == s
    decreases |s|
  {
    if sep !in s then [s]
    else
      var i := IndexOf(s, sep);
      var rest := Split(s[i + 1..], sep);
      assert s == s[..i] + [sep] + s[i + 1..];
      [s[..i]] + rest
  }

  /** Splitting undoes joining, whenever no piece holds the separator. */
  lemma {:induction false} SplitJoin(parts: seq<string>, sep: char)
    requires |parts| >= 1
    requires forall i :: 0 <= i < |parts| ==> sep !in parts[i]
    ensures Split(Join(parts, sep), sep) == parts
    decreases |parts|
  {
    if |parts| > 1 {
      JoinFirst(parts, sep);
      SplitJoin(parts[1..], sep);
    }
  }

  /** The first separator of a join ends its first piece. */
  lemma JoinFirst(parts: seq<string>, sep: char)
    requires |parts| > 1 && sep !in parts[0]
    ensures var s, n := Join(parts, sep), |parts[0]|;
      && sep in s && IndexOf(s, sep) == n
      && s[..n] == parts[0] && s[n + 1..] == Join(parts[1..], sep)
  {
    var s, n := Join(parts, sep), |parts[0]|;
    assert s == parts[0] + [sep] + Join(parts[1..], sep);
    assert s[n] == sep;
    assert s[..n] == parts[0];
    IndexOfAt(s, sep, n);
    assert s[n + 1..] == Join(parts[1..], sep);
  }

  /** The first piece of `s.split(sep)`, i.e. `s.split(sep)[0]`: the text
      before the first separator, or all of `s`. */
  function BeforeFirst(s: string, sep: char): (r: string)
    ensures sep !in r
    ensures r <= s
    ensures |r| < |s| ==> s[|r|] == sep
    ensures sep !in s ==> r == s
  {
    Split(s, sep)[0]
  }

  /** `s.rsplit(sep, 1)[0]`: the text before the last separator, or all of `s`. */
  function BeforeLast(s: string, sep: char): (r: string)
    ensures sep !in s ==> r == s
    ensures sep in s ==> exists tail :: sep !in tail && s == r + [sep] + tail
  {
    if sep !in s then s
    else
      var i := LastIndexOf(s, sep);
      assert s == s[..i] + [sep] + s[i + 1..];
      s[..i]
  }

  // ---------------------------------------------------------------------------
  // s.strip()

  /** Number of leading whitespace characters. */
  function LeadingSpaces(s: string): (n: nat)
    ensures n <= |s| && AllSpace(s[..n])
    ensures n < |s| ==> !IsSpace(s[n])
  {
    if s != [] && IsSpace(s[0]) then
      var n := LeadingSpaces(s[1..]) + 1;
      assert s[..n] == [s[0]] + s[1..][..n - 1];
      n
    else 0
  }

  /** Number of trailing whitespace characters. */
  function TrailingSpaces(s: string): (n: nat)
    ensures n <= |s| && AllSpace(s[|s| - n..])
    ensures n < |s| ==> !IsSpace(s[|s| - n - 1])
  {
    if s != [] && IsSpace(s[|s| - 1]) then
      var t := s[..|s| - 1];
      var m := TrailingSpaces(t);
      SpaceSnoc(t[|t| - m..], s[|s| - 1]);
      assert s[|s| - (m + 1)..] == t[|t| - m..] + [s[|s| - 1]];
      assert m < |t| ==> s[|s| - (m + 1) - 1] == t[|t| - m - 1];
      m + 1
    else 0
  }

  lemma SpaceSnoc(s: string, c: char)
    requires AllSpace(s) && IsSpace(c)
    ensures AllSpace(s + [c])
  {
    assert forall i :: 0 <= i < |s| ==> (s + [c])[i] == s[i];
  }

  /** `r` is `s` less the whitespace prefix `s[..i]` and a whitespace suffix. */
  predicate SpacedAt(s: string, r: string, i: int) {
    0 <= i <= |s| - |r| && s[i..i + |r|] == r && AllSpace(s[..i]) && AllSpace(s[i + |r|..])
  }

  /** `s.strip()`: `s` without its leading and trailing whitespace. */
  function Strip(s: string): (r: string)
    ensures r == [] <==> AllSpace(s)
    ensures r != [] ==> !IsSpace(r[0]) && !IsSpace(r[|r| - 1])
    ensures exists i :: SpacedAt(s, r, i)
  {
    var i, j := LeadingSpaces(s), |s| - TrailingSpaces(s);
    if i < |s| then
      StripSome(s, i, j);
      s[i..j]
    else
      StripNone(s);
      []
  }

  /** A value that is not blank strips to the text between its first and
      last non-whitespace characters. */
  lemma StripSome(s: string, i: nat, j: int)
    requires i < |s| && AllSpace(s[..i]) && !IsSpace(s[i])
    requires 0 <= j <= |s| && AllSpace(s[j..]) && (0 < j ==> !IsSpace(s[j - 1]))
    ensures i < j && !AllSpace(s)
    ensures !IsSpace(s[i..j][0]) && !IsSpace(s[i..j][|s[i..j]| - 1])
    ensures SpacedAt(s, s[i..j], i)
  {
    var tail := s[j..];
    var r := s[i..j];
    assert r[0] == s[i] && r[|r| - 1] == s[j - 1];
    assert s[i..i + |r|] == r;
    assert s[i + |r|..] == tail;
  }

  /** A blank value strips to nothing. */
  lemma StripNone(s: string)
    requires LeadingSpaces(s) == |s|
    ensures AllSpace(s)
    ensures SpacedAt(s, [], |s|)
  {
    assert s[..|s|] == s;
  }

  // ---------------------------------------------------------------------------
  // "".join(s.split()): removing every whitespace character

  /** Length of the run of non-whitespace characters that starts `s`. */
  function WordLength(s: string): (n: nat)
    ensures n <= |s| && NoSpace(s[..n])
    ensures n < |s| ==> IsSpace(s[n])
  {
    if s != [] && !IsSpace(s[0]) then
      var n := WordLength(s[1..]) + 1;
      assert s[..n] == [s[0]] + s[1..][..n - 1];
      n
    else 0
  }

  /** `s.split()` with no separator: the maximal runs of non-whitespace. */
  function Words(s: string): (ws: seq<string>)
    ensures forall i :: 0 <= i < |ws| ==> ws[i] != [] && NoSpace(ws[i])
    decreases |s|
  {
    if s == [] then []
    else if IsSpace(s[0]) then Words(s[1..])
    else
      var n := WordLength(s);
      [s[..n]] + Words(s[n..])
  }

  /** `"".join(ws)`. */
  function Concat(ws: seq<string>): (r: string)
  {
    if ws == [] then "" else ws[0] + Concat(ws[1..])
  }

  /** The characters of `s` that are not whitespace, in order. */
  function NonSpace(s: string): (r: string)
    ensures NoSpace(r)
    ensures |r| <= |s|
    ensures NoSpace(s) ==> r == s
  {
    if s == [] then ""
    else if IsSpace(s[0]) then NonSpace(s[1..])
    else
      assert NoSpace(s) ==> NoSpace(s[1..]) by {
        if NoSpace(s) { forall k | 0 <= k < |s| - 1 ensures !IsSpace(s[1..][k]) { assert s[1..][k] == s[k + 1]; } }
      }
      [s[0]] + NonSpace(s[1..])
  }

  lemma {:induction false} NonSpaceAppend(a: string, b: string)
    ensures NonSpace(a + b) == NonSpace(a) + NonSpace(b)
    decreases |a|
  {
    if a != [] {
      assert (a + b)[1..] == a[1..] + b;
      NonSpaceAppend(a[1..], b);
    } else {
      assert a + b == b;
    }
  }

  /** `"".join(s.split())` deletes exactly the whitespace characters of `s`
      and keeps the others in their order. */
  function RemoveWhitespace(s: string): (r: string)
    ensures r == NonSpace(s)
  {
    JoinWordsIsNonSpace(s);
    Concat(Words(s))
  }

  lemma {:induction false} JoinWordsIsNonSpace(s: string)
    ensures Concat(Words(s)) == NonSpace(s)
    decreases |s|
  {
    if s == [] {
    } else if IsSpace(s[0]) {
      JoinWordsIsNonSpace(s[1..]);
    } else {
      var n := WordLength(s);
      assert s == s[..n] + s[n..];
      NonSpaceAppend(s[..n], s[n..]);
      JoinWordsIsNonSpace(s[n..]);
      assert ([s[..n]] + Words(s[n..]))[1..] == Words(s[n..]);
    }
  }
}
