/** The two string operations the query parser relies on, written with the
    meaning Python gives them: `str.split(sep)` with an explicit one-character
    separator, and `str.strip()` with no argument. Strings are `seq<char>`. */
module Text {

  /** The characters for which Python's `str.isspace()` is true: the ASCII
      controls TAB..CR and FS..US, the space, NEL, NO-BREAK SPACE and the
      Unicode space separators, line and paragraph separators. */
  predicate IsWhitespace(c: char) {
    || ('\U{0009}' <= c && c <= '\U{000D}')
    || ('\U{001C}' <= c && c <= '\U{001F}')
    || c == ' '
    || c == '\U{0085}'
    || c == '\U{00A0}'
    || c == '\U{1680}'
    || ('\U{2000}' <= c && c <= '\U{200A}')
    || c == '\U{2028}'
    || c == '\U{2029}'
    || c == '\U{202F}'
    || c == '\U{205F}'
    || c == '\U{3000}'
  }

  /** Every character of `s` is whitespace (vacuously true of ""). */
  predicate AllWhitespace(s: string) {
    forall k :: 0 <= k < |s| ==> IsWhitespace(s[k])
  }

  /** Neither the first nor the last character of `s` is whitespace. */
  predicate NoEdgeWhitespace(s: string) {
    |s| > 0 ==> !IsWhitespace(s[0]) && !IsWhitespace(s[|s| - 1])
  }

  /** Number of occurrences of `c` in `s`. */
  function Occurrences(s: string, c: char): nat {
    if |s| == 0 then 0
    else (if s[0] == c then 1 else 0) + Occurrences(s[1..], c)
  }

  // ---------------------------------------------------------------------------
  // split
  // ---------------------------------------------------------------------------

  /** `s.split(sep)`: the maximal `sep`-free pieces between separators, in
      order. Empty pieces are kept, so there is always one piece more than
      there are separators, and `"".split(sep)` is `[""]`. */
  function Split(s: string, sep: char): (pieces: seq<string>)
    ensures |pieces| == Occurrences(s, sep) + 1
    ensures forall i :: 0 <= i < |pieces| ==> sep !in pieces[i]
  {
    if |s| == 0 then [""]
    else
      var rest := Split(s[1..], sep);
      if s[0] == sep then [""] + rest
      else [[s[0]] + rest[0]] + rest[1..]
  }

  /** `sep.join(pieces)`, the inverse of `Split`. */
  function Join(pieces: seq<string>, sep: char): (s: string)
    requires |pieces| >= 1
    decreases |pieces|
  {
    if |pieces| == 1 then pieces[0]
    else pieces[0] + [sep] + Join(pieces[1..], sep)
  }

  /** Splitting loses nothing: joining the pieces back gives the input. */
  lemma {:induction false} JoinSplit(s: string, sep: char)
    ensures Join(Split(s, sep), sep) == s
  {
    if |s| > 0 {
      var rest := Split(s[1..], sep);
      JoinSplit(s[1..], sep);
      if s[0] == sep {
        assert ([""] + rest)[1..] == rest;
      } else if |rest| == 1 {
        assert Split(s, sep) == [[s[0]] + rest[0]];
        assert s == [s[0]] + s[1..];
      } else {
        var pieces := Split(s, sep);
        assert pieces[1..] == rest[1..];
        assert Join(rest, sep) == rest[0] + [sep] + Join(rest[1..], sep);
        assert s == [s[0]] + s[1..];
      }
    }
  }

  /** A separator-free string is a single piece. */
  lemma {:induction false} SplitWithoutSeparator(p: string, sep: char)
    requires sep !in p
    ensures Split(p, sep) == [p]
  {
    if |p| > 0 {
      SplitWithoutSeparator(p[1..], sep);
      assert p == [p[0]] + p[1..];
    }
  }

  /** A separator-free prefix followed by a separator splits off as one piece. */
  lemma {:induction false} SplitAfterPiece(p: string, t: string, sep: char)
    requires sep !in p
    ensures Split(p + [sep] + t, sep) == [p] + Split(t, sep)
  {
    var s := p + [sep] + t;
    if |p| == 0 {
      assert s[1..] == t;
    } else {
      assert s[1..] == p[1..] + [sep] + t;
      SplitAfterPiece(p[1..], t, sep);
      assert [p[0]] + p[1..] == p;
    }
  }

  /** Joining separator-free pieces and splitting again gives the pieces back. */
  lemma {:induction false} SplitJoin(pieces: seq<string>, sep: char)
    requires |pieces| >= 1
    requires forall i :: 0 <= i < |pieces| ==> sep !in pieces[i]
    ensures Split(Join(pieces, sep), sep) == pieces
  {
    if |pieces| == 1 {
      SplitWithoutSeparator(pieces[0], sep);
    } else {
      SplitJoin(pieces[1..], sep);
      SplitAfterPiece(pieces[0], Join(pieces[1..], sep), sep);
      assert [pieces[0]] + pieces[1..] == pieces;
    }
  }

  // ---------------------------------------------------------------------------
  // strip
  // ---------------------------------------------------------------------------

  /** The first `i` characters of `s` are whitespace. */
  predicate WhitespaceBefore(s: string, i: int) {
    forall k :: 0 <= k < i && k < |s| ==> IsWhitespace(s[k])
  }

  /** The characters of `s` from position `j` on are whitespace. */
  predicate WhitespaceFrom(s: string, j: int) {
    forall k :: 0 <= j <= k < |s| ==> IsWhitespace(s[k])
  }

  /** Length of the run of whitespace that starts `s`. */
  function LeadingWhitespace(s: string): (n: nat)
    ensures n <= |s| && WhitespaceBefore(s, n)
    ensures n < |s| ==> !IsWhitespace(s[n])
  {
    if |s| > 0 && IsWhitespace(s[0]) then 1 + LeadingWhitespace(s[1..]) else 0
  }

  /** Length of the run of whitespace that ends `s`. */
  function TrailingWhitespace(s: string): (n: nat)
    ensures n <= |s| && WhitespaceFrom(s, |s| - n)
    ensures n < |s| ==> !IsWhitespace(s[|s| - n - 1])
  {
    if |s| > 0 && IsWhitespace(s[|s| - 1]) then 1 + TrailingWhitespace(s[..|s| - 1]) else 0
  }

  /** `s.lstrip()`: drops the leading whitespace; the result is a suffix of `s`. */
  function TrimLeft(s: string): (r: string)
    ensures |r| <= |s| && r == s[|s| - |r|..]
    ensures WhitespaceBefore(s, |s| - |r|)
    ensures |r| > 0 ==> !IsWhitespace(r[0])
  {
    s[LeadingWhitespace(s)..]
  }

  /** `s.rstrip()`: drops the trailing whitespace; the result is a prefix of `s`. */
  function TrimRight(s: string): (r: string)
    ensures |r| <= |s| && r == s[..|r|]
    ensures WhitespaceFrom(s, |r|)
    ensures |r| > 0 ==> !IsWhitespace(r[|r| - 1])
  {
    s[..|s| - TrailingWhitespace(s)]
  }

  /** `r` is the slice `s[i..i+|r|]` and everything of `s` outside it is whitespace. */
  predicate StripsTo(s: string, i: int, r: string) {
    && 0 <= i <= i + |r| <= |s|
    && r == s[i..i + |r|]
    && WhitespaceBefore(s, i)
    && WhitespaceFrom(s, i + |r|)
  }

  /** A prefix of a suffix of `s` is a slice of `s`. */
  lemma PrefixOfSuffix(s: string, i: nat, left: string, r: string)
    requires i <= |s| && left == s[i..]
    requires |r| <= |left| && r == left[..|r|]
    ensures r == s[i..i + |r|]
  {
  }

  /** Whitespace at the end of a suffix of `s` is whitespace at the end of `s`. */
  lemma WhitespaceFromSuffix(s: string, i: nat, left: string, j: nat)
    requires i <= |s| && left == s[i..]
    requires WhitespaceFrom(left, j)
    ensures WhitespaceFrom(s, i + j)
  {
    forall k | i + j <= k < |s|
      ensures IsWhitespace(s[k])
    {
      assert s[k] == left[k - i];
    }
  }

  /** Trimming the left end and then the right end leaves a slice of `s` with
      only whitespace outside it. */
  lemma TrimBothEnds(s: string)
    ensures StripsTo(s, |s| - |TrimLeft(s)|, TrimRight(TrimLeft(s)))
  {
    var left := TrimLeft(s);
    var r := TrimRight(left);
    var i := |s| - |left|;
    PrefixOfSuffix(s, i, left, r);
    WhitespaceFromSuffix(s, i, left, |r|);
  }

  /** `s.strip()`: the slice of `s` left after removing whitespace at both ends. */
  function Strip(s: string): (r: string)
    ensures NoEdgeWhitespace(r)
    ensures exists i :: StripsTo(s, i, r)
  {
    TrimBothEnds(s);
    TrimRight(TrimLeft(s))
  }

  /** Only one string is a whitespace-trimmed slice of `s` with no whitespace at
      its edges, so `Strip` is fully determined by its contract. */
  lemma StripUnique(s: string, i: int, r: string)
    requires StripsTo(s, i, r)
    requires NoEdgeWhitespace(r)
    ensures r == Strip(s)
  {
    var r' := Strip(s);
    var i' :| StripsTo(s, i', r');
    if |r| > 0 {
      assert s[i] == r[0] && s[i + |r| - 1] == r[|r| - 1];
    }
    if |r'| > 0 {
      assert s[i'] == r'[0] && s[i' + |r'| - 1] == r'[|r'| - 1];
    }
  }

  /** Stripping twice is stripping once. */
  lemma StripIdempotent(s: string)
    ensures Strip(Strip(s)) == Strip(s)
  {
    var r := Strip(s);
    assert r[0..0 + |r|] == r;
    StripUnique(r, 0, r);
  }

  /** A string made only of whitespace strips to "". */
  lemma StripWhitespaceOnly(s: string)
    requires AllWhitespace(s)
    ensures Strip(s) == ""
  {
    StripUnique(s, 0, "");
  }
}
