/** The hashtag scan of `publishNote`: `content.match(/#\w+/g)` with the
    leading `#` sliced off each match. */
module Hashtags {
  import opened JsText

  /** A match of `#\w+` can start at `i`: a `#` directly followed by a word
      character. */
  predicate MatchesAt(s: string, i: nat)
  {
    i + 1 < |s| && s[i] == '#' && IsWordChar(s[i + 1])
  }

  /** Length of the maximal run of word characters starting at `i` (what the
      greedy `\w+` consumes). */
  function RunLength(s: string, i: nat): (n: nat)
    requires i <= |s|
    ensures i + n <= |s|
    ensures forall k :: i <= k < i + n ==> IsWordChar(s[k])
    ensures i + n == |s| || !IsWordChar(s[i + n])
    decreases |s| - i
  {
    if i < |s| && IsWordChar(s[i]) then 1 + RunLength(s, i + 1) else 0
  }

  /** The hashtag (without `#`) of the match starting at `i`. */
  function WordAt(s: string, i: nat): (w: string)
    requires MatchesAt(s, i)
    ensures |w| > 0 && i + 1 + |w| <= |s| && w == s[i + 1 .. i + 1 + |w|]
    ensures forall k :: 0 <= k < |w| ==> IsWordChar(w[k])
  {
    s[i + 1 .. i + 1 + RunLength(s, i + 1)]
  }

  predicate IsHashtag(w: string)
  {
    |w| > 0 && forall k :: 0 <= k < |w| ==> IsWordChar(w[k])
  }

  /** The global regular-expression search from position `i`: try a match
      at `i`; after a match resume at its end, otherwise one position on. */
  function ScanFrom(s: string, i: nat): (r: seq<string>)
    requires i <= |s|
    ensures forall k :: 0 <= k < |r| ==> IsHashtag(r[k])
    decreases |s| - i
  {
    if i == |s| then []
    else if MatchesAt(s, i) then
      var w := WordAt(s, i);
      [w] + ScanFrom(s, i + 1 + |w|)
    else ScanFrom(s, i + 1)
  }

  /** The hashtags of `s`, left to right, duplicates kept. */
  function Scan(s: string): (r: seq<string>)
    ensures forall k :: 0 <= k < |r| ==> IsHashtag(r[k])
  {
    ScanFrom(s, 0)
  }

  /** Reference definition: every position of `s` is examined on its own,
      and each one where `#\w` begins contributes its word. */
  function OccurrencesFrom(s: string, i: nat): seq<string>
    requires i <= |s|
    decreases |s| - i
  {
    if i == |s| then []
    else (if MatchesAt(s, i) then [WordAt(s, i)] else []) + OccurrencesFrom(s, i + 1)
  }

  /** Word characters never start a match, so a run of them can be skipped. */
  lemma {:induction false} SkipWordRun(s: string, a: nat, b: nat)
    requires a <= b <= |s|
    requires forall k :: a <= k < b ==> IsWordChar(s[k])
    ensures OccurrencesFrom(s, a) == OccurrencesFrom(s, b)
    decreases b - a
  {
    if a < b {
      assert !MatchesAt(s, a);
      SkipWordRun(s, a + 1, b);
    }
  }

  /** Resuming after each match loses nothing: the regular-expression scan
      finds exactly the occurrences of `#\w`, in order. */
  lemma {:induction false} ScanFromIsOccurrences(s: string, i: nat)
    requires i <= |s|
    ensures ScanFrom(s, i) == OccurrencesFrom(s, i)
    decreases |s| - i
  {
    if i < |s| {
      if MatchesAt(s, i) {
        var w := WordAt(s, i);
        SkipWordRun(s, i + 1, i + 1 + |w|);
        ScanFromIsOccurrences(s, i + 1 + |w|);
      } else {
        ScanFromIsOccurrences(s, i + 1);
      }
    }
  }

  /** The hashtags of a text are exactly its occurrences of `#\w`, left to
      right. */
  lemma ScanIsOccurrences(s: string)
    ensures Scan(s) == OccurrencesFrom(s, 0)
  {
    ScanFromIsOccurrences(s, 0);
  }

  lemma {:induction false} OccurrencesEmptyIff(s: string, i: nat)
    requires i <= |s|
    ensures OccurrencesFrom(s, i) == [] <==> forall j :: i <= j < |s| ==> !MatchesAt(s, j)
    decreases |s| - i
  {
    if i < |s| {
      OccurrencesEmptyIff(s, i + 1);
    }
  }

  /** The scan finds nothing exactly when no `#` in `s` is followed by a word
      character: a lone `#`, `# `, or `#-` contributes no tag. */
  lemma ScanEmptyIff(s: string)
    ensures Scan(s) == [] <==> forall j :: 0 <= j < |s| ==> !MatchesAt(s, j)
  {
    ScanIsOccurrences(s);
    OccurrencesEmptyIff(s, 0);
  }

  /** In the scan, a run of word characters ending before a non-word
      character is unaffected by what follows. */
  lemma {:induction false} RunLengthPrefix(a: string, b: string, i: nat)
    requires i <= |a|
    requires |a| > 0 && !IsWordChar(a[|a| - 1])
    ensures i + RunLength(a, i) < |a| || i == |a|
    ensures RunLength(a + b, i) == RunLength(a, i) || i == |a|
    decreases |a| - i
  {
    if i < |a| && IsWordChar(a[i]) {
      RunLengthPrefix(a, b, i + 1);
    }
  }

  /** Before the end of `a`, a match of `a + b` is a match of `a`, with the
      same word, when `a` ends in neither `#` nor a word character. */
  lemma MatchConcat(a: string, b: string, i: nat)
    requires i < |a|
    requires !IsWordChar(a[|a| - 1]) && a[|a| - 1] != '#'
    ensures MatchesAt(a + b, i) <==> MatchesAt(a, i)
    ensures MatchesAt(a, i) ==> WordAt(a + b, i) == WordAt(a, i)
  {
    var s := a + b;
    assert s[i] == a[i];
    if i + 1 < |a| {
      assert s[i + 1] == a[i + 1];
    }
    if MatchesAt(a, i) {
      RunLengthPrefix(a, b, i + 1);
      var n := RunLength(a, i + 1);
      assert s[i + 1 .. i + 1 + n] == a[i + 1 .. i + 1 + n];
    }
  }

  lemma {:induction false} ScanFromConcat(a: string, b: string, i: nat)
    requires i <= |a|
    requires |a| == 0 || (!IsWordChar(a[|a| - 1]) && a[|a| - 1] != '#')
    ensures ScanFrom(a + b, i) == ScanFrom(a, i) + ScanFrom(b, 0)
    decreases |a| - i
  {
    if i == |a| {
      ScanFromShift(a, b, 0);
    } else {
      var s := a + b;
      MatchConcat(a, b, i);
      if MatchesAt(a, i) {
        var w := WordAt(a, i);
        assert ScanFrom(s, i) == [w] + ScanFrom(s, i + 1 + |w|);
        ScanFromConcat(a, b, i + 1 + |w|);
        assert ScanFrom(a, i) == [w] + ScanFrom(a, i + 1 + |w|);
        var rest, tail := ScanFrom(a, i + 1 + |w|), ScanFrom(b, 0);
        assert [w] + (rest + tail) == ([w] + rest) + tail;
      } else {
        assert ScanFrom(s, i) == ScanFrom(s, i + 1);
        ScanFromConcat(a, b, i + 1);
      }
    }
  }

  /** Scanning the suffix `b` of `a + b` from `|a|` is scanning `b`. */
  lemma {:induction false} ScanFromShift(a: string, b: string, j: nat)
    requires j <= |b|
    ensures ScanFrom(a + b, |a| + j) == ScanFrom(b, j)
    decreases |b| - j
  {
    var s := a + b;
    if j < |b| {
      assert s[|a| + j] == b[j];
      if j + 1 < |b| {
        assert s[|a| + j + 1] == b[j + 1];
      }
      assert MatchesAt(s, |a| + j) <==> MatchesAt(b, j);
      if MatchesAt(b, j) {
        RunShift(a, b, j + 1);
        assert WordAt(s, |a| + j) == WordAt(b, j);
        ScanFromShift(a, b, j + 1 + RunLength(b, j + 1));
      } else {
        ScanFromShift(a, b, j + 1);
      }
    }
  }

  lemma {:induction false} RunShift(a: string, b: string, j: nat)
    requires j <= |b|
    ensures RunLength(a + b, |a| + j) == RunLength(b, j)
    decreases |b| - j
  {
    if j < |b| {
      assert (a + b)[|a| + j] == b[j];
      RunShift(a, b, j + 1);
    }
  }

  /** Hashtags are reported left to right: when `a` ends in a character that
      neither extends nor starts a hashtag, the tags of `a + b` are those of
      `a` followed by those of `b`. */
  lemma ScanConcat(a: string, b: string)
    requires |a| == 0 || (!IsWordChar(a[|a| - 1]) && a[|a| - 1] != '#')
    ensures Scan(a + b) == Scan(a) + Scan(b)
  {
    ScanFromConcat(a, b, 0);
  }

  /** The run after `#` in `#w` followed by `rest` is exactly `w` when
      `rest` does not begin with a word character. */
  lemma TagRun(w: string, rest: string)
    requires IsHashtag(w)
    requires rest == [] || !IsWordChar(rest[0])
    ensures MatchesAt(['#'] + w + rest, 0)
    ensures WordAt(['#'] + w + rest, 0) == w
  {
    var s := ['#'] + w + rest;
    assert s[1] == w[0];
    assert s[1 .. 1 + |w|] == w;
  }

  /** A text holding one hashtag `#w`, alone or followed by a non-word
      character, yields exactly `[w]`. */
  lemma ScanOneTag(w: string, rest: string)
    requires IsHashtag(w)
    requires rest == [] || (|rest| == 1 && !IsWordChar(rest[0]))
    ensures Scan(['#'] + w + rest) == [w]
  {
    var s := ['#'] + w + rest;
    TagRun(w, rest);
    assert ScanFrom(s, 0) == [w] + ScanFrom(s, 1 + |w|);
    if rest != [] {
      assert !MatchesAt(s, 1 + |w|);
      assert ScanFrom(s, 1 + |w|) == ScanFrom(s, |s|);
    }
  }

  /** A leading hashtag `#w` is reported first, and the scan then goes on
      with the rest of the text as if it stood alone, provided the rest
      begins with a character that neither extends `w` nor starts a tag. */
  lemma ScanLeadingTag(w: string, rest: string)
    requires IsHashtag(w)
    requires rest == [] || (!IsWordChar(rest[0]) && rest[0] != '#')
    ensures Scan(['#'] + w + rest) == [w] + Scan(rest)
  {
    if rest == [] {
      ScanOneTag(w, []);
      ScanEmptyIff([]);
    } else {
      var c, tail := [rest[0]], rest[1..];
      assert rest == c + tail;
      var a := ['#'] + w + c;
      assert ['#'] + w + rest == a + tail;
      ScanOneTag(w, c);
      ScanConcat(a, tail);
      ScanEmptyIff(c);
      ScanConcat(c, tail);
    }
  }

  /** A repeated hashtag is reported once per occurrence. */
  lemma {:induction false} DuplicatesKept(w: string)
    requires IsHashtag(w)
    ensures Scan(['#'] + w + [' '] + ['#'] + w) == [w, w]
  {
    var a, b := ['#'] + w + [' '], ['#'] + w + [];
    assert a + b == ['#'] + w + [' '] + ['#'] + w;
    ScanConcat(a, b);
    ScanOneTag(w, [' ']);
    ScanOneTag(w, []);
  }
}
