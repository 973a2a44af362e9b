/**
 * The Python string and list primitives the pipeline relies on: `pat in s`,
 * `str.replace`, `str.lower`, `str.split()`, `str.strip()`, `sep.join(parts)`
 * and the prefix slice `s[:k]`, each with the facts the other modules need.
 */
module Text {

  // ---------------------------------------------------------------------------
  // Substring test: Python's `pat in s`
  // ---------------------------------------------------------------------------

  /** `pat` occurs in `s` starting at index `i`. */
  predicate OccursAt(s: string, pat: string, i: int) {
    0 <= i && i + |pat| <= |s| && s[i..i + |pat|] == pat
  }

  /** Python's `pat in s`; the empty string occurs in every string. */
  predicate Contains(s: string, pat: string) {
    exists i :: 0 <= i <= |s| - |pat| && OccursAt(s, pat, i)
  }

  lemma ContainsWitness(s: string, pat: string, i: int)
    requires OccursAt(s, pat, i)
    ensures Contains(s, pat)
  {
  }

  /** An occurrence in `b` is still an occurrence in `a + b`, shifted by `|a|`. */
  lemma ContainsInSuffix(a: string, b: string, pat: string)
    requires Contains(b, pat)
    ensures Contains(a + b, pat)
  {
    var i :| 0 <= i <= |b| - |pat| && OccursAt(b, pat, i);
    assert (a + b)[|a| + i..|a| + i + |pat|] == b[i..i + |pat|];
    ContainsWitness(a + b, pat, |a| + i);
  }

  /** An occurrence in `a` is still an occurrence in `a + b`. */
  lemma ContainsInPrefix(a: string, b: string, pat: string)
    requires Contains(a, pat)
    ensures Contains(a + b, pat)
  {
    var i :| 0 <= i <= |a| - |pat| && OccursAt(a, pat, i);
    assert (a + b)[i..i + |pat|] == a[i..i + |pat|];
    ContainsWitness(a + b, pat, i);
  }

  /** The middle piece of a three-part string occurs in it. */
  lemma ContainsMiddle(a: string, b: string, c: string)
    ensures Contains(a + b + c, b)
  {
    assert (a + b + c)[|a|..|a| + |b|] == b;
    ContainsWitness(a + b + c, b, |a|);
  }

  /** A string that does not contain `pat` neither starts with it nor contains it after its head. */
  lemma NotContainsTail(s: string, pat: string)
    requires s != [] && !Contains(s, pat)
    ensures !(|pat| <= |s| && s[..|pat|] == pat)
    ensures !Contains(s[1..], pat)
  {
    if |pat| <= |s| && s[..|pat|] == pat {
      ContainsWitness(s, pat, 0);
    }
    if Contains(s[1..], pat) {
      assert s == [s[0]] + s[1..];
      ContainsInSuffix([s[0]], s[1..], pat);
    }
  }

  /** A pattern with a character that `s` lacks does not occur in `s`. */
  lemma MissingCharNotContained(s: string, pat: string, k: int)
    requires 0 <= k < |pat| && pat[k] !in s
    ensures !Contains(s, pat)
  {
    forall i | 0 <= i <= |s| - |pat| ensures !OccursAt(s, pat, i) {
      assert s[i..i + |pat|][k] == s[i + k];
    }
  }

  // ---------------------------------------------------------------------------
  // str.replace(pat, rep): every non-overlapping occurrence, left to right
  // ---------------------------------------------------------------------------

  /**
   * Python's `s.replace(pat, rep)`. Occurrences are taken left to right and do
   * not overlap; an empty `pat` inserts `rep` before every character and at the end.
   */
  function Replace(s: string, pat: string, rep: string): (r: string)
    ensures forall c :: c in r ==> c in s || c in rep
    decreases |s|
  {
    if pat == [] then
      if s == [] then rep else rep + [s[0]] + Replace(s[1..], pat, rep)
    else if |pat| <= |s| && s[..|pat|] == pat then
      rep + Replace(s[|pat|..], pat, rep)
    else if s == [] then
      []
    else
      [s[0]] + Replace(s[1..], pat, rep)
  }

  /** Replacing a pattern that does not occur leaves the string as it is. */
  lemma {:induction false} ReplaceAbsent(s: string, pat: string, rep: string)
    requires pat != [] && !Contains(s, pat)
    ensures Replace(s, pat, rep) == s
    decreases |s|
  {
    if s != [] {
      NotContainsTail(s, pat);
      ReplaceAbsent(s[1..], pat, rep);
      assert s == [s[0]] + s[1..];
    }
  }

  /** Replacing a single character by text without it removes every occurrence of it. */
  lemma {:induction false} ReplaceRemovesChar(s: string, c: char, rep: string)
    requires c !in rep
    ensures c !in Replace(s, [c], rep)
    decreases |s|
  {
    if s != [] {
      if s[..1] == [c] {
        ReplaceRemovesChar(s[1..], c, rep);
      } else {
        ReplaceRemovesChar(s[1..], c, rep);
        assert s[0] != c by { assert s[..1] == [s[0]]; }
      }
    }
  }

  /**
   * Replacing one character by one character works position by position:
   * the length is kept and exactly the occurrences of `c` become `d`.
   */
  lemma {:induction false} ReplaceCharPointwise(s: string, c: char, d: char)
    ensures |Replace(s, [c], [d])| == |s|
    ensures forall i :: 0 <= i < |s| ==> Replace(s, [c], [d])[i] == (if s[i] == c then d else s[i])
    decreases |s|
  {
    if s != [] {
      ReplaceCharPointwise(s[1..], c, d);
      var head := if s[0] == c then [d] else [s[0]];
      assert s[..1] == [s[0]];
      assert Replace(s, [c], [d]) == head + Replace(s[1..], [c], [d]);
      forall i | 0 < i < |s|
        ensures Replace(s, [c], [d])[i] == (if s[i] == c then d else s[i])
      {
        assert s[i] == s[1..][i - 1];
      }
    }
  }

  // ---------------------------------------------------------------------------
  // str.lower() (ASCII letters only)
  // ---------------------------------------------------------------------------

  function LowerChar(c: char): char {
    if 'A' <= c <= 'Z' then (c as int + 32) as char else c
  }

  /** Python's `s.lower()` restricted to the ASCII letters A-Z. */
  function Lower(s: string): string {
    seq(|s|, i requires 0 <= i < |s| => LowerChar(s[i]))
  }

  /** Lowering works character by character, so it commutes with slicing. */
  lemma LowerSlice(s: string, i: int, j: int)
    requires 0 <= i <= j <= |s|
    ensures Lower(s[i..j]) == Lower(s)[i..j]
  {
  }

  // ---------------------------------------------------------------------------
  // Whitespace, str.split() and str.strip()
  // ---------------------------------------------------------------------------

  /** The characters CPython's `str.isspace` accepts and `split()`/`strip()` drop. */
  predicate IsSpace(c: char) {
    c == ' ' || ('\t' <= c <= '\r') || ('\U{1c}' <= c <= '\U{1f}')
    || c == '\U{85}' || c == '\U{a0}' || c == '\U{1680}' || ('\U{2000}' <= c <= '\U{200a}')
    || c == '\U{2028}' || c == '\U{2029}' || c == '\U{202f}' || c == '\U{205f}' || c == '\U{3000}'
  }

  /** Lowering never turns a space into something else nor a non-space into a space. */
  lemma LowerKeepsSpace(c: char)
    ensures IsSpace(LowerChar(c)) <==> IsSpace(c)
  {
  }

  predicate AllSpace(s: string) {
    forall i :: 0 <= i < |s| ==> IsSpace(s[i])
  }

  /** The longest prefix of `s` free of whitespace. */
  function TakeWord(s: string): (w: string)
    ensures |w| <= |s| && w == s[..|w|]
    ensures forall i :: 0 <= i < |w| ==> !IsSpace(w[i])
    ensures |w| < |s| ==> IsSpace(s[|w|])
    decreases |s|
  {
    if s == [] || IsSpace(s[0]) then [] else [s[0]] + TakeWord(s[1..])
  }

  /** Every string of a list found in `b` is still found in `a + b`. */
  lemma ContainsAllInSuffix(a: string, b: string, parts: seq<string>)
    requires forall k :: 0 <= k < |parts| ==> Contains(b, parts[k])
    ensures forall k :: 0 <= k < |parts| ==> Contains(a + b, parts[k])
  {
    forall k | 0 <= k < |parts| ensures Contains(a + b, parts[k]) {
      ContainsInSuffix(a, b, parts[k]);
    }
  }

  /**
   * Python's `s.split()` with no separator: the maximal runs of non-whitespace,
   * in order; leading, trailing and repeated whitespace produce no empty words.
   * `SplitSkipsSpace` and `SplitTakesWord` pin the result down run by run.
   */
  function Split(s: string): (words: seq<string>)
    ensures forall k :: 0 <= k < |words| ==> words[k] != []
    ensures forall k, i :: 0 <= k < |words| && 0 <= i < |words[k]| ==> !IsSpace(words[k][i])
    ensures words == [] <==> AllSpace(s)
    decreases |s|
  {
    if s == [] then []
    else if IsSpace(s[0]) then
      var rest := Split(s[1..]);
      assert AllSpace(s[1..]) ==> AllSpace(s) by {
        if AllSpace(s[1..]) {
          forall i | 0 <= i < |s| ensures IsSpace(s[i]) {
            if i > 0 { assert s[i] == s[1..][i - 1]; }
          }
        }
      }
      rest
    else
      var w := TakeWord(s);
      [w] + Split(s[|w|..])
  }

  /** Every word of `s.split()` occurs in `s`. */
  lemma {:induction false} SplitWordsOccur(s: string)
    ensures forall k :: 0 <= k < |Split(s)| ==> Contains(s, Split(s)[k])
    decreases |s|
  {
    if s == [] {
    } else if IsSpace(s[0]) {
      SplitWordsOccur(s[1..]);
      assert Split(s) == Split(s[1..]);
      PartsOccurAfterPrefix(s, 1, [], Split(s[1..]));
      assert [] + Split(s[1..]) == Split(s[1..]);
    } else {
      var w := TakeWord(s);
      SplitWordsOccur(s[|w|..]);
      assert Split(s) == [w] + Split(s[|w|..]);
      PartsOccurAfterPrefix(s, |w|, [w], Split(s[|w|..]));
    }
  }

  /**
   * Strings found in `s[n..]`, following at most the prefix `s[..n]` itself,
   * are all found in `s`.
   */
  lemma PartsOccurAfterPrefix(s: string, n: int, first: seq<string>, rest: seq<string>)
    requires 0 <= n <= |s|
    requires first == [] || first == [s[..n]]
    requires forall k :: 0 <= k < |rest| ==> Contains(s[n..], rest[k])
    ensures forall k :: 0 <= k < |first + rest| ==> Contains(s, (first + rest)[k])
  {
    assert s[..n] + s[n..] == s;
    ContainsAllInSuffix(s[..n], s[n..], rest);
    if first != [] {
      ContainsWitness(s, s[..n], 0);
    }
    forall k | 0 <= k < |first + rest| ensures Contains(s, (first + rest)[k]) {
      if k >= |first| {
        assert (first + rest)[k] == rest[k - |first|];
      }
    }
  }

  /** The longest space-free prefix of a word followed by a space (or nothing) is that word. */
  lemma {:induction false} TakeWordOf(w: string, t: string)
    requires forall i :: 0 <= i < |w| ==> !IsSpace(w[i])
    requires t == [] || IsSpace(t[0])
    ensures TakeWord(w + t) == w
    decreases |w|
  {
    if w == [] {
      assert w + t == t;
    } else {
      assert (w + t)[0] == w[0];
      assert (w + t)[1..] == w[1..] + t;
      TakeWordOf(w[1..], t);
      assert [w[0]] + w[1..] == w;
    }
  }

  /** Whitespace in front of a string adds no words to its split. */
  lemma {:induction false} SplitSkipsSpace(sp: string, t: string)
    requires AllSpace(sp)
    ensures Split(sp + t) == Split(t)
    decreases |sp|
  {
    if sp == [] {
      assert sp + t == t;
    } else {
      assert (sp + t)[0] == sp[0];
      assert (sp + t)[1..] == sp[1..] + t;
      SplitSkipsSpace(sp[1..], t);
    }
  }

  /** A run of non-whitespace ended by whitespace or by the end of the text is the next word. */
  lemma SplitTakesWord(w: string, t: string)
    requires w != [] && forall i :: 0 <= i < |w| ==> !IsSpace(w[i])
    requires t == [] || IsSpace(t[0])
    ensures Split(w + t) == [w] + Split(t)
  {
    TakeWordOf(w, t);
    assert (w + t)[0] == w[0];
    assert (w + t)[|w|..] == t;
  }

  lemma AllSpaceCons(c: char, t: string)
    requires IsSpace(c) && AllSpace(t)
    ensures AllSpace([c] + t)
  {
    forall i | 0 <= i < |[c] + t| ensures IsSpace(([c] + t)[i]) {
      if i > 0 { assert ([c] + t)[i] == t[i - 1]; }
    }
  }

  lemma AllSpaceSnoc(t: string, c: char)
    requires AllSpace(t) && IsSpace(c)
    ensures AllSpace(t + [c])
  {
    forall i | 0 <= i < |t + [c]| ensures IsSpace((t + [c])[i]) {
      if i < |t| { assert (t + [c])[i] == t[i]; }
    }
  }

  /** Python's `s.lstrip()`: drop leading whitespace. */
  function StripLeft(s: string): (r: string)
    ensures |r| <= |s| && r == s[|s| - |r|..]
    ensures r == [] || !IsSpace(r[0])
    ensures AllSpace(s[..|s| - |r|])
    decreases |s|
  {
    if s != [] && IsSpace(s[0]) then
      var t := s[1..];
      var r := StripLeft(t);
      assert s[|s| - |r|..] == t[|t| - |r|..];
      assert s[..|s| - |r|] == [s[0]] + t[..|t| - |r|];
      AllSpaceCons(s[0], t[..|t| - |r|]);
      r
    else
      assert s[..0] == [];
      s
  }

  /** Python's `s.rstrip()`: drop trailing whitespace. */
  function StripRight(s: string): (r: string)
    ensures |r| <= |s| && r == s[..|r|]
    ensures r == [] || !IsSpace(r[|r| - 1])
    ensures AllSpace(s[|r|..])
    decreases |s|
  {
    if s != [] && IsSpace(s[|s| - 1]) then
      var t := s[..|s| - 1];
      var r := StripRight(t);
      assert s[..|r|] == t[..|r|];
      assert s[|r|..] == t[|r|..] + [s[|s| - 1]];
      AllSpaceSnoc(t[|r|..], s[|s| - 1]);
      r
    else
      assert s[|s|..] == [];
      s
  }

  /** A right-stripped left-stripped string has no whitespace at either end. */
  lemma StripNoSpaceAtEnds(s: string, r: string)
    requires r == StripRight(StripLeft(s))
    ensures r == [] || (!IsSpace(r[0]) && !IsSpace(r[|r| - 1]))
  {
    var l := StripLeft(s);
    if r != [] {
      assert l != [] && r[0] == l[0];
    }
  }

  /** Only whitespace lies around an occurrence of `r` at `i` in `s`. */
  predicate SpaceAround(s: string, r: string, i: int) {
    OccursAt(s, r, i) && AllSpace(s[..i]) && AllSpace(s[i + |r|..])
  }

  /** A prefix `r` of the suffix `l == s[i..]`, with whitespace before `i` and after `r` in `l`. */
  lemma SpaceAroundParts(s: string, l: string, r: string, i: int)
    requires 0 <= i <= |s| && l == s[i..] && |r| <= |l| && r == l[..|r|]
    requires AllSpace(s[..i]) && AllSpace(l[|r|..])
    ensures SpaceAround(s, r, i)
  {
    SliceOfSuffix(s, i, |r|);
    assert s[i + |r|..] == l[|r|..];
  }

  /**
   * A right-stripped left-stripped string is a slice of the original, and
   * everything around that slice is whitespace.
   */
  lemma StripAroundIsSpace(s: string, r: string)
    requires r == StripRight(StripLeft(s))
    ensures SpaceAround(s, r, |s| - |StripLeft(s)|)
  {
    var l := StripLeft(s);
    SpaceAroundParts(s, l, r, |s| - |l|);
  }

  /** A right-stripped left-stripped string occurs in the original. */
  lemma StripIsSlice(s: string, r: string)
    requires r == StripRight(StripLeft(s))
    ensures Contains(s, r)
  {
    StripAroundIsSpace(s, r);
    ContainsWitness(s, r, |s| - |StripLeft(s)|);
  }

  /** Slicing a suffix of `s` is slicing `s` itself, shifted. */
  lemma SliceOfSuffix(s: string, i: int, n: int)
    requires 0 <= i <= |s| && 0 <= n <= |s| - i
    ensures s[i..][..n] == s[i..i + n] && s[i..][n..] == s[i + n..]
  {
  }

  /** Python's `s.strip()`: a slice of `s` with no whitespace at either end. */
  function Strip(s: string): (r: string)
    ensures Contains(s, r)
    ensures r == [] || (!IsSpace(r[0]) && !IsSpace(r[|r| - 1]))
  {
    var r := StripRight(StripLeft(s));
    StripNoSpaceAtEnds(s, r);
    StripIsSlice(s, r);
    r
  }

  /** What `s.strip()` drops from either end of `s` is whitespace and nothing else. */
  lemma StripDropsOnlySpace(s: string)
    ensures exists i :: SpaceAround(s, Strip(s), i)
  {
    StripAroundIsSpace(s, Strip(s));
  }

  // ---------------------------------------------------------------------------
  // sep.join(parts) and the prefix slice s[:k]
  // ---------------------------------------------------------------------------

  /** Python's `sep.join(parts)`. */
  function Join(sep: string, parts: seq<string>): string
    decreases |parts|
  {
    if parts == [] then []
    else if |parts| == 1 then parts[0]
    else parts[0] + sep + Join(sep, parts[1..])
  }

  /** Joining a longer list: the join of the first part, the separator, the join of the rest. */
  lemma {:induction false} JoinConcat(sep: string, xs: seq<string>, ys: seq<string>)
    requires xs != [] && ys != []
    ensures Join(sep, xs + ys) == Join(sep, xs) + sep + Join(sep, ys)
    decreases |xs|
  {
    if |xs| == 1 {
      assert (xs + ys)[1..] == ys;
    } else {
      JoinConcat(sep, xs[1..], ys);
      assert (xs + ys)[1..] == xs[1..] + ys;
    }
  }

  /** Every part of a join occurs, unchanged, in the joined text. */
  lemma {:induction false} JoinContainsPart(sep: string, parts: seq<string>, k: int)
    requires 0 <= k < |parts|
    ensures Contains(Join(sep, parts), parts[k])
    decreases |parts|
  {
    if |parts| == 1 {
      ContainsWitness(parts[0], parts[0], 0);
    } else if k == 0 {
      ContainsWitness(parts[0], parts[0], 0);
      ContainsInPrefix(parts[0], sep + Join(sep, parts[1..]), parts[0]);
      assert parts[0] + (sep + Join(sep, parts[1..])) == Join(sep, parts);
    } else {
      JoinContainsPart(sep, parts[1..], k - 1);
      ContainsInSuffix(parts[0] + sep, Join(sep, parts[1..]), parts[k]);
    }
  }

  /** A join is at least as long as its first part. */
  lemma JoinCoversFirst(sep: string, parts: seq<string>)
    requires parts != []
    ensures |Join(sep, parts)| >= |parts[0]|
  {
  }

  /** Python's prefix slice `s[:k]`, where a negative `k` counts from the end. */
  function PrefixSlice<T>(s: seq<T>, k: int): (r: seq<T>)
    ensures r <= s
    ensures |r| == if k >= 0 then (if k < |s| then k else |s|)
                   else (if |s| + k > 0 then |s| + k else 0)
  {
    if k >= 0 then (if k < |s| then s[..k] else s)
    else (if |s| + k > 0 then s[..|s| + k] else [])
  }
}
