/** Path and filename string logic of the model loaders: the in-place
    `ReplaceAll` substring replacer (rd_model.h and its verbatim copy in
    rd_mesh.h), the backslash-to-slash normalisation the texture caches apply
    to their keys, and the directory a model file's textures are resolved
    against. */
module Paths {
  import opened Wrappers
  import opened CString

  /** Left-to-right, non-overlapping replacement of every occurrence of
      `target` by `replacement`; text already produced is never searched
      again. This is the reference the in-place loop is proved against. */
  function Replaced(s: string, target: string, replacement: string): string
    requires |target| > 0
    decreases |s|
  {
    if |s| < |target| then s
    else if s[..|target|] == target then replacement + Replaced(s[|target|..], target, replacement)
    else [s[0]] + Replaced(s[1..], target, replacement)
  }

  /** Occurrences in a suffix are occurrences in the whole string, shifted. */
  lemma SuffixMatch(s: string, pat: string, d: nat, k: nat)
    requires d <= |s|
    ensures MatchAt(s[d..], pat, k) <==> MatchAt(s, pat, d + k)
  {
    if k + |pat| <= |s| - d {
      assert s[d..][k .. k + |pat|] == s[d + k .. d + k + |pat|];
    }
  }

  /** A string with no occurrence of `target` is its own replacement. */
  lemma {:induction false} ReplacedNoMatch(s: string, target: string, replacement: string)
    requires |target| > 0
    requires forall k: nat :: !MatchAt(s, target, k)
    ensures Replaced(s, target, replacement) == s
    decreases |s|
  {
    if |s| >= |target| {
      assert !MatchAt(s, target, 0);
      forall k: nat ensures !MatchAt(s[1..], target, k) {
        SuffixMatch(s, target, 1, k);
      }
      ReplacedNoMatch(s[1..], target, replacement);
      assert [s[0]] + s[1..] == s;
    }
  }

  /** Splitting at the first occurrence at or after `i`: the text before it
      is kept, the occurrence is replaced, and replacement resumes after it. */
  lemma {:induction false} ReplacedAtFirstMatch(s: string, target: string, replacement: string, i: nat, q: nat)
    requires |target| > 0
    requires i <= q && MatchAt(s, target, q)
    requires forall k: nat | i <= k < q :: !MatchAt(s, target, k)
    ensures Replaced(s[i..], target, replacement)
         == s[i..q] + replacement + Replaced(s[q + |target|..], target, replacement)
    decreases q - i
  {
    var n := |target|;
    if i == q {
      assert s[i..][..n] == s[q..q + n];
      assert s[i..][n..] == s[q + n..];
    } else {
      ReplacedAtFirstMatch(s, target, replacement, i + 1, q);
      assert !MatchAt(s, target, i);
      ReplacedSkip(s, target, replacement, i);
      assert [s[i]] + s[i + 1..q] == s[i..q];
    }
  }

  /** Where `target` does not occur at `i` but still fits, the character at `i` is copied. */
  lemma ReplacedSkip(s: string, target: string, replacement: string, i: nat)
    requires |target| > 0 && i + |target| <= |s| && !MatchAt(s, target, i)
    ensures Replaced(s[i..], target, replacement) == [s[i]] + Replaced(s[i + 1..], target, replacement)
  {
    assert s[i..][..|target|] == s[i..i + |target|];
    assert s[i..][1..] == s[i + 1..];
  }

  /** Replacing from `pos` onwards once the first occurrence at or after
      `pos` is at `q`: the loop body's step. */
  lemma ReplaceStep(r: string, target: string, replacement: string, pos: nat, q: nat)
    requires |target| > 0
    requires pos <= q && MatchAt(r, target, q)
    requires forall k: nat | pos <= k < q :: !MatchAt(r, target, k)
    ensures var r' := r[..q] + replacement + r[q + |target|..];
      q + |replacement| <= |r'| &&
      r[..pos] + Replaced(r[pos..], target, replacement)
        == r'[..q + |replacement|] + Replaced(r'[q + |replacement|..], target, replacement)
  {
    ReplacedAtFirstMatch(r, target, replacement, pos, q);
    var r' := r[..q] + replacement + r[q + |target|..];
    assert r'[..q + |replacement|] == r[..pos] + r[pos..q] + replacement;
    assert r'[q + |replacement|..] == r[q + |target|..];
  }

  /** Once no occurrence remains at or after `pos`, the rest is copied. */
  lemma ReplaceDone(r: string, target: string, replacement: string, pos: nat)
    requires |target| > 0
    requires pos <= |r|
    requires forall k: nat | pos <= k :: !MatchAt(r, target, k)
    ensures r[..pos] + Replaced(r[pos..], target, replacement) == r
  {
    var t := r[pos..];
    forall k: nat ensures !MatchAt(t, target, k) {
      SuffixMatch(r, target, pos, k);
    }
    ReplacedNoMatch(t, target, replacement);
    assert r[..pos] + t == r;
  }

  /** `ReplaceAll(input, old_char, new_char)`: the source's in-place loop.
      Each step finds the next occurrence at or after `pos`, splices in the
      replacement and resumes searching just past it. An empty `target`
      would make the source loop forever, so it is excluded. */
  method ReplaceAll(input: string, target: string, replacement: string) returns (r: string)
    requires |target| > 0
    ensures r == Replaced(input, target, replacement)
  {
    r := input;
    var pos: nat := 0;
    var found := Find(r, target, pos);
    while found.Some?
      invariant pos <= |r|
      invariant found == Find(r, target, pos)
      invariant r[..pos] + Replaced(r[pos..], target, replacement) == Replaced(input, target, replacement)
      decreases |r| - pos
    {
      var q := found.value;
      ReplaceStep(r, target, replacement, pos, q);
      r := r[..q] + replacement + r[q + |target|..];
      pos := q + |replacement|;
      found := Find(r, target, pos);
    }
    ReplaceDone(r, target, replacement, pos);
  }

  /** Replacement leaves a string with no occurrence of `target` unchanged. */
  lemma ReplaceAllWithoutOccurrence(s: string, target: string, replacement: string)
    requires |target| > 0
    requires Find(s, target, 0).None?
    ensures Replaced(s, target, replacement) == s
  {
    ReplacedNoMatch(s, target, replacement);
  }

  /** The cache-key normalisation of `LoadTexture`: every backslash becomes
      a forward slash. */
  function Normalise(filename: string): string {
    Replaced(filename, "\\", "/")
  }

  /** Normalisation is a character-wise rewrite: same length, and each
      position holds the original character with a backslash turned into a slash. */
  lemma {:induction false} NormaliseCharwise(s: string)
    ensures |Normalise(s)| == |s|
    ensures forall k | 0 <= k < |s| :: Normalise(s)[k] == (if s[k] == '\\' then '/' else s[k])
    decreases |s|
  {
    if |s| >= 1 {
      NormaliseCharwise(s[1..]);
      var rest := Normalise(s[1..]);
      if s[..1] == "\\" {
        assert Normalise(s) == "/" + rest;
      } else {
        assert s[0] != '\\';
        assert Normalise(s) == [s[0]] + rest;
      }
    }
  }

  /** A normalised name holds no backslash, keeps its length, and
      normalising it again changes nothing. */
  lemma NormaliseIdempotent(s: string)
    ensures |Normalise(s)| == |s|
    ensures '\\' !in Normalise(s)
    ensures Normalise(Normalise(s)) == Normalise(s)
  {
    NormaliseCharwise(s);
    var n := Normalise(s);
    NormaliseCharwise(n);
    assert Normalise(n) == n;
  }

  /** Two names that differ only in the separator character normalise to the
      same cache key: "a\\b.png" and "a/b.png" name one texture. */
  lemma NormaliseSeparatorsAgree(s: string, t: string)
    requires |s| == |t|
    requires forall k | 0 <= k < |s| :: s[k] == t[k] || (s[k] in "\\/" && t[k] in "\\/")
    ensures Normalise(s) == Normalise(t)
  {
    NormaliseCharwise(s);
    NormaliseCharwise(t);
  }

  /** `path.substr(0, path.find_last_of('/'))`: the directory of a model file.
      With no slash `find_last_of` yields `npos`, which `substr` clamps, so
      the whole path comes back. */
  function Directory(path: string): (r: string)
    requires ValidString(path)
    ensures '/' in path ==> |r| < |path| && path[..|r|] == r && path[|r|] == '/'
    ensures '/' in path ==> forall k | |r| < k < |path| :: path[k] != '/'
    ensures '/' !in path ==> r == path
  {
    var cut := Substr(path, 0, FindLastOfPos(path, '/'));
    assert cut.Ok? && |cut.value| <= |path|;
    assert cut.value == path[..|cut.value|];
    cut.value
  }
}
