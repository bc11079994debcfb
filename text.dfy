/**
 * The Python `str` operations the core relies on, over Dafny strings (`seq<char>`):
 * `isspace`, `strip`, `startswith`/`endswith`, `in`, `split`, `splitlines`, `join`,
 * `rsplit(sep, 1)`, ASCII `lower` and integer formatting.
 */
module Text {
  import opened Wrappers

  /** Python's `str.isspace` for one character; `\s` of a `re` pattern on `str` matches the same set. */
  predicate IsSpace(c: char) {
    if c <= ' ' then c == ' ' || ('\t' <= c <= '\r') || ('\U{1C}' <= c <= '\U{1F}') else IsWideSpace(c)
  }

  /** The whitespace characters above the ASCII space. */
  predicate IsWideSpace(c: char) {
    c == '\U{85}' || c == '\U{A0}' || c == '\U{1680}' || ('\U{2000}' <= c <= '\U{200A}')
    || c == '\U{2028}' || c == '\U{2029}' || c == '\U{202F}' || c == '\U{205F}' || c == '\U{3000}'
  }

  predicate AllSpace(s: string) {
    forall i :: 0 <= i < |s| ==> IsSpace(s[i])
  }

  /** Index of the first non-whitespace character of `s` at or after `i`, or `|s|` when there is none. */
  function SkipSpaces(s: string, i: nat): (j: nat)
    requires i <= |s|
    ensures i <= j <= |s|
    decreases |s| - i
  {
    if i < |s| && IsSpace(s[i]) then SkipSpaces(s, i + 1) else i
  }

  /** `SkipSpaces` passes over whitespace only and stops at a non-whitespace character or the end. */
  lemma {:induction false} SkipSpacesSpec(s: string, i: nat)
    requires i <= |s|
    ensures forall k :: i <= k < SkipSpaces(s, i) ==> IsSpace(s[k])
    ensures SkipSpaces(s, i) < |s| ==> !IsSpace(s[SkipSpaces(s, i)])
    decreases |s| - i
  {
    if i < |s| && IsSpace(s[i]) { SkipSpacesSpec(s, i + 1); }
  }

  /** `SkipSpaces` is the only index with its defining properties. */
  lemma SkipSpacesIs(s: string, i: nat, j: nat)
    requires i <= j <= |s|
    requires forall k :: i <= k < j ==> IsSpace(s[k])
    requires j < |s| ==> !IsSpace(s[j])
    ensures SkipSpaces(s, i) == j
    decreases |s| - i
  {
    if i < j { SkipSpacesIs(s, i + 1, j); }
  }

  /** Index just after the last non-whitespace character of `s[lo..hi]`, or `lo` when there is none. */
  function SkipSpacesBack(s: string, lo: nat, hi: nat): (j: nat)
    requires lo <= hi <= |s|
    ensures lo <= j <= hi
    decreases hi - lo
  {
    if lo < hi && IsSpace(s[hi - 1]) then SkipSpacesBack(s, lo, hi - 1) else hi
  }

  /** `SkipSpacesBack` stops after the last non-blank character before `hi`, or at `lo`. */
  lemma {:induction false} SkipSpacesBackSpec(s: string, lo: nat, hi: nat)
    requires lo <= hi <= |s|
    ensures forall k :: SkipSpacesBack(s, lo, hi) <= k < hi ==> IsSpace(s[k])
    ensures SkipSpacesBack(s, lo, hi) > lo ==> !IsSpace(s[SkipSpacesBack(s, lo, hi) - 1])
    decreases hi - lo
  {
    if lo < hi && IsSpace(s[hi - 1]) {
      SkipSpacesBackSpec(s, lo, hi - 1);
    }
  }

  lemma SkipSpacesBackIs(s: string, lo: nat, hi: nat, j: nat)
    requires lo <= j <= hi <= |s|
    requires forall k :: j <= k < hi ==> IsSpace(s[k])
    requires j > lo ==> !IsSpace(s[j - 1])
    ensures SkipSpacesBack(s, lo, hi) == j
    decreases hi - lo
  {
    if j < hi { SkipSpacesBackIs(s, lo, hi - 1, j); }
  }

  /** A text with no whitespace at either end. */
  predicate Trimmed(r: string) {
    r == [] || (!IsSpace(r[0]) && !IsSpace(r[|r| - 1]))
  }

  /** Python's `s.strip()`: `s` with the whitespace at both ends removed. */
  function Strip(s: string): string {
    var i := SkipSpaces(s, 0);
    s[i..SkipSpacesBack(s, i, |s|)]
  }

  /** What `strip` promises: no whitespace left at either end, and nothing left only when `s` was blank. */
  lemma StripSpec(s: string)
    ensures Trimmed(Strip(s))
    ensures Strip(s) == [] <==> AllSpace(s)
  {
    SkipSpacesSpec(s, 0);
    SkipSpacesBackSpec(s, SkipSpaces(s, 0), |s|);
  }

  lemma AllSpaceConcat(a: string, b: string)
    requires AllSpace(a) && AllSpace(b)
    ensures AllSpace(a + b)
  {
    assert forall k :: 0 <= k < |a + b| ==> (a + b)[k] == if k < |a| then a[k] else b[k - |a|];
  }

  /** Whitespace added at either end of a text does not change what it strips to. */
  lemma StripIgnoresPadding(a: string, x: string, b: string)
    requires AllSpace(a) && AllSpace(b)
    ensures Strip(a + x + b) == Strip(x)
  {
    var s := a + x + b;
    forall k | 0 <= k < |a| ensures IsSpace(s[k]) {
      assert s[k] == a[k];
    }
    forall k | 0 <= k < |x| ensures s[|a| + k] == x[k] {
    }
    forall k | |a| + |x| <= k < |s| ensures IsSpace(s[k]) {
      assert s[k] == b[k - |a| - |x|];
    }
    StripEmbedded(s, |a|, x);
  }

  /** `s` holds `x` at offset `o`, with only whitespace before and after it. */
  predicate Embeds(s: string, o: nat, x: string) {
    o + |x| <= |s|
    && (forall k :: 0 <= k < o ==> IsSpace(s[k]))
    && (forall k :: 0 <= k < |x| ==> s[o + k] == x[k])
    && (forall k :: o + |x| <= k < |s| ==> IsSpace(s[k]))
  }

  /** A text that holds `x` with only whitespace around it strips as `x` does. */
  lemma StripEmbedded(s: string, o: nat, x: string)
    requires Embeds(s, o, x)
    ensures Strip(s) == Strip(x)
  {
    var i := SkipSpaces(x, 0);
    SkipSpacesSpec(x, 0);
    if i == |x| {
      EmbeddedBlank(s, o, x);
      StripSpec(s);
      StripSpec(x);
    } else {
      var j := SkipSpacesBack(x, i, |x|);
      EmbeddedStart(s, o, x, i);
      EmbeddedEnd(s, o, x, i, j);
      EmbeddedSlice(s, o, x, i, j);
      StripByBounds(s, x, o, i, j);
    }
  }

  lemma StripByBounds(s: string, x: string, o: nat, i: nat, j: nat)
    requires i == SkipSpaces(x, 0) && i <= |x| && j == SkipSpacesBack(x, i, |x|)
    requires o + j <= |s| && SkipSpaces(s, 0) == o + i && SkipSpacesBack(s, o + i, |s|) == o + j
    requires s[o + i..o + j] == x[i..j]
    ensures Strip(s) == Strip(x)
  {
  }

  lemma EmbeddedBlank(s: string, o: nat, x: string)
    requires Embeds(s, o, x) && AllSpace(x)
    ensures AllSpace(s)
  {
    forall k | 0 <= k < |s| ensures IsSpace(s[k]) {
      if o <= k < o + |x| { assert s[o + (k - o)] == x[k - o]; }
    }
  }

  lemma EmbeddedSlice(s: string, o: nat, x: string, i: nat, j: nat)
    requires Embeds(s, o, x) && i <= j <= |x|
    ensures s[o + i..o + j] == x[i..j]
  {
    forall k | 0 <= k < j - i ensures s[o + i..o + j][k] == x[i..j][k] {
      assert s[o + i + k] == x[i + k];
    }
  }

  lemma EmbeddedStart(s: string, o: nat, x: string, i: nat)
    requires Embeds(s, o, x) && i == SkipSpaces(x, 0) && i < |x|
    ensures SkipSpaces(s, 0) == o + i
  {
    SkipSpacesSpec(x, 0);
    forall k | 0 <= k < o + i ensures IsSpace(s[k]) {
      if o <= k { assert s[o + (k - o)] == x[k - o]; }
    }
    assert s[o + i] == x[i];
    SkipSpacesIs(s, 0, o + i);
  }

  lemma EmbeddedEnd(s: string, o: nat, x: string, i: nat, j: nat)
    requires Embeds(s, o, x) && i < |x| && !IsSpace(x[i]) && j == SkipSpacesBack(x, i, |x|)
    ensures SkipSpacesBack(s, o + i, |s|) == o + j
  {
    SkipSpacesBackSpec(x, i, |x|);
    forall k | o + j <= k < |s| ensures IsSpace(s[k]) {
      if k < o + |x| { assert s[o + (k - o)] == x[k - o]; }
    }
    assert s[o + j - 1] == x[j - 1];
    SkipSpacesBackIs(s, o + i, |s|, o + j);
  }

  /** A trimmed text strips to itself. */
  lemma StripTrimmed(r: string)
    requires Trimmed(r)
    ensures Strip(r) == r
  {
    if r != [] {
      SkipSpacesIs(r, 0, 0);
      SkipSpacesBackIs(r, 0, |r|, |r|);
    }
  }

  /** A trimmed text padded with whitespace strips back to itself. */
  lemma StripOfPadded(a: string, r: string, b: string)
    requires AllSpace(a) && AllSpace(b) && Trimmed(r)
    ensures Strip(a + r + b) == r
  {
    StripIgnoresPadding(a, r, b);
    StripTrimmed(r);
  }

  /** `p` occurs in `s` at index `i`. */
  predicate OccursAt(s: string, p: string, i: int) {
    0 <= i && i + |p| <= |s| && forall k :: 0 <= k < |p| ==> s[i + k] == p[k]
  }

  /** An occurrence, character by character. */
  lemma OccursAtPointwise(s: string, p: string, i: int)
    requires 0 <= i && i + |p| <= |s|
    ensures OccursAt(s, p, i) <==> forall k :: 0 <= k < |p| ==> s[i + k] == p[k]
  {
    if forall k :: 0 <= k < |p| ==> s[i + k] == p[k] {
      forall k | 0 <= k < |p| ensures s[i..i + |p|][k] == p[k] {
      }
    }
  }

  /** Python's `s.startswith(p)`. */
  predicate StartsWith(s: string, p: string) {
    OccursAt(s, p, 0)
  }

  /** Python's `s.endswith(p)`. */
  predicate EndsWith(s: string, p: string) {
    OccursAt(s, p, |s| - |p|)
  }

  /** Python's `p in s`. */
  predicate Contains(s: string, p: string) {
    exists i | 0 <= i <= |s| - |p| :: OccursAt(s, p, i)
  }

  /** A text placed between two others occurs where it was put. */
  lemma OccursInConcat(a: string, w: string, b: string)
    ensures OccursAt(a + w + b, w, |a|)
  {
    var s := a + w + b;
    assert s[|a|..|a| + |w|] == w;
  }

  /** `s` ends with `p` exactly when its last `|p|` characters are `p`. */
  lemma EndsWithSuffix(s: string, p: string)
    requires |p| <= |s|
    ensures EndsWith(s, p) <==> s[|s| - |p|..] == p
  {
    var i := |s| - |p|;
    if EndsWith(s, p) {
      forall k | 0 <= k < |p| ensures s[i..][k] == p[k] {
        OccursAtChar(s, p, i, k);
      }
    }
    if s[i..] == p {
      forall k | 0 <= k < |p| ensures s[i + k] == p[k] {
        assert s[i..][k] == s[i + k];
      }
    }
  }

  /** Whether a text ends with `p` depends only on its last `|p|` characters. */
  lemma EndsWithConcat(a: string, b: string, p: string)
    requires |p| <= |b|
    ensures EndsWith(a + b, p) <==> EndsWith(b, p)
  {
    EndsWithSuffix(a + b, p);
    EndsWithSuffix(b, p);
    assert (a + b)[|a + b| - |p|..] == b[|b| - |p|..];
  }

  /** A common ending can be dropped from both the text and the suffix. */
  lemma EndsWithCommon(x: string, y: string, z: string)
    ensures EndsWith(x + z, y + z) <==> EndsWith(x, y)
  {
    if |y| <= |x| {
      EndsWithSuffix(x + z, y + z);
      EndsWithSuffix(x, y);
      var u := x[|x| - |y|..];
      assert (x + z)[|x + z| - |y + z|..] == u + z;
      if u + z == y + z {
        assert u == (u + z)[..|u|] == (y + z)[..|y|] == y;
      }
    }
  }

  /** An occurrence of `u + v` is an occurrence of `u` followed by one of `v`. */
  lemma OccursSplit(s: string, u: string, v: string, i: int)
    requires OccursAt(s, u + v, i)
    ensures OccursAt(s, u, i) && OccursAt(s, v, i + |u|)
  {
    assert s[i..i + |u|] == (u + v)[..|u|] == u;
    assert s[i + |u|..i + |u| + |v|] == (u + v)[|u|..] == v;
  }

  /** A text that occurs inside `x` occurs at the matching place of any text holding `x`. */
  lemma OccursWithin(s: string, o: int, x: string, w: string, i: int)
    requires OccursAt(s, x, o) && 0 <= i && i + |w| <= |x|
    ensures OccursAt(s, w, o + i) <==> OccursAt(x, w, i)
  {
    var xs, ss := x[i..i + |w|], s[o + i..o + i + |w|];
    forall k | 0 <= k < |w| ensures xs[k] == ss[k] {
      assert x[i + k] == s[o..o + |x|][i + k];
    }
    assert xs == ss;
  }

  /** One character of an occurrence. */
  lemma OccursAtChar(s: string, p: string, i: int, k: int)
    requires OccursAt(s, p, i) && 0 <= k < |p|
    ensures s[i + k] == p[k]
  {
    assert s[i..i + |p|][k] == s[i + k];
  }

  /** One differing character rules an occurrence out. */
  lemma NotOccursAtChar(s: string, p: string, i: int, k: int)
    requires 0 <= k < |p| && 0 <= i + k < |s| && s[i + k] != p[k]
    ensures !OccursAt(s, p, i)
  {
    if 0 <= i && i + |p| <= |s| {
      assert s[i..i + |p|][k] == s[i + k];
    }
  }

  /** A slice of `x` is the matching slice of any text holding `x`. */
  lemma SliceWithin(s: string, o: int, x: string, i: int, j: int)
    requires OccursAt(s, x, o) && 0 <= i <= j <= |x|
    ensures s[o + i..o + j] == x[i..j]
  {
    OccursWithin(s, o, x, x[i..j], i);
  }

  /** Index of the first `c` in `s`. */
  function IndexOf(s: string, c: char): (i: nat)
    requires c in s
    ensures i < |s| && s[i] == c && c !in s[..i]
  {
    if s[0] == c then 0 else
      var i := 1 + IndexOf(s[1..], c);
      assert s[..i] == [s[0]] + s[1..][..i - 1];
      i
  }

  /** Index of the last occurrence of `p` in `s`, as Python's `s.rfind(p)` (None for -1). */
  function LastIndexOf(s: string, p: string): (r: Option<nat>)
    ensures r.Some? ==> OccursAt(s, p, r.value) && forall j :: r.value < j ==> !OccursAt(s, p, j)
    ensures r.None? ==> forall j :: !OccursAt(s, p, j)
  {
    LastIndexBelow(s, p, |s| - |p| + 1)
  }

  function LastIndexBelow(s: string, p: string, k: int): (r: Option<nat>)
    requires k <= |s| - |p| + 1
    ensures r.Some? ==> OccursAt(s, p, r.value) && forall j :: r.value < j < k ==> !OccursAt(s, p, j)
    ensures r.None? ==> forall j :: j < k ==> !OccursAt(s, p, j)
    decreases k
  {
    if k <= 0 then None
    else if OccursAt(s, p, k - 1) then Some(k - 1)
    else LastIndexBelow(s, p, k - 1)
  }

  /** Python's `sep.join(parts)`. */
  function Join(parts: seq<string>, sep: string): string {
    if |parts| == 0 then []
    else if |parts| == 1 then parts[0]
    else parts[0] + sep + Join(parts[1..], sep)
  }

  /** Joining two non-empty lists puts exactly one separator between their joins. */
  lemma {:induction false} JoinAppend(a: seq<string>, b: seq<string>, sep: string)
    requires |a| > 0 && |b| > 0
    ensures Join(a + b, sep) == Join(a, sep) + sep + Join(b, sep)
  {
    if |a| == 1 {
      assert (a + b)[1..] == b;
    } else {
      assert (a + b)[1..] == a[1..] + b;
      JoinAppend(a[1..], b, sep);
    }
  }

  /** Joining a non-empty list followed by more parts starts with the first list's join and a separator. */
  lemma JoinStartsWith(a: seq<string>, b: seq<string>, sep: string)
    requires |a| > 0 && |b| > 0
    ensures StartsWith(Join(a + b, sep), Join(a, sep) + sep)
  {
    JoinAppend(a, b, sep);
    OccursInConcat([], Join(a, sep) + sep, Join(b, sep));
  }

  /** Joining a non-empty list followed by one last part ends with a separator and that part. */
  lemma JoinEndsWith(a: seq<string>, last: string, sep: string)
    requires |a| > 0
    ensures EndsWith(Join(a + [last], sep), sep + last)
  {
    JoinAppend(a, [last], sep);
    EndsWithCommon(Join(a, sep) + sep, sep, last);
    EndsWithConcat(Join(a, sep), sep, sep);
    EndsWithSuffix(sep, sep);
  }

  /** Lines ending with a marker line and an empty line join to a text ending with the marker and a newline. */
  lemma JoinEndsWithMarker(lines: seq<string>, marker: string)
    ensures EndsWith(Join(lines + [marker, ""], "\n"), marker + "\n")
  {
    var a := lines + [marker];
    assert lines + [marker, ""] == a + [""];
    JoinAppend(a, [""], "\n");
    if lines == [] {
      assert a == [marker];
    } else {
      JoinAppend(lines, [marker], "\n");
    }
    var m := marker + "\n";
    assert Join(a + [""], "\n") == Join(lines, "\n") + (if lines == [] then "" else "\n") + m;
    EndsWithConcat(Join(lines, "\n") + (if lines == [] then "" else "\n"), m, m);
    EndsWithSuffix(m, m);
  }

  /** A join starts where its first part starts and ends where its last part ends. */
  lemma JoinEnds(ls: seq<string>, sep: string)
    requires |ls| > 0 && ls[0] != [] && ls[|ls| - 1] != []
    ensures var s := Join(ls, sep);
      s != [] && s[0] == ls[0][0] && s[|s| - 1] == ls[|ls| - 1][|ls[|ls| - 1]| - 1]
  {
    if |ls| > 1 {
      var n := |ls| - 1;
      assert Join(ls, sep) == ls[0] + sep + Join(ls[1..], sep);
      assert ls == ls[..n] + [ls[n]];
      JoinAppend(ls[..n], [ls[n]], sep);
    }
  }

  /** Two texts that agree, each cut before its first `c`: the parts before the cut agree, and so do the rests. */
  lemma CutAtFirst(x1: string, r1: string, x2: string, r2: string, c: char)
    requires x1 + r1 == x2 + r2 && c !in x1 && c !in x2
    requires r1 != [] && r1[0] == c && r2 != [] && r2[0] == c
    ensures x1 == x2 && r1 == r2
  {
    var s := x1 + r1;
    assert s[|x1|] == c && s[|x2|] == c;
    assert s[..|x1|] == x1 && s[..|x2|] == x2;
    var i := IndexOf(s, c);
    assert i == |x1| && i == |x2|;
    assert r1 == s[i..] == r2;
  }

  /** Five lines joined by newlines, written out. */
  lemma JoinFive(h: seq<string>)
    requires |h| == 5
    ensures Join(h, "\n") == h[0] + "\n" + h[1] + "\n" + h[2] + "\n" + h[3] + "\n" + h[4]
  {
    assert Join(h[..2], "\n") == h[0] + "\n" + h[1] by { assert h[..2][1..] == [h[1]]; }
    assert h[..3] == h[..2] + [h[2]];
    JoinAppend(h[..2], [h[2]], "\n");
    assert h[..4] == h[..3] + [h[3]];
    JoinAppend(h[..3], [h[3]], "\n");
    assert h == h[..4] + [h[4]];
    JoinAppend(h[..4], [h[4]], "\n");
  }

  /** Python's `s.split(c)` for a one-character separator: never empty, undone by joining with `c`. */
  function Split(s: string, c: char): (parts: seq<string>)
    ensures |parts| >= 1
    ensures forall k :: 0 <= k < |parts| ==> c !in parts[k]
    ensures Join(parts, [c]) == s
    decreases |s|
  {
    if c !in s then [s]
    else
      var i := IndexOf(s, c);
      var rest := Split(s[i + 1..], c);
      assert s == s[..i] + [c] + s[i + 1..];
      [s[..i]] + rest
  }

  /** Splitting at the first `c`: the part before it, then the split of what follows it. */
  lemma SplitAtFirst(a: string, b: string, c: char)
    requires c !in a
    ensures Split(a + [c] + b, c) == [a] + Split(b, c)
  {
    var s := a + [c] + b;
    assert s[|a|] == c;
    var i := IndexOf(s, c);
    assert s[..|a|] == a;
    assert i == |a|;
    assert s[i + 1..] == b;
  }

  /** `split` undoes joining: parts free of `c`, joined by `c`, come back one for one and in order. */
  lemma {:induction false} SplitOfJoin(ps: seq<string>, c: char)
    requires |ps| > 0 && forall k :: 0 <= k < |ps| ==> c !in ps[k]
    ensures Split(Join(ps, [c]), c) == ps
    decreases |ps|
  {
    if |ps| > 1 {
      assert c !in ps[0];
      SplitAtFirst(ps[0], Join(ps[1..], [c]), c);
      SplitOfJoin(ps[1..], c);
      assert ps == [ps[0]] + ps[1..];
    }
  }

  /** A character found in neither the parts nor the separator is not in their join. */
  lemma {:induction false} NotInJoin(ps: seq<string>, sep: string, c: char)
    requires c !in sep && forall k :: 0 <= k < |ps| ==> c !in ps[k]
    ensures c !in Join(ps, sep)
    decreases |ps|
  {
    if |ps| > 1 {
      assert c !in ps[0];
      NotInJoin(ps[1..], sep, c);
    } else if |ps| == 1 {
      assert c !in ps[0];
    }
  }

  /** A character of no join is in none of its parts. */
  lemma {:induction false} NotInParts(ps: seq<string>, sep: string, c: char)
    requires c !in Join(ps, sep)
    ensures forall k :: 0 <= k < |ps| ==> c !in ps[k]
    decreases |ps|
  {
    if |ps| > 1 {
      assert Join(ps, sep) == ps[0] + sep + Join(ps[1..], sep);
      NotInParts(ps[1..], sep, c);
      assert forall k :: 1 <= k < |ps| ==> ps[k] == ps[1..][k - 1];
    }
  }

  /** The characters at which Python's `str.splitlines` breaks a line. */
  predicate IsLineBreak(c: char) {
    ('\n' <= c <= '\r') || ('\U{1C}' <= c <= '\U{1E}') || c == '\U{85}' || c == '\U{2028}' || c == '\U{2029}'
  }

  /** Index of the first line break in `s`, or `|s|` when there is none. */
  function FirstLineBreak(s: string): (i: nat)
    ensures i <= |s| && (i < |s| ==> IsLineBreak(s[i]))
    ensures forall k :: 0 <= k < i ==> !IsLineBreak(s[k])
  {
    if |s| == 0 || IsLineBreak(s[0]) then 0 else 1 + FirstLineBreak(s[1..])
  }

  /** A text holding no line break. */
  predicate BreakFree(s: string) {
    forall j :: 0 <= j < |s| ==> !IsLineBreak(s[j])
  }

  /** Python's `s.splitlines()`: `\r\n` is one break, and a final break opens no empty line. */
  function SplitLines(s: string): (lines: seq<string>)
    ensures forall k :: 0 <= k < |lines| ==> BreakFree(lines[k])
    ensures s == [] <==> lines == []
    decreases |s|
  {
    if s == [] then []
    else
      var i := FirstLineBreak(s);
      if i == |s| then [s]
      else
        var n := if s[i] == '\r' && i + 1 < |s| && s[i + 1] == '\n' then 2 else 1;
        [s[..i]] + SplitLines(s[i + n..])
  }

  /** A line free of breaks, then a newline: `splitlines` gives that line, then the lines of the rest. */
  lemma SplitLinesCons(a: string, rest: string)
    requires BreakFree(a)
    ensures SplitLines(a + "\n" + rest) == [a] + SplitLines(rest)
  {
    var s := a + "\n" + rest;
    var i := |a|;
    assert s[i] == '\n';
    forall k | 0 <= k < i ensures !IsLineBreak(s[k]) {
      assert s[k] == a[k];
    }
    assert FirstLineBreak(s) == i;
    assert s[..i] == a;
    assert s[i + 1..] == rest;
  }

  /**
   * `splitlines` undoes joining with newlines: lines free of breaks, the last one not
   * empty, come back one for one and in order.
   */
  lemma {:induction false} SplitLinesOfJoin(ls: seq<string>)
    requires |ls| > 0 && ls[|ls| - 1] != []
    requires forall k :: 0 <= k < |ls| ==> BreakFree(ls[k])
    ensures SplitLines(Join(ls, "\n")) == ls
    decreases |ls|
  {
    assert BreakFree(ls[0]);
    if |ls| == 1 {
      assert FirstLineBreak(ls[0]) == |ls[0]|;
    } else {
      var tail := ls[1..];
      assert forall k :: 0 <= k < |tail| ==> tail[k] == ls[k + 1];
      assert tail[|tail| - 1] != [];
      var rest := Join(tail, "\n");
      assert Join(ls, "\n") == ls[0] + "\n" + rest;
      SplitLinesCons(ls[0], rest);
      SplitLinesOfJoin(tail);
      assert ls == [ls[0]] + tail;
    }
  }

  /** ASCII `A`..`Z` to `a`..`z`; every other character is kept. */
  function LowerChar(c: char): char {
    if 'A' <= c <= 'Z' then (c as int + 32) as char else c
  }

  /** `s.lower()` as far as ASCII letters go. */
  function ToLower(s: string): (r: string)
    ensures |r| == |s| && forall i :: 0 <= i < |s| ==> r[i] == LowerChar(s[i])
  {
    if s == [] then [] else [LowerChar(s[0])] + ToLower(s[1..])
  }

  function DigitChar(d: nat): char
    requires d < 10
  {
    ('0' as int + d) as char
  }

  /** Decimal digits of `n`, most significant first. */
  function NatToString(n: nat): (r: string)
    ensures |r| >= 1 && forall i :: 0 <= i < |r| ==> '0' <= r[i] <= '9'
  {
    if n < 10 then [DigitChar(n)] else NatToString(n / 10) + [DigitChar(n % 10)]
  }

  /** Python's `str(n)` for an integer. */
  function IntToString(n: int): string {
    if n < 0 then "-" + NatToString(-n) else NatToString(n)
  }
}
