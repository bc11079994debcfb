/**
 * The delimiter protocol that the system prompt asks the model to follow (prompts.py:47-51)
 * read back by the parser of generator.py:152-163: files written as
 * `--- FICHIER: <path> ---\n<content>--- FIN FICHIER ---` blocks come back, in order, with
 * their path trimmed and their content trimmed and ended by one newline.
 */
module ReplyRoundTrip {
  import opened Wrappers
  import opened Text
  import opened ReplyParser

  const OpenText := Dashes + " " + OpenWord + " "
  const MidText := " " + Dashes + "\n"
  const CloseMarker := Dashes + " " + CloseWord + " " + Dashes

  lemma Lengths()
    ensures |Dashes| == 3 && |OpenWord| == 8 && |CloseWord| == 11
    ensures |OpenText| == 13 && |MidText| == 5 && |CloseMarker| == 19
  {
  }

  /** One file written in the delimiter protocol. */
  function Block(chemin: string, contenu: string): string {
    OpenText + chemin + MidText + contenu + CloseMarker
  }

  /** A reply holding the given files as blocks, one per line, in order. */
  function Render(fs: seq<GeneratedFile>): string
    decreases |fs|
  {
    if fs == [] then [] else Block(fs[0].chemin, fs[0].contenu) + "\n" + Render(fs[1..])
  }

  /** A path the parser gives back: something besides whitespace, and no `---` inside. */
  predicate ValidPath(chemin: string) {
    Strip(chemin) != [] && !Contains(chemin, Dashes)
  }

  /** A content the parser gives back: it never spells the close word. */
  predicate ValidContent(contenu: string) {
    !Contains(contenu, CloseWord)
  }

  predicate ValidFile(f: GeneratedFile) {
    ValidPath(f.chemin) && ValidContent(f.contenu)
  }

  predicate AllValid(fs: seq<GeneratedFile>) {
    forall i :: 0 <= i < |fs| ==> ValidFile(fs[i])
  }

  /** The file the parser makes of a block holding `f`. */
  function Normalized(f: GeneratedFile): GeneratedFile {
    GeneratedFile(Strip(f.chemin), Strip(f.contenu) + "\n")
  }

  function NormalizedAll(fs: seq<GeneratedFile>): (r: seq<GeneratedFile>)
    ensures |r| == |fs| && forall i :: 0 <= i < |fs| ==> r[i] == Normalized(fs[i])
  {
    if fs == [] then [] else [Normalized(fs[0])] + NormalizedAll(fs[1..])
  }

  /** Where the text after the path starts, for a path starting at index `pos`. */
  function MidPos(pos: nat, p: string): nat {
    pos + |p|
  }

  /** Where the content starts, for a path starting at index `pos`. */
  function BodyPos(pos: nat, p: string): nat {
    pos + |p| + 5
  }

  /** Where the close marker starts, for a path starting at index `pos`. */
  function ClosePos(pos: nat, p: string, c: string): nat {
    BodyPos(pos, p) + |c|
  }

  /** The pieces of a block holding `p` and `c` that starts at index `o` of `t`. */
  predicate BlockAt(t: string, o: nat, p: string, c: string) {
    OccursAt(t, OpenText, o) && BlockRest(t, o + 13, p, c)
  }

  /** The pieces of a block after its open text, with the path starting at index `pos`. */
  predicate BlockRest(t: string, pos: nat, p: string, c: string) {
    OccursAt(t, p, pos) && OccursAt(t, MidText, MidPos(pos, p))
    && OccursAt(t, c, BodyPos(pos, p)) && OccursAt(t, CloseMarker, ClosePos(pos, p, c))
  }

  lemma BlockAtOf(t: string, o: nat, p: string, c: string)
    requires OccursAt(t, Block(p, c), o)
    ensures BlockAt(t, o, p, c)
  {
    OccursSplit(t, OpenText + p + MidText + c, CloseMarker, o);
    OccursSplit(t, OpenText + p + MidText, c, o);
    OccursSplit(t, OpenText + p, MidText, o);
    OccursSplit(t, OpenText, p, o);
  }

  lemma OpenFacts(t: string, o: nat)
    requires OccursAt(t, OpenText, o)
    ensures OccursAt(t, Dashes, o) && OccursAt(t, OpenWord, o + 4) && t[o + 3] == ' ' && t[o + 12] == ' '
  {
    OccursSplit(t, Dashes + " " + OpenWord, " ", o);
    OccursSplit(t, Dashes + " ", OpenWord, o);
    OccursSplit(t, Dashes, " ", o);
    OccursAtChar(t, " ", o + 3, 0);
    OccursAtChar(t, " ", o + 12, 0);
  }

  lemma MidFacts(t: string, e: nat)
    requires OccursAt(t, MidText, e)
    ensures t[e] == ' ' && OccursAt(t, Dashes, e + 1) && t[e + 4] == '\n'
  {
    OccursSplit(t, " " + Dashes, "\n", e);
    OccursSplit(t, " ", Dashes, e);
    OccursAtChar(t, " ", e, 0);
    OccursAtChar(t, "\n", e + 4, 0);
  }

  lemma CloseFacts(t: string, d: nat)
    requires OccursAt(t, CloseMarker, d)
    ensures OccursAt(t, Dashes, d) && t[d + 3] == ' ' && OccursAt(t, CloseWord, d + 4)
    ensures t[d + 15] == ' ' && OccursAt(t, Dashes, d + 16)
  {
    OccursSplit(t, Dashes + " " + CloseWord + " ", Dashes, d);
    OccursSplit(t, Dashes + " " + CloseWord, " ", d);
    OccursSplit(t, Dashes + " ", CloseWord, d);
    OccursSplit(t, Dashes, " ", d);
    OccursAtChar(t, " ", d + 3, 0);
    OccursAtChar(t, " ", d + 15, 0);
  }

  lemma DashChars(t: string, d: nat)
    requires OccursAt(t, Dashes, d)
    ensures d + 3 <= |t| && t[d] == '-' && t[d + 1] == '-' && t[d + 2] == '-'
  {
    OccursAtChar(t, Dashes, d, 0);
    OccursAtChar(t, Dashes, d, 1);
    OccursAtChar(t, Dashes, d, 2);
  }

  lemma NoDashInCloseWord(i: int)
    requires 0 <= i < |CloseWord|
    ensures CloseWord[i] != '-'
  {
  }

  /** The close marker of a block ends the close pattern 19 characters later. */
  lemma CloseMarkerAt(t: string, d: nat)
    requires OccursAt(t, CloseMarker, d)
    ensures CloseEnd(t, d).Some? && CloseEnd(t, d).value == d + 19
  {
    CloseFacts(t, d);
    OccursAtChar(t, CloseWord, d + 4, 0);
    SkipSpacesIs(t, d + 3, d + 4);
    DashChars(t, d + 16);
    SkipSpacesIs(t, d + 15, d + 16);
  }

  lemma NotCloseAt(t: string, k: nat)
    requires k <= |t|
    requires OccursAt(t, Dashes, k) ==> !OccursAt(t, CloseWord, SkipSpaces(t, k + 3))
    ensures !CloseAt(t, k)
  {
  }

  /** No close marker starts inside a content that never spells the close word. */
  lemma NoCloseInContent(t: string, cs: nat, c: string, k: nat)
    requires OccursAt(t, c, cs) && OccursAt(t, Dashes, cs + |c|) && ValidContent(c)
    requires cs <= k < cs + |c|
    ensures !CloseAt(t, k)
  {
    var d := cs + |c|;
    DashChars(t, d);
    if OccursAt(t, Dashes, k) {
      var a := SkipSpaces(t, k + 3);
      SkipSpacesSpec(t, k + 3);
      if k + 3 <= d {
        assert a <= d;
        if a + 11 <= d {
          OccursWithin(t, cs, c, CloseWord, a - cs);
        } else {
          NoDashInCloseWord(d - a);
          NotOccursAtChar(t, CloseWord, a, d - a);
        }
      } else {
        assert a == k + 3;
        NotOccursAtChar(t, CloseWord, a, 0);
      }
    }
    NotCloseAt(t, k);
  }

  /** Where the path's first non-blank character sits, and that the open marker starts at `o`. */
  lemma OpenOfBlock(t: string, o: nat, p: string)
    requires OccursAt(t, OpenText, o) && OccursAt(t, p, o + 13) && SkipSpaces(p, 0) < |p|
    ensures OpenAt(t, o) && SkipSpaces(t, o + 3) == o + 4
    ensures SkipSpaces(t, o + 12) == o + 13 + SkipSpaces(p, 0)
    ensures SkipSpaces(t, SkipSpaces(t, o + 3) + 8) == PathStart(o + 13, p)
  {
    OpenFacts(t, o);
    OccursAtChar(t, OpenWord, o + 4, 0);
    SkipSpacesIs(t, o + 3, o + 4);
    PathLead(t, o + 13, p);
    SkipSpacesStep(t, o + 12);
  }

  /** The whitespace at the start of an embedded path. */
  lemma PathLead(t: string, pos: nat, p: string)
    requires OccursAt(t, p, pos) && SkipSpaces(p, 0) < |p|
    ensures SkipSpaces(t, pos) == pos + SkipSpaces(p, 0)
  {
    var l := SkipSpaces(p, 0);
    SkipSpacesSpec(p, 0);
    forall k | pos <= k < pos + l ensures IsSpace(t[k]) {
      OccursAtChar(t, p, pos, k - pos);
    }
    OccursAtChar(t, p, pos, l);
    SkipSpacesIs(t, pos, pos + l);
  }

  /** The character just after the path's last non-blank character is whitespace. */
  lemma SpaceAfterCore(t: string, pos: nat, p: string, l: nat, r: nat)
    requires OccursAt(t, p, pos) && pos + |p| < |t| && t[pos + |p|] == ' '
    requires l <= |p| && r == SkipSpacesBack(p, l, |p|)
    ensures pos + r < |t| && IsSpace(t[pos + r])
  {
    SkipSpacesBackSpec(p, l, |p|);
    if r < |p| {
      OccursAtChar(t, p, pos, r);
    }
  }

  lemma NotPathEndsAt(t: string, j: nat)
    requires j <= |t| && !OccursAt(t, Dashes, SkipSpaces(t, j))
    ensures !PathEndsAt(t, j)
  {
  }

  /** The lazy path group cannot stop before the end of the path's non-blank part. */
  lemma NoPathEndInside(t: string, pos: nat, p: string, l: nat, r: nat, j: nat)
    requires OccursAt(t, p, pos) && pos + |p| < |t| && t[pos + |p|] == ' ' && !Contains(p, Dashes)
    requires l <= |p| && r == SkipSpacesBack(p, l, |p|)
    requires pos + l < j < pos + r
    ensures !PathEndsAt(t, j)
  {
    var q := SkipSpaces(t, j);
    SkipSpacesSpec(t, j);
    SkipSpacesBackSpec(p, l, |p|);
    SpaceAfterCore(t, pos, p, l, r);
    OccursAtChar(t, p, pos, r - 1);
    assert q < pos + r;
    if q + 3 <= pos + |p| {
      OccursWithin(t, pos, p, Dashes, q - pos);
    } else {
      NotOccursAtChar(t, Dashes, q, pos + r - q);
    }
    NotPathEndsAt(t, j);
  }

  lemma AfterPathIs(t: string, j: nat, s: nat, k: nat, e: nat)
    requires j <= |t| && BodyStart(t, j).Some? && BodyStart(t, j).value == s
    requires FirstCloseFrom(t, s).Some? && FirstCloseFrom(t, s).value == k && k <= |t|
    requires CloseEnd(t, k).Some? && CloseEnd(t, k).value == e
    ensures AfterPath(t, j).Some? && AfterPath(t, j).value == Span(s, k, e)
  {
  }

  lemma BodyStartIs(t: string, j: nat, q: nat, n: nat)
    requires j <= |t| && SkipSpaces(t, j) == q && OccursAt(t, Dashes, q)
    requires LastNewline(t, q + 3, SkipSpaces(t, q + 3)).Some? && LastNewline(t, q + 3, SkipSpaces(t, q + 3)).value == n
    ensures BodyStart(t, j).Some? && BodyStart(t, j).value == n + 1
  {
  }

  lemma FirstTrueIs(bs: seq<bool>, k: nat, K: nat)
    requires k <= K < |bs| && bs[K] && forall i :: k <= i < K ==> !bs[i]
    ensures FirstTrue(bs, k).Some? && FirstTrue(bs, k).value == K
    decreases K - k
  {
    if k < K { FirstTrueIs(bs, k + 1, K); }
  }

  /** The whitespace after the path's non-blank part runs up to the `---` after the path. */
  lemma PathTail(t: string, pos: nat, p: string, l: nat, r: nat)
    requires OccursAt(t, p, pos) && OccursAt(t, MidText, pos + |p|)
    requires l <= |p| && r == SkipSpacesBack(p, l, |p|)
    ensures SkipSpaces(t, pos + r) == pos + |p| + 1 && OccursAt(t, Dashes, pos + |p| + 1)
    ensures t[pos + |p| + 4] == '\n'
  {
    var E := pos + |p|;
    MidFacts(t, E);
    SkipSpacesBackSpec(p, l, |p|);
    forall k | pos + r <= k < E ensures IsSpace(t[k]) {
      OccursAtChar(t, p, pos, k - pos);
    }
    DashChars(t, E + 1);
    SkipSpacesIs(t, pos + r, E + 1);
  }

  /** The whitespace after `---\n` runs over the blank start of the content. */
  lemma ContentLead(t: string, cs: nat, c: string)
    requires OccursAt(t, c, cs) && OccursAt(t, CloseMarker, cs + |c|)
    ensures SkipSpaces(t, cs) == cs + SkipSpaces(c, 0)
  {
    var m := SkipSpaces(c, 0);
    SkipSpacesSpec(c, 0);
    forall k | cs <= k < cs + m ensures IsSpace(t[k]) {
      OccursAtChar(t, c, cs, k - cs);
    }
    if m < |c| {
      OccursAtChar(t, c, cs, m);
    } else {
      CloseFacts(t, cs + |c|);
      DashChars(t, cs + |c|);
    }
    SkipSpacesIs(t, cs, cs + m);
  }

  lemma SkipSpacesStep(t: string, i: nat)
    requires i < |t| && IsSpace(t[i])
    ensures SkipSpaces(t, i) == SkipSpaces(t, i + 1)
  {
  }

  lemma LastNewlineFound(t: string, lo: nat, hi: nat)
    requires lo < hi <= |t| && t[lo] == '\n'
    ensures LastNewline(t, lo, hi).Some?
  {
    LastNewlineSpec(t, lo, hi);
  }

  /** With a newline right after the `---`, the body starts just after the last newline of the whitespace run there. */
  lemma BodyStartFound(t: string, j: nat, q: nat) returns (b: nat)
    requires j <= |t| && SkipSpaces(t, j) == q && OccursAt(t, Dashes, q) && q + 3 < |t| && t[q + 3] == '\n'
    ensures q + 4 <= b <= SkipSpaces(t, q + 4) && BodyStart(t, j).Some? && BodyStart(t, j).value == b
  {
    SkipSpacesStep(t, q + 3);
    var w := SkipSpaces(t, q + 3);
    LastNewlineFound(t, q + 3, w);
    var n := LastNewline(t, q + 3, w).value;
    b := n + 1;
    BodyStartIs(t, j, q, n);
  }

  /** The first close marker from `b` on is the one at `d`. */
  lemma FirstCloseIs(t: string, b: nat, d: nat)
    requires b <= d <= |t| && CloseAt(t, d) && forall k :: b <= k < d ==> !CloseAt(t, k)
    ensures FirstCloseFrom(t, b).Some? && FirstCloseFrom(t, b).value == d
  {
    FirstTrueIs(CloseTable(t), b, d);
  }

  lemma NoCloseBetween(t: string, cs: nat, c: string, b: nat)
    requires OccursAt(t, c, cs) && OccursAt(t, Dashes, cs + |c|) && ValidContent(c)
    requires cs <= b
    ensures forall k :: b <= k < cs + |c| ==> !CloseAt(t, k)
  {
    forall k | b <= k < cs + |c| ensures !CloseAt(t, k) {
      NoCloseInContent(t, cs, c, k);
    }
  }

  /** The lazy body of a block stops at the block's own close marker. */
  lemma BlockBodyEnd(t: string, cs: nat, c: string, b: nat)
    requires OccursAt(t, c, cs) && OccursAt(t, CloseMarker, cs + |c|) && ValidContent(c)
    requires cs <= b <= cs + |c|
    ensures FirstCloseFrom(t, b).Some? && FirstCloseFrom(t, b).value == cs + |c| && CloseEnd(t, cs + |c|).Some? && CloseEnd(t, cs + |c|).value == cs + |c| + 19
  {
    var d := cs + |c|;
    CloseFacts(t, d);
    NoCloseBetween(t, cs, c, b);
    CloseMarkerAt(t, d);
    FirstCloseIs(t, b, d);
  }

  /** The rest of the pattern after a path end, from the facts a block provides. */
  lemma AfterPathFromFacts(t: string, j: nat, q: nat, cs: nat, d: nat) returns (b: nat)
    requires j <= |t| && SkipSpaces(t, j) == q && OccursAt(t, Dashes, q) && q + 3 < |t| && t[q + 3] == '\n'
    requires cs == q + 4 && cs <= d <= |t| && SkipSpaces(t, cs) <= d
    requires (forall k :: cs <= k < d ==> !CloseAt(t, k))
    requires CloseEnd(t, d).Some? && CloseEnd(t, d).value == d + 19
    ensures cs <= b <= SkipSpaces(t, cs) && AfterPath(t, j).Some? && AfterPath(t, j).value == Span(b, d, d + 19)
  {
    b := BodyStartFound(t, j, q);
    FirstCloseIs(t, b, d);
    AfterPathIs(t, j, b, d, d + 19);
  }

  /** After the path's non-blank part the rest of the pattern matches, and the body runs to the close marker. */
  lemma AfterPathOfBlock(t: string, pos: nat, p: string, c: string) returns (b: nat)
    requires BlockRest(t, pos, p, c) && ValidContent(c)
    ensures BodyPos(pos, p) <= b <= SkipSpaces(t, BodyPos(pos, p)) <= ClosePos(pos, p, c)
    ensures AfterPath(t, PathEnd(pos, p)).Some? && AfterPath(t, PathEnd(pos, p)).value == Span(b, ClosePos(pos, p, c), ClosePos(pos, p, c) + 19)
  {
    Lengths();
    PathTail(t, pos, p, PathLo(p), PathHi(p));
    ContentLead(t, BodyPos(pos, p), c);
    CloseFacts(t, ClosePos(pos, p, c));
    NoCloseBetween(t, BodyPos(pos, p), c, BodyPos(pos, p));
    CloseMarkerAt(t, ClosePos(pos, p, c));
    b := AfterPathFromFacts(t, PathEnd(pos, p), pos + |p| + 1, BodyPos(pos, p), ClosePos(pos, p, c));
  }

  /** Index just past the path's leading whitespace. */
  function PathLo(p: string): nat {
    SkipSpaces(p, 0)
  }

  /** Index just past the path's last non-blank character. */
  function PathHi(p: string): nat {
    SkipSpacesBack(p, SkipSpaces(p, 0), |p|)
  }

  /** Where the path group starts, for a path starting at index `pos`. */
  function PathStart(pos: nat, p: string): nat {
    pos + PathLo(p)
  }

  /** Where the path group ends, for a path starting at index `pos`. */
  function PathEnd(pos: nat, p: string): nat {
    pos + PathHi(p)
  }

  /** A path that strips to something has a non-blank character, so its trimmed part is not empty. */
  lemma PathBounds(p: string)
    requires Strip(p) != []
    ensures PathLo(p) < PathHi(p) <= |p| && p[PathLo(p)..PathHi(p)] == Strip(p)
  {
    SkipSpacesSpec(p, 0);
  }

  lemma PathGroupAfterIs(t: string, a8: nat, lo: nat, hi: nat)
    requires a8 <= lo < |t| && PathEndFrom(t, lo + 1).Some? && PathEndFrom(t, lo + 1).value == hi
    ensures PathGroupAfter(t, a8, lo).Some? && PathGroupAfter(t, a8, lo).value == Group(lo, hi)
  {
  }

  lemma PathGroupIs(t: string, o: nat, lo: nat, g: Group)
    requires o + 12 <= |t| && OpenAt(t, o)
    requires SkipSpaces(t, SkipSpaces(t, o + 3) + 8) == lo
    requires PathGroupAfter(t, SkipSpaces(t, o + 3) + 8, lo).Some? && PathGroupAfter(t, SkipSpaces(t, o + 3) + 8, lo).value == g
    ensures PathGroup(t, o).Some? && PathGroup(t, o).value == g
  {
  }

  lemma MatchAtIs(t: string, o: nat, gs: nat, ge: nat, bs: nat, be: nat, e: nat)
    requires o <= |t| && PathGroup(t, o).Some? && PathGroup(t, o).value == Group(gs, ge) && ge <= |t|
    requires AfterPath(t, ge).Some? && AfterPath(t, ge).value == Span(bs, be, e)
    ensures gs <= ge && bs <= be <= |t|
    ensures MatchAt(t, o).Some? && MatchAt(t, o).value == Capture(t[gs..ge], t[bs..be], e)
  {
  }


  /** No path end lies strictly inside the non-blank part of a block's path. */
  lemma NoPathEndBefore(t: string, pos: nat, p: string)
    requires OccursAt(t, p, pos) && pos + |p| < |t| && t[pos + |p|] == ' ' && !Contains(p, Dashes)
    requires PathLo(p) < PathHi(p) <= |p|
    ensures forall j :: PathStart(pos, p) + 1 <= j < PathEnd(pos, p) ==> !PathEndsAt(t, j)
  {
    forall j | PathStart(pos, p) + 1 <= j < PathEnd(pos, p) ensures !PathEndsAt(t, j) {
      NoPathEndInside(t, pos, p, PathLo(p), PathHi(p), j);
    }
  }

  /** The lazy path group ends at the first path end from `from` on. */
  lemma FirstPathEnd(t: string, from: nat, k: nat)
    requires from <= k <= |t| && PathEndsAt(t, k) && forall j :: from <= j < k ==> !PathEndsAt(t, j)
    ensures PathEndFrom(t, from).Some? && PathEndFrom(t, from).value == k
  {
    FirstTrueIs(PathEndTable(t), from, k);
  }

  /** The lazy path group of a block ends just after the path's last non-blank character. */
  lemma PathEndOfBlock(t: string, pos: nat, p: string)
    requires OccursAt(t, p, pos) && pos + |p| < |t| && t[pos + |p|] == ' ' && !Contains(p, Dashes)
    requires PathLo(p) < PathHi(p) <= |p| && PathEndsAt(t, PathEnd(pos, p))
    ensures PathEndFrom(t, PathStart(pos, p) + 1).Some? && PathEndFrom(t, PathStart(pos, p) + 1).value == PathEnd(pos, p)
  {
    NoPathEndBefore(t, pos, p);
    FirstPathEnd(t, PathStart(pos, p) + 1, PathEnd(pos, p));
  }

  /** The lazy path group of a block ends where its path's non-blank part ends. */
  lemma PathEndFromOfBlock(t: string, pos: nat, p: string, c: string)
    requires BlockRest(t, pos, p, c) && ValidPath(p) && ValidContent(c)
    ensures PathLo(p) < PathHi(p) <= |p|
    ensures PathEndFrom(t, PathStart(pos, p) + 1).Some? && PathEndFrom(t, PathStart(pos, p) + 1).value == PathEnd(pos, p)
  {
    PathBounds(p);
    MidFacts(t, pos + |p|);
    var b := AfterPathOfBlock(t, pos, p, c);
    PathEndOfBlock(t, pos, p);
  }

  /** Where the path group of the match at the start of a block begins and ends. */
  lemma PathGroupOfBlock(t: string, o: nat, p: string, c: string)
    requires BlockAt(t, o, p, c) && ValidPath(p) && ValidContent(c)
    ensures o <= |t| && PathLo(p) < PathHi(p) <= |p|
    ensures PathGroup(t, o).Some? && PathGroup(t, o).value == Group(PathStart(o + 13, p), PathEnd(o + 13, p))
  {
    PathBounds(p);
    OpenOfBlock(t, o, p);
    PathEndFromOfBlock(t, o + 13, p, c);
    PathGroupAfterIs(t, SkipSpaces(t, o + 3) + 8, PathStart(o + 13, p), PathEnd(o + 13, p));
    PathGroupIs(t, o, PathStart(o + 13, p), Group(PathStart(o + 13, p), PathEnd(o + 13, p)));
  }

  /** The characters of `t` from `cs` up to `b`, all blank, are the blank start of `c`. */
  lemma BodyLead(t: string, cs: nat, c: string, b: nat)
    requires OccursAt(t, c, cs) && cs <= b <= SkipSpaces(t, cs) && b <= cs + |c|
    ensures forall k :: 0 <= k < b - cs ==> IsSpace(c[k])
    ensures t[b..cs + |c|] == c[b - cs..]
  {
    SkipSpacesSpec(t, cs);
    forall k | 0 <= k < b - cs ensures IsSpace(c[k]) {
      OccursAtChar(t, c, cs, k);
    }
    SliceWithin(t, cs, c, b - cs, |c|);
  }

  /** A string with a blank start embeds what follows that start. */
  lemma SuffixEmbeds(c: string, i: nat)
    requires i <= |c| && forall k :: 0 <= k < i ==> IsSpace(c[k])
    ensures Embeds(c, i, c[i..])
  {
  }

  /** Dropping the blank start of a content does not change what it strips to. */
  lemma BodyStrip(t: string, cs: nat, c: string, b: nat)
    requires OccursAt(t, c, cs) && cs <= b <= SkipSpaces(t, cs) && b <= cs + |c|
    ensures Strip(t[b..cs + |c|]) == Strip(c)
  {
    BodyLead(t, cs, c, b);
    SuffixEmbeds(c, b - cs);
    StripEmbedded(c, b - cs, c[b - cs..]);
  }

  /** The path group of a block strips to what the block's path strips to. */
  lemma PathStrip(t: string, pos: nat, p: string)
    requires OccursAt(t, p, pos) && Strip(p) != []
    ensures PathLo(p) < PathHi(p) <= |p|
    ensures Strip(t[PathStart(pos, p)..PathEnd(pos, p)]) == Strip(p)
  {
    PathBounds(p);
    SliceWithin(t, pos, p, PathLo(p), PathHi(p));
    StripSpec(p);
    StripTrimmed(Strip(p));
  }

  /** The groups captured from a block give back the block's file, normalized. */
  lemma CaptureOfBlock(t: string, pos: nat, p: string, c: string, b: nat, e: nat)
    requires OccursAt(t, p, pos) && OccursAt(t, c, BodyPos(pos, p)) && ValidPath(p)
    requires PathLo(p) < PathHi(p) <= |p|
    requires BodyPos(pos, p) <= b <= SkipSpaces(t, BodyPos(pos, p)) <= ClosePos(pos, p, c)
    ensures FileOf(Capture(t[PathStart(pos, p)..PathEnd(pos, p)], t[b..ClosePos(pos, p, c)], e))
      == Normalized(GeneratedFile(p, c))
  {
    PathStrip(t, pos, p);
    BodyStrip(t, BodyPos(pos, p), c, b);
  }

  /** A block starting at `o` ends 19 characters after its close marker starts. */
  lemma BlockEnd(o: nat, p: string, c: string)
    ensures ClosePos(o + 13, p, c) + 19 == o + |Block(p, c)|
  {
    Lengths();
  }

  /** The match at the start of a block captures the block's path and content. */
  lemma MatchBlock(t: string, o: nat, p: string, c: string)
    requires BlockAt(t, o, p, c) && ValidPath(p) && ValidContent(c)
    ensures MatchAt(t, o).Some?
    ensures FileOf(MatchAt(t, o).value) == Normalized(GeneratedFile(p, c))
    ensures MatchAt(t, o).value.end == o + |Block(p, c)|
  {
    BlockEnd(o, p, c);
    PathGroupOfBlock(t, o, p, c);
    var b := AfterPathOfBlock(t, o + 13, p, c);
    MatchAtIs(t, o, PathStart(o + 13, p), PathEnd(o + 13, p), b, ClosePos(o + 13, p, c), ClosePos(o + 13, p, c) + 19);
    CaptureOfBlock(t, o + 13, p, c, b, ClosePos(o + 13, p, c) + 19);
  }

  /** No match starts at a newline: a match starts with `-`. */
  lemma NoMatchAtNewline(t: string, e: nat)
    requires e < |t| && t[e] == '\n'
    ensures MatchAt(t, e) == None
  {
    NotOccursAtChar(t, Dashes, e, 0);
  }

  /** Past a newline, `findall` goes on from the next character. */
  lemma FindAllSkipsNewline(t: string, e: nat)
    requires e < |t| && t[e] == '\n'
    ensures FindAll(t, e) == FindAll(t, e + 1)
  {
    NoMatchAtNewline(t, e);
  }

  /** A match at `o` is the first thing `findall` finds from `o`. */
  lemma FindAllAtMatch(t: string, o: nat)
    requires o < |t| && MatchAt(t, o).Some?
    ensures FindAll(t, o) == [MatchAt(t, o).value] + FindAll(t, MatchAt(t, o).value.end)
  {
  }

  /** A match at `o` that ends at a newline: `findall` goes on after the newline. */
  lemma FindAllStep(t: string, o: nat, e: nat)
    requires o < |t| && MatchAt(t, o).Some? && MatchAt(t, o).value.end == e && e < |t| && t[e] == '\n'
    ensures FindAll(t, o) == [MatchAt(t, o).value] + FindAll(t, e + 1)
  {
    FindAllAtMatch(t, o);
    FindAllSkipsNewline(t, e);
  }

  lemma NormalizedAllCons(fs: seq<GeneratedFile>)
    requires fs != []
    ensures NormalizedAll(fs) == [Normalized(fs[0])] + NormalizedAll(fs[1..])
  {
  }

  lemma AllValidSplit(fs: seq<GeneratedFile>)
    requires fs != [] && AllValid(fs)
    ensures ValidPath(fs[0].chemin) && ValidContent(fs[0].contenu) && AllValid(fs[1..])
  {
    assert ValidFile(fs[0]);
  }

  /** The first block of a rendered reply, the newline after it at `e`, and the rest of the reply. */
  lemma RenderedSplit(t: string, o: nat, fs: seq<GeneratedFile>) returns (e: nat)
    requires fs != [] && OccursAt(t, Render(fs), o)
    ensures e == o + |Block(fs[0].chemin, fs[0].contenu)|
    ensures BlockAt(t, o, fs[0].chemin, fs[0].contenu)
    ensures e < |t| && t[e] == '\n'
    ensures OccursAt(t, Render(fs[1..]), e + 1) && e + 1 + |Render(fs[1..])| == o + |Render(fs)|
  {
    var b := Block(fs[0].chemin, fs[0].contenu);
    OccursSplit(t, b + "\n", Render(fs[1..]), o);
    OccursSplit(t, b, "\n", o);
    OccursAtChar(t, "\n", o + |b|, 0);
    BlockAtOf(t, o, fs[0].chemin, fs[0].contenu);
    e := o + |b|;
  }

  /** `t` holds valid files rendered from index `o` up to its end. */
  predicate RenderedAt(t: string, o: nat, fs: seq<GeneratedFile>) {
    o <= |t| && t[o..] == Render(fs) && AllValid(fs)
  }

  lemma SuffixOccurs(t: string, x: string, i: nat)
    requires i <= |t| && t[i..] == x
    ensures OccursAt(t, x, i) && i + |x| == |t|
  {
    forall k | 0 <= k < |x| ensures t[i + k] == x[k] {
      assert t[i..][k] == t[i + k];
    }
  }

  lemma OccursSuffix(t: string, x: string, i: nat)
    requires OccursAt(t, x, i) && i + |x| == |t|
    ensures t[i..] == x
  {
    forall k | 0 <= k < |x| ensures t[i..][k] == x[k] {
      assert t[i..][k] == t[i + k];
    }
  }

  /** The files `findall` gives back from index `o` of `t` on. */
  function ParsedFrom(t: string, o: nat): seq<GeneratedFile>
    requires o <= |t|
  {
    FilesOf(FindAll(t, o))
  }

  lemma ParsedFromEnd(t: string, o: nat)
    requires o == |t|
    ensures ParsedFrom(t, o) == []
  {
  }

  /** A rendered reply starts with its first block and a newline, and the rest is rendered after it. */
  lemma RenderedTail(t: string, o: nat, fs: seq<GeneratedFile>) returns (e: nat)
    requires fs != [] && RenderedAt(t, o, fs)
    ensures BlockAt(t, o, fs[0].chemin, fs[0].contenu) && ValidPath(fs[0].chemin) && ValidContent(fs[0].contenu)
    ensures e == o + |Block(fs[0].chemin, fs[0].contenu)| && e < |t| && t[e] == '\n'
    ensures RenderedAt(t, e + 1, fs[1..])
  {
    AllValidSplit(fs);
    SuffixOccurs(t, Render(fs), o);
    e := RenderedSplit(t, o, fs);
    OccursSuffix(t, Render(fs[1..]), e + 1);
  }

  /** A block followed by a newline gives back its file, and the parse goes on after the newline. */
  lemma ParsedStep(t: string, o: nat, p: string, c: string, e: nat)
    requires BlockAt(t, o, p, c) && ValidPath(p) && ValidContent(c)
    requires e == o + |Block(p, c)| && e < |t| && t[e] == '\n'
    ensures ParsedFrom(t, o) == [Normalized(GeneratedFile(p, c))] + ParsedFrom(t, e + 1)
  {
    MatchBlock(t, o, p, c);
    FindAllStep(t, o, e);
    FilesOfCons(MatchAt(t, o).value, FindAll(t, e + 1));
  }

  /** The first block of a rendered reply gives back the first file, and the parse goes on after its newline. */
  lemma RenderedStep(t: string, o: nat, fs: seq<GeneratedFile>) returns (e: nat)
    requires fs != [] && RenderedAt(t, o, fs)
    ensures RenderedAt(t, e + 1, fs[1..])
    ensures ParsedFrom(t, o) == [Normalized(fs[0])] + ParsedFrom(t, e + 1)
  {
    e := RenderedTail(t, o, fs);
    ParsedStep(t, o, fs[0].chemin, fs[0].contenu, e);
    assert fs[0] == GeneratedFile(fs[0].chemin, fs[0].contenu);
  }

  lemma ParsedCons(all: seq<GeneratedFile>, rest: seq<GeneratedFile>, fs: seq<GeneratedFile>)
    requires fs != [] && all == [Normalized(fs[0])] + rest && rest == NormalizedAll(fs[1..])
    ensures all == NormalizedAll(fs)
  {
    NormalizedAllCons(fs);
  }

  /**
   * `findall` over a rendered reply that runs to the end of `t` finds one match per
   * block, and each gives back its file, normalized.
   */
  lemma {:induction false} FindAllRendered(t: string, o: nat, fs: seq<GeneratedFile>)
    requires RenderedAt(t, o, fs)
    ensures ParsedFrom(t, o) == NormalizedAll(fs)
    decreases |fs|
  {
    if fs == [] {
      ParsedFromEnd(t, o);
    } else {
      var e := RenderedStep(t, o, fs);
      FindAllRendered(t, e + 1, fs[1..]);
      ParsedCons(ParsedFrom(t, o), ParsedFrom(t, e + 1), fs);
    }
  }

  lemma OccursSelf(s: string)
    ensures OccursAt(s, s, 0)
  {
  }

  /**
   * The round trip of the delimiter protocol: a reply written as blocks, one per line,
   * parses back to its files, each with its path and content stripped and the content
   * ended by one newline.
   */
  lemma ParseRender(fs: seq<GeneratedFile>)
    requires AllValid(fs)
    ensures Parse(Render(fs)) == NormalizedAll(fs)
  {
    assert Render(fs)[0..] == Render(fs);
    FindAllRendered(Render(fs), 0, fs);
  }
}
