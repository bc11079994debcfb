/**
 * The reply parser of generator.py: `parser_fichiers` runs
 * `re.findall(r"---\s*FICHIER:\s*(.+?)\s*---\s*\n(.*?)---\s*FIN FICHIER\s*---", reply, re.DOTALL)`
 * and turns every match into a generated file.
 *
 * The regular expression is modelled as an explicit scanner over indices of the reply.
 * Each function below decides one part of the pattern with the backtracking order of
 * Python's `re`: greedy `\s*`, lazy `(.+?)` and `(.*?)`, the leftmost start, and a
 * search that resumes after the end of each match.
 */
module ReplyParser {
  import opened Wrappers
  import opened Text

  /** A generated file: its relative path and its text. */
  datatype GeneratedFile = GeneratedFile(chemin: string, contenu: string)

  /** One match of the pattern: the two captured groups and the index just past the match. */
  datatype Capture = Capture(path: string, body: string, end: nat)

  /** Where the path group starts and ends. */
  datatype Group = Group(start: nat, end: nat)

  /** Where the body group starts and ends, and where the whole match ends. */
  datatype Span = Span(bodyStart: nat, bodyEnd: nat, end: nat)

  const Dashes := "---"
  const OpenWord := "FICHIER:"
  const CloseWord := "FIN FICHIER"

  /** End of the close marker `---\s*FIN FICHIER\s*---` starting at index `k` of `t`, if one starts there. */
  function CloseEnd(t: string, k: nat): (e: Option<nat>)
    requires k <= |t|
    ensures e.Some? ==> OccursAt(t, Dashes, k) && k + 17 <= e.value <= |t|
  {
    if !OccursAt(t, Dashes, k) then None
    else
      var a := SkipSpaces(t, k + 3);
      if !OccursAt(t, CloseWord, a) then None
      else
        var b := SkipSpaces(t, a + 11);
        if OccursAt(t, Dashes, b) then Some(b + 3) else None
  }

  /** A close marker starts at index `k` of `t`. */
  predicate CloseAt(t: string, k: nat) {
    k <= |t| && CloseEnd(t, k).Some?
  }

  /** The first index from `k` on at which `bs` holds. */
  function FirstTrue(bs: seq<bool>, k: nat): (r: Option<nat>)
    requires k <= |bs|
    ensures r.Some? ==> k <= r.value < |bs| && bs[r.value]
    decreases |bs| - k
  {
    if k == |bs| then None
    else if bs[k] then Some(k)
    else FirstTrue(bs, k + 1)
  }

  /** `FirstTrue` finds the first index at which `bs` holds, and finds nothing only when there is none. */
  lemma {:induction false} FirstTrueSpec(bs: seq<bool>, k: nat)
    requires k <= |bs|
    ensures FirstTrue(bs, k).Some? ==> forall i :: k <= i < FirstTrue(bs, k).value ==> !bs[i]
    ensures FirstTrue(bs, k).None? ==> forall i :: k <= i < |bs| ==> !bs[i]
    decreases |bs| - k
  {
    if k < |bs| && !bs[k] { FirstTrueSpec(bs, k + 1); }
  }

  /** For each index `k <= |t|`, whether a close marker starts there. */
  function CloseTable(t: string): (bs: seq<bool>)
    ensures |bs| == |t| + 1
  {
    seq(|t| + 1, k requires 0 <= k <= |t| => CloseAt(t, k))
  }

  /** The lazy `(.*?)`: the first index from `k` on at which a close marker starts. */
  function FirstCloseFrom(t: string, k: nat): Option<nat>
    requires k <= |t|
  {
    FirstTrue(CloseTable(t), k)
  }

  /** The last newline of `t[lo..hi]`, as an index of `t`. */
  function LastNewline(t: string, lo: nat, hi: nat): (r: Option<nat>)
    requires lo <= hi <= |t|
    ensures r.Some? ==> lo <= r.value < hi && t[r.value] == '\n'
    decreases hi - lo
  {
    if lo == hi then None
    else if t[hi - 1] == '\n' then Some(hi - 1)
    else LastNewline(t, lo, hi - 1)
  }

  /** No newline follows the one `LastNewline` finds, and it finds none only when there is none. */
  lemma {:induction false} LastNewlineSpec(t: string, lo: nat, hi: nat)
    requires lo <= hi <= |t|
    ensures LastNewline(t, lo, hi).Some? ==> forall i :: LastNewline(t, lo, hi).value < i < hi ==> t[i] != '\n'
    ensures LastNewline(t, lo, hi).None? ==> forall i :: lo <= i < hi ==> t[i] != '\n'
    decreases hi - lo
  {
    if lo < hi && t[hi - 1] != '\n' { LastNewlineSpec(t, lo, hi - 1); }
  }

  /**
   * Where the body starts when the path group has ended at index `j` of `t`: the pattern
   * goes on with `\s*---\s*\n`, and the greedy `\s*` before `\n` gives back characters
   * down to the last newline of its whitespace run, so the body starts just after that newline.
   */
  function BodyStart(t: string, j: nat): (r: Option<nat>)
    requires j <= |t|
    ensures r.Some? ==> j < r.value <= |t|
  {
    var q := SkipSpaces(t, j);
    if !OccursAt(t, Dashes, q) then None
    else
      var w := SkipSpaces(t, q + 3);
      match LastNewline(t, q + 3, w)
      case None => None
      case Some(n) => Some(n + 1)
  }

  /**
   * What the pattern asks of `t` from index `j`, where the path group has ended:
   * `\s*---\s*\n(.*?)---\s*FIN FICHIER\s*---`. The body ends at the first close marker.
   */
  function AfterPath(t: string, j: nat): (r: Option<Span>)
    requires j <= |t|
    ensures r.Some? ==> j < r.value.bodyStart <= r.value.bodyEnd && r.value.bodyEnd + 17 <= r.value.end <= |t|
  {
    match BodyStart(t, j)
    case None => None
    case Some(s) =>
      match FirstCloseFrom(t, s)
      case None => None
      case Some(k) => Some(Span(s, k, CloseEnd(t, k).value))
  }

  /** The path group may end at index `j` of `t`: the rest of the pattern matches from there. */
  predicate PathEndsAt(t: string, j: nat) {
    j <= |t| && AfterPath(t, j).Some?
  }

  /** For each index `j <= |t|`, whether the path group may end there. */
  function PathEndTable(t: string): (bs: seq<bool>)
    ensures |bs| == |t| + 1
  {
    seq(|t| + 1, j requires 0 <= j <= |t| => PathEndsAt(t, j))
  }

  /** The lazy `(.+?)`: the first end `j >= from` of the path group after which the rest matches. */
  function PathEndFrom(t: string, from: nat): Option<nat>
    requires from <= |t|
  {
    FirstTrue(PathEndTable(t), from)
  }

  /** The open marker `---\s*FICHIER:` starts at index `i` of `t`. */
  predicate OpenAt(t: string, i: nat) {
    OccursAt(t, Dashes, i) && OccursAt(t, OpenWord, SkipSpaces(t, i + 3))
  }

  /**
   * Where the path group of a match starting at index `i` of `t` begins and ends, if a
   * match starts there: the path part begins 8 characters after the start of `FICHIER:`.
   */
  function PathGroup(t: string, i: nat): (g: Option<Group>)
    requires i <= |t|
    ensures g.Some? ==> OpenAt(t, i) && i < g.value.start < g.value.end <= |t| && PathEndsAt(t, g.value.end)
  {
    if !OpenAt(t, i) then None
    else
      var a8 := SkipSpaces(t, i + 3) + 8;
      PathGroupAfter(t, a8, SkipSpaces(t, a8))
  }

  /**
   * The path group when `FICHIER:` ends at `a8` and the `\s*` after it, which first takes all
   * the whitespace, stops at `p0`. Only when no path end works after that does it give one
   * character back, which then forms a one-character path.
   */
  function PathGroupAfter(t: string, a8: nat, p0: nat): (g: Option<Group>)
    requires a8 <= p0 <= |t|
    ensures g.Some? ==> a8 <= g.value.start < g.value.end <= |t| && PathEndsAt(t, g.value.end)
  {
    if p0 == |t| then GiveBackOne(t, a8, p0)
    else match PathEndFrom(t, p0 + 1)
      case Some(e) => Some(Group(p0, e))
      case None => GiveBackOne(t, a8, p0)
  }

  /** The backtracking case: the last whitespace character taken becomes the path. */
  function GiveBackOne(t: string, a8: nat, p0: nat): (g: Option<Group>)
    requires a8 <= p0 <= |t|
    ensures g.Some? ==> a8 <= g.value.start < g.value.end <= |t| && PathEndsAt(t, g.value.end)
  {
    if p0 > a8 && PathEndsAt(t, p0) then Some(Group(p0 - 1, p0)) else None
  }

  /** The match of the whole pattern starting at index `i` of `t`, if any. */
  function MatchAt(t: string, i: nat): (m: Option<Capture>)
    requires i <= |t|
    ensures m.Some? ==> i < m.value.end <= |t|
  {
    match PathGroup(t, i)
    case None => None
    case Some(g) =>
      match AfterPath(t, g.end)
      case None => None
      case Some(s) => Some(Capture(t[g.start..g.end], t[s.bodyStart..s.bodyEnd], s.end))
  }

  /** `re.findall` from index `i`: the leftmost match, then the search goes on after its end. */
  function FindAll(t: string, i: nat): seq<Capture>
    requires i <= |t|
    decreases |t| - i
  {
    if i == |t| then []
    else match MatchAt(t, i)
      case Some(m) => [m] + FindAll(t, m.end)
      case None => FindAll(t, i + 1)
  }

  /** The file made from one match (generator.py:159-161). */
  function FileOf(m: Capture): GeneratedFile {
    GeneratedFile(Strip(m.path), Strip(m.body) + "\n")
  }

  function FilesOf(ms: seq<Capture>): (fs: seq<GeneratedFile>)
    ensures |fs| == |ms| && forall i :: 0 <= i < |ms| ==> fs[i] == FileOf(ms[i])
  {
    if ms == [] then [] else [FileOf(ms[0])] + FilesOf(ms[1..])
  }

  /** The files `parser_fichiers` returns for `reply`. */
  function Parse(reply: string): seq<GeneratedFile> {
    FilesOf(FindAll(reply, 0))
  }

  /** `parser_fichiers`: one file appended per match, in the order `findall` returns them. */
  method ParseFiles(reponse: string) returns (fichiers: seq<GeneratedFile>)
    ensures fichiers == Parse(reponse)
  {
    var matches := FindAll(reponse, 0);
    fichiers := [];
    for i := 0 to |matches|
      invariant fichiers == FilesOf(matches[..i])
    {
      assert matches[..i + 1] == matches[..i] + [matches[i]];
      FilesOfAppend(matches[..i], matches[i]);
      fichiers := fichiers + [FileOf(matches[i])];
    }
    assert matches[..|matches|] == matches;
  }

  lemma FilesOfAppend(ms: seq<Capture>, m: Capture)
    ensures FilesOf(ms + [m]) == FilesOf(ms) + [FileOf(m)]
  {
    assert forall i :: 0 <= i < |ms| ==> (ms + [m])[i] == ms[i];
  }

  lemma FilesOfCons(m: Capture, ms: seq<Capture>)
    ensures FilesOf([m] + ms) == [FileOf(m)] + FilesOf(ms)
  {
  }

  /** The shape of every file the parser makes: a trimmed path, and a trimmed text followed by one newline. */
  predicate NormalShape(f: GeneratedFile) {
    Trimmed(f.chemin) && EndsWith(f.contenu, "\n") && Trimmed(f.contenu[..|f.contenu| - 1])
  }

  lemma FileOfShape(m: Capture)
    ensures NormalShape(FileOf(m))
  {
    StripSpec(m.path);
    StripSpec(m.body);
    var c := FileOf(m).contenu;
    assert c[..|c| - 1] == Strip(m.body);
  }

  /** Every parsed file has a trimmed path, and a content that is a trimmed text followed by one newline. */
  lemma ParsedFileShape(reply: string)
    ensures forall i :: 0 <= i < |Parse(reply)| ==> NormalShape(Parse(reply)[i])
  {
    var ms := FindAll(reply, 0);
    forall i | 0 <= i < |ms| ensures NormalShape(Parse(reply)[i]) {
      FileOfShape(ms[i]);
    }
  }

  /** A match whose body is only whitespace gives a file whose content is a single newline. */
  lemma BlankBodyGivesNewline(m: Capture)
    requires AllSpace(m.body)
    ensures FileOf(m).contenu == "\n"
  {
    StripSpec(m.body);
  }

  /** The match at `i` ends where its close marker ends. */
  lemma AfterPathClose(t: string, j: nat)
    requires j <= |t| && AfterPath(t, j).Some?
    ensures CloseAt(t, AfterPath(t, j).value.bodyEnd)
  {
  }

  /** A match starts with an open marker and holds a close marker at or after its start. */
  lemma MatchAtMarkers(t: string, i: nat) returns (k: nat)
    requires i <= |t| && MatchAt(t, i).Some?
    ensures OpenAt(t, i) && i <= k <= |t| && CloseAt(t, k)
  {
    var g := PathGroup(t, i).value;
    AfterPathClose(t, g.end);
    k := AfterPath(t, g.end).value.bodyEnd;
  }

  /** From an index after which no close marker starts, `findall` finds nothing. */
  lemma {:induction false} NoCloseNoMatch(t: string, i: nat)
    requires i <= |t|
    requires forall k :: i <= k <= |t| ==> !CloseAt(t, k)
    ensures FindAll(t, i) == []
    decreases |t| - i
  {
    if i < |t| {
      if MatchAt(t, i).Some? {
        var k := MatchAtMarkers(t, i);
      } else {
        NoCloseNoMatch(t, i + 1);
      }
    }
  }

  /** From an index after which no open marker starts, `findall` finds nothing. */
  lemma {:induction false} NoOpenNoMatch(t: string, i: nat)
    requires i <= |t|
    requires forall k :: i <= k <= |t| ==> !OpenAt(t, k)
    ensures FindAll(t, i) == []
    decreases |t| - i
  {
    if i < |t| {
      if MatchAt(t, i).Some? {
        var k := MatchAtMarkers(t, i);
      } else {
        NoOpenNoMatch(t, i + 1);
      }
    }
  }

  /** A reply with no close marker `---\s*FIN FICHIER\s*---` anywhere yields no file. */
  lemma NoCloseMarkerNoFiles(reply: string)
    requires forall k :: 0 <= k <= |reply| ==> !CloseAt(reply, k)
    ensures Parse(reply) == []
  {
    NoCloseNoMatch(reply, 0);
  }

  /** A reply with no open marker `---\s*FICHIER:` anywhere yields no file. */
  lemma NoOpenMarkerNoFiles(reply: string)
    requires forall k :: 0 <= k <= |reply| ==> !OpenAt(reply, k)
    ensures Parse(reply) == []
  {
    NoOpenNoMatch(reply, 0);
  }
}
