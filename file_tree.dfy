/**
 * The folder view of the generated files in ui_composants.py: `_construire_arbre` files
 * every generated file under the folder its path names, `_compter_fichiers` counts the
 * files below a folder and `_icone_dossier` picks a folder's icon from its name.
 *
 * The nested dictionaries become a value: a folder holds its files (the `_fichiers`
 * list) and its sub-folders, in the order they were first seen, as Python's dicts keep them.
 */
module FileTree {
  import opened Wrappers
  import opened Text
  import opened ReplyParser

  datatype Tree = Tree(files: seq<GeneratedFile>, dirs: seq<Dir>)

  /** A named sub-folder. */
  datatype Dir = Dir(name: string, node: Tree)

  /** The empty dictionary a folder starts as. */
  const Empty := Tree([], [])

  /** The key under which a folder's dictionary keeps its files. */
  const FilesKey := "_fichiers"

  /** `s.replace("\\", "/")`. */
  function Slashes(s: string): (r: string)
    ensures |r| == |s| && forall i :: 0 <= i < |s| ==> r[i] == if s[i] == '\\' then '/' else s[i]
    ensures '\\' !in r
  {
    if s == [] then [] else [if s[0] == '\\' then '/' else s[0]] + Slashes(s[1..])
  }

  /** A text without backslashes is left as it is. */
  lemma SlashesUnchanged(s: string)
    requires '\\' !in s
    ensures Slashes(s) == s
  {
    forall i | 0 <= i < |s| ensures Slashes(s)[i] == s[i] {
      assert s[i] in s;
    }
  }

  /** Every character of `s` is `c`. */
  predicate AllChar(s: string, c: char) {
    forall i :: 0 <= i < |s| ==> s[i] == c
  }

  /** The length of the run of `c`s that `s` opens with. */
  function LeadingRun(s: string, c: char): (n: nat)
    ensures n <= |s| && AllChar(s[..n], c) && (n < |s| ==> s[n] != c)
  {
    if s != [] && s[0] == c then 1 + LeadingRun(s[1..], c) else 0
  }

  /** `s` without the run of `c`s it ends with: what is left does not end with `c`. */
  function TrimEnd(s: string, c: char): (r: string)
    ensures |r| <= |s| && r == s[..|r|] && AllChar(s[|r|..], c)
    ensures r == [] || r[|r| - 1] != c
  {
    if s != [] && s[|s| - 1] == c then
      var r := TrimEnd(s[..|s| - 1], c);
      assert s[|r|..] == s[..|s| - 1][|r|..] + [c];
      r
    else s
  }

  /**
   * `s.strip(c)` for one character: `s` is a run of `c`s, then `r`, then a run of `c`s,
   * and `r` neither starts nor ends with `c`.
   */
  function StripChar(s: string, c: char): (r: string)
    ensures LeadingRun(s, c) + |r| <= |s|
    ensures r == s[LeadingRun(s, c)..LeadingRun(s, c) + |r|]
    ensures AllChar(s[LeadingRun(s, c) + |r|..], c)
    ensures r == [] || (r[0] != c && r[|r| - 1] != c)
  {
    var i := LeadingRun(s, c);
    var r := TrimEnd(s[i..], c);
    assert r != [] ==> r[0] == s[i];
    assert s[i..][|r|..] == s[i + |r|..];
    r
  }

  /** Stripping keeps no character the text did not hold. */
  lemma StripCharWithout(s: string, c: char, x: char)
    requires x !in s
    ensures x !in StripChar(s, c)
  {
    var r := StripChar(s, c);
    var i := LeadingRun(s, c);
    forall j | 0 <= j < |r| ensures r[j] != x {
      assert r[j] == s[i + j];
    }
  }

  /**
   * The path split at its slashes, once backslashes are slashes and the outer slashes are
   * gone: the segments join back to that path, and none holds a slash or a backslash.
   */
  function Segments(chemin: string): (parts: seq<string>)
    ensures |parts| >= 1
    ensures Join(parts, "/") == StripChar(Slashes(chemin), '/')
    ensures forall k :: 0 <= k < |parts| ==> '/' !in parts[k] && '\\' !in parts[k]
  {
    var s := StripChar(Slashes(chemin), '/');
    var parts := Split(s, '/');
    StripCharWithout(Slashes(chemin), '/', '\\');
    NotInParts(parts, "/", '\\');
    parts
  }

  /** The folders a file goes under: every segment of its path but the last. */
  function DirsOf(chemin: string): seq<string> {
    var parts := Segments(chemin);
    parts[..|parts| - 1]
  }

  /** The first sub-folder of `ds` named `name`. */
  function FindDir(ds: seq<Dir>, name: string): (r: Option<nat>)
    ensures r.Some? ==> r.value < |ds| && ds[r.value].name == name
    ensures r.Some? ==> forall j :: 0 <= j < r.value ==> ds[j].name != name
    ensures r.None? ==> forall j :: 0 <= j < |ds| ==> ds[j].name != name
  {
    if ds == [] then None
    else if ds[0].name == name then Some(0)
    else match FindDir(ds[1..], name)
      case Some(k) => Some(k + 1)
      case None => None
  }

  /**
   * One step of `_construire_arbre`: walk down `path`, creating each missing folder at the
   * end of its parent (`setdefault`), and append `f` to the files of the folder reached.
   */
  function Insert(t: Tree, path: seq<string>, f: GeneratedFile): Tree
    decreases |path|
  {
    if path == [] then Tree(t.files + [f], t.dirs)
    else match FindDir(t.dirs, path[0])
      case Some(k) => Tree(t.files, t.dirs[k := Dir(path[0], Insert(t.dirs[k].node, path[1..], f))])
      case None => Tree(t.files, t.dirs + [Dir(path[0], Insert(Empty, path[1..], f))])
  }

  /** The tree `_construire_arbre` returns: the files inserted one after the other. */
  function Built(fichiers: seq<GeneratedFile>): Tree
    decreases |fichiers|
  {
    if fichiers == [] then Empty
    else
      var last := fichiers[|fichiers| - 1];
      Insert(Built(fichiers[..|fichiers| - 1]), DirsOf(last.chemin), last)
  }

  /** `_construire_arbre`: one insertion per file, in order. */
  method BuildTree(fichiers: seq<GeneratedFile>) returns (arbre: Tree)
    requires forall f :: f in fichiers ==> FilesKey !in DirsOf(f.chemin)
    ensures arbre == Built(fichiers)
    ensures Count(arbre) == |fichiers|
  {
    arbre := Empty;
    for i := 0 to |fichiers|
      invariant arbre == Built(fichiers[..i])
    {
      assert fichiers[..i + 1][..i] == fichiers[..i];
      arbre := Insert(arbre, DirsOf(fichiers[i].chemin), fichiers[i]);
    }
    assert fichiers[..|fichiers|] == fichiers;
    BuiltCount(fichiers);
  }

  /** The folder reached from `t` along `path`, if every folder on the way exists. */
  function Lookup(t: Tree, path: seq<string>): Option<Tree>
    decreases |path|
  {
    if path == [] then Some(t)
    else match FindDir(t.dirs, path[0])
      case Some(k) => Lookup(t.dirs[k].node, path[1..])
      case None => None
  }

  /** The files kept directly in the folder at `path`; none when there is no such folder. */
  function FilesAt(t: Tree, path: seq<string>): seq<GeneratedFile> {
    match Lookup(t, path)
    case Some(n) => n.files
    case None => []
  }

  /** The files of `fichiers` whose folder is `path`, in order. */
  function FilesUnder(fichiers: seq<GeneratedFile>, path: seq<string>): seq<GeneratedFile>
    decreases |fichiers|
  {
    if fichiers == [] then []
    else
      var last := fichiers[|fichiers| - 1];
      FilesUnder(fichiers[..|fichiers| - 1], path) + (if DirsOf(last.chemin) == path then [last] else [])
  }

  /** `_compter_fichiers`: the files of a folder and of all the folders below it. */
  function Count(t: Tree): nat
    decreases t
  {
    |t.files| + CountAll(t.dirs)
  }

  function CountAll(ds: seq<Dir>): nat
    decreases ds
  {
    if ds == [] then 0 else CountAll(ds[..|ds| - 1]) + Count(ds[|ds| - 1].node)
  }

  /** `_compter_fichiers` as the source computes it: the folder's own files, plus a recursive count per sub-folder. */
  method CountFiles(t: Tree) returns (total: nat)
    ensures total == Count(t)
    decreases t
  {
    total := |t.files|;
    for i := 0 to |t.dirs|
      invariant total == |t.files| + CountAll(t.dirs[..i])
    {
      assert t.dirs[..i + 1][..i] == t.dirs[..i];
      var sub := CountFiles(t.dirs[i].node);
      total := total + sub;
    }
    assert t.dirs[..|t.dirs|] == t.dirs;
  }

  /** The first sub-folder named `name` is the one at `k` when `k` has that name and none before it has. */
  lemma FindDirIs(ds: seq<Dir>, name: string, k: nat)
    requires k < |ds| && ds[k].name == name && forall j :: 0 <= j < k ==> ds[j].name != name
    ensures FindDir(ds, name) == Some(k)
  {
  }

  /** Replacing a sub-folder's tree, under the same name, changes no lookup by name. */
  lemma FindDirUpdate(ds: seq<Dir>, k: nat, x: Tree, name: string)
    requires k < |ds|
    ensures FindDir(ds[k := Dir(ds[k].name, x)], name) == FindDir(ds, name)
  {
    var ds' := ds[k := Dir(ds[k].name, x)];
    assert forall j :: 0 <= j < |ds| ==> ds'[j].name == ds[j].name;
    var r := FindDir(ds, name);
    if r.Some? {
      FindDirIs(ds', name, r.value);
    }
  }

  /** A sub-folder appended under a new name is found under that name, and no other lookup changes. */
  lemma FindDirAppend(ds: seq<Dir>, d: Dir, name: string)
    requires FindDir(ds, d.name).None?
    ensures FindDir(ds + [d], name) == if name == d.name then Some(|ds|) else FindDir(ds, name)
  {
    var ds' := ds + [d];
    assert forall j :: 0 <= j < |ds| ==> ds'[j] == ds[j];
    var r := FindDir(ds, name);
    if name == d.name {
      FindDirIs(ds', name, |ds|);
    } else if r.Some? {
      FindDirIs(ds', name, r.value);
    }
  }

  /** Replacing one sub-folder changes the count by the difference of the two counts. */
  lemma {:induction false} CountAllUpdate(ds: seq<Dir>, k: nat, d: Dir)
    requires k < |ds|
    ensures CountAll(ds[k := d]) + Count(ds[k].node) == CountAll(ds) + Count(d.node)
    decreases |ds|
  {
    var n := |ds| - 1;
    if k < n {
      assert ds[k := d][..n] == ds[..n][k := d];
      CountAllUpdate(ds[..n], k, d);
    } else {
      assert ds[k := d][..n] == ds[..n];
    }
  }

  /** The empty folder holds nothing, however deep one looks. */
  lemma FilesAtEmpty(path: seq<string>)
    ensures FilesAt(Empty, path) == []
  {
  }

  /** An insertion adds exactly one file to the count. */
  lemma {:induction false} InsertCount(t: Tree, path: seq<string>, f: GeneratedFile)
    ensures Count(Insert(t, path, f)) == Count(t) + 1
    decreases |path|
  {
    if path != [] {
      match FindDir(t.dirs, path[0])
      case Some(k) =>
        var d := Dir(path[0], Insert(t.dirs[k].node, path[1..], f));
        InsertCount(t.dirs[k].node, path[1..], f);
        CountAllUpdate(t.dirs, k, d);
      case None =>
        var d := Dir(path[0], Insert(Empty, path[1..], f));
        InsertCount(Empty, path[1..], f);
        assert (t.dirs + [d])[..|t.dirs|] == t.dirs;
    }
  }

  /** An insertion appends `f` to the files of the folder at `path`, and to no other folder. */
  lemma {:induction false} InsertFilesAt(t: Tree, path: seq<string>, q: seq<string>, f: GeneratedFile)
    ensures FilesAt(Insert(t, path, f), q) == FilesAt(t, q) + (if q == path then [f] else [])
    decreases |path|
  {
    var t' := Insert(t, path, f);
    if path != [] && q != [] {
      assert q == path <==> q[0] == path[0] && q[1..] == path[1..];
      match FindDir(t.dirs, path[0])
      case Some(k) =>
        var sub := Insert(t.dirs[k].node, path[1..], f);
        FindDirUpdate(t.dirs, k, sub, q[0]);
        if q[0] == path[0] {
          InsertFilesAt(t.dirs[k].node, path[1..], q[1..], f);
        }
      case None =>
        var sub := Insert(Empty, path[1..], f);
        FindDirAppend(t.dirs, Dir(path[0], sub), q[0]);
        if q[0] == path[0] {
          InsertFilesAt(Empty, path[1..], q[1..], f);
          FilesAtEmpty(q[1..]);
        }
    }
  }

  /** The built tree holds `|fichiers|` files in all. */
  lemma {:induction false} BuiltCount(fichiers: seq<GeneratedFile>)
    ensures Count(Built(fichiers)) == |fichiers|
    decreases |fichiers|
  {
    if fichiers != [] {
      var n := |fichiers| - 1;
      BuiltCount(fichiers[..n]);
      InsertCount(Built(fichiers[..n]), DirsOf(fichiers[n].chemin), fichiers[n]);
    }
  }

  /** Every folder of the built tree holds exactly the files whose path names it, in input order. */
  lemma {:induction false} BuiltFilesAt(fichiers: seq<GeneratedFile>, q: seq<string>)
    ensures FilesAt(Built(fichiers), q) == FilesUnder(fichiers, q)
    decreases |fichiers|
  {
    if fichiers == [] {
      FilesAtEmpty(q);
    } else {
      var n := |fichiers| - 1;
      BuiltFilesAt(fichiers[..n], q);
      InsertFilesAt(Built(fichiers[..n]), DirsOf(fichiers[n].chemin), q, fichiers[n]);
    }
  }

  /** A path with no slash or backslash names no folder: its file is kept at the root. */
  lemma NoSlashAtRoot(chemin: string)
    requires '/' !in chemin && '\\' !in chemin
    ensures DirsOf(chemin) == []
  {
    var s := Slashes(chemin);
    assert '/' !in s;
    StripCharUnchanged(s, '/');
  }

  /** Segments free of slashes and backslashes, joined by slashes: nothing to replace or strip. */
  lemma JoinedPathClean(ps: seq<string>)
    requires |ps| > 0 && forall k :: 0 <= k < |ps| ==> ps[k] != [] && '/' !in ps[k] && '\\' !in ps[k]
    ensures StripChar(Slashes(Join(ps, "/")), '/') == Join(ps, "/")
  {
    var p := Join(ps, "/");
    NotInJoin(ps, "/", '\\');
    SlashesUnchanged(p);
    JoinEnds(ps, "/");
    assert ps[0][0] in ps[0] && ps[|ps| - 1][|ps[|ps| - 1]| - 1] in ps[|ps| - 1];
    assert LeadingRun(p, '/') == 0;
    assert p[0..] == p;
  }

  /**
   * A path written as folders and a file name, each non-empty and free of slashes and
   * backslashes, joined by slashes: its file goes under exactly those folders, in order.
   */
  lemma DirsOfJoin(ds: seq<string>, name: string)
    requires forall k :: 0 <= k < |ds| ==> ds[k] != [] && '/' !in ds[k] && '\\' !in ds[k]
    requires name != [] && '/' !in name && '\\' !in name
    ensures DirsOf(Join(ds + [name], "/")) == ds
  {
    var ps := ds + [name];
    assert forall k :: 0 <= k < |ps| ==> ps[k] != [] && '/' !in ps[k] && '\\' !in ps[k];
    JoinedPathClean(ps);
    SplitOfJoin(ps, '/');
    assert ps[..|ps| - 1] == ds;
  }

  /** A text with no `c` at all strips to itself. */
  lemma StripCharUnchanged(s: string, c: char)
    requires c !in s
    ensures StripChar(s, c) == s
  {
    if s != [] {
      assert s[0] in s && s[|s| - 1] in s;
    }
  }

  /** `_icone_dossier`: the icon of the first keyword found in the lower-cased name. */
  function FolderIcon(nom: string): string {
    var lower := ToLower(nom);
    if Contains(lower, "install") then "🔧"
    else if Contains(lower, "sql") then "🗄️"
    else if Contains(lower, "config") then "⚙️"
    else if Contains(lower, "import") then "📥"
    else if Contains(lower, "alimentation") then "🔄"
    else if Contains(lower, "export") then "📤"
    else "📁"
  }

  /** The keywords with their icons, in the order they are tried. */
  const IconTable: seq<(string, string)> := [
    ("install", "🔧"), ("sql", "🗄️"), ("config", "⚙️"),
    ("import", "📥"), ("alimentation", "🔄"), ("export", "📤")]

  /** The icon of the first entry of `table` whose keyword `lower` contains. */
  function FirstMatchIcon(lower: string, table: seq<(string, string)>): string {
    if table == [] then "📁"
    else if Contains(lower, table[0].0) then table[0].1
    else FirstMatchIcon(lower, table[1..])
  }

  /** The chain of tests is a first-match search of the keyword table. */
  lemma FolderIconIsFirstMatch(nom: string)
    ensures FolderIcon(nom) == FirstMatchIcon(ToLower(nom), IconTable)
  {
    var l := ToLower(nom);
    var t := IconTable;
    assert FirstMatchIcon(l, t[6..]) == "📁";
    assert FirstMatchIcon(l, t[5..]) == if Contains(l, "export") then "📤" else "📁" by { assert t[5..][1..] == t[6..]; }
    assert FirstMatchIcon(l, t[4..]) == if Contains(l, "alimentation") then "🔄" else FirstMatchIcon(l, t[5..]) by { assert t[4..][1..] == t[5..]; }
    assert FirstMatchIcon(l, t[3..]) == if Contains(l, "import") then "📥" else FirstMatchIcon(l, t[4..]) by { assert t[3..][1..] == t[4..]; }
    assert FirstMatchIcon(l, t[2..]) == if Contains(l, "config") then "⚙️" else FirstMatchIcon(l, t[3..]) by { assert t[2..][1..] == t[3..]; }
    assert FirstMatchIcon(l, t[1..]) == if Contains(l, "sql") then "🗄️" else FirstMatchIcon(l, t[2..]) by { assert t[1..][1..] == t[2..]; }
  }

  /** Lower-casing twice is lower-casing once. */
  lemma ToLowerTwice(s: string)
    ensures ToLower(ToLower(s)) == ToLower(s)
  {
  }

  /** The icon ignores case: a name and its lower-cased form get the same icon. */
  lemma FolderIconIgnoresCase(nom: string)
    ensures FolderIcon(nom) == FolderIcon(ToLower(nom))
  {
    ToLowerTwice(nom);
  }
}
