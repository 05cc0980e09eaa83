/** The project working directory, as the file manager exposes it. Paths are
    relative to the project directory; the project directory itself is the
    empty path. `readdir` lists entries in an order the platform does not fix;
    here a directory lists its entries in the order they were created. */
module Workspace {
  import opened Wrappers
  import opened Strings

  datatype FileData = FileData(content: string, size: nat)

  /** Files by path, the set of directory paths, and every path in creation order. */
  datatype Tree = Tree(files: map<string, FileData>, dirs: set<string>, order: seq<string>)

  const EmptyTree := Tree(map[], {}, [])

  /** `path.join(rel, name)` for a relative directory and an entry name. */
  function JoinPath(rel: string, name: string): string {
    if rel == "" then name else rel + "/" + name
  }

  /** `fileExists`: `fs.access` succeeds for files and for directories. */
  predicate Exists(t: Tree, p: string) {
    p in t.files || p in t.dirs
  }

  /** `readFile`: only a file can be read. */
  function Read(t: Tree, p: string): (r: Result<string>)
    ensures r.Success? <==> p in t.files
    ensures r.Success? ==> r.value == t.files[p].content
  {
    if p in t.files then Success(t.files[p].content)
    else if p in t.dirs then Failure("EISDIR: illegal operation on a directory, read")
    else Failure("ENOENT: no such file or directory, open '" + p + "'")
  }

  /** The directory part of a path (`path.dirname`), the empty path for the project directory. */
  function DirName(p: string): string {
    if '/' !in p then "" else LastSlashPrefix(p)
  }

  function LastSlashPrefix(p: string): (r: string)
    requires '/' in p
    ensures |r| < |p|
    decreases |p|
  {
    if p[|p| - 1] == '/' then p[..|p| - 1] else LastSlashPrefix(p[..|p| - 1])
  }

  /** The last component of a path (`path.basename`). */
  function BaseName(p: string): (r: string)
    ensures '/' !in r
    decreases |p|
  {
    if p == [] then []
    else if p[|p| - 1] == '/' then []
    else BaseName(p[..|p| - 1]) + [p[|p| - 1]]
  }

  /** Every directory `mkdir -p p` creates or needs, outermost first: each prefix
      that ends before a `/`, then `p` itself. */
  function AncestorList(p: string): (r: seq<string>)
    ensures forall a :: a in r ==> a != "" && |a| <= |p|
  {
    PrefixesBefore(p, 1) + (if p == "" then [] else [p])
  }

  function PrefixesBefore(p: string, i: nat): (r: seq<string>)
    requires i >= 1
    ensures forall a :: a in r ==> a != "" && |a| < |p|
    decreases |p| - i
  {
    if i >= |p| then []
    else if p[i] == '/' then [p[..i]] + PrefixesBefore(p, i + 1)
    else PrefixesBefore(p, i + 1)
  }

  /** The entries of `ps` that are not yet directories of `t`, each once. */
  function NewDirs(ps: seq<string>, dirs: set<string>): seq<string>
    decreases |ps|
  {
    if ps == [] then []
    else if ps[0] in dirs then NewDirs(ps[1..], dirs)
    else [ps[0]] + NewDirs(ps[1..], dirs + {ps[0]})
  }

  function SetOf(ps: seq<string>): set<string> {
    set a | a in ps
  }

  /** `ensureDirectory`: `mkdir -p` fails when one of the directories to create
      is a file; otherwise every missing ancestor becomes a directory. */
  function EnsureDirectory(t: Tree, p: string): (r: Result<Tree>)
    ensures r.Success? <==> forall a :: a in AncestorList(p) ==> a !in t.files
    ensures r.Success? ==> r.value.files == t.files && r.value.dirs == t.dirs + SetOf(AncestorList(p))
  {
    var anc := AncestorList(p);
    if exists a :: a in anc && a in t.files then Failure("EEXIST: file already exists, mkdir '" + p + "'")
    else
      NewDirsAdded(anc, t.dirs);
      Success(Tree(t.files, t.dirs + SetOf(anc), t.order + NewDirs(anc, t.dirs)))
  }

  lemma {:induction false} NewDirsAdded(ps: seq<string>, dirs: set<string>)
    ensures dirs + SetOf(NewDirs(ps, dirs)) == dirs + SetOf(ps)
    decreases |ps|
  {
    if ps != [] {
      NewDirsAdded(ps[1..], if ps[0] in dirs then dirs else dirs + {ps[0]});
      assert SetOf(ps) == {ps[0]} + SetOf(ps[1..]);
      if ps[0] !in dirs {
        assert SetOf(NewDirs(ps, dirs)) == {ps[0]} + SetOf(NewDirs(ps[1..], dirs + {ps[0]}));
      }
    }
  }

  /** `writeFile`: replaces or creates a file; fails on a directory and when the
      parent directory is missing. The size recorded is the length of the text. */
  function WriteFile(t: Tree, p: string, content: string): (r: Result<Tree>)
    ensures r.Success? <==> p !in t.dirs && (DirName(p) == "" || DirName(p) in t.dirs)
    ensures r.Success? ==> r.value.files == t.files[p := FileData(content, |content|)] && r.value.dirs == t.dirs
  {
    WriteData(t, p, FileData(content, |content|))
  }

  /** Writing a file whose bytes are not text (an archive): only its size is kept. */
  function WriteData(t: Tree, p: string, d: FileData): (r: Result<Tree>)
    ensures r.Success? <==> p !in t.dirs && (DirName(p) == "" || DirName(p) in t.dirs)
    ensures r.Success? ==> r.value.files == t.files[p := d] && r.value.dirs == t.dirs
  {
    if p in t.dirs then Failure("EISDIR: illegal operation on a directory, open '" + p + "'")
    else if DirName(p) != "" && DirName(p) !in t.dirs then Failure("ENOENT: no such file or directory, open '" + p + "'")
    else Success(Tree(t.files[p := d], t.dirs, t.order + (if p in t.files then [] else [p])))
  }

  /** Updating one key of a map keeps every other entry. */
  lemma UpdateKeepsOthers(m: map<string, FileData>, k: string, v: FileData)
    ensures forall q :: q in m && q != k ==> q in m[k := v] && m[k := v][q] == m[q]
  {
  }

  /** A write leaves every other file as it was. */
  lemma WriteFileFrame(t: Tree, p: string, content: string, q: string)
    requires WriteFile(t, p, content).Success? && q != p
    ensures var u := WriteFile(t, p, content).value;
      (q in u.files <==> q in t.files) && (q in t.files ==> u.files[q] == t.files[q])
  {
  }

  datatype Stats = Stats(size: nat, isDirectory: bool)

  /** `getFileStats`: null for a missing path. */
  function FileStats(t: Tree, p: string): (r: Option<Stats>)
    ensures r.Some? <==> Exists(t, p)
    ensures r.Some? ==> (r.value.isDirectory <==> p !in t.files)
    ensures r.Some? && p in t.files ==> r.value.size == t.files[p].size
  {
    if p in t.files then Some(Stats(t.files[p].size, false))
    else if p in t.dirs then Some(Stats(4096, true))
    else None
  }

  /** Names of directory entries: non-empty, without a separator. */
  predicate EntryNames(names: seq<string>) {
    forall n :: n in names ==> '/' !in n && n != ""
  }

  /** Dropping the last entry keeps the rest entry names, and the last one is one too. */
  lemma EntryNamesInit(names: seq<string>)
    requires |names| > 0 && EntryNames(names)
    ensures EntryNames(names[..|names| - 1])
    ensures '/' !in names[|names| - 1] && names[|names| - 1] != ""
  {
    var init := names[..|names| - 1];
    forall n | n in init ensures '/' !in n && n != "" {
      var i :| 0 <= i < |init| && init[i] == n;
      assert names[i] in names;
    }
    assert EntryNames(init);
    assert names[|names| - 1] in names;
  }

  /** `listFiles(rel)`: names of the files directly in `rel` (none when `rel` is missing). */
  function ListFiles(t: Tree, rel: string): (names: seq<string>)
    ensures EntryNames(names)
  {
    Children(t.order, t, rel, false)
  }

  /** `listDirectories(rel)`: names of the directories directly in `rel`. */
  function ListDirectories(t: Tree, rel: string): (names: seq<string>)
    ensures EntryNames(names)
  {
    Children(t.order, t, rel, true)
  }

  function Children(ps: seq<string>, t: Tree, rel: string, wantDirs: bool): (names: seq<string>)
    ensures forall n :: n in names ==> '/' !in n && n != ""
    ensures |names| <= |ps|
  {
    if ps == [] then []
    else
      var p := ps[0];
      var rest := Children(ps[1..], t, rel, wantDirs);
      var kind := if wantDirs then p in t.dirs else p in t.files;
      if kind && DirName(p) == rel && BaseName(p) != "" then [BaseName(p)] + rest else rest
  }
}
