/**
 * The part of Node's synchronous `fs` API the plugin uses, over an abstract
 * filesystem: a map from absolute paths to files and directories.
 */
module FileSystem {
  import opened Wrappers

  /** An absolute path as its list of segments; [] is "/". */
  type Path = seq<string>

  datatype Node = File(content: string) | Dir

  type FileMap = map<Path, Node>

  /** The error codes the calls below throw. */
  datatype FsError = ENOENT(path: Path) | EEXIST(path: Path) | ENOTDIR(path: Path) | EISDIR(path: Path)

  function Parent(p: Path): Path
    requires p != []
  {
    p[..|p| - 1]
  }

  predicate IsDir(m: FileMap, p: Path) {
    p in m && m[p].Dir?
  }

  /** `p` is `dir` itself or lies below it. */
  predicate Within(p: Path, dir: Path) {
    |dir| <= |p| && p[..|dir|] == dir
  }

  /** The entries at or below `dir`. */
  function Subtree(m: FileMap, dir: Path): FileMap {
    map p | p in m && Within(p, dir) :: m[p]
  }

  /** The entries that are neither `dir` nor below it. */
  function Outside(m: FileMap, dir: Path): FileMap {
    map p | p in m && !Within(p, dir) :: m[p]
  }

  /** A real filesystem is a tree: "/" is a directory and every other entry sits in one. */
  predicate WellFormed(m: FileMap) {
    && IsDir(m, [])
    && forall p :: p in m && p != [] ==> IsDir(m, Parent(p))
  }

  /** fs.existsSync */
  predicate Exists(m: FileMap, p: Path) {
    p in m
  }

  /** fs.rmdirSync(p, { recursive: true }): removes a directory and everything below it. */
  function RemoveRecursive(m: FileMap, p: Path): (r: Result<FileMap, FsError>)
    ensures r.Ok? <==> IsDir(m, p)
    ensures r.Ok? ==> Subtree(r.value, p) == map[] && Outside(r.value, p) == Outside(m, p)
    ensures r.Ok? ==> forall q :: q in r.value ==> !Within(q, p)
  {
    if p !in m then Err(ENOENT(p))
    else if m[p].File? then Err(ENOTDIR(p))
    else Ok(Outside(m, p))
  }

  /** fs.mkdirSync(p) without `recursive`: the parent must already be a directory. */
  function MakeDir(m: FileMap, p: Path): (r: Result<FileMap, FsError>)
    ensures r.Ok? <==> p != [] && !Exists(m, p) && IsDir(m, Parent(p))
    ensures r.Ok? ==> IsDir(r.value, p) && r.value - {p} == m - {p}
    ensures Exists(m, p) ==> r == Err(EEXIST(p))
  {
    if p in m then Err(EEXIST(p))
    else if p == [] || Parent(p) !in m then Err(ENOENT(p))
    else if m[Parent(p)].File? then Err(ENOTDIR(p))
    else Ok(m[p := Dir])
  }

  /** fs.writeFileSync(p, s): creates or overwrites a file in an existing directory. */
  function WriteFile(m: FileMap, p: Path, s: string): (r: Result<FileMap, FsError>)
    ensures r.Ok? <==> p != [] && !IsDir(m, p) && IsDir(m, Parent(p))
    ensures r.Ok? ==> ReadFile(r.value, p) == Ok(s) && r.value - {p} == m - {p}
  {
    if p == [] || IsDir(m, p) then Err(EISDIR(p))
    else if Parent(p) !in m then Err(ENOENT(p))
    else if m[Parent(p)].File? then Err(ENOTDIR(p))
    else Ok(m[p := File(s)])
  }

  /** fs.readFileSync(p) */
  function ReadFile(m: FileMap, p: Path): (r: Result<string, FsError>)
    ensures r.Ok? <==> p in m && m[p].File?
    ensures r.Ok? ==> m[p] == File(r.value)
    ensures p !in m ==> r == Err(ENOENT(p))
  {
    if p !in m then Err(ENOENT(p))
    else if m[p].Dir? then Err(EISDIR(p))
    else Ok(m[p].content)
  }

  /** On a real filesystem nothing lies below a path that does not exist. */
  lemma {:induction false} AbsentHasNothingBelow(m: FileMap, dir: Path, p: Path)
    requires WellFormed(m) && !Exists(m, dir) && Within(p, dir)
    ensures p !in m
    decreases |p|
  {
    if p in m {
      assert p != dir && p != [];
      assert Within(Parent(p), dir) by {
        assert Parent(p)[..|dir|] == p[..|dir|];
      }
      AbsentHasNothingBelow(m, dir, Parent(p));
    }
  }

  lemma AbsentHasEmptySubtree(m: FileMap, dir: Path)
    requires WellFormed(m) && !Exists(m, dir)
    ensures Subtree(m, dir) == map[] && Outside(m, dir) == m
  {
    forall p | p in m ensures !Within(p, dir) {
      if Within(p, dir) {
        AbsentHasNothingBelow(m, dir, p);
      }
    }
  }

  /** Updating an entry below `dir` changes only the subtree, by that entry. */
  lemma UpdateWithin(m: FileMap, dir: Path, p: Path, n: Node)
    requires Within(p, dir)
    ensures Subtree(m[p := n], dir) == Subtree(m, dir)[p := n]
    ensures Outside(m[p := n], dir) == Outside(m, dir)
  {
  }

  lemma RemoveRecursivePreservesWellFormed(m: FileMap, p: Path)
    requires WellFormed(m) && p != [] && RemoveRecursive(m, p).Ok?
    ensures WellFormed(RemoveRecursive(m, p).value)
  {
  }

  lemma MakeDirPreservesWellFormed(m: FileMap, p: Path)
    requires WellFormed(m) && MakeDir(m, p).Ok?
    ensures WellFormed(MakeDir(m, p).value)
  {
  }

  lemma WriteFilePreservesWellFormed(m: FileMap, p: Path, s: string)
    requires WellFormed(m) && WriteFile(m, p, s).Ok?
    ensures WellFormed(WriteFile(m, p, s).value)
  {
  }

  /** Writing what a file already holds changes nothing. */
  lemma {:induction false} RewriteIsNoOp(m: FileMap, p: Path, s: string)
    requires WriteFile(m, p, s).Ok?
    ensures WriteFile(WriteFile(m, p, s).value, p, s) == WriteFile(m, p, s)
  {
    var m' := WriteFile(m, p, s).value;
    assert m'[p := File(s)] == m';
  }
}
