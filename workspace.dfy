/**
 * The throwaway forge project in the temp directory: its layout, how the
 * plugin factory sets it up and how the `post` hook removes it.
 */
module ForgeProject {
  import opened Wrappers
  import opened FileSystem

  const ProjectDirName := "__ts-sol-forge-project__"

  /** path.join(os.tmpdir(), '__ts-sol-forge-project__') */
  function ProjectRoot(tmpDir: Path): (root: Path)
    ensures root != [] && Parent(root) == tmpDir && root[|root| - 1] == ProjectDirName
  {
    tmpDir + [ProjectDirName]
  }

  function ManifestPath(root: Path): Path {
    root + ["foundry.toml"]
  }

  function SourceDir(root: Path): Path {
    root + ["src"]
  }

  function OutputDir(root: Path): Path {
    root + ["dist"]
  }

  /** The foundry.toml text, which starts with a line break. */
  function FoundryToml(solc: string): string {
    "\n[project]\nname = \"temp-ts-sol-forge-project\"\nsrc = \"src\"\nout = \"dist\"\nsolc = " + solc + "\n"
  }

  /** The project right after setup: the root holding foundry.toml and an empty src. */
  function FreshProject(root: Path, solc: string): FileMap {
    map[root := Dir, ManifestPath(root) := File(FoundryToml(solc)), SourceDir(root) := Dir]
  }

  /** `if (fs.existsSync(root)) fs.rmdirSync(root, { recursive: true })`, as setup and `post` both do. */
  function RemoveIfExists(m: FileMap, root: Path): (r: Result<FileMap, FsError>)
    ensures !Exists(m, root) ==> r == Ok(m)
    ensures r.Err? <==> Exists(m, root) && m[root].File?
    ensures r.Ok? && WellFormed(m) ==> Subtree(r.value, root) == map[] && Outside(r.value, root) == Outside(m, root)
    ensures r.Ok? ==> !Exists(r.value, root)
  {
    if Exists(m, root) then
      assert Within(root, root);
      RemoveRecursive(m, root)
    else
      if WellFormed(m) then AbsentHasEmptySubtree(m, root); Ok(m) else Ok(m)
  }

  /** The filesystem steps of the plugin factory, in order. */
  function SetupFiles(m: FileMap, root: Path, solc: string): Result<FileMap, FsError> {
    var cleared :- RemoveIfExists(m, root);
    var made :- MakeDir(cleared, root);
    var configured :- WriteFile(made, ManifestPath(root), FoundryToml(solc));
    MakeDir(configured, SourceDir(root))
  }

  /**
   * On a real filesystem, setup succeeds exactly when the temp directory is a
   * directory and the project path is not a file.
   */
  lemma SetupSucceedsIff(m: FileMap, root: Path, solc: string)
    requires WellFormed(m) && root != []
    ensures SetupFiles(m, root, solc).Ok? <==> IsDir(m, Parent(root)) && !(Exists(m, root) && m[root].File?)
  {
  }

  /**
   * Why setup fails: ENOENT when the temp directory is missing, ENOTDIR when
   * it is a file or the project path is a file; in the first two cases there
   * is no project to remove.
   */
  lemma SetupFailureCauses(m: FileMap, root: Path, solc: string)
    requires WellFormed(m) && root != []
    ensures SetupFiles(m, root, solc) == Err(ENOENT(root)) <==> Parent(root) !in m
    ensures SetupFiles(m, root, solc) == Err(ENOTDIR(root)) <==>
      (Parent(root) in m && m[Parent(root)].File?) || (Exists(m, root) && m[root].File?)
    ensures !IsDir(m, Parent(root)) ==> !Exists(m, root)
  {
  }

  /**
   * After a successful setup the project holds exactly foundry.toml, with the
   * configured solc, and an empty src directory: nothing of a stale project
   * survives, and nothing outside the project changes.
   */
  lemma SetupLeavesFreshProject(m: FileMap, root: Path, solc: string)
    requires WellFormed(m) && root != []
    requires SetupFiles(m, root, solc).Ok?
    ensures var m' := SetupFiles(m, root, solc).value;
      && Subtree(m', root) == FreshProject(root, solc)
      && Outside(m', root) == Outside(m, root)
      && WellFormed(m')
  {
    var cleared := RemoveIfExists(m, root).value;
    if Exists(m, root) {
      RemoveRecursivePreservesWellFormed(m, root);
    }
    var made := MakeDir(cleared, root).value;
    MakeDirPreservesWellFormed(cleared, root);
    var configured := WriteFile(made, ManifestPath(root), FoundryToml(solc)).value;
    WriteFilePreservesWellFormed(made, ManifestPath(root), FoundryToml(solc));
    var m' := MakeDir(configured, SourceDir(root)).value;
    MakeDirPreservesWellFormed(configured, SourceDir(root));
    assert Within(root, root) && Within(ManifestPath(root), root) && Within(SourceDir(root), root);
    UpdateWithin(cleared, root, root, Dir);
    assert made == cleared[root := Dir];
    UpdateWithin(made, root, ManifestPath(root), File(FoundryToml(solc)));
    assert configured == made[ManifestPath(root) := File(FoundryToml(solc))];
    UpdateWithin(configured, root, SourceDir(root), Dir);
    assert m' == configured[SourceDir(root) := Dir];
  }

  /** After a successful setup the project root and its `src` directory are directories. */
  lemma SetupCreatesDirectories(m: FileMap, root: Path, solc: string)
    requires WellFormed(m) && root != []
    requires SetupFiles(m, root, solc).Ok?
    ensures IsDir(SetupFiles(m, root, solc).value, root)
    ensures IsDir(SetupFiles(m, root, solc).value, SourceDir(root))
  {
    var made := MakeDir(RemoveIfExists(m, root).value, root).value;
    var configured := WriteFile(made, ManifestPath(root), FoundryToml(solc)).value;
    assert ManifestPath(root) != root && SourceDir(root) != root;
    assert configured[root] == made[root];
  }

  /** Running the `post` hook twice has the effect of running it once. */
  lemma TeardownIdempotent(m: FileMap, root: Path)
    requires RemoveIfExists(m, root).Ok?
    ensures RemoveIfExists(RemoveIfExists(m, root).value, root) == RemoveIfExists(m, root)
  {
  }

  /** The source path of a contract: src/<name>.sol */
  function SourcePath(root: Path, name: string): (p: Path)
    ensures p != [] && Parent(p) == SourceDir(root) && p[|p| - 1] == name + ".sol"
    ensures Within(p, root) && p != ManifestPath(root)
  {
    SourceDir(root) + [name + ".sol"]
  }

  /**
   * The artifact path: path.join(root, 'dist', sourcePath, <name>.json), where
   * the absolute source path is nested whole under dist.
   */
  function ArtifactPath(root: Path, name: string): (p: Path)
    ensures p != [] && Parent(p) == OutputDir(root) + SourcePath(root, name) && p[|p| - 1] == name + ".json"
    ensures Within(p, OutputDir(root)) && !Within(p, SourceDir(root))
  {
    var p := OutputDir(root) + SourcePath(root, name) + [name + ".json"];
    assert p[|root|] == "dist" && SourceDir(root)[|root|] == "src";
    p
  }

  /** Distinct contract names stage to distinct files and read distinct artifacts. */
  lemma {:induction false} PathsSeparateNames(root: Path, n1: string, n2: string)
    requires n1 != n2
    ensures SourcePath(root, n1) != SourcePath(root, n2)
    ensures ArtifactPath(root, n1) != ArtifactPath(root, n2)
  {
    var s1, s2 := SourcePath(root, n1), SourcePath(root, n2);
    if s1 == s2 {
      AppendCancels(n1, n2, ".sol");
    }
    var a1, a2 := ArtifactPath(root, n1), ArtifactPath(root, n2);
    if a1 == a2 {
      AppendCancels(n1, n2, ".json");
    }
  }

  lemma AppendCancels(a: string, b: string, x: string)
    requires a + x == b + x
    ensures a == b
  {
    assert a == (a + x)[..|a|];
    assert b == (b + x)[..|b|];
  }

  /** Right after setup, staging any contract's source succeeds. */
  lemma StagingSucceedsAfterSetup(m: FileMap, root: Path, solc: string, name: string, snippet: string)
    requires WellFormed(m) && root != []
    requires SetupFiles(m, root, solc).Ok?
    ensures WriteFile(SetupFiles(m, root, solc).value, SourcePath(root, name), snippet).Ok?
  {
  }

  /** Once the project is removed, staging fails because src no longer exists. */
  lemma StagingFailsAfterTeardown(m: FileMap, root: Path, name: string, snippet: string)
    requires WellFormed(m) && RemoveIfExists(m, root).Ok?
    ensures var p := SourcePath(root, name);
      WriteFile(RemoveIfExists(m, root).value, p, snippet) == Err(ENOENT(p))
  {
  }
}
