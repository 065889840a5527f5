/**
 * The Babel plugin: the factory that resolves options and sets up the forge
 * project, the `post` hook that removes it, and the TaggedTemplateExpression
 * visitor that stages a snippet, runs `forge build` and reads the artifact.
 */
module BabelPluginSol {
  import opened Wrappers
  import opened JsonValues
  import opened FileSystem
  import opened Errors
  import opened PluginOptions
  import opened Naming
  import opened ForgeProject
  import opened Artifacts

  const TagName := "tsSol"

  /** A spawned process: the shell command, its working directory and the files it sees. */
  datatype Invocation = Invocation(command: string, cwd: Path, files: FileMap)

  /** How a process ended: its exit status and the files as it left them. */
  datatype ProcessExit = ProcessExit(status: int, files: FileMap)

  /** The outside world's answer to a spawned `forge build`. */
  type Forge = Invocation -> ProcessExit

  /** JSON.parse: the parsed document, or None for a syntax error. */
  type JsonParse = string -> Option<Json>

  /** The machine the plugin runs on: its files and the processes spawned so far. */
  class Host {
    var files: FileMap
    var spawned: seq<Invocation>

    constructor (files: FileMap)
      ensures this.files == files && spawned == []
    {
      this.files := files;
      spawned := [];
    }
  }

  /** The tag of a tagged template: an Identifier, or any other kind of expression. */
  datatype Expression = Identifier(name: string) | OtherExpression

  /** A tagged template literal; `quasis` holds the raw text of each template element. */
  datatype TaggedTemplate = TaggedTemplate(tag: Expression, quasis: seq<string>)

  predicate IsTsSolTag(tag: Expression) {
    tag.Identifier? && tag.name == TagName
  }

  /** readFileSync, JSON.parse and forgeArtifactsValidator.parse, in that order. */
  function ReadArtifact(m: FileMap, path: Path, parse: JsonParse): (r: Result<Artifact, PluginError>)
    ensures r.Ok? <==> exists text :: ReadFile(m, path) == Ok(text) && parse(text).Some? && ParseArtifact(parse(text).value).Ok?
    ensures r.Ok? ==> Describes(parse(m[path].content).value, r.value)
    ensures path !in m ==> r == Err(Fs(ENOENT(path)))
    ensures ReadFile(m, path).Ok? && parse(m[path].content).None? ==> r == Err(JsonSyntaxError(path))
    ensures ReadFile(m, path).Ok? && parse(m[path].content).Some? && ParseArtifact(parse(m[path].content).value).Err? ==>
      r == Err(InvalidArtifact)
  {
    match ReadFile(m, path)
    case Err(e) => Err(Fs(e))
    case Ok(text) =>
      match parse(text)
      case None => Err(JsonSyntaxError(path))
      case Some(j) => ParseArtifact(j)
  }

  /** What the visitor did with a tagged template. */
  datatype Visited = NotTsSol | Compiled(artifact: Artifact)

  class Plugin {
    const host: Host
    const root: Path
    const config: Config
    /** ethers.keccak256, fixed for the plugin's lifetime. */
    const keccak: Keccak

    constructor (host: Host, root: Path, config: Config, keccak: Keccak)
      ensures this.host == host && this.root == root && this.config == config && this.keccak == keccak
    {
      this.host := host;
      this.root := root;
      this.config := config;
      this.keccak := keccak;
    }

    /** The factory's filesystem steps: remove a stale project, then create the fresh one. */
    method Setup() returns (r: Result<(), PluginError>)
      requires WellFormed(host.files) && root != []
      modifies host
      ensures host.spawned == old(host.spawned)
      ensures match SetupFiles(old(host.files), root, config.solc)
        case Ok(m) => r.Ok? && host.files == m
        case Err(e) => r == Err(Fs(e)) && unchanged(host)
    {
      SetupFailureCauses(host.files, root, config.solc);
      if Exists(host.files, root) {
        var removed := RemoveRecursive(host.files, root);
        if removed.Err? {
          return Err(Fs(removed.error));
        }
        host.files := removed.value;
      }
      var made := MakeDir(host.files, root);
      if made.Err? {
        return Err(Fs(made.error));
      }
      host.files := made.value;
      // Once the root is made, neither of the remaining steps can fail.
      var configured := WriteFile(host.files, ManifestPath(root), FoundryToml(config.solc));
      assert configured.Ok?;
      host.files := configured.value;
      var src := MakeDir(host.files, SourceDir(root));
      assert src.Ok?;
      host.files := src.value;
      r := Ok(());
    }

    /** The `post` hook: remove the project if it exists. */
    method Post() returns (r: Result<(), PluginError>)
      modifies host
      ensures host.spawned == old(host.spawned)
      ensures match RemoveIfExists(old(host.files), root)
        case Ok(m) => r.Ok? && host.files == m
        case Err(e) => r == Err(Fs(e)) && unchanged(host)
    {
      if Exists(host.files, root) {
        var removed := RemoveRecursive(host.files, root);
        if removed.Err? {
          return Err(Fs(removed.error));
        }
        host.files := removed.value;
      }
      r := Ok(());
    }

    /** The TaggedTemplateExpression visitor. */
    method Visit(node: TaggedTemplate, forge: Forge, parse: JsonParse)
      returns (r: Result<Visited, PluginError>)
      modifies host
      // A template with another tag is left alone.
      ensures !IsTsSolTag(node.tag) ==> r == Ok(NotTsSol) && unchanged(host)
      // A missing or empty string throws before any file is written or process spawned.
      ensures IsTsSolTag(node.tag) && (node.quasis == [] || node.quasis[0] == "") ==>
        r == Err(MissingTemplateString) && unchanged(host)
      ensures IsTsSolTag(node.tag) && node.quasis != [] && node.quasis[0] != "" ==>
        var snippet := node.quasis[0];
        var name := ContractName(keccak, snippet);
        var source := SourcePath(root, name);
        match WriteFile(old(host.files), source, snippet)
        // Staging failed: nothing was spawned.
        case Err(e) => r == Err(Fs(e)) && unchanged(host)
        case Ok(staged) =>
          // `${forgeExecutable} build`
          var run := Invocation(config.forgeExecutable + " build", root, staged);
          // forge sees the snippet, verbatim, at the staged path and nothing else changed.
          && ReadFile(run.files, source) == Ok(snippet)
          && run.files - {source} == old(host.files) - {source}
          // exactly one build was spawned, in the project root, and its effects kept.
          && host.spawned == old(host.spawned) + [run]
          && host.files == forge(run).files
          && (forge(run).status != 0 ==> r == Err(BuildFailed(forge(run).status)))
          && (forge(run).status == 0 ==>
                match ReadArtifact(host.files, ArtifactPath(root, name), parse)
                case Ok(a) => r == Ok(Compiled(a))
                case Err(e) => r == Err(e))
    {
      if !IsTsSolTag(node.tag) {
        return Ok(NotTsSol);
      }
      // quasi.quasis[0]?.value.raw must be present and not empty
      if node.quasis == [] || node.quasis[0] == "" {
        return Err(MissingTemplateString);
      }
      var snippet := node.quasis[0];
      var name := ContractName(keccak, snippet);
      var source := SourcePath(root, name);
      var staged := WriteFile(host.files, source, snippet);
      if staged.Err? {
        return Err(Fs(staged.error));
      }
      host.files := staged.value;
      var run := Invocation(config.forgeExecutable + " build", root, host.files);
      host.spawned := host.spawned + [run];
      var exit := forge(run);
      host.files := exit.files;
      if exit.status != 0 {
        return Err(BuildFailed(exit.status));
      }
      var artifact := ReadArtifact(host.files, ArtifactPath(root, name), parse);
      if artifact.Err? {
        return Err(artifact.error);
      }
      r := Ok(Compiled(artifact.value));
    }
  }

  /**
   * The plugin factory: resolve the options, throwing before any filesystem
   * work when they are invalid, then set up the forge project under `tmpDir`.
   */
  method Declare(host: Host, tmpDir: Path, options: map<string, Json>, keccak: Keccak) returns (r: Result<Plugin, PluginError>)
    requires WellFormed(host.files)
    modifies host
    ensures host.spawned == old(host.spawned)
    ensures ResolveOptions(options).Err? ==> r == Err(InvalidOptions) && unchanged(host)
    ensures ResolveOptions(options).Ok? ==>
      var config := ResolveOptions(options).value;
      match SetupFiles(old(host.files), ProjectRoot(tmpDir), config.solc)
      case Ok(m) =>
        && r.Ok? && fresh(r.value) && host.files == m
        && r.value.host == host && r.value.root == ProjectRoot(tmpDir) && r.value.config == config
        && r.value.keccak == keccak
      case Err(e) => r == Err(Fs(e)) && unchanged(host)
  {
    var resolved := ResolveOptions(options);
    if resolved.Err? {
      return Err(InvalidOptions);
    }
    var plugin := new Plugin(host, ProjectRoot(tmpDir), resolved.value, keccak);
    var setup := plugin.Setup();
    if setup.Err? {
      return Err(setup.error);
    }
    r := Ok(plugin);
  }
}
