/**
 * End-to-end runs of the plugin, proved from the contracts alone: a build
 * that emits the empty contract's artifact, the same snippet compiled twice,
 * an empty snippet, and teardown run twice.
 */
module Scenarios {
  import opened Wrappers
  import opened JsonValues
  import opened FileSystem
  import opened Errors
  import opened PluginOptions
  import opened Naming
  import opened ForgeProject
  import opened Artifacts
  import opened BabelPluginSol

  const EmptyContractDocument := JObject(map[
    "abi" := JArray([]),
    "bytecode" := JObject(map["object" := JString("0x"), "sourceMap" := JString("")])
  ])

  /** The text of the empty contract's artifact, as forge writes it. */
  const EmptyContractText := "{\"abi\":[],\"bytecode\":{\"object\":\"0x\",\"sourceMap\":\"\"}}"

  /**
   * A forge that succeeds and writes the empty contract's artifact at `path`.
   * It does not create the directories above `path`, so the map it leaves is
   * not a tree; the scenarios never need it to be one.
   */
  function WritingForge(path: Path): Forge {
    (run: Invocation) => ProcessExit(0, run.files[path := File(EmptyContractText)])
  }

  /** A JSON.parse that knows only the empty contract's artifact text. */
  function EmptyContractParse(): JsonParse {
    (t: string) => if t == EmptyContractText then Some(EmptyContractDocument) else None
  }

  const Snippet := "contract C {}"

  /** Compiling "contract C {}" with a forge that writes the empty contract's artifact. */
  method CompileEmptyContract(plugin: Plugin) returns (r: Result<Visited, PluginError>)
    requires IsDir(plugin.host.files, plugin.root) && IsDir(plugin.host.files, SourceDir(plugin.root))
    requires !IsDir(plugin.host.files, SourcePath(plugin.root, ContractName(plugin.keccak, Snippet)))
    modifies plugin.host
    ensures r == Ok(Compiled(Artifact([], Bytecode("0x", ""))))
    ensures IsDir(plugin.host.files, plugin.root) && IsDir(plugin.host.files, SourceDir(plugin.root))
    ensures ReadFile(plugin.host.files, SourcePath(plugin.root, ContractName(plugin.keccak, Snippet))) == Ok(Snippet)
  {
    var name := ContractName(plugin.keccak, Snippet);
    var artifactPath := ArtifactPath(plugin.root, name);
    var forge := WritingForge(artifactPath);
    var parse := EmptyContractParse();
    EmptyContractArtifact();
    assert SourcePath(plugin.root, name) != artifactPath;
    assert SourceDir(plugin.root) != artifactPath && plugin.root != artifactPath;
    r := plugin.Visit(TaggedTemplate(Identifier(TagName), [Snippet]), forge, parse);
  }

  /** Declaring the plugin with no options sets up the default project under `tmpDir`. */
  method DeclareDefault(host: Host, tmpDir: Path, keccak: Keccak) returns (plugin: Plugin)
    requires WellFormed(host.files) && IsDir(host.files, tmpDir)
    requires !Exists(host.files, ProjectRoot(tmpDir)) || host.files[ProjectRoot(tmpDir)].Dir?
    modifies host
    ensures plugin.host == host && plugin.root == ProjectRoot(tmpDir) && plugin.keccak == keccak
    ensures IsDir(host.files, plugin.root) && IsDir(host.files, SourceDir(plugin.root))
    ensures !IsDir(host.files, SourcePath(plugin.root, ContractName(keccak, Snippet)))
  {
    EmptyOptionsResolveToDefaults();
    SetupSucceedsIff(host.files, ProjectRoot(tmpDir), DefaultSolc);
    SetupCreatesDirectories(host.files, ProjectRoot(tmpDir), DefaultSolc);
    StagingSucceedsAfterSetup(host.files, ProjectRoot(tmpDir), DefaultSolc, ContractName(keccak, Snippet), Snippet);
    var declared := Declare(host, tmpDir, map[], keccak);
    plugin := declared.value;
  }

  /** An empty snippet is rejected before anything is written or spawned. */
  method RejectEmptySnippet(plugin: Plugin, forge: Forge) returns (r: Result<Visited, PluginError>)
    modifies plugin.host
    ensures r == Err(MissingTemplateString)
    ensures unchanged(plugin.host)
  {
    r := plugin.Visit(TaggedTemplate(Identifier(TagName), [""]), forge, t => None);
  }

  /** Teardown removes the project root, and a second teardown finds nothing to remove. */
  method TeardownTwice(plugin: Plugin)
    requires IsDir(plugin.host.files, plugin.root)
    modifies plugin.host
    ensures !Exists(plugin.host.files, plugin.root)
  {
    var removed := plugin.Post();
    var again := plugin.Post();
  }

  method EmptyContractRun(host: Host, tmpDir: Path, keccak: Keccak)
    returns (first: Result<Visited, PluginError>, second: Result<Visited, PluginError>)
    requires WellFormed(host.files) && IsDir(host.files, tmpDir)
    requires !Exists(host.files, ProjectRoot(tmpDir)) || host.files[ProjectRoot(tmpDir)].Dir?
    modifies host
    ensures first == Ok(Compiled(Artifact([], Bytecode("0x", ""))))
    ensures second == first
    ensures !Exists(host.files, ProjectRoot(tmpDir))
  {
    var plugin := DeclareDefault(host, tmpDir, keccak);
    first := CompileEmptyContract(plugin);
    // the staged file is a file, so staging the same snippet again succeeds
    second := CompileEmptyContract(plugin);
    var empty := RejectEmptySnippet(plugin, WritingForge([]));
    TeardownTwice(plugin);
  }
}
