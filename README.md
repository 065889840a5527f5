# babel-plugin-sol, modelled in Dafny

`babel-plugin-sol` is a Babel plugin that compiles Solidity embedded in
TypeScript as `` tsSol`...` `` tagged template literals. When the plugin is
instantiated it resolves its options (`solc`, the compiler version, and
`forgeExecutable`). It then recreates a throwaway forge project,
`__ts-sol-forge-project__`, in the temp directory. For every `tsSol` template it
meets, it:

- names the contract `TsSolScript_` followed by 8 hex digits of the keccak digest of the snippet;
- writes the snippet to `src/<name>.sol`;
- runs `<forgeExecutable> build` in the project;
- reads `dist/<source path>/<name>.json`;
- validates that file against the artifact schema.

The `post` hook deletes the project.

The model has one module per part of the pipeline:

- `Wrappers`, `JsonValues`: `Result`/`Option` for thrown errors, and parsed JSON values.
- `FileSystem`: the Node `fs` calls the plugin makes (`existsSync`, `rmdirSync` with
  `recursive`, `mkdirSync`, `writeFileSync`, `readFileSync`). They work over a map from
  absolute paths (lists of segments) to files and directories, and throw Node's error codes.
- `Errors`: everything the plugin throws.
- `PluginOptions`: the `^\d+\.\d+\.\d+$` check, as the automaton of the pattern, proved
  equal to a reference reading (three digit runs cut by two dots). Also the zod options schema with its defaults.
- `Naming`: the content-addressed contract name.
- `ForgeProject`: the project layout, `foundry.toml`, the setup and teardown steps as
  functions of the filesystem, and the lemmas about them.
- `Artifacts`: the artifact schema as a parser over parsed JSON, with its inverse.
- `BabelPluginSol`: the imperative plugin:
  - a `Host` object holding the machine's files and the log of spawned processes;
  - the factory `Declare`;
  - a `Plugin` class whose `Setup`, `Post` and `Visit` methods change the host step by step.
- `Scenarios`: a whole run of the plugin on a concrete snippet, from declaration to teardown,
  proved from the method contracts alone.

The outside world enters as parameters:

- `os.tmpdir()` is a path.
- keccak256 of the snippet's UTF-8 bytes is a function to a 66-character `"0x"` + lower-case hex string.
  It is given to `Declare` and kept by the plugin, so every visit uses the same one.
- `execSync` running forge is a function from the invocation (command line, working directory,
  files it sees) to an exit status and the files it leaves.
- `JSON.parse` is a function from text to an optional parsed document.

## Model

| member | source | states |
|---|---|---|
| `PluginOptions.IsSolidityVersion` | packages/babel-plugin-sol/src/index.ts:13-16 | `isSolidityVersion`: the automaton of the anchored pattern, one digit run then a dot, twice, then a final digit run to the end of the string. What it accepts is characterised by `SolidityVersionIffCut` |
| `PluginOptions.SolidityVersionIffCut` | packages/babel-plugin-sol/src/index.ts:13-16 | the anchored version test accepts a string exactly when two dots cut it into three non-empty runs of ASCII digits |
| `PluginOptions.MatchedVersionHasCut` | packages/babel-plugin-sol/src/index.ts:13-16 | every accepted version has such a cut |
| `PluginOptions.CutVersionIsMatched` | packages/babel-plugin-sol/src/index.ts:13-16 | every string with such a cut is accepted |
| `PluginOptions.VersionExamples` | packages/babel-plugin-sol/src/index.ts:10-16 | "0.8.17" is accepted; "8.17", "1.2", "abc", "0.8.17x" and "" are rejected |
| `PluginOptions.ResolveOptions` | packages/babel-plugin-sol/src/index.ts:21-33 | options resolve exactly when `solc` is absent or a valid version string and `forgeExecutable` is absent or a string. An absent `solc` gives "0.8.17" and an absent `forgeExecutable` gives "forge"; present values are kept. Any other input gives the invalid-options error. The resolved `solc` is always a valid version |
| `PluginOptions.EmptyOptionsResolveToDefaults` | packages/babel-plugin-sol/src/index.ts:21-33 | no options resolve to `solc` "0.8.17" and `forgeExecutable` "forge" |
| `PluginOptions.UnknownOptionsIgnored` | packages/babel-plugin-sol/src/index.ts:21-33 | keys other than `solc` and `forgeExecutable` do not affect resolution |
| `FileSystem.Exists` | packages/babel-plugin-sol/src/index.ts:86 | `existsSync`, also at line 99: a path exists when it holds a file or a directory |
| `FileSystem.RemoveRecursive` | packages/babel-plugin-sol/src/index.ts:87 | recursive removal succeeds exactly on a directory; afterwards nothing at or below it remains and everything else is unchanged |
| `FileSystem.MakeDir` | packages/babel-plugin-sol/src/index.ts:89 | non-recursive mkdir succeeds exactly when the path is new and its parent is a directory; it adds that directory and nothing else; an existing path throws EEXIST |
| `FileSystem.WriteFile` | packages/babel-plugin-sol/src/index.ts:153-155 | the write succeeds exactly when the target is not a directory and its parent is one; reading the target back yields the written text, and no other entry changes |
| `FileSystem.ReadFile` | packages/babel-plugin-sol/src/index.ts:175-177 | a read succeeds exactly on a file and yields its content; a missing path throws ENOENT |
| `FileSystem.RewriteIsNoOp` | packages/babel-plugin-sol/src/index.ts:153-155 | writing the same snippet to the same path again leaves the filesystem as the first write left it |
| `Naming.JsSlice` | packages/babel-plugin-sol/src/index.ts:147 | `slice` with bounds inside the string is the plain substring; reversed bounds give "" |
| `Naming.ContractName` | packages/babel-plugin-sol/src/index.ts:145-147 | the name has length 20. It is "TsSolScript_" followed by the 8 digest characters after "0x", all lower-case hex, so it is an identifier that starts with a letter |
| `Naming.SameNameIffSameDigestPrefix` | packages/babel-plugin-sol/src/index.ts:145-147 | two snippets get the same name exactly when their digests agree on those 8 characters |
| `ForgeProject.ProjectRoot` | packages/babel-plugin-sol/src/index.ts:73-77 | the project root is the directory `__ts-sol-forge-project__` directly inside the temp directory |
| `ForgeProject.FoundryToml` | packages/babel-plugin-sol/src/index.ts:79-85 | the manifest template: a leading line break, the `[project]` table with the fixed name, `src = "src"`, `out = "dist"` and `solc = <solc>` unquoted; its place in the project is stated by `SetupLeavesFreshProject` |
| `ForgeProject.SetupFiles` | packages/babel-plugin-sol/src/index.ts:86-91 | the factory's filesystem steps in order: remove an existing project, make the root, write `foundry.toml`, make `src`; the first throw ends it. `SetupSucceedsIff`, `SetupFailureCauses` and `SetupLeavesFreshProject` state its outcomes |
| `ForgeProject.RemoveIfExists` | packages/babel-plugin-sol/src/index.ts:98-102 | an absent root leaves the filesystem unchanged. Removal throws only when the root is a file. Afterwards the root is gone; on a well-formed filesystem nothing below it remains and nothing else changes |
| `ForgeProject.SetupSucceedsIff` | packages/babel-plugin-sol/src/index.ts:73-91 | setup succeeds exactly when the temp directory is a directory and the project path is not a file |
| `ForgeProject.SetupFailureCauses` | packages/babel-plugin-sol/src/index.ts:86-91 | setup throws ENOENT exactly when the temp directory is missing. It throws ENOTDIR exactly when the temp directory or the project path is a file. When the temp directory is not a directory there is no project to remove |
| `ForgeProject.SetupLeavesFreshProject` | packages/babel-plugin-sol/src/index.ts:79-91 | after setup the project holds exactly the root, `foundry.toml` with the fixed `[project]` text and `solc = <solc>`, and an empty `src`. No stale file survives, nothing outside the project changes, and the filesystem stays a tree |
| `ForgeProject.SetupCreatesDirectories` | packages/babel-plugin-sol/src/index.ts:86-91 | after a successful setup the project root and its `src` are directories |
| `ForgeProject.TeardownIdempotent` | packages/babel-plugin-sol/src/index.ts:98-102 | running the `post` removal a second time has the same result as running it once |
| `ForgeProject.SourcePath` | packages/babel-plugin-sol/src/index.ts:148-152 | the staged file is `<name>.sol` directly inside `src`, inside the project, and never `foundry.toml` |
| `ForgeProject.ArtifactPath` | packages/babel-plugin-sol/src/index.ts:167-172 | the artifact is `<name>.json` in the whole absolute source path nested under `dist`, so it lies inside `dist` and never inside `src` |
| `ForgeProject.PathsSeparateNames` | packages/babel-plugin-sol/src/index.ts:145-172 | distinct contract names give distinct source paths and distinct artifact paths |
| `ForgeProject.StagingSucceedsAfterSetup` | packages/babel-plugin-sol/src/index.ts:86-91 | right after a successful setup, staging any snippet succeeds |
| `ForgeProject.StagingFailsAfterTeardown` | packages/babel-plugin-sol/src/index.ts:98-102 | once `post` has removed the project, staging throws ENOENT |
| `Artifacts.ParseArtifact` | packages/babel-plugin-sol/src/index.ts:38-44 | a document is accepted exactly when some artifact describes it: an object whose `abi` is an array and whose `bytecode` holds string `object` and `sourceMap`. The result carries those values, and a rejection is the invalid-artifact error |
| `Artifacts.ParseArtifactRoundTrip` | packages/babel-plugin-sol/src/index.ts:38-44 | parsing the JSON form of an artifact gives back that artifact |
| `Artifacts.UnknownKeysIgnored` | packages/babel-plugin-sol/src/index.ts:38-44 | top-level keys other than `abi` and `bytecode` do not affect parsing |
| `Artifacts.MissingObjectRejected` | packages/babel-plugin-sol/src/index.ts:40-43 | a `bytecode` without a string `object` is rejected |
| `Artifacts.NonArrayAbiRejected` | packages/babel-plugin-sol/src/index.ts:39 | an `abi` that is not an array is rejected |
| `Artifacts.EmptyContractArtifact` | packages/babel-plugin-sol/src/index.ts:38-44 | `{"abi":[],"bytecode":{"object":"0x","sourceMap":""}}` parses to that artifact unchanged |
| `BabelPluginSol.IsTsSolTag` | packages/babel-plugin-sol/src/index.ts:115 | the tag is the identifier `tsSol`; any other identifier or kind of expression is not; `Plugin.Visit` leaves those alone |
| `BabelPluginSol.ReadArtifact` | packages/babel-plugin-sol/src/index.ts:167-179 | the artifact is returned exactly when the file exists, its text parses and the document meets the schema. A missing file throws ENOENT, unparsable text throws a syntax error, a schema failure throws the invalid-artifact error, and the result is what the document describes |
| `BabelPluginSol.Host.constructor` | packages/babel-plugin-sol/src/index.ts:86-91 | `Host` stands for the state behind the `fs` and `child_process` modules, which the plugin uses at these lines and at 99-101, 153-155, 160-162 and 175-177; the machine starts with the given files and no spawned process |
| `BabelPluginSol.Plugin.constructor` | packages/babel-plugin-sol/src/index.ts:60-64 | the plugin captures the host, the project root, the resolved options and the keccak function, which every visit then uses |
| `BabelPluginSol.Plugin.Setup` | packages/babel-plugin-sol/src/index.ts:86-91 | the files become the setup result. On a throw, nothing on the host changes. No process is spawned |
| `BabelPluginSol.Plugin.Post` | packages/babel-plugin-sol/src/index.ts:98-102 | the files become the removal result, or stay unchanged when removal throws. No process is spawned |
| `BabelPluginSol.Plugin.Visit` | packages/babel-plugin-sol/src/index.ts:107-182 | see the breakdown after this table |
| `BabelPluginSol.Declare` | packages/babel-plugin-sol/src/index.ts:54-92 | invalid options throw the invalid-options error before any filesystem effect. Otherwise the fresh plugin holds the resolved options, the given keccak function and the project under the temp directory, and the files are the setup result; a setup throw leaves the host unchanged |
| `Scenarios.DeclareDefault` | packages/babel-plugin-sol/src/index.ts:54-92 | declaring with no options on a temp directory with no file in the project's place gives a plugin for that project, with the root and `src` as directories and the staging path free |
| `Scenarios.CompileEmptyContract` | packages/babel-plugin-sol/src/index.ts:140-179 | compiling `contract C {}` returns the empty contract's artifact when the build writes that artifact's JSON text at the artifact path and `JSON.parse` accepts only that text: the text the build wrote is the text read and parsed. The snippet stays staged and the project directories remain |
| `Scenarios.RejectEmptySnippet` | packages/babel-plugin-sol/src/index.ts:140-144 | an empty snippet throws the missing-template error with the host unchanged, whatever the build would do |
| `Scenarios.TeardownTwice` | packages/babel-plugin-sol/src/index.ts:98-102 | two `post` runs after setup leave no project behind |
| `Scenarios.EmptyContractRun` | packages/babel-plugin-sol/src/index.ts:54-182 | a whole run: declare, compile the same snippet twice with the same artifact both times, reject an empty snippet, tear down twice, and the project is gone |

What `Plugin.Visit` promises:

- A tag other than the identifier `tsSol` returns with the host unchanged.
- A missing or empty first raw string throws before anything is written or spawned.
- A failed staging write throws with nothing spawned.
- Otherwise exactly one `<forgeExecutable> build` is spawned in the project root.
- That build sees the snippet verbatim at `src/<name>.sol`, and nothing else changed.
- The files are what the build left.
- A non-zero exit throws. Otherwise the artifact read, parsed and checked is returned, or its error thrown.

## Left out

- Logging (`console.log`, `console.error`), Babel's `api.assertVersion`, and the tree walk
  that calls the visitor. The visitor is called once per tagged template by whoever drives it.
- The commented-out handling of template interpolation. Only the first raw string is used, as in the code.
- keccak256 and the UTF-8 encoding of the snippet. They are a function the plugin is declared with, constrained only to
  return "0x" and 64 lower-case hex digits. Collision resistance is not modelled.
- What forge does. The build is an arbitrary function of its invocation; its effect on the
  files is whatever that function returns. How the shell splits the command line is not modelled.
- `JSON.parse` text parsing, and zod's error reports. Parsing is a function parameter;
  a schema failure is one error value. JSON numbers are reals, not IEEE doubles.
- Filesystem details:
  - permissions, disk errors and symbolic links;
  - an error code other than the four modelled;
  - ENOTDIR for a file further up the path: the model reports ENOENT there;
  - the Node version in which `rmdirSync` with `recursive` ignores `recursive`: the model follows Node 16, which removes recursively and throws ENOTDIR on a file.
- How `path.join` normalises `.` and `..`. Paths are lists of segments, and joining is concatenation.
- A build that exits 0 succeeds even if forge writes to stderr; `execSync` throws only on a non-zero exit.
- The project is created synchronously in the plugin factory (`Declare`).
- Teardown is Babel's `post` hook. `Plugin.Post` may run between visits, and
  `StagingFailsAfterTeardown` shows that a later visit then throws ENOENT.
- Error messages do not name the contract. Errors are values of `PluginError`; the two messages
  the plugin writes itself (index.ts:67 and 143) are noted beside their constructors, not modelled as strings.
- The plugin object's `name: 'ts-sol'` field: it is a constant Babel reads and plays no part in the behaviour.
- Plugin.Visit: returns the validated artifact, which the source only logs (index.ts:181) before
  returning `undefined`; the returned value stands for what is logged.
