/** Everything the plugin can throw, by origin. */
module Errors {
  import opened FileSystem

  datatype PluginError =
    | InvalidOptions              // the factory's 'ts-sol babel plugin options are invalid'
    | MissingTemplateString       // the visitor's 'tsSol tagged template literal must have a string'
    | Fs(error: FsError)          // a synchronous fs call threw
    | BuildFailed(status: int)    // execSync threw: the build exited with a non-zero status
    | JsonSyntaxError(path: Path) // JSON.parse rejected the artifact text
    | InvalidArtifact             // the artifact schema rejected the parsed document
}
