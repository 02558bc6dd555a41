/** The immutable description of one `codex exec` invocation (`CodexExecConfig`). */
module ExecConfig {
  import opened Wrappers
  import opened SandboxModes

  /**
   * Every field of the source's data class. Equality of two configurations is
   * field-by-field, as for the Kotlin data class.
   */
  datatype CodexExecConfig = CodexExecConfig(
    workingDirectory: string,
    fullAuto: bool,
    sandbox: Option<SandboxMode>,
    outputLastMessage: Option<string>,
    outputSchema: Option<string>,
    skipGitRepoCheck: bool,
    session: Option<string>,
    images: seq<string>)

  /** `CodexExecConfig(workingDirectory)`: the one required field, every other at its default. */
  function DefaultConfig(workingDirectory: string): (c: CodexExecConfig)
    ensures c.workingDirectory == workingDirectory
    ensures !c.fullAuto && c.sandbox == None && c.outputLastMessage == None
    ensures c.outputSchema == None && c.session == None
    ensures c.skipGitRepoCheck
    ensures c.images == []
  {
    CodexExecConfig(workingDirectory, false, None, None, None, true, None, [])
  }
}
