/** The agent's sandbox permission level, with the wire value the agent's command line uses. */
module SandboxModes {
  import opened Text

  datatype SandboxMode = ReadOnly | WorkspaceWrite | DangerFullAccess

  /** The declaration order of the enum entries (`SandboxMode.entries`). */
  const Entries: seq<SandboxMode> := [ReadOnly, WorkspaceWrite, DangerFullAccess]

  /** The wire value (`value`), which `toString` also returns. */
  function Value(m: SandboxMode): string {
    match m
    case ReadOnly => "read-only"
    case WorkspaceWrite => "workspace-write"
    case DangerFullAccess => "danger-full-access"
  }

  /** The enum constant's own name (`name`). */
  function Name(m: SandboxMode): string {
    match m
    case ReadOnly => "READ_ONLY"
    case WorkspaceWrite => "WORKSPACE_WRITE"
    case DangerFullAccess => "DANGER_FULL_ACCESS"
  }

  /** `toString()`: the wire value. */
  function ToString(m: SandboxMode): (s: string)
    ensures s == Value(m)
    ensures s in {"read-only", "workspace-write", "danger-full-access"}
  {
    Value(m)
  }

  /** The entries list every mode exactly once. */
  lemma EntriesComplete(m: SandboxMode)
    ensures m in Entries
    ensures |Entries| == 3
    ensures forall i, j :: 0 <= i < j < |Entries| ==> Entries[i] != Entries[j]
  {
  }

  /**
   * Distinct modes have wire values and names of distinct lengths, so no text equals two of
   * them even ignoring case, and a lookup by value or name finds at most one.
   */
  lemma ValuesDistinct(m: SandboxMode, n: SandboxMode)
    requires m != n
    ensures |Value(m)| == |Name(m)| && |Value(m)| != |Value(n)|
    ensures !EqualsIgnoreCase(Value(m), Value(n))
    ensures !EqualsIgnoreCase(Name(m), Name(n))
    ensures !EqualsIgnoreCase(Value(m), Name(n))
  {
  }
}
