/**
 * `statusExitCode` (Command.apple.kt): the exit code in a wait status as returned by
 * `waitpid` and `pclose`, emulating the POSIX `WIFEXITED` and `WEXITSTATUS` macros of
 * `<sys/wait.h>`: a status whose low seven bits are zero is a normal exit and carries the code
 * in bits 8 to 15; any other status (a signal) gives -1. The status, a Kotlin `Int`, is given
 * by its 32 bits; Kotlin's `shr` is arithmetic and the shift here logical, which the mask with
 * `0xff` makes alike. The process calls themselves are not part of this model; the results
 * they are packed into are.
 */
module WaitStatus {
  import opened Json

  /** Whether the status is a normal exit (`WIFEXITED`). */
  predicate Exited(status: bv32) {
    status & 0x7f == 0
  }

  function StatusExitCode(status: bv32): (code: Int32)
    ensures Exited(status) ==> code == ((status >> 8) & 0xff) as int
    ensures !Exited(status) ==> code == -1
  {
    if Exited(status) then ((status >> 8) & 0xff) as int else -1
  }

  /** The exit code is a byte, or -1 exactly for a status that is not a normal exit. */
  lemma ExitCodeRange(status: bv32)
    ensures StatusExitCode(status) == -1 || 0 <= StatusExitCode(status) <= 255
    ensures StatusExitCode(status) == -1 <==> !Exited(status)
  {
    assert (status >> 8) & 0xff <= 0xff;
  }

  /** Only the low sixteen bits of the status decide the exit code. */
  lemma LowBitsDecide(s: bv32, t: bv32)
    requires s & 0xffff == t & 0xffff
    ensures StatusExitCode(s) == StatusExitCode(t)
  {
    LowBitsDecideBits(s, t);
  }

  lemma LowBitsDecideBits(a: bv32, b: bv32)
    requires a & 0xffff == b & 0xffff
    ensures a & 0x7f == b & 0x7f
    ensures (a >> 8) & 0xff == (b >> 8) & 0xff
  {
  }

  /** The status of a process that called `exit(code)` decodes to `code`. */
  lemma NormalExitDecodes(code: bv32)
    requires code <= 0xff
    ensures Exited(code << 8)
    ensures StatusExitCode(code << 8) == code as int
  {
    ShiftBack(code);
  }

  lemma ShiftBack(c: bv32)
    requires c <= 0xff
    ensures (c << 8) & 0x7f == 0
    ensures ((c << 8) >> 8) & 0xff == c
  {
  }

  /** A process killed by a signal has no exit code, whatever the higher bits say. */
  lemma SignalledHasNoCode(signal: bv32, high: bv32)
    requires 1 <= signal <= 0x7f
    ensures StatusExitCode((high & 0xffff_ff80) | signal) == -1
  {
    SignalBits(high, signal);
  }

  lemma SignalBits(high: bv32, s: bv32)
    requires 1 <= s <= 0x7f
    ensures ((high & 0xffff_ff80) | s) & 0x7f == s
  {
  }

  /** A status whose low sixteen bits are zero is a successful exit. */
  lemma ZeroStatus(status: bv32)
    ensures status & 0xffff == 0 ==> StatusExitCode(status) == 0
  {
    if status & 0xffff == 0 {
      LowBitsDecideBits(status, 0);
    }
  }

  /** `CommandResult`: the exit code with the separate outputs. */
  datatype CommandResult = CommandResult(exitCode: Int32, stdout: string, stderr: string)

  /** `SimpleCommandResult`: the exit code with the merged output. */
  datatype SimpleCommandResult = SimpleCommandResult(exitCode: Int32, output: string)

  /** How `executeCommand` packs what `waitpid` and the two pipes gave. */
  function CommandResultOf(status: bv32, stdout: string, stderr: string): (r: CommandResult)
    ensures r.exitCode == -1 || 0 <= r.exitCode <= 255
    ensures Exited(status) <==> r.exitCode != -1
    ensures status & 0xffff == 0 ==> r.exitCode == 0
    ensures r.stdout == stdout && r.stderr == stderr
  {
    ExitCodeRange(status);
    ZeroStatus(status);
    CommandResult(StatusExitCode(status), stdout, stderr)
  }

  /** How `executeCommandSimple` packs what `pclose` and the output gave. */
  function SimpleCommandResultOf(status: bv32, output: string): (r: SimpleCommandResult)
    ensures r.exitCode == -1 || 0 <= r.exitCode <= 255
    ensures Exited(status) <==> r.exitCode != -1
    ensures status & 0xffff == 0 ==> r.exitCode == 0
    ensures r.output == output
  {
    ExitCodeRange(status);
    ZeroStatus(status);
    SimpleCommandResult(StatusExitCode(status), output)
  }
}
