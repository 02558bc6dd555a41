/**
 * `CodexExecConfigBuilder` and the `codexConfig { ... }` entry point: a mutable builder
 * whose setters overwrite one field each (images accumulate) and whose `build` insists
 * on a working directory.
 */
module ConfigBuilder {
  import opened Wrappers
  import opened SandboxModes
  import opened ExecConfig

  /** The values of the builder's fields at one moment. */
  datatype BuilderState = BuilderState(
    workingDirectory: Option<string>,
    fullAuto: bool,
    sandbox: Option<SandboxMode>,
    outputLastMessage: Option<string>,
    outputSchema: Option<string>,
    skipGitRepoCheck: bool,
    session: Option<string>,
    images: seq<string>)

  /** A fresh builder: nothing set, the Git check skipped, no images. */
  const Fresh := BuilderState(None, false, None, None, None, true, None, [])

  /** What `build` returns for a builder in state `s`, or the message it throws. */
  function BuildFrom(s: BuilderState): Result<CodexExecConfig> {
    match s.workingDirectory
    case None => Err("workingDirectory is required")
    case Some(dir) =>
      Ok(CodexExecConfig(dir, s.fullAuto, s.sandbox, s.outputLastMessage, s.outputSchema,
                         s.skipGitRepoCheck, s.session, s.images))
  }

  class CodexExecConfigBuilder {
    var workingDirectory: Option<string>
    var fullAuto: bool
    var sandbox: Option<SandboxMode>
    var outputLastMessage: Option<string>
    var outputSchema: Option<string>
    var skipGitRepoCheck: bool
    var session: Option<string>
    var images: seq<string>

    function State(): BuilderState
      reads this
    {
      BuilderState(workingDirectory, fullAuto, sandbox, outputLastMessage, outputSchema,
                   skipGitRepoCheck, session, images)
    }

    constructor()
      ensures State() == Fresh
    {
      workingDirectory := None;
      fullAuto := false;
      sandbox := None;
      outputLastMessage := None;
      outputSchema := None;
      skipGitRepoCheck := true;
      session := None;
      images := [];
    }

    method WorkingDirectory(path: string)
      modifies this
      ensures State() == old(State()).(workingDirectory := Some(path))
    {
      workingDirectory := Some(path);
    }

    method FullAuto()
      modifies this
      ensures State() == old(State()).(fullAuto := true)
    {
      fullAuto := true;
    }

    method Sandbox(mode: SandboxMode)
      modifies this
      ensures State() == old(State()).(sandbox := Some(mode))
    {
      sandbox := Some(mode);
    }

    method DangerFullAccess()
      modifies this
      ensures State() == old(State()).(sandbox := Some(SandboxModes.DangerFullAccess))
    {
      sandbox := Some(SandboxModes.DangerFullAccess);
    }

    method OutputLastMessage(path: string)
      modifies this
      ensures State() == old(State()).(outputLastMessage := Some(path))
    {
      outputLastMessage := Some(path);
    }

    method OutputSchema(path: string)
      modifies this
      ensures State() == old(State()).(outputSchema := Some(path))
    {
      outputSchema := Some(path);
    }

    /** `skipGitRepoCheck()`. */
    method SkipGitRepoCheck()
      modifies this
      ensures State() == old(State()).(skipGitRepoCheck := true)
    {
      skipGitRepoCheck := true;
    }

    /** `skipGitRepoCheck(skip)`. */
    method SetSkipGitRepoCheck(skip: bool)
      modifies this
      ensures State() == old(State()).(skipGitRepoCheck := skip)
    {
      skipGitRepoCheck := skip;
    }

    method DoGitRepoCheck()
      modifies this
      ensures State() == old(State()).(skipGitRepoCheck := false)
    {
      skipGitRepoCheck := false;
    }

    method Session(id: string)
      modifies this
      ensures State() == old(State()).(session := Some(id))
    {
      session := Some(id);
    }

    /** `image(path)`: appends, so every call's path is kept in call order. */
    method Image(path: string)
      modifies this
      ensures State() == old(State()).(images := old(images) + [path])
    {
      images := images + [path];
    }

    /** `build`: the configuration, or the `IllegalStateException` message without a working directory. */
    method Build() returns (r: Result<CodexExecConfig>)
      ensures r == BuildFrom(State())
      ensures r.Err? <==> workingDirectory.None?
    {
      if workingDirectory.None? {
        return Err("workingDirectory is required");
      }
      r := Ok(CodexExecConfig(workingDirectory.value, fullAuto, sandbox, outputLastMessage,
                              outputSchema, skipGitRepoCheck, session, images));
    }
  }

  // ---------------------------------------------------------------- the DSL block

  /** One call a `codexConfig { ... }` block makes on its builder. */
  datatype BuilderCall =
    | CallWorkingDirectory(path: string)
    | CallFullAuto
    | CallSandbox(mode: SandboxMode)
    | CallDangerFullAccess
    | CallOutputLastMessage(path: string)
    | CallOutputSchema(path: string)
    | CallSkipGitRepoCheck
    | CallSetSkipGitRepoCheck(skip: bool)
    | CallDoGitRepoCheck
    | CallSession(id: string)
    | CallImage(path: string)

  /** The state after one call, as the setter methods state it. */
  function Apply(s: BuilderState, call: BuilderCall): BuilderState {
    match call
    case CallWorkingDirectory(p) => s.(workingDirectory := Some(p))
    case CallFullAuto => s.(fullAuto := true)
    case CallSandbox(m) => s.(sandbox := Some(m))
    case CallDangerFullAccess => s.(sandbox := Some(DangerFullAccess))
    case CallOutputLastMessage(p) => s.(outputLastMessage := Some(p))
    case CallOutputSchema(p) => s.(outputSchema := Some(p))
    case CallSkipGitRepoCheck => s.(skipGitRepoCheck := true)
    case CallSetSkipGitRepoCheck(b) => s.(skipGitRepoCheck := b)
    case CallDoGitRepoCheck => s.(skipGitRepoCheck := false)
    case CallSession(id) => s.(session := Some(id))
    case CallImage(p) => s.(images := s.images + [p])
  }

  /** The state of a fresh builder after `calls`, in order. */
  function ApplyAll(calls: seq<BuilderCall>): BuilderState
    decreases |calls|
  {
    if calls == [] then Fresh else Apply(ApplyAll(calls[..|calls| - 1]), calls[|calls| - 1])
  }

  /** What `codexConfig` returns for a block making `calls`. */
  function ConfigFromCalls(calls: seq<BuilderCall>): Result<CodexExecConfig> {
    BuildFrom(ApplyAll(calls))
  }

  /** `codexConfig { ... }`: a new builder, the block's calls applied to it, then `build`. */
  method CodexConfig(calls: seq<BuilderCall>) returns (r: Result<CodexExecConfig>)
    ensures r == ConfigFromCalls(calls)
  {
    var b := new CodexExecConfigBuilder();
    for i := 0 to |calls|
      invariant b.State() == ApplyAll(calls[..i])
    {
      assert calls[..i + 1][..i] == calls[..i];
      match calls[i]
      case CallWorkingDirectory(p) => b.WorkingDirectory(p);
      case CallFullAuto => b.FullAuto();
      case CallSandbox(m) => b.Sandbox(m);
      case CallDangerFullAccess => b.DangerFullAccess();
      case CallOutputLastMessage(p) => b.OutputLastMessage(p);
      case CallOutputSchema(p) => b.OutputSchema(p);
      case CallSkipGitRepoCheck => b.SkipGitRepoCheck();
      case CallSetSkipGitRepoCheck(skip) => b.SetSkipGitRepoCheck(skip);
      case CallDoGitRepoCheck => b.DoGitRepoCheck();
      case CallSession(id) => b.Session(id);
      case CallImage(p) => b.Image(p);
    }
    assert calls[..|calls|] == calls;
    r := b.Build();
  }

  // ---------------------------------------------------------------- what a block builds

  /** What each call sets, field by field (`None` when the call leaves the field alone). */
  function DirectoryOf(c: BuilderCall): Option<string> {
    if c.CallWorkingDirectory? then Some(c.path) else None
  }

  function FullAutoOf(c: BuilderCall): Option<bool> {
    if c.CallFullAuto? then Some(true) else None
  }

  function SandboxOf(c: BuilderCall): Option<SandboxMode> {
    match c
    case CallSandbox(m) => Some(m)
    case CallDangerFullAccess => Some(DangerFullAccess)
    case _ => None
  }

  function OutputLastMessageOf(c: BuilderCall): Option<string> {
    if c.CallOutputLastMessage? then Some(c.path) else None
  }

  function OutputSchemaOf(c: BuilderCall): Option<string> {
    if c.CallOutputSchema? then Some(c.path) else None
  }

  function SkipOf(c: BuilderCall): Option<bool> {
    match c
    case CallSkipGitRepoCheck => Some(true)
    case CallSetSkipGitRepoCheck(b) => Some(b)
    case CallDoGitRepoCheck => Some(false)
    case _ => None
  }

  function SessionOf(c: BuilderCall): Option<string> {
    if c.CallSession? then Some(c.id) else None
  }

  function ImageOf(c: BuilderCall): Option<string> {
    if c.CallImage? then Some(c.path) else None
  }

  /** The values `f` picks out of the calls, in call order. */
  function Settings<T>(calls: seq<BuilderCall>, f: BuilderCall -> Option<T>): (r: seq<T>)
    ensures |r| <= |calls|
    decreases |calls|
  {
    if calls == [] then []
    else
      var prefix := Settings(calls[..|calls| - 1], f);
      match f(calls[|calls| - 1])
      case None => prefix
      case Some(v) => prefix + [v]
  }

  /** The value of the last call that sets the field `f` picks out. */
  function LastSetting<T>(calls: seq<BuilderCall>, f: BuilderCall -> Option<T>): Option<T> {
    var vs := Settings(calls, f);
    if vs == [] then None else Some(vs[|vs| - 1])
  }

  /** The builder's state after `calls`, described field by field. */
  function Expected(calls: seq<BuilderCall>): BuilderState {
    BuilderState(
      LastSetting(calls, DirectoryOf),
      Settings(calls, FullAutoOf) != [],
      LastSetting(calls, SandboxOf),
      LastSetting(calls, OutputLastMessageOf),
      LastSetting(calls, OutputSchemaOf),
      LastSetting(calls, SkipOf).GetOr(true),
      LastSetting(calls, SessionOf),
      Settings(calls, ImageOf))
  }

  lemma SettingsSnoc<T>(calls: seq<BuilderCall>, c: BuilderCall, f: BuilderCall -> Option<T>)
    ensures Settings(calls + [c], f) == Settings(calls, f) + (if f(c).Some? then [f(c).value] else [])
  {
    assert (calls + [c])[..|calls|] == calls;
  }

  /**
   * After any block, each field holds what its last setter call gave it (its default when
   * no call set it), `fullAuto` is set when any call set it, and the images are every
   * `image` path in call order.
   */
  lemma {:induction false} ApplyAllSpec(calls: seq<BuilderCall>)
    ensures ApplyAll(calls) == Expected(calls)
    decreases |calls|
  {
    if calls != [] {
      var prefix, c := calls[..|calls| - 1], calls[|calls| - 1];
      assert calls == prefix + [c];
      ApplyAllSpec(prefix);
      ApplyStep(prefix, c);
    }
  }

  /** One more call moves the described state exactly as `Apply` moves the real one. */
  lemma {:induction false} ApplyStep(prefix: seq<BuilderCall>, c: BuilderCall)
    ensures Apply(Expected(prefix), c) == Expected(prefix + [c])
  {
    {
      SettingsSnoc(prefix, c, DirectoryOf);
      SettingsSnoc(prefix, c, FullAutoOf);
      SettingsSnoc(prefix, c, SandboxOf);
      SettingsSnoc(prefix, c, OutputLastMessageOf);
      SettingsSnoc(prefix, c, OutputSchemaOf);
      SettingsSnoc(prefix, c, SkipOf);
      SettingsSnoc(prefix, c, SessionOf);
      SettingsSnoc(prefix, c, ImageOf);
    }
  }

  /**
   * `codexConfig` fails, with the `IllegalStateException` message, exactly when the block
   * never sets a working directory; otherwise every field is its last setting.
   */
  lemma ConfigFromCallsSpec(calls: seq<BuilderCall>)
    ensures ConfigFromCalls(calls).Err? <==> Settings(calls, DirectoryOf) == []
    ensures ConfigFromCalls(calls).Err? ==> ConfigFromCalls(calls).message == "workingDirectory is required"
    ensures ConfigFromCalls(calls).Ok? ==>
      var e := Expected(calls);
      ConfigFromCalls(calls).value ==
        CodexExecConfig(e.workingDirectory.value, e.fullAuto, e.sandbox, e.outputLastMessage,
                        e.outputSchema, e.skipGitRepoCheck, e.session, e.images)
  {
    ApplyAllSpec(calls);
  }

  /** A block that only sets the working directory builds the data class's defaults. */
  lemma OnlyDirectory(dir: string)
    ensures ConfigFromCalls([CallWorkingDirectory(dir)]) == Ok(DefaultConfig(dir))
  {
    var calls := [CallWorkingDirectory(dir)];
    assert calls[..0] == [];
    assert ApplyAll(calls) == Apply(Fresh, calls[0]);
  }
}
