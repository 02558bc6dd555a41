/**
 * Reading a `codex exec` command back: a decoder for the token list `build` joins, and the
 * proof that it recovers the task and every setting of the configuration. It shows the
 * command line carries the whole configuration, in the order `build` writes it.
 */
module CommandRoundTrip {
  import opened Wrappers
  import opened SandboxModes
  import opened ExecConfig
  import opened CommandBuilder
  import CliParser
  import LineSplit

  /** The flag `f` at the front, if it is there. */
  function TakeFlag(ts: seq<string>, f: string): (bool, seq<string>) {
    if |ts| > 0 && ts[0] == f then (true, ts[1..]) else (false, ts)
  }

  /** The flag `f` and its value at the front, if they are there. */
  function TakeValue(ts: seq<string>, f: string): (Option<string>, seq<string>) {
    if |ts| > 1 && ts[0] == f then (Some(CliParser.Unquoted(ts[1])), ts[2..]) else (None, ts)
  }

  /** The mode whose wire value is exactly `v`. */
  function ModeOfValue(v: string): Option<SandboxMode> {
    if v == Value(ReadOnly) then Some(ReadOnly)
    else if v == Value(WorkspaceWrite) then Some(WorkspaceWrite)
    else if v == Value(DangerFullAccess) then Some(DangerFullAccess)
    else None
  }

  /** `--sandbox <mode>` at the front, if it is there; fails on an unknown wire value. */
  function TakeSandbox(ts: seq<string>): Option<(Option<SandboxMode>, seq<string>)> {
    if |ts| > 1 && ts[0] == "--sandbox" then
      match ModeOfValue(ts[1])
      case None => None
      case Some(m) => Some((Some(m), ts[2..]))
    else Some((None, ts))
  }

  /** Every leading `--image <path>` pair. */
  function TakeImages(ts: seq<string>): (seq<string>, seq<string>) {
    if |ts| > 1 && ts[0] == "--image" then
      var rest := TakeImages(ts[2..]);
      ([CliParser.Unquoted(ts[1])] + rest.0, rest.1)
    else ([], ts)
  }

  /** The task and configuration a command's tokens describe, if they have the shape `build` writes. */
  function ReadCommand(ts: seq<string>): Option<(string, CodexExecConfig)> {
    if |ts| < 6 || ts[..4] != ["codex", "exec", "--json", "--cd"] then None
    else
      var fullAuto := TakeFlag(ts[5..|ts| - 1], "--full-auto");
      match TakeSandbox(fullAuto.1)
      case None => None
      case Some(sandbox) =>
        var lastMessage := TakeValue(sandbox.1, "--output-last-message");
        var schema := TakeValue(lastMessage.1, "--output-schema");
        var skip := TakeFlag(schema.1, "--skip-git-repo-check");
        var images := TakeImages(skip.1);
        var session := TakeValue(images.1, "--session");
        if session.1 != [] then None
        else
          Some((CliParser.Unquoted(ts[|ts| - 1]),
                CodexExecConfig(CliParser.Unquoted(ts[4]), fullAuto.0, sandbox.0, lastMessage.0,
                                schema.0, skip.0, session.0, images.0)))
  }

  /** `ts` does not begin with the token `f`. */
  predicate NotFirst(ts: seq<string>, f: string) {
    ts == [] || ts[0] != f
  }

  lemma TakeFlagSpec(b: bool, f: string, rest: seq<string>)
    requires !b ==> NotFirst(rest, f)
    ensures TakeFlag((if b then [f] else []) + rest, f) == (b, rest)
  {
    if b {
      assert ([f] + rest)[1..] == rest;
    } else {
      assert [] + rest == rest;
    }
  }

  lemma TakeValueSpec(f: string, v: Option<string>, rest: seq<string>)
    requires v.None? ==> NotFirst(rest, f)
    ensures TakeValue(OptionTokens(f, v) + rest, f) == (v, rest)
  {
    if v.Some? {
      CliParser.QuotedValueRoundTrip(v.value);
      assert (OptionTokens(f, v) + rest)[2..] == rest;
    } else {
      assert [] + rest == rest;
    }
  }

  lemma TakeSandboxSpec(m: Option<SandboxMode>, rest: seq<string>)
    requires m.None? ==> NotFirst(rest, "--sandbox")
    ensures TakeSandbox(SandboxTokens(m) + rest) == Some((m, rest))
  {
    if m.Some? {
      assert (SandboxTokens(m) + rest)[2..] == rest;
    } else {
      assert [] + rest == rest;
    }
  }

  /** One `--image` pair at the front is read back as its image. */
  lemma TakeImagesStep(image: string, tail: seq<string>)
    ensures TakeImages(["--image", EscapeArg(image)] + tail)
         == ([image] + TakeImages(tail).0, TakeImages(tail).1)
  {
    var ts := ["--image", EscapeArg(image)] + tail;
    assert ts[0] == "--image" && ts[1] == EscapeArg(image) && ts[2..] == tail;
    CliParser.QuotedValueRoundTrip(image);
  }

  lemma {:induction false} TakeImagesSpec(images: seq<string>, rest: seq<string>)
    requires NotFirst(rest, "--image")
    ensures TakeImages(ImageTokens(images) + rest) == (images, rest)
  {
    if images == [] {
      assert [] + rest == rest;
    } else {
      var tail := ImageTokens(images[1..]) + rest;
      assert ImageTokens(images) + rest == ["--image", EscapeArg(images[0])] + tail;
      TakeImagesSpec(images[1..], rest);
      TakeImagesStep(images[0], tail);
      assert [images[0]] + images[1..] == images;
    }
  }

  /** The options of a configuration, grouped from the right so they can be read from the front. */
  function Middle(c: CodexExecConfig): seq<string> {
    (if c.fullAuto then ["--full-auto"] else [])
    + (SandboxTokens(c.sandbox)
    + (OptionTokens("--output-last-message", c.outputLastMessage)
    + (OptionTokens("--output-schema", c.outputSchema)
    + ((if c.skipGitRepoCheck then ["--skip-git-repo-check"] else [])
    + (ImageTokens(c.images)
    + OptionTokens("--session", c.session))))))
  }

  lemma MiddleShape(task: string, c: CodexExecConfig)
    ensures CommandTokens(task, c) == ["codex", "exec", "--json", "--cd", EscapeArg(c.workingDirectory)] + Middle(c) + [EscapeArg(task)]
  {
    var h := ["codex", "exec", "--json", "--cd", EscapeArg(c.workingDirectory)];
    var a := if c.fullAuto then ["--full-auto"] else [];
    var b := SandboxTokens(c.sandbox);
    var d := OptionTokens("--output-last-message", c.outputLastMessage);
    var e := OptionTokens("--output-schema", c.outputSchema);
    var g := if c.skipGitRepoCheck then ["--skip-git-repo-check"] else [];
    var i := ImageTokens(c.images);
    var j := OptionTokens("--session", c.session);
    LineSplit.AppendAssoc(i, j, []);
    LineSplit.AppendAssoc(h + a + b + d + e + g, i, j);
    LineSplit.AppendAssoc(h + a + b + d + e, g, i + j);
    LineSplit.AppendAssoc(h + a + b + d, e, g + (i + j));
    LineSplit.AppendAssoc(h + a + b, d, e + (g + (i + j)));
    LineSplit.AppendAssoc(h + a, b, d + (e + (g + (i + j))));
    LineSplit.AppendAssoc(h, a, b + (d + (e + (g + (i + j)))));
  }

  /** Reading the session pair leaves nothing. */
  lemma ReadTail(c: CodexExecConfig)
    ensures TakeValue(OptionTokens("--session", c.session), "--session") == (c.session, [])
  {
    TakeValueSpec("--session", c.session, []);
    assert OptionTokens("--session", c.session) + [] == OptionTokens("--session", c.session);
  }

  /** Reading the images, then the session. */
  lemma ReadImagesPart(c: CodexExecConfig)
    ensures var j := OptionTokens("--session", c.session);
      TakeImages(ImageTokens(c.images) + j) == (c.images, j)
  {
    TakeImagesSpec(c.images, OptionTokens("--session", c.session));
  }

  /** Every option of a configuration reads back from the token list `build` writes. */
  lemma {:induction false} ReadCommandRoundTrip(task: string, c: CodexExecConfig)
    ensures ReadCommand(CommandTokens(task, c)) == Some((task, c))
  {
    var ts := CommandTokens(task, c);
    MiddleShape(task, c);
    var h := ["codex", "exec", "--json", "--cd", EscapeArg(c.workingDirectory)];
    var m := Middle(c);
    assert ts[..4] == ["codex", "exec", "--json", "--cd"];
    assert ts[4] == EscapeArg(c.workingDirectory);
    assert ts[5..|ts| - 1] == m;
    assert ts[|ts| - 1] == EscapeArg(task);
    CliParser.QuotedValueRoundTrip(task);
    CliParser.QuotedValueRoundTrip(c.workingDirectory);

    var j := OptionTokens("--session", c.session);
    var r5 := ImageTokens(c.images) + j;
    var r4 := (if c.skipGitRepoCheck then ["--skip-git-repo-check"] else []) + r5;
    var r3 := OptionTokens("--output-schema", c.outputSchema) + r4;
    var r2 := OptionTokens("--output-last-message", c.outputLastMessage) + r3;
    var r1 := SandboxTokens(c.sandbox) + r2;
    assert m == (if c.fullAuto then ["--full-auto"] else []) + r1;

    ReadTail(c);
    ReadImagesPart(c);
    TakeFlagSpec(c.skipGitRepoCheck, "--skip-git-repo-check", r5);
    TakeValueSpec("--output-schema", c.outputSchema, r4);
    TakeValueSpec("--output-last-message", c.outputLastMessage, r3);
    TakeSandboxSpec(c.sandbox, r2);
    TakeFlagSpec(c.fullAuto, "--full-auto", r1);
  }
}
