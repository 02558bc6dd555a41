/**
 * `CodexCommandBuilder`: turns a task and a configuration into the single
 * `codex exec` command line handed to the process executor.
 */
module CommandBuilder {
  import opened Wrappers
  import opened Text
  import opened SandboxModes
  import opened ExecConfig
  import LineSplit

  /** The characters whose presence makes `escapeArg` wrap its argument in double quotes. */
  predicate IsSpecial(c: char) {
    c == ' ' || c == '"' || c == '\\' || c == '\'' || c == '$' || c == '`'
    || c == '!' || c == '*' || c == '?' || c == '[' || c == ']' || c == '{' || c == '}'
    || c == '(' || c == ')' || c == '<' || c == '>' || c == '|' || c == '&' || c == ';'
    || c == '\n' || c == '\t' || c == '\r'
  }

  /** `arg.any { ... }` over the special characters. */
  predicate NeedsQuoting(arg: string) {
    exists i :: 0 <= i < |arg| && IsSpecial(arg[i])
  }

  /** The inside of a quoted argument in one pass: `\` becomes `\\`, `"` becomes `\"`. */
  function EscapeChars(s: string): (r: string)
    ensures '\\' !in s && '"' !in s ==> r == s
  {
    if s == [] then [] else EscapeChar(s[0]) + EscapeChars(s[1..])
  }

  /** Escaping adds one character for each backslash and each quote, and no other. */
  lemma {:induction false} EscapeCharsLength(s: string)
    ensures |EscapeChars(s)| == |s| + multiset(s)['\\'] + multiset(s)['"']
  {
    if s != [] {
      assert s == [s[0]] + s[1..];
      EscapeCharsLength(s[1..]);
    }
  }

  function EscapeChar(c: char): string {
    if c == '\\' then "\\\\" else if c == '"' then "\\\"" else [c]
  }

  /**
   * `escapeArg`: the empty argument becomes `""`; an argument with a special character is
   * wrapped in double quotes after doubling every backslash and then escaping every quote;
   * any other argument is passed through.
   */
  function EscapeArg(arg: string): (r: string)
    ensures arg == [] ==> r == "\"\""
    ensures arg != [] && !NeedsQuoting(arg) ==> r == arg
    ensures NeedsQuoting(arg) ==> r == "\"" + EscapeChars(arg) + "\""
    ensures r != []
  {
    if arg == [] then "\"\""
    else if NeedsQuoting(arg) then
      TwoPassEscape(arg);
      "\"" + ReplaceChar(ReplaceChar(arg, '\\', "\\\\"), '"', "\\\"") + "\""
    else arg
  }

  /** Replacing backslashes first and quotes second is the one-pass escape. */
  lemma {:induction false} TwoPassEscape(s: string)
    ensures ReplaceChar(ReplaceChar(s, '\\', "\\\\"), '"', "\\\"") == EscapeChars(s)
  {
    if s != [] {
      var head := if s[0] == '\\' then "\\\\" else [s[0]];
      assert ReplaceChar(s, '\\', "\\\\") == head + ReplaceChar(s[1..], '\\', "\\\\");
      ReplaceCharAppend(head, ReplaceChar(s[1..], '\\', "\\\\"), '"', "\\\"");
      assert ReplaceChar(head, '"', "\\\"") == EscapeChar(s[0]) by {
        if s[0] == '\\' {
          assert ReplaceChar("\\", '"', "\\\"") == "\\";
        } else {
          assert ReplaceChar(head, '"', "\\\"") == (if s[0] == '"' then "\\\"" else [s[0]]) + ReplaceChar([], '"', "\\\"");
        }
      }
      TwoPassEscape(s[1..]);
    }
  }

  /** `--image <escaped path>` for each image, in list order. */
  function ImageTokens(images: seq<string>): (ts: seq<string>)
    ensures |ts| == 2 * |images|
    ensures forall i :: 0 <= i < |images| ==> ts[2 * i] == "--image" && ts[2 * i + 1] == EscapeArg(images[i])
  {
    if images == [] then [] else ["--image", EscapeArg(images[0])] + ImageTokens(images[1..])
  }

  lemma {:induction false} ImageTokensAppend(images: seq<string>, p: string)
    ensures ImageTokens(images + [p]) == ImageTokens(images) + ["--image", EscapeArg(p)]
  {
    if images != [] {
      assert (images + [p])[1..] == images[1..] + [p];
      ImageTokensAppend(images[1..], p);
    } else {
      assert images + [p] == [p];
    }
  }

  /** A flag followed by its escaped value when the value is set, nothing otherwise. */
  function OptionTokens(flag: string, value: Option<string>): seq<string> {
    match value
    case Some(v) => [flag, EscapeArg(v)]
    case None => []
  }

  function SandboxTokens(sandbox: Option<SandboxMode>): seq<string> {
    match sandbox
    case Some(m) => ["--sandbox", Value(m)]
    case None => []
  }

  /** No wire value holds a character `escapeArg` would quote, so writing it unescaped writes what escaping would. */
  lemma SandboxValueUnquoted(m: SandboxMode)
    ensures !NeedsQuoting(Value(m))
    ensures EscapeArg(Value(m)) == Value(m)
  {
    match m {
      case ReadOnly => assert !NeedsQuoting("read-only");
      case WorkspaceWrite => assert !NeedsQuoting("workspace-write");
      case DangerFullAccess => assert !NeedsQuoting("danger-full-access");
    }
  }

  /** The tokens of the command line, in the builder's fixed order. */
  function CommandTokens(task: string, config: CodexExecConfig): (r: seq<string>)
    ensures |r| >= 6 && r[..5] == ["codex", "exec", "--json", "--cd", EscapeArg(config.workingDirectory)]
    ensures r[|r| - 1] == EscapeArg(task)
  {
    ["codex", "exec", "--json", "--cd", EscapeArg(config.workingDirectory)]
    + (if config.fullAuto then ["--full-auto"] else [])
    + SandboxTokens(config.sandbox)
    + OptionTokens("--output-last-message", config.outputLastMessage)
    + OptionTokens("--output-schema", config.outputSchema)
    + (if config.skipGitRepoCheck then ["--skip-git-repo-check"] else [])
    + ImageTokens(config.images)
    + OptionTokens("--session", config.session)
    + [EscapeArg(task)]
  }

  /** The image loop of `build`: one `--image` flag and escaped path per image, in order. */
  method AppendImages(tokens: seq<string>, images: seq<string>) returns (out: seq<string>)
    ensures out == tokens + ImageTokens(images)
  {
    out := tokens;
    for k := 0 to |images|
      invariant out == tokens + ImageTokens(images[..k])
    {
      ImageTokensAppend(images[..k], images[k]);
      assert images[..k + 1] == images[..k] + [images[k]];
      LineSplit.AppendAssoc(tokens, ImageTokens(images[..k]), ["--image", EscapeArg(images[k])]);
      out := out + ["--image", EscapeArg(images[k])];
    }
    assert images[..|images|] == images;
  }

  /** `build`: appends the tokens one by one and joins them with single spaces. */
  method Build(task: string, config: CodexExecConfig) returns (line: string)
    ensures line == JoinWith(CommandTokens(task, config), " ")
  {
    var tokens: seq<string> := ["codex", "exec", "--json", "--cd", EscapeArg(config.workingDirectory)];
    ghost var expected := tokens;
    if config.fullAuto {
      tokens := tokens + ["--full-auto"];
    }
    expected := expected + (if config.fullAuto then ["--full-auto"] else []);
    assert tokens == expected;
    if config.sandbox.Some? {
      tokens := tokens + ["--sandbox", Value(config.sandbox.value)];
    }
    expected := expected + SandboxTokens(config.sandbox);
    assert tokens == expected;
    if config.outputLastMessage.Some? {
      tokens := tokens + ["--output-last-message", EscapeArg(config.outputLastMessage.value)];
    }
    expected := expected + OptionTokens("--output-last-message", config.outputLastMessage);
    assert tokens == expected;
    if config.outputSchema.Some? {
      tokens := tokens + ["--output-schema", EscapeArg(config.outputSchema.value)];
    }
    expected := expected + OptionTokens("--output-schema", config.outputSchema);
    assert tokens == expected;
    if config.skipGitRepoCheck {
      tokens := tokens + ["--skip-git-repo-check"];
    }
    expected := expected + (if config.skipGitRepoCheck then ["--skip-git-repo-check"] else []);
    assert tokens == expected;
    tokens := AppendImages(tokens, config.images);
    expected := expected + ImageTokens(config.images);
    if config.session.Some? {
      tokens := tokens + ["--session", EscapeArg(config.session.value)];
    }
    expected := expected + OptionTokens("--session", config.session);
    assert tokens == expected;
    tokens := tokens + [EscapeArg(task)];
    expected := expected + [EscapeArg(task)];
    assert expected == CommandTokens(task, config);
    line := JoinWith(tokens, " ");
  }

  /** A configuration with only the working directory set gives the tokens of `codex exec --json --cd <dir> --skip-git-repo-check <task>`. */
  lemma DefaultCommandExample()
    ensures CommandTokens("分析项目", DefaultConfig("/test/project"))
         == ["codex", "exec", "--json", "--cd", "/test/project", "--skip-git-repo-check", "分析项目"]
  {
    assert !NeedsQuoting("/test/project");
    assert !NeedsQuoting("分析项目");
  }

}
