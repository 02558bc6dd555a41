# codex-kkp in Dafny

A model of the core of codex-kkp, a Kotlin Multiplatform wrapper around the `codex exec --json`
agent command. The model has three parts.

1. **The SDK.**
   - `CodexExecConfig` and its builder DSL.
   - `CodexCommandBuilder`, which turns a configuration and a prompt into the `codex exec`
     argument list. Every value is quoted and escaped by `escapeArg`.
   - The event and item model of the JSON-lines stream, with its polymorphic decoding by the
     `"type"` discriminator. Unknown classes fall back to `UnknownEvent` or `UnknownItem`.
   - `CodexParser`: parsing single lines and whole outputs, filtering by event class, and the
     agent-message and usage queries.
2. **The command-line tool.**
   - `CliParser`: hand-written argument parsing with quoted-value unescaping.
   - `CliResult` and its two factories.
   - `Main.kt`: the control flow and the two aggregations of an event stream, full and summary.
3. **The exit status.** How the Apple command runner turns a wait status into the exit code of
   `CommandResult` and `SimpleCommandResult`.

Modules follow the source files:

| module | source |
|---|---|
| `Wrappers` | `Option` and `Result` |
| `Text`, `LineSplit` | the Kotlin standard-library string operations the core relies on |
| `SandboxModes` | the sandbox modes |
| `ExecConfig` | the configuration record |
| `ConfigBuilder` | the builder, as a class whose methods update its fields |
| `CommandBuilder` | building the argument list |
| `CommandRoundTrip` | reading the argument list back |
| `CliParser` | the argument parser |
| `Json` | decoded JSON values and the field-decoding rules of the parser's `Json` configuration |
| `TokenUsage` | `Usage` |
| `Items`, `ItemEncoding` | `CodexItem` |
| `Events`, `EventEncoding` | `CodexEvent` |
| `CodexParser` | `CodexParser` |
| `CliResults` | `CliResult` |
| `CliMain` | `Main.kt` |
| `WaitStatus` | the wait-status decoding |

Where the source is imperative, the model is too:
- The argument parser, the quoted-value decoder and the command builder are methods with loops.
  Each is proved equal to a function.
- `printEventResult`'s two aggregation loops are methods whose invariants are spec functions of
  the events seen so far.
- The builder is a class.

The properties proved about these functions and methods include:
- decoding the encoding of every item and event gives it back;
- reading back a built command gives its configuration and prompt again;
- the summary reports an error exactly when the stream holds a `turn.failed` or `error` event;
- the session is the `thread_id` of the last `thread.started` event;
- an event that carries nothing does not change the summary;
- a normal exit's code is decoded from the wait status.

Where the code and its documentation or tests disagree, the model follows the code:
- The session flag the SDK emits is `--session <id>`, although the tests expect `resume`.
- Both aggregations take the *last* `thread.started` event's id as the session.
- The summary collects agent text from `item.started`, `item.updated` and `item.completed`
  events alike. `CodexParser.getAgentMessages` keeps only completed ones.
- When no `--sandbox` is given, the command-line parser defaults the sandbox to read-only.
  `CodexExecConfig` and its builder default to no sandbox.

## Model

| member | source | states |
|---|---|---|
| Text.Trim | codex-kkp-sdk/src/commonMain/kotlin/love/forte/tools/codexkkp/sdk/model/CodexParser.kt:40 | `trim()`: the result has white space at neither end and is empty exactly when the input is blank |
| Text.TrimIsInfix | codex-kkp-sdk/src/commonMain/kotlin/love/forte/tools/codexkkp/sdk/model/CodexParser.kt:40 | the trimmed line is a contiguous piece of the line with only white space before and after it |
| Text.TrimStart | codex-kkp-sdk/src/commonMain/kotlin/love/forte/tools/codexkkp/sdk/model/CodexParser.kt:40 | the result is a suffix of the input, the dropped prefix is white space and the result does not start with white space |
| Text.TrimEnd | codex-kkp-sdk/src/commonMain/kotlin/love/forte/tools/codexkkp/sdk/model/CodexParser.kt:40 | the result is a prefix of the input, the dropped suffix is white space and the result does not end with white space |
| Text.Lowercase | codex-kkp-cli/src/commonMain/kotlin/love/forte/tools/codexkkp/cli/CliParser.kt:249-257 | `lowercase()` never shortens a string; the dotted `İ` becomes two characters |
| Text.LowercaseIs | codex-kkp-cli/src/commonMain/kotlin/love/forte/tools/codexkkp/cli/CliParser.kt:249-257 | a string lower-cases to a word of ASCII letters exactly when it is as long as the word, holds no `İ`, and each character lowers to the letter at its place |
| Text.ReplaceChar | codex-kkp-sdk/src/commonMain/kotlin/love/forte/tools/codexkkp/sdk/CodexCommandBuilder.kt:97-99 | `replace` leaves a string without the target unchanged, and leaves no target behind when the replacement has none |
| Text.ReplaceCharCount | codex-kkp-sdk/src/commonMain/kotlin/love/forte/tools/codexkkp/sdk/CodexCommandBuilder.kt:97-99 | each occurrence of the target is swapped for the replacement and every other character kept: the length grows by `|replacement| - 1` per occurrence |
| Text.ReplaceCharAppend | codex-kkp-sdk/src/commonMain/kotlin/love/forte/tools/codexkkp/sdk/CodexCommandBuilder.kt:99 | replacement distributes over concatenation |
| Text.SubstringAfterPrefix | codex-kkp-cli/src/commonMain/kotlin/love/forte/tools/codexkkp/cli/CliParser.kt:146-189 | `substringAfter('=')` of an `--opt=` argument is exactly the text after the prefix |
| Text.FoldOntoAsciiLetter | codex-kkp-cli/src/commonMain/kotlin/love/forte/tools/codexkkp/cli/CliParser.kt:234-240 | `equals(ignoreCase = true)` against an ASCII lower-case letter holds exactly for the letter, its capital, and `İ`/`ı` for `i`, `ſ` for `s` and the Kelvin sign for `k` |
| Text.EqualsIgnoreCase | codex-kkp-cli/src/commonMain/kotlin/love/forte/tools/codexkkp/cli/CliParser.kt:234-240 | no ensures of its own; the character test it applies at each position is characterised by `Text.FoldOntoAsciiLetter` |
| LineSplit.Lines | codex-kkp-sdk/src/commonMain/kotlin/love/forte/tools/codexkkp/sdk/model/CodexParser.kt:56 | `lineSequence()` always yields at least one line |
| LineSplit.LinesHaveNoBreaks | codex-kkp-sdk/src/commonMain/kotlin/love/forte/tools/codexkkp/sdk/model/CodexParser.kt:56 | no line contains `\n` or `\r` |
| LineSplit.LinesJoin | codex-kkp-sdk/src/commonMain/kotlin/love/forte/tools/codexkkp/sdk/model/CodexParser.kt:56 | the lines of `a + "\n" + b` are the lines of `a` then those of `b` (when `a` does not end in `\r`) |
| LineSplit.FirstBreakIsFirst | codex-kkp-sdk/src/commonMain/kotlin/love/forte/tools/codexkkp/sdk/model/CodexParser.kt:56 | no line break comes before the one `FirstBreak` finds |
| SandboxModes.ToString | codex-kkp-sdk/src/commonMain/kotlin/love/forte/tools/codexkkp/sdk/SandboxMode.kt:14-25 | `toString` is the wire value, one of `read-only`, `workspace-write`, `danger-full-access` |
| SandboxModes.EntriesComplete | codex-kkp-sdk/src/commonMain/kotlin/love/forte/tools/codexkkp/sdk/SandboxMode.kt:12-23 | exactly three modes, each listed once |
| SandboxModes.ValuesDistinct | codex-kkp-sdk/src/commonMain/kotlin/love/forte/tools/codexkkp/sdk/SandboxMode.kt:14-23 | distinct modes have distinct wire values and names, also ignoring case |
| ExecConfig.DefaultConfig | codex-kkp-sdk/src/commonMain/kotlin/love/forte/tools/codexkkp/sdk/CodexExecConfig.kt:17-26 | only the working directory is required; fullAuto false, no sandbox, outputs or session, Git check skipped, no images |
| CommandBuilder.EscapeArg | codex-kkp-sdk/src/commonMain/kotlin/love/forte/tools/codexkkp/sdk/CodexCommandBuilder.kt:80-103 | empty argument gives `""`; an argument with no special character is unchanged; otherwise quoted with `\` doubled and `"` escaped |
| CommandBuilder.EscapeChars | codex-kkp-sdk/src/commonMain/kotlin/love/forte/tools/codexkkp/sdk/CodexCommandBuilder.kt:97-99 | a string with no `\` and no `"` is unchanged |
| CommandBuilder.EscapeCharsLength | codex-kkp-sdk/src/commonMain/kotlin/love/forte/tools/codexkkp/sdk/CodexCommandBuilder.kt:97-99 | each `\` and each `"` gains exactly one character, and nothing else changes length |
| CommandBuilder.TwoPassEscape | codex-kkp-sdk/src/commonMain/kotlin/love/forte/tools/codexkkp/sdk/CodexCommandBuilder.kt:97-99 | the two `replace` passes (backslash first, then quote) equal the one-pass escape |
| CommandBuilder.ImageTokens | codex-kkp-sdk/src/commonMain/kotlin/love/forte/tools/codexkkp/sdk/CodexCommandBuilder.kt:53-57 | two tokens per image, `--image` then the escaped path, in list order |
| CommandBuilder.ImageTokensAppend | codex-kkp-sdk/src/commonMain/kotlin/love/forte/tools/codexkkp/sdk/CodexCommandBuilder.kt:53-57 | one more image adds exactly one `--image` pair at the end |
| CommandBuilder.SandboxValueUnquoted | codex-kkp-sdk/src/commonMain/kotlin/love/forte/tools/codexkkp/sdk/CodexCommandBuilder.kt:33-36 | no wire value contains a character `escapeArg` quotes, so writing it unescaped equals escaping it |
| CommandBuilder.AppendImages | codex-kkp-sdk/src/commonMain/kotlin/love/forte/tools/codexkkp/sdk/CodexCommandBuilder.kt:53-57 | the image loop appends `ImageTokens(images)` to the tokens so far |
| CommandBuilder.CommandTokens | codex-kkp-sdk/src/commonMain/kotlin/love/forte/tools/codexkkp/sdk/CodexCommandBuilder.kt:17-66 | the tokens start with `codex exec --json --cd <escaped dir>` and end with the escaped task |
| CommandBuilder.Build | codex-kkp-sdk/src/commonMain/kotlin/love/forte/tools/codexkkp/sdk/CodexCommandBuilder.kt:17-66 | `build` is the space-joined token list: head, flags in the fixed order, images, session, escaped task |
| CommandBuilder.DefaultCommandExample | codex-kkp-sdk/src/commonMain/kotlin/love/forte/tools/codexkkp/sdk/CodexCommandBuilder.kt:17-66 | directory `/test/project` and task `分析项目` give the tokens `codex`, `exec`, `--json`, `--cd`, `/test/project`, `--skip-git-repo-check`, `分析项目`, which `Build` joins with spaces |
| CommandRoundTrip.MiddleShape | codex-kkp-sdk/src/commonMain/kotlin/love/forte/tools/codexkkp/sdk/CodexCommandBuilder.kt:19-27 | the command starts with `codex exec --json --cd <escaped dir>` and ends with the escaped task |
| CommandRoundTrip.TakeFlagSpec | codex-kkp-sdk/src/commonMain/kotlin/love/forte/tools/codexkkp/sdk/CodexCommandBuilder.kt:29-50 | a flag is read back exactly when it was written |
| CommandRoundTrip.TakeValueSpec | codex-kkp-sdk/src/commonMain/kotlin/love/forte/tools/codexkkp/sdk/CodexCommandBuilder.kt:38-50 | an optional value pair is read back exactly when it was written |
| CommandRoundTrip.TakeSandboxSpec | codex-kkp-sdk/src/commonMain/kotlin/love/forte/tools/codexkkp/sdk/CodexCommandBuilder.kt:33-36 | `--sandbox <value>` is read back as the mode, or absent |
| CommandRoundTrip.TakeImagesSpec | codex-kkp-sdk/src/commonMain/kotlin/love/forte/tools/codexkkp/sdk/CodexCommandBuilder.kt:53-57 | the image pairs read back as the image list, in order |
| CommandRoundTrip.ReadCommandRoundTrip | codex-kkp-sdk/src/commonMain/kotlin/love/forte/tools/codexkkp/sdk/CodexCommandBuilder.kt:17-66 | reading the tokens of `build` gives back the task and every field of the configuration |
| CliParser.Unescape | codex-kkp-cli/src/commonMain/kotlin/love/forte/tools/codexkkp/cli/CliParser.kt:92-116 | the unescaped inside is never longer than the input |
| CliParser.Unquoted | codex-kkp-cli/src/commonMain/kotlin/love/forte/tools/codexkkp/cli/CliParser.kt:82-117 | a value that is not quoted at both ends (or shorter than 2) is returned unchanged; never longer than the input |
| CliParser.ParseQuotedValue | codex-kkp-cli/src/commonMain/kotlin/love/forte/tools/codexkkp/cli/CliParser.kt:82-117 | the index loop computes `Unquoted(value)` |
| CliParser.UnescapeEscapeChars | codex-kkp-cli/src/commonMain/kotlin/love/forte/tools/codexkkp/cli/CliParser.kt:92-116 | unescaping undoes the one-pass escape |
| CliParser.QuotedValueRoundTrip | codex-kkp-cli/src/commonMain/kotlin/love/forte/tools/codexkkp/cli/CliParser.kt:82-117 | `parseQuotedValue(escapeArg(s)) == s` for every string |
| CliParser.UnknownEscapeKept | codex-kkp-cli/src/commonMain/kotlin/love/forte/tools/codexkkp/cli/CliParser.kt:105-109 | a backslash before any character other than `"` and `\` is kept with it |
| CliParser.ParseBooleanSpec | codex-kkp-cli/src/commonMain/kotlin/love/forte/tools/codexkkp/cli/CliParser.kt:249-257 | accepts exactly the values whose `lowercase()` is `true` or `false`, character by character; any other value fails with `Invalid boolean value: <value>. Expected: true or false` |
| CliParser.ParseBoolean | codex-kkp-cli/src/commonMain/kotlin/love/forte/tools/codexkkp/cli/CliParser.kt:249-257 | a value read as true has four characters and one read as false has five; a failure carries the source message |
| CliParser.ParseBooleanNotIgnoreCase | codex-kkp-cli/src/commonMain/kotlin/love/forte/tools/codexkkp/cli/CliParser.kt:249-257 | `parseBoolean` lower-cases rather than ignoring case: `falſe` equals `false` ignoring case but is rejected |
| CliParser.ParseSandboxModeSpec | codex-kkp-cli/src/commonMain/kotlin/love/forte/tools/codexkkp/cli/CliParser.kt:234-240 | succeeds exactly when some mode's wire value or name equals the value under Kotlin's `equals(ignoreCase = true)`, including its non-ASCII folds, and then with a matching mode; fails with the listed modes otherwise |
| CliParser.ParseSandboxMode | codex-kkp-cli/src/commonMain/kotlin/love/forte/tools/codexkkp/cli/CliParser.kt:234-240 | a parsed mode matches the value; a failure carries `Unknown sandbox mode: <value>. Valid modes: read-only, workspace-write, danger-full-access` |
| CliParser.KelvinSignSelectsMode | codex-kkp-cli/src/commonMain/kotlin/love/forte/tools/codexkkp/cli/CliParser.kt:234-240 | `wor` + Kelvin sign + `space-write` parses to WORKSPACE_WRITE |
| CliParser.LongSSelectsMode | codex-kkp-cli/src/commonMain/kotlin/love/forte/tools/codexkkp/cli/CliParser.kt:234-240 | `DANGER_FULL_ACCEſS` parses to DANGER_FULL_ACCESS |
| CliParser.DotlessISelectsMode | codex-kkp-cli/src/commonMain/kotlin/love/forte/tools/codexkkp/cli/CliParser.kt:234-240 | `workspace-wrıte` parses to WORKSPACE_WRITE |
| CliParser.ModeMatchUnique | codex-kkp-cli/src/commonMain/kotlin/love/forte/tools/codexkkp/cli/CliParser.kt:234-240 | no value matches two modes |
| CliParser.ParseSandboxModeValue | codex-kkp-cli/src/commonMain/kotlin/love/forte/tools/codexkkp/cli/CliParser.kt:234-240 | every wire value parses to its mode |
| CliParser.ParseSandboxModeName | codex-kkp-cli/src/commonMain/kotlin/love/forte/tools/codexkkp/cli/CliParser.kt:234-240 | every enum name parses to its mode |
| CliParser.Parse | codex-kkp-cli/src/commonMain/kotlin/love/forte/tools/codexkkp/cli/CliParser.kt:128-225 | the `while` loop over the arguments computes `ParseArgs(args)` |
| CliParser.Step | codex-kkp-cli/src/commonMain/kotlin/love/forte/tools/codexkkp/cli/CliParser.kt:133-203 | one argument: only a skip value, a sandbox value, an unknown option or a second positional can fail; `--full` sets the full flag and nothing else clears it |
| CliParser.ParseArgs | codex-kkp-cli/src/commonMain/kotlin/love/forte/tools/codexkkp/cli/CliParser.kt:128-225 | a successful parse always sets the sandbox; no arguments fail with `Missing required option: --cd=<dir>` |
| CliParser.RunTask | codex-kkp-cli/src/commonMain/kotlin/love/forte/tools/codexkkp/cli/CliParser.kt:196-203 | the task is the first positional argument, verbatim; a successful run has at most one |
| CliParser.RunTextField | codex-kkp-cli/src/commonMain/kotlin/love/forte/tools/codexkkp/cli/CliParser.kt:146-184 | each single-valued option holds its last occurrence's value |
| CliParser.RunFlags | codex-kkp-cli/src/commonMain/kotlin/love/forte/tools/codexkkp/cli/CliParser.kt:150-154 | `--full-auto` and `--full` are set exactly when they occur |
| CliParser.RunSandbox | codex-kkp-cli/src/commonMain/kotlin/love/forte/tools/codexkkp/cli/CliParser.kt:133-169 | the sandbox is the last `--sandbox=` mode, `READ_ONLY` without one |
| CliParser.RunSkip | codex-kkp-cli/src/commonMain/kotlin/love/forte/tools/codexkkp/cli/CliParser.kt:136-163 | the Git check is skipped unless the last skip argument says false; the bare flag sets true |
| CliParser.RunImages | codex-kkp-cli/src/commonMain/kotlin/love/forte/tools/codexkkp/cli/CliParser.kt:186-189 | the images are every `--image=` value, unquoted, in argument order |
| CliParser.RunSpec | codex-kkp-cli/src/commonMain/kotlin/love/forte/tools/codexkkp/cli/CliParser.kt:128-206 | a successful loop ends in the state described option by option |
| CliParser.ParseArgsSpec | codex-kkp-cli/src/commonMain/kotlin/love/forte/tools/codexkkp/cli/CliParser.kt:128-225 | `parse` succeeds exactly when every argument is accepted, at most one is positional and some `--cd=` is given; the sandbox is then always set |
| CliParser.MissingWorkingDirectory | codex-kkp-cli/src/commonMain/kotlin/love/forte/tools/codexkkp/cli/CliParser.kt:209-211 | without `--cd=` (including no arguments) `parse` fails, with the missing-option message when nothing else is wrong |
| CliParser.UnknownOptionReported | codex-kkp-cli/src/commonMain/kotlin/love/forte/tools/codexkkp/cli/CliParser.kt:192-194 | an unrecognised `-` argument fails with `Unknown option: <arg>` |
| CliParser.SecondPositionalReported | codex-kkp-cli/src/commonMain/kotlin/love/forte/tools/codexkkp/cli/CliParser.kt:196-203 | a second positional fails with `Unexpected argument: <arg>` |
| CliParser.PositionalIffNoDash | codex-kkp-cli/src/commonMain/kotlin/love/forte/tools/codexkkp/cli/CliParser.kt:192-203 | an argument is positional exactly when it does not start with `-` |
| CliParser.DirectoryAndTaskRoundTrip | codex-kkp-cli/src/commonMain/kotlin/love/forte/tools/codexkkp/cli/CliParser.kt:128-225 | an escaped directory and a prompt parse back to that directory and prompt with every other setting at the CLI default |
| ConfigBuilder.CodexExecConfigBuilder.constructor | codex-kkp-sdk/src/commonMain/kotlin/love/forte/tools/codexkkp/sdk/CodexExecConfigBuilder.kt:18-25 | a fresh builder: nothing set, the Git check skipped, no images |
| ConfigBuilder.CodexExecConfigBuilder.WorkingDirectory | codex-kkp-sdk/src/commonMain/kotlin/love/forte/tools/codexkkp/sdk/CodexExecConfigBuilder.kt:28-30 | sets the working directory and nothing else |
| ConfigBuilder.CodexExecConfigBuilder.FullAuto | codex-kkp-sdk/src/commonMain/kotlin/love/forte/tools/codexkkp/sdk/CodexExecConfigBuilder.kt:33-35 | sets fullAuto and nothing else |
| ConfigBuilder.CodexExecConfigBuilder.Sandbox | codex-kkp-sdk/src/commonMain/kotlin/love/forte/tools/codexkkp/sdk/CodexExecConfigBuilder.kt:38-40 | sets the sandbox and nothing else |
| ConfigBuilder.CodexExecConfigBuilder.DangerFullAccess | codex-kkp-sdk/src/commonMain/kotlin/love/forte/tools/codexkkp/sdk/CodexExecConfigBuilder.kt:43-45 | the same effect as `sandbox(DANGER_FULL_ACCESS)` |
| ConfigBuilder.CodexExecConfigBuilder.OutputLastMessage | codex-kkp-sdk/src/commonMain/kotlin/love/forte/tools/codexkkp/sdk/CodexExecConfigBuilder.kt:48-50 | sets outputLastMessage and nothing else |
| ConfigBuilder.CodexExecConfigBuilder.OutputSchema | codex-kkp-sdk/src/commonMain/kotlin/love/forte/tools/codexkkp/sdk/CodexExecConfigBuilder.kt:53-55 | sets outputSchema and nothing else |
| ConfigBuilder.CodexExecConfigBuilder.SkipGitRepoCheck | codex-kkp-sdk/src/commonMain/kotlin/love/forte/tools/codexkkp/sdk/CodexExecConfigBuilder.kt:58-60 | sets skipGitRepoCheck to true and nothing else |
| ConfigBuilder.CodexExecConfigBuilder.SetSkipGitRepoCheck | codex-kkp-sdk/src/commonMain/kotlin/love/forte/tools/codexkkp/sdk/CodexExecConfigBuilder.kt:63-65 | sets skipGitRepoCheck to the argument and nothing else |
| ConfigBuilder.CodexExecConfigBuilder.DoGitRepoCheck | codex-kkp-sdk/src/commonMain/kotlin/love/forte/tools/codexkkp/sdk/CodexExecConfigBuilder.kt:68-70 | sets skipGitRepoCheck to false and nothing else |
| ConfigBuilder.CodexExecConfigBuilder.Session | codex-kkp-sdk/src/commonMain/kotlin/love/forte/tools/codexkkp/sdk/CodexExecConfigBuilder.kt:73-75 | sets the session and nothing else |
| ConfigBuilder.CodexExecConfigBuilder.Image | codex-kkp-sdk/src/commonMain/kotlin/love/forte/tools/codexkkp/sdk/CodexExecConfigBuilder.kt:78-80 | appends the path to the images and nothing else |
| ConfigBuilder.CodexExecConfigBuilder.Build | codex-kkp-sdk/src/commonMain/kotlin/love/forte/tools/codexkkp/sdk/CodexExecConfigBuilder.kt:83-96 | fails exactly when no working directory was set; otherwise the configuration of the fields |
| ConfigBuilder.CodexConfig | codex-kkp-sdk/src/commonMain/kotlin/love/forte/tools/codexkkp/sdk/CodexExecConfigBuilder.kt:100-103 | `codexConfig { }` is a fresh builder, the block's calls in order, then `build` |
| ConfigBuilder.ApplyAll | codex-kkp-sdk/src/commonMain/kotlin/love/forte/tools/codexkkp/sdk/CodexExecConfigBuilder.kt:28-80 | no ensures of its own; what it computes is stated by `ConfigBuilder.ApplyAllSpec` |
| ConfigBuilder.ConfigFromCalls | codex-kkp-sdk/src/commonMain/kotlin/love/forte/tools/codexkkp/sdk/CodexExecConfigBuilder.kt:83-95 | no ensures of its own; what it computes is stated by `ConfigBuilder.ConfigFromCallsSpec` |
| ConfigBuilder.ApplyAllSpec | codex-kkp-sdk/src/commonMain/kotlin/love/forte/tools/codexkkp/sdk/CodexExecConfigBuilder.kt:28-80 | after any calls each field holds its last setting (or default) and the images are every `image` path in order |
| ConfigBuilder.ConfigFromCallsSpec | codex-kkp-sdk/src/commonMain/kotlin/love/forte/tools/codexkkp/sdk/CodexExecConfigBuilder.kt:84-95 | fails with `workingDirectory is required` exactly when no call sets it; otherwise every field is its last setting |
| ConfigBuilder.OnlyDirectory | codex-kkp-sdk/src/commonMain/kotlin/love/forte/tools/codexkkp/sdk/CodexExecConfigBuilder.kt:18-95 | only `workingDirectory(d)` builds `CodexExecConfig(d)` with all defaults |
| Json.AsInt32 | codex-kkp-sdk/src/commonMain/kotlin/love/forte/tools/codexkkp/sdk/model/Usage.kt:13-15 | an `Int` field decodes exactly from an integer in the 32-bit range, to that integer |
| Json.AsString | codex-kkp-sdk/src/commonMain/kotlin/love/forte/tools/codexkkp/sdk/model/CodexParser.kt:16-18 | under `isLenient` a `String` field decodes from a string, or from an unquoted number or boolean as its text, and never from `null`, an array or an object |
| Json.DecodeAll | codex-kkp-sdk/src/commonMain/kotlin/love/forte/tools/codexkkp/sdk/model/CodexItem.kt:79-114 | a list decodes exactly when every element does, element by element |
| Json.EncodeAll | codex-kkp-sdk/src/commonMain/kotlin/love/forte/tools/codexkkp/sdk/model/CodexItem.kt:79-114 | one encoded element per element, in order |
| Json.ListRoundTrip | codex-kkp-sdk/src/commonMain/kotlin/love/forte/tools/codexkkp/sdk/model/CodexItem.kt:79-114 | decoding an encoded list gives it back when each element round-trips |
| Json.TagOf | codex-kkp-sdk/src/commonMain/kotlin/love/forte/tools/codexkkp/sdk/model/CodexParser.kt:16-29 | a primitive `type` names the class by its text: a string by its contents, a boolean as `true`/`false`, an integer by its digits; absent or `null` leaves it to the default deserializer; an array or object is rejected |
| Json.PrimitiveContent | codex-kkp-sdk/src/commonMain/kotlin/love/forte/tools/codexkkp/sdk/model/CodexParser.kt:16-29 | `jsonPrimitive.contentOrNull`: fails exactly for an array or object, is absent exactly for `null`, and gives a string's contents |
| TokenUsage.DecodeUsageSpec | codex-kkp-sdk/src/commonMain/kotlin/love/forte/tools/codexkkp/sdk/model/Usage.kt:12-16 | decodes exactly when both required counts are 32-bit integers, keeping all three counts; cached defaults to 0 |
| TokenUsage.DecodeUsage | codex-kkp-sdk/src/commonMain/kotlin/love/forte/tools/codexkkp/sdk/model/Usage.kt:12-16 | a decoded usage comes from an object with both required counts, keeps the input count, and has cached count 0 when that key is absent |
| TokenUsage.MissingCountFails | codex-kkp-sdk/src/commonMain/kotlin/love/forte/tools/codexkkp/sdk/model/Usage.kt:13-15 | a usage without `input_tokens` or `output_tokens` does not decode |
| TokenUsage.UsageIgnoresUnknownKeys | codex-kkp-sdk/src/commonMain/kotlin/love/forte/tools/codexkkp/sdk/model/CodexParser.kt:17 | a key other than the three wire names does not change the decoding |
| TokenUsage.UsageRoundTrip | codex-kkp-sdk/src/commonMain/kotlin/love/forte/tools/codexkkp/sdk/model/Usage.kt:12-16 | decoding the encoding of a usage gives it back |
| Items.AsCommandExecutionStatus | codex-kkp-sdk/src/commonMain/kotlin/love/forte/tools/codexkkp/sdk/model/CodexItem.kt:16-25 | decodes exactly the wire names `in_progress`, `completed`, `failed` |
| Items.AsPatchChangeKind | codex-kkp-sdk/src/commonMain/kotlin/love/forte/tools/codexkkp/sdk/model/CodexItem.kt:31-40 | decodes exactly `add`, `delete`, `update` |
| Items.AsPatchApplyStatus | codex-kkp-sdk/src/commonMain/kotlin/love/forte/tools/codexkkp/sdk/model/CodexItem.kt:46-52 | decodes exactly `completed`, `failed` |
| Items.AsMcpToolCallStatus | codex-kkp-sdk/src/commonMain/kotlin/love/forte/tools/codexkkp/sdk/model/CodexItem.kt:57-67 | decodes exactly `in_progress`, `completed`, `failed` |
| Items.ItemTypeNamesDistinct | codex-kkp-sdk/src/commonMain/kotlin/love/forte/tools/codexkkp/sdk/model/CodexItem.kt:141-250 | distinct item classes have distinct discriminators |
| Items.DecodeItem | codex-kkp-sdk/src/commonMain/kotlin/love/forte/tools/codexkkp/sdk/model/CodexItem.kt:124-250 | only an object whose discriminator is not an array or object decodes; an `UnknownItem` carries the text of the object's `id` |
| ItemEncoding.ElementsRoundTrip | codex-kkp-sdk/src/commonMain/kotlin/love/forte/tools/codexkkp/sdk/model/CodexItem.kt:90-95 | opaque `JsonElement` lists decode to themselves |
| ItemEncoding.ChangesRoundTrip | codex-kkp-sdk/src/commonMain/kotlin/love/forte/tools/codexkkp/sdk/model/CodexItem.kt:79-185 | file-change lists round-trip |
| ItemEncoding.TodoItemsRoundTrip | codex-kkp-sdk/src/commonMain/kotlin/love/forte/tools/codexkkp/sdk/model/CodexItem.kt:111-240 | todo lists round-trip |
| ItemEncoding.McpToolResultRoundTrip | codex-kkp-sdk/src/commonMain/kotlin/love/forte/tools/codexkkp/sdk/model/CodexItem.kt:90-95 | a tool result round-trips when its structured content is not JSON null |
| ItemEncoding.McpToolCallRoundTrip | codex-kkp-sdk/src/commonMain/kotlin/love/forte/tools/codexkkp/sdk/model/CodexItem.kt:198-206 | an MCP tool call round-trips |
| ItemEncoding.FieldsRoundTrip | codex-kkp-sdk/src/commonMain/kotlin/love/forte/tools/codexkkp/sdk/model/CodexItem.kt:124-250 | every item's fields decode back to it under its discriminator |
| ItemEncoding.ItemRoundTrip | codex-kkp-sdk/src/commonMain/kotlin/love/forte/tools/codexkkp/sdk/model/CodexItem.kt:124-250 | decoding an encoded item gives it back |
| ItemEncoding.DecodedItemHasId | codex-kkp-sdk/src/commonMain/kotlin/love/forte/tools/codexkkp/sdk/model/CodexItem.kt:124-127 | every decoded item carries the text of its object's `id`; an object without an `id` decodes to nothing |
| ItemEncoding.UnknownItemFallback | codex-kkp-sdk/src/commonMain/kotlin/love/forte/tools/codexkkp/sdk/model/CodexParser.kt:26-28 | an untagged or unrecognised item decodes to `UnknownItem(id)` exactly when its `id` decodes as a (lenient) string |
| ItemEncoding.BadTagRejected | codex-kkp-sdk/src/commonMain/kotlin/love/forte/tools/codexkkp/sdk/model/CodexParser.kt:16-29 | an item whose `type` is an array or an object is rejected |
| ItemEncoding.ScalarTagFallback | codex-kkp-sdk/src/commonMain/kotlin/love/forte/tools/codexkkp/sdk/model/CodexParser.kt:16-29 | an item whose `type` is a number or boolean is dispatched by its text, which names no item class, so it becomes `UnknownItem(id)` exactly when its `id` decodes |
| ItemEncoding.NumberTagExample | codex-kkp-sdk/src/commonMain/kotlin/love/forte/tools/codexkkp/sdk/model/CodexParser.kt:16-29 | `{"type":5,"id":"x"}` decodes to `UnknownItem("x")` |
| ItemEncoding.CommandExecutionDefaults | codex-kkp-sdk/src/commonMain/kotlin/love/forte/tools/codexkkp/sdk/model/CodexItem.kt:142-150 | only id and command: empty output, no exit code, status FAILED |
| ItemEncoding.FileChangeDefaults | codex-kkp-sdk/src/commonMain/kotlin/love/forte/tools/codexkkp/sdk/model/CodexItem.kt:181-185 | only id: no changes, status FAILED |
| ItemEncoding.McpToolCallDefaults | codex-kkp-sdk/src/commonMain/kotlin/love/forte/tools/codexkkp/sdk/model/CodexItem.kt:198-206 | only id: empty server and tool, no arguments, result or error, status FAILED |
| ItemEncoding.TextDefaults | codex-kkp-sdk/src/commonMain/kotlin/love/forte/tools/codexkkp/sdk/model/CodexItem.kt:158-228 | agent-message and reasoning text, web-search query and error message default to empty |
| ItemEncoding.TodoDefaults | codex-kkp-sdk/src/commonMain/kotlin/love/forte/tools/codexkkp/sdk/model/CodexItem.kt:111-240 | todo lists default to empty and a todo item to completed |
| ItemEncoding.ItemIgnoresUnknownKeys | codex-kkp-sdk/src/commonMain/kotlin/love/forte/tools/codexkkp/sdk/model/CodexParser.kt:17 | a key no item class reads does not change item decoding |
| ItemEncoding.NamedItemIgnoresKey | codex-kkp-sdk/src/commonMain/kotlin/love/forte/tools/codexkkp/sdk/model/CodexParser.kt:17 | the same for each item class's decoder |
| Events.EventTypeNamesDistinct | codex-kkp-sdk/src/commonMain/kotlin/love/forte/tools/codexkkp/sdk/model/CodexEvent.kt:43-131 | distinct event classes have distinct discriminators |
| Events.DecodeEvent | codex-kkp-sdk/src/commonMain/kotlin/love/forte/tools/codexkkp/sdk/model/CodexEvent.kt:28-137 | only an object whose discriminator is not an array or object decodes; an `UnknownEvent` carries the text of the object's `type` |
| EventEncoding.EventRoundTrip | codex-kkp-sdk/src/commonMain/kotlin/love/forte/tools/codexkkp/sdk/model/CodexEvent.kt:28-137 | decoding an encoded event gives it back |
| EventEncoding.NamedEventRoundTrip | codex-kkp-sdk/src/commonMain/kotlin/love/forte/tools/codexkkp/sdk/model/CodexEvent.kt:43-137 | every event's fields decode back to it under its discriminator |
| EventEncoding.UnknownEventFallback | codex-kkp-sdk/src/commonMain/kotlin/love/forte/tools/codexkkp/sdk/model/CodexParser.kt:16-24 | an event whose discriminator names no event class decodes to `UnknownEvent` with that name, exactly when its `_raw` is absent, null or decodes as a string |
| EventEncoding.UntypedEventRejected | codex-kkp-sdk/src/commonMain/kotlin/love/forte/tools/codexkkp/sdk/model/CodexEvent.kt:130-137 | an event whose `type` is absent, `null`, an array or an object does not decode: `UnknownEvent` needs a `type` |
| EventEncoding.ScalarTypeEvent | codex-kkp-sdk/src/commonMain/kotlin/love/forte/tools/codexkkp/sdk/model/CodexParser.kt:16-24 | an event whose `type` is a number or boolean becomes `UnknownEvent` with that text, exactly when its `_raw` decodes |
| EventEncoding.NumberTypeEvent | codex-kkp-sdk/src/commonMain/kotlin/love/forte/tools/codexkkp/sdk/model/CodexParser.kt:16-24 | `{"type":5}` decodes to the unknown event `5` |
| EventEncoding.TurnFailedError | codex-kkp-sdk/src/commonMain/kotlin/love/forte/tools/codexkkp/sdk/model/CodexEvent.kt:107-111 | `error` defaults to absent and, present, carries its message |
| EventEncoding.ItemEventDecoding | codex-kkp-sdk/src/commonMain/kotlin/love/forte/tools/codexkkp/sdk/model/CodexEvent.kt:63-89 | the three item events decode exactly when their `item` does, keeping their discriminator |
| EventEncoding.ItemEventsExactly | codex-kkp-sdk/src/commonMain/kotlin/love/forte/tools/codexkkp/sdk/model/CodexEvent.kt:30-33 | the item-carrying events are exactly item.started, item.updated and item.completed |
| EventEncoding.EventIgnoresUnknownKeys | codex-kkp-sdk/src/commonMain/kotlin/love/forte/tools/codexkkp/sdk/model/CodexParser.kt:17 | a key no event class reads does not change event decoding |
| EventEncoding.NamedEventIgnoresKey | codex-kkp-sdk/src/commonMain/kotlin/love/forte/tools/codexkkp/sdk/model/CodexParser.kt:17 | the same for each event class's decoder |
| CodexParser.ParseEventSpec | codex-kkp-sdk/src/commonMain/kotlin/love/forte/tools/codexkkp/sdk/model/CodexParser.kt:38-48 | `parseEvent` trims, lexes and decodes, failing when either fails; an UnknownEvent gets the trimmed line as raw |
| CodexParser.ParseEvent | codex-kkp-sdk/src/commonMain/kotlin/love/forte/tools/codexkkp/sdk/model/CodexParser.kt:38-49 | a parsed event comes from a line whose trimmed text lexes; an `UnknownEvent` keeps the trimmed line as raw |
| CodexParser.UnknownEventRaw | codex-kkp-sdk/src/commonMain/kotlin/love/forte/tools/codexkkp/sdk/model/CodexParser.kt:40-43 | an UnknownEvent's raw is the trimmed line |
| CodexParser.UnrecognisedTypeKept | codex-kkp-sdk/src/commonMain/kotlin/love/forte/tools/codexkkp/sdk/model/CodexParser.kt:22-43 | a line with an unrecognised type yields UnknownEvent with that type and the trimmed line |
| CodexParser.ParseLines | codex-kkp-sdk/src/commonMain/kotlin/love/forte/tools/codexkkp/sdk/model/CodexParser.kt:55-60 | no more events than lines |
| CodexParser.ParseEventStream | codex-kkp-sdk/src/commonMain/kotlin/love/forte/tools/codexkkp/sdk/model/CodexParser.kt:55-60 | an output yields no more events than it has lines |
| CodexParser.ParseLinesSpec | codex-kkp-sdk/src/commonMain/kotlin/love/forte/tools/codexkkp/sdk/model/CodexParser.kt:55-60 | the events are the parses of the decodable lines, one each, in order, and no more than the non-blank lines |
| CodexParser.ParseLinesAppend | codex-kkp-sdk/src/commonMain/kotlin/love/forte/tools/codexkkp/sdk/model/CodexParser.kt:55-60 | the stream of two line lists is the concatenation of their streams |
| CodexParser.SkippedLine | codex-kkp-sdk/src/commonMain/kotlin/love/forte/tools/codexkkp/sdk/model/CodexParser.kt:44-58 | a blank or rejected line is dropped without affecting the others |
| CodexParser.StreamJoin | codex-kkp-sdk/src/commonMain/kotlin/love/forte/tools/codexkkp/sdk/model/CodexParser.kt:55-60 | the events of two outputs joined by a newline are the events of each, in order |
| CodexParser.BlankOutput | codex-kkp-sdk/src/commonMain/kotlin/love/forte/tools/codexkkp/sdk/model/CodexParser.kt:56-57 | a blank output yields no events |
| CodexParser.DecodableLines | codex-kkp-sdk/src/commonMain/kotlin/love/forte/tools/codexkkp/sdk/model/CodexParser.kt:57-58 | every line kept is one of the input lines that yields an event |
| CodexParser.FilterByType | codex-kkp-sdk/src/commonMain/kotlin/love/forte/tools/codexkkp/sdk/model/CodexParser.kt:66-68 | the events of the given classes: membership exactly those, every element of a chosen class |
| CodexParser.FilterByTypeAppend | codex-kkp-sdk/src/commonMain/kotlin/love/forte/tools/codexkkp/sdk/model/CodexParser.kt:66-68 | filtering distributes over concatenation (order kept) |
| CodexParser.FilterByTypeAll | codex-kkp-sdk/src/commonMain/kotlin/love/forte/tools/codexkkp/sdk/model/CodexParser.kt:66-68 | filtering keeps a list wholly of chosen classes unchanged |
| CodexParser.GetAgentMessages | codex-kkp-sdk/src/commonMain/kotlin/love/forte/tools/codexkkp/sdk/model/CodexParser.kt:73-77 | no more messages than events |
| CodexParser.ItemEventClassesExactly | codex-kkp-sdk/src/commonMain/kotlin/love/forte/tools/codexkkp/sdk/model/CodexEvent.kt:30-33 | the item event classes are exactly those of events carrying an item |
| CodexParser.AgentMessagesMembership | codex-kkp-sdk/src/commonMain/kotlin/love/forte/tools/codexkkp/sdk/model/CodexParser.kt:73-77 | a text is returned exactly when some item.completed event completes an agent message with it |
| CodexParser.AgentMessagesAppend | codex-kkp-sdk/src/commonMain/kotlin/love/forte/tools/codexkkp/sdk/model/CodexParser.kt:73-77 | messages of a concatenation are the messages of each part, in order |
| CodexParser.OnlyCompletedMessages | codex-kkp-sdk/src/commonMain/kotlin/love/forte/tools/codexkkp/sdk/model/CodexParser.kt:74 | an event that is not item.completed never contributes |
| CodexParser.GetUsage | codex-kkp-sdk/src/commonMain/kotlin/love/forte/tools/codexkkp/sdk/model/CodexParser.kt:82-85 | a usage it returns is that of some turn.completed event in the list |
| CodexParser.GetUsageSpec | codex-kkp-sdk/src/commonMain/kotlin/love/forte/tools/codexkkp/sdk/model/CodexParser.kt:82-85 | absent exactly when there is no turn.completed; otherwise the usage of the first one |
| CodexParser.GetUsageViaFilter | codex-kkp-sdk/src/commonMain/kotlin/love/forte/tools/codexkkp/sdk/model/CodexParser.kt:82-85 | equal to the first element of `filterByType<TurnCompletedEvent>` |
| CliResults.SuccessResult | codex-kkp-cli/src/commonMain/kotlin/love/forte/tools/codexkkp/cli/CliResult.kt:27-33 | type SUCCESS with the given session and content |
| CliResults.FailureResult | codex-kkp-cli/src/commonMain/kotlin/love/forte/tools/codexkkp/cli/CliResult.kt:35-42 | type ERROR with the given content and no session |
| CliResults.FactoryShapes | codex-kkp-cli/src/commonMain/kotlin/love/forte/tools/codexkkp/cli/CliResult.kt:12-43 | a result is one of the factory shapes exactly when no error carries a session |
| CliResults.ResultTypeName | codex-kkp-cli/src/commonMain/kotlin/love/forte/tools/codexkkp/cli/CliResult.kt:46-48 | exactly the two types SUCCESS and ERROR |
| CliMain.AggregateFull | codex-kkp-cli/src/commonMain/kotlin/Main.kt:49-89 | the full-mode loop: failure with every event when any is a failure, else success with the last session, raw arguments and every event |
| CliMain.FullResult | codex-kkp-cli/src/commonMain/kotlin/Main.kt:72-87 | full mode fails to encode exactly when some event cannot be encoded; otherwise it reports an error exactly when some event is a failure |
| CliMain.UnknownEventBreaksFull | codex-kkp-cli/src/commonMain/kotlin/Main.kt:72-87 | any `UnknownEvent` in the stream makes full-mode encoding throw the discriminator-clash exception |
| CliMain.FailureEventsEncodable | codex-kkp-cli/src/commonMain/kotlin/Main.kt:134-150 | the failure events the summary reports can always be encoded |
| CliMain.FullSnoc | codex-kkp-cli/src/commonMain/kotlin/Main.kt:56-70 | one more event moves the session and the error flag as the loop does |
| CliMain.AggregateSummary | codex-kkp-cli/src/commonMain/kotlin/Main.kt:91-169 | the summarising loop computes the failure events, or the last session, agent text, file changes and errors |
| CliMain.SummaryResult | codex-kkp-cli/src/commonMain/kotlin/Main.kt:150-169 | the summary always has content: failure exactly with a non-empty list of error events, success with a success content |
| CliMain.SummarySnoc | codex-kkp-cli/src/commonMain/kotlin/Main.kt:102-148 | one more event extends each collected value by its part |
| CliMain.SummaryStep | codex-kkp-cli/src/commonMain/kotlin/Main.kt:103-147 | one pass of `when (event)` updates each collected value by that event's part |
| CliMain.AddItem | codex-kkp-cli/src/commonMain/kotlin/Main.kt:109-131 | agent text appended, file-change and error items added, other items ignored |
| CliMain.PrintEventResult | codex-kkp-cli/src/commonMain/kotlin/Main.kt:47-170 | the full or the summarised result as `full` says |
| CliMain.NonEmpty | codex-kkp-cli/src/commonMain/kotlin/Main.kt:164-165 | `takeIf { it.isNotEmpty() }`: absent exactly when empty |
| CliMain.LastSessionSpec | codex-kkp-cli/src/commonMain/kotlin/Main.kt:52-105 | the session is the thread id of the last thread.started, or "" when there is none |
| CliMain.LastSessionSnoc | codex-kkp-cli/src/commonMain/kotlin/Main.kt:58-105 | each thread.started replaces the session |
| CliMain.FailureEventsViaFilter | codex-kkp-cli/src/commonMain/kotlin/Main.kt:134-140 | the failure events are `filterByType` over TurnFailed and ThreadError |
| CliMain.FailureEventsSpec | codex-kkp-cli/src/commonMain/kotlin/Main.kt:100-150 | there are failure events exactly when some event is a failure, and all of them are failures |
| CliMain.SummaryOutcome | codex-kkp-cli/src/commonMain/kotlin/Main.kt:150-169 | summarised mode fails exactly when some event is a failure, carrying exactly those in order; else succeeds with the last session |
| CliMain.ModesAgree | codex-kkp-cli/src/commonMain/kotlin/Main.kt:56-150 | full mode encodes exactly when no event is an `UnknownEvent`, and then agrees with summarised mode on failure and on the session |
| CliMain.InertEventIgnored | codex-kkp-cli/src/commonMain/kotlin/Main.kt:122-146 | turn.started, turn.completed, unknown events and other item kinds never change the summarised result |
| CliMain.AgentTextOfCompletedItems | codex-kkp-cli/src/commonMain/kotlin/Main.kt:108-112 | with no started or updated items the summary text is the concatenation of `getAgentMessages` |
| CliMain.StartedMessageCounted | codex-kkp-cli/src/commonMain/kotlin/Main.kt:108-112 | a started agent message counts in the summary but not in `getAgentMessages` |
| CliMain.RunMain | codex-kkp-cli/src/commonMain/kotlin/Main.kt:14-45 | `main` computes `MainResult`: parse, check the task, build and run the command, aggregate, and report any exception as an error result |
| CliMain.MainResult | codex-kkp-cli/src/commonMain/kotlin/Main.kt:14-45 | every result has content, and an error result has no session |
| CliMain.FullModeUnknownEvent | codex-kkp-cli/src/commonMain/kotlin/Main.kt:14-87 | with `--full`, an output holding an unknown event gives `Error: ` followed by the encoder's discriminator-clash message |
| CliMain.MissingTaskNotRun | codex-kkp-cli/src/commonMain/kotlin/Main.kt:22-26 | without a task the result is `Error: No task prompt specified` whatever running would do |
| CliMain.MissingDirectoryReported | codex-kkp-cli/src/commonMain/kotlin/Main.kt:19-41 | arguments without `--cd=` give an error result prefixed `IllegalArgumentException: ` |
| CliMain.SilentRun | codex-kkp-cli/src/commonMain/kotlin/Main.kt:19-33 | a directory and prompt whose command prints nothing give success with session "" and empty content |
| WaitStatus.StatusExitCode | commons/codex-kkp-common-command/src/appleMain/kotlin/love/forte/tools/codexkkp/common/command/Command.apple.kt:10-11 | bits 8-15 when the low seven bits are zero, else -1 |
| WaitStatus.ExitCodeRange | commons/codex-kkp-common-command/src/appleMain/kotlin/love/forte/tools/codexkkp/common/command/Command.apple.kt:10-11 | the result is in 0..255 or -1, and -1 exactly for a status that is not a normal exit |
| WaitStatus.LowBitsDecide | commons/codex-kkp-common-command/src/appleMain/kotlin/love/forte/tools/codexkkp/common/command/Command.apple.kt:10-11 | only the low sixteen bits of the status matter |
| WaitStatus.NormalExitDecodes | commons/codex-kkp-common-command/src/appleMain/kotlin/love/forte/tools/codexkkp/common/command/Command.apple.kt:10-11 | the status of `exit(code)` decodes to `code` |
| WaitStatus.SignalledHasNoCode | commons/codex-kkp-common-command/src/appleMain/kotlin/love/forte/tools/codexkkp/common/command/Command.apple.kt:10-11 | a signal in the low seven bits gives -1 whatever the higher bits |
| WaitStatus.ZeroStatus | commons/codex-kkp-common-command/src/appleMain/kotlin/love/forte/tools/codexkkp/common/command/Command.apple.kt:10-11 | a status whose low sixteen bits are zero gives 0 |
| WaitStatus.CommandResultOf | commons/codex-kkp-common-command/src/appleMain/kotlin/love/forte/tools/codexkkp/common/command/Command.apple.kt:70-75 | `executeCommand` decodes its exit code through `statusExitCode`, keeping both outputs |
| WaitStatus.SimpleCommandResultOf | commons/codex-kkp-common-command/src/appleMain/kotlin/love/forte/tools/codexkkp/common/command/Command.apple.kt:107-110 | `executeCommandSimple` decodes its exit code through `statusExitCode`, keeping the output |
## Left out

- Running processes is left out: `executeCommand`, pipes, `popen` and reading their output. The
  agent run is the parameter `run` of `CliMain.MainResult`, and its output is a string.
- The Windows runner (mingw) and its separate `topMain` are left out. They are platform glue
  around the same flow.
- Printing results (`ResultPrinter`) is left out. `CliMain.RunMain` returns the `Outcome` that
  would be printed. Of JSON encoding, only whether full mode can encode its events is modelled.
- CliMain.DiscriminatorClash: the message is the one current kotlinx.serialization versions give;
  other library versions word it differently.
- Lexing text into JSON is the parameter `lex`. The Kotlin serialization library's lexer is not
  part of this model.
- Json.AsString: a `String` field takes an unquoted number or boolean as its text, as `isLenient`
  does. `Json` keeps no literal text for an integer, so `5`, `05` and `5.0` are told apart only
  through `JFloat`; an integer is read as its canonical digits. Reading a number or boolean from a
  quoted string, which lenient mode also allows, is left out: those fields are decoded strictly.
- Text.Lowercase: lowers only the characters whose lower case is an ASCII letter (the ASCII
  capitals, `İ` and the Kelvin sign). Other characters are kept, so the result is exact wherever it
  is compared with an ASCII word, as in `parseBoolean`, but not in general.
- Text.EqualsIgnoreCase: upper-cases only the characters whose upper case is an ASCII letter, so it
  agrees with Kotlin's `equals(ignoreCase = true)` whenever one side is ASCII, as every mode value
  and name is, but not for two non-ASCII characters.
- ConfigBuilder.CodexConfig: the Kotlin DSL block `CodexExecConfigBuilder.() -> Unit` is modelled
  as a sequence of builder calls applied in order.
- WaitStatus.StatusExitCode: the wait status is given as its 32 bits rather than as a Kotlin `Int`.
  It uses the same masks and shift.
- CliMain.RunMain: any exception the executor raises is one `Err` reported with the `Error: `
  prefix. An `IllegalArgumentException` raised inside the executor is not reported differently.
  Kotlin printing `null` for an exception without a message is not modelled.
- ItemEncoding.ItemRoundTrip: requires an encodable item. No JSON `null` may sit where an opaque
  `JsonElement` field is expected. Decoding such a `null` gives an absent field.
- EventEncoding.EventRoundTrip: requires an encodable event. An `UnknownEvent`'s type is
  `unknown` or a name no other class declares, as only such an event can come out of decoding.
- Untagged objects follow the polymorphic library's rule: an event without `type` decodes only
  through `UnknownEvent`, which needs `type` and so fails. An item without `type` becomes
  `UnknownItem`. A number or boolean `type` dispatches by its text.
- `Codex.kt` (the SDK's high-level `Codex` object) and its coroutine and flow wrappers are not part
  of this model. Only their composition, building the command, running it and parsing its output,
  appears in `CliMain.MainResult`.
- How safe the quoted command string is for a shell is not claimed. `CommandBuilder.EscapeArg` is
  proved to round-trip through the command-line tool's own unquoting.
