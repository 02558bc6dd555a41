/**
 * `CliParser`: the command-line front end. Arguments use the `--name=value` style,
 * a value may be wrapped in double quotes with `\"` and `\\` escapes, and exactly the
 * arguments that do not start with `-` are task prompts (at most one).
 */
module CliParser {
  import opened Wrappers
  import opened Text
  import opened SandboxModes
  import opened ExecConfig
  import LineSplit
  import CommandBuilder

  const OptFullAuto := "--full-auto"
  const OptFull := "--full"
  const OptSkipGitRepoCheck := "--skip-git-repo-check"
  const OptSkipGitRepoCheckPrefix := "--skip-git-repo-check="
  const OptCdPrefix := "--cd="
  const OptSandboxPrefix := "--sandbox="
  const OptOutputLastMessagePrefix := "--output-last-message="
  const OptOutputSchemaPrefix := "--output-schema="
  const OptSessionPrefix := "--session="
  const OptImagePrefix := "--image="
  const OptionPrefix := "-"

  // ---------------------------------------------------------------- quoted values

  /**
   * The unescaping loop of `parseQuotedValue`: `\"` becomes `"`, `\\` becomes `\`, and a
   * backslash before anything else (or at the end) is kept as it is.
   */
  function Unescape(inner: string): (r: string)
    ensures |r| <= |inner|
    decreases |inner|
  {
    if inner == [] then []
    else if inner[0] == '\\' && |inner| > 1 && (inner[1] == '"' || inner[1] == '\\') then
      [inner[1]] + Unescape(inner[2..])
    else
      [inner[0]] + Unescape(inner[1..])
  }

  predicate IsQuoted(value: string) {
    |value| >= 2 && value[0] == '"' && value[|value| - 1] == '"'
  }

  /** What `parseQuotedValue` returns: the unescaped inside of a quoted value, any other value unchanged. */
  function Unquoted(value: string): (r: string)
    ensures !IsQuoted(value) ==> r == value
    ensures |r| <= |value|
  {
    if !IsQuoted(value) then value else Unescape(value[1..|value| - 1])
  }

  /** `parseQuotedValue`, with its index loop over the inside of the quotes. */
  method ParseQuotedValue(value: string) returns (r: string)
    ensures r == Unquoted(value)
  {
    if |value| < 2 || value[0] != '"' || value[|value| - 1] != '"' {
      return value;
    }
    var inner := value[1..|value| - 1];
    var out := "";
    var i := 0;
    while i < |inner|
      invariant 0 <= i <= |inner|
      invariant out + Unescape(inner[i..]) == Unescape(inner)
      decreases |inner| - i
    {
      if inner[i] == '\\' && i + 1 < |inner| {
        if inner[i + 1] == '"' {
          UnescapeStep(inner, i, out, 2);
          out := out + ['"'];
          i := i + 2;
        } else if inner[i + 1] == '\\' {
          UnescapeStep(inner, i, out, 2);
          out := out + ['\\'];
          i := i + 2;
        } else {
          UnescapeStep(inner, i, out, 1);
          out := out + [inner[i]];
          i := i + 1;
        }
      } else {
        UnescapeStep(inner, i, out, 1);
        out := out + [inner[i]];
        i := i + 1;
      }
    }
    assert inner[i..] == [];
    r := out;
  }

  /** One step of the unescaping loop: `width` characters of `inner` make one output character. */
  lemma UnescapeStep(inner: string, i: nat, out: string, width: nat)
    requires i < |inner| && i + width <= |inner|
    requires width == 2 <==> (inner[i] == '\\' && i + 1 < |inner| && (inner[i + 1] == '"' || inner[i + 1] == '\\'))
    requires width == 1 || width == 2
    ensures out + Unescape(inner[i..]) == (out + [inner[i + width - 1]]) + Unescape(inner[i + width..])
  {
    assert inner[i..][width..] == inner[i + width..];
    LineSplit.AppendAssoc(out, [inner[i + width - 1]], Unescape(inner[i + width..]));
  }

  /** Unescaping undoes the SDK's one-pass escape of a quoted argument's inside. */
  lemma {:induction false} UnescapeEscapeChars(s: string)
    ensures Unescape(CommandBuilder.EscapeChars(s)) == s
  {
    if s != [] {
      var rest := CommandBuilder.EscapeChars(s[1..]);
      var e := CommandBuilder.EscapeChar(s[0]) + rest;
      assert CommandBuilder.EscapeChars(s) == e;
      if s[0] == '\\' || s[0] == '"' {
        assert e[2..] == rest;
      } else {
        assert e[1..] == rest;
      }
      UnescapeEscapeChars(s[1..]);
    }
  }

  /** `parseQuotedValue` inverts `escapeArg`: a value written by the SDK's escaping reads back unchanged. */
  lemma QuotedValueRoundTrip(s: string)
    ensures Unquoted(CommandBuilder.EscapeArg(s)) == s
  {
    var q := CommandBuilder.EscapeArg(s);
    if s == [] {
      assert q[1..|q| - 1] == [];
    } else if CommandBuilder.NeedsQuoting(s) {
      assert q[1..|q| - 1] == CommandBuilder.EscapeChars(s);
      UnescapeEscapeChars(s);
    } else {
      assert q == s;
    }
  }

  /** A backslash before any character other than `"` and `\` is kept, together with that character. */
  lemma UnknownEscapeKept(c: char, rest: string)
    requires c != '"' && c != '\\'
    ensures Unescape(['\\', c] + rest) == ['\\', c] + Unescape(rest)
  {
    var t := ['\\', c] + rest;
    assert t[1..] == [c] + rest;
    assert ([c] + rest)[1..] == rest;
  }

  // ---------------------------------------------------------------- booleans and sandbox modes

  /** `parseBoolean`: `true` or `false` in any letter case. */
  function ParseBoolean(value: string): (r: Result<bool>)
    ensures r.Ok? ==> |value| == if r.value then 4 else 5
    ensures r.Err? ==> r.message == "Invalid boolean value: " + value + ". Expected: true or false"
  {
    LowercaseIs(value, "true");
    LowercaseIs(value, "false");
    var lower := Lowercase(value);
    if lower == "true" then Ok(true)
    else if lower == "false" then Ok(false)
    else Err("Invalid boolean value: " + value + ". Expected: true or false")
  }

  /** Each character of `s` lower-cases to the letter of `w` at its place. */
  predicate LowersTo(s: string, w: string) {
    |s| == |w| && forall i :: 0 <= i < |s| ==> LowercaseChar(s[i]) == w[i]
  }

  /**
   * `parseBoolean` accepts exactly the texts that `lowercase()` turns into one of the two words,
   * character by character, and reports anything else.
   */
  lemma ParseBooleanSpec(value: string)
    ensures ParseBoolean(value) == Ok(true) <==> LowersTo(value, "true")
    ensures ParseBoolean(value) == Ok(false) <==> LowersTo(value, "false")
    ensures ParseBoolean(value).Err? <==> !LowersTo(value, "true") && !LowersTo(value, "false")
    ensures ParseBoolean(value).Err? ==> ParseBoolean(value).message == "Invalid boolean value: " + value + ". Expected: true or false"
  {
    LowercaseIs(value, "true");
    LowercaseIs(value, "false");
  }

  /**
   * `parseBoolean` lower-cases rather than ignoring case, so a long `ſ` that `equals` would take
   * for `s` is refused.
   */
  lemma ParseBooleanNotIgnoreCase()
    ensures EqualsIgnoreCase("fal\U{017F}e", "false")
    ensures ParseBoolean("fal\U{017F}e").Err?
  {
    ParseBooleanSpec("fal\U{017F}e");
    assert LowercaseChar("fal\U{017F}e"[3]) != "false"[3];
  }

  /** The predicate `parseSandboxMode` searches for: the wire value or the constant name, ignoring case. */
  predicate ModeMatches(m: SandboxMode, value: string) {
    EqualsIgnoreCase(Value(m), value) || EqualsIgnoreCase(Name(m), value)
  }

  /** `entries.find { ... }`: the first entry that matches. */
  function FindMode(entries: seq<SandboxMode>, value: string): Option<SandboxMode> {
    if entries == [] then None
    else if ModeMatches(entries[0], value) then Some(entries[0])
    else FindMode(entries[1..], value)
  }

  /** `find` returns an entry that matches, and returns nothing only when no entry matches. */
  lemma {:induction false} FindModeSpec(entries: seq<SandboxMode>, value: string)
    ensures FindMode(entries, value).Some? ==>
      FindMode(entries, value).value in entries && ModeMatches(FindMode(entries, value).value, value)
    ensures FindMode(entries, value).None? <==> forall i :: 0 <= i < |entries| ==> !ModeMatches(entries[i], value)
  {
    if entries != [] {
      FindModeSpec(entries[1..], value);
      if !ModeMatches(entries[0], value) {
        assert forall i :: 1 <= i < |entries| ==> entries[i] == entries[1..][i - 1];
      }
    }
  }

  /** The list of valid modes in the error message: the wire values joined with ", ". */
  function ValidModes(): string {
    JoinWith([Value(Entries[0]), Value(Entries[1]), Value(Entries[2])], ", ")
  }

  /** `parseSandboxMode`. */
  function ParseSandboxMode(value: string): (r: Result<SandboxMode>)
    ensures r.Ok? ==> ModeMatches(r.value, value)
    ensures r.Err? ==> r.message == "Unknown sandbox mode: " + value + ". Valid modes: " + ValidModes()
  {
    FindModeSpec(Entries, value);
    match FindMode(Entries, value)
    case Some(m) => Ok(m)
    case None => Err("Unknown sandbox mode: " + value + ". Valid modes: " + ValidModes())
  }

  /** `parseSandboxMode` succeeds exactly when some mode matches, with a mode that matches. */
  lemma ParseSandboxModeSpec(value: string)
    ensures ParseSandboxMode(value).Ok? ==> ModeMatches(ParseSandboxMode(value).value, value)
    ensures ParseSandboxMode(value).Err? <==> forall m :: !ModeMatches(m, value)
    ensures ParseSandboxMode(value).Err? ==>
      ParseSandboxMode(value).message == "Unknown sandbox mode: " + value + ". Valid modes: " + ValidModes()
  {
    FindModeSpec(Entries, value);
    if FindMode(Entries, value).None? {
      forall m ensures !ModeMatches(m, value) {
        EntriesComplete(m);
      }
    }
  }

  /** No text matches two different modes, so the order of the search does not matter. */
  lemma ModeMatchUnique(m: SandboxMode, n: SandboxMode, value: string)
    requires ModeMatches(m, value) && ModeMatches(n, value)
    ensures m == n
  {
    if m != n {
      ValuesDistinct(m, n);
      ValuesDistinct(n, m);
    }
  }

  /** Every mode's wire value is accepted and names that mode. */
  lemma ParseSandboxModeValue(m: SandboxMode)
    ensures ParseSandboxMode(Value(m)) == Ok(m)
  {
    var r := ParseSandboxMode(Value(m));
    ParseSandboxModeSpec(Value(m));
    assert ModeMatches(m, Value(m));
    ModeMatchUnique(r.value, m, Value(m));
  }

  /** Every mode's constant name is accepted and names that mode. */
  lemma ParseSandboxModeName(m: SandboxMode)
    ensures ParseSandboxMode(Name(m)) == Ok(m)
  {
    var r := ParseSandboxMode(Name(m));
    ParseSandboxModeSpec(Name(m));
    assert ModeMatches(m, Name(m));
    ModeMatchUnique(r.value, m, Name(m));
  }

  // Ignoring case also lets through the non-ASCII characters that fold onto a letter of a mode.

  /** The Kelvin sign counts as `k`. */
  lemma KelvinSignSelectsMode()
    ensures ParseSandboxMode("wor\U{212A}space-write") == Ok(WorkspaceWrite)
  {
    var x, y := "wor", "space-write";
    assert Value(WorkspaceWrite) == x + ['k'] + y;
    assert "wor\U{212A}space-write" == x + ['\U{212A}'] + y;
    FoldsTo(x, 'k', '\U{212A}', y, Value(WorkspaceWrite), WorkspaceWrite);
  }

  /** The long `ſ` counts as `s`. */
  lemma LongSSelectsMode()
    ensures ParseSandboxMode("DANGER_FULL_ACCE\U{017F}S") == Ok(DangerFullAccess)
  {
    var x, y := "DANGER_FULL_ACCE", "S";
    assert Name(DangerFullAccess) == x + ['S'] + y;
    assert "DANGER_FULL_ACCE\U{017F}S" == x + ['\U{017F}'] + y;
    FoldsTo(x, 'S', '\U{017F}', y, Name(DangerFullAccess), DangerFullAccess);
  }

  /** The dotless `ı` counts as `i`. */
  lemma DotlessISelectsMode()
    ensures ParseSandboxMode("workspace-wr\U{0131}te") == Ok(WorkspaceWrite)
  {
    var x, y := "workspace-wr", "te";
    assert Value(WorkspaceWrite) == x + ['i'] + y;
    assert "workspace-wr\U{0131}te" == x + ['\U{0131}'] + y;
    FoldsTo(x, 'i', '\U{0131}', y, Value(WorkspaceWrite), WorkspaceWrite);
  }

  /** A mode's value or name with one character replaced by one equal to it ignoring case selects that mode. */
  lemma FoldsTo(x: string, c: char, d: char, y: string, text: string, m: SandboxMode)
    requires text == Value(m) || text == Name(m)
    requires text == x + [c] + y && CharEqualsIgnoreCase(c, d)
    ensures ParseSandboxMode(x + [d] + y) == Ok(m)
  {
    var value := x + [d] + y;
    assert EqualsIgnoreCase(text, value) by {
      forall i | 0 <= i < |text| ensures CharEqualsIgnoreCase(text[i], value[i]) {
        if i != |x| {
          assert text[i] == value[i];
        }
      }
    }
    assert ModeMatches(m, value);
    ParseSandboxModeSpec(value);
    ModeMatchUnique(ParseSandboxMode(value).value, m, value);
  }

  // ---------------------------------------------------------------- arguments

  /** Which branch of the `when` in `parse` an argument takes; the branches are tried in this order. */
  datatype ArgKind =
    | CdOpt | FullAutoFlag | FullFlag | SkipValueOpt | SkipFlag | SandboxOpt
    | OutputLastMessageOpt | OutputSchemaOpt | SessionOpt | ImageOpt
    | UnknownOpt | Positional

  /** The test of one branch: the argument starts with, or is exactly, the given text. */
  datatype OptionTest = Prefix(text: string) | Exact(text: string)

  predicate Passes(t: OptionTest, arg: string) {
    match t
    case Prefix(p) => StartsWith(arg, p)
    case Exact(x) => arg == x
  }

  /** The branches of the `when` in `parse`, in the order they are tried. */
  const Branches: seq<(OptionTest, ArgKind)> := [
    (Prefix(OptCdPrefix), CdOpt),
    (Exact(OptFullAuto), FullAutoFlag),
    (Exact(OptFull), FullFlag),
    (Prefix(OptSkipGitRepoCheckPrefix), SkipValueOpt),
    (Exact(OptSkipGitRepoCheck), SkipFlag),
    (Prefix(OptSandboxPrefix), SandboxOpt),
    (Prefix(OptOutputLastMessagePrefix), OutputLastMessageOpt),
    (Prefix(OptOutputSchemaPrefix), OutputSchemaOpt),
    (Prefix(OptSessionPrefix), SessionOpt),
    (Prefix(OptImagePrefix), ImageOpt),
    (Prefix(OptionPrefix), UnknownOpt)
  ]

  /** The kind of the first branch whose test passes; an argument no test accepts is positional. */
  function FirstBranch(bs: seq<(OptionTest, ArgKind)>, arg: string): ArgKind {
    if bs == [] then Positional
    else if Passes(bs[0].0, arg) then bs[0].1
    else FirstBranch(bs[1..], arg)
  }

  function Classify(arg: string): ArgKind {
    FirstBranch(Branches, arg)
  }

  /** The value of a `--name=value` argument: the text after its first `=`, unquoted. */
  function OptionValue(arg: string): string {
    Unquoted(SubstringAfter(arg, '='))
  }

  /** The local variables of `parse` while it walks the arguments. */
  datatype ParseState = ParseState(
    task: Option<string>,
    workingDirectory: Option<string>,
    fullAuto: bool,
    full: bool,
    sandbox: SandboxMode,
    outputLastMessage: Option<string>,
    outputSchema: Option<string>,
    skipGitRepoCheck: bool,
    session: Option<string>,
    images: seq<string>)

  /** The initial values: no task or directory, read-only sandbox, the Git check skipped. */
  const Initial := ParseState(None, None, false, false, ReadOnly, None, None, true, None, [])

  /** One iteration of the loop of `parse`. */
  function Step(st: ParseState, arg: string): (r: Result<ParseState>)
    ensures r.Err? ==> Classify(arg) in {SkipValueOpt, SandboxOpt, UnknownOpt, Positional}
    ensures r.Err? && Classify(arg) == Positional ==> st.task.Some?
    ensures r.Ok? ==> r.value.full == (st.full || Classify(arg) == FullFlag)
  {
    match Classify(arg)
    case CdOpt => Ok(st.(workingDirectory := Some(OptionValue(arg))))
    case FullAutoFlag => Ok(st.(fullAuto := true))
    case FullFlag => Ok(st.(full := true))
    case SkipValueOpt =>
      (match ParseBoolean(OptionValue(arg))
       case Ok(b) => Ok(st.(skipGitRepoCheck := b))
       case Err(e) => Err(e))
    case SkipFlag => Ok(st.(skipGitRepoCheck := true))
    case SandboxOpt =>
      (match ParseSandboxMode(OptionValue(arg))
       case Ok(m) => Ok(st.(sandbox := m))
       case Err(e) => Err(e))
    case OutputLastMessageOpt => Ok(st.(outputLastMessage := Some(OptionValue(arg))))
    case OutputSchemaOpt => Ok(st.(outputSchema := Some(OptionValue(arg))))
    case SessionOpt => Ok(st.(session := Some(OptionValue(arg))))
    case ImageOpt => Ok(st.(images := st.images + [OptionValue(arg)]))
    case UnknownOpt => Err("Unknown option: " + arg)
    case Positional =>
      if st.task.None? then Ok(st.(task := Some(arg))) else Err("Unexpected argument: " + arg)
  }

  /** The loop of `parse` over `args`, stopping at the first error. */
  function Run(args: seq<string>): Result<ParseState>
    decreases |args|
  {
    if args == [] then Ok(Initial)
    else
      match Run(args[..|args| - 1])
      case Err(e) => Err(e)
      case Ok(st) => Step(st, args[|args| - 1])
  }

  /** The result of `parse`: the task, the configuration, and whether all events are wanted. */
  datatype CliArgs = CliArgs(task: Option<string>, config: CodexExecConfig, full: bool)

  /** The check and construction after the loop. */
  function Finish(st: ParseState): Result<CliArgs> {
    match st.workingDirectory
    case None => Err("Missing required option: --cd=<dir>")
    case Some(wd) =>
      Ok(CliArgs(st.task,
                 CodexExecConfig(wd, st.fullAuto, Some(st.sandbox), st.outputLastMessage,
                                 st.outputSchema, st.skipGitRepoCheck, st.session, st.images),
                 st.full))
  }

  /** What `parse` returns for `args`, or the message of the `IllegalArgumentException` it throws. */
  function ParseArgs(args: seq<string>): (r: Result<CliArgs>)
    ensures r.Ok? ==> r.value.config.sandbox.Some?
    ensures args == [] ==> r == Err("Missing required option: --cd=<dir>")
  {
    match Run(args)
    case Err(e) => Err(e)
    case Ok(st) => Finish(st)
  }

  /**
   * `parse`: one pass over the arguments. `st` holds the local variables of the source loop
   * (one field each), and the branch an argument takes is the one `Classify` names.
   */
  method Parse(args: seq<string>) returns (r: Result<CliArgs>)
    ensures r == ParseArgs(args)
  {
    var st := Initial;
    var i := 0;
    while i < |args|
      invariant 0 <= i <= |args|
      invariant Run(args[..i]) == Ok(st)
    {
      var arg := args[i];
      assert args[..i + 1][..i] == args[..i];
      assert Run(args[..i + 1]) == Step(st, arg);
      match Classify(arg) {
      case CdOpt =>
        var v := ParseQuotedValue(SubstringAfter(arg, '='));
        st := st.(workingDirectory := Some(v));
      case FullAutoFlag =>
        st := st.(fullAuto := true);
      case FullFlag =>
        st := st.(full := true);
      case SkipValueOpt =>
        var v := ParseQuotedValue(SubstringAfter(arg, '='));
        var b := ParseBoolean(v);
        if b.Err? {
          RunErrorPersists(args, i + 1);
          return Err(b.message);
        }
        st := st.(skipGitRepoCheck := b.value);
      case SkipFlag =>
        st := st.(skipGitRepoCheck := true);
      case SandboxOpt =>
        var v := ParseQuotedValue(SubstringAfter(arg, '='));
        var m := ParseSandboxMode(v);
        if m.Err? {
          RunErrorPersists(args, i + 1);
          return Err(m.message);
        }
        st := st.(sandbox := m.value);
      case OutputLastMessageOpt =>
        var v := ParseQuotedValue(SubstringAfter(arg, '='));
        st := st.(outputLastMessage := Some(v));
      case OutputSchemaOpt =>
        var v := ParseQuotedValue(SubstringAfter(arg, '='));
        st := st.(outputSchema := Some(v));
      case SessionOpt =>
        var v := ParseQuotedValue(SubstringAfter(arg, '='));
        st := st.(session := Some(v));
      case ImageOpt =>
        var v := ParseQuotedValue(SubstringAfter(arg, '='));
        st := st.(images := st.images + [v]);
      case UnknownOpt =>
        RunErrorPersists(args, i + 1);
        return Err("Unknown option: " + arg);
      case Positional =>
        if st.task.None? {
          st := st.(task := Some(arg));
        } else {
          RunErrorPersists(args, i + 1);
          return Err("Unexpected argument: " + arg);
        }
      }
      i := i + 1;
    }
    assert args[..i] == args;
    if st.workingDirectory.None? {
      return Err("Missing required option: --cd=<dir>");
    }
    var config := CodexExecConfig(st.workingDirectory.value, st.fullAuto, Some(st.sandbox),
                                  st.outputLastMessage, st.outputSchema, st.skipGitRepoCheck,
                                  st.session, st.images);
    r := Ok(CliArgs(st.task, config, st.full));
  }

  /** Once the loop has stopped with an error, the remaining arguments do not change it. */
  lemma {:induction false} RunErrorPersists(args: seq<string>, n: nat)
    requires n <= |args| && Run(args[..n]).Err?
    ensures Run(args) == Run(args[..n])
    decreases |args| - n
  {
    if n < |args| {
      assert args[..n + 1][..n] == args[..n];
      RunErrorPersists(args, n + 1);
    } else {
      assert args[..n] == args;
    }
  }

  // ---------------------------------------------------------------- what `parse` computes

  /** The arguments, in order, that take one of the branches `ks`. */
  function ArgsOfKind(args: seq<string>, ks: set<ArgKind>): (r: seq<string>)
    ensures |r| <= |args|
    decreases |args|
  {
    if args == [] then []
    else
      var last := args[|args| - 1];
      ArgsOfKind(args[..|args| - 1], ks) + (if Classify(last) in ks then [last] else [])
  }

  function Last(xs: seq<string>): Option<string> {
    if xs == [] then None else Some(xs[|xs| - 1])
  }

  /** The value of the last argument of branch `k`, if there is one. */
  function LastValue(args: seq<string>, k: ArgKind): Option<string> {
    match Last(ArgsOfKind(args, {k}))
    case None => None
    case Some(a) => Some(OptionValue(a))
  }

  function OptionValues(xs: seq<string>): (r: seq<string>)
    ensures |r| == |xs|
    ensures forall i :: 0 <= i < |xs| ==> r[i] == OptionValue(xs[i])
  {
    if xs == [] then [] else [OptionValue(xs[0])] + OptionValues(xs[1..])
  }

  /** An argument the loop accepts: a known option with a valid value, or a positional argument. */
  predicate Accepted(arg: string) {
    match Classify(arg)
    case UnknownOpt => false
    case SkipValueOpt => ParseBoolean(OptionValue(arg)).Ok?
    case SandboxOpt => ParseSandboxMode(OptionValue(arg)).Ok?
    case _ => true
  }

  /** The Git-check setting an argument of either skip branch asks for. */
  function SkipSetting(arg: string): bool {
    Classify(arg) == SkipFlag || ParseBoolean(OptionValue(arg)) == Ok(true)
  }

  /** The sandbox mode a `--sandbox=` argument names, read-only when it names none. */
  function ModeOf(arg: string): SandboxMode {
    match ParseSandboxMode(OptionValue(arg))
    case Ok(m) => m
    case Err(_) => ReadOnly
  }

  /** The loop's state after `args`, stated argument kind by argument kind. */
  function Expected(args: seq<string>): ParseState {
    ParseState(
      Last(ArgsOfKind(args, {Positional})),
      LastValue(args, CdOpt),
      ArgsOfKind(args, {FullAutoFlag}) != [],
      ArgsOfKind(args, {FullFlag}) != [],
      LastMode(args),
      LastValue(args, OutputLastMessageOpt),
      LastValue(args, OutputSchemaOpt),
      LastSkipSetting(args),
      LastValue(args, SessionOpt),
      OptionValues(ArgsOfKind(args, {ImageOpt})))
  }

  /** The mode the last `--sandbox=` argument names; read-only when there is none. */
  function LastMode(args: seq<string>): SandboxMode {
    var xs := ArgsOfKind(args, {SandboxOpt});
    if xs == [] then ReadOnly else ModeOf(xs[|xs| - 1])
  }

  /** What the last Git-check argument says; skipped when there is none. */
  function LastSkipSetting(args: seq<string>): bool {
    var xs := ArgsOfKind(args, {SkipValueOpt, SkipFlag});
    if xs == [] then true else SkipSetting(xs[|xs| - 1])
  }

  /** The images list keeps every `--image=` value in order. */
  lemma {:induction false} OptionValuesAppend(xs: seq<string>, a: string)
    ensures OptionValues(xs + [a]) == OptionValues(xs) + [OptionValue(a)]
  {
  }

  /** Run on a longer list unfolds to one more step. */
  lemma {:induction false} RunSnoc(prefix: seq<string>, last: string)
    ensures Run(prefix + [last]) == match Run(prefix) case Err(e) => Err(e) case Ok(st) => Step(st, last)
  {
    assert (prefix + [last])[..|prefix|] == prefix;
  }

  lemma {:induction false} ArgsOfKindSnoc(prefix: seq<string>, last: string, ks: set<ArgKind>)
    ensures ArgsOfKind(prefix + [last], ks) == ArgsOfKind(prefix, ks) + (if Classify(last) in ks then [last] else [])
  {
    assert (prefix + [last])[..|prefix|] == prefix;
  }

  /** The four options that hold a single text value, and the state field each one sets. */
  predicate IsTextOption(k: ArgKind) {
    k == CdOpt || k == OutputLastMessageOpt || k == OutputSchemaOpt || k == SessionOpt
  }

  function TextField(st: ParseState, k: ArgKind): Option<string>
    requires IsTextOption(k)
  {
    match k
    case CdOpt => st.workingDirectory
    case OutputLastMessageOpt => st.outputLastMessage
    case OutputSchemaOpt => st.outputSchema
    case SessionOpt => st.session
  }

  // One step, field by field.

  lemma StepOk(st: ParseState, arg: string)
    ensures Step(st, arg).Ok? <==> Accepted(arg) && (Classify(arg) == Positional ==> st.task.None?)
  {
  }

  lemma StepTask(st: ParseState, arg: string)
    requires Step(st, arg).Ok?
    ensures Step(st, arg).value.task == if Classify(arg) == Positional then Some(arg) else st.task
  {
  }

  lemma StepTextField(st: ParseState, arg: string, k: ArgKind)
    requires Step(st, arg).Ok? && IsTextOption(k)
    ensures TextField(Step(st, arg).value, k) == if Classify(arg) == k then Some(OptionValue(arg)) else TextField(st, k)
  {
  }

  lemma StepFlags(st: ParseState, arg: string)
    requires Step(st, arg).Ok?
    ensures Step(st, arg).value.fullAuto == (st.fullAuto || Classify(arg) == FullAutoFlag)
    ensures Step(st, arg).value.full == (st.full || Classify(arg) == FullFlag)
  {
  }

  lemma StepSandbox(st: ParseState, arg: string)
    requires Step(st, arg).Ok?
    ensures Step(st, arg).value.sandbox == if Classify(arg) == SandboxOpt then ModeOf(arg) else st.sandbox
  {
  }

  lemma StepSkip(st: ParseState, arg: string)
    requires Step(st, arg).Ok?
    ensures Step(st, arg).value.skipGitRepoCheck ==
      if Classify(arg) in {SkipValueOpt, SkipFlag} then SkipSetting(arg) else st.skipGitRepoCheck
  {
    if Classify(arg) == SkipValueOpt {
      ParseBooleanSpec(OptionValue(arg));
    }
  }

  lemma StepImages(st: ParseState, arg: string)
    requires Step(st, arg).Ok?
    ensures Step(st, arg).value.images == st.images + if Classify(arg) == ImageOpt then [OptionValue(arg)] else []
  {
  }

  // The whole loop, field by field.

  /** The task is the first positional argument, and a successful run has at most one. */
  lemma {:induction false} RunTask(args: seq<string>)
    requires Run(args).Ok?
    ensures |ArgsOfKind(args, {Positional})| <= 1
    ensures Run(args).value.task == Last(ArgsOfKind(args, {Positional}))
    decreases |args|
  {
    if args != [] {
      var prefix, last := args[..|args| - 1], args[|args| - 1];
      assert args == prefix + [last];
      RunSnoc(prefix, last);
      RunTask(prefix);
      ArgsOfKindSnoc(prefix, last, {Positional});
      StepTask(Run(prefix).value, last);
    }
  }

  /** The loop succeeds exactly when every argument is accepted and at most one is positional. */
  lemma {:induction false} RunOk(args: seq<string>)
    ensures Run(args).Ok? <==>
      (forall i :: 0 <= i < |args| ==> Accepted(args[i])) && |ArgsOfKind(args, {Positional})| <= 1
    decreases |args|
  {
    if args != [] {
      var prefix, last := args[..|args| - 1], args[|args| - 1];
      assert args == prefix + [last];
      RunSnoc(prefix, last);
      RunOk(prefix);
      ArgsOfKindSnoc(prefix, last, {Positional});
      assert forall i :: 0 <= i < |prefix| ==> prefix[i] == args[i];
      if Run(prefix).Ok? {
        RunTask(prefix);
        StepOk(Run(prefix).value, last);
      } else {
        ArgsOfKindGrows(prefix, last, {Positional});
      }
    }
  }

  lemma {:induction false} ArgsOfKindGrows(prefix: seq<string>, last: string, ks: set<ArgKind>)
    ensures |ArgsOfKind(prefix, ks)| <= |ArgsOfKind(prefix + [last], ks)|
  {
    ArgsOfKindSnoc(prefix, last, ks);
  }

  /** Each single-valued option holds the value of its last occurrence. */
  lemma {:induction false} RunTextField(args: seq<string>, k: ArgKind)
    requires Run(args).Ok? && IsTextOption(k)
    ensures TextField(Run(args).value, k) == LastValue(args, k)
    decreases |args|
  {
    if args != [] {
      var prefix, last := args[..|args| - 1], args[|args| - 1];
      assert args == prefix + [last];
      RunSnoc(prefix, last);
      RunTextField(prefix, k);
      LastValueSnoc(prefix, last, k);
      StepTextField(Run(prefix).value, last, k);
    }
  }

  /** A flag is set exactly when it occurs. */
  lemma {:induction false} RunFlags(args: seq<string>)
    requires Run(args).Ok?
    ensures Run(args).value.fullAuto == (ArgsOfKind(args, {FullAutoFlag}) != [])
    ensures Run(args).value.full == (ArgsOfKind(args, {FullFlag}) != [])
    decreases |args|
  {
    if args != [] {
      var prefix, last := args[..|args| - 1], args[|args| - 1];
      assert args == prefix + [last];
      RunSnoc(prefix, last);
      RunFlags(prefix);
      ArgsOfKindSnoc(prefix, last, {FullAutoFlag});
      ArgsOfKindSnoc(prefix, last, {FullFlag});
      StepFlags(Run(prefix).value, last);
    }
  }

  /** The last value of a branch after one more argument. */
  lemma LastValueSnoc(prefix: seq<string>, last: string, k: ArgKind)
    ensures LastValue(prefix + [last], k) == if Classify(last) == k then Some(OptionValue(last)) else LastValue(prefix, k)
  {
    ArgsOfKindSnoc(prefix, last, {k});
    var xs := ArgsOfKind(prefix, {k});
    if Classify(last) == k {
      assert ArgsOfKind(prefix + [last], {k}) == xs + [last];
    } else {
      assert ArgsOfKind(prefix + [last], {k}) == xs;
    }
  }

  /** The last mode after one more argument. */
  lemma LastModeSnoc(prefix: seq<string>, last: string)
    ensures LastMode(prefix + [last]) == if Classify(last) == SandboxOpt then ModeOf(last) else LastMode(prefix)
  {
    ArgsOfKindSnoc(prefix, last, {SandboxOpt});
    var xs := ArgsOfKind(prefix, {SandboxOpt});
    if Classify(last) == SandboxOpt {
      assert ArgsOfKind(prefix + [last], {SandboxOpt}) == xs + [last];
    } else {
      assert ArgsOfKind(prefix + [last], {SandboxOpt}) == xs;
    }
  }

  /** The last Git-check setting after one more argument. */
  lemma LastSkipSettingSnoc(prefix: seq<string>, last: string)
    ensures LastSkipSetting(prefix + [last]) ==
      if Classify(last) in {SkipValueOpt, SkipFlag} then SkipSetting(last) else LastSkipSetting(prefix)
  {
    ArgsOfKindSnoc(prefix, last, {SkipValueOpt, SkipFlag});
    var xs := ArgsOfKind(prefix, {SkipValueOpt, SkipFlag});
    if Classify(last) in {SkipValueOpt, SkipFlag} {
      assert ArgsOfKind(prefix + [last], {SkipValueOpt, SkipFlag}) == xs + [last];
    } else {
      assert ArgsOfKind(prefix + [last], {SkipValueOpt, SkipFlag}) == xs;
    }
  }

  /** The sandbox is the mode of the last `--sandbox=`, read-only without one. */
  lemma {:induction false} RunSandbox(args: seq<string>)
    requires Run(args).Ok?
    ensures Run(args).value.sandbox == LastMode(args)
    decreases |args|
  {
    if args != [] {
      var prefix, last := args[..|args| - 1], args[|args| - 1];
      assert args == prefix + [last];
      RunSnoc(prefix, last);
      RunSandbox(prefix);
      LastModeSnoc(prefix, last);
      StepSandbox(Run(prefix).value, last);
    }
  }

  /** The Git check is skipped unless the last skip argument says `false`. */
  lemma {:induction false} RunSkip(args: seq<string>)
    requires Run(args).Ok?
    ensures Run(args).value.skipGitRepoCheck == LastSkipSetting(args)
    decreases |args|
  {
    if args != [] {
      var prefix, last := args[..|args| - 1], args[|args| - 1];
      assert args == prefix + [last];
      RunSnoc(prefix, last);
      RunSkip(prefix);
      LastSkipSettingSnoc(prefix, last);
      StepSkip(Run(prefix).value, last);
    }
  }

  /** The images are the values of every `--image=`, in order. */
  lemma {:induction false} RunImages(args: seq<string>)
    requires Run(args).Ok?
    ensures Run(args).value.images == OptionValues(ArgsOfKind(args, {ImageOpt}))
    decreases |args|
  {
    if args != [] {
      var prefix, last := args[..|args| - 1], args[|args| - 1];
      assert args == prefix + [last];
      RunSnoc(prefix, last);
      RunImages(prefix);
      ArgsOfKindSnoc(prefix, last, {ImageOpt});
      OptionValuesAppend(ArgsOfKind(prefix, {ImageOpt}), last);
      StepImages(Run(prefix).value, last);
    }
  }

  /** A successful loop ends in the state `Expected` describes. */
  lemma RunSpec(args: seq<string>)
    requires Run(args).Ok?
    ensures Run(args).value == Expected(args)
  {
    RunTask(args);
    RunTextField(args, CdOpt);
    RunTextField(args, OutputLastMessageOpt);
    RunTextField(args, OutputSchemaOpt);
    RunTextField(args, SessionOpt);
    RunFlags(args);
    RunSandbox(args);
    RunSkip(args);
    RunImages(args);
  }

  // ---------------------------------------------------------------- what `parse` returns

  /** The configuration `parse` builds from the loop's final state. */
  function ConfigOf(st: ParseState, wd: string): CodexExecConfig {
    CodexExecConfig(wd, st.fullAuto, Some(st.sandbox), st.outputLastMessage, st.outputSchema,
                    st.skipGitRepoCheck, st.session, st.images)
  }

  /**
   * `parse` succeeds exactly when every argument is accepted, at most one is positional and
   * some `--cd=` is given; the result is then the one `Expected` describes, and its sandbox
   * is always set.
   */
  lemma ParseArgsSpec(args: seq<string>)
    ensures ParseArgs(args).Ok? <==>
      (forall i :: 0 <= i < |args| ==> Accepted(args[i]))
      && |ArgsOfKind(args, {Positional})| <= 1
      && ArgsOfKind(args, {CdOpt}) != []
    ensures ParseArgs(args).Ok? ==>
      var e := Expected(args);
      ParseArgs(args).value == CliArgs(e.task, ConfigOf(e, e.workingDirectory.value), e.full)
      && ParseArgs(args).value.config.sandbox.Some?
  {
    RunOk(args);
    if Run(args).Ok? {
      RunSpec(args);
    }
  }

  /** Without a `--cd=` argument `parse` fails, and with the missing-option message when nothing else is wrong. */
  lemma MissingWorkingDirectory(args: seq<string>)
    requires ArgsOfKind(args, {CdOpt}) == []
    ensures ParseArgs(args).Err?
    ensures Run(args).Ok? ==> ParseArgs(args) == Err("Missing required option: --cd=<dir>")
  {
    ParseArgsSpec(args);
    if Run(args).Ok? {
      RunTextField(args, CdOpt);
    }
  }

  /** The first unknown option after an accepted prefix is reported. */
  lemma UnknownOptionReported(args: seq<string>, i: nat)
    requires i < |args| && Run(args[..i]).Ok? && Classify(args[i]) == UnknownOpt
    ensures ParseArgs(args) == Err("Unknown option: " + args[i])
  {
    RunSnoc(args[..i], args[i]);
    assert args[..i] + [args[i]] == args[..i + 1];
    RunErrorPersists(args, i + 1);
  }

  /** A second positional argument after an accepted prefix is reported. */
  lemma SecondPositionalReported(args: seq<string>, i: nat)
    requires i < |args| && Run(args[..i]).Ok? && Classify(args[i]) == Positional
    requires ArgsOfKind(args[..i], {Positional}) != []
    ensures ParseArgs(args) == Err("Unexpected argument: " + args[i])
  {
    RunTask(args[..i]);
    RunSnoc(args[..i], args[i]);
    assert args[..i] + [args[i]] == args[..i + 1];
    RunErrorPersists(args, i + 1);
  }

  /** A branch whose text begins with `-` only accepts arguments that begin with `-`. */
  lemma PassesDash(t: OptionTest, arg: string)
    requires StartsWith(t.text, OptionPrefix) && Passes(t, arg)
    ensures StartsWith(arg, OptionPrefix)
  {
    if t.Prefix? {
      assert arg[..|t.text|][..1] == arg[..1];
    }
  }

  /** When every test text begins with `-`, an argument that does not is positional. */
  lemma {:induction false} FirstBranchNoDash(bs: seq<(OptionTest, ArgKind)>, arg: string)
    requires forall j :: 0 <= j < |bs| ==> StartsWith(bs[j].0.text, OptionPrefix)
    requires !StartsWith(arg, OptionPrefix)
    ensures FirstBranch(bs, arg) == Positional
  {
    if bs != [] {
      if Passes(bs[0].0, arg) {
        PassesDash(bs[0].0, arg);
      }
      assert forall j :: 0 <= j < |bs[1..]| ==> bs[1..][j] == bs[j + 1];
      FirstBranchNoDash(bs[1..], arg);
    }
  }

  /** When the last test is a bare `-` prefix, no argument that begins with `-` is positional. */
  lemma {:induction false} FirstBranchCatchAll(bs: seq<(OptionTest, ArgKind)>, arg: string)
    requires |bs| > 0 && bs[|bs| - 1].0 == Prefix(OptionPrefix)
    requires forall j :: 0 <= j < |bs| ==> bs[j].1 != Positional
    requires StartsWith(arg, OptionPrefix)
    ensures FirstBranch(bs, arg) != Positional
  {
    if !Passes(bs[0].0, arg) {
      assert |bs| > 1;
      assert bs[1..][|bs[1..]| - 1] == bs[|bs| - 1];
      assert forall j :: 0 <= j < |bs[1..]| ==> bs[1..][j] == bs[j + 1];
      FirstBranchCatchAll(bs[1..], arg);
    }
  }

  /** An argument is positional exactly when it does not start with `-`. */
  lemma PositionalIffNoDash(arg: string)
    ensures Classify(arg) == Positional <==> !StartsWith(arg, OptionPrefix)
  {
    forall j | 0 <= j < |Branches| ensures StartsWith(Branches[j].0.text, OptionPrefix) {
    }
    if StartsWith(arg, OptionPrefix) {
      FirstBranchCatchAll(Branches, arg);
    } else {
      FirstBranchNoDash(Branches, arg);
    }
  }

  /** The value of a `--name=value` option is everything after its prefix, unquoted. */
  lemma OptionValueAfterPrefix(arg: string, prefix: string)
    requires prefix in {OptCdPrefix, OptSkipGitRepoCheckPrefix, OptSandboxPrefix, OptOutputLastMessagePrefix,
                        OptOutputSchemaPrefix, OptSessionPrefix, OptImagePrefix}
    requires StartsWith(arg, prefix)
    ensures OptionValue(arg) == Unquoted(arg[|prefix|..])
  {
    SubstringAfterPrefix(arg, prefix);
  }

  /**
   * A directory quoted with the SDK's `escapeArg` and a task prompt that does not start with
   * `-` parse back to that directory and prompt, with every other setting at its default.
   */
  lemma DirectoryAndTaskRoundTrip(dir: string, task: string)
    requires !StartsWith(task, OptionPrefix)
    ensures ParseArgs([OptCdPrefix + CommandBuilder.EscapeArg(dir), task]) ==
      Ok(CliArgs(Some(task), CodexExecConfig(dir, false, Some(ReadOnly), None, None, true, None, []), false))
  {
    var cd := OptCdPrefix + CommandBuilder.EscapeArg(dir);
    var s1 := Initial.(workingDirectory := Some(dir));
    var s2 := s1.(task := Some(task));
    CdArgumentStep(dir);
    TaskArgumentStep(s1, task);
    RunSnoc([], cd);
    RunSnoc([cd], task);
    assert [cd] + [task] == [cd, task];
    assert Run([cd, task]) == Ok(s2);
  }

  /** A `--cd=` argument written by the SDK sets the directory it names. */
  lemma CdArgumentStep(dir: string)
    ensures Step(Initial, OptCdPrefix + CommandBuilder.EscapeArg(dir)) == Ok(Initial.(workingDirectory := Some(dir)))
  {
    var cd := OptCdPrefix + CommandBuilder.EscapeArg(dir);
    assert cd[..|OptCdPrefix|] == OptCdPrefix;
    assert Classify(cd) == CdOpt;
    OptionValueAfterPrefix(cd, OptCdPrefix);
    assert cd[|OptCdPrefix|..] == CommandBuilder.EscapeArg(dir);
    QuotedValueRoundTrip(dir);
  }

  /** A first argument that is not an option becomes the task. */
  lemma TaskArgumentStep(st: ParseState, task: string)
    requires !StartsWith(task, OptionPrefix) && st.task.None?
    ensures Step(st, task) == Ok(st.(task := Some(task)))
  {
    PositionalIffNoDash(task);
  }

}
