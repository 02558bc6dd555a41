/**
 * The command-line tool's `main` and `printEventResult` (Main.kt): parse the arguments, run
 * the built command, and fold the events into one `CliResult`, either with every event
 * (`--full`) or summarised. Printing is left out: the methods return the result.
 */
module CliMain {
  import opened Wrappers
  import opened ExecConfig
  import opened Items
  import opened Events
  import opened CliResults
  import CliParser
  import CommandBuilder
  import CodexParser
  import Json
  import LineSplit
  import Text
  import SandboxModes

  /** The content records the result carries, and the bare message of an error result. */
  datatype ResultContent =
    | SuccessResultContent(agentMessages: string, fileChanges: Option<seq<FileChangeItem>>,
                           nonFatalErrors: Option<seq<ErrorItem>>)
    | SuccessFullResultContent(rawArgs: seq<string>, fullEvents: seq<CodexEvent>)
    | ErrorResultContent(errorEvents: seq<CodexEvent>)
    | Message(text: string)

  type Outcome = CliResult<ResultContent>

  // What the loops of `printEventResult` collect, defined event by event from the front.

  /** The events of `events` mapped through `f` and concatenated, in order. */
  function Collect<T>(events: seq<CodexEvent>, f: CodexEvent -> seq<T>): seq<T> {
    if events == [] then [] else Collect(events[..|events| - 1], f) + f(events[|events| - 1])
  }

  lemma {:induction false} CollectAppend<T>(a: seq<CodexEvent>, b: seq<CodexEvent>, f: CodexEvent -> seq<T>)
    ensures Collect(a + b, f) == Collect(a, f) + Collect(b, f)
    decreases |b|
  {
    if b == [] {
      assert a + b == a;
    } else {
      var b' := b[..|b| - 1];
      assert (a + b)[..|a + b| - 1] == a + b';
      assert (a + b)[|a + b| - 1] == b[|b| - 1];
      CollectAppend(a, b', f);
      LineSplit.AppendAssoc(Collect(a, f), Collect(b', f), f(b[|b| - 1]));
    }
  }

  lemma CollectSnoc<T>(events: seq<CodexEvent>, e: CodexEvent, f: CodexEvent -> seq<T>)
    ensures Collect(events + [e], f) == Collect(events, f) + f(e)
  {
    assert (events + [e])[..|events|] == events;
  }

  /** The thread id of a `thread.started` event. */
  function ThreadIdPart(e: CodexEvent): seq<string> {
    if e.ThreadStarted? then [e.threadId] else []
  }

  /** `ThreadErrorEvent` and `TurnFailedEvent`: the events that make a run fail. */
  predicate IsFailureEvent(e: CodexEvent) {
    e.ThreadErrorEvent? || e.TurnFailed?
  }

  function FailurePart(e: CodexEvent): seq<CodexEvent> {
    if IsFailureEvent(e) then [e] else []
  }

  /** The text of an agent message carried by any item event. */
  function AgentPart(e: CodexEvent): string {
    if e.IsItemEvent() && e.item.AgentMessage? then e.item.agentMessage.text else ""
  }

  function FileChangePart(e: CodexEvent): seq<FileChangeItem> {
    if e.IsItemEvent() && e.item.FileChange? then [e.item.fileChange] else []
  }

  function ErrorItemPart(e: CodexEvent): seq<ErrorItem> {
    if e.IsItemEvent() && e.item.Error? then [e.item.error] else []
  }

  /** The session: the thread id of the last `thread.started` event, or "" when there is none. */
  function LastSession(events: seq<CodexEvent>): string {
    var ids := Collect(events, ThreadIdPart);
    if ids == [] then "" else ids[|ids| - 1]
  }

  function FailureEvents(events: seq<CodexEvent>): seq<CodexEvent> {
    Collect(events, FailurePart)
  }

  /** The agent messages joined without a separator. */
  function AgentText(events: seq<CodexEvent>): string {
    Collect(events, AgentPart)
  }

  function FileChanges(events: seq<CodexEvent>): seq<FileChangeItem> {
    Collect(events, FileChangePart)
  }

  function NonFatalErrors(events: seq<CodexEvent>): seq<ErrorItem> {
    Collect(events, ErrorItemPart)
  }

  /** `takeIf { it.isNotEmpty() }`. */
  function NonEmpty<T>(xs: seq<T>): (r: Option<seq<T>>)
    ensures r.None? <==> xs == []
    ensures r.Some? ==> r.value == xs
  {
    if xs == [] then None else Some(xs)
  }

  predicate HasFailure(events: seq<CodexEvent>) {
    exists i :: 0 <= i < |events| && IsFailureEvent(events[i])
  }

  /**
   * Whether `encodeToJsonElement` can write the events through the sealed `CodexEvent`
   * serializer: it refuses an `UnknownEvent`, whose own `type` property clashes with the class
   * discriminator `type`.
   */
  predicate EventsEncodable(events: seq<CodexEvent>) {
    forall i :: 0 <= i < |events| ==> !events[i].UnknownEvent?
  }

  /** The message of the `IllegalStateException` the serializer throws for such an event. */
  const DiscriminatorClash := "Sealed class 'unknown' cannot be serialized as base class "
    + "'love.forte.tools.codexkkp.sdk.model.CodexEvent' because it has property name that conflicts "
    + "with JSON class discriminator 'type'. You can either change class discriminator in "
    + "JsonConfiguration, rename property with @SerialName annotation or fall back to array polymorphism"

  /**
   * Full mode: every event, as an error when any of them is a failure; the encoding of the
   * content fails when an event is unknown.
   */
  function FullResult(rawArgs: seq<string>, events: seq<CodexEvent>): (r: Result<Outcome>)
    ensures r.Ok? <==> EventsEncodable(events)
    ensures r.Ok? ==> (r.value.resultType == Failure <==> HasFailure(events))
  {
    if !EventsEncodable(events) then Err(DiscriminatorClash)
    else if HasFailure(events) then Ok(FailureResult(Some(ErrorResultContent(events))))
    else Ok(SuccessResult(Some(LastSession(events)), Some(SuccessFullResultContent(rawArgs, events))))
  }

  /** Summarised mode: the failure events when there are any, else the collected messages, changes and errors. */
  function SummaryResult(events: seq<CodexEvent>): (r: Outcome)
    ensures r.content.Some?
    ensures r.resultType == Failure ==> r.content.value.ErrorResultContent? && r.content.value.errorEvents != []
    ensures r.resultType == Success ==> r.content.value.SuccessResultContent?
  {
    var failures := FailureEvents(events);
    if failures != [] then FailureResult(Some(ErrorResultContent(failures)))
    else SuccessResult(Some(LastSession(events)),
                       Some(SuccessResultContent(AgentText(events), NonEmpty(FileChanges(events)),
                                                 NonEmpty(NonFatalErrors(events)))))
  }

  /** `printEventResult`: the result it prints, or the message of the exception it throws. */
  function EventResult(rawArgs: seq<string>, events: seq<CodexEvent>, full: bool): Result<Outcome> {
    if full then FullResult(rawArgs, events) else Ok(SummaryResult(events))
  }

  // The loops.

  /** The `full` branch of `printEventResult`. */
  method AggregateFull(rawArgs: seq<string>, events: seq<CodexEvent>) returns (r: Result<Outcome>)
    ensures r == FullResult(rawArgs, events)
  {
    var session := "";
    var error := false;
    for i := 0 to |events|
      invariant session == LastSession(events[..i])
      invariant error == HasFailure(events[..i])
    {
      var event := events[i];
      FullSnoc(events[..i], event);
      assert events[..i + 1] == events[..i] + [event];
      match event {
        case ThreadStarted(t) => session := t;
        case ThreadErrorEvent(_) => error := true;
        case TurnFailed(_) => error := true;
        case _ =>
      }
    }
    assert events[..|events|] == events;
    var content := if error then ErrorResultContent(events) else SuccessFullResultContent(rawArgs, events);
    if !EventsEncodable(events) {
      r := Err(DiscriminatorClash);
    } else if error {
      r := Ok(FailureResult(Some(content)));
    } else {
      r := Ok(SuccessResult(Some(session), Some(content)));
    }
  }

  /** What one more event does to the state of the full-mode loop. */
  lemma FullSnoc(events: seq<CodexEvent>, e: CodexEvent)
    ensures LastSession(events + [e]) == if e.ThreadStarted? then e.threadId else LastSession(events)
    ensures HasFailure(events + [e]) <==> HasFailure(events) || IsFailureEvent(e)
  {
    LastSessionSnoc(events, e);
    var s := events + [e];
    assert s[|events|] == e;
    if HasFailure(events) {
      var j :| 0 <= j < |events| && IsFailureEvent(events[j]);
      assert s[j] == events[j];
    }
    if HasFailure(s) {
      var j :| 0 <= j < |s| && IsFailureEvent(s[j]);
      if j < |events| {
        assert s[j] == events[j];
      }
    }
  }

  /** The summarising branch of `printEventResult`. */
  method AggregateSummary(events: seq<CodexEvent>) returns (r: Outcome)
    ensures r == SummaryResult(events)
  {
    var session := "";
    var agentMessages := "";
    var fileChanges: seq<FileChangeItem> := [];
    var nonFatalErrors: seq<ErrorItem> := [];
    var errorEvents: seq<CodexEvent> := [];
    for i := 0 to |events|
      invariant session == LastSession(events[..i])
      invariant agentMessages == AgentText(events[..i])
      invariant fileChanges == FileChanges(events[..i])
      invariant nonFatalErrors == NonFatalErrors(events[..i])
      invariant errorEvents == FailureEvents(events[..i])
    {
      var event := events[i];
      SummarySnoc(events[..i], event);
      assert events[..i + 1] == events[..i] + [event];
      session, agentMessages, fileChanges, nonFatalErrors, errorEvents :=
        SummaryStep(event, session, agentMessages, fileChanges, nonFatalErrors, errorEvents);
    }
    assert events[..|events|] == events;
    if errorEvents != [] {
      r := FailureResult(Some(ErrorResultContent(errorEvents)));
    } else {
      var changes := if fileChanges == [] then None else Some(fileChanges);
      var errors := if nonFatalErrors == [] then None else Some(nonFatalErrors);
      r := SuccessResult(Some(session), Some(SuccessResultContent(agentMessages, changes, errors)));
    }
  }

  /** What one more event does to the state of the summarising loop. */
  lemma SummarySnoc(events: seq<CodexEvent>, e: CodexEvent)
    ensures LastSession(events + [e]) == if e.ThreadStarted? then e.threadId else LastSession(events)
    ensures AgentText(events + [e]) == AgentText(events) + AgentPart(e)
    ensures FileChanges(events + [e]) == FileChanges(events) + FileChangePart(e)
    ensures NonFatalErrors(events + [e]) == NonFatalErrors(events) + ErrorItemPart(e)
    ensures FailureEvents(events + [e]) == FailureEvents(events) + FailurePart(e)
  {
    LastSessionSnoc(events, e);
    CollectSnoc(events, e, AgentPart);
    CollectSnoc(events, e, FileChangePart);
    CollectSnoc(events, e, ErrorItemPart);
    CollectSnoc(events, e, FailurePart);
  }

  /** One pass of the summarising loop's `when (event)`. */
  method SummaryStep(event: CodexEvent, session: string, text: string, changes: seq<FileChangeItem>,
                     errors: seq<ErrorItem>, failures: seq<CodexEvent>)
    returns (session': string, text': string, changes': seq<FileChangeItem>, errors': seq<ErrorItem>,
             failures': seq<CodexEvent>)
    ensures session' == if event.ThreadStarted? then event.threadId else session
    ensures text' == text + AgentPart(event)
    ensures changes' == changes + FileChangePart(event)
    ensures errors' == errors + ErrorItemPart(event)
    ensures failures' == failures + FailurePart(event)
  {
    session', text', changes', errors', failures' := session, text, changes, errors, failures;
    match event {
      case ThreadStarted(t) => session' := t;
      case ItemStarted(item) => text', changes', errors' := AddItem(item, text, changes, errors);
      case ItemUpdated(item) => text', changes', errors' := AddItem(item, text, changes, errors);
      case ItemCompleted(item) => text', changes', errors' := AddItem(item, text, changes, errors);
      case ThreadErrorEvent(_) => failures' := failures + [event];
      case TurnFailed(_) => failures' := failures + [event];
      case _ =>
    }
  }

  /** The inner `when (val item = event.item)` of the summarising loop. */
  method AddItem(item: CodexItem, text: string, changes: seq<FileChangeItem>, errors: seq<ErrorItem>)
    returns (text': string, changes': seq<FileChangeItem>, errors': seq<ErrorItem>)
    ensures text' == text + (if item.AgentMessage? then item.agentMessage.text else "")
    ensures changes' == changes + (if item.FileChange? then [item.fileChange] else [])
    ensures errors' == errors + (if item.Error? then [item.error] else [])
  {
    text', changes', errors' := text, changes, errors;
    match item {
      case AgentMessage(m) => text' := text + m.text;
      case FileChange(c) => changes' := changes + [c];
      case Error(e) => errors' := errors + [e];
      case _ =>
    }
  }

  /** `printEventResult`. */
  method PrintEventResult(rawArgs: seq<string>, events: seq<CodexEvent>, full: bool) returns (r: Result<Outcome>)
    ensures r == EventResult(rawArgs, events, full)
  {
    if full {
      r := AggregateFull(rawArgs, events);
    } else {
      var summary := AggregateSummary(events);
      r := Ok(summary);
    }
  }

  // What the aggregation promises.

  /** Each `thread.started` replaces the session seen so far. */
  lemma LastSessionSnoc(events: seq<CodexEvent>, e: CodexEvent)
    ensures LastSession(events + [e]) == if e.ThreadStarted? then e.threadId else LastSession(events)
  {
    CollectSnoc(events, e, ThreadIdPart);
  }

  /** The session is the thread id of the last `thread.started` event, and "" when there is none. */
  lemma {:induction false} LastSessionSpec(events: seq<CodexEvent>)
    ensures (forall i :: 0 <= i < |events| ==> !events[i].ThreadStarted?) ==> LastSession(events) == ""
    ensures forall i :: 0 <= i < |events| && events[i].ThreadStarted? &&
                        (forall j :: i < j < |events| ==> !events[j].ThreadStarted?) ==>
                        LastSession(events) == events[i].threadId
  {
    if events != [] {
      var p, e := events[..|events| - 1], events[|events| - 1];
      assert events == p + [e];
      LastSessionSnoc(p, e);
      LastSessionSpec(p);
      forall i | 0 <= i < |events| && events[i].ThreadStarted? &&
                 (forall j :: i < j < |events| ==> !events[j].ThreadStarted?)
        ensures LastSession(events) == events[i].threadId
      {
        if i < |p| {
          assert p[i] == events[i];
          assert forall j :: i < j < |p| ==> p[j] == events[j];
        }
      }
      if forall i :: 0 <= i < |events| ==> !events[i].ThreadStarted? {
        assert forall i :: 0 <= i < |p| ==> p[i] == events[i];
      }
    }
  }

  /** The classes of the failure events. */
  const FailureClasses: set<CodexParser.EventClass> :=
    {CodexParser.TurnFailedClass, CodexParser.ThreadErrorEventClass}

  lemma FailureClassesExactly(e: CodexEvent)
    ensures CodexParser.ClassOf(e) in FailureClasses <==> IsFailureEvent(e)
  {
  }

  /** The failure events are `filterByType` over the two failure classes. */
  lemma {:induction false} FailureEventsViaFilter(events: seq<CodexEvent>)
    ensures FailureEvents(events) == CodexParser.FilterByType(events, FailureClasses)
  {
    if events != [] {
      var p, e := events[..|events| - 1], events[|events| - 1];
      assert events == p + [e];
      FailureEventsViaFilter(p);
      CollectSnoc(p, e, FailurePart);
      CodexParser.FilterByTypeAppend(p, [e], FailureClasses);
      assert [e][1..] == [];
      FailureClassesExactly(e);
    }
  }

  /** There are failure events exactly when some event is a failure. */
  lemma FailureEventsSpec(events: seq<CodexEvent>)
    ensures FailureEvents(events) != [] <==> HasFailure(events)
    ensures forall i :: 0 <= i < |FailureEvents(events)| ==> IsFailureEvent(FailureEvents(events)[i])
  {
    FailureEventsViaFilter(events);
    var f := FailureEvents(events);
    if f != [] {
      assert f[0] in f;
      FailureClassesExactly(f[0]);
      var i :| 0 <= i < |events| && events[i] == f[0];
    }
    if HasFailure(events) {
      var i :| 0 <= i < |events| && IsFailureEvent(events[i]);
      FailureClassesExactly(events[i]);
      assert events[i] in f;
    }
    forall i | 0 <= i < |f| ensures IsFailureEvent(f[i]) {
      FailureClassesExactly(f[i]);
    }
  }

  /**
   * Summarised mode fails exactly when some event is a failure, and then carries the failure
   * events in order; otherwise it succeeds with the last session.
   */
  lemma SummaryOutcome(events: seq<CodexEvent>)
    ensures SummaryResult(events).resultType == Failure <==> HasFailure(events)
    ensures HasFailure(events) ==>
      SummaryResult(events) ==
        FailureResult(Some(ErrorResultContent(CodexParser.FilterByType(events, FailureClasses))))
    ensures !HasFailure(events) ==> SummaryResult(events).session == Some(LastSession(events))
  {
    FailureEventsSpec(events);
    FailureEventsViaFilter(events);
  }

  /**
   * Full mode can be encoded exactly when no event is unknown, and then the two modes agree on
   * whether the run failed and on the session.
   */
  lemma ModesAgree(rawArgs: seq<string>, events: seq<CodexEvent>)
    ensures FullResult(rawArgs, events).Ok? <==> EventsEncodable(events)
    ensures FullResult(rawArgs, events).Ok? ==>
      FullResult(rawArgs, events).value.resultType == SummaryResult(events).resultType &&
      FullResult(rawArgs, events).value.session == SummaryResult(events).session
  {
    FailureEventsSpec(events);
  }

  /** An unknown event anywhere in the stream makes full mode throw. */
  lemma UnknownEventBreaksFull(rawArgs: seq<string>, a: seq<CodexEvent>, e: CodexEvent, b: seq<CodexEvent>)
    requires e.UnknownEvent?
    ensures FullResult(rawArgs, a + [e] + b) == Err(DiscriminatorClash)
  {
    assert (a + [e] + b)[|a|] == e;
  }

  /** Summarised mode only encodes failure events, which the sealed serializer accepts. */
  lemma FailureEventsEncodable(events: seq<CodexEvent>)
    ensures EventsEncodable(FailureEvents(events))
  {
    FailureEventsSpec(events);
  }

  lemma CollectInert<T>(a: seq<CodexEvent>, e: CodexEvent, b: seq<CodexEvent>, f: CodexEvent -> seq<T>)
    requires f(e) == []
    ensures Collect(a + [e] + b, f) == Collect(a + b, f)
  {
    CollectAppend(a + [e], b, f);
    CollectSnoc(a, e, f);
    CollectAppend(a, b, f);
  }

  /** The events the summary ignores: turn and unknown events, and item events of the other kinds. */
  predicate IsInert(e: CodexEvent) {
    || e.TurnStarted? || e.TurnCompleted? || e.UnknownEvent?
    || (e.IsItemEvent() && !e.item.AgentMessage? && !e.item.FileChange? && !e.item.Error?)
  }

  /** Adding or removing an ignored event anywhere leaves the summarised result as it is. */
  lemma InertEventIgnored(a: seq<CodexEvent>, e: CodexEvent, b: seq<CodexEvent>)
    requires IsInert(e)
    ensures SummaryResult(a + [e] + b) == SummaryResult(a + b)
  {
    CollectInert(a, e, b, ThreadIdPart);
    CollectInert(a, e, b, FailurePart);
    CollectInert(a, e, b, AgentPart);
    CollectInert(a, e, b, FileChangePart);
    CollectInert(a, e, b, ErrorItemPart);
  }

  /** Strings joined without a separator, as by a `StringBuilder`. */
  function Concat(parts: seq<string>): string {
    if parts == [] then "" else Concat(parts[..|parts| - 1]) + parts[|parts| - 1]
  }

  lemma {:induction false} ConcatAppend(a: seq<string>, b: seq<string>)
    ensures Concat(a + b) == Concat(a) + Concat(b)
    decreases |b|
  {
    if b == [] {
      assert a + b == a;
    } else {
      var b' := b[..|b| - 1];
      assert (a + b)[..|a + b| - 1] == a + b';
      assert (a + b)[|a + b| - 1] == b[|b| - 1];
      ConcatAppend(a, b');
      LineSplit.AppendAssoc(Concat(a), Concat(b'), b[|b| - 1]);
    }
  }

  /**
   * The summary takes agent text from every item event, while `getAgentMessages` takes it from
   * `item.completed` only: when no item is started or updated, the summary text is the
   * concatenation of `getAgentMessages`.
   */
  lemma {:induction false} AgentTextOfCompletedItems(events: seq<CodexEvent>)
    requires forall i :: 0 <= i < |events| ==> !events[i].ItemStarted? && !events[i].ItemUpdated?
    ensures AgentText(events) == Concat(CodexParser.GetAgentMessages(events))
  {
    if events != [] {
      var p, e := events[..|events| - 1], events[|events| - 1];
      assert events == p + [e];
      assert forall i :: 0 <= i < |p| ==> p[i] == events[i];
      AgentTextOfCompletedItems(p);
      CollectSnoc(p, e, AgentPart);
      CodexParser.AgentMessagesAppend(p, [e]);
      ConcatAppend(CodexParser.GetAgentMessages(p), CodexParser.GetAgentMessages([e]));
      CompletedAgentPart(e);
    }
  }

  lemma CompletedAgentPart(e: CodexEvent)
    requires !e.ItemStarted? && !e.ItemUpdated?
    ensures AgentPart(e) == Concat(CodexParser.GetAgentMessages([e]))
  {
    assert [e][1..] == [];
    var m := CodexParser.GetAgentMessages([e]);
    if m != [] {
      assert m == [] + [m[0]];
    }
  }

  /** A started or updated agent message counts in the summary but not in `getAgentMessages`. */
  lemma StartedMessageCounted(text: string, id: string)
    requires text != ""
    ensures AgentText([ItemStarted(AgentMessage(AgentMessageItem(id, text)))]) == text
    ensures CodexParser.GetAgentMessages([ItemStarted(AgentMessage(AgentMessageItem(id, text)))]) == []
  {
    var e := ItemStarted(AgentMessage(AgentMessageItem(id, text)));
    CollectSnoc([], e, AgentPart);
    assert [] + [e] == [e];
  }

  // `main`.

  const NoTaskMessage := "Error: No task prompt specified"
  const IllegalArgumentPrefix := "IllegalArgumentException: "
  const ErrorPrefix := "Error: "

  /**
   * What `main` reports for the arguments, with `run` standing for executing a command line
   * (an error for the exception it throws) and `lex` for the JSON reader.
   */
  function MainResult(args: seq<string>, run: string -> Result<string>, lex: string -> Option<Json.Json>): (r: Outcome)
    ensures r.content.Some?
    ensures r.resultType == Failure ==> r.session == None
  {
    match CliParser.ParseArgs(args)
    case Err(message) => FailureResult(Some(Message(IllegalArgumentPrefix + message)))
    case Ok(cli) =>
      if cli.task.None? then FailureResult(Some(Message(NoTaskMessage)))
      else
        match run(Text.JoinWith(CommandBuilder.CommandTokens(cli.task.value, cli.config), " "))
        case Err(message) => FailureResult(Some(Message(ErrorPrefix + message)))
        case Ok(output) =>
          match EventResult(args, CodexParser.ParseEventStream(output, lex), cli.full)
          case Err(message) => FailureResult(Some(Message(ErrorPrefix + message)))
          case Ok(result) => result
  }

  /** `main`: parse, check the task, run the built command, and aggregate its events. */
  method RunMain(args: seq<string>, run: string -> Result<string>, lex: string -> Option<Json.Json>)
    returns (r: Outcome)
    ensures r == MainResult(args, run, lex)
  {
    var parsed := CliParser.Parse(args);
    if parsed.Err? {
      return FailureResult(Some(Message(IllegalArgumentPrefix + parsed.message)));
    }
    var cli := parsed.value;
    if cli.task.None? {
      return FailureResult(Some(Message(NoTaskMessage)));
    }
    var command := CommandBuilder.Build(cli.task.value, cli.config);
    var output := run(command);
    if output.Err? {
      return FailureResult(Some(Message(ErrorPrefix + output.message)));
    }
    var events := CodexParser.ParseEventStream(output.value, lex);
    var printed := PrintEventResult(args, events, cli.full);
    if printed.Err? {
      return FailureResult(Some(Message(ErrorPrefix + printed.message)));
    }
    r := printed.value;
  }

  /** Without a task prompt nothing is run: the result is the same whatever the command would do. */
  lemma MissingTaskNotRun(args: seq<string>, run: string -> Result<string>, run': string -> Result<string>,
                          lex: string -> Option<Json.Json>)
    requires CliParser.ParseArgs(args).Ok? && CliParser.ParseArgs(args).value.task.None?
    ensures MainResult(args, run, lex) == MainResult(args, run', lex) == FailureResult(Some(Message(NoTaskMessage)))
  {
  }

  /** Arguments without `--cd=` are reported as an illegal argument, without running anything. */
  lemma MissingDirectoryReported(args: seq<string>, run: string -> Result<string>, lex: string -> Option<Json.Json>)
    requires CliParser.ArgsOfKind(args, {CliParser.CdOpt}) == []
    ensures MainResult(args, run, lex).resultType == Failure
    ensures MainResult(args, run, lex).content.Some? && MainResult(args, run, lex).content.value.Message?
    ensures Text.StartsWith(MainResult(args, run, lex).content.value.text, IllegalArgumentPrefix)
  {
    CliParser.MissingWorkingDirectory(args);
    var text := MainResult(args, run, lex).content.value.text;
    assert text[..|IllegalArgumentPrefix|] == IllegalArgumentPrefix;
  }

  /**
   * With `--full`, a run whose output holds an unknown event is reported as an error carrying
   * the serializer's message, whatever the other events are.
   */
  lemma FullModeUnknownEvent(args: seq<string>, run: string -> Result<string>, lex: string -> Option<Json.Json>,
                             output: string)
    requires CliParser.ParseArgs(args).Ok?
    requires CliParser.ParseArgs(args).value.task.Some? && CliParser.ParseArgs(args).value.full
    requires run(Text.JoinWith(CommandBuilder.CommandTokens(CliParser.ParseArgs(args).value.task.value,
                                                          CliParser.ParseArgs(args).value.config), " ")) == Ok(output)
    requires exists i :: 0 <= i < |CodexParser.ParseEventStream(output, lex)| &&
                         CodexParser.ParseEventStream(output, lex)[i].UnknownEvent?
    ensures MainResult(args, run, lex) == FailureResult(Some(Message(ErrorPrefix + DiscriminatorClash)))
  {
  }

  /**
   * A directory and a prompt whose command prints nothing succeed with an empty session and
   * no agent text, file changes or errors.
   */
  lemma SilentRun(dir: string, task: string, run: string -> Result<string>, lex: string -> Option<Json.Json>,
                  output: string)
    requires !Text.StartsWith(task, CliParser.OptionPrefix)
    requires run(Text.JoinWith(CommandBuilder.CommandTokens(task, CodexExecConfig(dir, false, Some(SandboxModes.ReadOnly), None, None, true, None, [])), " ")) == Ok(output)
    requires Text.IsBlank(output)
    ensures MainResult([CliParser.OptCdPrefix + CommandBuilder.EscapeArg(dir), task], run, lex) ==
      SuccessResult(Some(""), Some(SuccessResultContent("", None, None)))
  {
    CliParser.DirectoryAndTaskRoundTrip(dir, task);
    CodexParser.BlankOutput(output, lex);
  }
}
