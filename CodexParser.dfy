/**
 * `CodexParser`: reading the JSON-lines output of `codex exec --json` into events, and the
 * query helpers over an event list (`filterByType`, `getAgentMessages`, `getUsage`).
 * Lexing a line into a `Json` value is the parameter `lex`; it is `None` where the
 * library would throw.
 */
module CodexParser {
  import opened Wrappers
  import opened Text
  import LineSplit
  import opened Json
  import opened TokenUsage
  import opened Items
  import opened Events
  import EventEncoding

  /**
   * `parseEvent`: the trimmed line is lexed and decoded; a failure at either step gives
   * `None`; an `UnknownEvent` gets the trimmed line as its `raw` text.
   */
  function ParseEvent(line: string, lex: string -> Option<Json>): (r: Option<CodexEvent>)
    ensures r.Some? ==> lex(Trim(line)).Some?
    ensures r.Some? && r.value.UnknownEvent? ==> r.value.raw == Some(Trim(line))
  {
    var raw := Trim(line);
    var j :- lex(raw);
    var e :- DecodeEvent(j);
    Some(if e.UnknownEvent? then e.(raw := Some(raw)) else e)
  }

  /** A line is parsed exactly when its trimmed text lexes and decodes, and only an unknown event changes. */
  lemma ParseEventSpec(line: string, lex: string -> Option<Json>)
    ensures ParseEvent(line, lex).Some? <==> lex(Trim(line)).Some? && DecodeEvent(lex(Trim(line)).value).Some?
    ensures ParseEvent(line, lex).Some? ==>
      var e := DecodeEvent(lex(Trim(line)).value).value;
      ParseEvent(line, lex).value == if e.UnknownEvent? then UnknownEvent(e.eventType, Some(Trim(line))) else e
  {
  }

  /** Every unknown event `parseEvent` returns has the trimmed line as its raw text. */
  lemma UnknownEventRaw(line: string, lex: string -> Option<Json>)
    requires ParseEvent(line, lex).Some? && ParseEvent(line, lex).value.UnknownEvent?
    ensures ParseEvent(line, lex).value.raw == Some(Trim(line))
  {
  }

  /**
   * A line whose object carries a discriminator no event class declares is parsed, not
   * dropped: it becomes an `UnknownEvent` with that type and the trimmed line.
   */
  lemma UnrecognisedTypeKept(line: string, lex: string -> Option<Json>, o: map<string, Json>, name: string)
    requires lex(Trim(line)) == Some(JObject(o))
    requires TypeKey in o && o[TypeKey] == JString(name) && !IsEventTypeName(name)
    requires "_raw" !in o
    ensures ParseEvent(line, lex) == Some(UnknownEvent(name, Some(Trim(line))))
  {
    EventEncoding.UnknownEventFallback(o, name);
    assert Nullable(o, "_raw", AsString) == Some(None);
    assert DecodeEvent(JObject(o)) == Some(UnknownEvent(name, None));
  }

  /** A line that is neither blank nor rejected by `parseEvent`. */
  predicate Decodable(line: string, lex: string -> Option<Json>) {
    !IsBlank(line) && ParseEvent(line, lex).Some?
  }

  /** The events of a list of lines: blank lines are skipped and lines `parseEvent` rejects are dropped. */
  function ParseLines(ls: seq<string>, lex: string -> Option<Json>): (r: seq<CodexEvent>)
    ensures |r| <= |ls|
  {
    if ls == [] then []
    else (if Decodable(ls[0], lex) then [ParseEvent(ls[0], lex).value] else []) + ParseLines(ls[1..], lex)
  }

  /** `parseEventStream`: the events of the lines of `output`. It never fails. */
  function ParseEventStream(output: string, lex: string -> Option<Json>): (r: seq<CodexEvent>)
    ensures |r| <= |LineSplit.Lines(output)|
  {
    ParseLines(LineSplit.Lines(output), lex)
  }

  /** The lines that yield an event, in order. */
  function DecodableLines(ls: seq<string>, lex: string -> Option<Json>): (r: seq<string>)
    ensures |r| <= |ls|
    ensures forall i :: 0 <= i < |r| ==> Decodable(r[i], lex) && r[i] in ls
  {
    if ls == [] then []
    else (if Decodable(ls[0], lex) then [ls[0]] else []) + DecodableLines(ls[1..], lex)
  }

  /** The lines that are not blank. */
  function NonBlankLines(ls: seq<string>): (r: seq<string>)
    ensures |r| <= |ls|
  {
    if ls == [] then [] else (if IsBlank(ls[0]) then [] else [ls[0]]) + NonBlankLines(ls[1..])
  }

  /**
   * The events are the parses of the decodable lines, one each and in line order; there are
   * no more of them than non-blank lines.
   */
  lemma {:induction false} ParseLinesSpec(ls: seq<string>, lex: string -> Option<Json>)
    ensures |ParseLines(ls, lex)| == |DecodableLines(ls, lex)| <= |NonBlankLines(ls)|
    ensures forall i :: 0 <= i < |ParseLines(ls, lex)| ==>
      ParseLines(ls, lex)[i] == ParseEvent(DecodableLines(ls, lex)[i], lex).value
  {
    if ls != [] {
      ParseLinesSpec(ls[1..], lex);
      var r := ParseLines(ls[1..], lex);
      var d := DecodableLines(ls[1..], lex);
      if Decodable(ls[0], lex) {
        var p := ParseLines(ls, lex);
        var q := DecodableLines(ls, lex);
        assert p == [ParseEvent(ls[0], lex).value] + r;
        assert q == [ls[0]] + d;
        forall i | 0 <= i < |p| ensures p[i] == ParseEvent(q[i], lex).value {
          if i > 0 {
            assert p[i] == r[i - 1] && q[i] == d[i - 1];
          }
        }
      } else {
        assert ParseLines(ls, lex) == r;
        assert DecodableLines(ls, lex) == d;
      }
    }
  }

  lemma {:induction false} ParseLinesAppend(a: seq<string>, b: seq<string>, lex: string -> Option<Json>)
    ensures ParseLines(a + b, lex) == ParseLines(a, lex) + ParseLines(b, lex)
  {
    if a == [] {
      assert a + b == b;
    } else {
      assert (a + b)[0] == a[0] && (a + b)[1..] == a[1..] + b;
      ParseLinesAppend(a[1..], b, lex);
      LineSplit.AppendAssoc(if Decodable(a[0], lex) then [ParseEvent(a[0], lex).value] else [],
                            ParseLines(a[1..], lex), ParseLines(b, lex));
    }
  }

  /** A blank line, or one `parseEvent` rejects, anywhere in the input contributes nothing; the others are still parsed. */
  lemma SkippedLine(a: seq<string>, line: string, b: seq<string>, lex: string -> Option<Json>)
    requires IsBlank(line) || ParseEvent(line, lex).None?
    ensures ParseLines(a + [line] + b, lex) == ParseLines(a + b, lex)
  {
    ParseLinesAppend(a + [line], b, lex);
    ParseLinesAppend(a, [line], lex);
    ParseLinesAppend(a, b, lex);
    assert ParseLines([line], lex) == [];
  }

  /** Output joined at a line break parses to the events of the two parts, in order. */
  lemma StreamJoin(a: string, b: string, lex: string -> Option<Json>)
    requires a == [] || a[|a| - 1] != '\r'
    ensures ParseEventStream(a + "\n" + b, lex) == ParseEventStream(a, lex) + ParseEventStream(b, lex)
  {
    LineSplit.LinesJoin(a, b);
    ParseLinesAppend(LineSplit.Lines(a), LineSplit.Lines(b), lex);
  }

  lemma {:induction false} BlankLinesParseToNothing(ls: seq<string>, lex: string -> Option<Json>)
    requires forall i :: 0 <= i < |ls| ==> IsBlank(ls[i])
    ensures ParseLines(ls, lex) == []
  {
    if ls != [] {
      BlankLinesParseToNothing(ls[1..], lex);
    }
  }

  lemma {:induction false} LinesOfBlank(s: string)
    requires IsBlank(s)
    ensures forall i :: 0 <= i < |LineSplit.Lines(s)| ==> IsBlank(LineSplit.Lines(s)[i])
    decreases |s|
  {
    var k := LineSplit.FirstBreak(s);
    if k < |s| {
      var rest := s[k + LineSplit.BreakWidth(s, k)..];
      assert IsBlank(rest) by {
        forall i | 0 <= i < |rest| ensures IsWhitespace(rest[i]) {
          assert rest[i] == s[k + LineSplit.BreakWidth(s, k) + i];
        }
      }
      LinesOfBlank(rest);
      assert IsBlank(s[..k]) by {
        forall i | 0 <= i < k ensures IsWhitespace(s[..k][i]) {
          assert s[..k][i] == s[i];
        }
      }
    }
  }

  /** Output that is empty or only white space parses to no events. */
  lemma BlankOutput(output: string, lex: string -> Option<Json>)
    requires IsBlank(output)
    ensures ParseEventStream(output, lex) == []
  {
    LinesOfBlank(output);
    BlankLinesParseToNothing(LineSplit.Lines(output), lex);
  }

  // The query helpers.

  /** The event classes, for `filterByType<T>`. */
  datatype EventClass =
    | ThreadStartedClass | TurnStartedClass | ItemStartedClass | ItemUpdatedClass | ItemCompletedClass
    | TurnCompletedClass | TurnFailedClass | ThreadErrorEventClass | UnknownEventClass

  function ClassOf(e: CodexEvent): EventClass {
    match e
    case ThreadStarted(_) => ThreadStartedClass
    case TurnStarted => TurnStartedClass
    case ItemStarted(_) => ItemStartedClass
    case ItemUpdated(_) => ItemUpdatedClass
    case ItemCompleted(_) => ItemCompletedClass
    case TurnCompleted(_) => TurnCompletedClass
    case TurnFailed(_) => TurnFailedClass
    case ThreadErrorEvent(_) => ThreadErrorEventClass
    case UnknownEvent(_, _) => UnknownEventClass
  }

  /** The classes below `CodexItemEvent`. */
  const ItemEventClasses: set<EventClass> := {ItemStartedClass, ItemUpdatedClass, ItemCompletedClass}

  lemma ItemEventClassesExactly(e: CodexEvent)
    ensures ClassOf(e) in ItemEventClasses <==> e.IsItemEvent()
  {
  }

  /**
   * `filterByType<T>()`, for `T` one event class or the sealed class over several: the events
   * whose class is in `classes`, in order.
   */
  function FilterByType(events: seq<CodexEvent>, classes: set<EventClass>): (r: seq<CodexEvent>)
    ensures |r| <= |events|
    ensures forall e :: e in r <==> e in events && ClassOf(e) in classes
    ensures forall i :: 0 <= i < |r| ==> ClassOf(r[i]) in classes
  {
    if events == [] then []
    else (if ClassOf(events[0]) in classes then [events[0]] else []) + FilterByType(events[1..], classes)
  }

  lemma {:induction false} FilterByTypeAppend(a: seq<CodexEvent>, b: seq<CodexEvent>, classes: set<EventClass>)
    ensures FilterByType(a + b, classes) == FilterByType(a, classes) + FilterByType(b, classes)
  {
    if a == [] {
      assert a + b == b;
    } else {
      assert (a + b)[0] == a[0] && (a + b)[1..] == a[1..] + b;
      FilterByTypeAppend(a[1..], b, classes);
      LineSplit.AppendAssoc(if ClassOf(a[0]) in classes then [a[0]] else [],
                            FilterByType(a[1..], classes), FilterByType(b, classes));
    }
  }

  /** Filtering keeps every event of the classes: none is lost and the order is kept. */
  lemma {:induction false} FilterByTypeAll(events: seq<CodexEvent>, classes: set<EventClass>)
    requires forall i :: 0 <= i < |events| ==> ClassOf(events[i]) in classes
    ensures FilterByType(events, classes) == events
  {
    if events != [] {
      FilterByTypeAll(events[1..], classes);
    }
  }

  /** `getAgentMessages`: the texts of the agent messages completed by `item.completed` events, in order. */
  function GetAgentMessages(events: seq<CodexEvent>): (r: seq<string>)
    ensures |r| <= |events|
  {
    if events == [] then []
    else
      (if events[0].ItemCompleted? && events[0].item.AgentMessage? then [events[0].item.agentMessage.text] else [])
      + GetAgentMessages(events[1..])
  }

  /** A completed agent message. */
  predicate IsCompletedMessage(e: CodexEvent, text: string) {
    e.ItemCompleted? && e.item.AgentMessage? && e.item.agentMessage.text == text
  }

  /** A text is among the messages iff some `item.completed` event carries an agent message with it. */
  lemma {:induction false} AgentMessagesMembership(events: seq<CodexEvent>, t: string)
    ensures t in GetAgentMessages(events) <==> exists i :: 0 <= i < |events| && IsCompletedMessage(events[i], t)
  {
    if events != [] {
      AgentMessagesMembership(events[1..], t);
      if t in GetAgentMessages(events[1..]) {
        var i :| 0 <= i < |events[1..]| && IsCompletedMessage(events[1..][i], t);
        assert IsCompletedMessage(events[i + 1], t);
      }
      if exists i :: 0 <= i < |events| && IsCompletedMessage(events[i], t) {
        var i :| 0 <= i < |events| && IsCompletedMessage(events[i], t);
        if i > 0 {
          assert IsCompletedMessage(events[1..][i - 1], t);
        }
      }
    }
  }

  lemma {:induction false} AgentMessagesAppend(a: seq<CodexEvent>, b: seq<CodexEvent>)
    ensures GetAgentMessages(a + b) == GetAgentMessages(a) + GetAgentMessages(b)
  {
    if a == [] {
      assert a + b == b;
    } else {
      assert (a + b)[0] == a[0] && (a + b)[1..] == a[1..] + b;
      AgentMessagesAppend(a[1..], b);
      LineSplit.AppendAssoc(
        if a[0].ItemCompleted? && a[0].item.AgentMessage? then [a[0].item.agentMessage.text] else [],
        GetAgentMessages(a[1..]), GetAgentMessages(b));
    }
  }

  /** An event other than `item.completed`, such as `item.started` or `item.updated`, adds no message. */
  lemma OnlyCompletedMessages(a: seq<CodexEvent>, e: CodexEvent, b: seq<CodexEvent>)
    requires !e.ItemCompleted?
    ensures GetAgentMessages(a + [e] + b) == GetAgentMessages(a + b)
  {
    AgentMessagesAppend(a + [e], b);
    AgentMessagesAppend(a, [e]);
    AgentMessagesAppend(a, b);
    assert GetAgentMessages([e]) == [];
  }

  /** `getUsage`: the usage of the first `turn.completed` event. */
  function GetUsage(events: seq<CodexEvent>): (r: Option<Usage>)
    ensures r.Some? ==> TurnCompleted(r.value) in events
  {
    if events == [] then None
    else if events[0].TurnCompleted? then Some(events[0].usage)
    else GetUsage(events[1..])
  }

  /** No usage iff there is no `turn.completed`; otherwise the usage of the first one. */
  lemma {:induction false} GetUsageSpec(events: seq<CodexEvent>)
    ensures GetUsage(events).None? <==> forall i :: 0 <= i < |events| ==> !events[i].TurnCompleted?
    ensures GetUsage(events).Some? ==>
      exists i :: (0 <= i < |events| && events[i] == TurnCompleted(GetUsage(events).value)
                   && forall j :: 0 <= j < i ==> !events[j].TurnCompleted?)
  {
    if events != [] && !events[0].TurnCompleted? {
      GetUsageSpec(events[1..]);
      assert forall i :: 1 <= i < |events| ==> events[i] == events[1..][i - 1];
      if GetUsage(events).Some? {
        var i :| 0 <= i < |events[1..]| && events[1..][i] == TurnCompleted(GetUsage(events).value)
          && forall j :: 0 <= j < i ==> !events[1..][j].TurnCompleted?;
        assert events[i + 1] == TurnCompleted(GetUsage(events).value);
        assert forall j :: 0 <= j < i + 1 ==> !events[j].TurnCompleted? by {
          forall j | 0 <= j < i + 1 ensures !events[j].TurnCompleted? {
            if j > 0 { assert events[j] == events[1..][j - 1]; }
          }
        }
      }
    }
  }

  /** `getUsage` is the usage of the head of `filterByType<TurnCompletedEvent>()`. */
  lemma {:induction false} GetUsageViaFilter(events: seq<CodexEvent>)
    ensures GetUsage(events) ==
      var f := FilterByType(events, {TurnCompletedClass});
      if f == [] then None else Some(f[0].usage)
  {
    if events != [] {
      GetUsageViaFilter(events[1..]);
    }
  }
}
