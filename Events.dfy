/**
 * The events of a `codex exec --json` stream (`CodexEvent`), their discriminators, and the
 * polymorphic decoding of one event object with its fallback to `UnknownEvent`.
 */
module Events {
  import opened Wrappers
  import opened Json
  import opened TokenUsage
  import opened Items

  datatype ThreadError = ThreadError(message: string)

  /**
   * The sealed event class. `UnknownEvent` keeps the discriminator it did not recognise and
   * the `_raw` text, set when a line is parsed.
   */
  datatype CodexEvent =
    | ThreadStarted(threadId: string)
    | TurnStarted
    | ItemStarted(item: CodexItem)
    | ItemUpdated(item: CodexItem)
    | ItemCompleted(item: CodexItem)
    | TurnCompleted(usage: Usage)
    | TurnFailed(error: Option<ThreadError>)
    | ThreadErrorEvent(message: string)
    | UnknownEvent(eventType: string, raw: Option<string>)
  {
    /** The events of the `CodexItemEvent` subclass, the ones that carry an item. */
    predicate IsItemEvent() {
      ItemStarted? || ItemUpdated? || ItemCompleted?
    }
  }

  /** The `@SerialName` of each event class. */
  function EventTypeName(e: CodexEvent): string {
    match e
    case ThreadStarted(_) => "thread.started"
    case TurnStarted => "turn.started"
    case ItemStarted(_) => "item.started"
    case ItemUpdated(_) => "item.updated"
    case ItemCompleted(_) => "item.completed"
    case TurnCompleted(_) => "turn.completed"
    case TurnFailed(_) => "turn.failed"
    case ThreadErrorEvent(_) => "error"
    case UnknownEvent(_, _) => "unknown"
  }

  /** The discriminators the event classes declare. */
  predicate IsEventTypeName(name: string) {
    name in {"thread.started", "turn.started", "item.started", "item.updated", "item.completed",
             "turn.completed", "turn.failed", "error", "unknown"}
  }

  /** Distinct event classes have distinct discriminators. */
  lemma EventTypeNamesDistinct(a: CodexEvent, b: CodexEvent)
    requires EventTypeName(a) == EventTypeName(b)
    ensures a.ThreadStarted? == b.ThreadStarted? && a.TurnStarted? == b.TurnStarted?
    ensures a.ItemStarted? == b.ItemStarted? && a.ItemUpdated? == b.ItemUpdated?
    ensures a.ItemCompleted? == b.ItemCompleted? && a.TurnCompleted? == b.TurnCompleted?
    ensures a.TurnFailed? == b.TurnFailed? && a.ThreadErrorEvent? == b.ThreadErrorEvent?
    ensures a.UnknownEvent? == b.UnknownEvent?
  {
  }

  function DecodeThreadError(j: Json): Option<ThreadError> {
    var o :- AsObject(j);
    var message :- Required(o, "message", AsString);
    Some(ThreadError(message))
  }

  function DecodeThreadStarted(o: map<string, Json>): Option<CodexEvent> {
    var id :- Required(o, "thread_id", AsString);
    Some(ThreadStarted(id))
  }

  function DecodeItemEvent(o: map<string, Json>, name: string): Option<CodexEvent> {
    var item :- Required(o, "item", DecodeItem);
    Some(if name == "item.started" then ItemStarted(item)
         else if name == "item.updated" then ItemUpdated(item)
         else ItemCompleted(item))
  }

  function DecodeTurnCompleted(o: map<string, Json>): Option<CodexEvent> {
    var usage :- Required(o, "usage", DecodeUsage);
    Some(TurnCompleted(usage))
  }

  function DecodeTurnFailed(o: map<string, Json>): Option<CodexEvent> {
    var error :- Nullable(o, "error", DecodeThreadError);
    Some(TurnFailed(error))
  }

  function DecodeThreadErrorEvent(o: map<string, Json>): Option<CodexEvent> {
    var message :- Required(o, "message", AsString);
    Some(ThreadErrorEvent(message))
  }

  /** `UnknownEvent` reads its `type` property, a required string, and the optional `_raw`. */
  function DecodeUnknownEvent(o: map<string, Json>): Option<CodexEvent> {
    var t :- Required(o, TypeKey, AsString);
    var raw :- Nullable(o, "_raw", AsString);
    Some(UnknownEvent(t, raw))
  }

  /** The class a discriminator selects, or `None` for one no event class declares. */
  function DecodeNamedEvent(name: string, o: map<string, Json>): Option<Option<CodexEvent>> {
    if name == "thread.started" then Some(DecodeThreadStarted(o))
    else if name == "turn.started" then Some(Some(TurnStarted))
    else if name == "item.started" || name == "item.updated" || name == "item.completed" then
      Some(DecodeItemEvent(o, name))
    else if name == "turn.completed" then Some(DecodeTurnCompleted(o))
    else if name == "turn.failed" then Some(DecodeTurnFailed(o))
    else if name == "error" then Some(DecodeThreadErrorEvent(o))
    else if name == "unknown" then Some(DecodeUnknownEvent(o))
    else None
  }

  /**
   * Polymorphic decoding of an event: the discriminator picks the class; an unrecognised or
   * absent one falls back to `UnknownEvent`.
   */
  function DecodeEvent(j: Json): (r: Option<CodexEvent>)
    ensures r.Some? ==> j.JObject? && !TagOf(j.fields).BadTag?
    ensures r.Some? && r.value.UnknownEvent? ==> TypeKey in j.fields && AsString(j.fields[TypeKey]) == Some(r.value.eventType)
  {
    var o :- AsObject(j);
    match TagOf(o)
    case BadTag => None
    case Untagged => DecodeUnknownEvent(o)
    case Named(n) =>
      match DecodeNamedEvent(n, o)
      case Some(r) => r
      case None => DecodeUnknownEvent(o)
  }
}
