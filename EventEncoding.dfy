/**
 * The JSON form of an event and the properties of event decoding: the round trip, the
 * fallback to `UnknownEvent`, the default of `turn.failed`, and that unknown keys are ignored.
 */
module EventEncoding {
  import opened Wrappers
  import opened Json
  import opened TokenUsage
  import opened Items
  import opened ItemEncoding
  import opened Events

  function EncodeThreadError(e: ThreadError): Json {
    JObject(map["message" := JString(e.message)])
  }

  function EventFields(e: CodexEvent): map<string, Json> {
    match e
    case ThreadStarted(t) => map["thread_id" := JString(t)]
    case TurnStarted => map[]
    case ItemStarted(i) => map["item" := EncodeItem(i)]
    case ItemUpdated(i) => map["item" := EncodeItem(i)]
    case ItemCompleted(i) => map["item" := EncodeItem(i)]
    case TurnCompleted(u) => map["usage" := EncodeUsage(u)]
    case TurnFailed(err) => WithOptional(map[], "error", err, EncodeThreadError)
    case ThreadErrorEvent(m) => map["message" := JString(m)]
    case UnknownEvent(_, raw) => WithOptional(map[], "_raw", raw, (r: string) => JString(r))
  }

  /** The discriminator written for an event: an unknown event carries the type it was read with. */
  function WrittenType(e: CodexEvent): string {
    if e.UnknownEvent? then e.eventType else EventTypeName(e)
  }

  function EncodeEvent(e: CodexEvent): Json {
    JObject(EventFields(e)[TypeKey := JString(WrittenType(e))])
  }

  /**
   * The events whose JSON form reads back as themselves: the carried item must be encodable,
   * and an unknown event's type must not be the discriminator of another class.
   */
  predicate Encodable(e: CodexEvent) {
    && (e.IsItemEvent() ==> ItemEncoding.Encodable(e.item))
    && (e.UnknownEvent? ==> !IsEventTypeName(e.eventType) || e.eventType == "unknown")
  }

  lemma NamedEventRoundTrip(e: CodexEvent)
    requires Encodable(e) && (e.UnknownEvent? ==> e.eventType == "unknown")
    ensures DecodeNamedEvent(WrittenType(e), EventFields(e)[TypeKey := JString(WrittenType(e))]) == Some(Some(e))
  {
    var o := EventFields(e)[TypeKey := JString(WrittenType(e))];
    match e {
      case ItemStarted(i) => ItemRoundTrip(i);
      case ItemUpdated(i) => ItemRoundTrip(i);
      case ItemCompleted(i) => ItemRoundTrip(i);
      case TurnCompleted(u) => UsageRoundTrip(u);
      case UnknownEvent(t, raw) =>
        assert Required(o, TypeKey, AsString) == Some(t);
        assert Nullable(o, "_raw", AsString) == Some(raw);
      case _ =>
    }
  }

  /** Decoding the JSON form of an event gives the event back. */
  lemma EventRoundTrip(e: CodexEvent)
    requires Encodable(e)
    ensures DecodeEvent(EncodeEvent(e)) == Some(e)
  {
    var o := EventFields(e)[TypeKey := JString(WrittenType(e))];
    assert TagOf(o) == Named(WrittenType(e));
    if e.UnknownEvent? && e.eventType != "unknown" {
      assert DecodeNamedEvent(e.eventType, o) == None;
      assert Required(o, TypeKey, AsString) == Some(e.eventType);
      assert Nullable(o, "_raw", AsString) == Some(e.raw);
    } else {
      NamedEventRoundTrip(e);
    }
  }

  /**
   * An object whose discriminator names no event class decodes to an `UnknownEvent` carrying
   * that name (a number or boolean discriminator by its text) and `_raw` when it decodes; it
   * fails only when `_raw` does not.
   */
  lemma UnknownEventFallback(o: map<string, Json>, name: string)
    requires TagOf(o) == Named(name) && !IsEventTypeName(name)
    ensures DecodeEvent(JObject(o)).Some? <==> Nullable(o, "_raw", AsString).Some?
    ensures DecodeEvent(JObject(o)).Some? ==>
      DecodeEvent(JObject(o)) == Some(UnknownEvent(name, Nullable(o, "_raw", AsString).value))
  {
    assert DecodeNamedEvent(name, o) == None;
  }

  /**
   * An event object whose discriminator is absent or `null` decodes to nothing: the fallback
   * `UnknownEvent` needs a `type`. One whose discriminator is an object or an array is rejected.
   */
  lemma UntypedEventRejected(o: map<string, Json>)
    requires TypeKey !in o || !(o[TypeKey].JString? || o[TypeKey].JBool? || o[TypeKey].JInt? || o[TypeKey].JFloat?)
    ensures DecodeEvent(JObject(o)) == None
  {
  }

  /**
   * A number or boolean discriminator is read as its text, which names no event class (unless
   * a number's text is itself one), so the object becomes an `UnknownEvent` of that text.
   */
  lemma ScalarTypeEvent(o: map<string, Json>)
    requires TypeKey in o
    requires o[TypeKey].JInt? || o[TypeKey].JBool? || (o[TypeKey].JFloat? && !IsEventTypeName(o[TypeKey].text))
    ensures DecodeEvent(JObject(o)).Some? <==> Nullable(o, "_raw", AsString).Some?
    ensures DecodeEvent(JObject(o)).Some? ==>
      DecodeEvent(JObject(o)) == Some(UnknownEvent(TagOf(o).name, Nullable(o, "_raw", AsString).value))
  {
    var n := TagOf(o).name;
    if o[TypeKey].JInt? {
      var t := IntText(o[TypeKey].i);
      assert n == t && (t[0] == '-' || '0' <= t[0] <= '9');
    }
    assert !IsEventTypeName(n);
    UnknownEventFallback(o, n);
  }

  /** `{"type":5}` is the unknown event `5`. */
  lemma NumberTypeEvent()
    ensures DecodeEvent(JObject(map[TypeKey := JInt(5)])) == Some(UnknownEvent("5", None))
  {
    ScalarTypeEvent(map[TypeKey := JInt(5)]);
  }

  /** `turn.failed` without an `error` has none; with one, it carries its message. */
  lemma TurnFailedError(o: map<string, Json>)
    requires TypeKey in o && o[TypeKey] == JString("turn.failed")
    ensures "error" !in o ==> DecodeEvent(JObject(o)) == Some(TurnFailed(None))
    ensures "error" in o && o["error"].JObject? && "message" in o["error"].fields && o["error"].fields["message"].JString? ==>
      DecodeEvent(JObject(o)) == Some(TurnFailed(Some(ThreadError(o["error"].fields["message"].s))))
  {
    assert TagOf(o) == Named("turn.failed");
  }

  /**
   * The item-carrying discriminators decode to the event of that name around the decoded
   * `item`, and to nothing when the item does not decode.
   */
  lemma ItemEventDecoding(o: map<string, Json>, name: string)
    requires TypeKey in o && o[TypeKey] == JString(name)
    requires name == "item.started" || name == "item.updated" || name == "item.completed"
    ensures DecodeEvent(JObject(o)).Some? <==> "item" in o && DecodeItem(o["item"]).Some?
    ensures DecodeEvent(JObject(o)).Some? ==>
      var e := DecodeEvent(JObject(o)).value;
      e.IsItemEvent() && EventTypeName(e) == name && Some(e.item) == DecodeItem(o["item"])
  {
    assert TagOf(o) == Named(name);
  }

  /** The events that carry an item are exactly those of the three item discriminators. */
  lemma ItemEventsExactly(e: CodexEvent)
    ensures e.IsItemEvent() <==> EventTypeName(e) in {"item.started", "item.updated", "item.completed"}
  {
  }

  lemma NamedEventIgnoresKey(name: string, o: map<string, Json>, k: string, v: Json)
    requires k !in {TypeKey, "thread_id", "item", "usage", "error", "message", "_raw"}
    ensures DecodeNamedEvent(name, o[k := v]) == DecodeNamedEvent(name, o)
  {
    ThreadEventsIgnoreKey(o, k, v);
    ItemEventIgnoresKey(name, o, k, v);
    TurnEventsIgnoreKey(o, k, v);
  }

  lemma ThreadEventsIgnoreKey(o: map<string, Json>, k: string, v: Json)
    requires k !in {TypeKey, "thread_id", "item", "usage", "error", "message", "_raw"}
    ensures DecodeThreadStarted(o[k := v]) == DecodeThreadStarted(o)
    ensures DecodeThreadErrorEvent(o[k := v]) == DecodeThreadErrorEvent(o)
    ensures DecodeUnknownEvent(o[k := v]) == DecodeUnknownEvent(o)
  {
    var o' := o[k := v];
    assert DecodeThreadStarted(o') == DecodeThreadStarted(o);
    assert DecodeThreadErrorEvent(o') == DecodeThreadErrorEvent(o);
  }

  lemma ItemEventIgnoresKey(name: string, o: map<string, Json>, k: string, v: Json)
    requires k !in {TypeKey, "thread_id", "item", "usage", "error", "message", "_raw"}
    ensures DecodeItemEvent(o[k := v], name) == DecodeItemEvent(o, name)
  {
  }

  lemma TurnEventsIgnoreKey(o: map<string, Json>, k: string, v: Json)
    requires k !in {TypeKey, "thread_id", "item", "usage", "error", "message", "_raw"}
    ensures DecodeTurnCompleted(o[k := v]) == DecodeTurnCompleted(o)
    ensures DecodeTurnFailed(o[k := v]) == DecodeTurnFailed(o)
  {
    var o' := o[k := v];
    assert DecodeTurnCompleted(o') == DecodeTurnCompleted(o);
  }

  /** Adding a key no event class reads does not change the decoded event. */
  lemma EventIgnoresUnknownKeys(o: map<string, Json>, k: string, v: Json)
    requires k !in {TypeKey, "thread_id", "item", "usage", "error", "message", "_raw"}
    ensures DecodeEvent(JObject(o[k := v])) == DecodeEvent(JObject(o))
  {
    var o' := o[k := v];
    assert TagOf(o') == TagOf(o);
    assert DecodeUnknownEvent(o') == DecodeUnknownEvent(o);
    if TagOf(o).Named? {
      NamedEventIgnoresKey(TagOf(o).name, o, k, v);
    }
  }
}
