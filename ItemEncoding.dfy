/**
 * The JSON form of an item, written the way the serializer writes a sealed subclass (its
 * fields plus the `"type"` discriminator), and the properties of item decoding: the round
 * trip, the defaults of each subclass, the fallback to `UnknownItem`, and that unknown keys
 * are ignored.
 */
module ItemEncoding {
  import opened Wrappers
  import opened Json
  import opened Items

  function EncodeFileUpdateChange(c: FileUpdateChange): Json {
    JObject(map["path" := JString(c.path), "kind" := JString(PatchChangeKindName(c.kind))])
  }

  function EncodeTodoItem(t: TodoItem): Json {
    JObject(map["text" := JString(t.text), "completed" := JBool(t.completed)])
  }

  function EncodeMcpToolResult(r: McpToolResult): Json {
    JObject(WithOptional(map["content" := JArray(r.content)], "structured_content", r.structuredContent, (x: Json) => x))
  }

  function EncodeMcpToolError(e: McpToolError): Json {
    JObject(map["message" := JString(e.message)])
  }

  /** The fields of each subclass under their serial names. */
  function ItemFields(i: CodexItem): map<string, Json> {
    match i
    case CommandExecution(x) =>
      WithOptional(map["id" := JString(x.id), "command" := JString(x.command),
                       "aggregated_output" := JString(x.aggregatedOutput),
                       "status" := JString(CommandExecutionStatusName(x.status))],
                   "exit_code", x.exitCode, (n: Int32) => JInt(n))
    case AgentMessage(x) => map["id" := JString(x.id), "text" := JString(x.text)]
    case Reasoning(x) => map["id" := JString(x.id), "text" := JString(x.text)]
    case FileChange(x) =>
      map["id" := JString(x.id), "changes" := JArray(EncodeAll(x.changes, EncodeFileUpdateChange)),
          "status" := JString(PatchApplyStatusName(x.status))]
    case McpToolCall(x) => McpToolCallFields(x)
    case WebSearch(x) => map["id" := JString(x.id), "query" := JString(x.query)]
    case Error(x) => map["id" := JString(x.id), "message" := JString(x.message)]
    case TodoList(x) => map["id" := JString(x.id), "items" := JArray(EncodeAll(x.items, EncodeTodoItem))]
    case Unknown(x) => map["id" := JString(x.id)]
  }

  function McpToolCallFields(x: McpToolCallItem): map<string, Json> {
    var m := map["id" := JString(x.id), "server" := JString(x.server), "tool" := JString(x.tool),
                 "status" := JString(McpToolCallStatusName(x.status))];
    var m := WithOptional(m, "arguments", x.arguments, (a: Json) => a);
    var m := WithOptional(m, "result", x.result, EncodeMcpToolResult);
    WithOptional(m, "error", x.error, EncodeMcpToolError)
  }

  function EncodeItem(i: CodexItem): Json {
    JObject(ItemFields(i)[TypeKey := JString(ItemTypeName(i))])
  }

  /**
   * The items whose JSON form reads back as themselves: a present `JsonElement?` that is JSON
   * `null` reads back as absent.
   */
  predicate Encodable(i: CodexItem) {
    i.McpToolCall? ==>
      i.mcpToolCall.arguments != Some(JNull)
      && (i.mcpToolCall.result.Some? ==> i.mcpToolCall.result.value.structuredContent != Some(JNull))
  }

  lemma ElementsRoundTrip(js: seq<Json>)
    ensures AsList(JArray(js), AsElement) == Some(js)
  {
    var r := DecodeAll(js, AsElement);
    assert r.Some? && |r.value| == |js|;
    forall i | 0 <= i < |js| ensures r.value[i] == js[i] {
      assert AsElement(js[i]) == Some(r.value[i]);
    }
    assert r.value == js;
  }

  lemma ChangesRoundTrip(cs: seq<FileUpdateChange>)
    ensures AsChanges(JArray(EncodeAll(cs, EncodeFileUpdateChange))) == Some(cs)
  {
    forall i | 0 <= i < |cs| ensures DecodeFileUpdateChange(EncodeFileUpdateChange(cs[i])) == Some(cs[i]) {
    }
    ListRoundTrip(cs, EncodeFileUpdateChange, DecodeFileUpdateChange);
  }

  lemma TodoItemsRoundTrip(ts: seq<TodoItem>)
    ensures AsTodoItems(JArray(EncodeAll(ts, EncodeTodoItem))) == Some(ts)
  {
    forall i | 0 <= i < |ts| ensures DecodeTodoItem(EncodeTodoItem(ts[i])) == Some(ts[i]) {
    }
    ListRoundTrip(ts, EncodeTodoItem, DecodeTodoItem);
  }

  lemma McpToolResultRoundTrip(r: McpToolResult)
    requires r.structuredContent != Some(JNull)
    ensures DecodeMcpToolResult(EncodeMcpToolResult(r)) == Some(r)
  {
    ElementsRoundTrip(r.content);
  }

  lemma McpToolCallRoundTrip(x: McpToolCallItem)
    requires Encodable(McpToolCall(x))
    ensures DecodeMcpToolCall(McpToolCallFields(x)) == Some(x)
  {
    var o := McpToolCallFields(x);
    assert Nullable(o, "arguments", AsElement) == Some(x.arguments);
    if x.result.Some? {
      McpToolResultRoundTrip(x.result.value);
    }
    assert Nullable(o, "result", DecodeMcpToolResult) == Some(x.result);
    assert Nullable(o, "error", DecodeMcpToolError) == Some(x.error);
  }

  /** Each subclass reads its own fields back from its JSON form. */
  lemma FieldsRoundTrip(i: CodexItem)
    requires Encodable(i)
    ensures DecodeNamedItem(ItemTypeName(i), ItemFields(i)) == Some(Some(i))
  {
    match i {
      case CommandExecution(x) => CommandExecutionFieldsRoundTrip(x);
      case AgentMessage(x) => AgentMessageFieldsRoundTrip(x);
      case Reasoning(x) => ReasoningFieldsRoundTrip(x);
      case FileChange(x) => FileChangeFieldsRoundTrip(x);
      case McpToolCall(x) => McpToolCallFieldsRoundTrip(x);
      case WebSearch(x) => WebSearchFieldsRoundTrip(x);
      case Error(x) => ErrorFieldsRoundTrip(x);
      case TodoList(x) => TodoListFieldsRoundTrip(x);
      case Unknown(x) => UnknownFieldsRoundTrip(x);
    }
  }

  lemma CommandExecutionFieldsRoundTrip(x: CommandExecutionItem)
    ensures DecodeNamedItem(ItemTypeName(CommandExecution(x)), ItemFields(CommandExecution(x))) == Some(Some(CommandExecution(x)))
  {
  }

  lemma AgentMessageFieldsRoundTrip(x: AgentMessageItem)
    ensures DecodeNamedItem(ItemTypeName(AgentMessage(x)), ItemFields(AgentMessage(x))) == Some(Some(AgentMessage(x)))
  {
  }

  lemma ReasoningFieldsRoundTrip(x: ReasoningItem)
    ensures DecodeNamedItem(ItemTypeName(Reasoning(x)), ItemFields(Reasoning(x))) == Some(Some(Reasoning(x)))
  {
  }

  lemma FileChangeFieldsRoundTrip(x: FileChangeItem)
    ensures DecodeNamedItem(ItemTypeName(FileChange(x)), ItemFields(FileChange(x))) == Some(Some(FileChange(x)))
  {
    ChangesRoundTrip(x.changes);
  }

  lemma McpToolCallFieldsRoundTrip(x: McpToolCallItem)
    requires Encodable(McpToolCall(x))
    ensures DecodeNamedItem(ItemTypeName(McpToolCall(x)), ItemFields(McpToolCall(x))) == Some(Some(McpToolCall(x)))
  {
    McpToolCallRoundTrip(x);
  }

  lemma WebSearchFieldsRoundTrip(x: WebSearchItem)
    ensures DecodeNamedItem(ItemTypeName(WebSearch(x)), ItemFields(WebSearch(x))) == Some(Some(WebSearch(x)))
  {
  }

  lemma ErrorFieldsRoundTrip(x: ErrorItem)
    ensures DecodeNamedItem(ItemTypeName(Error(x)), ItemFields(Error(x))) == Some(Some(Error(x)))
  {
  }

  lemma TodoListFieldsRoundTrip(x: TodoListItem)
    ensures DecodeNamedItem(ItemTypeName(TodoList(x)), ItemFields(TodoList(x))) == Some(Some(TodoList(x)))
  {
    TodoItemsRoundTrip(x.items);
  }

  lemma UnknownFieldsRoundTrip(x: UnknownItem)
    ensures DecodeNamedItem(ItemTypeName(Unknown(x)), ItemFields(Unknown(x))) == Some(Some(Unknown(x)))
  {
  }

  /** Decoding the JSON form of an item gives the item back. */
  lemma ItemRoundTrip(i: CodexItem)
    requires Encodable(i)
    ensures DecodeItem(EncodeItem(i)) == Some(i)
  {
    var o := ItemFields(i);
    FieldsRoundTrip(i);
    NamedItemIgnoresKey(ItemTypeName(i), o, TypeKey, JString(ItemTypeName(i)));
    assert TagOf(o[TypeKey := JString(ItemTypeName(i))]) == Named(ItemTypeName(i));
  }

  /** A decoded item carries the text of the object's `id`; an object without one decodes to nothing. */
  lemma DecodedItemHasId(j: Json)
    ensures DecodeItem(j).Some? ==> j.JObject? && "id" in j.fields && AsString(j.fields["id"]) == Some(DecodeItem(j).value.Id())
  {
    if j.JObject? && TagOf(j.fields).Named? {
      NamedItemHasId(TagOf(j.fields).name, j.fields);
    }
  }

  lemma NamedItemHasId(name: string, o: map<string, Json>)
    ensures DecodeNamedItem(name, o).Some? && DecodeNamedItem(name, o).value.Some? ==>
      "id" in o && AsString(o["id"]) == Some(DecodeNamedItem(name, o).value.value.Id())
  {
  }

  /**
   * An object whose discriminator is absent, `null` or names no subclass decodes to
   * `UnknownItem` when it has an `id` that decodes as a string (under `isLenient`, also an unquoted number or boolean), and to nothing otherwise.
   */
  lemma UnknownItemFallback(o: map<string, Json>)
    requires TagOf(o).Untagged? || (TagOf(o).Named? && !IsItemTypeName(TagOf(o).name))
    ensures DecodeItem(JObject(o)).Some? <==> "id" in o && AsString(o["id"]).Some?
    ensures DecodeItem(JObject(o)).Some? ==> DecodeItem(JObject(o)) == Some(Unknown(UnknownItem(AsString(o["id"]).value)))
  {
    if TagOf(o).Named? {
      assert DecodeNamedItem(TagOf(o).name, o) == None;
    }
  }

  /** A discriminator that is an object or an array is not a JSON primitive, and is rejected. */
  lemma BadTagRejected(o: map<string, Json>)
    requires TypeKey in o && (o[TypeKey].JArray? || o[TypeKey].JObject?)
    ensures DecodeItem(JObject(o)) == None
  {
  }

  /**
   * A number or boolean discriminator is read as its text, which names no subclass (unless a
   * number's text is itself a subclass name), so the object falls back to `UnknownItem`.
   */
  lemma ScalarTagFallback(o: map<string, Json>)
    requires TypeKey in o
    requires o[TypeKey].JInt? || o[TypeKey].JBool? || (o[TypeKey].JFloat? && !IsItemTypeName(o[TypeKey].text))
    ensures DecodeItem(JObject(o)).Some? <==> "id" in o && AsString(o["id"]).Some?
    ensures DecodeItem(JObject(o)).Some? ==> DecodeItem(JObject(o)) == Some(Unknown(UnknownItem(AsString(o["id"]).value)))
  {
    var n := TagOf(o).name;
    if o[TypeKey].JInt? {
      var t := IntText(o[TypeKey].i);
      assert n == t && (t[0] == '-' || '0' <= t[0] <= '9');
    }
    assert !IsItemTypeName(n);
    UnknownItemFallback(o);
  }

  /** `{"type":5,"id":"x"}` in an item position is the unknown item `x`. */
  lemma NumberTagExample()
    ensures DecodeItem(JObject(map[TypeKey := JInt(5), "id" := JString("x")])) == Some(Unknown(UnknownItem("x")))
  {
    ScalarTagFallback(map[TypeKey := JInt(5), "id" := JString("x")]);
  }

  /** `command_execution` defaults: empty output, no exit code, status `failed`. */
  lemma CommandExecutionDefaults(o: map<string, Json>, id: string, command: string)
    requires o == map[TypeKey := JString("command_execution"), "id" := JString(id), "command" := JString(command)]
    ensures DecodeItem(JObject(o)) == Some(CommandExecution(CommandExecutionItem(id, command, "", None, CommandFailed)))
  {
    assert TagOf(o) == Named("command_execution");
  }

  /** `file_change` defaults: no changes, status `failed`. */
  lemma FileChangeDefaults(o: map<string, Json>, id: string)
    requires o == map[TypeKey := JString("file_change"), "id" := JString(id)]
    ensures DecodeItem(JObject(o)) == Some(FileChange(FileChangeItem(id, [], PatchFailed)))
  {
    assert TagOf(o) == Named("file_change");
  }

  /** `mcp_tool_call` defaults: empty server and tool, no arguments, result or error, status `failed`. */
  lemma McpToolCallDefaults(o: map<string, Json>, id: string)
    requires o == map[TypeKey := JString("mcp_tool_call"), "id" := JString(id)]
    ensures DecodeItem(JObject(o)) == Some(McpToolCall(McpToolCallItem(id, "", "", None, None, None, McpFailed)))
  {
    assert TagOf(o) == Named("mcp_tool_call");
  }

  /** The text fields default to the empty string. */
  lemma TextDefaults(id: string)
    ensures DecodeItem(JObject(map[TypeKey := JString("agent_message"), "id" := JString(id)]))
         == Some(AgentMessage(AgentMessageItem(id, "")))
    ensures DecodeItem(JObject(map[TypeKey := JString("reasoning"), "id" := JString(id)]))
         == Some(Reasoning(ReasoningItem(id, "")))
    ensures DecodeItem(JObject(map[TypeKey := JString("web_search"), "id" := JString(id)]))
         == Some(WebSearch(WebSearchItem(id, "")))
    ensures DecodeItem(JObject(map[TypeKey := JString("error"), "id" := JString(id)]))
         == Some(Error(ErrorItem(id, "")))
  {
    AgentMessageDefault(id);
    ReasoningDefault(id);
    WebSearchDefault(id);
    ErrorDefault(id);
  }

  lemma AgentMessageDefault(id: string)
    ensures DecodeItem(JObject(map[TypeKey := JString("agent_message"), "id" := JString(id)]))
         == Some(AgentMessage(AgentMessageItem(id, "")))
  {
    assert TagOf(map[TypeKey := JString("agent_message"), "id" := JString(id)]) == Named("agent_message");
  }

  lemma ReasoningDefault(id: string)
    ensures DecodeItem(JObject(map[TypeKey := JString("reasoning"), "id" := JString(id)]))
         == Some(Reasoning(ReasoningItem(id, "")))
  {
    assert TagOf(map[TypeKey := JString("reasoning"), "id" := JString(id)]) == Named("reasoning");
  }

  lemma WebSearchDefault(id: string)
    ensures DecodeItem(JObject(map[TypeKey := JString("web_search"), "id" := JString(id)]))
         == Some(WebSearch(WebSearchItem(id, "")))
  {
    assert TagOf(map[TypeKey := JString("web_search"), "id" := JString(id)]) == Named("web_search");
  }

  lemma ErrorDefault(id: string)
    ensures DecodeItem(JObject(map[TypeKey := JString("error"), "id" := JString(id)]))
         == Some(Error(ErrorItem(id, "")))
  {
    assert TagOf(map[TypeKey := JString("error"), "id" := JString(id)]) == Named("error");
  }

  /** `todo_list` defaults to no items; a to-do entry defaults to completed. */
  lemma TodoDefaults(id: string, text: string)
    ensures DecodeItem(JObject(map[TypeKey := JString("todo_list"), "id" := JString(id)]))
         == Some(TodoList(TodoListItem(id, [])))
    ensures DecodeTodoItem(JObject(map["text" := JString(text)])) == Some(TodoItem(text, true))
  {
    assert TagOf(map[TypeKey := JString("todo_list"), "id" := JString(id)]) == Named("todo_list");
  }

  lemma CommandExecutionIgnoresKey(o: map<string, Json>, k: string, v: Json)
    requires k != "id" && k != "command" && k != "aggregated_output" && k != "exit_code" && k != "status"
    ensures DecodeCommandExecution(o[k := v]) == DecodeCommandExecution(o)
  {
  }

  lemma AgentMessageIgnoresKey(o: map<string, Json>, k: string, v: Json)
    requires k != "id" && k != "text"
    ensures DecodeAgentMessage(o[k := v]) == DecodeAgentMessage(o)
  {
  }

  lemma ReasoningIgnoresKey(o: map<string, Json>, k: string, v: Json)
    requires k != "id" && k != "text"
    ensures DecodeReasoning(o[k := v]) == DecodeReasoning(o)
  {
  }

  lemma FileChangeIgnoresKey(o: map<string, Json>, k: string, v: Json)
    requires k != "id" && k != "changes" && k != "status"
    ensures DecodeFileChange(o[k := v]) == DecodeFileChange(o)
  {
  }

  lemma McpToolCallIgnoresKey(o: map<string, Json>, k: string, v: Json)
    requires k != "id" && k != "server" && k != "tool" && k != "arguments" && k != "result" && k != "error" && k != "status"
    ensures DecodeMcpToolCall(o[k := v]) == DecodeMcpToolCall(o)
  {
  }

  lemma WebSearchIgnoresKey(o: map<string, Json>, k: string, v: Json)
    requires k != "id" && k != "query"
    ensures DecodeWebSearch(o[k := v]) == DecodeWebSearch(o)
  {
  }

  lemma ErrorItemIgnoresKey(o: map<string, Json>, k: string, v: Json)
    requires k != "id" && k != "message"
    ensures DecodeErrorItem(o[k := v]) == DecodeErrorItem(o)
  {
  }

  lemma TodoListIgnoresKey(o: map<string, Json>, k: string, v: Json)
    requires k != "id" && k != "items"
    ensures DecodeTodoList(o[k := v]) == DecodeTodoList(o)
  {
  }

  lemma UnknownItemIgnoresKey(o: map<string, Json>, k: string, v: Json)
    requires k != "id"
    ensures DecodeUnknownItem(o[k := v]) == DecodeUnknownItem(o)
  {
  }

  /** Setting a key that no subclass reads does not change the decoding of any of them. */
  lemma NamedItemIgnoresKey(name: string, o: map<string, Json>, k: string, v: Json)
    requires k !in {"id", "command", "aggregated_output", "exit_code", "status", "text", "changes",
                    "server", "tool", "arguments", "result", "error", "query", "message", "items"}
    ensures DecodeNamedItem(name, o[k := v]) == DecodeNamedItem(name, o)
  {
    CommandExecutionIgnoresKey(o, k, v);
    AgentMessageIgnoresKey(o, k, v);
    ReasoningIgnoresKey(o, k, v);
    FileChangeIgnoresKey(o, k, v);
    McpToolCallIgnoresKey(o, k, v);
    WebSearchIgnoresKey(o, k, v);
    ErrorItemIgnoresKey(o, k, v);
    TodoListIgnoresKey(o, k, v);
    UnknownItemIgnoresKey(o, k, v);
  }

  /** The keys some item subclass reads. */
  predicate IsItemKey(k: string) {
    k in {TypeKey, "id", "command", "aggregated_output", "exit_code", "status", "text", "changes",
          "server", "tool", "arguments", "result", "error", "query", "message", "items"}
  }

  /** Adding a key no item subclass reads does not change the decoded item. */
  lemma ItemIgnoresUnknownKeys(o: map<string, Json>, k: string, v: Json)
    requires !IsItemKey(k)
    ensures DecodeItem(JObject(o[k := v])) == DecodeItem(JObject(o))
  {
    var o' := o[k := v];
    assert TagOf(o') == TagOf(o);
    assert DecodeUnknownItem(o') == DecodeUnknownItem(o);
    if TagOf(o).Named? {
      NamedItemIgnoresKey(TagOf(o).name, o, k, v);
    }
  }
}
