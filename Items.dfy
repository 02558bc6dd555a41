/**
 * The operations an agent run reports (`CodexItem` and its subclasses), the status and kind
 * enums with their serial names, the helper records, and the JSON decoding of an item with
 * its fallback to `UnknownItem` for a discriminator no subclass declares.
 */
module Items {
  import opened Wrappers
  import opened Json

  // Enums, each with its serial names.

  datatype CommandExecutionStatus = CommandInProgress | CommandCompleted | CommandFailed
  datatype PatchChangeKind = Add | Delete | Update
  datatype PatchApplyStatus = PatchCompleted | PatchFailed
  datatype McpToolCallStatus = McpInProgress | McpCompleted | McpFailed

  function CommandExecutionStatusName(s: CommandExecutionStatus): string {
    match s
    case CommandInProgress => "in_progress"
    case CommandCompleted => "completed"
    case CommandFailed => "failed"
  }

  function PatchChangeKindName(k: PatchChangeKind): string {
    match k
    case Add => "add"
    case Delete => "delete"
    case Update => "update"
  }

  function PatchApplyStatusName(s: PatchApplyStatus): string {
    match s
    case PatchCompleted => "completed"
    case PatchFailed => "failed"
  }

  function McpToolCallStatusName(s: McpToolCallStatus): string {
    match s
    case McpInProgress => "in_progress"
    case McpCompleted => "completed"
    case McpFailed => "failed"
  }

  /** An enum value decodes from its exact serial name and from nothing else. */
  function AsCommandExecutionStatus(j: Json): (r: Option<CommandExecutionStatus>)
    ensures r.Some? ==> j == JString(CommandExecutionStatusName(r.value))
    ensures forall s :: j == JString(CommandExecutionStatusName(s)) ==> r == Some(s)
  {
    if j == JString("in_progress") then Some(CommandInProgress)
    else if j == JString("completed") then Some(CommandCompleted)
    else if j == JString("failed") then Some(CommandFailed)
    else None
  }

  function AsPatchChangeKind(j: Json): (r: Option<PatchChangeKind>)
    ensures r.Some? ==> j == JString(PatchChangeKindName(r.value))
    ensures forall k :: j == JString(PatchChangeKindName(k)) ==> r == Some(k)
  {
    if j == JString("add") then Some(Add)
    else if j == JString("delete") then Some(Delete)
    else if j == JString("update") then Some(Update)
    else None
  }

  function AsPatchApplyStatus(j: Json): (r: Option<PatchApplyStatus>)
    ensures r.Some? ==> j == JString(PatchApplyStatusName(r.value))
    ensures forall s :: j == JString(PatchApplyStatusName(s)) ==> r == Some(s)
  {
    if j == JString("completed") then Some(PatchCompleted)
    else if j == JString("failed") then Some(PatchFailed)
    else None
  }

  function AsMcpToolCallStatus(j: Json): (r: Option<McpToolCallStatus>)
    ensures r.Some? ==> j == JString(McpToolCallStatusName(r.value))
    ensures forall s :: j == JString(McpToolCallStatusName(s)) ==> r == Some(s)
  {
    if j == JString("in_progress") then Some(McpInProgress)
    else if j == JString("completed") then Some(McpCompleted)
    else if j == JString("failed") then Some(McpFailed)
    else None
  }

  // Helper records.

  datatype FileUpdateChange = FileUpdateChange(path: string, kind: PatchChangeKind)
  datatype McpToolResult = McpToolResult(content: seq<Json>, structuredContent: Option<Json>)
  datatype McpToolError = McpToolError(message: string)
  datatype TodoItem = TodoItem(text: string, completed: bool)

  // The item subclasses, one record each, and the sealed class over them.

  datatype CommandExecutionItem = CommandExecutionItem(
    id: string, command: string, aggregatedOutput: string,
    exitCode: Option<Int32>, status: CommandExecutionStatus)
  datatype AgentMessageItem = AgentMessageItem(id: string, text: string)
  datatype ReasoningItem = ReasoningItem(id: string, text: string)
  datatype FileChangeItem = FileChangeItem(id: string, changes: seq<FileUpdateChange>, status: PatchApplyStatus)
  datatype McpToolCallItem = McpToolCallItem(
    id: string, server: string, tool: string, arguments: Option<Json>,
    result: Option<McpToolResult>, error: Option<McpToolError>, status: McpToolCallStatus)
  datatype WebSearchItem = WebSearchItem(id: string, query: string)
  datatype ErrorItem = ErrorItem(id: string, message: string)
  datatype TodoListItem = TodoListItem(id: string, items: seq<TodoItem>)
  datatype UnknownItem = UnknownItem(id: string)

  datatype CodexItem =
    | CommandExecution(commandExecution: CommandExecutionItem)
    | AgentMessage(agentMessage: AgentMessageItem)
    | Reasoning(reasoning: ReasoningItem)
    | FileChange(fileChange: FileChangeItem)
    | McpToolCall(mcpToolCall: McpToolCallItem)
    | WebSearch(webSearch: WebSearchItem)
    | Error(error: ErrorItem)
    | TodoList(todoList: TodoListItem)
    | Unknown(unknown: UnknownItem)
  {
    /** Every item has an `id`. */
    function Id(): string {
      match this
      case CommandExecution(x) => x.id
      case AgentMessage(x) => x.id
      case Reasoning(x) => x.id
      case FileChange(x) => x.id
      case McpToolCall(x) => x.id
      case WebSearch(x) => x.id
      case Error(x) => x.id
      case TodoList(x) => x.id
      case Unknown(x) => x.id
    }
  }

  /** The `@SerialName` of each subclass: its discriminator. */
  function ItemTypeName(i: CodexItem): string {
    match i
    case CommandExecution(_) => "command_execution"
    case AgentMessage(_) => "agent_message"
    case Reasoning(_) => "reasoning"
    case FileChange(_) => "file_change"
    case McpToolCall(_) => "mcp_tool_call"
    case WebSearch(_) => "web_search"
    case Error(_) => "error"
    case TodoList(_) => "todo_list"
    case Unknown(_) => "unknown_item"
  }

  /** Distinct subclasses have distinct discriminators. */
  lemma ItemTypeNamesDistinct(a: CodexItem, b: CodexItem)
    requires ItemTypeName(a) == ItemTypeName(b)
    ensures a.CommandExecution? == b.CommandExecution? && a.AgentMessage? == b.AgentMessage?
    ensures a.Reasoning? == b.Reasoning? && a.FileChange? == b.FileChange?
    ensures a.McpToolCall? == b.McpToolCall? && a.WebSearch? == b.WebSearch?
    ensures a.Error? == b.Error? && a.TodoList? == b.TodoList? && a.Unknown? == b.Unknown?
  {
  }

  // Decoding of the helper records.

  function DecodeFileUpdateChange(j: Json): Option<FileUpdateChange> {
    var o :- AsObject(j);
    var path :- Required(o, "path", AsString);
    var kind :- Required(o, "kind", AsPatchChangeKind);
    Some(FileUpdateChange(path, kind))
  }

  function DecodeMcpToolResult(j: Json): Option<McpToolResult> {
    var o :- AsObject(j);
    var content :- WithDefault(o, "content", [], (e: Json) => AsList(e, AsElement));
    var structured :- Nullable(o, "structured_content", AsElement);
    Some(McpToolResult(content, structured))
  }

  function DecodeMcpToolError(j: Json): Option<McpToolError> {
    var o :- AsObject(j);
    var message :- WithDefault(o, "message", "", AsString);
    Some(McpToolError(message))
  }

  function DecodeTodoItem(j: Json): Option<TodoItem> {
    var o :- AsObject(j);
    var text :- Required(o, "text", AsString);
    var completed :- WithDefault(o, "completed", true, AsBool);
    Some(TodoItem(text, completed))
  }

  function AsChanges(j: Json): Option<seq<FileUpdateChange>> {
    AsList(j, DecodeFileUpdateChange)
  }

  function AsTodoItems(j: Json): Option<seq<TodoItem>> {
    AsList(j, DecodeTodoItem)
  }

  // Decoding of each subclass from the fields of its object; the discriminator key itself is not a field.

  function DecodeCommandExecution(o: map<string, Json>): Option<CommandExecutionItem> {
    var id :- Required(o, "id", AsString);
    var command :- Required(o, "command", AsString);
    var output :- WithDefault(o, "aggregated_output", "", AsString);
    var exitCode :- Nullable(o, "exit_code", AsInt32);
    var status :- WithDefault(o, "status", CommandFailed, AsCommandExecutionStatus);
    Some(CommandExecutionItem(id, command, output, exitCode, status))
  }

  function DecodeAgentMessage(o: map<string, Json>): Option<AgentMessageItem> {
    var id :- Required(o, "id", AsString);
    var text :- WithDefault(o, "text", "", AsString);
    Some(AgentMessageItem(id, text))
  }

  function DecodeReasoning(o: map<string, Json>): Option<ReasoningItem> {
    var id :- Required(o, "id", AsString);
    var text :- WithDefault(o, "text", "", AsString);
    Some(ReasoningItem(id, text))
  }

  function DecodeFileChange(o: map<string, Json>): Option<FileChangeItem> {
    var id :- Required(o, "id", AsString);
    var changes :- WithDefault(o, "changes", [], AsChanges);
    var status :- WithDefault(o, "status", PatchFailed, AsPatchApplyStatus);
    Some(FileChangeItem(id, changes, status))
  }

  function DecodeMcpToolCall(o: map<string, Json>): Option<McpToolCallItem> {
    var id :- Required(o, "id", AsString);
    var server :- WithDefault(o, "server", "", AsString);
    var tool :- WithDefault(o, "tool", "", AsString);
    var arguments :- Nullable(o, "arguments", AsElement);
    var result :- Nullable(o, "result", DecodeMcpToolResult);
    var error :- Nullable(o, "error", DecodeMcpToolError);
    var status :- WithDefault(o, "status", McpFailed, AsMcpToolCallStatus);
    Some(McpToolCallItem(id, server, tool, arguments, result, error, status))
  }

  function DecodeWebSearch(o: map<string, Json>): Option<WebSearchItem> {
    var id :- Required(o, "id", AsString);
    var query :- WithDefault(o, "query", "", AsString);
    Some(WebSearchItem(id, query))
  }

  function DecodeErrorItem(o: map<string, Json>): Option<ErrorItem> {
    var id :- Required(o, "id", AsString);
    var message :- WithDefault(o, "message", "", AsString);
    Some(ErrorItem(id, message))
  }

  function DecodeTodoList(o: map<string, Json>): Option<TodoListItem> {
    var id :- Required(o, "id", AsString);
    var items :- WithDefault(o, "items", [], AsTodoItems);
    Some(TodoListItem(id, items))
  }

  function DecodeUnknownItem(o: map<string, Json>): Option<UnknownItem> {
    var id :- Required(o, "id", AsString);
    Some(UnknownItem(id))
  }

  /** The subclass a discriminator selects, or `None` for one no subclass declares. */
  function DecodeNamedItem(name: string, o: map<string, Json>): Option<Option<CodexItem>> {
    if name == "command_execution" then Some(MapOption(DecodeCommandExecution(o), (x: CommandExecutionItem) => CommandExecution(x)))
    else if name == "agent_message" then Some(MapOption(DecodeAgentMessage(o), (x: AgentMessageItem) => AgentMessage(x)))
    else if name == "reasoning" then Some(MapOption(DecodeReasoning(o), (x: ReasoningItem) => Reasoning(x)))
    else if name == "file_change" then Some(MapOption(DecodeFileChange(o), (x: FileChangeItem) => FileChange(x)))
    else if name == "mcp_tool_call" then Some(MapOption(DecodeMcpToolCall(o), (x: McpToolCallItem) => McpToolCall(x)))
    else if name == "web_search" then Some(MapOption(DecodeWebSearch(o), (x: WebSearchItem) => WebSearch(x)))
    else if name == "error" then Some(MapOption(DecodeErrorItem(o), (x: ErrorItem) => Error(x)))
    else if name == "todo_list" then Some(MapOption(DecodeTodoList(o), (x: TodoListItem) => TodoList(x)))
    else if name == "unknown_item" then Some(MapOption(DecodeUnknownItem(o), (x: UnknownItem) => Unknown(x)))
    else None
  }

  function MapOption<A, B>(x: Option<A>, f: A -> B): Option<B> {
    match x
    case None => None
    case Some(a) => Some(f(a))
  }

  /**
   * Polymorphic decoding of an item: the discriminator picks the subclass; an unrecognised or
   * absent one falls back to `UnknownItem`, which needs only an `id`.
   */
  function DecodeItem(j: Json): (r: Option<CodexItem>)
    ensures r.Some? ==> j.JObject? && !TagOf(j.fields).BadTag?
    ensures r.Some? && r.value.Unknown? ==> "id" in j.fields && AsString(j.fields["id"]) == Some(r.value.unknown.id)
  {
    var o :- AsObject(j);
    match TagOf(o)
    case BadTag => None
    case Untagged => MapOption(DecodeUnknownItem(o), (x: UnknownItem) => Unknown(x))
    case Named(n) =>
      match DecodeNamedItem(n, o)
      case Some(r) => r
      case None => MapOption(DecodeUnknownItem(o), (x: UnknownItem) => Unknown(x))
  }

  /** The discriminators the item subclasses declare. */
  predicate IsItemTypeName(name: string) {
    name in {"command_execution", "agent_message", "reasoning", "file_change", "mcp_tool_call",
             "web_search", "error", "todo_list", "unknown_item"}
  }
}
