// Rows, events and outside answers of an agent run (models/agents.py,
// core/interfaces/agent.py, services/tool_pipeline.py).
module RunModel {
  import opened Outcome
  import opened AgentSpecs

  type UserId = nat

  datatype Actor = Actor(id: UserId, isSuperuser: bool, permissions: set<string>)

  datatype RunState = CREATED | RUNNING | WAITING_FOR_APPROVAL | COMPLETED | FAILED | CANCELLED

  predicate IsTerminal(s: RunState) {
    s == COMPLETED || s == FAILED || s == CANCELLED
  }

  datatype ApprovalState = NOT_REQUIRED | PENDING | APPROVED | REJECTED | EXPIRED

  // A call as the model issued it; `arguments` is what `_parse_arguments` makes of its JSON.
  datatype ToolCall = ToolCall(id: string, name: string, arguments: Dict)

  datatype Denial = ToolDisabled | TypeDisabled | NotGranted | LacksPermission(permission: string)

  // What a tool message tells the model. The runtime's own sentences are constructors.
  datatype Reply =
    | Result(content: string)
    | NoSuchTool(tool: string)
    | Denied(tool: string, denial: Denial)
    | Refused(tool: string, reason: Option<string>)
    | NoLongerExists(tool: string)

  datatype Message =
    | System(content: string)
    | User(content: string)
    | Assistant(content: string, toolCalls: seq<ToolCall>)
    | ToolMessage(callId: string, name: string, reply: Reply)

  datatype RunError =
    | ModelUnavailable(model: string, cause: string)
    | ModelUnreachable(cause: string)
    | OutOfIterations(limit: int)
    | NotWaiting

  // A run's JSON checkpoint: {} after completion, {"spec"} from the start, and all five keys
  // once the run has been suspended.
  datatype Checkpoint =
    | Cleared
    | Started(spec: Dict)
    | Suspended(conversation: seq<Message>, pendingCall: ToolCall, iteration: nat, sequence: nat, spec: Dict)

  datatype Body =
    | RunStarted(agent: string, version: int, model: string)
    | RagSearch(query: string, bases: seq<string>)
    | MemoryRead(recalled: nat)
    | LlmRequest(iteration: nat, messages: nat)
    | LlmResponse(iteration: nat, content: string, tools: seq<string>, promptTokens: nat, completionTokens: nat)
    | ToolRequested(tool: string)
    | ToolApprovalRequired(tool: string, execution: nat)
    | ToolApproved(tool: string, approver: UserId)
    | ToolRejected(tool: string, reply: Reply)
    | ToolExecuted(tool: string, success: bool)
    | RunCompleted(output: string, iterations: nat)
    | RunFailed(error: RunError)

  // One row of agent_run_events.
  datatype RunEvent = RunEvent(sequence: nat, body: Body)

  // One tool as the model is told about it (`_openai_tool_spec`).
  datatype Offer = Offer(name: string, description: string, parameters: Dict)

  // What the provider is sent.
  datatype ChatRequest = ChatRequest(
    messages: seq<Message>,
    model: string,
    temperature: real,
    tools: seq<Offer>)

  datatype ChatOutcome =
    | Completion(content: string, toolCalls: seq<ToolCall>, promptTokens: nat, completionTokens: nat)
    | ProviderError(cause: string)

  // A row of the tool catalogue; its name is the key it was looked up by.
  datatype Tool = Tool(id: string, enabled: bool, kind: ToolType, requiredPermission: string, riskLevel: RiskLevel)

  datatype ToolResult = ToolResult(success: bool, content: string)

  // One row of tool_executions, its id the position in the table.
  datatype ToolExecution = ToolExecution(
    runId: nat,
    toolId: string,
    toolName: string,
    arguments: Dict,
    riskLevel: RiskLevel,
    approvalState: ApprovalState,
    requestedAt: int,
    approver: Option<UserId>,
    decidedAt: Option<int>,
    success: Option<bool>,
    result: Option<string>)

  // A call that reached an executor, on behalf of an execution row.
  datatype Invocation = Invocation(execution: nat, tool: Tool, name: string, arguments: Dict)

  // One row of agent_runs, with its events, what its provider was sent and what its tools did.
  // `version` is what agent_version_id points at: the spec as it was built when the run started.
  datatype Run = Run(
    userId: Option<UserId>,
    userPermissions: set<string>,
    version: AgentSpec,
    state: RunState,
    iterations: nat,
    promptTokens: nat,
    completionTokens: nat,
    output: Option<string>,
    error: Option<RunError>,
    checkpoint: Checkpoint,
    finishedAt: Option<int>,
    events: seq<RunEvent>,
    requests: seq<ChatRequest>,
    invocations: seq<Invocation>)

  datatype Found = Found(bases: seq<string>, memories: nat, context: string)

  // Every answer that comes from outside the loop, as functions of what distinguishes one
  // question from another within a run: the iteration, and the position of a call in its batch.
  datatype World = World(
    approvalRequired: nat -> set<RiskLevel>,
    disabledTypes: nat -> set<ToolType>,
    retrieval: Option<(AgentSpec, string) -> Option<Found>>,
    resolve: (nat, string) -> Result<string, string>,
    chat: (nat, ChatRequest) -> ChatOutcome,
    catalogue: (nat, nat, string) -> Option<Tool>,
    execute: (nat, nat, Tool, Dict) -> ToolResult,
    catalogueAtDecision: (nat, string) -> Option<Tool>,
    executeApproved: (nat, Tool, Dict) -> ToolResult)

  datatype Decision = Decision(approved: bool, approver: UserId, reason: Option<string>)
}
