// The resolved agent definition, and the JSON image of it that a run carries in its checkpoint
// (core/interfaces/agent.py, core/interfaces/tools.py; services/agent_runs.py `_spec_to_json`;
// services/agent_runtime.py `_spec_from_checkpoint`).
module AgentSpecs {
  import opened Outcome

  datatype Json =
    | Null
    | Bool(flag: bool)
    | Int(number: int)
    | Float(decimal: real)
    | Text(text: string)
    | Array(items: seq<Json>)
    | Object(fields: map<string, Json>)

  type Dict = map<string, Json>

  datatype ToolType = MCP | REST | OPENAPI | INTERNAL | DATABASE | PYTHON | COMMAND

  datatype RiskLevel = LOW | MEDIUM | HIGH | CRITICAL

  datatype ToolDefinition = ToolDefinition(
    name: string,
    description: string,
    kind: ToolType,
    parametersSchema: Dict,
    requiredPermission: string,
    riskLevel: RiskLevel,
    endpoint: Option<string>,
    enabled: bool,
    config: Dict)

  datatype AgentSpec = AgentSpec(
    agentId: string,
    version: int,
    name: string,
    model: string,
    systemPrompt: string,
    tools: seq<ToolDefinition>,
    knowledgeBaseIds: seq<string>,
    memoryEnabled: bool,
    maxIterations: int,
    temperature: real)

  // The allow-list the runtime hands to the pipeline: ids carried in each tool's private config.
  function Granted(spec: AgentSpec): set<string> {
    set t | t in spec.tools && "_tool_id" in t.config && t.config["_tool_id"].Text? :: t.config["_tool_id"].text
  }

  // ---- enum values and their JSON spelling ------------------------------------------------

  function ToolTypeText(k: ToolType): string {
    match k
    case MCP => "MCP"
    case REST => "REST"
    case OPENAPI => "OPENAPI"
    case INTERNAL => "INTERNAL"
    case DATABASE => "DATABASE"
    case PYTHON => "PYTHON"
    case COMMAND => "COMMAND"
  }

  function ToolTypeOf(s: string): Option<ToolType> {
    if s == "MCP" then Some(MCP)
    else if s == "REST" then Some(REST)
    else if s == "OPENAPI" then Some(OPENAPI)
    else if s == "INTERNAL" then Some(INTERNAL)
    else if s == "DATABASE" then Some(DATABASE)
    else if s == "PYTHON" then Some(PYTHON)
    else if s == "COMMAND" then Some(COMMAND)
    else None
  }

  function RiskLevelText(r: RiskLevel): string {
    match r
    case LOW => "LOW"
    case MEDIUM => "MEDIUM"
    case HIGH => "HIGH"
    case CRITICAL => "CRITICAL"
  }

  function RiskLevelOf(s: string): Option<RiskLevel> {
    if s == "LOW" then Some(LOW)
    else if s == "MEDIUM" then Some(MEDIUM)
    else if s == "HIGH" then Some(HIGH)
    else if s == "CRITICAL" then Some(CRITICAL)
    else None
  }

  // ---- _spec_to_json ----------------------------------------------------------------------

  function ToolToJson(t: ToolDefinition): Json {
    Object(map[
             "name" := Text(t.name),
             "description" := Text(t.description),
             "type" := Text(ToolTypeText(t.kind)),
             "parameters_schema" := Object(t.parametersSchema),
             "required_permission" := Text(t.requiredPermission),
             "risk_level" := Text(RiskLevelText(t.riskLevel)),
             "endpoint" := if t.endpoint.Some? then Text(t.endpoint.value) else Null,
             "config" := Object(t.config)])
  }

  function ToolsToJson(tools: seq<ToolDefinition>): (items: seq<Json>)
    ensures |items| == |tools|
    ensures forall i :: 0 <= i < |tools| ==> items[i] == ToolToJson(tools[i])
  {
    if tools == [] then [] else [ToolToJson(tools[0])] + ToolsToJson(tools[1..])
  }

  function SpecToJson(spec: AgentSpec): Dict {
    map[
      "agent_id" := Text(spec.agentId),
      "version" := Int(spec.version),
      "name" := Text(spec.name),
      "model" := Text(spec.model),
      "system_prompt" := Text(spec.systemPrompt),
      "max_iterations" := Int(spec.maxIterations),
      "temperature" := Float(spec.temperature),
      "tools" := Array(ToolsToJson(spec.tools))]
  }

  // ---- _spec_from_checkpoint --------------------------------------------------------------
  // `stored.get(key, default)`. A value of a JSON type that `_spec_to_json` never writes under
  // the key is read as absent.

  function TextOr(d: Dict, key: string, default: string): string {
    if key in d && d[key].Text? then d[key].text else default
  }

  function IntOr(d: Dict, key: string, default: int): int {
    if key in d && d[key].Int? then d[key].number else default
  }

  function FloatOr(d: Dict, key: string, default: real): real {
    if key in d && d[key].Float? then d[key].decimal else default
  }

  function DictOr(d: Dict, key: string, default: Dict): Dict {
    if key in d && d[key].Object? then d[key].fields else default
  }

  function ItemsOr(d: Dict, key: string, default: seq<Json>): seq<Json> {
    if key in d && d[key].Array? then d[key].items else default
  }

  datatype ReadError = MissingToolName | UnknownToolType | UnknownRiskLevel

  function ToolFromJson(j: Json): Result<ToolDefinition, ReadError> {
    var d := if j.Object? then j.fields else map[];
    if "name" !in d || !d["name"].Text? then Err(MissingToolName) else
    var kind := ToolTypeOf(TextOr(d, "type", "REST"));
    if kind.None? then Err(UnknownToolType) else
    var risk := RiskLevelOf(TextOr(d, "risk_level", "LOW"));
    if risk.None? then Err(UnknownRiskLevel) else
    Ok(ToolDefinition(
         d["name"].text,
         TextOr(d, "description", ""),
         kind.value,
         DictOr(d, "parameters_schema", map[]),
         TextOr(d, "required_permission", ""),
         risk.value,
         if "endpoint" in d && d["endpoint"].Text? then Some(d["endpoint"].text) else None,
         true,
         DictOr(d, "config", map[])))
  }

  function ToolsFromJson(items: seq<Json>): Result<seq<ToolDefinition>, ReadError> {
    if items == [] then Ok([]) else
    var head := ToolFromJson(items[0]);
    if head.Err? then Err(head.error) else
    var rest := ToolsFromJson(items[1..]);
    if rest.Err? then Err(rest.error) else
    Ok([head.value] + rest.value)
  }

  function SpecFromJson(stored: Dict): Result<AgentSpec, ReadError> {
    var tools := ToolsFromJson(ItemsOr(stored, "tools", []));
    if tools.Err? then Err(tools.error) else
    Ok(AgentSpec(
         TextOr(stored, "agent_id", ""),
         IntOr(stored, "version", 1),
         TextOr(stored, "name", "agent"),
         TextOr(stored, "model", ""),
         TextOr(stored, "system_prompt", ""),
         tools.value,
         [],
         false,
         IntOr(stored, "max_iterations", 25),
         FloatOr(stored, "temperature", 0.2)))
  }

  // ---- the round trip ---------------------------------------------------------------------

  function AllEnabled(tools: seq<ToolDefinition>): (out: seq<ToolDefinition>)
    ensures |out| == |tools|
    ensures forall i :: 0 <= i < |tools| ==> out[i] == tools[i].(enabled := true)
  {
    if tools == [] then [] else [tools[0].(enabled := true)] + AllEnabled(tools[1..])
  }

  // What survives a checkpoint: the JSON has no key for the knowledge bases, the memory switch
  // or a tool's `enabled` flag, so all three come back as the dataclass defaults.
  function Persisted(spec: AgentSpec): AgentSpec {
    spec.(tools := AllEnabled(spec.tools), knowledgeBaseIds := [], memoryEnabled := false)
  }

  lemma TypeRoundTrip(k: ToolType)
    ensures ToolTypeOf(ToolTypeText(k)) == Some(k)
  {
  }

  lemma RiskRoundTrip(r: RiskLevel)
    ensures RiskLevelOf(RiskLevelText(r)) == Some(r)
  {
  }

  lemma ToolRoundTrip(t: ToolDefinition)
    ensures ToolFromJson(ToolToJson(t)) == Ok(t.(enabled := true))
  {
    TypeRoundTrip(t.kind);
    RiskRoundTrip(t.riskLevel);
    hide ToolTypeOf, ToolTypeText, RiskLevelOf, RiskLevelText;
    var d := ToolToJson(t).fields;
    assert TextOr(d, "type", "REST") == ToolTypeText(t.kind);
    assert TextOr(d, "risk_level", "LOW") == RiskLevelText(t.riskLevel);
    assert TextOr(d, "description", "") == t.description;
    assert TextOr(d, "required_permission", "") == t.requiredPermission;
    assert DictOr(d, "parameters_schema", map[]) == t.parametersSchema;
    assert DictOr(d, "config", map[]) == t.config;
  }

  lemma {:induction false} ToolsRoundTrip(tools: seq<ToolDefinition>)
    ensures ToolsFromJson(ToolsToJson(tools)) == Ok(AllEnabled(tools))
  {
    if tools != [] {
      ToolsRoundTrip(tools[1..]);
      ToolRoundTrip(tools[0]);
    }
  }

  // Reading a checkpoint back gives the spec that was stored, minus exactly what the JSON drops.
  lemma SpecRoundTrip(spec: AgentSpec)
    ensures SpecFromJson(SpecToJson(spec)) == Ok(Persisted(spec))
  {
    hide ToolsToJson, ToolsFromJson;
    ToolsRoundTrip(spec.tools);
    var d := SpecToJson(spec);
    assert ItemsOr(d, "tools", []) == ToolsToJson(spec.tools);
    assert IntOr(d, "version", 1) == spec.version && IntOr(d, "max_iterations", 25) == spec.maxIterations;
    assert TextOr(d, "agent_id", "") == spec.agentId && TextOr(d, "name", "agent") == spec.name;
    assert TextOr(d, "model", "") == spec.model && TextOr(d, "system_prompt", "") == spec.systemPrompt;
  }

  // The round trip is the identity exactly on the specs that use none of the dropped fields.
  lemma RoundTripExactlyWhenNothingDropped(spec: AgentSpec)
    ensures SpecFromJson(SpecToJson(spec)) == Ok(spec)
       <==> spec.knowledgeBaseIds == [] && !spec.memoryEnabled && forall t :: t in spec.tools ==> t.enabled
  {
    SpecRoundTrip(spec);
    var kept := Persisted(spec);
    if forall t :: t in spec.tools ==> t.enabled {
      assert kept.tools == spec.tools;
    }
    if kept == spec {
      forall t | t in spec.tools
        ensures t.enabled
      {
        var i :| 0 <= i < |spec.tools| && spec.tools[i] == t;
        assert kept.tools[i] == t;
      }
    }
  }

  // Nothing the loop authorises with or sends to the model is among the dropped fields.
  lemma PersistedKeepsGrants(spec: AgentSpec)
    ensures Granted(Persisted(spec)) == Granted(spec)
  {
  }

  lemma PersistedTwice(spec: AgentSpec)
    ensures Persisted(Persisted(spec)) == Persisted(spec)
    ensures SpecToJson(Persisted(spec)) == SpecToJson(spec)
  {
    assert Persisted(Persisted(spec)).tools == Persisted(spec).tools;
    assert SpecToJson(Persisted(spec))["tools"].items == SpecToJson(spec)["tools"].items;
  }
}
