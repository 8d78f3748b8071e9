// Agent versions, and what deleting a tool or a skill does to them (services/agent_registry.py
// `AgentRegistryService`, repositories/agents.py `AgentVersionRepository`, models/agents.py).
module AgentVersions {
  import opened Outcome

  // What a version executes.
  datatype Definition = Definition(
    systemPrompt: string,
    model: string,
    temperature: real,
    maxIterations: int,
    tools: seq<nat>,
    skills: seq<nat>,
    knowledgeBases: seq<string>,
    memoryEnabled: bool)

  datatype AgentVersion = AgentVersion(agentId: nat, version: nat, definition: Definition)

  datatype Agent = Agent(slug: string, displayName: string, description: Option<string>, enabled: bool,
                         currentVersion: nat)

  // The ids in tools and skills, agents, and agent_versions with the grants that refer to it; an
  // agent's id is its position.
  datatype Registry = Registry(tools: set<nat>, skills: set<nat>, agents: seq<Agent>, versions: seq<AgentVersion>)

  // What a version may be granted, and what an operator may delete.
  datatype Grant = ToolGrant(id: nat) | SkillGrant(id: nat)

  // What an update may supply; None leaves the field as it is.
  datatype Change = Change(
    systemPrompt: Option<string>,
    model: Option<string>,
    temperature: Option<real>,
    maxIterations: Option<int>,
    tools: Option<seq<nat>>,
    skills: Option<seq<nat>>,
    knowledgeBases: Option<seq<string>>,
    memoryEnabled: Option<bool>)

  datatype Identity = Identity(displayName: Option<string>, description: Option<string>, enabled: Option<bool>)

  datatype RegistryError =
    InvalidSlug | SlugTaken | NoSuchAgent | NoCurrentVersion | NoSuchTool | NoSuchSkill | ConstraintViolated

  // ---- slugs ------------------------------------------------------------------------------

  predicate Alphanumeric(c: char) {
    'a' <= c <= 'z' || '0' <= c <= '9'
  }

  function BeforeNewline(s: string): string {
    if s != "" && s[|s| - 1] == '\n' then s[..|s| - 1] else s
  }

  // ^[a-z0-9][a-z0-9-]{1,62}[a-z0-9]$, whose $ also matches before a final newline.
  predicate ValidSlug(s: string) {
    var t := BeforeNewline(s);
    && 3 <= |t| <= 64
    && Alphanumeric(t[0]) && Alphanumeric(t[|t| - 1])
    && forall i :: 0 <= i < |t| ==> Alphanumeric(t[i]) || t[i] == '-'
  }

  predicate SlugIn(agents: seq<Agent>, slug: string) {
    exists i :: 0 <= i < |agents| && agents[i].slug == slug
  }

  // ---- queries ----------------------------------------------------------------------------

  function VersionsOf(versions: seq<AgentVersion>, agent: nat): seq<AgentVersion> {
    if versions == [] then [] else
    var last := versions[|versions| - 1];
    VersionsOf(versions[..|versions| - 1], agent) + (if last.agentId == agent then [last] else [])
  }

  // select max(version), 0 if there is none.
  function MaxVersion(versions: seq<AgentVersion>): nat {
    if versions == [] then 0 else
    var rest := MaxVersion(versions[..|versions| - 1]);
    if versions[|versions| - 1].version > rest then versions[|versions| - 1].version else rest
  }

  function NextVersion(r: Registry, agent: nat): nat {
    MaxVersion(VersionsOf(r.versions, agent)) + 1
  }

  function WithNumber(versions: seq<AgentVersion>, number: nat): Option<AgentVersion> {
    if versions == [] then None
    else if versions[0].version == number then Some(versions[0])
    else WithNumber(versions[1..], number)
  }

  function GetCurrent(r: Registry, agent: nat): Option<AgentVersion> {
    if agent >= |r.agents| then None else WithNumber(VersionsOf(r.versions, agent), r.agents[agent].currentVersion)
  }

  // ---- _create_version --------------------------------------------------------------------

  function Min(a: int, b: int): (least: int)
    ensures least <= a && least <= b && (least == a || least == b)
  {
    if a < b then a else b
  }

  predicate Distinct(ids: seq<nat>) {
    forall i, j :: 0 <= i < j < |ids| ==> ids[i] != ids[j]
  }

  predicate Exist(ids: seq<nat>, known: set<nat>) {
    forall i :: 0 <= i < |ids| ==> ids[i] in known
  }

  // Every reference must exist now, the iterations are capped by the platform's setting `cap`, and the
  // table's own constraints
  // hold: 1..100 iterations, a (agent, version) pair once, a grant once per version.
  function Check(r: Registry, cap: int, d: Definition): Result<Definition, RegistryError> {
    var capped := d.(maxIterations := Min(d.maxIterations, cap));
    if !Exist(d.tools, r.tools) then Err(NoSuchTool)
    else if !Exist(d.skills, r.skills) then Err(NoSuchSkill)
    else if !(0 < capped.maxIterations <= 100) then Err(ConstraintViolated)
    else if !Distinct(d.tools) || !Distinct(d.skills) then Err(ConstraintViolated)
    else Ok(capped)
  }

  // ---- create_agent, create_version, update_agent -----------------------------------------

  function Create(cap: int, r: Registry, slug: string, displayName: string, description: Option<string>,
                  d: Definition)
    : Result<Registry, RegistryError>
  {
    if !ValidSlug(slug) then Err(InvalidSlug)
    else if SlugIn(r.agents, slug) then Err(SlugTaken)
    else
      var checked := Check(r, cap, d);
      if checked.Err? then Err(checked.error) else
      Ok(r.(agents := r.agents + [Agent(slug, displayName, description, true, 1)],
            versions := r.versions + [AgentVersion(|r.agents|, 1, checked.value)]))
  }

  function Supplied<T>(given: Option<T>, current: T): T {
    if given.Some? then given.value else current
  }

  function PromptOf(c: Change): Option<string> { c.systemPrompt }
  function ModelOf(c: Change): Option<string> { if c.model == Some("") then None else c.model }
  function TemperatureOf(c: Change): Option<real> { c.temperature }
  function IterationsOf(c: Change): Option<int> { NonZero(c.maxIterations) }
  function ToolsOf(c: Change): Option<seq<nat>> { c.tools }
  function SkillsOf(c: Change): Option<seq<nat>> { c.skills }
  function KnowledgeOf(c: Change): Option<seq<string>> { c.knowledgeBases }
  function MemoryOf(c: Change): Option<bool> { c.memoryEnabled }

  // `x if x is not None else current.x`, but `x or current.x` for the model and the iterations:
  // an empty model and a zero count as not supplied.
  function Merge(c: Change, current: Definition): Definition {
    Definition(
      Supplied(c.systemPrompt, current.systemPrompt),
      if c.model.Some? && c.model.value != "" then c.model.value else current.model,
      Supplied(c.temperature, current.temperature),
      if c.maxIterations.Some? && c.maxIterations.value != 0 then c.maxIterations.value else current.maxIterations,
      Supplied(c.tools, current.tools),
      Supplied(c.skills, current.skills),
      Supplied(c.knowledgeBases, current.knowledgeBases),
      Supplied(c.memoryEnabled, current.memoryEnabled))
  }

  function Publish(cap: int, r: Registry, agent: nat, c: Change): Result<Registry, RegistryError> {
    if agent >= |r.agents| then Err(NoSuchAgent) else
    var current := GetCurrent(r, agent);
    if current.None? then Err(NoCurrentVersion) else
    var number := NextVersion(r, agent);
    var checked := Check(r, cap, Merge(c, current.value.definition));
    if checked.Err? then Err(checked.error) else
    Ok(r.(agents := r.agents[agent := r.agents[agent].(currentVersion := number)],
          versions := r.versions + [AgentVersion(agent, number, checked.value)]))
  }

  function Renamed(a: Agent, i: Identity): Agent {
    a.(displayName := Supplied(i.displayName, a.displayName),
       description := if i.description.Some? then i.description else a.description,
       enabled := Supplied(i.enabled, a.enabled))
  }

  function Update(cap: int, r: Registry, agent: nat, i: Identity, c: Change): Result<Registry, RegistryError> {
    if agent >= |r.agents| then Err(NoSuchAgent)
    else Publish(cap, r.(agents := r.agents[agent := Renamed(r.agents[agent], i)]), agent, c)
  }

  // ---- register_tool, create_skill, delete_tool, delete_skill -----------------------------

  function Minus(ids: seq<nat>, gone: set<nat>): seq<nat> {
    if ids == [] then [] else (if ids[0] in gone then [] else [ids[0]]) + Minus(ids[1..], gone)
  }

  // agent_tools and agent_skills refer to what they grant with ON DELETE CASCADE: the grants go from
  // every version, published or not, of every agent.
  function Without(d: Definition, g: Grant): Definition {
    match g
    case ToolGrant(id) => d.(tools := Minus(d.tools, {id}))
    case SkillGrant(id) => d.(skills := Minus(d.skills, {id}))
  }

  function Cascade(versions: seq<AgentVersion>, g: Grant): (out: seq<AgentVersion>)
    ensures |out| == |versions|
    ensures forall i :: 0 <= i < |versions| ==>
      out[i] == versions[i].(definition := Without(versions[i].definition, g))
  {
    if versions == [] then [] else
    var last := versions[|versions| - 1];
    Cascade(versions[..|versions| - 1], g) + [last.(definition := Without(last.definition, g))]
  }

  function Register(r: Registry, g: Grant): Registry {
    match g
    case ToolGrant(id) => r.(tools := r.tools + {id})
    case SkillGrant(id) => r.(skills := r.skills + {id})
  }

  function Delete(r: Registry, g: Grant): Result<Registry, RegistryError> {
    match g
    case ToolGrant(id) =>
      if id !in r.tools then Err(NoSuchTool)
      else Ok(r.(tools := r.tools - {id}, versions := Cascade(r.versions, g)))
    case SkillGrant(id) =>
      if id !in r.skills then Err(NoSuchSkill)
      else Ok(r.(skills := r.skills - {id}, versions := Cascade(r.versions, g)))
  }

  // The service. A request that fails leaves the tables as they were: its transaction rolls back.
  class AgentRegistry {
    var tools: set<nat>
    var skills: set<nat>
    var agents: seq<Agent>
    var versions: seq<AgentVersion>

    ghost function Tables(): Registry
      reads this
    {
      Registry(tools, skills, agents, versions)
    }

    constructor ()
      ensures Tables() == Registry({}, {}, [], [])
    {
      tools, skills, agents, versions := {}, {}, [], [];
    }

    method CheckDefinition(cap: int, d: Definition) returns (r: Result<Definition, RegistryError>)
      ensures r == Check(Tables(), cap, d)
    {
      for i := 0 to |d.tools|
        invariant forall j :: 0 <= j < i ==> d.tools[j] in tools
      {
        if d.tools[i] !in tools {
          return Err(NoSuchTool);
        }
      }
      for i := 0 to |d.skills|
        invariant forall j :: 0 <= j < i ==> d.skills[j] in skills
      {
        if d.skills[i] !in skills {
          return Err(NoSuchSkill);
        }
      }
      var capped := d.(maxIterations := Min(d.maxIterations, cap));
      if !(0 < capped.maxIterations <= 100) || !Distinct(d.tools) || !Distinct(d.skills) {
        return Err(ConstraintViolated);
      }
      r := Ok(capped);
    }

    method CreateAgent(cap: int, slug: string, displayName: string, description: Option<string>, d: Definition)
      returns (r: Result<nat, RegistryError>)
      modifies this
      ensures match Create(cap, old(Tables()), slug, displayName, description, d)
              case Err(e) => r == Err(e) && Tables() == old(Tables())
              case Ok(t) => r == Ok(|old(agents)|) && Tables() == t
    {
      if !ValidSlug(slug) {
        return Err(InvalidSlug);
      }
      if SlugIn(agents, slug) {
        return Err(SlugTaken);
      }
      var checked := CheckDefinition(cap, d);
      if checked.Err? {
        return Err(checked.error);
      }
      versions := versions + [AgentVersion(|agents|, 1, checked.value)];
      agents := agents + [Agent(slug, displayName, description, true, 1)];
      r := Ok(|agents| - 1);
    }

    method UpdateAgent(cap: int, agent: nat, i: Identity, c: Change) returns (r: Result<nat, RegistryError>)
      modifies this
      ensures match Update(cap, old(Tables()), agent, i, c)
              case Err(e) => r == Err(e) && Tables() == old(Tables())
              case Ok(t) => Tables() == t && agent < |agents| && r == Ok(agents[agent].currentVersion)
    {
      if agent >= |agents| {
        return Err(NoSuchAgent);
      }
      var before := agents;
      agents := agents[agent := Renamed(agents[agent], i)];
      var now := Registry(tools, skills, agents, versions);
      var current := GetCurrent(now, agent);
      if current.None? {
        agents := before;
        return Err(NoCurrentVersion);
      }
      var number := NextVersion(now, agent);
      var checked := CheckDefinition(cap, Merge(c, current.value.definition));
      if checked.Err? {
        agents := before;
        return Err(checked.error);
      }
      versions := versions + [AgentVersion(agent, number, checked.value)];
      agents := agents[agent := agents[agent].(currentVersion := number)];
      r := Ok(number);
    }

    method RegisterTool(id: nat)
      modifies this
      ensures Tables() == Register(old(Tables()), ToolGrant(id))
    {
      tools := tools + {id};
    }

    method CreateSkill(id: nat)
      modifies this
      ensures Tables() == Register(old(Tables()), SkillGrant(id))
    {
      skills := skills + {id};
    }

    method DeleteTool(id: nat) returns (r: Result<(), RegistryError>)
      modifies this
      ensures match Delete(old(Tables()), ToolGrant(id))
              case Err(e) => r == Err(e) && Tables() == old(Tables())
              case Ok(t) => r == Ok(()) && Tables() == t
    {
      if id !in tools {
        return Err(NoSuchTool);
      }
      tools := tools - {id};
      versions := Cascade(versions, ToolGrant(id));
      r := Ok(());
    }

    method DeleteSkill(id: nat) returns (r: Result<(), RegistryError>)
      modifies this
      ensures match Delete(old(Tables()), SkillGrant(id))
              case Err(e) => r == Err(e) && Tables() == old(Tables())
              case Ok(t) => r == Ok(()) && Tables() == t
    {
      if id !in skills {
        return Err(NoSuchSkill);
      }
      skills := skills - {id};
      versions := Cascade(versions, SkillGrant(id));
      r := Ok(());
    }
  }

  // ---- histories --------------------------------------------------------------------------

  // Each request meets the platform's cap as it is then.
  datatype Step =
    | CreateStep(cap: int, slug: string, displayName: string, description: Option<string>, definition: Definition)
    | UpdateStep(cap: int, agent: nat, identity: Identity, change: Change)
    | RegisterStep(grant: Grant)
    | DeleteStep(grant: Grant)

  // What an accepted update supplied, the cap it met, and how many deletions came before it.
  datatype Publication = Publication(change: Change, cap: int, at: nat)

  // What an agent was created with, the cap that met and after how many deletions; and its updates.
  datatype Origin = Origin(definition: Definition, cap: int, at: nat)

  datatype Record = Record(origin: Origin, changes: seq<Publication>)

  // The tables, a record for each agent, and everything deleted so far, in order.
  datatype World = World(tables: Registry, records: seq<Record>, gone: seq<Grant>)

  function Apply(w: World, step: Step): World {
    match step
    case CreateStep(cap, slug, displayName, description, d) =>
      var r := Create(cap, w.tables, slug, displayName, description, d);
      if r.Err? then w else w.(tables := r.value, records := w.records + [Record(Origin(d, cap, |w.gone|), [])])
    case UpdateStep(cap, agent, identity, change) =>
      var r := Update(cap, w.tables, agent, identity, change);
      if r.Err? || agent >= |w.records| then w else
      var record := w.records[agent];
      var later := record.(changes := record.changes + [Publication(change, cap, |w.gone|)]);
      w.(tables := r.value, records := w.records[agent := later])
    case RegisterStep(g) => w.(tables := Register(w.tables, g))
    case DeleteStep(g) =>
      var r := Delete(w.tables, g);
      if r.Err? then w else w.(tables := r.value, gone := w.gone + [g])
  }

  function After(w: World, steps: seq<Step>): World
    decreases |steps|
  {
    if steps == [] then w else After(Apply(w, steps[0]), steps[1..])
  }

  const EMPTY := World(Registry({}, {}, [], []), [], [])

  // ---- what deletions take away -----------------------------------------------------------

  function ToolsIn(gone: seq<Grant>): set<nat> {
    set g | g in gone && g.ToolGrant? :: g.id
  }

  function SkillsIn(gone: seq<Grant>): set<nat> {
    set g | g in gone && g.SkillGrant? :: g.id
  }

  function Stripped(d: Definition, gone: seq<Grant>): Definition {
    d.(tools := Minus(d.tools, ToolsIn(gone)), skills := Minus(d.skills, SkillsIn(gone)))
  }

  lemma {:induction false} MinusTwice(ids: seq<nat>, a: set<nat>, b: set<nat>)
    ensures Minus(Minus(ids, a), b) == Minus(ids, a + b)
  {
    if ids != [] {
      MinusTwice(ids[1..], a, b);
      if ids[0] !in a {
        assert ([ids[0]] + Minus(ids[1..], a))[1..] == Minus(ids[1..], a);
      } else {
        assert Minus(ids, a) == Minus(ids[1..], a);
      }
    }
  }

  lemma {:induction false} MinusMembers(ids: seq<nat>, gone: set<nat>)
    ensures forall id :: id in Minus(ids, gone) <==> id in ids && id !in gone
    ensures |Minus(ids, gone)| <= |ids|
  {
    if ids != [] {
      MinusMembers(ids[1..], gone);
    }
  }

  // Nothing is taken away exactly when nothing that goes was there.
  lemma {:induction false} MinusNothing(ids: seq<nat>, gone: set<nat>)
    ensures Minus(ids, gone) == ids <==> forall id :: id in ids ==> id !in gone
  {
    if ids != [] {
      MinusNothing(ids[1..], gone);
      MinusMembers(ids[1..], gone);
      if ids[0] in gone {
        assert |Minus(ids, gone)| < |ids|;
      } else {
        assert Minus(ids, gone)[1..] == Minus(ids[1..], gone);
        assert forall id :: id in ids <==> id == ids[0] || id in ids[1..];
      }
    }
  }

  lemma {:induction false} MinusDistinct(ids: seq<nat>, gone: set<nat>)
    requires Distinct(ids)
    ensures Distinct(Minus(ids, gone))
  {
    if ids != [] {
      MinusDistinct(ids[1..], gone);
      MinusMembers(ids[1..], gone);
      assert ids[0] !in ids[1..];
    }
  }

  lemma StrippedOnce(d: Definition, gone: seq<Grant>, g: Grant)
    ensures Without(Stripped(d, gone), g) == Stripped(d, gone + [g])
    ensures Without(d, g) == Stripped(d, [g])
  {
    MinusTwice(d.tools, ToolsIn(gone), {g.id});
    MinusTwice(d.skills, SkillsIn(gone), {g.id});
    MinusNothing(d.tools, {});
    MinusNothing(d.skills, {});
    assert ToolsIn(gone + [g]) == if g.ToolGrant? then ToolsIn(gone) + {g.id} else ToolsIn(gone);
    assert SkillsIn(gone + [g]) == if g.SkillGrant? then SkillsIn(gone) + {g.id} else SkillsIn(gone);
    assert ToolsIn([g]) == if g.ToolGrant? then {g.id} else {};
    assert SkillsIn([g]) == if g.SkillGrant? then {g.id} else {};
  }

  lemma StrippedTwice(d: Definition, a: seq<Grant>, b: seq<Grant>)
    ensures Stripped(Stripped(d, a), b) == Stripped(d, a + b)
  {
    MinusTwice(d.tools, ToolsIn(a), ToolsIn(b));
    MinusTwice(d.skills, SkillsIn(a), SkillsIn(b));
    assert ToolsIn(a + b) == ToolsIn(a) + ToolsIn(b);
    assert SkillsIn(a + b) == SkillsIn(a) + SkillsIn(b);
  }

  lemma StrippedNothing(d: Definition)
    ensures Stripped(d, []) == d
  {
    MinusNothing(d.tools, {});
    MinusNothing(d.skills, {});
    assert ToolsIn([]) == {} && SkillsIn([]) == {};
  }

  // ---- what histories keep ----------------------------------------------------------------

  // The value supplied last, `x` if none was.
  function Latest<T>(x: T, changes: seq<Publication>, field: Change -> Option<T>): T {
    if changes == [] then x else
    var last := field(changes[|changes| - 1].change);
    if last.Some? then last.value else Latest(x, changes[..|changes| - 1], field)
  }

  function From(gone: seq<Grant>, at: nat): seq<Grant> {
    if at <= |gone| then gone[at..] else []
  }

  // What has been deleted since it was.
  function GoneSince<T>(at: nat, changes: seq<Publication>, field: Change -> Option<T>, gone: seq<Grant>): seq<Grant> {
    if changes == [] then From(gone, at) else
    var last := changes[|changes| - 1];
    if field(last.change).Some? then From(gone, last.at) else GoneSince(at, changes[..|changes| - 1], field, gone)
  }

  // The lowest cap met since the iterations were last supplied.
  function LowestCap(cap: int, changes: seq<Publication>): int {
    if changes == [] then cap else
    var last := changes[|changes| - 1];
    if IterationsOf(last.change).Some? then last.cap else Min(last.cap, LowestCap(cap, changes[..|changes| - 1]))
  }

  // A definition in which every field is the value supplied last for it: the grants less what has
  // been deleted since, the iterations under every cap they have met since.
  function LastSupplied(o: Origin, changes: seq<Publication>, gone: seq<Grant>): Definition {
    var d := o.definition;
    Definition(
      Latest(d.systemPrompt, changes, PromptOf),
      Latest(d.model, changes, ModelOf),
      Latest(d.temperature, changes, TemperatureOf),
      Min(Latest(d.maxIterations, changes, IterationsOf), LowestCap(o.cap, changes)),
      Minus(Latest(d.tools, changes, ToolsOf), ToolsIn(GoneSince(o.at, changes, ToolsOf, gone))),
      Minus(Latest(d.skills, changes, SkillsOf), SkillsIn(GoneSince(o.at, changes, SkillsOf, gone))),
      Latest(d.knowledgeBases, changes, KnowledgeOf),
      Latest(d.memoryEnabled, changes, MemoryOf))
  }

  // The platform's cap when version k + 1 was published.
  function CapAt(record: Record, k: nat): int
    requires k <= |record.changes|
  {
    if k == 0 then record.origin.cap else record.changes[k - 1].cap
  }

  // Version k + 1 of an agent is now what its first k updates supplied last.
  ghost predicate ExplainedAt(v: AgentVersion, number: nat, record: Record, k: nat, gone: seq<Grant>)
    requires k <= |record.changes|
  {
    && v.agentId == number
    && v.version == k + 1
    && v.definition == LastSupplied(record.origin, record.changes[..k], gone)
    && 0 < v.definition.maxIterations <= Min(CapAt(record, k), 100)
  }

  // The versions of an agent are numbered 1..n, the last is current, and each is explained.
  ghost predicate Explained(agent: Agent, number: nat, versions: seq<AgentVersion>, record: Record, gone: seq<Grant>) {
    && |versions| == agent.currentVersion == |record.changes| + 1
    && record.origin.at <= |gone|
    && (forall k :: 0 <= k < |record.changes| ==> record.changes[k].at <= |gone|)
    && forall k :: 0 <= k < |versions| ==> ExplainedAt(versions[k], number, record, k, gone)
  }

  // What a version grants exists, and is granted once.
  predicate Sound(d: Definition, tools: set<nat>, skills: set<nat>) {
    Exist(d.tools, tools) && Exist(d.skills, skills) && Distinct(d.tools) && Distinct(d.skills)
  }

  ghost predicate GrantsExist(r: Registry) {
    forall i :: 0 <= i < |r.versions| ==> Sound(r.versions[i].definition, r.tools, r.skills)
  }

  ghost predicate Inv(w: World) {
    && |w.records| == |w.tables.agents|
    && GrantsExist(w.tables)
    && (forall i :: 0 <= i < |w.tables.versions| ==> w.tables.versions[i].agentId < |w.tables.agents|)
    && forall a :: 0 <= a < |w.records| ==>
         Explained(w.tables.agents[a], a, VersionsOf(w.tables.versions, a), w.records[a], w.gone)
  }

  lemma VersionsOneMore(versions: seq<AgentVersion>, v: AgentVersion, agent: nat)
    ensures VersionsOf(versions + [v], agent) == VersionsOf(versions, agent) + (if v.agentId == agent then [v] else [])
  {
    assert (versions + [v])[..|versions|] == versions;
  }

  lemma {:induction false} NoVersionsYet(versions: seq<AgentVersion>, agent: nat)
    requires forall i :: 0 <= i < |versions| ==> versions[i].agentId != agent
    ensures VersionsOf(versions, agent) == []
  {
    if versions != [] {
      NoVersionsYet(versions[..|versions| - 1], agent);
    }
  }

  lemma {:induction false} VersionsCascade(versions: seq<AgentVersion>, g: Grant, agent: nat)
    ensures VersionsOf(Cascade(versions, g), agent) == Cascade(VersionsOf(versions, agent), g)
  {
    if versions != [] {
      var n := |versions| - 1;
      VersionsCascade(versions[..n], g, agent);
      var last := versions[n].(definition := Without(versions[n].definition, g));
      VersionsOneMore(Cascade(versions[..n], g), last, agent);
      var own := VersionsOf(versions[..n], agent);
      if versions[n].agentId == agent {
        assert (own + [versions[n]])[..|own|] == own;
      }
    }
  }

  lemma {:induction false} MaxOfNumbered(versions: seq<AgentVersion>)
    requires forall k :: 0 <= k < |versions| ==> versions[k].version == k + 1
    ensures MaxVersion(versions) == |versions|
  {
    if versions != [] {
      MaxOfNumbered(versions[..|versions| - 1]);
    }
  }

  lemma {:induction false} FindNumbered(versions: seq<AgentVersion>, from: nat, number: nat)
    requires forall k :: 0 <= k < |versions| ==> versions[k].version == from + k + 1
    requires from < number <= from + |versions|
    ensures WithNumber(versions, number) == Some(versions[number - from - 1])
  {
    if versions[0].version != number {
      FindNumbered(versions[1..], from + 1, number);
    }
  }

  // The current version of an agent, and the number of the next.
  lemma CurrentFound(r: Registry, a: nat, record: Record, gone: seq<Grant>)
    requires a < |r.agents| && Explained(r.agents[a], a, VersionsOf(r.versions, a), record, gone)
    ensures var versions := VersionsOf(r.versions, a);
            && versions != []
            && GetCurrent(r, a) == Some(versions[|versions| - 1])
            && NextVersion(r, a) == |versions| + 1
  {
    var versions := VersionsOf(r.versions, a);
    FindNumbered(versions, 0, |versions|);
    MaxOfNumbered(versions);
  }

  // Publishing merges into the last version, so the last value supplied is what it always was.
  lemma MergeIsLatest(o: Origin, changes: seq<Publication>, c: Change, cap: int, gone: seq<Grant>)
    ensures var d := Merge(c, LastSupplied(o, changes, gone));
            d.(maxIterations := Min(d.maxIterations, cap))
            == LastSupplied(o, changes + [Publication(c, cap, |gone|)], gone)
  {
    var all := changes + [Publication(c, cap, |gone|)];
    assert all[..|changes|] == changes && all[|all| - 1] == Publication(c, cap, |gone|);
    assert gone[|gone|..] == [] && ToolsIn([]) == {} && SkillsIn([]) == {};
    if c.tools.Some? {
      MinusNothing(c.tools.value, {});
    }
    if c.skills.Some? {
      MinusNothing(c.skills.value, {});
    }
  }

  lemma {:induction false} GoneOneMore<T>(at: nat, changes: seq<Publication>, field: Change -> Option<T>,
                                          gone: seq<Grant>, g: Grant)
    requires at <= |gone| && forall k :: 0 <= k < |changes| ==> changes[k].at <= |gone|
    ensures GoneSince(at, changes, field, gone + [g]) == GoneSince(at, changes, field, gone) + [g]
  {
    if changes != [] {
      GoneOneMore(at, changes[..|changes| - 1], field, gone, g);
    }
  }

  // A deletion takes from a version exactly what it takes from the values supplied for it.
  lemma DeletionIsLatest(o: Origin, changes: seq<Publication>, gone: seq<Grant>, g: Grant)
    requires o.at <= |gone| && forall k :: 0 <= k < |changes| ==> changes[k].at <= |gone|
    ensures LastSupplied(o, changes, gone + [g]) == Without(LastSupplied(o, changes, gone), g)
  {
    var tools, skills := Latest(o.definition.tools, changes, ToolsOf), Latest(o.definition.skills, changes, SkillsOf);
    var t, k := GoneSince(o.at, changes, ToolsOf, gone), GoneSince(o.at, changes, SkillsOf, gone);
    GoneOneMore(o.at, changes, ToolsOf, gone, g);
    GoneOneMore(o.at, changes, SkillsOf, gone, g);
    StrippedOnce(o.definition.(tools := tools), t, g);
    StrippedOnce(o.definition.(skills := skills), k, g);
  }

  lemma CreatedExplained(cap: int, d: Definition, number: nat, gone: seq<Grant>)
    ensures LastSupplied(Origin(d, cap, |gone|), [], gone) == d.(maxIterations := Min(d.maxIterations, cap))
  {
    assert ToolsIn([]) == {} && SkillsIn([]) == {};
    MinusNothing(d.tools, {});
    MinusNothing(d.skills, {});
  }

  lemma CreateInv(w: World, step: Step)
    requires Inv(w) && step.CreateStep?
    ensures Inv(Apply(w, step))
  {
    hide ValidSlug, SlugIn;
    var q := Apply(w, step);
    if Create(step.cap, w.tables, step.slug, step.displayName, step.description, step.definition).Ok? {
      var id := |w.tables.agents|;
      var v := q.tables.versions[|w.tables.versions|];
      assert q.tables.versions == w.tables.versions + [v];
      NoVersionsYet(w.tables.versions, id);
      CreatedExplained(step.cap, step.definition, id, w.gone);
      hide LastSupplied, Check;
      forall a | 0 <= a < |q.records|
        ensures Explained(q.tables.agents[a], a, VersionsOf(q.tables.versions, a), q.records[a], q.gone)
      {
        VersionsOneMore(w.tables.versions, v, a);
        if a < id {
          assert Explained(w.tables.agents[a], a, VersionsOf(w.tables.versions, a), w.records[a], w.gone);
        }
      }
    }
  }

  lemma Checked(r: Registry, cap: int, m: Definition, d: Definition)
    requires Check(r, cap, m) == Ok(d)
    ensures d == m.(maxIterations := Min(m.maxIterations, cap))
    ensures 0 < d.maxIterations <= Min(cap, 100) && Sound(d, r.tools, r.skills)
  {
  }

  lemma OlderStaysExplained(v: AgentVersion, number: nat, record: Record, k: nat, gone: seq<Grant>, p: Publication)
    requires k <= |record.changes| && ExplainedAt(v, number, record, k, gone)
    ensures ExplainedAt(v, number, record.(changes := record.changes + [p]), k, gone)
  {
    hide LastSupplied;
    assert (record.changes + [p])[..k] == record.changes[..k];
  }

  lemma NewestIsExplained(cap: int, v: AgentVersion, number: nat, record: Record, c: Change, d: Definition,
                          gone: seq<Grant>)
    requires ExplainedAt(v, number, record, |record.changes|, gone)
    requires var m := Merge(c, v.definition);
             d == m.(maxIterations := Min(m.maxIterations, cap)) && 0 < d.maxIterations <= Min(cap, 100)
    ensures var n := |record.changes| + 1;
            var later := record.(changes := record.changes + [Publication(c, cap, |gone|)]);
            ExplainedAt(AgentVersion(number, n + 1, d), number, later, n, gone)
  {
    var all := record.changes + [Publication(c, cap, |gone|)];
    MergeIsLatest(record.origin, record.changes, c, cap, gone);
    hide LastSupplied, Merge;
    assert record.changes[..|record.changes|] == record.changes && all[..|all|] == all;
  }

  // One accepted update of agent a.
  lemma PublishExplained(cap: int, agent: Agent, number: nat, versions: seq<AgentVersion>, record: Record, c: Change,
                         d: Definition, gone: seq<Grant>)
    requires Explained(agent, number, versions, record, gone)
    requires var m := Merge(c, versions[|versions| - 1].definition);
             d == m.(maxIterations := Min(m.maxIterations, cap)) && 0 < d.maxIterations <= Min(cap, 100)
    ensures var later := record.(changes := record.changes + [Publication(c, cap, |gone|)]);
            Explained(agent.(currentVersion := |versions| + 1), number,
                      versions + [AgentVersion(number, |versions| + 1, d)], later, gone)
  {
    hide ExplainedAt, Merge;
    var p, n := Publication(c, cap, |gone|), |versions|;
    NewestIsExplained(cap, versions[n - 1], number, record, c, d, gone);
    forall k | 0 <= k < n
      ensures ExplainedAt(versions[k], number, record.(changes := record.changes + [p]), k, gone)
    {
      OlderStaysExplained(versions[k], number, record, k, gone, p);
    }
  }

  lemma UpdateInv(w: World, step: Step)
    requires Inv(w) && step.UpdateStep?
    ensures Inv(Apply(w, step))
  {
    hide LastSupplied, Merge, ValidSlug;
    var cap, a, c := step.cap, step.agent, step.change;
    if a < |w.records| && Update(cap, w.tables, a, step.identity, c).Ok? {
      var q := Apply(w, step);
      var versions := VersionsOf(w.tables.versions, a);
      var renamed := Renamed(w.tables.agents[a], step.identity);
      var r := w.tables.(agents := w.tables.agents[a := renamed]);
      assert Explained(renamed, a, versions, w.records[a], w.gone);
      CurrentFound(r, a, w.records[a], w.gone);
      var v := q.tables.versions[|w.tables.versions|];
      assert q.tables.versions == w.tables.versions + [v];
      assert v.agentId == a && v.version == |versions| + 1;
      assert q.tables.agents == w.tables.agents[a := renamed.(currentVersion := |versions| + 1)];
      Checked(r, cap, Merge(c, versions[|versions| - 1].definition), v.definition);
      PublishExplained(cap, renamed, a, versions, w.records[a], c, v.definition, w.gone);
      forall b | 0 <= b < |q.records|
        ensures Explained(q.tables.agents[b], b, VersionsOf(q.tables.versions, b), q.records[b], q.gone)
      {
        VersionsOneMore(w.tables.versions, v, b);
        if b != a {
          assert Explained(w.tables.agents[b], b, VersionsOf(w.tables.versions, b), w.records[b], w.gone);
        }
      }
    }
  }

  lemma SoundWithout(d: Definition, g: Grant, tools: set<nat>, skills: set<nat>)
    requires Sound(d, tools, skills)
    ensures Sound(Without(d, g), if g.ToolGrant? then tools - {g.id} else tools,
                  if g.SkillGrant? then skills - {g.id} else skills)
  {
    MinusMembers(d.tools, {g.id});
    MinusMembers(d.skills, {g.id});
    MinusDistinct(d.tools, {g.id});
    MinusDistinct(d.skills, {g.id});
    var t, k := Minus(d.tools, {g.id}), Minus(d.skills, {g.id});
    assert forall i :: 0 <= i < |t| ==> t[i] in t;
    assert forall i :: 0 <= i < |k| ==> k[i] in k;
  }

  lemma DeleteExplained(agent: Agent, number: nat, versions: seq<AgentVersion>, record: Record, gone: seq<Grant>,
                        g: Grant)
    requires Explained(agent, number, versions, record, gone)
    ensures Explained(agent, number, Cascade(versions, g), record, gone + [g])
  {
    var out := Cascade(versions, g);
    forall k | 0 <= k < |out|
      ensures out[k].definition == LastSupplied(record.origin, record.changes[..k], gone + [g])
      ensures out[k].definition.maxIterations == versions[k].definition.maxIterations
    {
      DeletionIsLatest(record.origin, record.changes[..k], gone, g);
    }
  }

  lemma DeleteInv(w: World, step: Step)
    requires Inv(w) && step.DeleteStep?
    ensures Inv(Apply(w, step))
  {
    var g, q := step.grant, Apply(w, step);
    if Delete(w.tables, g).Ok? {
      hide LastSupplied, Without, VersionsOf;
      forall i | 0 <= i < |q.tables.versions|
        ensures Sound(q.tables.versions[i].definition, q.tables.tools, q.tables.skills)
      {
        SoundWithout(w.tables.versions[i].definition, g, w.tables.tools, w.tables.skills);
      }
      forall a | 0 <= a < |q.records|
        ensures Explained(q.tables.agents[a], a, VersionsOf(q.tables.versions, a), q.records[a], q.gone)
      {
        VersionsCascade(w.tables.versions, g, a);
        DeleteExplained(w.tables.agents[a], a, VersionsOf(w.tables.versions, a), w.records[a], w.gone, g);
      }
    }
  }

  lemma StepInv(w: World, step: Step)
    requires Inv(w)
    ensures Inv(Apply(w, step))
  {
    match step
    case CreateStep(_, _, _, _, _) => CreateInv(w, step);
    case UpdateStep(_, _, _, _) => UpdateInv(w, step);
    case RegisterStep(_) =>
    case DeleteStep(_) => DeleteInv(w, step);
  }

  lemma {:induction false} HistoryInv(w: World, steps: seq<Step>)
    requires Inv(w)
    ensures Inv(After(w, steps))
    decreases |steps|
  {
    if steps != [] {
      StepInv(w, steps[0]);
      HistoryInv(Apply(w, steps[0]), steps[1..]);
    }
  }

  // ---- what each request writes, and when it is refused -----------------------------------

  predicate SlugEnd(c: char) {
    ('a' <= c && c <= 'z') || ('0' <= c && c <= '9')
  }

  predicate SlugParts(s: string, first: char, middle: string, last: char, end: string) {
    && s == [first] + middle + [last] + end
    && SlugEnd(first) && SlugEnd(last) && (end == "" || end == "\n")
    && 1 <= |middle| <= 62 && forall k :: 0 <= k < |middle| ==> SlugEnd(middle[k]) || middle[k] == '-'
  }

  // The pattern: a letter or digit, 1 to 62 of those or hyphens, a letter or digit, and the end of
  // the text or a final newline.
  ghost predicate SlugShape(s: string) {
    exists first: char, middle: string, last: char, end: string :: SlugParts(s, first, middle, last, end)
  }

  lemma PartsAreValid(s: string, first: char, middle: string, last: char, end: string)
    requires SlugParts(s, first, middle, last, end)
    ensures ValidSlug(s)
  {
    var t := [first] + middle + [last];
    if end == "" {
      assert s == t && s[|s| - 1] == last;
    } else {
      assert s[..|s| - 1] == t && s[|s| - 1] == '\n';
    }
    forall i | 0 <= i < |t|
      ensures Alphanumeric(t[i]) || t[i] == '-'
    {
      if 0 < i < |t| - 1 {
        assert t[i] == middle[i - 1];
      }
    }
  }

  lemma ValidSlugMatchesPattern(s: string)
    ensures ValidSlug(s) <==> SlugShape(s)
  {
    if ValidSlug(s) {
      var end := if s[|s| - 1] == '\n' then "\n" else "";
      var t := BeforeNewline(s);
      assert s == t + end;
      assert t == [t[0]] + t[1..|t| - 1] + [t[|t| - 1]];
      var middle := t[1..|t| - 1];
      assert forall k :: 0 <= k < |middle| ==> middle[k] == t[k + 1];
      assert s == [t[0]] + middle + [t[|t| - 1]] + end;
      assert SlugParts(s, t[0], middle, t[|t| - 1], end);
    }
    if first: char, middle: string, last: char, end: string :| SlugParts(s, first, middle, last, end) {
      PartsAreValid(s, first, middle, last, end);
    }
  }

  predicate AllIn(ids: seq<nat>, known: set<nat>) {
    forall id :: id in ids ==> id in known
  }

  predicate Once(ids: seq<nat>) {
    forall i, j :: 0 <= i < |ids| && 0 <= j < |ids| && ids[i] == ids[j] ==> i == j
  }

  lemma CheckRefusesExactlyWhen(r: Registry, cap: int, d: Definition)
    ensures var checked := Check(r, cap, d);
            var tools, skills := AllIn(d.tools, r.tools), AllIn(d.skills, r.skills);
            var iterations := if d.maxIterations < cap then d.maxIterations else cap;
            var sound := 0 < iterations <= 100 && Once(d.tools) && Once(d.skills);
            && (checked == Err(NoSuchTool) <==> !tools)
            && (checked == Err(NoSuchSkill) <==> tools && !skills)
            && (checked == Err(ConstraintViolated) <==> tools && skills && !sound)
            && (checked.Ok? <==> tools && skills && sound)
            && (checked.Ok? ==> checked.value == d.(maxIterations := iterations))
  {
    assert Distinct(d.tools) <==> Once(d.tools);
    assert Distinct(d.skills) <==> Once(d.skills);
  }

  // Creating an agent is refused for its slug, then for what it grants, then for its numbers, and in
  // no other case; else one agent and its first version are added, and nothing else changes.
  lemma CreateRefusedExactlyWhen(cap: int, r: Registry, slug: string, name: string, description: Option<string>,
                                 d: Definition)
    ensures var q := Create(cap, r, slug, name, description, d);
            var taken := exists i :: 0 <= i < |r.agents| && r.agents[i].slug == slug;
            var checked := Check(r, cap, d);
            && (q == Err(InvalidSlug) <==> !SlugShape(slug))
            && (q == Err(SlugTaken) <==> SlugShape(slug) && taken)
            && (SlugShape(slug) && !taken && checked.Err? ==> q == Err(checked.error))
            && (q.Ok? <==> SlugShape(slug) && !taken && checked.Ok?)
            && (q.Ok? ==>
                  && q.value.tools == r.tools && q.value.skills == r.skills
                  && q.value.agents == r.agents + [Agent(slug, name, description, true, 1)]
                  && q.value.versions == r.versions + [AgentVersion(|r.agents|, 1, checked.value)])
  {
    ValidSlugMatchesPattern(slug);
    hide ValidSlug, SlugShape;
    CheckRefusesExactlyWhen(r, cap, d);
    hide Check;
  }

  // An update changes one agent's identity fields, those that are supplied, and moves it to a new
  // version of its own; its slug, and everything else, stays.
  lemma UpdateWrites(cap: int, r: Registry, agent: nat, i: Identity, c: Change)
    ensures var u := Update(cap, r, agent, i, c);
            && (u == Err(NoSuchAgent) <==> agent >= |r.agents|)
            && (u.Ok? ==>
                  var q, a, b := u.value, r.agents[agent], u.value.agents[agent];
                  && q.tools == r.tools && q.skills == r.skills
                  && |q.agents| == |r.agents|
                  && (forall k :: 0 <= k < |r.agents| && k != agent ==> q.agents[k] == r.agents[k])
                  && b.slug == a.slug && b.currentVersion == NextVersion(r, agent)
                  && b.displayName == (if i.displayName.Some? then i.displayName.value else a.displayName)
                  && b.description == (if i.description.Some? then i.description else a.description)
                  && b.enabled == (if i.enabled.Some? then i.enabled.value else a.enabled)
                  && |q.versions| == |r.versions| + 1 && q.versions[..|r.versions|] == r.versions
                  && q.versions[|r.versions|].agentId == agent
                  && q.versions[|r.versions|].version == NextVersion(r, agent))
  {
    hide Merge, Exist, Distinct;
  }

  // Registering and deleting: one id of one kind, and for a deletion the grants of it.
  lemma GrantStepsWrite(r: Registry, g: Grant)
    ensures Register(r, g).agents == r.agents && Register(r, g).versions == r.versions
    ensures Register(r, g).tools == r.tools + (if g.ToolGrant? then {g.id} else {})
    ensures Register(r, g).skills == r.skills + (if g.SkillGrant? then {g.id} else {})
    ensures var q := Delete(r, g);
            && (q == Err(NoSuchTool) <==> g.ToolGrant? && g.id !in r.tools)
            && (q == Err(NoSuchSkill) <==> g.SkillGrant? && g.id !in r.skills)
            && (q.Ok? <==> (g.ToolGrant? && g.id in r.tools) || (g.SkillGrant? && g.id in r.skills))
            && (q.Ok? ==>
                  && q.value.agents == r.agents
                  && q.value.tools == r.tools - (if g.ToolGrant? then {g.id} else {})
                  && q.value.skills == r.skills - (if g.SkillGrant? then {g.id} else {}))
  {
  }

  ghost predicate SlugsUnique(agents: seq<Agent>) {
    && (forall i :: 0 <= i < |agents| ==> SlugShape(agents[i].slug))
    && forall i, j :: 0 <= i < j < |agents| ==> agents[i].slug != agents[j].slug
  }

  lemma StepKeepsSlugs(w: World, step: Step)
    requires SlugsUnique(w.tables.agents)
    ensures var q := Apply(w, step).tables.agents;
            SlugsUnique(q) && |w.tables.agents| <= |q|
            && forall i :: 0 <= i < |w.tables.agents| ==> q[i].slug == w.tables.agents[i].slug
  {
    hide SlugShape;
    match step
    case CreateStep(cap, slug, name, description, d) =>
      CreateRefusedExactlyWhen(cap, w.tables, slug, name, description, d);
    case UpdateStep(cap, agent, i, c) => UpdateWrites(cap, w.tables, agent, i, c);
    case RegisterStep(g) => GrantStepsWrite(w.tables, g);
    case DeleteStep(g) => GrantStepsWrite(w.tables, g);
  }

  // Over any history, slugs match the pattern, no two agents share one, and an agent keeps its own.
  lemma {:induction false} SlugsStayUnique(w: World, steps: seq<Step>)
    requires SlugsUnique(w.tables.agents)
    ensures var q := After(w, steps).tables.agents;
            SlugsUnique(q) && |w.tables.agents| <= |q|
            && forall i :: 0 <= i < |w.tables.agents| ==> q[i].slug == w.tables.agents[i].slug
    decreases |steps|
  {
    if steps != [] {
      StepKeepsSlugs(w, steps[0]);
      hide SlugsUnique, Apply;
      SlugsStayUnique(Apply(w, steps[0]), steps[1..]);
    }
  }

  // ---- the theorems -----------------------------------------------------------------------

  // Over any sequence of creates, updates, registrations and deletions: every agent's versions are
  // exactly 1..n, the current one is n, each field of each version is the last value supplied for it
  // up to then, but for grants deleted since, and the platform's cap is never exceeded.
  lemma VersionsExplainThemselves(steps: seq<Step>, agent: nat)
    requires agent < |After(EMPTY, steps).tables.agents|
    ensures var w := After(EMPTY, steps);
            && agent < |w.records|
            && Explained(w.tables.agents[agent], agent, VersionsOf(w.tables.versions, agent), w.records[agent], w.gone)
  {
    HistoryInv(EMPTY, steps);
  }

  // Every agent always has a current version, and it is the newest one.
  lemma CurrentIsNewest(steps: seq<Step>, agent: nat)
    requires agent < |After(EMPTY, steps).tables.agents|
    ensures var t := After(EMPTY, steps).tables;
            var versions := VersionsOf(t.versions, agent);
            && versions != []
            && GetCurrent(t, agent) == Some(versions[|versions| - 1])
            && NextVersion(t, agent) == |versions| + 1
  {
    VersionsExplainThemselves(steps, agent);
    var w := After(EMPTY, steps);
    CurrentFound(w.tables, agent, w.records[agent], w.gone);
  }

  lemma {:induction false} OwnVersionsAreRows(versions: seq<AgentVersion>, agent: nat, k: nat)
    requires k < |VersionsOf(versions, agent)|
    ensures exists i :: 0 <= i < |versions| && versions[i] == VersionsOf(versions, agent)[k]
  {
    var before := VersionsOf(versions[..|versions| - 1], agent);
    if k < |before| {
      OwnVersionsAreRows(versions[..|versions| - 1], agent, k);
    }
  }

  // An update that leaves the grants alone is never refused for them, whatever has been deleted: it
  // is refused exactly when the iterations would not be between 1 and 100.
  lemma InheritingIsRefusedOnlyForIterations(steps: seq<Step>, cap: int, agent: nat, i: Identity, c: Change)
    requires agent < |After(EMPTY, steps).tables.agents| && c.tools.None? && c.skills.None?
    ensures var t := After(EMPTY, steps).tables;
            && GetCurrent(t, agent).Some?
            && var iterations := Supplied(IterationsOf(c), GetCurrent(t, agent).value.definition.maxIterations);
               Update(cap, t, agent, i, c).Ok? <==> 0 < iterations && 0 < cap && (iterations <= 100 || cap <= 100)
  {
    HistoryInv(EMPTY, steps);
    var w := After(EMPTY, steps);
    var t, versions := w.tables, VersionsOf(w.tables.versions, agent);
    CurrentFound(t, agent, w.records[agent], w.gone);
    var renamed := Renamed(t.agents[agent], i);
    var r := t.(agents := t.agents[agent := renamed]);
    assert Explained(renamed, agent, versions, w.records[agent], w.gone);
    CurrentFound(r, agent, w.records[agent], w.gone);
    OwnVersionsAreRows(t.versions, agent, |versions| - 1);
    hide Explained;
    assert Sound(versions[|versions| - 1].definition, t.tools, t.skills);
  }

  // What a row of agent_versions is later: as it was, but for grants deleted in between.
  ghost predicate Kept(w: World, q: World) {
    && |w.tables.versions| <= |q.tables.versions|
    && w.gone <= q.gone
    && forall i :: 0 <= i < |w.tables.versions| ==>
         var v := w.tables.versions[i];
         q.tables.versions[i] == v.(definition := Stripped(v.definition, q.gone[|w.gone|..]))
  }

  lemma StepKept(w: World, step: Step)
    ensures Kept(w, Apply(w, step))
  {
    var q := Apply(w, step);
    forall i | 0 <= i < |w.tables.versions|
      ensures var v := w.tables.versions[i];
              q.tables.versions[i] == v.(definition := Stripped(v.definition, q.gone[|w.gone|..]))
    {
      var v := w.tables.versions[i];
      StrippedNothing(v.definition);
      if q.gone != w.gone {
        StrippedOnce(v.definition, [], step.grant);
        assert q.gone[|w.gone|..] == [step.grant];
      } else {
        assert q.gone[|w.gone|..] == [];
      }
    }
  }

  lemma KeptTwice(a: World, b: World, c: World)
    requires Kept(a, b) && Kept(b, c)
    ensures Kept(a, c)
  {
    var first, second := b.gone[|a.gone|..], c.gone[|b.gone|..];
    assert c.gone[|a.gone|..] == first + second;
    hide Stripped;
    forall i | 0 <= i < |a.tables.versions|
      ensures var v := a.tables.versions[i];
              c.tables.versions[i] == v.(definition := Stripped(v.definition, first + second))
    {
      StrippedTwice(a.tables.versions[i].definition, first, second);
    }
  }

  lemma {:induction false} HistoryKept(w: World, steps: seq<Step>)
    ensures Kept(w, After(w, steps))
    decreases |steps|
  {
    if steps == [] {
      assert w.gone[|w.gone|..] == [];
      forall i | 0 <= i < |w.tables.versions|
        ensures Stripped(w.tables.versions[i].definition, []) == w.tables.versions[i].definition
      {
        StrippedNothing(w.tables.versions[i].definition);
      }
    } else {
      StepKept(w, steps[0]);
      HistoryKept(Apply(w, steps[0]), steps[1..]);
      KeptTwice(w, Apply(w, steps[0]), After(w, steps));
    }
  }

  lemma GoneMembers(gone: seq<Grant>)
    ensures forall id :: id in ToolsIn(gone) <==> ToolGrant(id) in gone
    ensures forall id :: id in SkillsIn(gone) <==> SkillGrant(id) in gone
  {
    forall id | ToolGrant(id) in gone
      ensures id in ToolsIn(gone)
    {
      assert ToolGrant(id).id == id;
    }
    forall id | SkillGrant(id) in gone
      ensures id in SkillsIn(gone)
    {
      assert SkillGrant(id).id == id;
    }
  }

  // A published version stays as it is if and only if nothing it grants is deleted; and whatever is
  // deleted, all it loses are the grants of that.
  lemma VersionChangesExactlyWhenAGrantIsDeleted(w: World, steps: seq<Step>, i: nat)
    requires i < |w.tables.versions|
    ensures var q := After(w, steps);
            && i < |q.tables.versions| && w.gone <= q.gone
            && var d, e := w.tables.versions[i].definition, q.tables.versions[i].definition;
               var gone := q.gone[|w.gone|..];
               && q.tables.versions[i] == w.tables.versions[i].(definition := e)
               && e == d.(tools := e.tools, skills := e.skills)
               && (forall id :: id in e.tools <==> id in d.tools && ToolGrant(id) !in gone)
               && (forall id :: id in e.skills <==> id in d.skills && SkillGrant(id) !in gone)
               && (q.tables.versions[i] == w.tables.versions[i] <==>
                     && (forall id :: id in d.tools ==> ToolGrant(id) !in gone)
                     && (forall id :: id in d.skills ==> SkillGrant(id) !in gone))
  {
    HistoryKept(w, steps);
    var q := After(w, steps);
    var d, gone := w.tables.versions[i].definition, q.gone[|w.gone|..];
    MinusMembers(d.tools, ToolsIn(gone));
    MinusMembers(d.skills, SkillsIn(gone));
    MinusNothing(d.tools, ToolsIn(gone));
    MinusNothing(d.skills, SkillsIn(gone));
    GoneMembers(gone);
  }

  // An agent created with one skill, in a platform that has only that.
  ghost predicate OneSkill(w: World, d: Definition) {
    && w.tables.tools == {} && w.tables.skills == {9} && |w.tables.agents| == 1
    && w.tables.versions == [AgentVersion(0, 1, d)]
    && Inv(w)
  }

  lemma CreatedWithSkill(d: Definition)
    requires d.tools == [] && d.skills == [9] && 0 < d.maxIterations <= 25
    ensures OneSkill(After(EMPTY, [RegisterStep(SkillGrant(9)), CreateStep(25, "abc", "", None, d)]), d)
  {
    var first, second := RegisterStep(SkillGrant(9)), CreateStep(25, "abc", "", None, d);
    HistoryInv(EMPTY, [first, second]);
    var w := Apply(EMPTY, first);
    assert [first, second][1..] == [second] && [second][1..] == [];
    assert forall k :: 0 <= k < 3 ==> Alphanumeric("abc"[k]);
    hide Inv;
    assert After(EMPTY, [first, second]) == After(w, [second]) == After(Apply(w, second), []) == Apply(w, second);
  }

  lemma SkillDeleted(w: World, d: Definition)
    requires OneSkill(w, d) && d.tools == [] && d.skills == [9]
    ensures var q := Apply(w, DeleteStep(SkillGrant(9)));
            Inv(q) && |q.tables.agents| == 1 && q.tables.versions == [AgentVersion(0, 1, d.(skills := []))]
  {
    StepInv(w, DeleteStep(SkillGrant(9)));
    assert Minus([9], {9}) == Minus([9][1..], {9}) == [];
    hide Inv;
  }

  lemma LostSkillUpdates(w: World, c: Change, q: World)
    requires Inv(w) && c.tools.None? && c.skills.None? && c.maxIterations.None?
    requires |w.tables.agents| == 1 && |w.tables.versions| == 1
    requires var d := w.tables.versions[0].definition; d.tools == [] && d.skills == [] && 0 < d.maxIterations <= 25
    requires q == Apply(w, UpdateStep(25, 0, Identity(None, None, None), c))
    ensures |q.tables.versions| == 2
    ensures q.tables.versions[0] == w.tables.versions[0] && q.tables.versions[1].definition.skills == []
  {
    var t := w.tables;
    var r := t.(agents := t.agents[0 := Renamed(t.agents[0], Identity(None, None, None))]);
    var versions := VersionsOf(t.versions, 0);
    assert Explained(t.agents[0], 0, versions, w.records[0], w.gone);
    assert Explained(r.agents[0], 0, versions, w.records[0], w.gone);
    CurrentFound(r, 0, w.records[0], w.gone);
    OwnVersionsAreRows(t.versions, 0, |versions| - 1);
    assert versions[|versions| - 1] == t.versions[0];
  }

  // For instance: an agent granted a skill that is deleted, and then updated. Both its versions are
  // left without the skill, the one that was published with it included.
  lemma DeletionReachesPublishedVersions(d: Definition, c: Change)
    requires d.tools == [] && d.skills == [9] && 0 < d.maxIterations <= 25
    requires c.tools.None? && c.skills.None? && c.maxIterations.None?
    ensures var created := After(EMPTY, [RegisterStep(SkillGrant(9)), CreateStep(25, "abc", "", None, d)]);
            var q := After(created, [DeleteStep(SkillGrant(9)), UpdateStep(25, 0, Identity(None, None, None), c)]);
            && |created.tables.versions| == 1 && created.tables.versions[0].definition == d
            && |q.tables.versions| == 2
            && q.tables.versions[0].definition == d.(skills := [])
            && q.tables.versions[1].definition.skills == []
  {
    var created := After(EMPTY, [RegisterStep(SkillGrant(9)), CreateStep(25, "abc", "", None, d)]);
    CreatedWithSkill(d);
    SkillDeleted(created, d);
    hide Apply, Inv;
    var third, fourth := DeleteStep(SkillGrant(9)), UpdateStep(25, 0, Identity(None, None, None), c);
    var struck := Apply(created, third);
    var q := Apply(struck, fourth);
    assert [third, fourth][1..] == [fourth] && [fourth][1..] == [];
    assert After(created, [third, fourth]) == After(struck, [fourth]) == After(q, []) == q;
    LostSkillUpdates(struck, c, q);
  }
}
