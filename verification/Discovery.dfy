// MCP discovery as reconciliation of one server's offer with a shared tool catalogue
// (services/agent_registry.py `McpRegistryService.discover`).
module Discovery {
  import opened Outcome
  import opened AgentSpecs
  import opened Text

  // A row of the tools table. Names are unique across the whole table.
  datatype CatalogueTool = CatalogueTool(
    name: string,
    displayName: string,
    description: string,
    schema: Dict,
    requiredPermission: string,
    riskLevel: RiskLevel,
    endpoint: string,
    remoteName: string,
    serverId: Option<nat>,
    enabled: bool,
    discoveredAt: Option<int>)

  datatype Server = Server(id: nat, name: string, endpoint: string)

  // One entry of tools/list, "" and {} standing for a missing or empty field.
  datatype Offered = Offered(name: string, description: string, schema: Dict)

  datatype DiscoveryResult = DiscoveryResult(found: nat, created: nat, updated: nat, taken: nat) | Unreachable

  const DISCOVERED_RISK_LEVEL := HIGH

  function LocalName(server: Server, entry: Offered): string {
    server.name + "." + Strip(entry.name)
  }

  predicate Named(entry: Offered) {
    Strip(entry.name) != ""
  }

  // ---- one entry --------------------------------------------------------------------------

  // The loop's state: the table with the rows added but not flushed, and the dictionary of this
  // server's rows.
  datatype Progress = Progress(tools: seq<CatalogueTool>, existing: map<string, nat>, created: nat, updated: nat,
                               taken: nat)

  predicate NameIn(tools: seq<CatalogueTool>, name: string) {
    exists i :: 0 <= i < |tools| && tools[i].name == name
  }

  function OrElse(s: string, default: string): string {
    if s != "" then s else default
  }

  function Discovered(server: Server, entry: Offered, now: int): CatalogueTool {
    var remote := Strip(entry.name);
    CatalogueTool(LocalName(server, entry), remote, OrElse(entry.description, remote), entry.schema, "tool.execute",
                  DISCOVERED_RISK_LEVEL, server.endpoint, remote, Some(server.id), false, Some(now))
  }

  function DictOrElse(d: Dict, default: Dict): Dict {
    if d != map[] then d else default
  }

  function Refreshed(tool: CatalogueTool, server: Server, entry: Offered, now: int): (refreshed: CatalogueTool)
    ensures refreshed.name == tool.name
  {
    tool.(description := OrElse(entry.description, tool.description),
          schema := DictOrElse(entry.schema, tool.schema),
          endpoint := server.endpoint,
          discoveredAt := Some(now))
  }

  predicate InRange(p: Progress) {
    forall n :: n in p.existing ==> p.existing[n] < |p.tools|
  }

  // `flushed` is how many rows `get_by_name` can see: those that were there before the loop.
  function Visit(server: Server, flushed: nat, p: Progress, entry: Offered, now: int): Progress
    requires flushed <= |p.tools| && InRange(p)
  {
    var name := LocalName(server, entry);
    if !Named(entry) then p
    else if name !in p.existing && NameIn(p.tools[..flushed], name) then p.(taken := p.taken + 1)
    else if name !in p.existing then
      p.(tools := p.tools + [Discovered(server, entry, now)],
         existing := p.existing[name := |p.tools|],
         created := p.created + 1)
    else
      var i := p.existing[name];
      p.(tools := p.tools[i := Refreshed(p.tools[i], server, entry, now)], updated := p.updated + 1)
  }

  function VisitAll(server: Server, flushed: nat, p: Progress, offered: seq<Offered>, now: int): (q: Progress)
    requires flushed <= |p.tools| && InRange(p)
    ensures InRange(q) && |p.tools| <= |q.tools|
    decreases |offered|
  {
    if offered == [] then p
    else VisitAll(server, flushed, Visit(server, flushed, p, offered[0], now), offered[1..], now)
  }

  // {t.name: t for t in list_for_server(server.id)}, rows as positions.
  function OwnRows(tools: seq<CatalogueTool>, id: nat, n: nat): (own: map<string, nat>)
    requires n <= |tools|
    ensures forall name :: name in own ==>
              own[name] < n && tools[own[name]].name == name && tools[own[name]].serverId == Some(id)
    ensures forall i :: 0 <= i < n && tools[i].serverId == Some(id) ==> tools[i].name in own
  {
    if n == 0 then map[]
    else if tools[n - 1].serverId == Some(id) then OwnRows(tools, id, n - 1)[tools[n - 1].name := n - 1]
    else OwnRows(tools, id, n - 1)
  }

  function Begin(tools: seq<CatalogueTool>, server: Server): (p: Progress)
    ensures InRange(p)
  {
    Progress(tools, OwnRows(tools, server.id, |tools|), 0, 0, 0)
  }

  function Reconcile(tools: seq<CatalogueTool>, server: Server, offered: seq<Offered>, now: int): Progress {
    VisitAll(server, |tools|, Begin(tools, server), offered, now)
  }

  lemma SameNames(a: seq<CatalogueTool>, b: seq<CatalogueTool>, name: string)
    requires |a| == |b| && forall i :: 0 <= i < |a| ==> a[i].name == b[i].name
    ensures NameIn(a, name) == NameIn(b, name)
  {
  }

  // The catalogue, as the service updates it.
  class McpRegistry {
    var tools: seq<CatalogueTool>

    constructor ()
      ensures tools == []
    {
      tools := [];
    }

    // None is an MCP error: nothing is catalogued.
    method Discover(server: Server, answer: Option<seq<Offered>>, now: int) returns (r: DiscoveryResult)
      modifies this
      ensures answer.None? ==> r == Unreachable && tools == old(tools)
      ensures answer.Some? ==>
        var p := Reconcile(old(tools), server, answer.value, now);
        tools == p.tools && r == DiscoveryResult(|answer.value|, p.created, p.updated, p.taken)
    {
      hide Discovered, Refreshed, Named, LocalName, NameIn;
      if answer.None? {
        return Unreachable;
      }
      var offered := answer.value;
      var flushed := tools;
      var existing: map<string, nat> := OwnRows(tools, server.id, |tools|);
      var created, updated, taken := 0, 0, 0;
      assert offered[0..] == offered;
      for k := 0 to |offered|
        invariant |flushed| <= |tools| && forall n :: n in existing ==> existing[n] < |tools|
        invariant forall i :: 0 <= i < |flushed| ==> tools[i].name == flushed[i].name
        invariant VisitAll(server, |flushed|, Progress(tools, existing, created, updated, taken), offered[k..], now)
               == Reconcile(old(tools), server, offered, now)
      {
        assert offered[k..][1..] == offered[k + 1..];
        ghost var p := Progress(tools, existing, created, updated, taken);
        var entry := offered[k];
        var name := LocalName(server, entry);
        assert NameIn(tools[..|flushed|], name) == NameIn(flushed, name) by {
          SameNames(tools[..|flushed|], flushed, name);
        }
        if Named(entry) {
          if name !in existing && NameIn(flushed, name) {
            taken := taken + 1;
          } else if name !in existing {
            existing := existing[name := |tools|];
            tools := tools + [Discovered(server, entry, now)];
            created := created + 1;
          } else {
            var i := existing[name];
            tools := tools[i := Refreshed(tools[i], server, entry, now)];
            updated := updated + 1;
          }
        }
        assert Progress(tools, existing, created, updated, taken) == Visit(server, |flushed|, p, entry, now);
      }
      r := DiscoveryResult(|offered|, created, updated, taken);
    }
  }

  // ---- what every pass keeps --------------------------------------------------------------

  ghost predicate UniqueNames(tools: seq<CatalogueTool>) {
    forall i, j :: 0 <= i < j < |tools| ==> tools[i].name != tools[j].name
  }

  // The dictionary holds exactly this server's rows; every row past the flushed ones is one.
  ghost predicate Tracks(p: Progress, id: nat, flushed: nat) {
    && flushed <= |p.tools|
    && UniqueNames(p.tools)
    && (forall n :: n in p.existing ==>
          p.existing[n] < |p.tools| && p.tools[p.existing[n]].name == n && p.tools[p.existing[n]].serverId == Some(id))
    && (forall i :: 0 <= i < |p.tools| && p.tools[i].serverId == Some(id) ==> p.tools[i].name in p.existing)
    && (forall i :: flushed <= i < |p.tools| ==> p.tools[i].serverId == Some(id))
  }

  // What an operator decided about a tool, and whose it is.
  predicate SameDecisions(a: CatalogueTool, b: CatalogueTool) {
    && b.name == a.name && b.displayName == a.displayName && b.remoteName == a.remoteName
    && b.riskLevel == a.riskLevel && b.requiredPermission == a.requiredPermission
    && b.enabled == a.enabled && b.serverId == a.serverId
  }

  predicate Ungranted(t: CatalogueTool, server: Server) {
    !t.enabled && t.riskLevel == HIGH && t.requiredPermission == "tool.execute" && t.serverId == Some(server.id)
    && t.endpoint == server.endpoint
  }

  ghost predicate Reconciled(tools: seq<CatalogueTool>, after: seq<CatalogueTool>, server: Server) {
    && |tools| <= |after|
    && (forall i :: 0 <= i < |tools| ==> SameDecisions(tools[i], after[i]))
    && (forall i :: 0 <= i < |tools| && tools[i].serverId != Some(server.id) ==> after[i] == tools[i])
    && (forall i :: |tools| <= i < |after| ==> Ungranted(after[i], server))
  }

  // What one visit keeps and counts.
  ghost predicate Visited(server: Server, flushed: nat, p: Progress, q: Progress, entry: Offered) {
    && Tracks(q, server.id, flushed) && Reconciled(p.tools, q.tools, server)
    && q.created + q.updated + q.taken == p.created + p.updated + p.taken + (if Blank(entry.name) then 0 else 1)
    && q.created - p.created == |q.tools| - |p.tools|
    && (Named(entry) ==> NameIn(q.tools, LocalName(server, entry)))
  }

  lemma VisitCreates(server: Server, flushed: nat, p: Progress, entry: Offered, now: int)
    requires Tracks(p, server.id, flushed) && Named(entry)
    requires LocalName(server, entry) !in p.existing && !NameIn(p.tools[..flushed], LocalName(server, entry))
    ensures Visited(server, flushed, p, Visit(server, flushed, p, entry, now), entry)
  {
    StripFacts(entry.name);
    var q := Visit(server, flushed, p, entry, now);
    var name := LocalName(server, entry);
    var n := |p.tools|;
    forall i | 0 <= i < n
      ensures p.tools[i].name != name
    {
      if i < flushed { assert p.tools[..flushed][i] == p.tools[i]; }
    }
    assert q.tools[n].name == name;
    assert UniqueNames(q.tools);
    assert Tracks(q, server.id, flushed);
  }

  lemma VisitRefreshes(server: Server, flushed: nat, p: Progress, entry: Offered, now: int)
    requires Tracks(p, server.id, flushed) && Named(entry) && LocalName(server, entry) in p.existing
    ensures Visited(server, flushed, p, Visit(server, flushed, p, entry, now), entry)
  {
    StripFacts(entry.name);
  }

  lemma VisitKeeps(server: Server, flushed: nat, p: Progress, entry: Offered, now: int)
    requires Tracks(p, server.id, flushed)
    ensures Visited(server, flushed, p, Visit(server, flushed, p, entry, now), entry)
  {
    var name := LocalName(server, entry);
    StripFacts(entry.name);
    if Named(entry) {
      if name in p.existing {
        VisitRefreshes(server, flushed, p, entry, now);
      } else if NameIn(p.tools[..flushed], name) {
        var i :| 0 <= i < flushed && p.tools[..flushed][i].name == name;
        assert p.tools[i].name == name;
      } else {
        VisitCreates(server, flushed, p, entry, now);
      }
    }
  }

  function CountNamed(offered: seq<Offered>): nat {
    if offered == [] then 0 else (if Blank(offered[0].name) then 0 else 1) + CountNamed(offered[1..])
  }

  lemma ReconciledTwice(a: seq<CatalogueTool>, b: seq<CatalogueTool>, c: seq<CatalogueTool>, server: Server)
    requires Reconciled(a, b, server) && Reconciled(b, c, server)
    requires forall i :: |a| <= i < |b| ==> c[i].endpoint == server.endpoint
    ensures Reconciled(a, c, server)
  {
  }

  // A row this pass created or refreshed points at the server, and stays so.
  lemma {:induction false} EndpointStays(server: Server, flushed: nat, p: Progress, offered: seq<Offered>, now: int,
                                         i: nat)
    requires Tracks(p, server.id, flushed) && i < |p.tools| && p.tools[i].endpoint == server.endpoint
    ensures VisitAll(server, flushed, p, offered, now).tools[i].endpoint == server.endpoint
    decreases |offered|
  {
    hide Named, LocalName, OrElse, DictOrElse;
    if offered != [] {
      VisitKeeps(server, flushed, p, offered[0], now);
      EndpointStays(server, flushed, Visit(server, flushed, p, offered[0], now), offered[1..], now, i);
    }
  }

  lemma {:induction false} VisitAllKeeps(server: Server, flushed: nat, p: Progress, offered: seq<Offered>, now: int)
    requires Tracks(p, server.id, flushed)
    ensures var q := VisitAll(server, flushed, p, offered, now);
            && Tracks(q, server.id, flushed) && Reconciled(p.tools, q.tools, server)
            && q.created + q.updated + q.taken == p.created + p.updated + p.taken + CountNamed(offered)
            && q.created - p.created == |q.tools| - |p.tools|
    decreases |offered|
  {
    hide Visit, NameIn, Named, LocalName;
    if offered != [] {
      var v := Visit(server, flushed, p, offered[0], now);
      VisitKeeps(server, flushed, p, offered[0], now);
      VisitAllKeeps(server, flushed, v, offered[1..], now);
      forall i | |p.tools| <= i < |v.tools|
        ensures VisitAll(server, flushed, v, offered[1..], now).tools[i].endpoint == server.endpoint
      {
        EndpointStays(server, flushed, v, offered[1..], now, i);
      }
      ReconciledTwice(p.tools, v.tools, VisitAll(server, flushed, v, offered[1..], now).tools, server);
    }
  }

  lemma BeginTracks(tools: seq<CatalogueTool>, server: Server)
    requires UniqueNames(tools)
    ensures Tracks(Begin(tools, server), server.id, |tools|)
  {
  }

  // Discovery reconciles without granting: names stay unique, other owners' tools are untouched,
  // this server's keep every decision taken about them, and what is new arrives disabled and HIGH.
  // Every entry with a name is created, refreshed or skipped.
  lemma DiscoveryGrantsNothing(tools: seq<CatalogueTool>, server: Server, offered: seq<Offered>, now: int)
    requires UniqueNames(tools)
    ensures var p := Reconcile(tools, server, offered, now);
            && UniqueNames(p.tools)
            && Reconciled(tools, p.tools, server)
            && p.created == |p.tools| - |tools|
            && p.created + p.updated + p.taken == CountNamed(offered)
  {
    BeginTracks(tools, server);
    VisitAllKeeps(server, |tools|, Begin(tools, server), offered, now);
  }

  // ---- idempotence ------------------------------------------------------------------------

  // What a run of entries makes of the description of the tool `name`: the last one offered for
  // it that is not empty.
  function LastDescription(server: Server, offered: seq<Offered>, name: string, x: string): string {
    if offered == [] then x else
    var e := offered[0];
    LastDescription(server, offered[1..], name,
                    if Named(e) && LocalName(server, e) == name && e.description != "" then e.description else x)
  }

  function LastSchema(server: Server, offered: seq<Offered>, name: string, x: Dict): Dict {
    if offered == [] then x else
    var e := offered[0];
    LastSchema(server, offered[1..], name,
               if Named(e) && LocalName(server, e) == name && e.schema != map[] then e.schema else x)
  }

  predicate Offers(server: Server, offered: seq<Offered>, name: string) {
    exists k :: 0 <= k < |offered| && Named(offered[k]) && LocalName(server, offered[k]) == name
  }

  // A second look at the same entries changes nothing: either some entry settles the value, or
  // none does and it is left alone.
  lemma {:induction false} LastIsLast(server: Server, offered: seq<Offered>, name: string, x: string, y: string)
    ensures LastDescription(server, offered, name, x) == LastDescription(server, offered, name, y)
         || (LastDescription(server, offered, name, x) == x && LastDescription(server, offered, name, y) == y)
    decreases |offered|
  {
    if offered != [] {
      var e := offered[0];
      var hit := Named(e) && LocalName(server, e) == name && e.description != "";
      LastIsLast(server, offered[1..], name, if hit then e.description else x, if hit then e.description else y);
    }
  }

  lemma {:induction false} LastSchemaIsLast(server: Server, offered: seq<Offered>, name: string, x: Dict, y: Dict)
    ensures LastSchema(server, offered, name, x) == LastSchema(server, offered, name, y)
         || (LastSchema(server, offered, name, x) == x && LastSchema(server, offered, name, y) == y)
    decreases |offered|
  {
    if offered != [] {
      var e := offered[0];
      var hit := Named(e) && LocalName(server, e) == name && e.schema != map[];
      LastSchemaIsLast(server, offered[1..], name, if hit then e.schema else x, if hit then e.schema else y);
    }
  }

  // What a pass makes of a row it starts with.
  ghost predicate Settled(server: Server, offered: seq<Offered>, now: int, a: CatalogueTool, b: CatalogueTool) {
    && SameDecisions(a, b)
    && if a.serverId == Some(server.id) then
         && b.description == LastDescription(server, offered, a.name, a.description)
         && b.schema == LastSchema(server, offered, a.name, a.schema)
         && b.endpoint == (if Offers(server, offered, a.name) then server.endpoint else a.endpoint)
         && b.discoveredAt == (if Offers(server, offered, a.name) then Some(now) else a.discoveredAt)
       else b == a
  }

  lemma OffersHeadTail(server: Server, offered: seq<Offered>, name: string)
    requires offered != []
    ensures Offers(server, offered, name) <==>
      (Named(offered[0]) && LocalName(server, offered[0]) == name) || Offers(server, offered[1..], name)
  {
  }

  // What one entry makes of a row.
  function Touched(server: Server, e: Offered, now: int, t: CatalogueTool): CatalogueTool {
    if t.serverId == Some(server.id) && Named(e) && LocalName(server, e) == t.name
    then Refreshed(t, server, e, now)
    else t
  }

  lemma VisitTouches(server: Server, flushed: nat, p: Progress, e: Offered, now: int, i: nat)
    requires Tracks(p, server.id, flushed) && i < |p.tools|
    ensures Visit(server, flushed, p, e, now).tools[i] == Touched(server, e, now, p.tools[i])
  {
    hide Refreshed, Discovered, NameIn;
  }

  lemma SettledCons(server: Server, offered: seq<Offered>, now: int, a: CatalogueTool, b: CatalogueTool)
    requires offered != [] && Settled(server, offered[1..], now, Touched(server, offered[0], now, a), b)
    ensures Settled(server, offered, now, a, b)
  {
    OffersHeadTail(server, offered, a.name);
    hide Offers, Named, LocalName;
  }

  lemma {:induction false} PassSettles(server: Server, flushed: nat, p: Progress, offered: seq<Offered>, now: int,
                                       i: nat)
    requires Tracks(p, server.id, flushed) && i < |p.tools|
    ensures Settled(server, offered, now, p.tools[i], VisitAll(server, flushed, p, offered, now).tools[i])
    decreases |offered|
  {
    if offered != [] {
      var v := Visit(server, flushed, p, offered[0], now);
      VisitKeeps(server, flushed, p, offered[0], now);
      VisitTouches(server, flushed, p, offered[0], now, i);
      hide Visit, Settled, Touched;
      PassSettles(server, flushed, v, offered[1..], now, i);
      SettledCons(server, offered, now, p.tools[i], VisitAll(server, flushed, v, offered[1..], now).tools[i]);
    }
  }

  // What a new row is: a tool the server offered by that name, described by the last entry that
  // describes it, or else by its name.
  ghost predicate AsOffered(server: Server, offered: seq<Offered>, now: int, t: CatalogueTool) {
    && Offers(server, offered, t.name)
    && t.displayName != "" && t.name == server.name + "." + t.displayName && t.remoteName == t.displayName
    && t.description == LastDescription(server, offered, t.name, t.displayName)
    && t.schema == LastSchema(server, offered, t.name, map[])
    && t.endpoint == server.endpoint
    && t.discoveredAt == Some(now)
  }

  // The row the first entry created.
  lemma CreatedAsOffered(server: Server, flushed: nat, p: Progress, offered: seq<Offered>, now: int, i: nat)
    requires Tracks(p, server.id, flushed) && offered != []
    requires |p.tools| <= i < |Visit(server, flushed, p, offered[0], now).tools|
    ensures AsOffered(server, offered, now, VisitAll(server, flushed, p, offered, now).tools[i])
  {
    var e := offered[0];
    var v := Visit(server, flushed, p, e, now);
    VisitKeeps(server, flushed, p, e, now);
    PassSettles(server, flushed, v, offered[1..], now, i);
    var t := VisitAll(server, flushed, v, offered[1..], now).tools[i];
    assert v.tools[i] == Discovered(server, e, now);
    OffersHeadTail(server, offered, t.name);
    assert t.description == LastDescription(server, offered, t.name, Strip(e.name));
    assert t.schema == LastSchema(server, offered, t.name, map[]);
  }

  // A row created by a later entry: the first one was about another name.
  lemma LaterAsOffered(server: Server, flushed: nat, p: Progress, offered: seq<Offered>, now: int, i: nat)
    requires Tracks(p, server.id, flushed) && offered != []
    requires var v := Visit(server, flushed, p, offered[0], now);
             var q := VisitAll(server, flushed, v, offered[1..], now);
             |v.tools| <= i < |q.tools| && AsOffered(server, offered[1..], now, q.tools[i])
    ensures AsOffered(server, offered, now, VisitAll(server, flushed, p, offered, now).tools[i])
  {
    var e := offered[0];
    var v := Visit(server, flushed, p, e, now);
    var q := VisitAll(server, flushed, v, offered[1..], now);
    var t := q.tools[i];
    VisitKeeps(server, flushed, p, e, now);
    VisitAllKeeps(server, flushed, v, offered[1..], now);
    forall j | 0 <= j < |v.tools|
      ensures v.tools[j].name != t.name
    {
      assert SameDecisions(v.tools[j], q.tools[j]);
    }
    OffersHeadTail(server, offered, t.name);
    assert LastDescription(server, offered, t.name, t.displayName)
        == LastDescription(server, offered[1..], t.name, t.displayName);
    assert LastSchema(server, offered, t.name, map[]) == LastSchema(server, offered[1..], t.name, map[]);
  }

  lemma {:induction false} NewToolsAreAsOffered(server: Server, flushed: nat, p: Progress, offered: seq<Offered>,
                                                now: int, i: nat)
    requires Tracks(p, server.id, flushed)
    requires |p.tools| <= i < |VisitAll(server, flushed, p, offered, now).tools|
    ensures AsOffered(server, offered, now, VisitAll(server, flushed, p, offered, now).tools[i])
    decreases |offered|
  {
    var v := Visit(server, flushed, p, offered[0], now);
    VisitKeeps(server, flushed, p, offered[0], now);
    hide Visit, Tracks, Visited, AsOffered;
    if i < |v.tools| {
      CreatedAsOffered(server, flushed, p, offered, now, i);
    } else {
      NewToolsAreAsOffered(server, flushed, v, offered[1..], now, i);
      LaterAsOffered(server, flushed, p, offered, now, i);
    }
  }

  // ---- what is skipped --------------------------------------------------------------------

  // Somebody else's tool has the name.
  ghost predicate Foreign(tools: seq<CatalogueTool>, id: nat, name: string) {
    exists i :: 0 <= i < |tools| && tools[i].name == name && tools[i].serverId != Some(id)
  }

  ghost function CountForeign(server: Server, tools: seq<CatalogueTool>, offered: seq<Offered>): nat {
    if offered == [] then 0 else
    (if Named(offered[0]) && Foreign(tools, server.id, LocalName(server, offered[0])) then 1 else 0)
    + CountForeign(server, tools, offered[1..])
  }

  lemma VisitSkips(server: Server, flushed: nat, p: Progress, entry: Offered, now: int, tools: seq<CatalogueTool>)
    requires Tracks(p, server.id, flushed) && |tools| == flushed
    requires forall i :: 0 <= i < flushed ==> SameDecisions(tools[i], p.tools[i])
    ensures Visit(server, flushed, p, entry, now).taken
         == p.taken + if Named(entry) && Foreign(tools, server.id, LocalName(server, entry)) then 1 else 0
  {
    var name := LocalName(server, entry);
    var before := p.tools[..flushed];
    assert forall i :: 0 <= i < flushed ==> before[i] == p.tools[i];
    if Foreign(tools, server.id, name) {
      var i :| 0 <= i < |tools| && tools[i].name == name && tools[i].serverId != Some(server.id);
      assert SameDecisions(tools[i], p.tools[i]) && before[i].name == name;
    }
    if name !in p.existing && NameIn(before, name) {
      var i :| 0 <= i < |before| && before[i].name == name;
      assert SameDecisions(tools[i], p.tools[i]) && tools[i].name == name && tools[i].serverId != Some(server.id);
    }
  }

  lemma {:induction false} PassSkips(server: Server, p: Progress, offered: seq<Offered>, now: int,
                                     tools: seq<CatalogueTool>)
    requires Tracks(p, server.id, |tools|)
    requires forall i :: 0 <= i < |tools| ==> SameDecisions(tools[i], p.tools[i])
    ensures VisitAll(server, |tools|, p, offered, now).taken == p.taken + CountForeign(server, tools, offered)
    decreases |offered|
  {
    if offered != [] {
      var v := Visit(server, |tools|, p, offered[0], now);
      VisitSkips(server, |tools|, p, offered[0], now, tools);
      VisitKeeps(server, |tools|, p, offered[0], now);
      hide Visit, Named, LocalName, Foreign;
      forall i | 0 <= i < |tools|
        ensures SameDecisions(tools[i], v.tools[i])
      {
        assert SameDecisions(tools[i], p.tools[i]) && SameDecisions(p.tools[i], v.tools[i]);
      }
      PassSkips(server, v, offered[1..], now, tools);
    }
  }

  // What a discovery catalogues and what it skips: every new row is a tool the server offered, as it
  // was offered; and exactly the entries whose name is somebody else's tool are skipped.
  lemma DiscoveryCataloguesTheOffer(tools: seq<CatalogueTool>, server: Server, offered: seq<Offered>, now: int)
    requires UniqueNames(tools)
    ensures var p := Reconcile(tools, server, offered, now);
            && (forall i :: |tools| <= i < |p.tools| ==> AsOffered(server, offered, now, p.tools[i]))
            && p.taken == CountForeign(server, tools, offered)
  {
    BeginTracks(tools, server);
    var p := Begin(tools, server);
    PassSkips(server, p, offered, now, tools);
    forall i | |tools| <= i < |Reconcile(tools, server, offered, now).tools|
      ensures AsOffered(server, offered, now, Reconcile(tools, server, offered, now).tools[i])
    {
      NewToolsAreAsOffered(server, |tools|, p, offered, now, i);
    }
  }

  // Names once in the table are never created again.
  ghost predicate AllKnown(server: Server, tools: seq<CatalogueTool>, offered: seq<Offered>) {
    forall k :: 0 <= k < |offered| && Named(offered[k]) ==> NameIn(tools, LocalName(server, offered[k]))
  }

  lemma NameStays(a: seq<CatalogueTool>, b: seq<CatalogueTool>, server: Server, name: string)
    requires Reconciled(a, b, server) && NameIn(a, name)
    ensures NameIn(b, name)
  {
  }

  lemma {:induction false} PassKnows(server: Server, flushed: nat, p: Progress, offered: seq<Offered>, now: int)
    requires Tracks(p, server.id, flushed)
    ensures AllKnown(server, VisitAll(server, flushed, p, offered, now).tools, offered)
    decreases |offered|
  {
    if offered != [] {
      var v := Visit(server, flushed, p, offered[0], now);
      VisitKeeps(server, flushed, p, offered[0], now);
      VisitAllKeeps(server, flushed, v, offered[1..], now);
      PassKnows(server, flushed, v, offered[1..], now);
      var q := VisitAll(server, flushed, p, offered, now);
      forall k | 0 <= k < |offered| && Named(offered[k])
        ensures NameIn(q.tools, LocalName(server, offered[k]))
      {
        if k == 0 {
          NameStays(v.tools, q.tools, server, LocalName(server, offered[0]));
        } else {
          assert offered[1..][k - 1] == offered[k];
        }
      }
    }
  }

  lemma {:induction false} KnownCreatesNothing(server: Server, p: Progress, offered: seq<Offered>, now: int)
    requires Tracks(p, server.id, |p.tools|) && AllKnown(server, p.tools, offered)
    ensures var q := VisitAll(server, |p.tools|, p, offered, now); |q.tools| == |p.tools| && q.created == p.created
    decreases |offered|
  {
    if offered != [] {
      var v := Visit(server, |p.tools|, p, offered[0], now);
      VisitKeeps(server, |p.tools|, p, offered[0], now);
      assert p.tools[..|p.tools|] == p.tools;
      assert |v.tools| == |p.tools| && v.created == p.created;
      forall k | 0 <= k < |offered[1..]| && Named(offered[1..][k])
        ensures NameIn(v.tools, LocalName(server, offered[1..][k]))
      {
        assert offered[1..][k] == offered[k + 1];
        NameStays(p.tools, v.tools, server, LocalName(server, offered[k + 1]));
      }
      KnownCreatesNothing(server, v, offered[1..], now);
    }
  }

  predicate SameButForTheDate(a: CatalogueTool, b: CatalogueTool) {
    b.(discoveredAt := a.discoveredAt) == a
  }

  // Repeating a discovery with the same offer creates nothing and leaves every field of every tool
  // as it was, but for the date: whatever is repeated, missing or blank in the offer.
  lemma DiscoveryIsIdempotent(tools: seq<CatalogueTool>, server: Server, offered: seq<Offered>, now: int, later: int)
    requires UniqueNames(tools)
    ensures var once := Reconcile(tools, server, offered, now);
            var twice := Reconcile(once.tools, server, offered, later);
            && twice.created == 0
            && |twice.tools| == |once.tools|
            && forall i :: 0 <= i < |once.tools| ==> SameButForTheDate(once.tools[i], twice.tools[i])
  {
    var p := Begin(tools, server);
    var once := Reconcile(tools, server, offered, now);
    BeginTracks(tools, server);
    VisitAllKeeps(server, |tools|, p, offered, now);
    PassKnows(server, |tools|, p, offered, now);
    var q := Begin(once.tools, server);
    BeginTracks(once.tools, server);
    KnownCreatesNothing(server, q, offered, later);
    var twice := Reconcile(once.tools, server, offered, later);
    forall i | 0 <= i < |once.tools|
      ensures SameButForTheDate(once.tools[i], twice.tools[i])
    {
      var t := once.tools[i];
      PassSettles(server, |once.tools|, q, offered, later, i);
      if t.serverId == Some(server.id) {
        var x, y := t.displayName, map[];
        if i < |tools| {
          PassSettles(server, |tools|, p, offered, now, i);
          x, y := tools[i].description, tools[i].schema;
        } else {
          NewToolsAreAsOffered(server, |tools|, p, offered, now, i);
        }
        LastIsLast(server, offered, t.name, x, t.description);
        LastSchemaIsLast(server, offered, t.name, y, t.schema);
      }
    }
  }
}
