// API key rotation (services/api_keys.py, models/models_registry.py `ApiKey`).
module ApiKeys {
  import opened Outcome

  // A key's id is its position in the table; times are instants of one clock.
  datatype ApiKey = ApiKey(
    clientId: nat,
    name: string,
    rateLimit: int,
    scopes: seq<string>,
    expiresAt: Option<int>,
    revokedAt: Option<int>,
    rotatedTo: Option<nat>)

  datatype KeyError = NoSuchClient | NoSuchKey | ExpiryNotInFuture | AlreadyRevoked | NegativeGrace

  const SECONDS_PER_HOUR := 3600

  // `is_active`.
  predicate IsActive(k: ApiKey, now: int) {
    k.revokedAt.None? && (k.expiresAt.None? || k.expiresAt.value > now)
  }

  // ---- the three operations ---------------------------------------------------------------

  function Create(keys: seq<ApiKey>, clients: set<nat>, client: nat, name: string, rateLimit: int, scopes: seq<string>,
                  expiresAt: Option<int>, now: int): Result<seq<ApiKey>, KeyError>
  {
    if client !in clients then Err(NoSuchClient)
    else if expiresAt.Some? && expiresAt.value <= now then Err(ExpiryNotInFuture)
    else Ok(keys + [ApiKey(client, name, rateLimit, scopes, expiresAt, None, None)])
  }

  function Sooner(expiresAt: Option<int>, deadline: int): int {
    if expiresAt.Some? && expiresAt.value < deadline then expiresAt.value else deadline
  }

  function Rotate(keys: seq<ApiKey>, clients: set<nat>, id: nat, graceHours: int, now: int): Result<seq<ApiKey>,
                  KeyError> {
    if id >= |keys| then Err(NoSuchKey) else
    var old' := keys[id];
    if old'.revokedAt.Some? then Err(AlreadyRevoked)
    else if graceHours < 0 then Err(NegativeGrace)
    else
      var minted := Create(keys, clients, old'.clientId, old'.name + " (rotated)", old'.rateLimit, old'.scopes,
                           old'.expiresAt, now);
      if minted.Err? then minted else
      Ok(minted.value[id := old'.(expiresAt := Some(Sooner(old'.expiresAt, now + graceHours * SECONDS_PER_HOUR)),
                                  rotatedTo := Some(|keys|))])
  }

  function Revoke(keys: seq<ApiKey>, id: nat, now: int): Result<seq<ApiKey>, KeyError> {
    if id >= |keys| then Err(NoSuchKey)
    else if keys[id].revokedAt.Some? then Ok(keys)
    else Ok(keys[id := keys[id].(revokedAt := Some(now))])
  }

  class ApiKeyService {
    const clients: set<nat>
    var keys: seq<ApiKey>

    constructor (clients: set<nat>)
      ensures this.clients == clients && keys == []
    {
      this.clients := clients;
      keys := [];
    }

    method CreateKey(client: nat, name: string, rateLimit: int, scopes: seq<string>, expiresAt: Option<int>, now: int)
      returns (r: Result<nat, KeyError>)
      modifies this
      ensures match Create(old(keys), clients, client, name, rateLimit, scopes, expiresAt, now)
              case Err(e) => r == Err(e) && keys == old(keys)
              case Ok(k) => r == Ok(|old(keys)|) && keys == k
    {
      if client !in clients {
        return Err(NoSuchClient);
      }
      if expiresAt.Some? && expiresAt.value <= now {
        return Err(ExpiryNotInFuture);
      }
      keys := keys + [ApiKey(client, name, rateLimit, scopes, expiresAt, None, None)];
      r := Ok(|keys| - 1);
    }

    method RotateKey(id: nat, graceHours: int, now: int) returns (r: Result<nat, KeyError>)
      modifies this
      ensures match Rotate(old(keys), clients, id, graceHours, now)
              case Err(e) => r == Err(e) && keys == old(keys)
              case Ok(k) => r == Ok(|old(keys)|) && keys == k
    {
      if id >= |keys| {
        return Err(NoSuchKey);
      }
      var replaced := keys[id];
      if replaced.revokedAt.Some? {
        return Err(AlreadyRevoked);
      }
      if graceHours < 0 {
        return Err(NegativeGrace);
      }
      r := CreateKey(replaced.clientId, replaced.name + " (rotated)", replaced.rateLimit, replaced.scopes,
                     replaced.expiresAt, now);
      if r.Err? {
        return;
      }
      var deadline := now + graceHours * SECONDS_PER_HOUR;
      keys := keys[id := keys[id].(expiresAt := Some(Sooner(keys[id].expiresAt, deadline)))];
      keys := keys[id := keys[id].(rotatedTo := Some(r.value))];
    }

    method RevokeKey(id: nat, now: int) returns (r: Result<nat, KeyError>)
      modifies this
      ensures match Revoke(old(keys), id, now)
              case Err(e) => r == Err(e) && keys == old(keys)
              case Ok(k) => r == Ok(id) && keys == k
    {
      if id >= |keys| {
        return Err(NoSuchKey);
      }
      if keys[id].revokedAt.None? {
        keys := keys[id := keys[id].(revokedAt := Some(now))];
      }
      r := Ok(id);
    }
  }

  // ---- histories --------------------------------------------------------------------------

  datatype Step =
    | CreateStep(client: nat, name: string, rateLimit: int, scopes: seq<string>, expiresAt: Option<int>, now: int)
    | RotateStep(id: nat, graceHours: int, now: int)
    | RevokeStep(id: nat, now: int)

  function Apply(clients: set<nat>, keys: seq<ApiKey>, s: Step): seq<ApiKey> {
    var r := match s
      case CreateStep(c, n, l, sc, e, now) => Create(keys, clients, c, n, l, sc, e, now)
      case RotateStep(id, grace, now) => Rotate(keys, clients, id, grace, now)
      case RevokeStep(id, now) => Revoke(keys, id, now);
    if r.Ok? then r.value else keys
  }

  function After(clients: set<nat>, keys: seq<ApiKey>, steps: seq<Step>): seq<ApiKey>
    decreases |steps|
  {
    if steps == [] then keys else After(clients, Apply(clients, keys, steps[0]), steps[1..])
  }

  // No expiry at all is the latest there is.
  predicate NoLater(a: Option<int>, b: Option<int>) {
    b.None? || (a.Some? && a.value <= b.value)
  }

  // What time may do to a key.
  predicate Evolves(a: ApiKey, b: ApiKey) {
    && b.clientId == a.clientId && b.name == a.name && b.rateLimit == a.rateLimit && b.scopes == a.scopes
    && NoLater(b.expiresAt, a.expiresAt)
    && (a.revokedAt.Some? ==> b.revokedAt == a.revokedAt)
    && (a.rotatedTo.Some? ==> b.rotatedTo.Some?)
  }

  ghost predicate AllEvolve(p: seq<ApiKey>, q: seq<ApiKey>) {
    |p| <= |q| && forall i :: 0 <= i < |p| ==> Evolves(p[i], q[i])
  }

  predicate LinkOk(keys: seq<ApiKey>, i: nat, j: nat)
    requires i < |keys|
  {
    && i < j < |keys|
    && keys[j].clientId == keys[i].clientId
    && keys[j].scopes == keys[i].scopes
    && keys[j].rateLimit == keys[i].rateLimit
  }

  // Links lead to younger keys of the same client, scopes and rate limit.
  ghost predicate Linked(keys: seq<ApiKey>) {
    forall i :: 0 <= i < |keys| && keys[i].rotatedTo.Some? ==> LinkOk(keys, i, keys[i].rotatedTo.value)
  }

  lemma StepEvolves(clients: set<nat>, keys: seq<ApiKey>, s: Step)
    requires Linked(keys)
    ensures AllEvolve(keys, Apply(clients, keys, s)) && Linked(Apply(clients, keys, s))
  {
  }

  lemma {:induction false} HistoryEvolves(clients: set<nat>, keys: seq<ApiKey>, steps: seq<Step>)
    requires Linked(keys)
    ensures AllEvolve(keys, After(clients, keys, steps)) && Linked(After(clients, keys, steps))
    decreases |steps|
  {
    if steps != [] {
      StepEvolves(clients, keys, steps[0]);
      HistoryEvolves(clients, Apply(clients, keys, steps[0]), steps[1..]);
      var mid, end := Apply(clients, keys, steps[0]), After(clients, keys, steps);
      forall i | 0 <= i < |keys|
        ensures Evolves(keys[i], end[i])
      {
        assert Evolves(keys[i], mid[i]) && Evolves(mid[i], end[i]);
      }
    }
  }

  // A key that is dead stays dead: rotation never extends a life and revocation is never undone.
  lemma InactiveForever(clients: set<nat>, keys: seq<ApiKey>, steps: seq<Step>, i: nat, now: int, later: int)
    requires Linked(keys) && i < |keys| && !IsActive(keys[i], now)
    requires now <= later
    ensures i < |After(clients, keys, steps)| && !IsActive(After(clients, keys, steps)[i], later)
  {
    HistoryEvolves(clients, keys, steps);
    assert Evolves(keys[i], After(clients, keys, steps)[i]);
  }

  // ---- what each request does to the life of a key ----------------------------------------

  // A key works until it is revoked or its expiry comes, whichever is first.
  lemma ActiveExactlyWhen(k: ApiKey, now: int)
    ensures IsActive(k, now) <==> k.revokedAt.None? && forall e :: k.expiresAt == Some(e) ==> now < e
  {
    if k.expiresAt.Some? {
      assert k.expiresAt == Some(k.expiresAt.value);
    }
  }

  // A key is refused for an unknown client, then for an expiry that has come, and for nothing else;
  // it is added as asked for, and works at once.
  lemma CreateRefusedExactlyWhen(keys: seq<ApiKey>, clients: set<nat>, client: nat, name: string, rateLimit: int,
                                 scopes: seq<string>, expiresAt: Option<int>, now: int)
    ensures var q := Create(keys, clients, client, name, rateLimit, scopes, expiresAt, now);
            var late := exists e :: expiresAt == Some(e) && e <= now;
            && (q == Err(NoSuchClient) <==> client !in clients)
            && (q == Err(ExpiryNotInFuture) <==> client in clients && late)
            && (q.Ok? <==> client in clients && !late)
            && (q.Ok? ==>
                  && |q.value| == |keys| + 1 && q.value[..|keys|] == keys
                  && var k := q.value[|keys|];
                     && k.clientId == client && k.name == name && k.rateLimit == rateLimit && k.scopes == scopes
                     && k.expiresAt == expiresAt && k.rotatedTo.None? && IsActive(k, now))
  {
    if expiresAt.Some? && expiresAt.value <= now {
      assert expiresAt == Some(expiresAt.value);
    }
  }

  // A rotation is refused for an unknown key, a revoked one, a negative grace, and then as its
  // replacement would be. Else the replacement has the key's expiry, and the key itself works for
  // as long as it would have, but no longer than the grace; nothing else changes.
  lemma RotateGrantsTheGrace(keys: seq<ApiKey>, clients: set<nat>, id: nat, graceHours: int, now: int)
    ensures var q := Rotate(keys, clients, id, graceHours, now);
            && (q == Err(NoSuchKey) <==> id >= |keys|)
            && (id < |keys| ==>
                  var k := keys[id];
                  && (q == Err(AlreadyRevoked) <==> k.revokedAt.Some?)
                  && (q == Err(NegativeGrace) <==> k.revokedAt.None? && graceHours < 0)
                  && (q.Ok? <==> k.clientId in clients && graceHours >= 0 && IsActive(k, now))
                  && (q.Ok? ==>
                        && |q.value| == |keys| + 1
                        && (forall i :: 0 <= i < |keys| && i != id ==> q.value[i] == keys[i])
                        && var old', new' := q.value[id], q.value[|keys|];
                           && old' == k.(expiresAt := old'.expiresAt, rotatedTo := Some(|keys|))
                           && (forall t :: IsActive(old', t) <==> IsActive(k, t) && t < now + graceHours * 3600)
                           && new' == k.(name := k.name + " (rotated)", rotatedTo := None)))
  {
    if id < |keys| {
      var k := keys[id];
      CreateRefusedExactlyWhen(keys, clients, k.clientId, k.name + " (rotated)", k.rateLimit, k.scopes, k.expiresAt,
                               now);
      ActiveExactlyWhen(k, now);
    }
  }

  // A revoked key never works again; revoking one twice changes nothing.
  lemma RevokeEnds(keys: seq<ApiKey>, id: nat, now: int)
    ensures var q := Revoke(keys, id, now);
            && (q == Err(NoSuchKey) <==> id >= |keys|)
            && (id < |keys| ==>
                  && q.Ok? && |q.value| == |keys|
                  && (forall i :: 0 <= i < |keys| && i != id ==> q.value[i] == keys[i])
                  && q.value[id] == keys[id].(revokedAt := q.value[id].revokedAt)
                  && (keys[id].revokedAt.Some? ==> q.value == keys)
                  && (keys[id].revokedAt.None? ==> q.value[id].revokedAt == Some(now))
                  && forall t :: !IsActive(q.value[id], t))
  {
  }

  // ---- chains -----------------------------------------------------------------------------

  // The key and its successors along `rotated_to`.
  function Chain(keys: seq<ApiKey>, i: nat): (chain: seq<nat>)
    requires Linked(keys) && i < |keys|
    ensures forall k :: 0 <= k < |chain| ==> i <= chain[k] < |keys|
    decreases |keys| - i
  {
    if keys[i].rotatedTo.None? then [i] else
    assert LinkOk(keys, i, keys[i].rotatedTo.value);
    [i] + Chain(keys, keys[i].rotatedTo.value)
  }

  // Chains never loop, and every key in one serves the same client with the same reach.
  lemma {:induction false} ChainIsUniform(keys: seq<ApiKey>, i: nat)
    requires Linked(keys) && i < |keys|
    ensures var chain := Chain(keys, i);
            && chain[0] == i
            && (forall j, k :: 0 <= j < k < |chain| ==> chain[j] < chain[k])
            && forall k :: 0 <= k < |chain| ==>
                 && keys[chain[k]].clientId == keys[i].clientId
                 && keys[chain[k]].scopes == keys[i].scopes
                 && keys[chain[k]].rateLimit == keys[i].rateLimit
    decreases |keys| - i
  {
    if keys[i].rotatedTo.Some? {
      assert LinkOk(keys, i, keys[i].rotatedTo.value);
      ChainIsUniform(keys, keys[i].rotatedTo.value);
    }
  }

  // ---- descent ----------------------------------------------------------------------------

  // `rotated_to` remembers one replacement, the last. To follow every key ever minted from another:
  // the table with, for each key, the one it was minted to replace and the expiry it was given.
  datatype Registry = Registry(keys: seq<ApiKey>, parents: seq<Option<nat>>, minted: seq<Option<int>>)

  function Track(clients: set<nat>, r: Registry, s: Step): Registry {
    var keys := Apply(clients, r.keys, s);
    if |keys| <= |r.keys| then r.(keys := keys) else
    Registry(keys, r.parents + [if s.RotateStep? then Some(s.id) else None], r.minted + [keys[|keys| - 1].expiresAt])
  }

  function Tracked(clients: set<nat>, r: Registry, steps: seq<Step>): Registry
    decreases |steps|
  {
    if steps == [] then r else Tracked(clients, Track(clients, r, steps[0]), steps[1..])
  }

  const EMPTY := Registry([], [], [])

  predicate Alike(a: ApiKey, b: ApiKey) {
    a.clientId == b.clientId && a.scopes == b.scopes && a.rateLimit == b.rateLimit
  }

  // Key j was minted in the place of key i.
  predicate Child(r: Registry, i: nat, j: nat)
    requires j < |r.keys| == |r.minted|
  {
    i < j && Alike(r.keys[j], r.keys[i]) && NoLater(r.minted[j], r.minted[i])
  }

  ghost predicate Lineage(r: Registry) {
    && |r.keys| == |r.parents| == |r.minted|
    && (forall j :: 0 <= j < |r.keys| ==> NoLater(r.keys[j].expiresAt, r.minted[j]))
    && (forall j :: 0 <= j < |r.keys| && r.parents[j].Some? ==> Child(r, r.parents[j].value, j))
    && (forall i :: 0 <= i < |r.keys| && r.keys[i].rotatedTo.Some? ==>
          r.keys[i].rotatedTo.value < |r.keys| && r.parents[r.keys[i].rotatedTo.value] == Some(i))
  }

  lemma TrackKeeps(clients: set<nat>, r: Registry, s: Step)
    requires Lineage(r)
    ensures Lineage(Track(clients, r, s))
  {
    var q := Track(clients, r, s);
    forall j | 0 <= j < |q.keys| && q.parents[j].Some?
      ensures Child(q, q.parents[j].value, j)
    {
      if j < |r.keys| {
        assert Child(r, r.parents[j].value, j);
      }
    }
  }

  lemma {:induction false} TrackedKeeps(clients: set<nat>, r: Registry, steps: seq<Step>)
    requires Lineage(r)
    ensures Lineage(Tracked(clients, r, steps))
    ensures Tracked(clients, r, steps).keys == After(clients, r.keys, steps)
    decreases |steps|
  {
    if steps != [] {
      TrackKeeps(clients, r, steps[0]);
      TrackedKeeps(clients, Track(clients, r, steps[0]), steps[1..]);
    }
  }

  // Key j is key i, or was minted to replace one that descends from it.
  predicate Descends(r: Registry, i: nat, j: nat)
    decreases j
  {
    i == j || (j < |r.parents| && r.parents[j].Some? && r.parents[j].value < j && Descends(r, i, r.parents[j].value))
  }

  lemma {:induction false} DescentShrinks(r: Registry, i: nat, j: nat)
    requires Lineage(r) && j < |r.keys| && Descends(r, i, j)
    ensures i < |r.keys| && Alike(r.keys[j], r.keys[i]) && NoLater(r.minted[j], r.minted[i])
    decreases j
  {
    if i != j {
      assert Child(r, r.parents[j].value, j);
      DescentShrinks(r, i, r.parents[j].value);
    }
  }

  // Rotation buys no time: over any history, no key minted to replace another, however indirectly
  // and however often either was rotated, outlives the expiry the first was minted with; and all of
  // them serve its client, with its scopes and its rate limit.
  lemma NoDescendantOutlivesItsRoot(clients: set<nat>, steps: seq<Step>, i: nat, j: nat)
    requires var r := Tracked(clients, EMPTY, steps); j < |r.keys| && Descends(r, i, j)
    ensures var r := Tracked(clients, EMPTY, steps);
            && r.keys == After(clients, [], steps)
            && i < |r.keys| == |r.minted|
            && Alike(r.keys[j], r.keys[i])
            && NoLater(r.keys[j].expiresAt, r.minted[i])
  {
    TrackedKeeps(clients, EMPTY, steps);
    DescentShrinks(Tracked(clients, EMPTY, steps), i, j);
  }

  lemma {:induction false} DescendsFurther(r: Registry, i: nat, j: nat, k: nat)
    requires Descends(r, i, j) && Descends(r, j, k)
    ensures Descends(r, i, k)
    decreases k
  {
    if j != k {
      DescendsFurther(r, i, j, r.parents[k].value);
    }
  }

  lemma {:induction false} ChainDescends(r: Registry, i: nat, k: nat)
    requires Lineage(r) && Linked(r.keys) && i < |r.keys| && k in Chain(r.keys, i)
    ensures Descends(r, i, k)
    decreases |r.keys| - i
  {
    if k != i {
      var j := r.keys[i].rotatedTo.value;
      ChainDescends(r, j, k);
      DescendsFurther(r, i, j, k);
    }
  }

  // In particular the chain along `rotated_to`.
  lemma NoChainOutlivesItsRoot(clients: set<nat>, steps: seq<Step>, i: nat)
    requires i < |After(clients, [], steps)|
    ensures var r := Tracked(clients, EMPTY, steps);
            && r.keys == After(clients, [], steps)
            && |r.minted| == |r.keys| && Linked(r.keys)
            && forall k :: k in Chain(r.keys, i) ==> NoLater(r.keys[k].expiresAt, r.minted[i])
  {
    var r := Tracked(clients, EMPTY, steps);
    TrackedKeeps(clients, EMPTY, steps);
    HistoryEvolves(clients, [], steps);
    forall k | k in Chain(r.keys, i)
      ensures NoLater(r.keys[k].expiresAt, r.minted[i])
    {
      ChainDescends(r, i, k);
      NoDescendantOutlivesItsRoot(clients, steps, i, k);
    }
  }
}
