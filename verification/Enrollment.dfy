// Node enrolment tokens (repositories/infrastructure.py `NodeEnrollmentRepository`,
// services/node_enrollment.py, models/infrastructure.py `NodeEnrollment`).
module Enrollment {
  import opened Outcome

  datatype Status = PENDING | CONSUMED | EXPIRED | REVOKED

  datatype Invitation = Invitation(nodeName: string, status: Status, expiresAt: int, consumedAt: Option<int>,
                                   updatedAt: int)

  // node_enrollments, by its unique token hash.
  type Table = map<string, Invitation>

  datatype EnrollmentError = AlreadyRegistered | AlreadyOpen | NoSuchEnrollment | AlreadyConsumed

  // ---- the repository's statements --------------------------------------------------------

  predicate Claimable(row: Invitation, now: int) {
    row.status == PENDING && row.expiresAt > now
  }

  // UPDATE ... WHERE token_hash, PENDING and not expired; the answer is rowcount == 1.
  function Claim(t: Table, hash: string, now: int): (Table, bool) {
    if hash in t && Claimable(t[hash], now)
    then (t[hash := t[hash].(status := CONSUMED, consumedAt := Some(now), updatedAt := now)], true)
    else (t, false)
  }

  predicate Elapsed(row: Invitation, now: int) {
    row.status == PENDING && row.expiresAt <= now
  }

  function ExpireStale(t: Table, now: int): Table {
    map h | h in t :: if Elapsed(t[h], now) then t[h].(status := EXPIRED, updatedAt := now) else t[h]
  }

  // DELETE ... WHERE not PENDING and updated before the cutoff.
  function PurgeSettled(t: Table, olderThan: int): Table {
    map h | h in t && !(t[h].status != PENDING && t[h].updatedAt < olderThan) :: t[h]
  }

  predicate OpenFor(t: Table, name: string) {
    exists h :: h in t && t[h].nodeName == name && t[h].status == PENDING
  }

  // ---- the service ------------------------------------------------------------------------

  // Elapsed invitations are swept first; then the name must be free of a node, unless it is to be
  // enrolled again, and of an open invitation. A refusal rolls the sweep back with the request.
  function Issue(t: Table, nodes: set<string>, name: string, reenroll: bool, hash: string, ttl: int, now: int)
    : Result<Table, EnrollmentError>
  {
    var swept := ExpireStale(t, now);
    if name in nodes && !reenroll then Err(AlreadyRegistered)
    else if OpenFor(swept, name) then Err(AlreadyOpen)
    else Ok(swept[hash := Invitation(name, PENDING, now + ttl, None, now)])
  }

  function Revoke(t: Table, hash: string, now: int): Result<Table, EnrollmentError> {
    if hash !in t then Err(NoSuchEnrollment)
    else if t[hash].status == CONSUMED then Err(AlreadyConsumed)
    else if t[hash].status == REVOKED then Ok(t)
    else Ok(t[hash := t[hash].(status := REVOKED, updatedAt := now)])
  }

  class EnrollmentStore {
    var rows: Table

    constructor ()
      ensures rows == map[]
    {
      rows := map[];
    }

    method ClaimToken(hash: string, now: int) returns (won: bool)
      modifies this
      ensures (rows, won) == Claim(old(rows), hash, now)
    {
      won := hash in rows && Claimable(rows[hash], now);
      if won {
        rows := rows[hash := rows[hash].(status := CONSUMED, consumedAt := Some(now), updatedAt := now)];
      }
    }

    method Sweep(now: int) returns (expired: nat)
      modifies this
      ensures rows == ExpireStale(old(rows), now)
      ensures expired == |set h | h in old(rows) && Elapsed(old(rows)[h], now)|
    {
      expired := |set h | h in rows && Elapsed(rows[h], now)|;
      rows := map h | h in rows ::
        if Elapsed(rows[h], now) then rows[h].(status := EXPIRED, updatedAt := now) else rows[h];
    }

    method Purge(olderThan: int) returns (purged: nat)
      modifies this
      ensures rows == PurgeSettled(old(rows), olderThan)
      ensures purged == |old(rows).Keys - rows.Keys|
    {
      var before := rows;
      rows := map h | h in rows && !(rows[h].status != PENDING && rows[h].updatedAt < olderThan) :: rows[h];
      purged := |before.Keys - rows.Keys|;
    }

    // `nodes` are the names registered so far; `hash` is that of a freshly generated token.
    method Create(nodes: set<string>, name: string, reenroll: bool, hash: string, ttl: int, now: int)
      returns (r: Result<(), EnrollmentError>)
      requires hash !in rows
      modifies this
      ensures match Issue(old(rows), nodes, name, reenroll, hash, ttl, now)
              case Err(e) => r == Err(e) && rows == old(rows)
              case Ok(t) => r == Ok(()) && rows == t
    {
      var before := rows;
      var expired := Sweep(now);
      if name in nodes && !reenroll {
        rows := before;
        return Err(AlreadyRegistered);
      }
      if OpenFor(rows, name) {
        rows := before;
        return Err(AlreadyOpen);
      }
      rows := rows[hash := Invitation(name, PENDING, now + ttl, None, now)];
      r := Ok(());
    }

    method RevokeToken(hash: string, now: int) returns (r: Result<(), EnrollmentError>)
      modifies this
      ensures match Revoke(old(rows), hash, now)
              case Err(e) => r == Err(e) && rows == old(rows)
              case Ok(t) => r == Ok(()) && rows == t
    {
      if hash !in rows {
        return Err(NoSuchEnrollment);
      }
      if rows[hash].status == CONSUMED {
        return Err(AlreadyConsumed);
      }
      if rows[hash].status != REVOKED {
        rows := rows[hash := rows[hash].(status := REVOKED, updatedAt := now)];
      }
      r := Ok(());
    }
  }

  // ---- histories: any interleaving, a clock that never runs backwards, fresh hashes ---------

  datatype Step =
    | IssueStep(nodes: set<string>, name: string, reenroll: bool, hash: string, ttl: int, now: int)
    | ClaimStep(hash: string, now: int)
    | ExpireStep(now: int)
    | RevokeStep(hash: string, now: int)
    | PurgeStep(olderThan: int, now: int)

  // A claim that won, and the expiry its invitation was issued with.
  datatype Win = Win(hash: string, at: int, expiresAt: int)

  // The table, every hash ever minted with the expiry it was given, the wins so far, and the hashes
  // that have been revoked.
  datatype History = History(rows: Table, minted: map<string, int>, wins: seq<Win>, revoked: set<string>, clock: int)

  const EMPTY := History(map[], map[], [], {}, 0)

  ghost predicate Legal(h: History, s: Step) {
    s.now >= h.clock && (s.IssueStep? ==> s.hash !in h.minted)
  }

  function Apply(h: History, s: Step): History {
    var t := h.(clock := s.now);
    match s
    case IssueStep(nodes, name, reenroll, hash, ttl, now) =>
      var r := Issue(h.rows, nodes, name, reenroll, hash, ttl, now);
      if r.Ok? then t.(rows := r.value, minted := h.minted[hash := now + ttl]) else t
    case ClaimStep(hash, now) =>
      var (rows, won) := Claim(h.rows, hash, now);
      t.(rows := rows, wins := if won then h.wins + [Win(hash, now, h.rows[hash].expiresAt)] else h.wins)
    case ExpireStep(now) => t.(rows := ExpireStale(h.rows, now))
    case RevokeStep(hash, now) =>
      var r := Revoke(h.rows, hash, now);
      if r.Ok? then t.(rows := r.value, revoked := h.revoked + {hash}) else t
    case PurgeStep(olderThan, _) => t.(rows := PurgeSettled(h.rows, olderThan))
  }

  function After(h: History, steps: seq<Step>): History
    decreases |steps|
  {
    if steps == [] then h else After(Apply(h, steps[0]), steps[1..])
  }

  ghost predicate LegalHistory(h: History, steps: seq<Step>)
    decreases |steps|
  {
    steps == [] || (Legal(h, steps[0]) && LegalHistory(Apply(h, steps[0]), steps[1..]))
  }

  // ---- what they keep ---------------------------------------------------------------------

  ghost predicate OnePerName(t: Table) {
    forall g, h :: g in t && h in t && t[g].status == t[h].status == PENDING && t[g].nodeName == t[h].nodeName ==>
      g == h
  }

  ghost predicate WonOnce(wins: seq<Win>) {
    forall i, j :: 0 <= i < j < |wins| ==> wins[i].hash != wins[j].hash
  }

  // Every row is a minted token's, with the expiry it was minted with.
  ghost predicate Minted(t: Table, minted: map<string, int>) {
    forall k :: k in t ==> k in minted && t[k].expiresAt == minted[k]
  }

  // Every win was in time, and shows on the row for as long as the row is kept.
  ghost predicate WinOk(w: Win, t: Table, minted: map<string, int>, clock: int) {
    && w.hash in minted && w.expiresAt == minted[w.hash] && w.at < w.expiresAt && w.at <= clock
    && (w.hash in t ==> t[w.hash].status == CONSUMED && t[w.hash].consumedAt == Some(w.at))
  }

  ghost predicate WonBy(wins: seq<Win>, hash: string) {
    exists i :: 0 <= i < |wins| && wins[i].hash == hash
  }

  ghost predicate Inv(h: History) {
    && OnePerName(h.rows)
    && Minted(h.rows, h.minted)
    && WonOnce(h.wins)
    && (forall i :: 0 <= i < |h.wins| ==> WinOk(h.wins[i], h.rows, h.minted, h.clock))
    && (forall k :: k in h.rows && h.rows[k].status == CONSUMED ==> WonBy(h.wins, k))
  }

  // A step that closes or deletes rows, or adds one under a fresh hash, but settles nothing by
  // claiming: rows that were CONSUMED stay so, and no others become so.
  ghost predicate Quiet(p: Table, q: Table, minted: map<string, int>) {
    && (forall k :: k in q && k in minted ==> k in p && q[k].expiresAt == p[k].expiresAt)
    && (forall k :: k in q && k in minted ==> (q[k].status == CONSUMED <==> p[k].status == CONSUMED))
    && (forall k :: k in q && q[k].status == CONSUMED ==> k in minted && q[k] == p[k])
  }

  lemma QuietInv(h: History, g: History)
    requires Inv(h) && OnePerName(g.rows) && Minted(g.rows, g.minted)
    requires Quiet(h.rows, g.rows, h.minted) && g.wins == h.wins && g.clock >= h.clock
    requires forall k :: k in h.minted ==> k in g.minted && g.minted[k] == h.minted[k]
    ensures Inv(g)
  {
  }

  lemma IssueInv(h: History, s: Step)
    requires Inv(h) && Legal(h, s) && s.IssueStep?
    ensures Inv(Apply(h, s))
  {
    var g := Apply(h, s);
    var swept := ExpireStale(h.rows, s.now);
    assert OnePerName(swept) && Minted(swept, h.minted);
    if Issue(h.rows, s.nodes, s.name, s.reenroll, s.hash, s.ttl, s.now).Ok? {
      assert s.hash !in swept && !OpenFor(swept, s.name);
      assert OnePerName(g.rows) && Minted(g.rows, g.minted);
    }
    QuietInv(h, g);
  }

  lemma ClaimInv(h: History, s: Step)
    requires Inv(h) && Legal(h, s) && s.ClaimStep?
    ensures Inv(Apply(h, s))
  {
    var g := Apply(h, s);
    if Claim(h.rows, s.hash, s.now).1 {
      forall i | 0 <= i < |h.wins|
        ensures h.wins[i].hash != s.hash
      {
        assert WinOk(h.wins[i], h.rows, h.minted, h.clock);
      }
      forall i | 0 <= i < |g.wins|
        ensures WinOk(g.wins[i], g.rows, g.minted, g.clock)
      {
        if i < |h.wins| { assert WinOk(h.wins[i], h.rows, h.minted, h.clock); }
      }
      forall k | k in g.rows && g.rows[k].status == CONSUMED
        ensures WonBy(g.wins, k)
      {
        if k == s.hash {
          assert g.wins[|h.wins|].hash == k;
        } else {
          var i :| 0 <= i < |h.wins| && h.wins[i].hash == k;
          assert g.wins[i] == h.wins[i];
        }
      }
    } else {
      QuietInv(h, g);
    }
  }

  lemma StepInv(h: History, s: Step)
    requires Inv(h) && Legal(h, s)
    ensures Inv(Apply(h, s))
  {
    match s
    case IssueStep(_, _, _, _, _, _) => IssueInv(h, s);
    case ClaimStep(_, _) => ClaimInv(h, s);
    case ExpireStep(_) => QuietInv(h, Apply(h, s));
    case RevokeStep(_, _) => QuietInv(h, Apply(h, s));
    case PurgeStep(_, _) => QuietInv(h, Apply(h, s));
  }

  lemma {:induction false} HistoryInv(h: History, steps: seq<Step>)
    requires Inv(h) && LegalHistory(h, steps)
    ensures Inv(After(h, steps))
    decreases |steps|
  {
    if steps != [] {
      StepInv(h, steps[0]);
      HistoryInv(Apply(h, steps[0]), steps[1..]);
    }
  }

  // Open is what was neither won nor revoked, at least until its time.
  ghost predicate Standing(h: History) {
    && h.revoked <= h.minted.Keys
    && (forall k :: k in h.rows && h.rows[k].status == PENDING ==> !WonBy(h.wins, k) && k !in h.revoked)
    && (forall k :: k in h.minted && h.clock < h.minted[k] && !WonBy(h.wins, k) && k !in h.revoked ==>
          k in h.rows && h.rows[k].status == PENDING)
  }

  lemma WonOneMore(wins: seq<Win>, w: Win, k: string)
    ensures WonBy(wins + [w], k) <==> WonBy(wins, k) || k == w.hash
  {
    if WonBy(wins, k) {
      var i :| 0 <= i < |wins| && wins[i].hash == k;
      assert (wins + [w])[i].hash == k;
    }
    if k == w.hash {
      assert (wins + [w])[|wins|].hash == k;
    }
    if WonBy(wins + [w], k) {
      var i :| 0 <= i < |wins + [w]| && (wins + [w])[i].hash == k;
      assert i < |wins| ==> wins[i].hash == k;
    }
  }

  lemma ClaimStands(h: History, s: Step)
    requires Inv(h) && Standing(h) && Legal(h, s) && s.ClaimStep?
    ensures Standing(Apply(h, s))
  {
    if Claim(h.rows, s.hash, s.now).1 {
      var w := Win(s.hash, s.now, h.rows[s.hash].expiresAt);
      forall k | k in h.minted
        ensures WonBy(h.wins + [w], k) <==> WonBy(h.wins, k) || k == s.hash
      {
        WonOneMore(h.wins, w, k);
      }
      hide WonBy;
    }
  }

  lemma IssueStands(h: History, s: Step)
    requires Inv(h) && Standing(h) && Legal(h, s) && s.IssueStep?
    ensures Standing(Apply(h, s))
  {
    if Issue(h.rows, s.nodes, s.name, s.reenroll, s.hash, s.ttl, s.now).Ok? {
      forall i | 0 <= i < |h.wins|
        ensures h.wins[i].hash != s.hash
      {
        assert WinOk(h.wins[i], h.rows, h.minted, h.clock);
      }
      assert !WonBy(h.wins, s.hash);
      hide WonBy, OpenFor;
    }
  }

  lemma StepStands(h: History, s: Step)
    requires Inv(h) && Standing(h) && Legal(h, s)
    ensures Standing(Apply(h, s))
  {
    match s
    case IssueStep(_, _, _, _, _, _) => IssueStands(h, s);
    case ClaimStep(_, _) => ClaimStands(h, s);
    case ExpireStep(_) =>
    case RevokeStep(_, _) =>
    case PurgeStep(_, _) =>
  }

  lemma {:induction false} HistoryStands(h: History, steps: seq<Step>)
    requires Inv(h) && Standing(h) && LegalHistory(h, steps)
    ensures Standing(After(h, steps)) && Inv(After(h, steps))
    decreases |steps|
  {
    if steps != [] {
      StepStands(h, steps[0]);
      StepInv(h, steps[0]);
      HistoryStands(Apply(h, steps[0]), steps[1..]);
    }
  }

  // After any history a claim wins if and only if the token was issued, its time has not come, and
  // nobody has won or revoked it; the row it wins is CONSUMED then, and nothing else changes. A
  // claim that does not win changes nothing.
  lemma ClaimWinsExactlyWhenStanding(steps: seq<Step>, hash: string, now: int)
    requires LegalHistory(EMPTY, steps) && now >= After(EMPTY, steps).clock
    ensures var h := After(EMPTY, steps);
            var g := Apply(h, ClaimStep(hash, now));
            && (g.wins != h.wins <==>
                  hash in h.minted && now < h.minted[hash] && !WonBy(h.wins, hash) && hash !in h.revoked)
            && (g.wins == h.wins ==> g.rows == h.rows)
            && (g.wins != h.wins ==>
                  && g.wins == h.wins + [Win(hash, now, h.minted[hash])]
                  && hash in h.rows && g.rows.Keys == h.rows.Keys
                  && (forall k :: k in h.rows && k != hash ==> g.rows[k] == h.rows[k])
                  && g.rows[hash] == h.rows[hash].(status := CONSUMED, consumedAt := Some(now), updatedAt := now))
            && g.minted == h.minted && g.revoked == h.revoked
  {
    HistoryStands(EMPTY, steps);
    hide WonBy;
  }

  // What is revoked was revoked by a step that was let through: one that found the row, not consumed.
  lemma RevokeExactlyWhen(t: Table, hash: string, now: int)
    ensures var r := Revoke(t, hash, now);
            && (r == Err(NoSuchEnrollment) <==> hash !in t)
            && (r == Err(AlreadyConsumed) <==> hash in t && t[hash].status == CONSUMED)
            && (r.Ok? <==> hash in t && t[hash].status != CONSUMED)
            && (r.Ok? ==>
                  && r.value.Keys == t.Keys && r.value[hash].status == REVOKED
                  && (forall k :: k in t && k != hash ==> r.value[k] == t[k])
                  && (t[hash].status == REVOKED ==> r.value == t)
                  && (t[hash].status != REVOKED ==> r.value[hash] == t[hash].(status := REVOKED, updatedAt := now)))
  {
  }

  // A sweep closes exactly the open invitations whose time has come; a purge deletes exactly the
  // closed ones last touched before its cutoff.
  lemma HousekeepingExactlyWhen(t: Table, now: int)
    ensures var swept, purged := ExpireStale(t, now), PurgeSettled(t, now);
            && swept.Keys == t.Keys
            && (forall k :: k in t ==>
                  if t[k].status == PENDING && t[k].expiresAt <= now
                  then swept[k] == t[k].(status := EXPIRED, updatedAt := now)
                  else swept[k] == t[k])
            && (forall k :: k in purged <==> k in t && (t[k].status == PENDING || t[k].updatedAt >= now))
            && (forall k :: k in purged ==> purged[k] == t[k])
  {
  }

  // Under any interleaving, a token is won at most once, and never at or after the expiry it was
  // issued with, even if its row has been purged since.
  lemma TokenWonAtMostOnce(steps: seq<Step>, i: nat)
    requires LegalHistory(EMPTY, steps) && i < |After(EMPTY, steps).wins|
    ensures var h := After(EMPTY, steps);
            && h.wins[i].hash in h.minted
            && h.wins[i].at < h.minted[h.wins[i].hash]
            && forall j :: 0 <= j < |h.wins| && j != i ==> h.wins[j].hash != h.wins[i].hash
  {
    HistoryInv(EMPTY, steps);
  }

  // A name has at most one open invitation, and the rows marked CONSUMED are the ones won.
  lemma OneOpenInvitationPerName(steps: seq<Step>)
    requires LegalHistory(EMPTY, steps)
    ensures var h := After(EMPTY, steps);
            && OnePerName(h.rows)
            && forall k :: k in h.rows ==>
                 (h.rows[k].status == CONSUMED <==> WonBy(h.wins, k))
  {
    HistoryInv(EMPTY, steps);
  }

  // A row leaves PENDING at most once; a claim or a sweep never reopens or re-closes one, and only
  // a revocation may turn EXPIRED into REVOKED.
  ghost predicate RowEvolves(a: Invitation, b: Invitation) {
    && b.nodeName == a.nodeName && b.expiresAt == a.expiresAt
    && (b.status == PENDING ==> b == a)
    && (a.status == CONSUMED ==> b == a)
    && (a.status == REVOKED ==> b == a)
    && (a.status == EXPIRED ==> b == a || b.status == REVOKED)
  }

  ghost predicate TableEvolves(p: Table, minted: map<string, int>, q: Table) {
    forall k :: k in q && k in minted ==> k in p && RowEvolves(p[k], q[k])
  }

  lemma StepEvolves(h: History, s: Step)
    requires Inv(h) && Legal(h, s)
    ensures TableEvolves(h.rows, h.minted, Apply(h, s).rows)
    ensures forall k :: k in h.minted ==> k in Apply(h, s).minted
  {
  }

  lemma {:induction false} HistoryEvolves(h: History, steps: seq<Step>)
    requires Inv(h) && LegalHistory(h, steps)
    ensures TableEvolves(h.rows, h.minted, After(h, steps).rows)
    decreases |steps|
  {
    if steps != [] {
      StepInv(h, steps[0]);
      StepEvolves(h, steps[0]);
      HistoryEvolves(Apply(h, steps[0]), steps[1..]);
    }
  }

  // Right after a sweep, a name is taken only by an invitation that can still be claimed.
  lemma SweepFreesNames(t: Table, name: string, now: int)
    ensures OpenFor(ExpireStale(t, now), name) <==> exists h :: h in t && t[h].nodeName == name && Claimable(t[h], now)
  {
    var swept := ExpireStale(t, now);
    if OpenFor(swept, name) {
      var h :| h in swept && swept[h].nodeName == name && swept[h].status == PENDING;
      assert Claimable(t[h], now);
    }
    if exists h :: h in t && t[h].nodeName == name && Claimable(t[h], now) {
      var h :| h in t && t[h].nodeName == name && Claimable(t[h], now);
      assert swept[h] == t[h];
    }
  }

  // Issuing is refused for a registered name that is not to be enrolled again, and then for a name
  // with an invitation that can still be claimed; in no other case.
  lemma IssueRefusedExactlyWhenTaken(t: Table, nodes: set<string>, name: string, reenroll: bool, hash: string,
                                     ttl: int, now: int)
    ensures var r := Issue(t, nodes, name, reenroll, hash, ttl, now);
            var registered := name in nodes && !reenroll;
            var invited := exists h :: h in t && t[h].nodeName == name && Claimable(t[h], now);
            && (r == Err(AlreadyRegistered) <==> registered)
            && (r == Err(AlreadyOpen) <==> !registered && invited)
            && (r.Ok? <==> !registered && !invited)
            && (r.Ok? ==>
                  && r.value.Keys == t.Keys + {hash}
                  && r.value[hash] == Invitation(name, PENDING, now + ttl, None, now)
                  && (ttl > 0 ==> Claimable(r.value[hash], now))
                  && forall k :: k in t && k != hash ==> r.value[k] == ExpireStale(t, now)[k])
  {
    SweepFreesNames(t, name, now);
  }
}
