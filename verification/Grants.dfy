/** Standing grants: a table with one live row per tuple, looked up by tuple. */
module Grants {
  import opened ByteStrings
  import opened Wrappers
  import opened Domain
  import opened Policy

  datatype Tuple = Tuple(agent: Id, credential: Bytes, action: ActionKind, origin: Origin)

  datatype Grant = Grant(
    tuple: Tuple, agentName: Bytes, riskCeiling: RiskLevel, requirePresence: bool,
    createdAt: int, expiresAt: int, revokedAt: Option<int>, lastUsedAt: Option<int>, useCount: nat)
  {
    predicate IsLive() {
      revokedAt == None
    }

    predicate IsActiveAt(now: int) {
      IsLive() && now < expiresAt
    }

    predicate Covers(t: Tuple, risk: RiskLevel, now: int) {
      && IsActiveAt(now) && !requirePresence && tuple == t
      && risk.Rank() <= riskCeiling.Rank() && risk.Rank() <= MAX_GRANTABLE.Rank()
    }
  }

  const MAX_GRANTABLE: RiskLevel := Medium

  type Rows = map<Id, Grant>

  datatype Selector = ById(id: Id) | ByAgent(name: Bytes) | ByCredential(credential: Bytes) | All

  predicate Selects(s: Selector, id: Id, g: Grant) {
    match s
    case ById(wanted) => id == wanted
    case ByAgent(name) => g.agentName == name || g.tuple.agent == name
    case ByCredential(credential) => g.tuple.credential == credential
    case All => true
  }

  predicate Targeted(s: Selector, rows: Rows, id: Id) {
    id in rows && rows[id].IsLive() && Selects(s, id, rows[id])
  }

  // ----------------------------------------------------------- transactions

  function Superseded(rows: Rows, t: Tuple, at: int): Rows {
    map id | id in rows ::
      if rows[id].IsLive() && rows[id].tuple == t then rows[id].(revokedAt := Some(at)) else rows[id]
  }

  function Insert(rows: Rows, id: Id, g: Grant): Option<Rows> {
    if id in rows then None else Some(Superseded(rows, g.tuple, g.createdAt)[id := g])
  }

  function RevokeIds(rows: Rows, ids: set<Id>, at: int): Rows {
    map id | id in rows :: if id in ids && rows[id].IsLive() then rows[id].(revokedAt := Some(at)) else rows[id]
  }

  function TargetedIds(s: Selector, rows: Rows): set<Id> {
    set id | id in rows && Targeted(s, rows, id)
  }

  function Revoke(rows: Rows, s: Selector, at: int): Rows {
    RevokeIds(rows, TargetedIds(s, rows), at)
  }

  function Touch(rows: Rows, id: Id, at: int): Rows {
    if id in rows then rows[id := rows[id].(lastUsedAt := Some(at), useCount := rows[id].useCount + 1)] else rows
  }

  class GrantTable {
    var rows: Rows

    constructor ()
      ensures rows == map[]
    {
      rows := map[];
    }

    /** Supersede, insert, record, commit; `commits` is false when recording or
        committing fails. */
    method InsertWithAudit(id: Id, g: Grant, commits: bool) returns (done: bool)
      requires g.IsLive()
      modifies this
      ensures done == (commits && Insert(old(rows), id, g).Some?)
      ensures rows == if done then Insert(old(rows), id, g).value else old(rows)
    {
      var work := rows;
      var pending := rows.Keys;
      while pending != {}
        invariant pending <= rows.Keys == work.Keys
        invariant forall k <- work ::
                    work[k] == if k in pending then rows[k] else Superseded(rows, g.tuple, g.createdAt)[k]
        decreases |pending|
      {
        var k :| k in pending;
        if work[k].revokedAt == None && work[k].tuple == g.tuple {
          work := work[k := work[k].(revokedAt := Some(g.createdAt))];
        }
        pending := pending - {k};
      }
      assert work == Superseded(rows, g.tuple, g.createdAt);
      if id in work || !commits {
        return false;
      }
      rows := work[id := g];
      return true;
    }

    /** `LIMIT 1`: any live row with this tuple. */
    method FindMatching(t: Tuple) returns (found: Option<Id>)
      ensures found.Some? ==> found.value in rows && rows[found.value].IsLive() && rows[found.value].tuple == t
      ensures found == None ==> forall id <- rows :: !(rows[id].IsLive() && rows[id].tuple == t)
    {
      var pending := rows.Keys;
      while pending != {}
        invariant pending <= rows.Keys
        invariant forall id <- rows.Keys - pending :: !(rows[id].IsLive() && rows[id].tuple == t)
        decreases |pending|
      {
        var id :| id in pending;
        if rows[id].IsLive() && rows[id].tuple == t {
          return Some(id);
        }
        pending := pending - {id};
      }
      return None;
    }

    /** `matching_standing_grant`: the indexed lookup, then `covers`. On a table
        with one live grant per tuple it is as good as looking at every row. */
    method MatchingGrant(t: Tuple, risk: RiskLevel, now: int) returns (found: Option<Id>)
      requires OneLive(rows)
      ensures found.Some? ==> found.value in rows && rows[found.value].Covers(t, risk, now)
      ensures found == None <==> forall id <- rows :: !rows[id].Covers(t, risk, now)
    {
      if risk.Rank() > MAX_GRANTABLE.Rank() {
        return None;
      }
      var candidate := FindMatching(t);
      if candidate.Some? && rows[candidate.value].Covers(t, risk, now) {
        return candidate;
      }
      return None;
    }

    /** List the targets, then revoke them row by row. */
    method RevokeGrants(s: Selector, at: int) returns (revoked: set<Id>)
      modifies this
      ensures rows == Revoke(old(rows), s, at) && revoked == TargetedIds(s, old(rows))
    {
      hide Selects;
      revoked := TargetedIds(s, rows);
      RevokeListed(revoked, at);
    }

    /** The loop of `UPDATE … WHERE grant_id = ? AND revoked_at IS NULL`. */
    method RevokeListed(ids: set<Id>, at: int)
      modifies this
      ensures rows == RevokeIds(old(rows), ids, at)
    {
      ghost var before := rows;
      var pending := ids;
      while pending != {}
        invariant pending <= ids && rows.Keys == before.Keys
        invariant forall id <- before.Keys - (ids - pending) :: rows[id] == before[id]
        invariant forall id <- before.Keys * (ids - pending) ::
                    rows[id] == if before[id].IsLive() then before[id].(revokedAt := Some(at)) else before[id]
        decreases |pending|
      {
        var id :| id in pending;
        if id in rows && rows[id].revokedAt == None {
          rows := rows[id := rows[id].(revokedAt := Some(at))];
        }
        pending := pending - {id};
      }
      assert forall id <- before :: id in before.Keys * ids || id in before.Keys - ids;
    }
  }

  // ------------------------------------------------------------------- runs

  /** The invariant behind the partial unique index. */
  ghost predicate OneLive(rows: Rows) {
    forall a <- rows, b <- rows :: rows[a].IsLive() && rows[b].IsLive() && rows[a].tuple == rows[b].tuple ==> a == b
  }

  datatype Op =
    | DoInsert(id: Id, grant: Grant)
    | DoRevoke(selector: Selector, at: int)
    | DoRevokeListed(ids: set<Id>, at: int)
    | DoTouch(id: Id, at: int)

  function Apply(rows: Rows, op: Op): Rows {
    match op
    case DoInsert(id, grant) => (match Insert(rows, id, grant) case None => rows case Some(next) => next)
    case DoRevoke(selector, at) => Revoke(rows, selector, at)
    case DoRevokeListed(ids, at) => RevokeIds(rows, ids, at)
    case DoTouch(id, at) => Touch(rows, id, at)
  }

  function Run(rows: Rows, ops: seq<Op>): Rows
    decreases |ops|
  {
    if ops == [] then rows else Run(Apply(rows, ops[0]), ops[1..])
  }

  /** The same grant, now or later: it may have been used or revoked since. */
  predicate SameGrant(g: Grant, later: Grant) {
    && later == g.(revokedAt := later.revokedAt, lastUsedAt := later.lastUsedAt, useCount := later.useCount)
    && (!g.IsLive() ==> !later.IsLive())
  }

  ghost predicate Persist(rows: Rows, later: Rows) {
    forall id <- rows :: id in later && SameGrant(rows[id], later[id])
  }

  lemma ApplyKeeps(rows: Rows, op: Op)
    requires OneLive(rows)
    ensures OneLive(Apply(rows, op))
  {
  }

  lemma ApplyPersists(rows: Rows, op: Op)
    ensures Persist(rows, Apply(rows, op))
  {
  }

  /** Over any run, at most one live grant per tuple; no grant is lost or becomes
      another, and a revoked grant stays revoked. */
  lemma {:induction false} RunKeeps(rows: Rows, ops: seq<Op>)
    requires OneLive(rows)
    ensures OneLive(Run(rows, ops)) && Persist(rows, Run(rows, ops))
    decreases |ops|
  {
    hide OneLive, Apply;
    if ops != [] {
      ApplyKeeps(rows, ops[0]);
      ApplyPersists(rows, ops[0]);
      RunKeeps(Apply(rows, ops[0]), ops[1..]);
    }
  }

  /** Extending a grant replaces it: after an insert the new grant is the only
      live one for its tuple, and grants for other tuples are as they were. */
  lemma InsertExtends(rows: Rows, id: Id, g: Grant)
    requires Insert(rows, id, g).Some? && g.IsLive()
    ensures var next := Insert(rows, id, g).value;
            && next[id] == g
            && (forall k <- next :: next[k].IsLive() && next[k].tuple == g.tuple ==> k == id)
            && (forall k <- rows :: rows[k].tuple != g.tuple ==> next[k] == rows[k])
  {
  }

  /** Run in one go, a revocation leaves no live grant it selects, and touches no
      other. */
  lemma RevocationIsComplete(rows: Rows, s: Selector, at: int)
    ensures var next := Revoke(rows, s, at);
            && next.Keys == rows.Keys
            && (forall id <- next :: !Targeted(s, next, id))
            && (forall id <- rows :: !Targeted(s, rows, id) ==> next[id] == rows[id])
  {
  }

  /** The source lists and revokes under two locks. What an insert in between
      adds is left alone: a selected grant is live afterwards if and only if the
      insert added one. */
  lemma InsertDuringRevocationSurvives(rows: Rows, s: Selector, at: int, id: Id, g: Grant)
    requires Insert(rows, id, g).Some?
    ensures var after := RevokeIds(Insert(rows, id, g).value, TargetedIds(s, rows), at);
            (exists k :: Targeted(s, after, k)) <==> g.IsLive() && Selects(s, id, g)
  {
    var between := Insert(rows, id, g).value;
    var after := RevokeIds(between, TargetedIds(s, rows), at);
    assert id !in rows && after[id] == g;
    if g.IsLive() && Selects(s, id, g) {
      assert Targeted(s, after, id);
    }
    forall k | Targeted(s, after, k)
      ensures k == id
    {
    }
  }
}
