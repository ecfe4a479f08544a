/**
 Refresh tokens: rotation within a family, revocation, and what a run of logins, refreshes
 and logouts keeps.
 */
module Tokens {
  import opened Prelude

  type Hash = nat
  type UserId = nat
  type Family = nat
  type Time = int

  datatype Token = Token(userId: UserId, family: Family, expiresAt: Time, revokedAt: Option<Time>)

  /** The rows by token hash; `issued` and `families` remember every hash and family ever handed out. */
  type Rows = map<Hash, Token>

  predicate Unrevoked(rows: Rows, h: Hash) {
    h in rows && rows[h].revokedAt.None?
  }

  predicate Live(rows: Rows, h: Hash, now: Time) {
    Unrevoked(rows, h) && now <= rows[h].expiresAt
  }

  function FamilyRevoked(rows: Rows, f: Family, now: Time): Rows {
    map h | h in rows ::
      if rows[h].family == f && rows[h].revokedAt.None? then rows[h].(revokedAt := Some(now)) else rows[h]
  }

  function UserRevoked(rows: Rows, u: UserId, now: Time): Rows {
    map h | h in rows ::
      if rows[h].userId == u && rows[h].revokedAt.None? then rows[h].(revokedAt := Some(now)) else rows[h]
  }

  // ----- the handlers on values

  function OnLogin(rows: Rows, user: UserId, hash: Hash, family: Family, ttl: int, now: Time): Rows {
    rows[hash := Token(user, family, now + ttl, None)]
  }

  /** `completes`: the user still exists and the successor could be issued and stored. */
  function OnRefresh(rows: Rows, hash: Hash, next: Hash, completes: bool, ttl: int, now: Time): Rows {
    if !Live(rows, hash, now) then
      if hash in rows then FamilyRevoked(rows, rows[hash].family, now) else rows
    else RefreshRest(rows, rows[hash], hash, next, completes, ttl, now)
  }

  /** What a refresh does after it has read a live token t. */
  function RefreshRest(rows: Rows, t: Token, hash: Hash, next: Hash, completes: bool, ttl: int, now: Time): Rows {
    var spent := if hash in rows then rows[hash := rows[hash].(revokedAt := Some(now))] else rows;
    if completes then spent[next := Token(t.userId, t.family, now + ttl, None)] else spent
  }

  function OnLogout(rows: Rows, user: UserId, presented: Option<Hash>, now: Time): Rows {
    match presented
    case None => UserRevoked(rows, user, now)
    case Some(h) =>
      if h in rows && rows[h].userId == user && rows[h].revokedAt.None? then FamilyRevoked(rows, rows[h].family, now)
      else rows
  }

  function Pruned(rows: Rows, now: Time): Rows {
    map h | h in rows && !(rows[h].expiresAt < now) :: rows[h]
  }

  class TokenStore {
    var rows: Rows

    constructor ()
      ensures rows == map[]
    {
      rows := map[];
    }

    method Create(hash: Hash, t: Token)
      modifies this
      ensures rows == old(rows)[hash := t]
    {
      rows := rows[hash := t];
    }

    method GetByHash(hash: Hash) returns (r: Option<Token>)
      ensures r == if hash in rows then Some(rows[hash]) else None
    {
      r := if hash in rows then Some(rows[hash]) else None;
    }

    method Revoke(hash: Hash, now: Time)
      modifies this
      ensures rows == if hash in old(rows) then old(rows)[hash := old(rows)[hash].(revokedAt := Some(now))]
                else old(rows)
    {
      if hash in rows {
        rows := rows[hash := rows[hash].(revokedAt := Some(now))];
      }
    }

    method RevokeFamily(f: Family, now: Time)
      modifies this
      ensures rows == FamilyRevoked(old(rows), f, now)
    {
      rows := map h | h in rows ::
        if rows[h].family == f && rows[h].revokedAt.None? then rows[h].(revokedAt := Some(now)) else rows[h];
    }

    method RevokeAllForUser(u: UserId, now: Time)
      modifies this
      ensures rows == UserRevoked(old(rows), u, now)
    {
      rows := map h | h in rows ::
        if rows[h].userId == u && rows[h].revokedAt.None? then rows[h].(revokedAt := Some(now)) else rows[h];
    }

    method DeleteExpired(now: Time)
      modifies this
      ensures rows == Pruned(old(rows), now)
    {
      rows := map h | h in rows && rows[h].expiresAt >= now :: rows[h];
    }
  }

  class AuthHandlers {
    const tokens: TokenStore
    const ttl: int

    constructor (tokens: TokenStore, ttl: int)
      ensures this.tokens == tokens && this.ttl == ttl
    {
      this.tokens, this.ttl := tokens, ttl;
    }

    /** The token part of a registration or login that succeeds: a new family with one token. */
    method HandleLogin(user: UserId, hash: Hash, family: Family, now: Time)
      modifies tokens
      ensures tokens.rows == OnLogin(old(tokens.rows), user, hash, family, ttl, now)
    {
      tokens.Create(hash, Token(user, family, now + ttl, None));
    }

    /** Whether the client got a new pair of tokens. */
    method HandleRefresh(hash: Hash, next: Hash, completes: bool, now: Time) returns (ok: bool)
      modifies tokens
      ensures tokens.rows == OnRefresh(old(tokens.rows), hash, next, completes, ttl, now)
      ensures ok <==> Live(old(tokens.rows), hash, now) && completes
    {
      var rt := tokens.GetByHash(hash);
      if rt.None? || rt.value.revokedAt.Some? || now > rt.value.expiresAt {
        if rt.Some? {
          tokens.RevokeFamily(rt.value.family, now);
        }
        return false;
      }
      tokens.Revoke(hash, now);
      if !completes {
        return false;
      }
      tokens.Create(next, Token(rt.value.userId, rt.value.family, now + ttl, None));
      return true;
    }

    method HandleLogout(user: UserId, presented: Option<Hash>, now: Time)
      modifies tokens
      ensures tokens.rows == OnLogout(old(tokens.rows), user, presented, now)
    {
      if presented.Some? {
        var rt := tokens.GetByHash(presented.value);
        if rt.Some? && rt.value.userId == user && rt.value.revokedAt.None? {
          tokens.RevokeFamily(rt.value.family, now);
        }
      } else {
        tokens.RevokeAllForUser(user, now);
      }
    }
  }

  // ----- whole runs, each handler one step

  datatype Event =
    | Login(user: UserId, hash: Hash, family: Family, time: Time)
    | Refresh(hash: Hash, next: Hash, completes: bool, time: Time)
    | Logout(user: UserId, presented: Option<Hash>, time: Time)
    | Prune(time: Time)

  datatype State = State(rows: Rows, issued: set<Hash>, families: set<Family>)

  const EMPTY := State(map[], {}, {})

  /** New hashes and families are new; an event that would reuse one changes nothing. */
  predicate Possible(s: State, e: Event) {
    match e
    case Login(_, hash, family, _) => hash !in s.issued && family !in s.families
    case Refresh(_, next, _, _) => next !in s.issued
    case _ => true
  }

  function Step(s: State, ttl: int, e: Event): State {
    if !Possible(s, e) then s
    else
      match e
      case Login(user, hash, family, now) =>
        State(OnLogin(s.rows, user, hash, family, ttl, now), s.issued + {hash}, s.families + {family})
      case Refresh(hash, next, completes, now) =>
        s.(rows := OnRefresh(s.rows, hash, next, completes, ttl, now), issued := s.issued + {next})
      case Logout(user, presented, now) => s.(rows := OnLogout(s.rows, user, presented, now))
      case Prune(now) => s.(rows := Pruned(s.rows, now))
  }

  function Run(s: State, ttl: int, es: seq<Event>): State {
    if es == [] then s else Step(Run(s, ttl, es[..|es| - 1]), ttl, es[|es| - 1])
  }

  ghost predicate Rotating(s: State) {
    && (forall h | h in s.rows :: h in s.issued && s.rows[h].family in s.families)
    && (forall g, h | Unrevoked(s.rows, g) && Unrevoked(s.rows, h) && s.rows[g].family == s.rows[h].family :: g == h)
  }

  lemma StepKeepsRotating(s: State, ttl: int, e: Event)
    requires Rotating(s)
    ensures Rotating(Step(s, ttl, e))
  {
  }

  /** In every reachable state every family has at most one token that is not revoked. */
  lemma {:induction false} OneUnrevokedPerFamily(s: State, ttl: int, es: seq<Event>)
    requires Rotating(s)
    ensures Rotating(Run(s, ttl, es))
  {
    if es != [] {
      OneUnrevokedPerFamily(s, ttl, es[..|es| - 1]);
      StepKeepsRotating(Run(s, ttl, es[..|es| - 1]), ttl, es[|es| - 1]);
    }
  }

  // ----- a token refreshes once

  predicate Succeeds(s: State, e: Event) {
    e.Refresh? && Possible(s, e) && Live(s.rows, e.hash, e.time) && e.completes
  }

  /** Handed out before, and no longer good for anything. */
  predicate Spent(s: State, h: Hash) {
    h in s.issued && !Unrevoked(s.rows, h)
  }

  lemma {:induction false} SpentStaysSpent(s: State, ttl: int, es: seq<Event>, h: Hash)
    requires Spent(s, h)
    ensures Spent(Run(s, ttl, es), h)
  {
    if es != [] {
      SpentStaysSpent(s, ttl, es[..|es| - 1], h);
    }
  }

  lemma {:induction false} RunConcat(s: State, ttl: int, a: seq<Event>, b: seq<Event>)
    ensures Run(s, ttl, a + b) == Run(Run(s, ttl, a), ttl, b)
  {
    if b == [] {
      assert a + b == a;
    } else {
      RunConcat(s, ttl, a, b[..|b| - 1]);
      assert (a + b)[..|a + b| - 1] == a + b[..|b| - 1];
    }
  }

  /** Over any run, no two refreshes with the same token both succeed. */
  lemma RefreshesAtMostOnce(s: State, ttl: int, es: seq<Event>, i: nat, k: nat)
    requires Rotating(s) && i < k < |es|
    requires Succeeds(Run(s, ttl, es[..i]), es[i]) && es[k].Refresh? && es[k].hash == es[i].hash
    ensures !Succeeds(Run(s, ttl, es[..k]), es[k])
  {
    var before, h := Run(s, ttl, es[..i]), es[i].hash;
    OneUnrevokedPerFamily(s, ttl, es[..i]);
    var after := Step(before, ttl, es[i]);
    assert es[..i + 1][..i] == es[..i];
    assert Run(s, ttl, es[..i + 1]) == after && Spent(after, h);
    SpentStaysSpent(after, ttl, es[i + 1..k], h);
    RunConcat(s, ttl, es[..i + 1], es[i + 1..k]);
    assert es[..i + 1] + es[i + 1..k] == es[..k];
  }

  // ----- a family that is dead stays dead

  ghost predicate Dead(s: State, f: Family) {
    f in s.families && forall h | h in s.rows && s.rows[h].family == f :: s.rows[h].revokedAt.Some?
  }

  lemma {:induction false} DeadStaysDead(s: State, ttl: int, es: seq<Event>, f: Family)
    requires Rotating(s) && Dead(s, f)
    ensures Dead(Run(s, ttl, es), f)
  {
    if es != [] {
      DeadStaysDead(s, ttl, es[..|es| - 1], f);
      OneUnrevokedPerFamily(s, ttl, es[..|es| - 1]);
    }
  }

  /** Replaying a spent token, or presenting an expired one, kills its family for good. */
  lemma ReplayKillsFamily(s: State, ttl: int, e: Event, es: seq<Event>)
    requires Rotating(s) && e.Refresh? && Possible(s, e) && e.hash in s.rows && !Live(s.rows, e.hash, e.time)
    ensures Dead(Run(Step(s, ttl, e), ttl, es), s.rows[e.hash].family)
  {
    StepKeepsRotating(s, ttl, e);
    DeadStaysDead(Step(s, ttl, e), ttl, es, s.rows[e.hash].family);
  }

  /** A refresh that spends the token but fails to store its successor also ends the family. */
  lemma LostSuccessorEndsFamily(s: State, ttl: int, e: Event, es: seq<Event>)
    requires Rotating(s) && e.Refresh? && Possible(s, e) && Live(s.rows, e.hash, e.time) && !e.completes
    ensures Dead(Run(Step(s, ttl, e), ttl, es), s.rows[e.hash].family)
  {
    StepKeepsRotating(s, ttl, e);
    var s', f := Step(s, ttl, e), s.rows[e.hash].family;
    assert Unrevoked(s.rows, e.hash);
    assert forall h | Unrevoked(s.rows, h) && s.rows[h].family == f :: h == e.hash;
    DeadStaysDead(s', ttl, es, f);
  }

  /** Logging out with a token ends its family exactly when the token is the user's and is the family's current one. */
  lemma LogoutEndsFamilyIff(s: State, ttl: int, user: UserId, h: Hash, f: Family, now: Time)
    requires Rotating(s) && h in s.rows && f == s.rows[h].family && !Dead(s, f)
    ensures Dead(Step(s, ttl, Logout(user, Some(h), now)), f) <==> s.rows[h].userId == user && s.rows[h].revokedAt.None?
  {
  }

  /** Logging out without one ends every family whose tokens are all this user's. */
  lemma LogoutEverywhere(s: State, ttl: int, user: UserId, f: Family, now: Time, es: seq<Event>)
    requires Rotating(s) && f in s.families && forall h | h in s.rows && s.rows[h].family == f ::
               s.rows[h].userId == user
    ensures Dead(Run(Step(s, ttl, Logout(user, None, now)), ttl, es), f)
  {
    StepKeepsRotating(s, ttl, Logout(user, None, now));
    DeadStaysDead(Step(s, ttl, Logout(user, None, now)), ttl, es, f);
  }

  /** The read and the writes of a refresh are separate statements: two that both read first fork the family. */
  lemma ConcurrentRefreshesFork(rows: Rows, h: Hash, a: Hash, b: Hash, ttl: int, now: Time)
    requires Live(rows, h, now) && a != b && a !in rows && b !in rows
    ensures var t := rows[h];
            var both := RefreshRest(RefreshRest(rows, t, h, a, true, ttl, now), t, h, b, true, ttl, now);
            Unrevoked(both, a) && Unrevoked(both, b) && both[a].family == both[b].family
  {
  }
}
