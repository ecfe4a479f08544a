/**
 Bringing the agent rows of a device in line with what it reports when it connects, and
 filling its pool up.
 */
module Reconcile {
  import opened Stores
  import Pool

  const FIRST_PORT: int := 42000
  const CREATE_GRACE: int := 120

  /** The statuses that do not count: failed and drained. */
  predicate Counts(a: Agent) {
    a.status !in {AgentFailed, Drained}
  }

  function Counted(agents: Agents, device: DeviceId): set<AgentId> {
    set a | a in agents && agents[a].deviceId == device && Counts(agents[a])
  }

  function Promoted(agents: Agents, device: DeviceId, hello: set<AgentId>, now: Time): Agents {
    map a | a in agents ::
      if agents[a].deviceId == device && a in hello && agents[a].status == Creating
      then agents[a].(status := Idle, updatedAt := now) else agents[a]
  }

  /** Rows the device does not report: idle ones, and creating ones past their grace period. */
  predicate Stale(agents: Agents, device: DeviceId, hello: set<AgentId>, a: AgentId, now: Time)
    requires a in agents
  {
    && agents[a].deviceId == device && a !in hello
    && (agents[a].status == Idle || (agents[a].status == Creating && agents[a].createdAt < now - CREATE_GRACE))
  }

  /** The foreign key keeps a stale row that some job still names. */
  function Doomed(t: Tables, device: DeviceId, hello: set<AgentId>, now: Time): set<AgentId> {
    set a | a in t.agents && Stale(t.agents, device, hello, a, now) && !Referenced(t, a)
  }

  /** Rows for slots i..desired, stopping at the first port that is taken. ids names new rows by slot. */
  function Filled(agents: Agents, device: DeviceId, i: int, desired: int, ids: int -> AgentId,
                  now: Time): (Agents, bool)
    decreases desired - i
  {
    if i >= desired then (agents, true)
    else if PortTaken(agents, device, FIRST_PORT + i) then (agents, false)
    else Filled(agents[ids(i) := NewAgent(device, FIRST_PORT + i, now)], device, i + 1, desired, ids, now)
  }

  function Ensured(agents: Agents, device: DeviceId, desired: int, ids: int -> AgentId, now: Time): (Agents, bool) {
    Filled(agents, device, |Counted(agents, device)|, desired, ids, now)
  }

  function Kept(t: Tables, device: DeviceId, hello: set<AgentId>, now: Time): Agents {
    Promoted(t.agents, device, hello, now) - Doomed(t, device, hello, now)
  }

  function Reconciled(t: Tables, device: DeviceId, hello: set<AgentId>, ids: int -> AgentId,
                      now: Time): (Agents, bool) {
    var kept := Kept(t, device, hello, now);
    if Doomed(t, device, hello, now) != {} then Ensured(kept, device, |OfDevice(t.agents, device)|, ids, now)
    else if Counted(kept, device) == {} then (Ensured(kept, device, 1, ids, now).0, true)
    else (kept, true)
  }

  /** Row ids handed out are new. */
  ghost predicate NewIds(agents: Agents, ids: int -> AgentId) {
    && (forall i, k :: ids(i) == ids(k) ==> i == k)
    && (forall i :: ids(i) !in agents)
  }

  // ----- filling up

  predicate SlotFree(agents: Agents, device: DeviceId, i: int) {
    !PortTaken(agents, device, FIRST_PORT + i)
  }

  ghost predicate NewFrom(agents: Agents, i: int, ids: int -> AgentId) {
    && (forall x, k :: ids(x) == ids(k) ==> x == k)
    && forall k | i <= k :: ids(k) !in agents
  }

  /** Filling only adds rows, one creating row per slot. */
  lemma {:induction false} FillAdds(agents: Agents, device: DeviceId, i: int, desired: int, ids: int -> AgentId,
                                    now: Time)
    requires NewFrom(agents, i, ids)
    ensures var r := Filled(agents, device, i, desired, ids, now).0;
            && agents.Keys <= r.Keys
            && (forall a | a in agents :: r[a] == agents[a])
            && (forall a | a in r && a !in agents :: exists k ::
                i <= k < desired && a == ids(k) && r[a] == NewAgent(device, FIRST_PORT + k, now))
    decreases desired - i
  {
    if i < desired && SlotFree(agents, device, i) {
      FillAdds(agents[ids(i) := NewAgent(device, FIRST_PORT + i, now)], device, i + 1, desired, ids, now);
    }
  }

  /** It succeeds exactly when every slot's port is free. */
  lemma {:induction false} FillSucceedsIff(agents: Agents, device: DeviceId, i: int, desired: int,
                                           ids: int -> AgentId, now: Time)
    requires NewFrom(agents, i, ids)
    ensures Filled(agents, device, i, desired, ids, now).1 <==>
              forall k | i <= k < desired :: SlotFree(agents, device, k)
    decreases desired - i
  {
    if i < desired && SlotFree(agents, device, i) {
      var next := agents[ids(i) := NewAgent(device, FIRST_PORT + i, now)];
      FillSucceedsIff(next, device, i + 1, desired, ids, now);
      forall k | i < k < desired ensures SlotFree(next, device, k) <==> SlotFree(agents, device, k) {
        OtherSlot(agents, device, i, k, ids(i), now);
      }
    }
  }

  lemma {:induction false} FillCounts(agents: Agents, device: DeviceId, i: int, desired: int, ids: int -> AgentId,
                                      now: Time)
    requires NewFrom(agents, i, ids) && Filled(agents, device, i, desired, ids, now).1
    ensures |Counted(Filled(agents, device, i, desired, ids, now).0, device)| == |Counted(agents, device)|
              + if desired > i then desired - i else 0
    decreases desired - i
  {
    if i < desired {
      var next := agents[ids(i) := NewAgent(device, FIRST_PORT + i, now)];
      FillCounts(next, device, i + 1, desired, ids, now);
      OneMoreCounted(agents, device, ids(i), FIRST_PORT + i, now);
    }
  }

  lemma OneMoreCounted(agents: Agents, device: DeviceId, id: AgentId, port: int, now: Time)
    requires id !in agents
    ensures |Counted(agents[id := NewAgent(device, port, now)], device)| == |Counted(agents, device)| + 1
  {
    assert Counted(agents[id := NewAgent(device, port, now)], device) == Counted(agents, device) + {id};
  }

  lemma OtherSlot(agents: Agents, device: DeviceId, i: int, k: int, id: AgentId, now: Time)
    requires i != k && id !in agents
    ensures SlotFree(agents[id := NewAgent(device, FIRST_PORT + i, now)], device, k) <==> SlotFree(agents, device, k)
  {
    var next := agents[id := NewAgent(device, FIRST_PORT + i, now)];
    if PortTaken(agents, device, FIRST_PORT + k) {
      var a :| a in agents && agents[a].deviceId == device && agents[a].port == FIRST_PORT + k;
      assert next[a] == agents[a];
    }
  }

  // ----- what one reconciliation does

  /** Which rows stay, what becomes of them, and what the new ones are. */
  lemma ReconciledRows(t: Tables, device: DeviceId, hello: set<AgentId>, ids: int -> AgentId, now: Time)
    requires NewIds(t.agents, ids)
    ensures var after := Reconciled(t, device, hello, ids, now).0;
            && (forall a | a in t.agents :: a in after <==> a !in Doomed(t, device, hello, now))
            && (forall a | a in t.agents && a in after :: after[a] ==
                  if t.agents[a].deviceId == device && a in hello && t.agents[a].status == Creating
                  then t.agents[a].(status := Idle, updatedAt := now) else t.agents[a])
            && (forall a | a in after && a !in t.agents :: exists k ::
                a == ids(k) && after[a] == NewAgent(device, FIRST_PORT + k, now))
  {
    var kept := Kept(t, device, hello, now);
    KeptRows(t, device, hello, now);
    FillAdds(kept, device, |Counted(kept, device)|, Target(t, device, hello, now), ids, now);
    ReconciledIsFilled(t, device, hello, ids, now);
    forall a | a in Filled(kept, device, |Counted(kept, device)|, Target(t, device, hello, now), ids, now).0
      && a !in t.agents
      ensures a !in kept
    {
    }
  }

  /** The size the reconciliation fills the device up to; 0 when it leaves it as it is. */
  function Target(t: Tables, device: DeviceId, hello: set<AgentId>, now: Time): nat {
    if Doomed(t, device, hello, now) != {} then |OfDevice(t.agents, device)|
    else if Counted(Kept(t, device, hello, now), device) == {} then 1 else 0
  }

  lemma ReconciledIsFilled(t: Tables, device: DeviceId, hello: set<AgentId>, ids: int -> AgentId, now: Time)
    ensures var kept := Kept(t, device, hello, now);
            Reconciled(t, device, hello, ids, now).0
              == Filled(kept, device, |Counted(kept, device)|, Target(t, device, hello, now), ids, now).0
  {
  }

  lemma KeptRows(t: Tables, device: DeviceId, hello: set<AgentId>, now: Time)
    ensures var kept := Kept(t, device, hello, now);
            && kept.Keys == t.agents.Keys - Doomed(t, device, hello, now)
            && forall a | a in kept :: kept[a] ==
                 if t.agents[a].deviceId == device && a in hello && t.agents[a].status == Creating
                 then t.agents[a].(status := Idle, updatedAt := now) else t.agents[a]
  {
  }

  /**
   A row goes exactly when it is the device's, was not reported, no job names it, and it is idle
   or has been creating for more than two minutes.
   */
  lemma RowGoesIff(t: Tables, device: DeviceId, hello: set<AgentId>, ids: int -> AgentId, now: Time, a: AgentId)
    requires NewIds(t.agents, ids) && a in t.agents
    ensures a !in Reconciled(t, device, hello, ids, now).0 <==>
              && t.agents[a].deviceId == device && a !in hello && !Referenced(t, a)
              && (t.agents[a].status == Idle || (t.agents[a].status == Creating && t.agents[a].createdAt + 120 < now))
  {
    ReconciledRows(t, device, hello, ids, now);
  }

  /** Reconciliation is one more event that keeps jobs and agents exclusive. */
  lemma ReconcileKeepsExclusive(t: Tables, device: DeviceId, hello: set<AgentId>, ids: int -> AgentId, now: Time)
    requires NewIds(t.agents, ids) && Pool.Exclusive(t)
    ensures Pool.Exclusive(t.(agents := Reconciled(t, device, hello, ids, now).0))
  {
    ReconciledRows(t, device, hello, ids, now);
    FewerHoldersStayExclusive(t, Reconciled(t, device, hello, ids, now).0);
  }

  lemma FewerHoldersStayExclusive(t: Tables, after: Agents)
    requires Pool.Exclusive(t)
    requires forall a | a in after ::
               if a in t.agents then after[a].jobId == t.agents[a].jobId && after[a].userId == t.agents[a].userId
               else after[a].jobId.None? && after[a].userId.None?
    ensures Pool.Exclusive(t.(agents := after))
  {
    Pool.LettingGoKeepsUnshared(t.agents, after);
    forall a | a in after ensures Pool.Holds(t.(agents := after), a) {
      assert a in t.agents ==> Pool.Holds(t, a);
    }
  }

  function Uncounted(agents: Agents, device: DeviceId): set<AgentId> {
    OfDevice(agents, device) - Counted(agents, device)
  }

  lemma UncountedIsPart(agents: Agents, device: DeviceId)
    ensures Counted(agents, device) <= OfDevice(agents, device)
    ensures |OfDevice(agents, device)| == |Counted(agents, device)| + |Uncounted(agents, device)|
  {
    assert OfDevice(agents, device) == Counted(agents, device) + Uncounted(agents, device);
  }

  lemma SizesKept(t: Tables, device: DeviceId, hello: set<AgentId>, now: Time)
    ensures var kept := Kept(t, device, hello, now);
            && |OfDevice(kept, device)| == |OfDevice(t.agents, device)| - |Doomed(t, device, hello, now)|
            && |Counted(kept, device)| == |OfDevice(kept, device)| - |Uncounted(t.agents, device)|
  {
    KeptOfDevice(t, device, hello, now);
    KeptUncounted(t, device, hello, now);
    UncountedIsPart(Kept(t, device, hello, now), device);
  }

  lemma KeptOfDevice(t: Tables, device: DeviceId, hello: set<AgentId>, now: Time)
    ensures var doomed := Doomed(t, device, hello, now);
            && doomed <= OfDevice(t.agents, device)
            && OfDevice(Kept(t, device, hello, now), device) == OfDevice(t.agents, device) - doomed
  {
    KeptRows(t, device, hello, now);
  }

  lemma KeptUncounted(t: Tables, device: DeviceId, hello: set<AgentId>, now: Time)
    ensures Uncounted(Kept(t, device, hello, now), device) == Uncounted(t.agents, device)
  {
    KeptRows(t, device, hello, now);
  }

  /**
   When anything was deleted, refilling succeeds exactly when no kept row of the device has the
   port of a slot from the kept count up to the old number of rows; then the pool counts as many
   agents as it had rows, failed ones included.
   */
  lemma RefillSucceedsIff(t: Tables, device: DeviceId, hello: set<AgentId>, ids: int -> AgentId, now: Time)
    requires NewIds(t.agents, ids) && Doomed(t, device, hello, now) != {}
    ensures var kept, r := Kept(t, device, hello, now), Reconciled(t, device, hello, ids, now);
            && (r.1 <==> forall k | |Counted(kept, device)| <= k < |OfDevice(t.agents, device)| ::
                SlotFree(kept, device, k))
            && (r.1 ==> |Counted(r.0, device)| == |OfDevice(t.agents, device)|)
  {
    var kept := Kept(t, device, hello, now);
    SizesKept(t, device, hello, now);
    FillSucceedsIff(kept, device, |Counted(kept, device)|, |OfDevice(t.agents, device)|, ids, now);
    if Reconciled(t, device, hello, ids, now).1 {
      FillCounts(kept, device, |Counted(kept, device)|, |OfDevice(t.agents, device)|, ids, now);
    }
  }

  /** In a pool with ports 42000 to 42000 + n - 1, replacing one vanished agent works only if it had the last port. */
  lemma OnlyLastPortIsReplaced(t: Tables, device: DeviceId, hello: set<AgentId>, ids: int -> AgentId, now: Time,
                               gone: AgentId)
    requires NewIds(t.agents, ids) && Doomed(t, device, hello, now) == {gone}
    requires OfDevice(t.agents, device) == Counted(t.agents, device)
    requires forall a | a in OfDevice(t.agents, device) ::
               FIRST_PORT <= t.agents[a].port < FIRST_PORT + |OfDevice(t.agents, device)|
    requires forall k | 0 <= k < |OfDevice(t.agents, device)| :: !SlotFree(t.agents, device, k)
    requires forall a, b | a in OfDevice(t.agents, device) && b in OfDevice(t.agents, device) ::
               t.agents[a].port == t.agents[b].port ==> a == b
    ensures Reconciled(t, device, hello, ids, now).1 <==>
              t.agents[gone].port == FIRST_PORT + |OfDevice(t.agents, device)| - 1
  {
    var n, kept := |OfDevice(t.agents, device)|, Kept(t, device, hello, now);
    assert gone in Doomed(t, device, hello, now);
    SizesKept(t, device, hello, now);
    RefillSucceedsIff(t, device, hello, ids, now);
    assert |Counted(kept, device)| == n - 1;
    assert !SlotFree(t.agents, device, n - 1);
    var last :| last in t.agents && t.agents[last].deviceId == device && t.agents[last].port == FIRST_PORT + (n - 1);
    if last != gone {
      assert kept[last].port == FIRST_PORT + (n - 1);
      assert !SlotFree(kept, device, n - 1);
    } else {
      assert SlotFree(kept, device, n - 1);
    }
  }

  /**
   Each successful reconciliation that deletes something adds as
   many rows to the device as it has failed or drained ones.
   */
  lemma PoolGrowsByUncountedRows(t: Tables, device: DeviceId, hello: set<AgentId>, ids: int -> AgentId, now: Time)
    requires NewIds(t.agents, ids) && Doomed(t, device, hello, now) != {} && Reconciled(t, device, hello, ids, now).1
    ensures |OfDevice(Reconciled(t, device, hello, ids, now).0, device)|
            == |OfDevice(t.agents, device)| + |Uncounted(t.agents, device)|
  {
    var after := Reconciled(t, device, hello, ids, now).0;
    RefillSucceedsIff(t, device, hello, ids, now);
    UncountedRowsStay(t, after, device, hello, ids, now);
    UncountedIsPart(after, device);
  }

  lemma UncountedRowsStay(t: Tables, after: Agents, device: DeviceId, hello: set<AgentId>, ids: int -> AgentId,
                          now: Time)
    requires after == Reconciled(t, device, hello, ids, now).0 && NewIds(t.agents, ids)
    ensures Uncounted(after, device) == Uncounted(t.agents, device)
  {
    ReconciledRows(t, device, hello, ids, now);
    forall a | a in Uncounted(t.agents, device) ensures a in Uncounted(after, device) {
      assert !Stale(t.agents, device, hello, a, now);
    }
    forall a | a in Uncounted(after, device) ensures a in Uncounted(t.agents, device) {
      assert a in t.agents;
    }
  }

  /** The device ends with an agent that counts, unless it had none left and a failed row occupies the first port. */
  lemma PoolIsSeededIff(t: Tables, device: DeviceId, hello: set<AgentId>, ids: int -> AgentId, now: Time)
    requires NewIds(t.agents, ids)
    ensures Counted(Reconciled(t, device, hello, ids, now).0, device) == {} <==>
              Counted(Kept(t, device, hello, now), device) == {} && !SlotFree(Kept(t, device, hello, now), device, 0)
  {
    var kept, r := Kept(t, device, hello, now), Reconciled(t, device, hello, ids, now).0;
    var n := |OfDevice(t.agents, device)|;
    var from := |Counted(kept, device)|;
    FillAdds(kept, device, from, n, ids, now);
    FillAdds(kept, device, from, 1, ids, now);
    if Counted(kept, device) != {} {
      var a :| a in Counted(kept, device);
      assert a in Counted(r, device);
    } else {
      if Doomed(t, device, hello, now) != {} {
        var a :| a in Doomed(t, device, hello, now);
        assert a in OfDevice(t.agents, device);
      }
      if SlotFree(kept, device, 0) {
        var next := kept[ids(0) := NewAgent(device, FIRST_PORT, now)];
        FillAdds(next, device, 1, n, ids, now);
        FillAdds(next, device, 1, 1, ids, now);
        assert ids(0) in Counted(r, device);
      }
    }
  }

  /** A second reconciliation on the same report at the same time changes no row. */
  lemma ReconcileIsIdempotent(t: Tables, device: DeviceId, hello: set<AgentId>, ids: int -> AgentId,
                              ids': int -> AgentId, now: Time)
    requires NewIds(t.agents, ids) && forall i :: ids(i) !in hello
    ensures var after := Reconciled(t, device, hello, ids, now).0;
            NewIds(after, ids') ==> Reconciled(t.(agents := after), device, hello, ids', now).0 == after
  {
    var after := Reconciled(t, device, hello, ids, now).0;
    var t' := t.(agents := after);
    ReconciledRows(t, device, hello, ids, now);
    assert Promoted(after, device, hello, now) == after;
    forall a | a in after ensures a !in Doomed(t', device, hello, now) {
      assert Referenced(t', a) <==> Referenced(t, a);
      if a in t.agents {
        assert a !in Doomed(t, device, hello, now);
      }
    }
    assert Kept(t', device, hello, now) == after;
    if Counted(after, device) == {} {
      PoolIsSeededIff(t, device, hello, ids, now);
      var p :| p in Kept(t, device, hello, now) && Kept(t, device, hello, now)[p].deviceId == device
               && Kept(t, device, hello, now)[p].port == FIRST_PORT + 0;
      assert after[p].port == FIRST_PORT + 0;
    }
  }

  // ----- the statements in the order the allocator runs them

  class PoolManager {
    const db: Database

    constructor (db: Database)
      ensures this.db == db
    {
      this.db := db;
    }

    method EnsurePoolSize(device: DeviceId, desired: int, ids: int -> AgentId, now: Time) returns (ok: bool)
      requires NewIds(db.agents, ids)
      modifies db`agents
      ensures (db.agents, ok) == Ensured(old(db.agents), device, desired, ids, now) && db.jobs == old(db.jobs)
    {
      var i := |Counted(db.agents, device)|;
      while i < desired
        invariant (forall k | i <= k :: ids(k) !in db.agents)
        invariant db.jobs == old(db.jobs)
        invariant Filled(db.agents, device, i, desired, ids, now) == Ensured(old(db.agents), device, desired, ids, now)
        decreases desired - i
      {
        ok := db.CreateAgent(ids(i), device, FIRST_PORT + i, now);
        if !ok {
          return false;
        }
        i := i + 1;
      }
      return true;
    }

    method ReconcilePool(device: DeviceId, hello: set<AgentId>, ids: int -> AgentId, now: Time) returns (ok: bool)
      requires NewIds(db.agents, ids)
      modifies db`agents
      ensures (db.agents, ok) == Reconciled(old(db.Contents()), device, hello, ids, now) && db.jobs == old(db.jobs)
    {
      ghost var t := db.Contents();
      var rows := db.agents;                       // the rows as listed
      var listed := OfDevice(rows, device);
      Promote(rows, listed, device, hello, now);
      var deleted := DeleteStale(rows, listed, device, hello, now, t);
      if deleted > 0 {
        ok := EnsurePoolSize(device, if |listed| < 1 then 1 else |listed|, ids, now);
        return;
      }
      if Counted(db.agents, device) == {} {
        var _ := EnsurePoolSize(device, 1, ids, now);
      }
      return true;
    }

    method Promote(rows: Agents, listed: set<AgentId>, device: DeviceId, hello: set<AgentId>, now: Time)
      requires rows == db.agents && listed == OfDevice(rows, device)
      modifies db`agents
      ensures db.agents == Promoted(rows, device, hello, now) && db.jobs == old(db.jobs)
    {
      var rest := hello;
      while rest != {}
        invariant rest <= hello && db.jobs == old(db.jobs)
        invariant db.agents == Promoted(rows, device, hello - rest, now)
        decreases |rest|
      {
        var a :| a in rest;
        rest := rest - {a};
        if a in listed && rows[a].status == Creating {
          db.UpdateAgentStatus(a, Idle, now);
        }
      }
      assert hello - rest == hello;
    }

    method DeleteStale(rows: Agents, listed: set<AgentId>, device: DeviceId, hello: set<AgentId>, now: Time,
                       ghost t: Tables)
      returns (deleted: nat)
      requires rows == t.agents && listed == OfDevice(rows, device)
      requires db.agents == Promoted(rows, device, hello, now) && db.jobs == t.jobs && db.pinned == t.pinned
      modifies db`agents
      ensures db.agents == Kept(t, device, hello, now) && db.jobs == t.jobs
      ensures deleted > 0 <==> Doomed(t, device, hello, now) != {}
    {
      var rest := listed;
      deleted := 0;
      ghost var doomed := Doomed(t, device, hello, now);
      while rest != {}
        invariant rest <= listed && db.jobs == t.jobs
        invariant db.agents == Promoted(rows, device, hello, now) - (doomed - rest)
        invariant deleted > 0 <==> doomed - rest != {}
        decreases |rest|
      {
        var a :| a in rest;
        DeletedSoFar(t, device, hello, now, rest, a, db.agents);
        rest := rest - {a};
        if a !in hello && (rows[a].status == Idle
                           || (rows[a].status == Creating && rows[a].createdAt < now - CREATE_GRACE)) {
          var gone := db.DeleteAgent(a);
          if gone {
            deleted := deleted + 1;
          }
        }
      }
      assert doomed - rest == doomed;
    }
  }

  lemma DeletedSoFar(t: Tables, device: DeviceId, hello: set<AgentId>, now: Time, rest: set<AgentId>, a: AgentId,
                     agents: Agents)
    requires a in rest && rest <= OfDevice(t.agents, device)
    requires agents == Promoted(t.agents, device, hello, now) - (Doomed(t, device, hello, now) - rest)
    ensures Referenced(t.(agents := agents), a) <==> Referenced(t, a)
    ensures var doomed := Doomed(t, device, hello, now);
            && (a in doomed ==> doomed - (rest - {a}) == (doomed - rest) + {a}
                                && agents - {a} == Promoted(t.agents, device, hello, now) - (doomed - (rest - {a})))
            && (a !in doomed ==> doomed - (rest - {a}) == doomed - rest)
  {
  }
}
