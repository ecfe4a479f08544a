/**
 The allocator's dequeue loop: what it dispatches, in what order, and to whom, at a fixed
 clock and for any finite number of failed sends.
 */
module Scheduler {
  import opened Prelude
  import opened Stores

  const DISPATCH_TIMEOUT: int := 300

  function Waiting(jobs: Jobs, now: Time): set<JobId> {
    set id | id in jobs && Dispatchable(jobs[id], now)
  }

  function FreeAgents(agents: Agents): set<AgentId> {
    set id | id in agents && IsFree(agents[id])
  }

  /** What a failed dispatch leaves of a queued job: a new deadline, and also the start time of the attempt. */
  function Requeued(j: Job, failed: bool, now: Time): Job {
    if failed then
      j.(agentId := None, deviceId := None, startedAt := Some(now), queueExpiresAt := Some(now + HOUR),
         updatedAt := now)
    else j
  }

  function GivenBack(a: Agent, failed: bool, now: Time): Agent {
    if failed then AsReleased(a, now) else a
  }

  /** js lists the smallest waiting jobs, in order. */
  ghost predicate JobsInOrder(jobs: Jobs, js: seq<JobId>, now: Time) {
    && (forall i | 0 <= i < |js| :: js[i] in jobs && Dispatchable(jobs[js[i]], now))
    && (forall i, k | 0 <= i < k < |js| :: js[i] != js[k] && Before(jobs[js[i]], jobs[js[k]]))
    && (forall i, id | 0 <= i < |js| && id in jobs && id !in js && Dispatchable(jobs[id], now) ::
        Before(jobs[js[i]], jobs[id]))
  }

  /** gs lists the oldest free agents, in order. */
  ghost predicate AgentsInOrder(agents: Agents, gs: seq<AgentId>) {
    && (forall i | 0 <= i < |gs| :: gs[i] in agents && IsFree(agents[gs[i]]))
    && (forall i, k | 0 <= i < k < |gs| :: gs[i] != gs[k] && agents[gs[i]].createdAt <= agents[gs[k]].createdAt)
    && (forall i, id | 0 <= i < |gs| && id in agents && id !in gs && IsFree(agents[id]) ::
          agents[gs[i]].createdAt <= agents[id].createdAt)
  }

  /** js[i] is dispatched to gs[i]; a job in `failed` went through a failed dispatch; nothing else changed. */
  ghost predicate JobsReached(before: Tables, jobs: Jobs, js: seq<JobId>, gs: seq<AgentId>,
                              failed: set<JobId>, now: Time) {
    && jobs.Keys == before.jobs.Keys
    && |js| == |gs|
    && (forall i | 0 <= i < |js| && js[i] in jobs && gs[i] in before.agents ::
          jobs[js[i]] == WithAgent(Requeued(before.jobs[js[i]], js[i] in failed, now), gs[i],
                                   before.agents[gs[i]].deviceId, now))
    && (forall id | id in jobs && id !in js :: jobs[id] == Requeued(before.jobs[id], id in failed, now))
    && (forall id | id in failed :: id in before.jobs && Dispatchable(before.jobs[id], now))
  }

  ghost predicate AgentsReached(before: Tables, agents: Agents, js: seq<JobId>, gs: seq<AgentId>,
                                failed: set<AgentId>, now: Time) {
    && agents.Keys == before.agents.Keys
    && |js| == |gs|
    && (forall i | 0 <= i < |gs| && gs[i] in agents && js[i] in before.jobs ::
          agents[gs[i]] == AsAllocated(before.agents[gs[i]], before.jobs[js[i]].userId, js[i], now))
    && (forall id | id in agents && id !in gs :: agents[id] == GivenBack(before.agents[id], id in failed, now))
    && (forall id | id in failed :: id in before.agents && IsFree(before.agents[id]))
  }

  /** As many matches as there are jobs to run and agents to run them, the right ones, and nothing else changed. */
  ghost predicate Schedule(before: Tables, after: Tables, js: seq<JobId>, gs: seq<AgentId>,
                           fj: set<JobId>, fa: set<AgentId>, now: Time) {
    && JobsInOrder(before.jobs, js, now) && AgentsInOrder(before.agents, gs)
    && JobsReached(before, after.jobs, js, gs, fj, now) && AgentsReached(before, after.agents, js, gs, fa, now)
    && after.pinned == before.pinned
    && |js| == |gs| == Min(|Waiting(before.jobs, now)|, |FreeAgents(before.agents)|)
  }

  // ----- one iteration, job side

  predicate JobSelected(jobs: Jobs, j: JobId, now: Time) {
    && j in jobs && Dispatchable(jobs[j], now)
    && forall id | id in jobs && Dispatchable(jobs[id], now) :: Before(jobs[j], jobs[id])
  }

  predicate AgentSelected(agents: Agents, a: AgentId) {
    && a in agents && IsFree(agents[a])
    && forall id | id in agents && IsFree(agents[id]) :: agents[a].createdAt <= agents[id].createdAt
  }

  /** The current candidates are the original ones not yet matched, with their original sort keys. */
  lemma StillWaiting(before: Tables, jobs: Jobs, js: seq<JobId>, gs: seq<AgentId>, fj: set<JobId>, now: Time, id: JobId)
    requires JobsInOrder(before.jobs, js, now) && AgentsInOrder(before.agents, gs)
             && JobsReached(before, jobs, js, gs, fj, now)
    requires id in jobs
    ensures Dispatchable(jobs[id], now) <==> Dispatchable(before.jobs[id], now) && id !in js
    ensures jobs[id].tier == before.jobs[id].tier && jobs[id].createdAt == before.jobs[id].createdAt
    ensures jobs[id].userId == before.jobs[id].userId
  {
    if id in js {
      var i :| 0 <= i < |js| && js[i] == id;
    }
  }

  lemma StillFree(before: Tables, agents: Agents, js: seq<JobId>, gs: seq<AgentId>, fa: set<AgentId>, now: Time,
                  id: AgentId)
    requires JobsInOrder(before.jobs, js, now) && AgentsInOrder(before.agents, gs)
             && AgentsReached(before, agents, js, gs, fa, now)
    requires id in agents
    ensures IsFree(agents[id]) <==> IsFree(before.agents[id]) && id !in gs
    ensures agents[id].createdAt == before.agents[id].createdAt && agents[id].deviceId == before.agents[id].deviceId
  {
    if id in gs {
      var i :| 0 <= i < |gs| && gs[i] == id;
    }
  }

  lemma NextJobInOrder(before: Tables, jobs: Jobs, js: seq<JobId>, gs: seq<AgentId>, fj: set<JobId>, j: JobId,
                       now: Time)
    requires JobsInOrder(before.jobs, js, now) && AgentsInOrder(before.agents, gs)
             && JobsReached(before, jobs, js, gs, fj, now)
    requires JobSelected(jobs, j, now)
    ensures JobsInOrder(before.jobs, js + [j], now)
  {
    StillWaiting(before, jobs, js, gs, fj, now, j);
    forall id | id in jobs && Dispatchable(before.jobs[id], now) && id !in js
      ensures Before(before.jobs[j], before.jobs[id]) {
      StillWaiting(before, jobs, js, gs, fj, now, id);
      assert Before(jobs[j], jobs[id]);
    }
  }

  lemma NextAgentInOrder(before: Tables, agents: Agents, js: seq<JobId>, gs: seq<AgentId>,
                         fa: set<AgentId>, a: AgentId, now: Time)
    requires JobsInOrder(before.jobs, js, now) && AgentsInOrder(before.agents, gs)
             && AgentsReached(before, agents, js, gs, fa, now)
    requires AgentSelected(agents, a)
    ensures AgentsInOrder(before.agents, gs + [a])
  {
    StillFree(before, agents, js, gs, fa, now, a);
    forall id | id in agents && IsFree(before.agents[id]) && id !in gs
      ensures before.agents[a].createdAt <= before.agents[id].createdAt {
      StillFree(before, agents, js, gs, fa, now, id);
    }
  }

  lemma DispatchedJob(before: Tables, t: Tables, js: seq<JobId>, gs: seq<AgentId>,
                      fj: set<JobId>, fa: set<AgentId>, j: JobId, a: AgentId, now: Time)
    requires JobsInOrder(before.jobs, js, now) && AgentsInOrder(before.agents, gs)
    requires JobsReached(before, t.jobs, js, gs, fj, now) && AgentsReached(before, t.agents, js, gs, fa, now)
    requires JobSelected(t.jobs, j, now) && AgentSelected(t.agents, a)
    ensures JobsReached(before, Dispatch(t, j, a, now).jobs, js + [j], gs + [a], fj, now)
  {
    StillWaiting(before, t.jobs, js, gs, fj, now, j);
    StillFree(before, t.agents, js, gs, fa, now, a);
    forall i | 0 <= i < |js| ensures js[i] != j {
    }
  }

  lemma DispatchedAgent(before: Tables, t: Tables, js: seq<JobId>, gs: seq<AgentId>, fj: set<JobId>,
                        fa: set<AgentId>, j: JobId, a: AgentId, now: Time)
    requires JobsInOrder(before.jobs, js, now) && AgentsInOrder(before.agents, gs)
    requires JobsReached(before, t.jobs, js, gs, fj, now) && AgentsReached(before, t.agents, js, gs, fa, now)
    requires JobSelected(t.jobs, j, now) && AgentSelected(t.agents, a)
    ensures AgentsReached(before, Dispatch(t, j, a, now).agents, js + [j], gs + [a], fa, now)
  {
    StillWaiting(before, t.jobs, js, gs, fj, now, j);
    StillFree(before, t.agents, js, gs, fa, now, a);
    forall i | 0 <= i < |js| ensures gs[i] != a {
    }
  }

  function Dispatch(t: Tables, j: JobId, a: AgentId, now: Time): Tables
    requires j in t.jobs && a in t.agents
  {
    t.(jobs := t.jobs[j := WithAgent(t.jobs[j], a, t.agents[a].deviceId, now)],
       agents := t.agents[a := AsAllocated(t.agents[a], t.jobs[j].userId, j, now)])
  }

  function FailDispatch(t: Tables, j: JobId, a: AgentId, now: Time): Tables
    requires j in t.jobs && a in t.agents
  {
    var d := Dispatch(t, j, a, now);
    d.(jobs := d.jobs[j := WithStatus(WithoutAgent(d.jobs[j]), Queued, now)],
       agents := d.agents[a := AsReleased(d.agents[a], now)])
  }

  lemma FailedJob(before: Tables, t: Tables, js: seq<JobId>, gs: seq<AgentId>, fj: set<JobId>, j: JobId, a: AgentId,
                  now: Time)
    requires JobsInOrder(before.jobs, js, now) && AgentsInOrder(before.agents, gs)
    requires JobsReached(before, t.jobs, js, gs, fj, now)
    requires JobSelected(t.jobs, j, now) && a in t.agents
    ensures JobsReached(before, FailDispatch(t, j, a, now).jobs, js, gs, fj + {j}, now)
  {
    StillWaiting(before, t.jobs, js, gs, fj, now, j);
    forall i | 0 <= i < |js| ensures js[i] != j {
    }
  }

  lemma FailedAgent(before: Tables, t: Tables, js: seq<JobId>, gs: seq<AgentId>, fa: set<AgentId>, j: JobId,
                    a: AgentId, now: Time)
    requires JobsInOrder(before.jobs, js, now) && AgentsInOrder(before.agents, gs)
    requires AgentsReached(before, t.agents, js, gs, fa, now)
    requires j in t.jobs && AgentSelected(t.agents, a)
    ensures AgentsReached(before, FailDispatch(t, j, a, now).agents, js, gs, fa + {a}, now)
  {
    StillFree(before, t.agents, js, gs, fa, now, a);
    forall i | 0 <= i < |js| ensures gs[i] != a {
    }
  }

  // ----- counting

  lemma {:induction false} DistinctCount(s: seq<nat>, all: set<nat>)
    requires forall i, k | 0 <= i < k < |s| :: s[i] != s[k]
    requires forall i | 0 <= i < |s| :: s[i] in all
    ensures |s| <= |all| && ((forall x | x in all :: x in s) ==> |s| == |all|)
  {
    if s != [] {
      var init, last := s[..|s| - 1], s[|s| - 1];
      assert forall i | 0 <= i < |init| :: init[i] == s[i];
      DistinctCount(init, all - {last});
      assert forall x | x in s :: x in init || x == last;
    }
  }

  lemma Progress(before: Tables, t: Tables, js: seq<JobId>, gs: seq<AgentId>,
                 fj: set<JobId>, fa: set<AgentId>, now: Time)
    requires JobsInOrder(before.jobs, js, now) && AgentsInOrder(before.agents, gs)
    requires JobsReached(before, t.jobs, js, gs, fj, now) && AgentsReached(before, t.agents, js, gs, fa, now)
    requires t.pinned == before.pinned
    ensures |js| == |gs| <= |Waiting(before.jobs, now)|
    ensures (forall id | id in t.jobs :: !Dispatchable(t.jobs[id], now))
            || (forall id | id in t.agents :: !IsFree(t.agents[id]))
            ==> Schedule(before, t, js, gs, fj, fa, now)
  {
    var waiting, free := Waiting(before.jobs, now), FreeAgents(before.agents);
    DistinctCount(js, waiting);
    DistinctCount(gs, free);
    if forall id | id in t.jobs :: !Dispatchable(t.jobs[id], now) {
      forall id | id in waiting ensures id in js {
        StillWaiting(before, t.jobs, js, gs, fj, now, id);
      }
    }
    if forall id | id in t.agents :: !IsFree(t.agents[id]) {
      forall id | id in free ensures id in gs {
        StillFree(before, t.agents, js, gs, fa, now, id);
      }
    }
  }

  ghost predicate Matched(before: Tables, t: Tables, js: seq<JobId>, gs: seq<AgentId>,
                          fj: set<JobId>, fa: set<AgentId>, now: Time) {
    && JobsInOrder(before.jobs, js, now) && AgentsInOrder(before.agents, gs)
    && JobsReached(before, t.jobs, js, gs, fj, now) && AgentsReached(before, t.agents, js, gs, fa, now)
    && |js| <= |Waiting(before.jobs, now)| && t.pinned == before.pinned
  }

  lemma Iteration(before: Tables, t: Tables, js: seq<JobId>, gs: seq<AgentId>,
                  fj: set<JobId>, fa: set<AgentId>, j: JobId, a: AgentId, now: Time)
    requires Matched(before, t, js, gs, fj, fa, now)
    requires JobSelected(t.jobs, j, now) && AgentSelected(t.agents, a)
    ensures Matched(before, Dispatch(t, j, a, now), js + [j], gs + [a], fj, fa, now)
    ensures Matched(before, FailDispatch(t, j, a, now), js, gs, fj + {j}, fa + {a}, now)
  {
    NextJobInOrder(before, t.jobs, js, gs, fj, j, now);
    NextAgentInOrder(before, t.agents, js, gs, fa, a, now);
    DispatchedJob(before, t, js, gs, fj, fa, j, a, now);
    DispatchedAgent(before, t, js, gs, fj, fa, j, a, now);
    Progress(before, Dispatch(t, j, a, now), js + [j], gs + [a], fj, fa, now);
    FailedJob(before, t, js, gs, fj, j, a, now);
    FailedAgent(before, t, js, gs, fa, j, a, now);
  }

  class Allocator {
    const db: Database

    constructor (db: Database)
      ensures this.db == db
    {
      this.db := db;
    }

    /** One match: allocate, set the agent, send; after a failed send everything is taken back. */
    method Match(j: JobId, a: AgentId, accepted: bool, now: Time)
      requires j in db.jobs && a in db.agents
      modifies db`jobs, db`agents
      ensures db.Contents() == if accepted then Dispatch(old(db.Contents()), j, a, now)
                else FailDispatch(old(db.Contents()), j, a, now)
    {
      db.AllocateAgent(a, db.jobs[j].userId, j, now);
      db.SetAgent(j, a, db.agents[a].deviceId, now);
      if !accepted {
        db.ReleaseAgent(a, now);
        db.ClearAgent(j);
        db.UpdateStatus(j, Queued, now);
      }
    }

    /**
     The loop that runs after a release or a reconnect. `sends` says which of the coming
     sends succeed; after the last entry they all do.
     */
    method DequeueNext(now: Time, sends: seq<bool>)
      returns (js: seq<JobId>, gs: seq<AgentId>, fj: set<JobId>, fa: set<AgentId>)
      modifies db`jobs, db`agents
      ensures Schedule(old(db.Contents()).(jobs := Expire(old(db.jobs), now, DISPATCH_TIMEOUT)), db.Contents(), js,
                       gs, fj, fa, now)
      ensures (forall b | b in sends :: b) ==> fj == {} && fa == {}
    {
      db.ExpireStale(now, DISPATCH_TIMEOUT);
      ghost var before := db.Contents();
      js, gs, fj, fa := [], [], {}, {};
      var k := 0;
      while true
        invariant Matched(before, db.Contents(), js, gs, fj, fa, now)
        invariant (forall b | b in sends :: b) ==> fj == {} && fa == {}
        invariant 0 <= k <= |sends|
        decreases |sends| - k + |Waiting(before.jobs, now)| - |js|
      {
        ghost var t := db.Contents();
        var job := db.NextQueued(now);
        if job.None? {
          Progress(before, t, js, gs, fj, fa, now);
          return;
        }
        var agent := db.FindIdle();
        if agent.None? {
          Progress(before, t, js, gs, fj, fa, now);
          return;
        }
        var j, a := job.value, agent.value;
        var accepted := k >= |sends| || sends[k];
        assert !accepted ==> !sends[k] && sends[k] in sends;
        k := if k < |sends| then k + 1 else k;
        Iteration(before, t, js, gs, fj, fa, j, a, now);
        Match(j, a, accepted, now);
        if accepted {
          js, gs := js + [j], gs + [a];
        } else {
          fj, fa := fj + {j}, fa + {a};
        }
      }
    }
  }

  // ----- what a schedule determines

  /** No two waiting jobs tie, and no two free agents are the same age. */
  ghost predicate NoTies(t: Tables, now: Time) {
    && (forall x, y | x in t.jobs && y in t.jobs && Dispatchable(t.jobs[x], now) && Dispatchable(t.jobs[y], now) ::
          Before(t.jobs[x], t.jobs[y]) && Before(t.jobs[y], t.jobs[x]) ==> x == y)
    && (forall x, y | x in t.agents && y in t.agents && IsFree(t.agents[x]) && IsFree(t.agents[y]) ::
          t.agents[x].createdAt == t.agents[y].createdAt ==> x == y)
  }

  lemma {:induction false} SameFirstJobs(t: Tables, js: seq<JobId>, js': seq<JobId>, n: nat, now: Time)
    requires NoTies(t, now) && JobsInOrder(t.jobs, js, now) && JobsInOrder(t.jobs, js', now) && n <= |js| && n <= |js'|
    ensures js[..n] == js'[..n]
  {
    if n > 0 {
      var k := n - 1;
      SameFirstJobs(t, js, js', k, now);
      if js[k] != js'[k] {
        JobComesFirst(t, js, js', k, now);
        JobComesFirst(t, js', js, k, now);
      }
    }
  }

  lemma JobNotLater(jobs: Jobs, js: seq<JobId>, k: nat, id: JobId, now: Time)
    requires JobsInOrder(jobs, js, now) && k < |js| && id in jobs && Dispatchable(jobs[id], now) && id !in js[..k]
    ensures Before(jobs[js[k]], jobs[id]) || js[k] == id
  {
    if id in js {
      var i :| 0 <= i < |js| && js[i] == id;
    }
  }

  lemma JobComesFirst(t: Tables, js: seq<JobId>, js': seq<JobId>, k: nat, now: Time)
    requires JobsInOrder(t.jobs, js, now) && JobsInOrder(t.jobs, js', now) && k < |js| && k < |js'|
             && js[..k] == js'[..k]
    ensures Before(t.jobs[js[k]], t.jobs[js'[k]]) || js[k] == js'[k]
  {
    JobNotLater(t.jobs, js, k, js'[k], now);
  }

  lemma {:induction false} SameFirstAgents(t: Tables, gs: seq<AgentId>, gs': seq<AgentId>, n: nat, now: Time)
    requires NoTies(t, now) && AgentsInOrder(t.agents, gs) && AgentsInOrder(t.agents, gs') && n <= |gs| && n <= |gs'|
    ensures gs[..n] == gs'[..n]
  {
    if n > 0 {
      var k := n - 1;
      SameFirstAgents(t, gs, gs', k, now);
      if gs[k] != gs'[k] {
        AgentComesFirst(t, gs, gs', k);
        AgentComesFirst(t, gs', gs, k);
      }
    }
  }

  lemma AgentNotLater(agents: Agents, gs: seq<AgentId>, k: nat, id: AgentId)
    requires AgentsInOrder(agents, gs) && k < |gs| && id in agents && IsFree(agents[id]) && id !in gs[..k]
    ensures agents[gs[k]].createdAt <= agents[id].createdAt
  {
    if id in gs {
      var i :| 0 <= i < |gs| && gs[i] == id;
    }
  }

  lemma AgentComesFirst(t: Tables, gs: seq<AgentId>, gs': seq<AgentId>, k: nat)
    requires AgentsInOrder(t.agents, gs) && AgentsInOrder(t.agents, gs') && k < |gs| && k < |gs'| && gs[..k] == gs'[..k]
    ensures t.agents[gs[k]].createdAt <= t.agents[gs'[k]].createdAt
  {
    AgentNotLater(t.agents, gs, k, gs'[k]);
  }

  /** Without ties the outcome is fixed: whatever the failed sends, the same jobs go to the same agents. */
  lemma ScheduleIsDetermined(before: Tables, t1: Tables, t2: Tables, js1: seq<JobId>, gs1: seq<AgentId>,
                             fj1: set<JobId>, fa1: set<AgentId>,
                             js2: seq<JobId>, gs2: seq<AgentId>, fj2: set<JobId>, fa2: set<AgentId>, now: Time)
    requires NoTies(before, now)
    requires Schedule(before, t1, js1, gs1, fj1, fa1, now) && Schedule(before, t2, js2, gs2, fj2, fa2, now)
    ensures js1 == js2 && gs1 == gs2
    ensures fj1 == fj2 && fa1 == fa2 ==> t1 == t2
  {
    SamePairs(before, js1, gs1, js2, gs2, now);
    if fj1 == fj2 && fa1 == fa2 {
      SameJobRows(before, t1.jobs, t2.jobs, js1, gs1, fj1, now);
      SameAgentRows(before, t1.agents, t2.agents, js1, gs1, fa1, now);
    }
  }

  lemma SamePairs(before: Tables, js1: seq<JobId>, gs1: seq<AgentId>, js2: seq<JobId>, gs2: seq<AgentId>, now: Time)
    requires NoTies(before, now) && |js1| == |js2| == |gs1| == |gs2|
    requires JobsInOrder(before.jobs, js1, now) && JobsInOrder(before.jobs, js2, now)
    requires AgentsInOrder(before.agents, gs1) && AgentsInOrder(before.agents, gs2)
    ensures js1 == js2 && gs1 == gs2
  {
    var n := |js1|;
    SameFirstJobs(before, js1, js2, n, now);
    SameFirstAgents(before, gs1, gs2, n, now);
    assert js1[..n] == js1 && js2[..n] == js2 && gs1[..n] == gs1 && gs2[..n] == gs2;
  }

  lemma SameJobRows(before: Tables, jobs1: Jobs, jobs2: Jobs, js: seq<JobId>, gs: seq<AgentId>,
                    fj: set<JobId>, now: Time)
    requires JobsInOrder(before.jobs, js, now) && AgentsInOrder(before.agents, gs)
    requires JobsReached(before, jobs1, js, gs, fj, now) && JobsReached(before, jobs2, js, gs, fj, now)
    ensures jobs1 == jobs2
  {
    forall id | id in before.jobs ensures jobs1[id] == jobs2[id] {
      if id in js {
        var i :| 0 <= i < |js| && js[i] == id;
      }
    }
  }

  lemma SameAgentRows(before: Tables, agents1: Agents, agents2: Agents, js: seq<JobId>, gs: seq<AgentId>,
                      fa: set<AgentId>, now: Time)
    requires JobsInOrder(before.jobs, js, now) && AgentsInOrder(before.agents, gs)
    requires AgentsReached(before, agents1, js, gs, fa, now) && AgentsReached(before, agents2, js, gs, fa, now)
    ensures agents1 == agents2
  {
    forall id | id in before.agents ensures agents1[id] == agents2[id] {
      if id in gs {
        var i :| 0 <= i < |gs| && gs[i] == id;
      }
    }
  }

  /** The promised order: enterprise, then pro, then the rest. */
  function TierPriority(t: Tier): nat {
    match t
    case Enterprise => 0
    case Pro => 1
    case _ => 2
  }

  /** Ordering by the text of the tier keeps the promise for a pair of tiers except for these. */
  lemma TextOrderKeepsPromiseIff(a: Tier, b: Tier)
    ensures (TierPriority(a) < TierPriority(b) ==> TextRank(a) < TextRank(b))
            <==> !(a == Pro && b in {Free, NoTier}) && !(a == Enterprise && b == NoTier)
  {
  }

  /** So a pro job is dispatched only after every free job that waits, however new. */
  lemma ProWaitsForFree(before: Tables, after: Tables, js: seq<JobId>, gs: seq<AgentId>, fj: set<JobId>,
                        fa: set<AgentId>, now: Time, pro: JobId, free: JobId)
    requires Schedule(before, after, js, gs, fj, fa, now)
    requires pro in js && pro in before.jobs && before.jobs[pro].tier == Pro
    requires free in before.jobs && Dispatchable(before.jobs[free], now) && before.jobs[free].tier == Free
    ensures exists i, k :: 0 <= i < k < |js| && js[i] == free && js[k] == pro
  {
    FreeThenPro(before.jobs, js, now, pro, free);
  }

  lemma FreeThenPro(jobs: Jobs, js: seq<JobId>, now: Time, pro: JobId, free: JobId)
    requires JobsInOrder(jobs, js, now) && pro in js && pro in jobs && jobs[pro].tier == Pro
    requires free in jobs && Dispatchable(jobs[free], now) && jobs[free].tier == Free
    ensures exists i, k :: 0 <= i < k < |js| && js[i] == free && js[k] == pro
  {
    FreeIsListed(jobs, js, now, pro, free);
    var i :| 0 <= i < |js| && js[i] == free;
    var k :| 0 <= k < |js| && js[k] == pro;
    FreeNotLater(jobs, js, now, i, k);
  }

  lemma FreeNotLater(jobs: Jobs, js: seq<JobId>, now: Time, i: nat, k: nat)
    requires JobsInOrder(jobs, js, now) && i < |js| && k < |js| && js[i] in jobs && js[k] in jobs
    requires jobs[js[i]].tier == Free && jobs[js[k]].tier == Pro
    ensures i < k
  {
  }

  lemma UnlistedComesLater(jobs: Jobs, js: seq<JobId>, now: Time, i: nat, id: JobId)
    requires JobsInOrder(jobs, js, now) && i < |js|
    requires id in jobs && Dispatchable(jobs[id], now) && id !in js
    ensures js[i] in jobs && Before(jobs[js[i]], jobs[id])
  {
  }

  lemma FreeIsListed(jobs: Jobs, js: seq<JobId>, now: Time, pro: JobId, free: JobId)
    requires JobsInOrder(jobs, js, now) && pro in js && pro in jobs && jobs[pro].tier == Pro
    requires free in jobs && Dispatchable(jobs[free], now) && jobs[free].tier == Free
    ensures free in js
  {
    var k :| 0 <= k < |js| && js[k] == pro;
    if free !in js {
      UnlistedComesLater(jobs, js, now, k, free);
      assert false;
    }
  }
}
