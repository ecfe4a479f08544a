/**
 The job and agent tables and the SQL statements the gateway runs on them. A statement whose
 WHERE clause matches no row changes nothing.
 */
module Stores {
  import opened Prelude

  type JobId = nat
  type AgentId = nat
  type UserId = nat
  type DeviceId = nat
  type Time = int

  datatype Tier = NoTier | Enterprise | Pro | Free

  datatype JobStatus = Pending | Queued | Dispatched | Running | Succeeded | Failed | Cancelled {
    predicate IsTerminal() {
      this in {Succeeded, Failed, Cancelled}
    }

    predicate IsActive() {
      this in {Pending, Queued, Dispatched, Running}
    }
  }

  /** Drained is what the device reports after a drain; the gateway stores it as it comes. */
  datatype AgentStatus = Creating | Idle | Busy | Unhealthy | AgentFailed | Drained | Removed

  datatype Job = Job(
    userId: UserId, tier: Tier, status: JobStatus,
    agentId: Option<AgentId>, deviceId: Option<DeviceId>,
    queueExpiresAt: Option<Time>, startedAt: Option<Time>, finishedAt: Option<Time>, createdAt: Time, updatedAt: Time)

  datatype Agent = Agent(
    deviceId: DeviceId, userId: Option<UserId>, jobId: Option<JobId>, status: AgentStatus, port: int,
    allocatedAt: Option<Time>, createdAt: Time, updatedAt: Time)

  type Jobs = map<JobId, Job>
  type Agents = map<AgentId, Agent>

  /** pinned: the agents that rows of other tables name, their skill selections and VNC sessions. */
  datatype Tables = Tables(jobs: Jobs, agents: Agents, pinned: set<AgentId>)

  const HOUR: int := 3600

  function OfDevice(agents: Agents, device: DeviceId): set<AgentId> {
    set a | a in agents && agents[a].deviceId == device
  }

  // ----- what each statement makes of a row

  function WithStatus(j: Job, status: JobStatus, now: Time): Job {
    j.(status := status,
       finishedAt := if status.IsTerminal() then Some(now) else j.finishedAt,
       queueExpiresAt := if status == Queued then Some(now + HOUR) else j.queueExpiresAt,
       updatedAt := now)
  }

  function WithProgress(j: Job, status: JobStatus, now: Time): Job {
    j.(status := if status.IsTerminal() then j.status else status, updatedAt := now)
  }

  function WithResult(j: Job, status: JobStatus, now: Time): Job {
    j.(status := status, finishedAt := Some(now), updatedAt := now)
  }

  function WithAgent(j: Job, agentId: AgentId, deviceId: DeviceId, now: Time): Job {
    j.(agentId := Some(agentId), deviceId := Some(deviceId), status := Dispatched, startedAt := Some(now),
       updatedAt := now)
  }

  function WithoutAgent(j: Job): Job {
    j.(agentId := None, deviceId := None)
  }

  function AsAllocated(a: Agent, userId: UserId, jobId: JobId, now: Time): Agent {
    a.(status := Busy, userId := Some(userId), jobId := Some(jobId), allocatedAt := Some(now), updatedAt := now)
  }

  function AsReleased(a: Agent, now: Time): Agent {
    a.(status := Idle, userId := None, jobId := None, allocatedAt := None, updatedAt := now)
  }

  // ----- the WHERE clauses

  predicate Dispatchable(j: Job, now: Time) {
    j.status == Queued && j.queueExpiresAt.Some? && j.queueExpiresAt.value > now
  }

  predicate QueueExpired(j: Job, now: Time) {
    j.status == Queued && j.queueExpiresAt.Some? && j.queueExpiresAt.value <= now
  }

  predicate DispatchExpired(j: Job, now: Time, timeout: int) {
    j.status == Dispatched && j.startedAt.Some? && j.startedAt.value <= now - timeout
  }

  predicate IsFree(a: Agent) {
    a.status == Idle && a.userId.None?
  }

  // ----- ORDER BY user_tier ASC, created_at ASC, on a text column

  function TextRank(t: Tier): nat {
    match t
    case NoTier => 0
    case Enterprise => 1
    case Free => 2
    case Pro => 3
  }

  predicate Before(a: Job, b: Job) {
    TextRank(a.tier) < TextRank(b.tier) || (TextRank(a.tier) == TextRank(b.tier) && a.createdAt <= b.createdAt)
  }

  function Expire(jobs: Jobs, now: Time, dispatchTimeout: int): Jobs {
    map id | id in jobs ::
      if QueueExpired(jobs[id], now) || DispatchExpired(jobs[id], now, dispatchTimeout)
      then WithResult(jobs[id], Failed, now) else jobs[id]
  }

  function NewAgent(device: DeviceId, port: int, now: Time): Agent {
    Agent(device, None, None, Creating, port, None, now, now)
  }

  // ----- the constraints

  predicate NamedByJob(t: Tables, a: AgentId) {
    exists id | id in t.jobs :: t.jobs[id].agentId == Some(a)
  }

  predicate Referenced(t: Tables, a: AgentId) {
    NamedByJob(t, a) || a in t.pinned
  }

  /** DELETE FROM agents: a foreign key refuses it while a job or a row of another table names the agent. */
  function Delete(t: Tables, a: AgentId): Tables {
    if Referenced(t, a) then t else t.(agents := t.agents - {a})
  }

  /** UNIQUE (device_id, port) on the agents table. */
  predicate PortTaken(agents: Agents, device: DeviceId, port: int) {
    exists a | a in agents :: agents[a].deviceId == device && agents[a].port == port
  }

  class Database {
    var jobs: Jobs
    var agents: Agents
    var pinned: set<AgentId>

    constructor (t: Tables)
      ensures Contents() == t
    {
      jobs, agents, pinned := t.jobs, t.agents, t.pinned;
    }

    function Contents(): Tables
      reads this
    {
      Tables(jobs, agents, pinned)
    }

    method UpdateStatus(id: JobId, status: JobStatus, now: Time)
      modifies this`jobs
      ensures jobs == if id in old(jobs) then old(jobs)[id := WithStatus(old(jobs)[id], status, now)] else old(jobs)
    {
      if id in jobs {
        jobs := jobs[id := WithStatus(jobs[id], status, now)];
      }
    }

    method UpdateProgress(id: JobId, status: JobStatus, now: Time)
      modifies this`jobs
      ensures jobs == if id in old(jobs) then old(jobs)[id := WithProgress(old(jobs)[id], status, now)] else old(jobs)
    {
      if id in jobs {
        jobs := jobs[id := WithProgress(jobs[id], status, now)];
      }
    }

    method UpdateResult(id: JobId, status: JobStatus, now: Time)
      modifies this`jobs
      ensures jobs == if id in old(jobs) then old(jobs)[id := WithResult(old(jobs)[id], status, now)] else old(jobs)
    {
      if id in jobs {
        jobs := jobs[id := WithResult(jobs[id], status, now)];
      }
    }

    method SetAgent(id: JobId, agentId: AgentId, deviceId: DeviceId, now: Time)
      modifies this`jobs
      ensures jobs == if id in old(jobs) then old(jobs)[id := WithAgent(old(jobs)[id], agentId, deviceId, now)]
                else old(jobs)
    {
      if id in jobs {
        jobs := jobs[id := WithAgent(jobs[id], agentId, deviceId, now)];
      }
    }

    method ClearAgent(id: JobId)
      modifies this`jobs
      ensures jobs == if id in old(jobs) then old(jobs)[id := WithoutAgent(old(jobs)[id])] else old(jobs)
    {
      if id in jobs {
        jobs := jobs[id := WithoutAgent(jobs[id])];
      }
    }

    method AllocateAgent(id: AgentId, userId: UserId, jobId: JobId, now: Time)
      modifies this`agents
      ensures agents == if id in old(agents) then old(agents)[id := AsAllocated(old(agents)[id], userId, jobId, now)]
                else old(agents)
    {
      if id in agents {
        agents := agents[id := AsAllocated(agents[id], userId, jobId, now)];
      }
    }

    method ReleaseAgent(id: AgentId, now: Time)
      modifies this`agents
      ensures agents == if id in old(agents) then old(agents)[id := AsReleased(old(agents)[id], now)] else old(agents)
    {
      if id in agents {
        agents := agents[id := AsReleased(agents[id], now)];
      }
    }

    method UpdateAgentStatus(id: AgentId, status: AgentStatus, now: Time)
      modifies this`agents
      ensures agents == if id in old(agents)
              then old(agents)[id := old(agents)[id].(status := status, updatedAt := now)] else old(agents)
    {
      if id in agents {
        agents := agents[id := agents[id].(status := status, updatedAt := now)];
      }
    }

    method DeleteAgent(id: AgentId) returns (ok: bool)
      modifies this`agents
      ensures ok <==> !Referenced(old(Contents()), id)
      ensures Contents() == Delete(old(Contents()), id)
    {
      if id in pinned || exists j | j in jobs :: jobs[j].agentId == Some(id) {
        return false;
      }
      agents := agents - {id};
      return true;
    }

    method CreateAgent(id: AgentId, device: DeviceId, port: int, now: Time) returns (ok: bool)
      requires id !in agents
      modifies this`agents
      ensures ok <==> !PortTaken(old(agents), device, port)
      ensures agents == if ok then old(agents)[id := NewAgent(device, port, now)] else old(agents)
    {
      if exists a | a in agents :: agents[a].deviceId == device && agents[a].port == port {
        return false;
      }
      agents := agents[id := NewAgent(device, port, now)];
      return true;
    }

    /** ExpireQueued, then ExpireDispatched: no row matches both. */
    method ExpireStale(now: Time, dispatchTimeout: int)
      modifies this`jobs
      ensures jobs == Expire(old(jobs), now, dispatchTimeout)
    {
      jobs := map id | id in jobs ::
        if QueueExpired(jobs[id], now) then WithResult(jobs[id], Failed, now) else jobs[id];
      jobs := map id | id in jobs ::
        if DispatchExpired(jobs[id], now, dispatchTimeout) then WithResult(jobs[id], Failed, now) else jobs[id];
    }

    /** The job SELECT ... ORDER BY ... LIMIT 1: any row that no other precedes. */
    method NextQueued(now: Time) returns (r: Option<JobId>)
      ensures r.None? ==> forall id | id in jobs :: !Dispatchable(jobs[id], now)
      ensures r.Some? ==> r.value in jobs && Dispatchable(jobs[r.value], now)
      ensures r.Some? ==> forall id | id in jobs && Dispatchable(jobs[id], now) :: Before(jobs[r.value], jobs[id])
    {
      r := None;
      var rest := jobs.Keys;
      while rest != {}
        invariant rest <= jobs.Keys
        invariant r.None? ==> forall id | id in jobs && id !in rest :: !Dispatchable(jobs[id], now)
        invariant r.Some? ==> r.value in jobs && Dispatchable(jobs[r.value], now)
        invariant r.Some? ==> forall id | id in jobs && id !in rest && Dispatchable(jobs[id], now) ::
                    Before(jobs[r.value], jobs[id])
      {
        var id :| id in rest;
        rest := rest - {id};
        if Dispatchable(jobs[id], now) && (r.None? || !Before(jobs[r.value], jobs[id])) {
          r := Some(id);
        }
      }
    }

    method FindIdle() returns (r: Option<AgentId>)
      ensures r.None? ==> forall id | id in agents :: !IsFree(agents[id])
      ensures r.Some? ==> r.value in agents && IsFree(agents[r.value])
      ensures r.Some? ==> forall id | id in agents && IsFree(agents[id]) ::
                agents[r.value].createdAt <= agents[id].createdAt
    {
      r := None;
      var rest := agents.Keys;
      while rest != {}
        invariant rest <= agents.Keys
        invariant r.None? ==> forall id | id in agents && id !in rest :: !IsFree(agents[id])
        invariant r.Some? ==> r.value in agents && IsFree(agents[r.value])
        invariant r.Some? ==> forall id | id in agents && id !in rest && IsFree(agents[id]) ::
                    agents[r.value].createdAt <= agents[id].createdAt
      {
        var id :| id in rest;
        rest := rest - {id};
        if IsFree(agents[id]) && (r.None? || agents[id].createdAt < agents[r.value].createdAt) {
          r := Some(id);
        }
      }
    }
  }
}
