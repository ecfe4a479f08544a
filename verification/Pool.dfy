/**
 Jobs and agents under every event that touches them: submissions, cancellations, the
 device's reports, expiry, administration. What every reachable state keeps.
 */
module Pool {
  import opened Prelude
  import opened Stores
  import opened Scheduler

  const SYNC_GRACE: int := 120

  datatype Event =
    | Submit(job: JobId, user: UserId, agent: Option<AgentId>, accepted: bool, now: Time)   // agent: FindIdle's result
    | Dequeue(job: JobId, idle: AgentId, accepted: bool, now: Time)                         // one turn of the loop
    | JobAccepted(job: JobId, now: Time)
    | JobProgress(job: JobId, status: JobStatus, now: Time)
    | JobResult(job: JobId, status: JobStatus, now: Time)
    | JobRejected(job: JobId, now: Time)
    | Cancel(job: JobId, user: UserId, now: Time)
    | ExpireStale(now: Time)
    | StateSync(device: DeviceId, reported: set<JobId>, now: Time)
    | AgentReport(id: AgentId, agentStatus: AgentStatus, now: Time)
    | ForceRelease(id: AgentId, now: Time)
    | Drain(id: AgentId, now: Time)
    | CreateAgent(id: AgentId, device: DeviceId, port: int, now: Time)
    | DeleteAgent(id: AgentId)
    | OtherTables(pins: set<AgentId>)      // skill selections and VNC sessions come and go

  // ----- the handlers on values

  function Freed(t: Tables, a: AgentId, now: Time): Tables {
    if a in t.agents then t.(agents := t.agents[a := AsReleased(t.agents[a], now)]) else t
  }

  function ReleaseOf(t: Tables, id: JobId, now: Time): Tables
    requires id in t.jobs
  {
    if t.jobs[id].agentId.Some? then Freed(t, t.jobs[id].agentId.value, now) else t
  }

  function QueuedBy(jobs: Jobs, user: UserId): set<JobId> {
    set id | id in jobs && jobs[id].userId == user && jobs[id].status == Queued
  }

  predicate QueueFull(t: Tables, maxQueue: int, user: UserId) {
    maxQueue > 0 && |QueuedBy(t.jobs, user)| >= maxQueue
  }

  function NewJob(user: UserId, now: Time): Job {
    Job(user, NoTier, Pending, None, None, None, None, None, now, now)
  }

  function OnSubmit(t: Tables, maxQueue: int, e: Event): Tables
    requires e.Submit?
  {
    var created := t.(jobs := t.jobs[e.job := NewJob(e.user, e.now)]);
    if QueueFull(t, maxQueue, e.user) then created          // the new row is pending, so it does not count
    else Admitted(created, e)
  }

  /** What becomes of a job once its user's queue has been found to have room. */
  function Admitted(t: Tables, e: Event): Tables
    requires e.Submit? && e.job in t.jobs
  {
    if e.agent.Some? && e.agent.value in t.agents then
      if e.accepted then Dispatch(t, e.job, e.agent.value, e.now) else FailDispatch(t, e.job, e.agent.value, e.now)
    else t.(jobs := t.jobs[e.job := WithStatus(t.jobs[e.job], Queued, e.now)])
  }

  function OnResult(t: Tables, id: JobId, status: JobStatus, now: Time): Tables {
    if id in t.jobs then ReleaseOf(t.(jobs := t.jobs[id := WithResult(t.jobs[id], status, now)]), id, now) else t
  }

  function OnCancel(t: Tables, e: Event): Tables
    requires e.Cancel?
  {
    if e.job in t.jobs && t.jobs[e.job].userId == e.user && !t.jobs[e.job].status.IsTerminal()
    then OnResult(t, e.job, Cancelled, e.now) else t
  }

  /** A job the device should be running but does not report, started long enough ago. */
  predicate Lost(t: Tables, id: JobId, e: Event)
    requires e.StateSync? && id in t.jobs
  {
    var j := t.jobs[id];
    && j.agentId.Some? && j.agentId.value in t.agents && t.agents[j.agentId.value].deviceId == e.device
    && j.status.IsActive() && id !in e.reported
    && !(j.startedAt.Some? && e.now - j.startedAt.value < SYNC_GRACE)
  }

  function StateSynced(t: Tables, e: Event): Tables
    requires e.StateSync?
  {
    t.(jobs := map id | id in t.jobs :: if Lost(t, id, e) then WithResult(t.jobs[id], Failed, e.now) else t.jobs[id],
       agents := map a | a in t.agents :: if LosesJob(t, a, e) then AsReleased(t.agents[a], e.now) else t.agents[a])
  }

  predicate LosesJob(t: Tables, a: AgentId, e: Event)
    requires e.StateSync?
  {
    exists id | id in t.jobs :: Lost(t, id, e) && t.jobs[id].agentId == Some(a)
  }

  function Unlinked(jobs: Jobs, a: AgentId): Jobs {
    map id | id in jobs :: if jobs[id].agentId == Some(a) then WithoutAgent(jobs[id]) else jobs[id]
  }

  function OnDrain(t: Tables, a: AgentId, now: Time): Tables {
    if a !in t.agents then t
    else if t.agents[a].status in {Idle, AgentFailed} then
      if !Referenced(t, a) then Delete(t, a)
      else if AllFinished(t, a) then Delete(t.(jobs := Unlinked(t.jobs, a)), a)
      else t
    else t.(agents := t.agents[a := t.agents[a].(status := AgentFailed, updatedAt := now)])
  }

  predicate AllFinished(t: Tables, a: AgentId) {
    forall id | id in t.jobs && t.jobs[id].agentId == Some(a) :: t.jobs[id].status.IsTerminal()
  }

  /** An event that cannot happen now, such as a row id that already exists, changes nothing. */
  function Step(t: Tables, maxQueue: int, e: Event): Tables {
    match e
    case Submit(id, _, agent, _, _) =>
      if id !in t.jobs
         && (QueueFull(t, maxQueue, e.user)
             || if agent.Some? then AgentSelected(t.agents, agent.value) else FreeAgents(t.agents) == {})
      then OnSubmit(t, maxQueue, e) else t
    case Dequeue(j, a, accepted, now) =>
      if JobSelected(t.jobs, j, now) && AgentSelected(t.agents, a) then
        if accepted then Dispatch(t, j, a, now) else FailDispatch(t, j, a, now)
      else t
    case JobAccepted(id, now) =>
      if id in t.jobs then t.(jobs := t.jobs[id := WithStatus(t.jobs[id], Running, now)]) else t
    case JobProgress(id, status, now) =>
      if id in t.jobs then t.(jobs := t.jobs[id := WithProgress(t.jobs[id], status, now)]) else t
    case JobResult(id, status, now) => OnResult(t, id, status, now)
    case JobRejected(id, now) => OnResult(t, id, Failed, now)
    case Cancel(_, _, _) => OnCancel(t, e)
    case ExpireStale(now) => t.(jobs := Expire(t.jobs, now, DISPATCH_TIMEOUT))
    case StateSync(_, _, _) => StateSynced(t, e)
    case AgentReport(a, status, now) =>
      if a in t.agents then t.(agents := t.agents[a := t.agents[a].(status := status, updatedAt := now)]) else t
    case ForceRelease(a, now) => Freed(t, a, now)
    case Drain(a, now) => OnDrain(t, a, now)
    case CreateAgent(a, device, port, now) =>
      if a in t.agents || PortTaken(t.agents, device, port) then t
      else t.(agents := t.agents[a := NewAgent(device, port, now)])
    case DeleteAgent(a) => Delete(t, a)
    case OtherTables(pins) => t.(pinned := pins)
  }

  function Run(t: Tables, maxQueue: int, es: seq<Event>): Tables {
    if es == [] then t else Step(Run(t, maxQueue, es[..|es| - 1]), maxQueue, es[|es| - 1])
  }

  // ----- exclusivity

  /**
   No two agents hold the same job. An agent has a user exactly when it has a job, and then it is
   that job's user, the job names no other agent, and it is past queueing.
   */
  ghost predicate Exclusive(t: Tables) {
    Unshared(t.agents) && forall a | a in t.agents :: Holds(t, a)
  }

  ghost predicate Unshared(agents: Agents) {
    forall a, b | a in agents && b in agents && a != b && agents[a].jobId.Some? :: agents[a].jobId != agents[b].jobId
  }

  ghost predicate Holds(t: Tables, a: AgentId)
    requires a in t.agents
  {
    var ag := t.agents[a];
    && (ag.userId.None? <==> ag.jobId.None?)
    && (ag.jobId.Some? ==>
          var id := ag.jobId.value;
          && id in t.jobs
          && (t.jobs[id].agentId == Some(a) || t.jobs[id].agentId == None)
          && ag.userId == Some(t.jobs[id].userId)
          && t.jobs[id].status !in {Pending, Queued})
  }

  /** Steps that give no agent a job keep jobs unshared. */
  lemma LettingGoKeepsUnshared(agents: Agents, agents': Agents)
    requires Unshared(agents)
    requires forall a | a in agents' && agents'[a].jobId.Some? :: a in agents && agents'[a].jobId == agents[a].jobId
    ensures Unshared(agents')
  {
  }

  lemma NoJobIsHeldTwice(t: Tables, maxQueue: int, es: seq<Event>, a: AgentId, b: AgentId)
    requires Exclusive(t) && forall e | e in es :: Honest(e)
    requires var s := Run(t, maxQueue, es); a in s.agents && b in s.agents && a != b && s.agents[a].jobId.Some?
    ensures var s := Run(t, maxQueue, es); s.agents[a].jobId != s.agents[b].jobId
  {
    AlwaysExclusive(t, maxQueue, es);
  }

  /** Devices report on jobs they run, never "pending" or "queued". */
  predicate Honest(e: Event) {
    e.JobProgress? || e.JobResult? ==> e.status !in {Pending, Queued}
  }

  lemma SubmitKeeps(t: Tables, maxQueue: int, e: Event)
    requires Exclusive(t) && e.Submit?
    ensures Exclusive(Step(t, maxQueue, e))
  {
    var t' := Step(t, maxQueue, e);
    forall a | a in t'.agents ensures Holds(t', a) {
      assert Holds(t, a);
    }
  }

  lemma DequeueKeeps(t: Tables, maxQueue: int, e: Event)
    requires Exclusive(t) && e.Dequeue?
    ensures Exclusive(Step(t, maxQueue, e))
  {
    var t' := Step(t, maxQueue, e);
    forall a | a in t'.agents ensures Holds(t', a) {
      assert Holds(t, a);
    }
  }

  lemma ReportKeeps(t: Tables, maxQueue: int, e: Event)
    requires Exclusive(t) && Honest(e)
    requires e.JobAccepted? || e.JobProgress? || e.AgentReport? || e.ForceRelease? || e.CreateAgent? || e.ExpireStale?
             || e.OtherTables?
    ensures Exclusive(Step(t, maxQueue, e))
  {
    var t' := Step(t, maxQueue, e);
    LettingGoKeepsUnshared(t.agents, t'.agents);
    forall a | a in t'.agents ensures Holds(t', a) {
      assert a in t.agents ==> Holds(t, a);
    }
  }

  lemma ResultKeeps(t: Tables, id: JobId, status: JobStatus, now: Time)
    requires Exclusive(t) && status !in {Pending, Queued}
    ensures Exclusive(OnResult(t, id, status, now))
  {
    var t' := OnResult(t, id, status, now);
    LettingGoKeepsUnshared(t.agents, t'.agents);
    forall a | a in t'.agents ensures Holds(t', a) {
      assert Holds(t, a);
    }
  }

  lemma StateSyncKeeps(t: Tables, maxQueue: int, e: Event)
    requires Exclusive(t) && e.StateSync?
    ensures Exclusive(Step(t, maxQueue, e))
  {
    var t' := Step(t, maxQueue, e);
    LettingGoKeepsUnshared(t.agents, t'.agents);
    forall a | a in t'.agents ensures Holds(t', a) {
      assert Holds(t, a);
    }
  }

  lemma DeleteKeeps(t: Tables, a: AgentId)
    requires Exclusive(t)
    ensures Exclusive(Delete(t, a))
  {
    var t' := Delete(t, a);
    LettingGoKeepsUnshared(t.agents, t'.agents);
    forall x | x in t'.agents ensures Holds(t', x) {
      assert Holds(t, x);
    }
  }

  lemma UnlinkKeeps(t: Tables, a: AgentId)
    requires Exclusive(t)
    ensures Exclusive(t.(jobs := Unlinked(t.jobs, a)))
  {
    var t' := t.(jobs := Unlinked(t.jobs, a));
    forall x | x in t'.agents ensures Holds(t', x) {
      assert Holds(t, x);
    }
  }

  lemma DrainKeeps(t: Tables, a: AgentId, now: Time)
    requires Exclusive(t)
    ensures Exclusive(OnDrain(t, a, now))
  {
    DeleteKeeps(t, a);
    UnlinkKeeps(t, a);
    DeleteKeeps(t.(jobs := Unlinked(t.jobs, a)), a);
    if a in t.agents {
      var marked := t.(agents := t.agents[a := t.agents[a].(status := AgentFailed, updatedAt := now)]);
      LettingGoKeepsUnshared(t.agents, marked.agents);
      forall x | x in marked.agents ensures Holds(marked, x) {
        assert Holds(t, x);
      }
    }
  }

  lemma StepKeepsExclusive(t: Tables, maxQueue: int, e: Event)
    requires Exclusive(t) && Honest(e)
    ensures Exclusive(Step(t, maxQueue, e))
  {
    match e
    case Submit(_, _, _, _, _) => SubmitKeeps(t, maxQueue, e);
    case Dequeue(_, _, _, _) => DequeueKeeps(t, maxQueue, e);
    case JobResult(id, status, now) => ResultKeeps(t, id, status, now);
    case JobRejected(id, now) => ResultKeeps(t, id, Failed, now);
    case Cancel(id, _, now) => ResultKeeps(t, id, Cancelled, now);
    case StateSync(_, _, _) => StateSyncKeeps(t, maxQueue, e);
    case Drain(a, now) => DrainKeeps(t, a, now);
    case DeleteAgent(a) => DeleteKeeps(t, a);
    case _ => ReportKeeps(t, maxQueue, e);
  }

  /** Exclusivity in every state any sequence of events reaches. */
  lemma {:induction false} AlwaysExclusive(t: Tables, maxQueue: int, es: seq<Event>)
    requires Exclusive(t) && forall e | e in es :: Honest(e)
    ensures Exclusive(Run(t, maxQueue, es))
  {
    if es != [] {
      AlwaysExclusive(t, maxQueue, es[..|es| - 1]);
      StepKeepsExclusive(Run(t, maxQueue, es[..|es| - 1]), maxQueue, es[|es| - 1]);
    }
  }

  /** The honesty that exclusivity needs: a dishonest progress report breaks it exactly when it hits a held job. */
  lemma ProgressKeepsIff(t: Tables, maxQueue: int, e: Event)
    requires Exclusive(t) && e.JobProgress?
    ensures Exclusive(Step(t, maxQueue, e)) <==>
              !(e.status in {Pending, Queued} && exists a | a in t.agents :: t.agents[a].jobId == Some(e.job))
  {
    var t' := Step(t, maxQueue, e);
    if e.status in {Pending, Queued} {
      if a :| a in t.agents && t.agents[a].jobId == Some(e.job) {
        assert Holds(t, a);
        assert !Holds(t', a);
      } else {
        forall a | a in t'.agents ensures Holds(t', a) {
          assert Holds(t, a);
        }
      }
    } else {
      StepKeepsExclusive(t, maxQueue, e);
    }
  }

  /** No event gives a busy agent to another job: it keeps its job or is let go. */
  lemma HeldJobIsNeverReplaced(t: Tables, maxQueue: int, e: Event, a: AgentId)
    requires Exclusive(t) && a in t.agents && t.agents[a].jobId.Some?
    ensures var t' := Step(t, maxQueue, e);
            a in t'.agents ==>
              || (t'.agents[a].jobId == t.agents[a].jobId && t'.agents[a].userId == t.agents[a].userId)
              || (t'.agents[a].jobId == None && t'.agents[a].userId == None)
  {
    assert Holds(t, a);
  }

  /** A result frees whatever agent the job's row names, also when that agent has since moved on to another job. */
  lemma ResultFreesTheNamedAgent(t: Tables, maxQueue: int, e: Event, a: AgentId)
    requires Exclusive(t) && e.JobResult? && a in t.agents && t.agents[a].jobId.Some?
    ensures Step(t, maxQueue, e).agents[a].jobId.None? <==> e.job in t.jobs && t.jobs[e.job].agentId == Some(a)
  {
    assert Holds(t, a);
  }

  /**
   Draining an agent that another table names fails, but only after its finished jobs were unlinked:
   the agent still holds its job, and neither that job's result nor a drain frees it any more.
   */
  lemma RefusedDrainUnlinks(t: Tables, maxQueue: int, a: AgentId, now: Time, later: Event)
    requires a in t.agents && t.agents[a].status == AgentFailed && t.agents[a].jobId.Some?
    requires a in t.pinned && AllFinished(t, a)
    ensures var t' := Step(t, maxQueue, Drain(a, now));
            && t'.agents == t.agents && !NamedByJob(t', a)
            && (later.JobResult? || later.Drain? ==>
                  var agents := Step(t', maxQueue, later).agents;
                  a in agents && agents[a].jobId == t.agents[a].jobId)
  {
    var t' := Step(t, maxQueue, Drain(a, now));
    if later.JobResult? && later.job in t'.jobs {
      assert t'.jobs[later.job].agentId != Some(a);
    }
  }

  /** A dispatch that times out fails the job but leaves its agent held, and cancelling the job no longer frees it. */
  lemma TimedOutDispatchKeepsItsAgent(t: Tables, maxQueue: int, a: AgentId, user: UserId, now: Time, later: Time)
    requires Exclusive(t) && a in t.agents && t.agents[a].jobId.Some?
    requires DispatchExpired(t.jobs[t.agents[a].jobId.value], now, DISPATCH_TIMEOUT)
    ensures var id := t.agents[a].jobId.value;
            var t' := Step(t, maxQueue, ExpireStale(now));
            && t'.jobs[id].status == Failed && t'.agents[a] == t.agents[a] && !IsFree(t'.agents[a])
            && Step(t', maxQueue, Cancel(id, user, later)) == t'
  {
    assert Holds(t, a);
  }

  /**
   After a state sync every active job of the device is reported or young, no agent holds a job
   that was lost, and syncing again changes nothing.
   */
  lemma StateSyncSettles(t: Tables, maxQueue: int, e: Event)
    requires e.StateSync?
    ensures var t' := Step(t, maxQueue, e);
            && (forall id | id in t'.jobs && t'.jobs[id].status.IsActive() && t'.jobs[id].agentId.Some?
                            && t'.jobs[id].agentId.value in OfDevice(t.agents, e.device) ::
                  id in e.reported || (t'.jobs[id].startedAt.Some? && e.now - t'.jobs[id].startedAt.value < 120))
            && (Exclusive(t) ==> forall a, id | a in t'.agents && id in t.jobs && Lost(t, id, e) ::
                t'.agents[a].jobId != Some(id))
            && Step(t', maxQueue, e) == t'
  {
    var t' := Step(t, maxQueue, e);
    forall id | id in t.jobs ensures !Lost(t', id, e) {
    }
    if Exclusive(t) {
      forall a, id | a in t'.agents && id in t.jobs && Lost(t, id, e) ensures t'.agents[a].jobId != Some(id) {
        assert Holds(t, a);
      }
    }
    assert forall a | a in t'.agents :: !LosesJob(t', a, e);
    assert StateSynced(t', e).jobs == t'.jobs && StateSynced(t', e).agents == t'.agents;
  }

  // ----- the queue cap

  ghost predicate CapHolds(t: Tables, maxQueue: int) {
    forall user :: |QueuedBy(t.jobs, user)| <= maxQueue
  }

  lemma OnlySubmitQueues(t: Tables, maxQueue: int, e: Event, user: UserId)
    requires Honest(e)
    ensures QueuedBy(Step(t, maxQueue, e).jobs, user) <=
              QueuedBy(t.jobs, user) + if e.Submit? && e.user == user then {e.job} else {}
  {
    match e
    case Submit(_, _, _, _, _) => SubmitQueuesNoOther(t, maxQueue, e, user);
    case Dequeue(_, _, _, _) => DequeueQueuesNothing(t, maxQueue, e, user);
    case Drain(_, _) =>
    case _ => ReportQueuesNothing(t, maxQueue, e, user);
  }

  lemma SubmitQueuesNoOther(t: Tables, maxQueue: int, e: Event, user: UserId)
    requires e.Submit?
    ensures QueuedBy(Step(t, maxQueue, e).jobs, user) <= QueuedBy(t.jobs, user) + if e.user == user then {e.job} else {}
  {
    var jobs := Step(t, maxQueue, e).jobs;
    assert jobs.Keys <= t.jobs.Keys + {e.job};
    assert forall id | id in jobs ::
        (id == e.job && jobs[id].userId == e.user) || (id in t.jobs && jobs[id] == t.jobs[id]);
  }

  lemma DequeueQueuesNothing(t: Tables, maxQueue: int, e: Event, user: UserId)
    requires e.Dequeue?
    ensures QueuedBy(Step(t, maxQueue, e).jobs, user) <= QueuedBy(t.jobs, user)
  {
    var jobs := Step(t, maxQueue, e).jobs;
    assert jobs.Keys == t.jobs.Keys;
    assert forall id | id in jobs && id != e.job :: jobs[id] == t.jobs[id];
  }

  lemma ReportQueuesNothing(t: Tables, maxQueue: int, e: Event, user: UserId)
    requires Honest(e) && !e.Submit? && !e.Dequeue? && !e.Drain?
    ensures QueuedBy(Step(t, maxQueue, e).jobs, user) <= QueuedBy(t.jobs, user)
  {
    if e.StateSync? {
      assert forall id | id in t.jobs :: StateSynced(t, e).jobs[id].status == Queued ==> t.jobs[id].status == Queued;
    }
  }

  lemma SubmitRespectsCap(t: Tables, maxQueue: int, e: Event)
    requires e.Submit? && QueueFull(t, maxQueue, e.user) && e.job !in t.jobs
    ensures QueuedBy(Step(t, maxQueue, e).jobs, e.user) == QueuedBy(t.jobs, e.user)
  {
    var created := t.jobs[e.job := NewJob(e.user, e.now)];
    assert QueuedBy(created, e.user) == QueuedBy(t.jobs, e.user);
  }

  lemma SubsetNotLarger<T>(a: set<T>, b: set<T>)
    requires a <= b
    ensures |a| <= |b|
  {
    assert b == a + (b - a);
  }

  lemma StepKeepsCap(t: Tables, maxQueue: int, e: Event)
    requires maxQueue > 0 && Honest(e) && CapHolds(t, maxQueue)
    ensures CapHolds(Step(t, maxQueue, e), maxQueue)
  {
    var t' := Step(t, maxQueue, e);
    forall user ensures |QueuedBy(t'.jobs, user)| <= maxQueue {
      var mine := QueuedBy(t.jobs, user);
      assert |mine| <= maxQueue;
      OnlySubmitQueues(t, maxQueue, e, user);
      if e.Submit? && e.user == user && e.job !in t.jobs && |mine| >= maxQueue {
        SubmitRespectsCap(t, maxQueue, e);
      } else if e.Submit? && e.user == user && e.job !in t.jobs {
        SubsetNotLarger(QueuedBy(t'.jobs, user), mine + {e.job});
      } else {
        SubsetNotLarger(QueuedBy(t'.jobs, user), mine);
      }
    }
  }

  /** No user ever has more queued jobs than the cap, whatever fails and is queued again. */
  lemma {:induction false} QueueCapAlwaysHolds(t: Tables, maxQueue: int, es: seq<Event>)
    requires maxQueue > 0 && CapHolds(t, maxQueue) && forall e | e in es :: Honest(e)
    ensures CapHolds(Run(t, maxQueue, es), maxQueue)
  {
    if es != [] {
      QueueCapAlwaysHolds(t, maxQueue, es[..|es| - 1]);
      StepKeepsCap(Run(t, maxQueue, es[..|es| - 1]), maxQueue, es[|es| - 1]);
    }
  }

  // ----- the handlers as they run their statements

  datatype DrainResult = NotFound | Gone | Marked | StillActive | Refused

  class Gateway {
    const allocator: Allocator
    const maxQueue: int

    constructor (allocator: Allocator, maxQueue: int)
      ensures this.allocator == allocator && this.maxQueue == maxQueue
    {
      this.allocator, this.maxQueue := allocator, maxQueue;
    }

    method Release(a: AgentId, now: Time)
      modifies allocator.db`jobs, allocator.db`agents
      ensures allocator.db.Contents() == Freed(old(allocator.db.Contents()), a, now)
    {
      allocator.db.ReleaseAgent(a, now);
    }

    /** full: 429; otherwise 201 with the agent, or 202 with the job queued. */
    method SubmitJob(id: JobId, user: UserId, accepted: bool, now: Time) returns (full: bool, agent: Option<AgentId>)
      requires id !in allocator.db.jobs
      modifies allocator.db`jobs, allocator.db`agents
      ensures allocator.db.Contents()
              == Step(old(allocator.db.Contents()), maxQueue, Submit(id, user, agent, accepted, now))
      ensures full <==> QueueFull(old(allocator.db.Contents()), maxQueue, user)
      ensures id in allocator.db.jobs && allocator.db.jobs[id].status ==
                if full then Pending else if agent.Some? && accepted then Dispatched else Queued
    {
      var db := allocator.db;
      ghost var t := db.Contents();
      db.jobs := db.jobs[id := NewJob(user, now)];
      assert QueuedBy(db.jobs, user) == QueuedBy(t.jobs, user);
      if maxQueue > 0 && |QueuedBy(db.jobs, user)| >= maxQueue {
        return true, None;
      }
      agent := db.FindIdle();
      if agent.None? {
        db.UpdateStatus(id, Queued, now);
        return false, None;
      }
      assert AgentSelected(t.agents, agent.value);
      allocator.Match(id, agent.value, accepted, now);
      return false, agent;
    }

    method OnJobAccepted(id: JobId, now: Time)
      modifies allocator.db`jobs, allocator.db`agents
      ensures allocator.db.Contents() == Step(old(allocator.db.Contents()), maxQueue, JobAccepted(id, now))
    {
      allocator.db.UpdateStatus(id, Running, now);
    }

    method OnJobProgress(id: JobId, status: JobStatus, now: Time)
      modifies allocator.db`jobs, allocator.db`agents
      ensures allocator.db.Contents() == Step(old(allocator.db.Contents()), maxQueue, JobProgress(id, status, now))
    {
      allocator.db.UpdateProgress(id, status, now);
    }

    method OnJobResult(id: JobId, status: JobStatus, now: Time)
      modifies allocator.db`jobs, allocator.db`agents
      ensures allocator.db.Contents() == Step(old(allocator.db.Contents()), maxQueue, JobResult(id, status, now))
    {
      var db := allocator.db;
      db.UpdateResult(id, status, now);
      if id in db.jobs && db.jobs[id].agentId.Some? {
        Release(db.jobs[id].agentId.value, now);
      }
    }

    /** Whether the job existed, was this user's and was not finished. */
    method CancelJob(id: JobId, user: UserId, now: Time) returns (cancelled: bool)
      modifies allocator.db`jobs, allocator.db`agents
      ensures allocator.db.Contents() == Step(old(allocator.db.Contents()), maxQueue, Cancel(id, user, now))
      ensures cancelled <==> id in old(allocator.db.jobs) && old(allocator.db.jobs)[id].userId == user
                             && !old(allocator.db.jobs)[id].status.IsTerminal()
    {
      var db := allocator.db;
      if id !in db.jobs || db.jobs[id].userId != user || db.jobs[id].status.IsTerminal() {
        return false;
      }
      OnJobResult(id, Cancelled, now);
      return true;
    }

    /** An idle or failed agent goes, once nothing but finished jobs names it; any other is marked failed. */
    method DrainAgent(a: AgentId, now: Time) returns (r: DrainResult)
      modifies allocator.db`jobs, allocator.db`agents
      ensures allocator.db.Contents() == Step(old(allocator.db.Contents()), maxQueue, Drain(a, now))
      ensures r == if a !in old(allocator.db.agents) then NotFound
                   else if old(allocator.db.agents)[a].status !in {Idle, AgentFailed} then Marked
                   else if a !in allocator.db.agents then Gone
                   else if AllFinished(old(allocator.db.Contents()), a) then Refused
                   else StillActive
    {
      var db := allocator.db;
      if a !in db.agents {
        return NotFound;
      }
      if db.agents[a].status in {Idle, AgentFailed} {
        var gone := db.DeleteAgent(a);
        if gone {
          return Gone;
        }
        if exists id | id in db.jobs && db.jobs[id].agentId == Some(a) :: !db.jobs[id].status.IsTerminal() {
          return StillActive;
        }
        db.jobs := Unlinked(db.jobs, a);
        gone := db.DeleteAgent(a);
        return if gone then Gone else Refused;
      }
      db.UpdateAgentStatus(a, AgentFailed, now);
      return Marked;
    }

    method OnAgentStatus(a: AgentId, status: AgentStatus, now: Time)
      modifies allocator.db`jobs, allocator.db`agents
      ensures allocator.db.Contents() == Step(old(allocator.db.Contents()), maxQueue, AgentReport(a, status, now))
    {
      allocator.db.UpdateAgentStatus(a, status, now);
    }

    /** Every lost job is failed, and its agent released, one by one. */
    method OnStateSync(device: DeviceId, reported: set<JobId>, now: Time)
      modifies allocator.db`jobs, allocator.db`agents
      ensures allocator.db.Contents() == Step(old(allocator.db.Contents()), maxQueue, StateSync(device, reported, now))
    {
      var db := allocator.db;
      ghost var t, e := db.Contents(), StateSync(device, reported, now);
      var agents := set a | a in db.agents && db.agents[a].deviceId == device;
      LostIsListed(t, e, agents);
      while agents != {}
        invariant agents <= OfDevice(t.agents, device)
        invariant Synced(t, db.Contents(), e, JobsOf(t, agents))
      {
        var a :| a in agents;
        SyncOneAgent(a, reported, now, t, e, agents);
        agents := agents - {a};
      }
      SyncFinished(t, db.Contents(), e, JobsOf(t, agents));
    }

    method SyncOneAgent(a: AgentId, reported: set<JobId>, now: Time, ghost t: Tables, ghost e: Event,
                        ghost agents: set<AgentId>)
      requires e.StateSync? && e.reported == reported && e.now == now
      requires a in agents && a in OfDevice(t.agents, e.device)
      requires Synced(t, allocator.db.Contents(), e, JobsOf(t, agents))
      modifies allocator.db`jobs, allocator.db`agents
      ensures Synced(t, allocator.db.Contents(), e, JobsOf(t, agents - {a}))
    {
      var db := allocator.db;
      var list := set id | id in db.jobs && db.jobs[id].agentId == Some(a);
      ListedJobs(t, db.Contents(), e, agents, a, list);
      SyncJobs(list, a, reported, now, t, e, JobsOf(t, agents - {a}));
    }

    method SyncJobs(listed: set<JobId>, a: AgentId, reported: set<JobId>, now: Time,
                    ghost t: Tables, ghost e: Event, ghost others: set<JobId>)
      requires e.StateSync? && e.reported == reported && e.now == now && a in OfDevice(t.agents, e.device)
      requires listed <= JobsOf(t, {a}) && others !! listed
      requires Synced(t, allocator.db.Contents(), e, others + listed)
      modifies allocator.db`jobs, allocator.db`agents
      ensures Synced(t, allocator.db.Contents(), e, others)
    {
      var list := listed;
      while list != {}
        invariant list <= listed && Synced(t, allocator.db.Contents(), e, others + list)
        decreases |list|
      {
        var id :| id in list;
        SyncOneJob(id, a, reported, now, t, e, others + list);
        TakeOne(others, list, id);
        list := list - {id};
      }
      assert others + list == others;
    }

    method SyncOneJob(id: JobId, a: AgentId, reported: set<JobId>, now: Time, ghost t: Tables, ghost e: Event,
                      ghost left: set<JobId>)
      requires e.StateSync? && e.reported == reported && e.now == now
      requires id in left && id in JobsOf(t, {a}) && a in OfDevice(t.agents, e.device)
      requires Synced(t, allocator.db.Contents(), e, left)
      modifies allocator.db`jobs, allocator.db`agents
      ensures Synced(t, allocator.db.Contents(), e, left - {id})
    {
      var db := allocator.db;
      var j := db.jobs[id];
      assert j == t.jobs[id];
      if Lost(t, id, e) {
        SyncLost(t, db.Contents(), e, left, id, a);
      } else {
        SyncKept(t, db.Contents(), e, left, id, a);
      }
      if j.status.IsActive() && id !in reported && !(j.startedAt.Some? && now - j.startedAt.value < SYNC_GRACE) {
        db.UpdateResult(id, Failed, now);
        Release(a, now);
      }
    }
  }

  lemma TakeOne<T>(others: set<T>, list: set<T>, x: T)
    requires x in list && others !! list
    ensures (others + list) - {x} == others + (list - {x}) && |list - {x}| < |list|
  {
    assert list == (list - {x}) + {x};
  }

  function JobsOf(t: Tables, agents: set<AgentId>): set<JobId> {
    set id | id in t.jobs && t.jobs[id].agentId.Some? && t.jobs[id].agentId.value in agents
  }

  lemma LostIsListed(t: Tables, e: Event, agents: set<AgentId>)
    requires e.StateSync? && agents == OfDevice(t.agents, e.device)
    ensures Synced(t, t, e, JobsOf(t, agents))
  {
    assert forall id | id in t.jobs && Lost(t, id, e) :: id in JobsOf(t, agents);
  }

  lemma ListedJobs(t: Tables, now: Tables, e: Event, agents: set<AgentId>, a: AgentId, list: set<JobId>)
    requires e.StateSync? && Synced(t, now, e, JobsOf(t, agents)) && a in agents
    requires list == set id | id in now.jobs && now.jobs[id].agentId == Some(a)
    ensures list == JobsOf(t, {a}) && JobsOf(t, agents - {a}) !! list
            && JobsOf(t, agents - {a}) + list == JobsOf(t, agents)
  {
    assert forall id | id in t.jobs :: now.jobs[id].agentId == t.jobs[id].agentId;
  }

  lemma SyncFinished(t: Tables, now: Tables, e: Event, left: set<JobId>)
    requires e.StateSync? && Synced(t, now, e, left) && left == {}
    ensures now == StateSynced(t, e)
  {
    forall a | a in now.agents ensures LosesOutside(t, a, e, left) <==> LosesJob(t, a, e) {
    }
    assert now.jobs == StateSynced(t, e).jobs;
    assert now.agents == StateSynced(t, e).agents;
  }

  lemma LosesOneMore(t: Tables, e: Event, left: set<JobId>, id: JobId, a: AgentId, x: AgentId)
    requires e.StateSync? && id in left && id in JobsOf(t, {a})
    ensures LosesOutside(t, x, e, left - {id}) <==> LosesOutside(t, x, e, left) || (Lost(t, id, e) && x == a)
  {
    if Lost(t, id, e) && x == a {
      assert id !in left - {id};
    }
  }

  lemma SyncLost(t: Tables, now: Tables, e: Event, left: set<JobId>, id: JobId, a: AgentId)
    requires e.StateSync? && Synced(t, now, e, left)
    requires id in left && id in JobsOf(t, {a}) && a in OfDevice(t.agents, e.device) && Lost(t, id, e)
    ensures Synced(t, Freed(now.(jobs := now.jobs[id := WithResult(now.jobs[id], Failed, e.now)]), a, e.now), e,
                   left - {id})
  {
    assert SyncedJobs(t, now.jobs[id := WithResult(now.jobs[id], Failed, e.now)], e, left - {id});
    SyncLostAgents(t, now.agents, e, left, id, a);
  }

  lemma SyncLostAgents(t: Tables, agents: Agents, e: Event, left: set<JobId>, id: JobId, a: AgentId)
    requires e.StateSync? && SyncedAgents(t, agents, e, left)
    requires id in left && id in JobsOf(t, {a}) && a in OfDevice(t.agents, e.device) && Lost(t, id, e)
    ensures a in agents && SyncedAgents(t, agents[a := AsReleased(agents[a], e.now)], e, left - {id})
  {
    forall x | x in agents ensures LosesOutside(t, x, e, left - {id}) <==> LosesOutside(t, x, e, left) || x == a {
      LosesOneMore(t, e, left, id, a, x);
    }
  }

  lemma SyncKept(t: Tables, now: Tables, e: Event, left: set<JobId>, id: JobId, a: AgentId)
    requires e.StateSync? && Synced(t, now, e, left)
    requires id in left && id in JobsOf(t, {a}) && !Lost(t, id, e)
    ensures Synced(t, now, e, left - {id})
  {
    forall x | x in now.agents ensures LosesOutside(t, x, e, left - {id}) <==> LosesOutside(t, x, e, left) {
      LosesOneMore(t, e, left, id, a, x);
    }
  }

  predicate LosesOutside(t: Tables, a: AgentId, e: Event, left: set<JobId>)
    requires e.StateSync?
  {
    exists id | id in t.jobs && id !in left :: Lost(t, id, e) && t.jobs[id].agentId == Some(a)
  }

  /** State sync so far: jobs in `left` are still to be looked at. */
  ghost predicate Synced(t: Tables, now: Tables, e: Event, left: set<JobId>)
    requires e.StateSync?
  {
    SyncedJobs(t, now.jobs, e, left) && SyncedAgents(t, now.agents, e, left) && now.pinned == t.pinned
  }

  ghost predicate SyncedJobs(t: Tables, jobs: Jobs, e: Event, left: set<JobId>)
    requires e.StateSync?
  {
    && jobs.Keys == t.jobs.Keys
    && forall id | id in t.jobs ::
         jobs[id] == if Lost(t, id, e) && id !in left then WithResult(t.jobs[id], Failed, e.now) else t.jobs[id]
  }

  ghost predicate SyncedAgents(t: Tables, agents: Agents, e: Event, left: set<JobId>)
    requires e.StateSync?
  {
    && agents.Keys == t.agents.Keys
    && forall a | a in t.agents ::
         agents[a] == if LosesOutside(t, a, e, left) then AsReleased(t.agents[a], e.now) else t.agents[a]
  }
}
