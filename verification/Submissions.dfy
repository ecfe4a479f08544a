/**
 Submissions that overlap: the count of a user's queued jobs and the insert into the queue are
 separate statements, so several submissions may pass the check before any of them is queued.
 */
module Submissions {
  import opened Prelude
  import opened Stores
  import opened Scheduler
  import opened Pool

  /** inFlight: the jobs whose submission has counted and not yet gone on, with their users. */
  datatype State = State(t: Tables, inFlight: map<JobId, UserId>)

  datatype Step =
    | Count(job: JobId, user: UserId, now: Time)     // create the row, count, go on only if there is room
    | Finish(submit: Event)                          // find an agent and dispatch, or queue
    | Other(event: Event)

  predicate Enabled(s: State, a: Step) {
    match a
    case Count(job, _, _) => job !in s.t.jobs
    case Finish(e) =>
      e.Submit? && e.job in s.inFlight && e.job in s.t.jobs && s.inFlight[e.job] == e.user
      && s.t.jobs[e.job].userId == e.user
      && (e.agent.Some? ==> AgentSelected(s.t.agents, e.agent.value))   // the lookup that found none may be older
    case Other(e) => !e.Submit?
  }

  function Apply(s: State, maxQueue: int, a: Step): State {
    if !Enabled(s, a) then s
    else
      match a
      case Count(job, user, now) =>
        State(s.t.(jobs := s.t.jobs[job := NewJob(user, now)]),
              if QueueFull(s.t, maxQueue, user) then s.inFlight else s.inFlight[job := user])
      case Finish(e) => State(Admitted(s.t, e), s.inFlight - {e.job})
      case Other(e) => s.(t := Pool.Step(s.t, maxQueue, e))
  }

  function Run(s: State, maxQueue: int, steps: seq<Step>): State {
    if steps == [] then s else Apply(Run(s, maxQueue, steps[..|steps| - 1]), maxQueue, steps[|steps| - 1])
  }

  function InFlightOf(s: State, user: UserId): set<JobId> {
    set id | id in s.inFlight && s.inFlight[id] == user
  }

  /** At no time are more than n submissions of this user between their count and their insert. */
  ghost predicate AtMost(s: State, maxQueue: int, steps: seq<Step>, user: UserId, n: nat) {
    && |InFlightOf(Run(s, maxQueue, steps), user)| <= n
    && (steps != [] ==> AtMost(s, maxQueue, steps[..|steps| - 1], user, n))
  }

  predicate HonestStep(a: Step) {
    a.Other? ==> Honest(a.event)
  }

  lemma CountStep(s: State, maxQueue: int, a: Step, user: UserId)
    requires a.Count?
    ensures var s' := Apply(s, maxQueue, a);
            && QueuedBy(s'.t.jobs, user) == QueuedBy(s.t.jobs, user)
            && (InFlightOf(s', user) <= InFlightOf(s, user) || |QueuedBy(s.t.jobs, user)| < maxQueue || maxQueue <= 0)
  {
    var s' := Apply(s, maxQueue, a);
    assert QueuedBy(s'.t.jobs, user) == QueuedBy(s.t.jobs, user);
  }

  lemma FinishStep(s: State, maxQueue: int, a: Step, user: UserId)
    requires a.Finish? && Enabled(s, a)
    ensures var s' := Apply(s, maxQueue, a);
            if a.submit.user == user then
              QueuedBy(s'.t.jobs, user) <= QueuedBy(s.t.jobs, user) + {a.submit.job}
              && InFlightOf(s', user) == InFlightOf(s, user) - {a.submit.job} && a.submit.job in InFlightOf(s, user)
            else
              QueuedBy(s'.t.jobs, user) <= QueuedBy(s.t.jobs, user) && InFlightOf(s', user) == InFlightOf(s, user)
  {
  }

  lemma StepKeepsBound(s: State, maxQueue: int, a: Step, user: UserId, n: nat)
    requires maxQueue > 0 && n > 0 && HonestStep(a)
    requires |QueuedBy(s.t.jobs, user)| + |InFlightOf(s, user)| <= maxQueue + n - 1
    requires |InFlightOf(Apply(s, maxQueue, a), user)| <= n
    ensures |QueuedBy(Apply(s, maxQueue, a).t.jobs, user)| + |InFlightOf(Apply(s, maxQueue, a), user)|
            <= maxQueue + n - 1
  {
    var s' := Apply(s, maxQueue, a);
    if !Enabled(s, a) {
    } else if a.Count? {
      CountStep(s, maxQueue, a, user);
      if InFlightOf(s', user) <= InFlightOf(s, user) {
        SubsetNotLarger(InFlightOf(s', user), InFlightOf(s, user));
      }
    } else if a.Finish? {
      FinishStep(s, maxQueue, a, user);
      SubsetNotLarger(QueuedBy(s'.t.jobs, user),
                      QueuedBy(s.t.jobs, user) + if a.submit.user == user then {a.submit.job} else {});
    } else {
      OnlySubmitQueues(s.t, maxQueue, a.event, user);
      SubsetNotLarger(QueuedBy(s'.t.jobs, user), QueuedBy(s.t.jobs, user));
    }
  }

  /**
   With at most n submissions of a user overlapping, the user
   never has more than n - 1 jobs too many in the queue.
   */
  lemma {:induction false} OverlapBoundsQueue(s: State, maxQueue: int, steps: seq<Step>, user: UserId, n: nat)
    requires maxQueue > 0 && n > 0 && |QueuedBy(s.t.jobs, user)| + |InFlightOf(s, user)| <= maxQueue + n - 1
    requires AtMost(s, maxQueue, steps, user, n) && forall a | a in steps :: HonestStep(a)
    ensures |QueuedBy(Run(s, maxQueue, steps).t.jobs, user)| + |InFlightOf(Run(s, maxQueue, steps), user)|
            <= maxQueue + n - 1
  {
    if steps != [] {
      var init, a := steps[..|steps| - 1], steps[|steps| - 1];
      OverlapBoundsQueue(s, maxQueue, init, user, n);
      StepKeepsBound(Run(s, maxQueue, init), maxQueue, a, user, n);
    }
  }

  // ----- the bound is reached

  function Counts(first: JobId, user: UserId, n: nat, now: Time): seq<Step> {
    if n == 0 then [] else Counts(first, user, n - 1, now) + [Count(first + n - 1, user, now)]
  }

  function Finishes(first: JobId, user: UserId, n: nat, now: Time): seq<Step> {
    if n == 0 then [] else Finishes(first, user, n - 1, now) + [Finish(Submit(first + n - 1, user, None, false, now))]
  }

  lemma Unfold(s: State, maxQueue: int, steps: seq<Step>, a: Step)
    ensures Run(s, maxQueue, steps + [a]) == Apply(Run(s, maxQueue, steps), maxQueue, a)
  {
    assert (steps + [a])[..|steps|] == steps;
  }

  lemma {:induction false} RunAppend(s: State, maxQueue: int, a: seq<Step>, b: seq<Step>)
    ensures Run(s, maxQueue, a + b) == Run(Run(s, maxQueue, a), maxQueue, b)
  {
    if b == [] {
      assert a + b == a;
    } else {
      RunAppend(s, maxQueue, a, b[..|b| - 1]);
      assert (a + b)[..|a + b| - 1] == a + b[..|b| - 1];
    }
  }

  /** The n jobs from `first` on are pending and in flight. */
  ghost predicate Pending(s: State, first: JobId, user: UserId, n: nat) {
    forall i | first <= i < first + n :: InFlight(s, i, user)
  }

  predicate InFlight(s: State, id: JobId, user: UserId) {
    && id in s.t.jobs && s.t.jobs[id].status == JobStatus.Pending && s.t.jobs[id].userId == user
    && id in s.inFlight && s.inFlight[id] == user
  }

  predicate Unused(s: State, first: JobId, n: nat) {
    forall i | first <= i < first + n :: i !in s.t.jobs
  }

  /** What n counts make of s. */
  ghost predicate Counted(s: State, s': State, first: JobId, user: UserId, n: nat) {
    && Pending(s', first, user, n) && s'.t.agents == s.t.agents
    && QueuedBy(s'.t.jobs, user) == QueuedBy(s.t.jobs, user)
    && forall i | i >= first + n :: i in s'.t.jobs <==> i in s.t.jobs
  }

  lemma OneMoreCounts(s: State, m: State, maxQueue: int, first: JobId, user: UserId, n: nat, now: Time)
    requires Counted(s, m, first, user, n) && first + n !in s.t.jobs && |QueuedBy(s.t.jobs, user)| < maxQueue
    ensures Counted(s, Apply(m, maxQueue, Count(first + n, user, now)), first, user, n + 1)
  {
    CountStep(m, maxQueue, Count(first + n, user, now), user);
    var s' := Apply(m, maxQueue, Count(first + n, user, now));
    forall i | first <= i < first + n + 1 ensures InFlight(s', i, user) {
      assert i < first + n ==> InFlight(m, i, user);
    }
  }

  lemma {:induction false} AllCount(s: State, maxQueue: int, first: JobId, user: UserId, n: nat, now: Time)
    requires Unused(s, first, n) && |QueuedBy(s.t.jobs, user)| < maxQueue
    ensures Counted(s, Run(s, maxQueue, Counts(first, user, n, now)), first, user, n)
  {
    if n > 0 {
      AllCount(s, maxQueue, first, user, n - 1, now);
      var before := Counts(first, user, n - 1, now);
      OneMoreCounts(s, Run(s, maxQueue, before), maxQueue, first, user, n - 1, now);
      Unfold(s, maxQueue, before, Count(first + n - 1, user, now));
    }
  }

  /** What n of `total` inserts make of s. */
  ghost predicate Finished(s: State, s': State, first: JobId, user: UserId, n: nat, total: nat) {
    && (forall i | first + n <= i < first + total :: InFlight(s', i, user)) && s'.t.agents == s.t.agents
    && |QueuedBy(s'.t.jobs, user)| == |QueuedBy(s.t.jobs, user)| + n
  }

  lemma OneMoreFinishes(s: State, m: State, maxQueue: int, first: JobId, user: UserId, n: nat, total: nat, now: Time)
    requires Finished(s, m, first, user, n, total) && n < total && FreeAgents(s.t.agents) == {}
    ensures Finished(s, Apply(m, maxQueue, Finish(Submit(first + n, user, None, false, now))), first, user, n + 1,
                     total)
  {
    var a := Finish(Submit(first + n, user, None, false, now));
    assert InFlight(m, first + n, user) && Enabled(m, a);
    var s' := Apply(m, maxQueue, a);
    assert QueuedBy(s'.t.jobs, user) == QueuedBy(m.t.jobs, user) + {first + n};
    forall i | first + n + 1 <= i < first + total ensures InFlight(s', i, user) {
      assert InFlight(m, i, user);
    }
  }

  lemma {:induction false} AllFinish(s: State, maxQueue: int, first: JobId, user: UserId, n: nat, total: nat, now: Time)
    requires n <= total && Pending(s, first, user, total) && FreeAgents(s.t.agents) == {}
    ensures Finished(s, Run(s, maxQueue, Finishes(first, user, n, now)), first, user, n, total)
  {
    if n > 0 {
      AllFinish(s, maxQueue, first, user, n - 1, total, now);
      var before := Finishes(first, user, n - 1, now);
      OneMoreFinishes(s, Run(s, maxQueue, before), maxQueue, first, user, n - 1, total, now);
      Unfold(s, maxQueue, before, Finish(Submit(first + n - 1, user, None, false, now)));
    }
  }

  /**
   With no agent free and room for one more job, n overlapping submissions put n more into the
   queue, so the cap is passed by n - 1.
   */
  lemma OverlapExceedsCap(s: State, maxQueue: int, first: JobId, user: UserId, n: nat, now: Time)
    requires Unused(s, first, n) && FreeAgents(s.t.agents) == {}
    requires |QueuedBy(s.t.jobs, user)| == maxQueue - 1
    ensures var s' := Run(s, maxQueue, Counts(first, user, n, now) + Finishes(first, user, n, now));
            |QueuedBy(s'.t.jobs, user)| == maxQueue + n - 1
  {
    AllCount(s, maxQueue, first, user, n, now);
    AllFinish(Run(s, maxQueue, Counts(first, user, n, now)), maxQueue, first, user, n, n, now);
    RunAppend(s, maxQueue, Counts(first, user, n, now), Finishes(first, user, n, now));
  }
}
