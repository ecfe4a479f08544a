/**
 The device's job dispatcher: accepting a job, polling the agent until it finishes, fails or
 times out, and reporting exactly one outcome, for every behaviour of agent and outbox.
 */
module Dispatcher {
  type Time = int

  const POLL_TIMEOUT: int := 3600
  const POLL_PERIOD: int := 2
  const MAX_FAILURES: nat := 5

  datatype Status = Running | OtherStatus | Succeeded | Failed | Cancelled {
    predicate IsTerminal() {
      this in {Succeeded, Failed, Cancelled}
    }
  }

  datatype Frame =
    | Accepted
    | Rejected
    | Progress(status: Status, percent: int)
    | LoginRequired
    | Result(status: Status)
    | FilePurged
    | AgentIdle

  /** A frame handed to the outbox; it is stored before it is sent, so it counts even if the send raises. */
  datatype Entry = Entry(frame: Frame, raised: bool)

  datatype AgentEvent = AskLogin | BrowserReady | BrowserError | OtherEvent

  /** One poll of the agent: the request raises, or it answers; asking for its events may raise as well. */
  datatype Poll = Unreachable | Answer(status: Status, percent: int, events: seq<AgentEvent>, eventsRaise: bool)

  /** Everything outside the dispatcher: the agent, the outbox's sends by number, the clock at each turn. */
  datatype World = World(
    hasClient: bool, hasStager: bool, startRaises: bool,
    polls: nat -> Poll, raises: nat -> bool, clock: nat -> Time)

  /** Every turn of the polling loop sleeps for its period. */
  ghost predicate ClockAdvances(w: World) {
    forall k: nat :: TurnTakesTime(w, k)
  }

  predicate TurnTakesTime(w: World, k: nat) {
    w.clock(k + 1) >= w.clock(k) + POLL_PERIOD
  }

  ghost predicate SendsWork(w: World) {
    forall k: nat :: !w.raises(k)
  }

  /** The outcome the agent's answers call for, from turn k on after this many failures in a row. */
  ghost function Verdict(w: World, k: nat, failures: nat, deadline: Time): Status
    requires ClockAdvances(w)
    decreases deadline - w.clock(k)
  {
    if w.clock(k) >= deadline then Failed
    else
      assert TurnTakesTime(w, k);
      match w.polls(k)
      case Unreachable => if failures + 1 >= MAX_FAILURES then Failed else Verdict(w, k + 1, failures + 1, deadline)
      case Answer(status, _, _, _) => if status.IsTerminal() then status else Verdict(w, k + 1, 0, deadline)
  }

  predicate IsOutcome(f: Frame) {
    f.Rejected? || f.Result?
  }

  // ----- what a run hands to the outbox

  /** Frame f as the n-th one of the run. */
  function Sent(w: World, f: Frame, n: nat): Entry {
    Entry(f, w.raises(n))
  }

  /** Relaying an agent's events: a send that raises is swallowed, and the remaining events with it. */
  function EventsLog(w: World, events: seq<AgentEvent>, percent: int, n: nat): seq<Entry> {
    if events == [] then []
    else if events[0] == OtherEvent then EventsLog(w, events[1..], percent, n)
    else
      var e := Sent(w, if events[0] == BrowserError then Progress(Running, percent) else LoginRequired, n);
      if e.raised then [e] else [e] + EventsLog(w, events[1..], percent, n + 1)
  }

  datatype Turn = Going | Finished | Broke

  datatype TurnResult = TurnResult(log: seq<Entry>, turn: Turn, percent: int)

  /** The progress frame of a turn, sent when there is something new. */
  function News(w: World, poll: Poll, lastPercent: int, n: nat): seq<Entry>
    requires poll.Answer?
  {
    if poll.percent != lastPercent || poll.status != Running
    then [Sent(w, Progress(poll.status, poll.percent), n)] else []
  }

  /** What a turn sends before it looks whether the status is terminal. */
  function Told(w: World, poll: Poll, lastPercent: int, n: nat): seq<Entry>
    requires poll.Answer?
  {
    var news := News(w, poll, lastPercent, n);
    news + Relayed(w, poll, n + |news|)
  }

  function Relayed(w: World, poll: Poll, n: nat): seq<Entry>
    requires poll.Answer?
  {
    if poll.eventsRaise then [] else EventsLog(w, poll.events, poll.percent, n)
  }

  /** One turn of the polling loop: Broke is any exception in its try block. */
  function TurnOf(w: World, poll: Poll, lastPercent: int, n: nat): TurnResult {
    if poll.Unreachable? then TurnResult([], Broke, lastPercent)
    else
      var news, told := News(w, poll, lastPercent, n), Told(w, poll, lastPercent, n);
      if news != [] && news[0].raised then TurnResult(news, Broke, lastPercent)
      else if !poll.status.IsTerminal() then TurnResult(told, Going, poll.percent)
      else
        var result := Sent(w, Result(poll.status), n + |told|);
        TurnResult(told + [result], if result.raised then Broke else Finished, poll.percent)
  }

  /** What part of a run hands over, and whether it ends with an exception. */
  datatype PartLog = PartLog(log: seq<Entry>, raised: bool)

  function After(log: seq<Entry>, p: PartLog): PartLog {
    PartLog(log + p.log, p.raised)
  }

  function GiveUp(w: World, n: nat): PartLog {
    PartLog([Sent(w, Result(Failed), n)], w.raises(n))
  }

  /** What turn k does, given the last percentage reported and the number of the next frame. */
  type TurnFunction = (nat, int, nat) -> TurnResult

  function Turns(w: World): TurnFunction {
    (k: nat, lastPercent: int, n: nat) => TurnOf(w, w.polls(k), lastPercent, n)
  }

  ghost function PollLog(w: World, turns: TurnFunction, k: nat, n: nat, lastPercent: int, failures: nat,
                         deadline: Time): PartLog
    requires ClockAdvances(w)
    decreases deadline - w.clock(k)
  {
    if w.clock(k) >= deadline then GiveUp(w, n)
    else
      assert TurnTakesTime(w, k);
      var t := turns(k, lastPercent, n);
      match t.turn
      case Finished => PartLog(t.log, false)
      case Going => After(t.log, PollLog(w, turns, k + 1, n + |t.log|, t.percent, 0, deadline))
      case Broke =>
        if failures + 1 >= MAX_FAILURES then After(t.log, GiveUp(w, n + |t.log|))
        else After(t.log, PollLog(w, turns, k + 1, n + |t.log|, t.percent, failures + 1, deadline))
  }

  function Deadline(w: World): Time {
    w.clock(0) + POLL_TIMEOUT
  }

  ghost function JobLog(w: World, n: nat): PartLog
    requires ClockAdvances(w)
  {
    if w.startRaises then PartLog([], true)
    else
      var first := Sent(w, Progress(Running, 0), n);
      if first.raised then PartLog([first], true) else After([first], PollLog(w, Turns(w), 0, n + 1, 0, 0, Deadline(w)))
  }

  /** The run up to its last outcome. */
  ghost function BodyLog(w: World): seq<Entry>
    requires ClockAdvances(w)
  {
    var accepted := Sent(w, Accepted, 0);
    if accepted.raised then [accepted]
    else if !w.hasClient then [accepted] + [Sent(w, Rejected, 1)]
    else
      var job := After([accepted], JobLog(w, 1));
      if job.raised then job.log + [Sent(w, Result(Failed), |job.log|)] else job.log
  }

  /** The finally block: an exception of its first send skips the rest. */
  function CleanUpLog(w: World, n: nat): seq<Entry> {
    if !w.hasStager then [Sent(w, AgentIdle, n)]
    else if w.raises(n) then [Sent(w, FilePurged, n)]
    else [Sent(w, FilePurged, n)] + [Sent(w, AgentIdle, n + 1)]
  }

  ghost function Transcript(w: World): seq<Entry>
    requires ClockAdvances(w)
  {
    var body := BodyLog(w);
    if w.raises(0) || !w.hasClient then body else body + CleanUpLog(w, |body|)
  }

  class JobDispatcher {
    const w: World
    var sent: seq<Entry>
    var agentBusy: bool

    constructor (w: World)
      ensures this.w == w && sent == [] && !agentBusy
    {
      this.w, sent, agentBusy := w, [], false;
    }

    method Enqueue(f: Frame) returns (raised: bool)
      modifies this`sent
      ensures raised == w.raises(|old(sent)|) && sent == old(sent) + [Sent(w, f, |old(sent)|)]
    {
      raised := w.raises(|sent|);
      sent := sent + [Entry(f, raised)];
    }

    /**
     The run of one JOB_DISPATCH. The agent stays busy if it is
     not reachable, or if an exception skips its release.
     */
    method HandleJobDispatch()
      requires sent == [] && ClockAdvances(w)
      modifies this
      ensures sent == Transcript(w)
      ensures agentBusy <==> w.raises(0) || !w.hasClient || (w.hasStager && w.raises(|BodyLog(w)|))
    {
      agentBusy := true;
      var raised := Enqueue(Accepted);
      if raised {
        return;
      }
      if !w.hasClient {
        raised := Enqueue(Rejected);
        return;
      }
      raised := RunJob();
      if raised {
        raised := Enqueue(Result(Failed));
      }
      assert sent == BodyLog(w);
      CleanUp();
    }

    method CleanUp()
      modifies this
      ensures sent == old(sent) + CleanUpLog(w, |old(sent)|)
      ensures agentBusy <==> old(agentBusy) && w.hasStager && w.raises(|old(sent)|)
    {
      if w.hasStager {
        var raised := Enqueue(FilePurged);
        if raised {
          return;
        }
      }
      agentBusy := false;
      var _ := Enqueue(AgentIdle);
    }

    /** The try block: start the job and poll it. */
    method RunJob() returns (raised: bool)
      requires ClockAdvances(w)
      modifies this`sent
      ensures PartLog(sent, raised) == After(old(sent), JobLog(w, |old(sent)|))
    {
      if w.startRaises {
        return true;
      }
      raised := Enqueue(Progress(Running, 0));
      if raised {
        return;
      }
      raised := PollProgress();
    }

    method PollProgress() returns (raised: bool)
      requires ClockAdvances(w)
      modifies this`sent
      ensures PartLog(sent, raised) == After(old(sent), PollLog(w, Turns(w), 0, |old(sent)|, 0, 0, Deadline(w)))
    {
      var deadline := w.clock(0) + POLL_TIMEOUT;
      var k: nat, lastPercent, failures := 0, 0, 0;
      while w.clock(k) < deadline
        invariant 0 <= failures < MAX_FAILURES
        invariant After(sent, PollLog(w, Turns(w), k, |sent|, lastPercent, failures, deadline))
                  == After(old(sent), PollLog(w, Turns(w), 0, |old(sent)|, 0, 0, deadline))
        decreases deadline - w.clock(k)
      {
        ghost var before, percent, f := sent, lastPercent, failures;
        var turn;
        turn, lastPercent := PollOnce(w.polls(k), lastPercent);
        NextTurn(w, k, before, percent, f, deadline);
        match turn {
          case Finished => return false;
          case Going => failures := 0;
          case Broke =>
            failures := failures + 1;
            if failures >= MAX_FAILURES {
              raised := Enqueue(Result(Failed));
              return;
            }
        }
        k := k + 1;
      }
      raised := Enqueue(Result(Failed));
    }

    method PollOnce(poll: Poll, lastPercent: int) returns (turn: Turn, percent: int)
      modifies this`sent
      ensures var t := TurnOf(w, poll, lastPercent, |old(sent)|);
              sent == old(sent) + t.log && turn == t.turn && percent == t.percent
    {
      if poll.Unreachable? {
        return Broke, lastPercent;
      }
      var raised := Tell(poll, lastPercent);
      if raised {
        return Broke, lastPercent;
      }
      if !poll.status.IsTerminal() {
        return Going, poll.percent;
      }
      raised := Enqueue(Result(poll.status));
      return if raised then Broke else Finished, poll.percent;
    }

    /** The progress frame, if there is something new, and the agent's events. */
    method Tell(poll: Poll, lastPercent: int) returns (raised: bool)
      requires poll.Answer?
      modifies this`sent
      ensures var n := |old(sent)|; raised <==> News(w, poll, lastPercent, n) != [] && w.raises(n)
      ensures var n := |old(sent)|;
              sent == old(sent) + if raised then News(w, poll, lastPercent, n) else Told(w, poll, lastPercent, n)
    {
      ghost var before, news := sent, News(w, poll, lastPercent, |sent|);
      raised := TellNews(poll, lastPercent);
      if raised {
        return;
      }
      ghost var relayed := Relayed(w, poll, |sent|);
      if !poll.eventsRaise {
        RelayEvents(poll.events, poll.percent);
      }
      assert sent == (before + news) + relayed == before + (news + relayed);
    }

    method TellNews(poll: Poll, lastPercent: int) returns (raised: bool)
      requires poll.Answer?
      modifies this`sent
      ensures var news := News(w, poll, lastPercent, |old(sent)|);
              sent == old(sent) + news && (raised <==> news != [] && w.raises(|old(sent)|))
    {
      raised := false;
      if poll.percent != lastPercent || poll.status != Running {
        raised := Enqueue(Progress(poll.status, poll.percent));
      }
    }

    method RelayEvents(events: seq<AgentEvent>, percent: int)
      modifies this`sent
      ensures sent == old(sent) + EventsLog(w, events, percent, |old(sent)|)
    {
      for i := 0 to |events|
        invariant sent + EventsLog(w, events[i..], percent, |sent|)
                  == old(sent) + EventsLog(w, events, percent, |old(sent)|)
      {
        assert events[i..][0] == events[i] && events[i..][1..] == events[i + 1..];
        if events[i] != OtherEvent {
          ghost var rest := EventsLog(w, events[i + 1..], percent, |sent| + 1);
          ghost var e := Sent(w, if events[i] == BrowserError then Progress(Running, percent) else LoginRequired,
                              |sent|);
          assert (sent + [e]) + rest == sent + ([e] + rest);
          var raised := Enqueue(if events[i] == BrowserError then Progress(Running, percent) else LoginRequired);
          if raised {
            return;
          }
        }
      }
    }
  }

  lemma NextTurn(w: World, k: nat, sent: seq<Entry>, lastPercent: int, failures: nat, deadline: Time)
    requires ClockAdvances(w) && w.clock(k) < deadline
    ensures var t := TurnOf(w, w.polls(k), lastPercent, |sent|);
            After(sent, PollLog(w, Turns(w), k, |sent|, lastPercent, failures, deadline)) ==
              match t.turn
              case Finished => PartLog(sent + t.log, false)
              case Going => After(sent + t.log, PollLog(w, Turns(w), k + 1, |sent + t.log|, t.percent, 0, deadline))
              case Broke =>
                After(sent + t.log, if failures + 1 >= MAX_FAILURES then GiveUp(w, |sent + t.log|)
                                    else PollLog(w, Turns(w), k + 1, |sent + t.log|, t.percent, failures + 1, deadline))
    ensures w.clock(k + 1) >= w.clock(k) + POLL_PERIOD
  {
    assert TurnTakesTime(w, k);
    var t := Turns(w)(k, lastPercent, |sent|);
    forall p: PartLog ensures After(sent, After(t.log, p)) == After(sent + t.log, p) {
      assert sent + (t.log + p.log) == (sent + t.log) + p.log;
    }
  }

  // ----- how many outcomes

  function Outcomes(sent: seq<Entry>): (n: nat)
    ensures n <= |sent|
  {
    if sent == [] then 0 else Outcomes(sent[..|sent| - 1]) + if IsOutcome(sent[|sent| - 1].frame) then 1 else 0
  }

  lemma {:induction false} OutcomesAppend(a: seq<Entry>, b: seq<Entry>)
    ensures Outcomes(a + b) == Outcomes(a) + Outcomes(b)
  {
    if b == [] {
      assert a + b == a;
    } else {
      OutcomesAppend(a, b[..|b| - 1]);
      assert (a + b)[..|a + b| - 1] == a + b[..|b| - 1];
    }
  }

  lemma OneEntry(e: Entry)
    ensures Outcomes([e]) == if IsOutcome(e.frame) then 1 else 0
  {
    assert [e][..0] == [];
  }

  lemma {:induction false} EventsAreNoOutcomes(w: World, events: seq<AgentEvent>, percent: int, n: nat)
    ensures Outcomes(EventsLog(w, events, percent, n)) == 0
  {
    if events != [] {
      EventsAreNoOutcomes(w, events[1..], percent, n);
      EventsAreNoOutcomes(w, events[1..], percent, n + 1);
      if events[0] != OtherEvent {
        var e := Sent(w, if events[0] == BrowserError then Progress(Running, percent) else LoginRequired, n);
        OneEntry(e);
        OutcomesAppend([e], EventsLog(w, events[1..], percent, n + 1));
      }
    }
  }

  /** A turn's only outcome is its last frame: unraised when the turn finishes the job, raised when that broke it. */
  predicate Reports(t: TurnResult) {
    t.log != [] && IsOutcome(t.log[|t.log| - 1].frame)
  }

  lemma ToldIsNoOutcome(w: World, poll: Poll, lastPercent: int, n: nat)
    requires poll.Answer?
    ensures Outcomes(News(w, poll, lastPercent, n)) == 0 && Outcomes(Told(w, poll, lastPercent, n)) == 0
  {
    var news := News(w, poll, lastPercent, n);
    OneEntry(Sent(w, Progress(poll.status, poll.percent), n));
    EventsAreNoOutcomes(w, poll.events, poll.percent, n + |news|);
    OutcomesAppend(news, Relayed(w, poll, n + |news|));
  }

  lemma TurnOutcomes(w: World, poll: Poll, lastPercent: int, n: nat)
    ensures Reporting(w, TurnOf(w, poll, lastPercent, n), n)
  {
    if poll.Answer? {
      var told := Told(w, poll, lastPercent, n);
      ToldIsNoOutcome(w, poll, lastPercent, n);
      NoneReported(told);
      NoneReported(News(w, poll, lastPercent, n));
      var result := Sent(w, Result(poll.status), n + |told|);
      OneEntry(result);
      OutcomesAppend(told, [result]);
    }
  }

  lemma NoneReported(log: seq<Entry>)
    ensures Outcomes(log) == 0 && log != [] ==> !IsOutcome(log[|log| - 1].frame)
  {
  }

  /** The number of the first outcome that polling hands over. */
  ghost function FirstOutcome(w: World, turns: TurnFunction, k: nat, n: nat, lastPercent: int, failures: nat,
                              deadline: Time): nat
    requires ClockAdvances(w)
    decreases deadline - w.clock(k)
  {
    if w.clock(k) >= deadline then n
    else
      assert TurnTakesTime(w, k);
      var t := turns(k, lastPercent, n);
      var f := if t.turn.Broke? then failures + 1 else 0;
      if Reports(t) then n + |t.log| - 1
      else if f >= MAX_FAILURES then n + |t.log|
      else FirstOutcome(w, turns, k + 1, n + |t.log|, t.percent, f, deadline)
  }

  /** Together with the outcome that the handler of an exception adds. */
  function Total(p: PartLog): nat {
    Outcomes(p.log) + if p.raised then 1 else 0
  }

  lemma TotalAfter(log: seq<Entry>, p: PartLog)
    ensures Total(After(log, p)) == Outcomes(log) + Total(p)
  {
    OutcomesAppend(log, p.log);
  }

  /** What TurnOutcomes shows of every turn. */
  ghost predicate Reporting(w: World, t: TurnResult, n: nat) {
    && Outcomes(t.log) == (if Reports(t) then 1 else 0)
    && (t.turn.Finished? ==> Reports(t) && !w.raises(n + |t.log| - 1))
    && (t.turn.Going? ==> !Reports(t))
    && (t.turn.Broke? && Reports(t) ==> w.raises(n + |t.log| - 1))
  }

  lemma {:induction false} PollTotal(w: World, turns: TurnFunction, k: nat, n: nat, lastPercent: int, failures: nat,
                                     deadline: Time)
    requires ClockAdvances(w) && forall i, p, j :: Reporting(w, turns(i, p, j), j)
    ensures var total := Total(PollLog(w, turns, k, n, lastPercent, failures, deadline));
            total >= 1 && (total == 1 <==> !w.raises(FirstOutcome(w, turns, k, n, lastPercent, failures, deadline)))
    decreases deadline - w.clock(k)
  {
    OneEntry(Sent(w, Result(Failed), n));
    if w.clock(k) < deadline {
      assert TurnTakesTime(w, k);
      var t := turns(k, lastPercent, n);
      var m := n + |t.log|;
      assert Reporting(w, t, n);
      var f := if t.turn.Broke? then failures + 1 else 0;
      OneEntry(Sent(w, Result(Failed), m));
      if f >= MAX_FAILURES {
        TotalAfter(t.log, GiveUp(w, m));
      } else if !t.turn.Finished? {
        PollTotal(w, turns, k + 1, m, t.percent, f, deadline);
        TotalAfter(t.log, PollLog(w, turns, k + 1, m, t.percent, f, deadline));
      }
    }
  }

  lemma TurnsReport(w: World)
    ensures forall i, p, j :: Reporting(w, Turns(w)(i, p, j), j)
  {
    forall i, p, j ensures Reporting(w, Turns(w)(i, p, j), j) {
      TurnOutcomes(w, w.polls(i), p, j);
    }
  }

  /** The first outcome settles the matter: it is not one of the polling loop's, or it goes out. */
  ghost predicate SettlesAtOnce(w: World)
    requires ClockAdvances(w)
  {
    !w.hasClient || w.startRaises || w.raises(1) || !w.raises(FirstOutcome(w, Turns(w), 0, 2, 0, 0, Deadline(w)))
  }

  /**
   A run reports no outcome exactly when sending its acceptance raises, and otherwise exactly one
   exactly when the first outcome that polling sends, if it comes to that, does not raise.
   */
  lemma OneOutcomeIff(w: World)
    requires ClockAdvances(w)
    ensures Outcomes(Transcript(w)) == 0 <==> w.raises(0)
    ensures Outcomes(Transcript(w)) == 1 <==> !w.raises(0) && SettlesAtOnce(w)
    ensures SendsWork(w) ==> Outcomes(Transcript(w)) == 1
  {
    BodyOutcomes(w);
    CleanUpReportsNothing(w, |BodyLog(w)|);
    OutcomesAppend(BodyLog(w), CleanUpLog(w, |BodyLog(w)|));
  }

  lemma CleanUpReportsNothing(w: World, n: nat)
    ensures Outcomes(CleanUpLog(w, n)) == 0
  {
    OneEntry(Sent(w, AgentIdle, n));
    OneEntry(Sent(w, FilePurged, n));
    OneEntry(Sent(w, AgentIdle, n + 1));
    OutcomesAppend([Sent(w, FilePurged, n)], [Sent(w, AgentIdle, n + 1)]);
  }

  lemma BodyOutcomes(w: World)
    requires ClockAdvances(w)
    ensures Outcomes(BodyLog(w)) == 0 <==> w.raises(0)
    ensures Outcomes(BodyLog(w)) == 1 <==> !w.raises(0) && SettlesAtOnce(w)
  {
    var accepted, first := Sent(w, Accepted, 0), Sent(w, Progress(Running, 0), 1);
    OneEntry(accepted);
    OneEntry(first);
    OneEntry(Sent(w, Rejected, 1));
    OutcomesAppend([accepted], [Sent(w, Rejected, 1)]);
    TurnsReport(w);
    PollTotal(w, Turns(w), 0, 2, 0, 0, Deadline(w));
    TotalAfter([first], PollLog(w, Turns(w), 0, 2, 0, 0, Deadline(w)));
    TotalAfter([accepted], JobLog(w, 1));
    var job := After([accepted], JobLog(w, 1));
    OneEntry(Sent(w, Result(Failed), |job.log|));
    OutcomesAppend(job.log, [Sent(w, Result(Failed), |job.log|)]);
  }

  // ----- where the outcome stands, and what it says

  /** Every outcome here failed to go out. */
  ghost predicate Unsettled(sent: seq<Entry>) {
    forall e | e in sent && IsOutcome(e.frame) :: e.raised
  }

  /**
   Outcomes before the last one failed to go out, and a part
   that ends without exception ends with one that went out.
   */
  ghost predicate PartSettles(p: PartLog) {
    if p.raised then Unsettled(p.log)
    else
      p.log != [] && var last := p.log[|p.log| - 1];
                     IsOutcome(last.frame) && !last.raised && Unsettled(p.log[..|p.log| - 1])
  }

  lemma {:induction false} NoOutcomesIff(sent: seq<Entry>)
    ensures Outcomes(sent) == 0 <==> forall e | e in sent :: !IsOutcome(e.frame)
  {
    if sent != [] {
      NoOutcomesIff(sent[..|sent| - 1]);
      assert sent == sent[..|sent| - 1] + [sent[|sent| - 1]];
    }
  }

  lemma SettlesAfter(log: seq<Entry>, p: PartLog)
    requires Unsettled(log) && PartSettles(p)
    ensures PartSettles(After(log, p))
  {
    if !p.raised {
      assert (log + p.log)[..|log + p.log| - 1] == log + p.log[..|p.log| - 1];
    }
  }

  ghost predicate SettlingTurn(t: TurnResult) {
    PartSettles(PartLog(t.log, !t.turn.Finished?))
  }

  lemma TurnSettles(w: World, poll: Poll, lastPercent: int, n: nat)
    ensures SettlingTurn(TurnOf(w, poll, lastPercent, n))
  {
    var t := TurnOf(w, poll, lastPercent, n);
    TurnOutcomes(w, poll, lastPercent, n);
    TurnRecords(w, poll, lastPercent, n);
    ReportingSettles(w, t, n);
  }

  lemma ReportingSettles(w: World, t: TurnResult, n: nat)
    requires Reporting(w, t, n) && Records(w, t.log, n)
    ensures SettlingTurn(t)
  {
    if t.log != [] {
      var init, last := t.log[..|t.log| - 1], t.log[|t.log| - 1];
      OneEntry(last);
      OutcomesAppend(init, [last]);
      assert init + [last] == t.log;
      NoOutcomesIff(init);
    }
  }

  /** Each entry records what became of the send of its number. */
  ghost predicate Records(w: World, log: seq<Entry>, n: nat) {
    forall i | 0 <= i < |log| :: log[i].raised == w.raises(n + i)
  }

  lemma {:induction false} EventsRecord(w: World, events: seq<AgentEvent>, percent: int, n: nat)
    ensures Records(w, EventsLog(w, events, percent, n), n)
  {
    if events != [] {
      EventsRecord(w, events[1..], percent, n);
      EventsRecord(w, events[1..], percent, n + 1);
    }
  }

  lemma ToldRecords(w: World, poll: Poll, lastPercent: int, n: nat)
    requires poll.Answer?
    ensures Records(w, Told(w, poll, lastPercent, n), n) && Records(w, News(w, poll, lastPercent, n), n)
  {
    var news := News(w, poll, lastPercent, n);
    EventsRecord(w, poll.events, poll.percent, n + |news|);
    RecordsAppend(w, news, Relayed(w, poll, n + |news|), n);
  }

  lemma RecordsAppend(w: World, a: seq<Entry>, b: seq<Entry>, n: nat)
    requires Records(w, a, n) && Records(w, b, n + |a|)
    ensures Records(w, a + b, n)
  {
  }

  lemma TurnRecords(w: World, poll: Poll, lastPercent: int, n: nat)
    ensures Records(w, TurnOf(w, poll, lastPercent, n).log, n)
  {
    if poll.Answer? {
      ToldRecords(w, poll, lastPercent, n);
      var told := Told(w, poll, lastPercent, n);
      RecordsAppend(w, told, [Sent(w, Result(poll.status), n + |told|)], n);
    }
  }

  lemma GiveUpSettles(w: World, n: nat)
    ensures PartSettles(GiveUp(w, n))
  {
    assert GiveUp(w, n).log[..0] == [];
  }

  lemma {:induction false} PollSettles(w: World, turns: TurnFunction, k: nat, n: nat, lastPercent: int, failures: nat,
                                       deadline: Time)
    requires ClockAdvances(w) && forall i, p, j :: SettlingTurn(turns(i, p, j))
    ensures PartSettles(PollLog(w, turns, k, n, lastPercent, failures, deadline))
    decreases deadline - w.clock(k)
  {
    if w.clock(k) >= deadline {
      GiveUpSettles(w, n);
    } else {
      assert TurnTakesTime(w, k);
      var t := turns(k, lastPercent, n);
      var m := n + |t.log|;
      assert SettlingTurn(t);
      var f := if t.turn.Broke? then failures + 1 else 0;
      if f >= MAX_FAILURES {
        GiveUpSettles(w, m);
        SettlesAfter(t.log, GiveUp(w, m));
      } else if !t.turn.Finished? {
        PollSettles(w, turns, k + 1, m, t.percent, f, deadline);
        SettlesAfter(t.log, PollLog(w, turns, k + 1, m, t.percent, f, deadline));
      }
    }
  }

  lemma TurnsSettle(w: World)
    ensures forall i, p, j :: SettlingTurn(Turns(w)(i, p, j))
  {
    forall i, p, j ensures SettlingTurn(Turns(w)(i, p, j)) {
      TurnSettles(w, w.polls(i), p, j);
    }
  }

  /**
   An accepted run: acceptance first, then up to the last outcome, before which every outcome
   failed to go out, and after it housekeeping only, so all progress precedes it.
   */
  lemma OutcomeComesLast(w: World)
    requires ClockAdvances(w) && !w.raises(0)
    ensures var body := BodyLog(w);
            && body <= Transcript(w) && |body| >= 2 && body[0].frame == Accepted
            && IsOutcome(body[|body| - 1].frame) && Unsettled(body[..|body| - 1])
            && forall i | |body| <= i < |Transcript(w)| :: Transcript(w)[i].frame in {FilePurged, AgentIdle}
  {
    if w.hasClient {
      JobSettles(w);
    } else {
      assert BodyLog(w)[..1] == [Sent(w, Accepted, 0)];
    }
  }

  lemma JobSettles(w: World)
    requires ClockAdvances(w) && !w.raises(0) && w.hasClient
    ensures var body := BodyLog(w);
            && |body| >= 2 && body[0].frame == Accepted
            && IsOutcome(body[|body| - 1].frame) && Unsettled(body[..|body| - 1])
  {
    var accepted, first := Sent(w, Accepted, 0), Sent(w, Progress(Running, 0), 1);
    TurnsSettle(w);
    PollSettles(w, Turns(w), 0, 2, 0, 0, Deadline(w));
    SettlesAfter([first], PollLog(w, Turns(w), 0, 2, 0, 0, Deadline(w)));
    SettlesAfter([accepted], JobLog(w, 1));
    var job := After([accepted], JobLog(w, 1));
    assert (job.log + [Sent(w, Result(Failed), |job.log|)])[..|job.log|] == job.log;
  }

  /** With working sends a turn goes as the agent answers. */
  predicate AsAnswered(poll: Poll, t: TurnResult) {
    match poll
    case Unreachable => t.turn.Broke?
    case Answer(status, _, _, _) =>
      if !status.IsTerminal() then t.turn.Going?
      else t.turn.Finished? && t.log != [] && t.log[|t.log| - 1].frame == Result(status)
  }

  lemma {:induction false} PollVerdict(w: World, turns: TurnFunction, k: nat, n: nat, lastPercent: int, failures: nat,
                                       deadline: Time)
    requires ClockAdvances(w) && SendsWork(w) && forall i, p, j :: AsAnswered(w.polls(i), turns(i, p, j))
    ensures var p := PollLog(w, turns, k, n, lastPercent, failures, deadline);
            !p.raised && p.log != [] && p.log[|p.log| - 1].frame == Result(Verdict(w, k, failures, deadline))
    decreases deadline - w.clock(k)
  {
    if w.clock(k) < deadline {
      assert TurnTakesTime(w, k);
      var t := turns(k, lastPercent, n);
      assert AsAnswered(w.polls(k), t);
      var f := if t.turn.Broke? then failures + 1 else 0;
      if !t.turn.Finished? && f < MAX_FAILURES {
        PollVerdict(w, turns, k + 1, n + |t.log|, t.percent, f, deadline);
      }
    }
  }

  /** When sends work, the one outcome is the rejection or what the agent's answers call for. */
  lemma OutcomeIsVerdict(w: World)
    requires ClockAdvances(w) && SendsWork(w)
    ensures var body := BodyLog(w);
            body != [] && body[|body| - 1].frame ==
              if !w.hasClient then Rejected else Result(if w.startRaises then Failed else Verdict(w, 0, 0, Deadline(w)))
  {
    forall i: nat, p: int, j: nat ensures AsAnswered(w.polls(i), Turns(w)(i, p, j)) {
    }
    PollVerdict(w, Turns(w), 0, 2, 0, 0, Deadline(w));
  }

  // ----- two outcomes that contradict each other

  lemma {:induction false} AgentGone(w: World, turns: TurnFunction, k: nat, n: nat, lastPercent: int, failures: nat,
                                     deadline: Time)
    requires ClockAdvances(w) && !w.raises(n) && failures < MAX_FAILURES
    requires forall i: nat, p: int, j: nat | i >= k :: turns(i, p, j) == TurnResult([], Broke, p)
    ensures PollLog(w, turns, k, n, lastPercent, failures, deadline) == PartLog([Entry(Result(Failed), false)], false)
    decreases MAX_FAILURES - failures
  {
    if w.clock(k) < deadline {
      assert TurnTakesTime(w, k);
      if failures + 1 < MAX_FAILURES {
        AgentGone(w, turns, k + 1, n, lastPercent, failures + 1, deadline);
      }
      assert [] + [Entry(Result(Failed), false)] == [Entry(Result(Failed), false)];
    }
  }

  /** A run whose first terminal answer cannot be sent, and whose agent does not answer after that. */
  lemma ResultThenFailure(w: World, status: Status)
    requires ClockAdvances(w) && w.hasClient && !w.startRaises && status.IsTerminal()
    requires w.polls(0) == Answer(status, 0, [], true) && forall j: nat | j > 0 :: w.polls(j).Unreachable?
    requires forall n: nat :: w.raises(n) <==> n == 3
    ensures Entry(Result(status), true) in Transcript(w) && Entry(Result(Failed), false) in Transcript(w)
  {
    var turns := Turns(w);
    var t := turns(0, 0, 2);
    assert t == TurnResult([Entry(Progress(status, 0), false), Entry(Result(status), true)], Broke, 0);
    AgentGone(w, turns, 1, 4, 0, 1, Deadline(w));
    assert TurnTakesTime(w, 0);
    var p := PollLog(w, turns, 0, 2, 0, 0, Deadline(w));
    assert p == After(t.log, PollLog(w, turns, 1, 4, 0, 1, Deadline(w)));
    assert p.log[1] == Entry(Result(status), true) && p.log[2] == Entry(Result(Failed), false) && !p.raised;
    InTranscript(w, p.log[1]);
    InTranscript(w, p.log[2]);
  }

  lemma InTranscript(w: World, e: Entry)
    requires ClockAdvances(w) && w.hasClient && !w.startRaises && !w.raises(0) && !w.raises(1)
    requires e in PollLog(w, Turns(w), 0, 2, 0, 0, Deadline(w)).log
    ensures e in Transcript(w)
  {
    var job := After([Sent(w, Accepted, 0)], JobLog(w, 1));
    assert e in JobLog(w, 1).log && e in job.log && e in BodyLog(w);
  }

  /**
   The job succeeds, sending that result raises, and the agent is
   not reachable any more: the same run reports failure.
   */
  lemma SucceededThenFailed()
    ensures var polls := (k: nat) => if k == 0 then Answer(Succeeded, 0, [], true) else Unreachable;
            var w := World(true, false, false, polls, (n: nat) => n == 3, (k: nat) => 2 * k);
            && ClockAdvances(w)
            && Entry(Result(Succeeded), true) in Transcript(w) && Entry(Result(Failed), false) in Transcript(w)
  {
    var polls := (k: nat) => if k == 0 then Answer(Succeeded, 0, [], true) else Unreachable;
    var w := World(true, false, false, polls, (n: nat) => n == 3, (k: nat) => 2 * k);
    forall k: nat ensures TurnTakesTime(w, k) {
    }
    ResultThenFailure(w, Succeeded);
  }

  // ----- what the verdict means

  /** Failures in a row before turn m, counting from turn 0. */
  function FailuresAt(w: World, m: nat): nat {
    if m == 0 then 0 else if w.polls(m - 1).Unreachable? then FailuresAt(w, m - 1) + 1 else 0
  }

  /** Polling gets to turn m before the deadline: no terminal answer and no five failures in a row before it. */
  ghost predicate Polls(w: World, m: nat, deadline: Time) {
    && w.clock(m) < deadline
    && (m > 0 ==>
          && Polls(w, m - 1, deadline)
          && FailuresAt(w, m) < MAX_FAILURES
          && (w.polls(m - 1).Answer? ==> !w.polls(m - 1).status.IsTerminal()))
  }

  lemma {:induction false} VerdictLater(w: World, m: nat, deadline: Time)
    requires ClockAdvances(w) && Polls(w, m, deadline)
    ensures Verdict(w, m, FailuresAt(w, m), deadline) == Verdict(w, 0, 0, deadline)
  {
    if m > 0 {
      VerdictLater(w, m - 1, deadline);
    }
  }

  lemma {:induction false} VerdictFound(w: World, k: nat, deadline: Time) returns (m: nat)
    requires ClockAdvances(w) && (w.clock(k) < deadline ==> Polls(w, k, deadline))
    requires Verdict(w, k, FailuresAt(w, k), deadline) != Failed
    ensures Polls(w, m, deadline) && w.polls(m).Answer?
    ensures w.polls(m).status.IsTerminal() && w.polls(m).status == Verdict(w, k, FailuresAt(w, k), deadline)
    decreases deadline - w.clock(k)
  {
    if w.polls(k).Answer? && w.polls(k).status.IsTerminal() {
      m := k;
    } else {
      assert TurnTakesTime(w, k);
      m := VerdictFound(w, k + 1, deadline);
    }
  }

  /** The job is reported succeeded (or cancelled) exactly when some turn that polling reaches in time answers so. */
  lemma VerdictIff(w: World, status: Status, deadline: Time)
    requires ClockAdvances(w) && (status == Succeeded || status == Cancelled)
    ensures Verdict(w, 0, 0, deadline) == status <==>
              exists m: nat :: Polls(w, m, deadline) && w.polls(m).Answer? && w.polls(m).status == status
  {
    if Verdict(w, 0, 0, deadline) == status {
      var m := VerdictFound(w, 0, deadline);
    }
    if m: nat :| Polls(w, m, deadline) && w.polls(m).Answer? && w.polls(m).status == status {
      VerdictLater(w, m, deadline);
    }
  }
}
