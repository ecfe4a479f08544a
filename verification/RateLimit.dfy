/**
 The sliding-window rate limiters: one list of accepted request times per key, trimmed on
 every accepted request and by a periodic cleanup, against the full log of accepted requests.
 */
module RateLimit {
  type Key = nat
  type Time = int

  /** `age` is the cleanup's cut-off; `offBelowOne` is the job limiter's reading of a limit of 0 or less. */
  datatype Policy = Policy(limit: int, window: nat, age: nat, offBelowOne: bool)

  const SECOND: nat := 1_000_000_000
  const MINUTE: nat := 60 * SECOND

  function PerSecond(limit: int): Policy { Policy(limit, SECOND, MINUTE, false) }
  function AuthPerMinute(limit: int): Policy { Policy(limit, MINUTE, 2 * MINUTE, false) }
  function JobsPerMinute(limit: int): Policy { Policy(limit, MINUTE, 2 * MINUTE, true) }

  type Lists = map<Key, seq<Time>>

  function Times(m: Lists, key: Key): seq<Time> {
    if key in m then m[key] else []
  }

  function After(times: seq<Time>, cutoff: Time): (r: seq<Time>)
    ensures |r| <= |times|
  {
    if times == [] then []
    else
      var rest := After(times[..|times| - 1], cutoff);
      if times[|times| - 1] > cutoff then rest + [times[|times| - 1]] else rest
  }

  predicate Allows(p: Policy, times: seq<Time>, now: Time) {
    (p.offBelowOne && p.limit <= 0) || |After(times, now - p.window)| < p.limit
  }

  function Recorded(p: Policy, m: Lists, key: Key, now: Time): Lists {
    if p.offBelowOne && p.limit <= 0 then m else m[key := After(Times(m, key), now - p.window) + [now]]
  }

  function Cleaned(p: Policy, m: Lists, now: Time): Lists {
    map k | k in m && After(m[k], now - p.age) != [] :: After(m[k], now - p.age)
  }

  class Limiter {
    const policy: Policy
    var tokens: Lists

    constructor (policy: Policy)
      ensures this.policy == policy && tokens == map[]
    {
      this.policy, tokens := policy, map[];
    }

    method Trim(times: seq<Time>, cutoff: Time) returns (recent: seq<Time>)
      ensures recent == After(times, cutoff)
    {
      recent := [];
      for i := 0 to |times|
        invariant recent == After(times[..i], cutoff)
      {
        assert times[..i + 1][..i] == times[..i];
        if times[i] > cutoff {
          recent := recent + [times[i]];
        }
      }
      assert times[..|times|] == times;
    }

    method Allow(key: Key, now: Time) returns (ok: bool)
      modifies this
      ensures ok == Allows(policy, Times(old(tokens), key), now)
      ensures tokens == if ok then Recorded(policy, old(tokens), key, now) else old(tokens)
    {
      if policy.offBelowOne && policy.limit <= 0 {
        return true;
      }
      var recent := Trim(if key in tokens then tokens[key] else [], now - policy.window);
      if |recent| >= policy.limit {
        return false;
      }
      tokens := tokens[key := recent + [now]];
      return true;
    }

    method Cleanup(now: Time)
      modifies this
      ensures tokens == Cleaned(policy, old(tokens), now)
    {
      var keys := tokens.Keys;
      var m: Lists := map[];
      while keys != {}
        invariant keys <= tokens.Keys && tokens == old(tokens)
        invariant m == map k | k in tokens && k !in keys && After(tokens[k], now - policy.age) != [] ::
                    After(tokens[k], now - policy.age)
      {
        var k :| k in keys;
        keys := keys - {k};
        var valid := Trim(tokens[k], now - policy.age);
        if |valid| > 0 {
          m := m[k := valid];
        }
      }
      tokens := m;
    }
  }

  // ----- whole runs

  datatype Event = Request(key: Key, time: Time) | Tick(time: Time)

  /** `log` holds every accepted request of each key and is never trimmed. */
  datatype State = State(lists: Lists, log: Lists)

  const EMPTY := State(map[], map[])

  predicate Accepted(p: Policy, s: State, e: Event) {
    e.Request? && Allows(p, Times(s.lists, e.key), e.time)
  }

  function Step(p: Policy, s: State, e: Event): State {
    match e
    case Request(key, now) =>
      if Accepted(p, s, e) then State(Recorded(p, s.lists, key, now), s.log[key := Times(s.log, key) + [now]]) else s
    case Tick(now) => s.(lists := Cleaned(p, s.lists, now))
  }

  function Run(p: Policy, es: seq<Event>): State {
    if es == [] then EMPTY else Step(p, Run(p, es[..|es| - 1]), es[|es| - 1])
  }

  ghost predicate Monotone(es: seq<Event>) {
    forall i, k | 0 <= i < k < |es| :: es[i].time <= es[k].time
  }

  lemma {:induction false} AfterAfter(times: seq<Time>, c1: Time, c2: Time)
    requires c1 <= c2
    ensures After(After(times, c1), c2) == After(times, c2)
  {
    if times != [] {
      var init, last := times[..|times| - 1], times[|times| - 1];
      AfterAfter(init, c1, c2);
      AfterSnoc(After(init, c1), last, c2);
    }
  }

  lemma AfterSnoc(times: seq<Time>, t: Time, cutoff: Time)
    ensures After(times + [t], cutoff) == After(times, cutoff) + if t > cutoff then [t] else []
  {
    assert (times + [t])[..|times|] == times;
  }

  /** What the trimmed lists and the log agree on: everything a check from now on can look at. */
  ghost predicate Agree(p: Policy, s: State, key: Key, now: Time) {
    forall c | c >= now - p.window :: After(Times(s.lists, key), c) == After(Times(s.log, key), c)
  }

  lemma RecordedAgrees(p: Policy, s: State, key: Key, k: Key, last: Time, now: Time)
    requires Agree(p, s, k, last) && last <= now && (p.offBelowOne ==> p.limit > 0) && Accepted(p, s, Request(key, now))
    ensures Agree(p, Step(p, s, Request(key, now)), k, now)
  {
    var s' := Step(p, s, Request(key, now));
    var list, log := Times(s.lists, key), Times(s.log, key);
    if k == key {
      forall c | c >= now - p.window ensures After(Times(s'.lists, k), c) == After(Times(s'.log, k), c) {
        assert After(list, c) == After(log, c);
        AppendedAgree(list, log, now, now - p.window, c);
      }
    } else {
      assert Times(s'.lists, k) == Times(s.lists, k) && Times(s'.log, k) == Times(s.log, k);
    }
  }

  lemma AppendedAgree(list: seq<Time>, log: seq<Time>, now: Time, cutoff: Time, c: Time)
    requires cutoff <= c && After(list, c) == After(log, c)
    ensures After(After(list, cutoff) + [now], c) == After(log + [now], c)
  {
    AfterSnoc(After(list, cutoff), now, c);
    AfterAfter(list, cutoff, c);
    AfterSnoc(log, now, c);
  }

  lemma CleanedAgrees(p: Policy, s: State, k: Key, last: Time, now: Time)
    requires Agree(p, s, k, last) && last <= now && p.age >= p.window
    ensures Agree(p, Step(p, s, Tick(now)), k, now)
  {
    var s' := Step(p, s, Tick(now));
    forall c | c >= now - p.window ensures After(Times(s'.lists, k), c) == After(Times(s'.log, k), c) {
      AfterAfter(Times(s.lists, k), now - p.age, c);
    }
  }

  lemma StepAgrees(p: Policy, s: State, e: Event, key: Key, last: Time)
    requires Agree(p, s, key, last) && last <= e.time && p.age >= p.window && (p.offBelowOne ==> p.limit > 0)
    ensures Agree(p, Step(p, s, e), key, e.time)
  {
    match e
    case Request(k, now) =>
      if Accepted(p, s, e) {
        RecordedAgrees(p, s, k, key, last, now);
      }
    case Tick(now) => CleanedAgrees(p, s, key, last, now);
  }

  lemma {:induction false} AlwaysAgree(p: Policy, es: seq<Event>, key: Key, now: Time)
    requires Monotone(es) && p.age >= p.window && (p.offBelowOne ==> p.limit > 0)
    requires forall e | e in es :: e.time <= now
    ensures Agree(p, Run(p, es), key, now)
  {
    if es != [] {
      var init, e := es[..|es| - 1], es[|es| - 1];
      forall x | x in init ensures x.time <= e.time {
        var i :| 0 <= i < |init| && init[i] == x;
        assert es[i] == x && es[|es| - 1] == e;
      }
      AlwaysAgree(p, init, key, e.time);
      StepAgrees(p, Run(p, init), e, key, e.time);
    }
  }

  /** The trimmed, cleaned list decides every request exactly as counting over the full log would. */
  lemma SameDecisionAsFullLog(p: Policy, es: seq<Event>, key: Key, now: Time)
    requires Monotone(es + [Request(key, now)]) && p.age >= p.window && (p.offBelowOne ==> p.limit > 0)
    ensures Accepted(p, Run(p, es), Request(key, now)) <==>
              |After(Times(Run(p, es).log, key), now - p.window)| < p.limit
  {
    MonotonePrefix(es, Request(key, now));
    AlwaysAgree(p, es, key, now);
    AgreedDecision(p, Run(p, es), key, now);
  }

  lemma AgreedDecision(p: Policy, s: State, key: Key, now: Time)
    requires Agree(p, s, key, now) && (p.offBelowOne ==> p.limit > 0)
    ensures Accepted(p, s, Request(key, now)) <==> |After(Times(s.log, key), now - p.window)| < p.limit
  {
    assert After(Times(s.lists, key), now - p.window) == After(Times(s.log, key), now - p.window);
  }

  lemma MonotonePrefix(es: seq<Event>, last: Event)
    requires Monotone(es + [last])
    ensures Monotone(es) && forall e | e in es :: e.time <= last.time
  {
    var all := es + [last];
    forall e | e in es ensures e.time <= last.time {
      var i :| 0 <= i < |es| && es[i] == e;
      assert all[i] == e && all[|es|] == last;
    }
    forall i, k | 0 <= i < k < |es| ensures es[i].time <= es[k].time {
      assert all[i] == es[i] && all[k] == es[k];
    }
  }

  /** Times t with from < t <= to. */
  function Within(times: seq<Time>, from: Time, to: Time): nat {
    if times == [] then 0
    else Within(times[..|times| - 1], from, to) + if from < times[|times| - 1] <= to then 1 else 0
  }

  lemma WithinSnoc(times: seq<Time>, t: Time, from: Time, to: Time)
    ensures Within(times + [t], from, to) == Within(times, from, to) + if from < t <= to then 1 else 0
  {
    assert (times + [t])[..|times|] == times;
  }

  lemma {:induction false} WithinIsRecent(times: seq<Time>, cutoff: Time, from: Time, to: Time)
    requires cutoff <= from
    ensures Within(times, from, to) <= |After(times, cutoff)|
  {
    if times != [] {
      WithinIsRecent(times[..|times| - 1], cutoff, from, to);
    }
  }

  /** No key ever has more accepted requests than the limit in any window (from, from + window]. */
  lemma {:induction false} EveryWindowWithinLimit(p: Policy, es: seq<Event>, key: Key, from: Time)
    requires Monotone(es) && p.age >= p.window && (p.offBelowOne ==> p.limit > 0)
    ensures Within(Times(Run(p, es).log, key), from, from + p.window) <= if p.limit > 0 then p.limit else 0
  {
    if es != [] {
      var init, e := es[..|es| - 1], es[|es| - 1];
      var s := Run(p, init);
      EveryWindowWithinLimit(p, init, key, from);
      if Accepted(p, s, e) && e.key == key {
        assert init + [e] == es;
        SameDecisionAsFullLog(p, init, key, e.time);
        WithinSnoc(Times(s.log, key), e.time, from, from + p.window);
        if from < e.time <= from + p.window {
          WithinIsRecent(Times(s.log, key), e.time - p.window, from, from + p.window);
        }
      }
    }
  }

  /** The three limiters as configured: their cleanup never drops what their window still needs. */
  lemma ShippedLimiters(limit: int, es: seq<Event>, key: Key, from: Time)
    requires Monotone(es)
    ensures Within(Times(Run(PerSecond(limit), es).log, key), from, from + SECOND) <= if limit > 0 then limit else 0
    ensures Within(Times(Run(AuthPerMinute(limit), es).log, key), from, from + MINUTE) <= if limit > 0 then limit else 0
    ensures limit > 0 ==> Within(Times(Run(JobsPerMinute(limit), es).log, key), from, from + MINUTE) <= limit
  {
    EveryWindowWithinLimit(PerSecond(limit), es, key, from);
    EveryWindowWithinLimit(AuthPerMinute(limit), es, key, from);
    if limit > 0 {
      EveryWindowWithinLimit(JobsPerMinute(limit), es, key, from);
    }
  }

  predicate IsRequest(es: seq<Event>, i: nat, key: Key) {
    i < |es| && es[i].Request? && es[i].key == key
  }

  function Requests(es: seq<Event>, key: Key): set<nat> {
    set i: nat | i < |es| && IsRequest(es, i, key)
  }

  lemma OneMoreRequest(es: seq<Event>, e: Event, key: Key)
    ensures |Requests(es + [e], key)| == |Requests(es, key)| + if e.Request? && e.key == key then 1 else 0
  {
    var all := es + [e];
    forall i: nat | i < |es| ensures IsRequest(all, i, key) <==> IsRequest(es, i, key) {
      assert all[i] == es[i];
    }
    assert Requests(all, key) == Requests(es, key) + if e.Request? && e.key == key then {|es|} else {};
  }

  /** The job limiter switched off lets everything through. */
  lemma {:induction false} SwitchedOffAcceptsAll(p: Policy, es: seq<Event>, key: Key)
    requires p.offBelowOne && p.limit <= 0
    ensures |Times(Run(p, es).log, key)| == |Requests(es, key)|
  {
    if es == [] {
      assert Requests(es, key) == {};
    } else {
      var init, e := es[..|es| - 1], es[|es| - 1];
      SwitchedOffAcceptsAll(p, init, key);
      OneMoreRequest(init, e, key);
      assert init + [e] == es;
    }
  }

  // ----- requests handled out of clock order

  /** n requests, all at time t. */
  predicate AllAt(times: seq<Time>, t: Time, n: nat) {
    |times| == n && forall i | 0 <= i < n :: times[i] == t
  }

  lemma {:induction false} AllAfter(times: seq<Time>, t: Time, n: nat, cutoff: Time)
    requires AllAt(times, t, n)
    ensures After(times, cutoff) == if t > cutoff then times else []
  {
    if n > 0 {
      AllAfter(times[..n - 1], t, n - 1, cutoff);
    }
  }

  lemma {:induction false} AllWithin(times: seq<Time>, t: Time, n: nat, from: Time, to: Time)
    requires AllAt(times, t, n) && from < t <= to
    ensures Within(times, from, to) == n
  {
    if n > 0 {
      AllWithin(times[..n - 1], t, n - 1, from, to);
    }
  }

  function Burst(key: Key, t: Time, n: nat): seq<Event> {
    if n == 0 then [] else Burst(key, t, n - 1) + [Request(key, t)]
  }

  lemma Unfold(p: Policy, es: seq<Event>, e: Event)
    ensures Run(p, es + [e]) == Step(p, Run(p, es), e)
  {
    assert (es + [e])[..|es|] == es;
  }

  /** Accepting one request on top of a list that is trimmed to `kept`. */
  lemma AcceptOne(p: Policy, s: State, key: Key, now: Time, kept: seq<Time>)
    requires p.limit > 0 && After(Times(s.lists, key), now - p.window) == kept && |kept| < p.limit
    ensures var s' := Step(p, s, Request(key, now));
            Times(s'.lists, key) == kept + [now] && Times(s'.log, key) == Times(s.log, key) + [now]
  {
  }

  /** The key's list and log hold the burst. */
  predicate HoldsBurst(s: State, key: Key, t: Time, n: nat) {
    Times(s.lists, key) == Times(s.log, key) && AllAt(Times(s.log, key), t, n)
  }

  lemma BurstStep(p: Policy, s: State, key: Key, t: Time, n: nat)
    requires n < p.limit && p.window > 0 && HoldsBurst(s, key, t, n)
    ensures HoldsBurst(Step(p, s, Request(key, t)), key, t, n + 1)
  {
    AllAfter(Times(s.lists, key), t, n, t - p.window);
    AcceptOne(p, s, key, t, Times(s.lists, key));
  }

  /** A burst up to the limit is accepted. */
  lemma {:induction false} BurstAccepted(p: Policy, key: Key, t: Time, n: nat)
    requires n <= p.limit && p.window > 0
    ensures HoldsBurst(Run(p, Burst(key, t, n)), key, t, n)
  {
    if n > 0 {
      BurstAccepted(p, key, t, n - 1);
      var before := Burst(key, t, n - 1);
      BurstStep(p, Run(p, before), key, t, n - 1);
      Unfold(p, before, Request(key, t));
    }
  }

  /**
   The clock is read before the lock is taken, so two requests may be handled in the other
   order. For any limit of at least two and any skew, however small: after a burst up to the
   limit, a request one window later empties the list, and one that read the clock a little
   before and is handled after it is one too many for the window that ends with it.
   */
  lemma LateRequestExceedsLimit(p: Policy, key: Key, t: Time, skew: nat)
    requires p.limit >= 2 && 0 < skew <= p.window
    ensures var es := Burst(key, t, p.limit) + [Request(key, t + p.window)] + [Request(key, t + p.window - skew)];
            Within(Times(Run(p, es).log, key), t - skew, t - skew + p.window) == p.limit + 1
  {
    var burst, next, late := Burst(key, t, p.limit), Request(key, t + p.window), Request(key, t + p.window - skew);
    BurstAccepted(p, key, t, p.limit);
    var s := Run(p, burst);
    NextThenLate(p, s, key, t, skew);
    Unfold(p, burst, next);
    Unfold(p, burst + [next], late);
    LateCounts(Times(s.log, key), t, p.limit, p.window, skew);
  }

  lemma NextThenLate(p: Policy, s: State, key: Key, t: Time, skew: nat)
    requires p.limit >= 2 && 0 < skew <= p.window && HoldsBurst(s, key, t, p.limit)
    ensures var s' := Step(p, Step(p, s, Request(key, t + p.window)), Request(key, t + p.window - skew));
            Times(s'.log, key) == Times(s.log, key) + [t + p.window] + [t + p.window - skew]
  {
    AllAfter(Times(s.lists, key), t, p.limit, t);
    AcceptOne(p, s, key, t + p.window, []);
    OneLeft(t + p.window, t - skew);
    AcceptOne(p, Step(p, s, Request(key, t + p.window)), key, t + p.window - skew, [t + p.window]);
  }

  lemma LateCounts(log: seq<Time>, t: Time, n: nat, window: nat, skew: nat)
    requires 0 < skew <= window && AllAt(log, t, n)
    ensures Within(log + [t + window] + [t + window - skew], t - skew, t - skew + window) == n + 1
  {
    AllWithin(log, t, n, t - skew, t - skew + window);
    WithinSnoc(log, t + window, t - skew, t - skew + window);
    WithinSnoc(log + [t + window], t + window - skew, t - skew, t - skew + window);
  }

  lemma OneLeft(t: Time, cutoff: Time)
    requires t > cutoff
    ensures After([] + [t], cutoff) == [t]
  {
    AfterSnoc([], t, cutoff);
  }

  /** For example the per-second limiter at two requests, with a skew of one nanosecond. */
  lemma OneNanosecondIsEnough(key: Key, t: Time)
    ensures var p := PerSecond(2);
            var es := Burst(key, t, 2) + [Request(key, t + SECOND)] + [Request(key, t + SECOND - 1)];
            Within(Times(Run(p, es).log, key), t - 1, t - 1 + SECOND) == 3
  {
    LateRequestExceedsLimit(PerSecond(2), key, t, 1);
  }
}
