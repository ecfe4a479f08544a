/** Frames of the device tunnel, as far as delivery looks at them. */
module Frames {
  /** Message identifiers are fresh UUIDs; only equality on them matters. */
  type MsgId = nat

  /** `Other` stands for every frame type that carries a payload to a handler. */
  datatype Kind = Ack | Ping | Pong | Hello | HelloAck | Error | Other(code: nat)

  datatype Frame = Frame(kind: Kind, msgId: MsgId, ackId: MsgId, payload: nat)

  /** Both ends deduplicate and the gateway acknowledges every frame that is not control traffic. */
  predicate Deduplicated(k: Kind) {
    k != Ack && k != Ping && k != Pong
  }
}

/**
 Acknowledgement tracking with retransmission: the entries of one connection,
 the tracker object that updates them in place, and the life of a single frame
 under an arbitrary sequence of retransmitter ticks.
 */
module AckTracking {
  import opened Frames

  // Times are nanoseconds, as in Go's time.Duration.
  const SECOND: int := 1_000_000_000
  const RETRANSMIT_BASE: int := SECOND
  const MAX_RETRIES: nat := 3

  datatype Entry = Entry(frame: Frame, sentAt: int, retries: nat)

  function Fresh(f: Frame, now: int): Entry {
    Entry(f, now, 0)
  }

  /** `1 << n` */
  function ShiftLeft(n: nat): nat {
    if n == 0 then 1 else 2 * ShiftLeft(n - 1)
  }

  predicate Exhausted(e: Entry) {
    e.retries >= MAX_RETRIES
  }

  predicate Due(e: Entry, now: int) {
    !Exhausted(e) && now - e.sentAt >= RETRANSMIT_BASE * ShiftLeft(e.retries)
  }

  function Bump(e: Entry, now: int): Entry {
    if Due(e, now) then e.(sentAt := now, retries := e.retries + 1) else e
  }

  /** All entries after one pass of `RetransmitReady`. */
  function BumpAll(v: map<MsgId, Entry>, now: int): map<MsgId, Entry> {
    map m | m in v :: Bump(v[m], now)
  }

  /** All entries after one tick of the retransmitter, which also drops the exhausted ones. */
  function TickAll(v: map<MsgId, Entry>, now: int): map<MsgId, Entry> {
    map m | m in v && !Exhausted(v[m]) :: Bump(v[m], now)
  }

  function DueIds(v: map<MsgId, Entry>, now: int): set<MsgId> {
    set m | m in v && Due(v[m], now)
  }

  function ExhaustedIds(v: map<MsgId, Entry>): set<MsgId> {
    set m | m in v && Exhausted(v[m])
  }

  /** Every entry is filed under the msg_id of its frame. */
  ghost predicate Filed(v: map<MsgId, Entry>) {
    forall m | m in v :: v[m].frame.msgId == m
  }

  /** `order` lists the frames filed under `ids`, each once. */
  ghost predicate Lists(order: seq<Frame>, v: map<MsgId, Entry>, ids: set<MsgId>)
    requires ids <= v.Keys
  {
    && (forall i | 0 <= i < |order| :: order[i].msgId in ids && v[order[i].msgId].frame == order[i])
    && (forall i, j | 0 <= i < j < |order| :: order[i].msgId != order[j].msgId)
    && (forall m | m in ids :: v[m].frame in order)
  }

  lemma ListsOneMore(order: seq<Frame>, v: map<MsgId, Entry>, ids: set<MsgId>, m: MsgId)
    requires Filed(v) && ids <= v.Keys && m in v.Keys - ids && Lists(order, v, ids)
    ensures Lists(order + [v[m].frame], v, ids + {m})
  {
    var order' := order + [v[m].frame];
    assert order'[|order|] == v[m].frame;
    assert forall f | f in order :: f in order';
  }

  class AckTracker {
    var frames: map<MsgId, Entry>

    constructor ()
      ensures frames == map[]
    {
      frames := map[];
    }

    method Track(frame: Frame, now: int)
      modifies this
      ensures frames == old(frames)[frame.msgId := Fresh(frame, now)]
    {
      frames := frames[frame.msgId := Entry(frame, now, 0)];
    }

    method Remove(msgId: MsgId)
      modifies this
      ensures frames == old(frames) - {msgId}
    {
      frames := frames - {msgId};
    }

    /** The unacknowledged frames, each exactly once, in no promised order. */
    method Pending() returns (pending: seq<Frame>)
      requires Filed(frames)
      ensures Lists(pending, frames, frames.Keys)
    {
      pending := [];
      var done, todo := {}, frames.Keys;
      while todo != {}
        invariant todo !! done && todo + done == frames.Keys
        invariant Lists(pending, frames, done)
        decreases todo
      {
        var m :| m in todo;
        ListsOneMore(pending, frames, done, m);
        pending := pending + [frames[m].frame];
        done, todo := done + {m}, todo - {m};
      }
    }

    /** Counts a retry on every due frame and reports it; reports the frames whose retries are spent. */
    method RetransmitReady(now: int) returns (retry: seq<Frame>, failed: seq<Frame>)
      requires Filed(frames)
      modifies this
      ensures frames == BumpAll(old(frames), now)
      ensures Lists(retry, old(frames), DueIds(old(frames), now))
      ensures Lists(failed, old(frames), ExhaustedIds(old(frames)))
    {
      retry, failed := [], [];
      ghost var was, due, spent := frames, {}, {};
      var todo := frames.Keys;
      while todo != {}
        invariant todo <= frames.Keys == was.Keys
        invariant forall m | m in frames :: frames[m] == if m in todo then was[m] else Bump(was[m], now)
        invariant due == DueIds(was, now) - todo && Lists(retry, was, due)
        invariant spent == ExhaustedIds(was) - todo && Lists(failed, was, spent)
        decreases todo
      {
        var m :| m in todo;
        var f := frames[m];
        todo := todo - {m};
        if f.retries >= MAX_RETRIES {
          ListsOneMore(failed, was, spent, m);
          failed, spent := failed + [f.frame], spent + {m};
        } else {
          var backoff := RETRANSMIT_BASE * ShiftLeft(f.retries);
          if now - f.sentAt >= backoff {
            frames := frames[m := f.(retries := f.retries + 1, sentAt := now)];
            ListsOneMore(retry, was, due, m);
            retry, due := retry + [f.frame], due + {m};
          }
        }
      }
    }

    method RemoveFailed(msgIds: seq<MsgId>)
      modifies this
      ensures frames == old(frames) - (set m | m in msgIds)
    {
      for i := 0 to |msgIds|
        invariant frames == old(frames) - (set m | m in msgIds[..i])
      {
        frames := frames - {msgIds[i]};
      }
      assert msgIds[..|msgIds|] == msgIds;
    }
  }

  // ----- the life of one frame under the retransmitter

  datatype Life = Waiting(e: Entry) | GivenUp(at: int)

  function LifeStep(l: Life, now: int): Life {
    match l
    case GivenUp(_) => l
    case Waiting(e) => if Exhausted(e) then GivenUp(now) else Waiting(Bump(e, now))
  }

  /** The state of an unacknowledged frame after the ticks at the given times. */
  function LifeAfter(e: Entry, ticks: seq<int>): Life {
    if ticks == [] then Waiting(e)
    else LifeStep(LifeAfter(e, ticks[..|ticks| - 1]), ticks[|ticks| - 1])
  }

  /** The times at which those ticks resent the frame. */
  function Resends(e: Entry, ticks: seq<int>): seq<int> {
    if ticks == [] then []
    else
      var before := ticks[..|ticks| - 1];
      var now := ticks[|ticks| - 1];
      var l := LifeAfter(e, before);
      Resends(e, before) + if l.Waiting? && Due(l.e, now) then [now] else []
  }

  function TicksAll(v: map<MsgId, Entry>, ticks: seq<int>): map<MsgId, Entry> {
    if ticks == [] then v else TickAll(TicksAll(v, ticks[..|ticks| - 1]), ticks[|ticks| - 1])
  }

  ghost predicate Monotone(ticks: seq<int>) {
    forall i, j | 0 <= i < j < |ticks| :: ticks[i] <= ticks[j]
  }

  /** The whole tracker under ticks is the life of each frame on its own: frames do not disturb each other. */
  lemma {:induction false} TrackerIsPerFrame(v: map<MsgId, Entry>, ticks: seq<int>, m: MsgId)
    requires m in v
    ensures m in TicksAll(v, ticks) <==> LifeAfter(v[m], ticks).Waiting?
    ensures m in TicksAll(v, ticks) ==> LifeAfter(v[m], ticks) == Waiting(TicksAll(v, ticks)[m])
  {
    if ticks != [] {
      TrackerIsPerFrame(v, ticks[..|ticks| - 1], m);
    }
  }

  /**
   At most three resends, at ticks at least 1, 2 and 4 seconds apart, and given up only after all
   three and never within 7 seconds of tracking.
   */
  ghost predicate OnSchedule(f: Frame, start: int, ticks: seq<int>, rs: seq<int>, l: Life) {
    && |rs| <= MAX_RETRIES
    && (|rs| >= 1 ==> rs[0] - start >= SECOND)
    && (|rs| >= 2 ==> rs[1] - rs[0] >= 2 * SECOND)
    && (|rs| == 3 ==> rs[2] - rs[1] >= 4 * SECOND)
    && (forall i | 0 <= i < |rs| :: rs[i] in ticks)
    && match l
       case Waiting(e) => e.retries == |rs| && e.frame == f && e.sentAt == if rs == [] then start else rs[|rs| - 1]
       case GivenUp(at) => |rs| == 3 && at in ticks && at - start >= 7 * SECOND
  }

  lemma StaysOnSchedule(f: Frame, start: int, ticks: seq<int>, rs: seq<int>, l: Life, now: int)
    requires OnSchedule(f, start, ticks, rs, l) && forall t | t in ticks :: t <= now
    ensures OnSchedule(f, start, ticks + [now], rs + (if l.Waiting? && Due(l.e, now) then [now] else []),
                       LifeStep(l, now))
  {
    assert ShiftLeft(1) == 2 && ShiftLeft(2) == 4;
    assert now in ticks + [now];
    if l.Waiting? && Exhausted(l.e) {
      assert rs[2] in ticks;
    }
  }

  /** Whatever the tick times, every frame is on schedule. */
  lemma {:induction false} RetransmitTiming(f: Frame, start: int, ticks: seq<int>)
    requires Monotone(ticks)
    ensures OnSchedule(f, start, ticks, Resends(Fresh(f, start), ticks), LifeAfter(Fresh(f, start), ticks))
  {
    if ticks != [] {
      var before, now := ticks[..|ticks| - 1], ticks[|ticks| - 1];
      RetransmitTiming(f, start, before);
      assert ticks == before + [now];
      StaysOnSchedule(f, start, before, Resends(Fresh(f, start), before), LifeAfter(Fresh(f, start), before), now);
    }
  }

  /**
   With ticks exactly one second apart, an unacknowledged frame
   is given up between 8 and 9 seconds after tracking.
   */
  lemma {:induction false} GivenUpInNinthSecond(f: Frame, start: int, first: int, n: nat)
    requires start <= first < start + SECOND
    ensures var ticks := seq(n, i requires 0 <= i => first + i * SECOND);
            LifeAfter(Fresh(f, start), ticks) ==
              if n <= 1 then Waiting(Fresh(f, start))
              else if n <= 3 then Waiting(Entry(f, first + SECOND, 1))
              else if n <= 7 then Waiting(Entry(f, first + 3 * SECOND, 2))
              else if n == 8 then Waiting(Entry(f, first + 7 * SECOND, 3))
              else GivenUp(first + 8 * SECOND)
    ensures start + 8 * SECOND <= first + 8 * SECOND < start + 9 * SECOND
  {
    if n > 0 {
      GivenUpInNinthSecond(f, start, first, n - 1);
      var ticks := seq(n, i requires 0 <= i => first + i * SECOND);
      assert ticks[..n - 1] == seq(n - 1, i requires 0 <= i => first + i * SECOND);
      assert ShiftLeft(1) == 2 && ShiftLeft(2) == 4;
    }
  }
}
