/**
 The device's durable outbox, and the whole path of its frames: rows in SQLite, copies on
 a link that may lose them, deduplication per gateway connection with a timed pruner, and
 acknowledgements that may be lost too.
 */
module Outbox {
  import opened Frames
  import TunnelHub

  datatype Row = Row(createdAt: int, acked: bool)

  type Table = map<MsgId, Row>

  function Inserted(t: Table, m: MsgId, now: int): Table {
    t[m := Row(now, false)]
  }

  function MarkedAcked(t: Table, m: MsgId): Table {
    if m in t then t[m := t[m].(acked := true)] else t
  }

  function AckedDeleted(t: Table): Table {
    map m | m in t && !t[m].acked :: t[m]
  }

  function Unacked(t: Table): set<MsgId> {
    set m | m in t && !t[m].acked
  }

  /** All of `ids`, each once, oldest row first. */
  ghost predicate InOrder(order: seq<MsgId>, t: Table, ids: set<MsgId>)
    requires ids <= t.Keys
  {
    && (forall m :: m in order <==> m in ids)
    && (forall i, j | 0 <= i < j < |order| :: order[i] != order[j])
    && (forall i, j | 0 <= i < j < |order| :: t[order[i]].createdAt <= t[order[j]].createdAt)
  }

  /** A call of send_fn, and whether the frame's row was in the table when it was made. */
  datatype Attempt = Attempt(m: MsgId, stored: bool)

  function StoredAttempts(order: seq<MsgId>): seq<Attempt> {
    seq(|order|, i requires 0 <= i < |order| => Attempt(order[i], true))
  }

  class DurableOutbox {
    var table: Table
    var attempts: seq<Attempt>    // calls of send_fn

    constructor ()
      ensures table == map[] && attempts == []
    {
      table, attempts := map[], [];
    }

    /** The insert is committed before the send, so a send that raises loses nothing. */
    method EnqueueAndSend(m: MsgId, now: int)
      requires m !in table
      modifies this
      ensures table == Inserted(old(table), m, now)
      ensures attempts == old(attempts) + [Attempt(m, true)]
    {
      table := table[m := Row(now, false)];
      Send(m);
    }

    method Send(m: MsgId)
      modifies this`attempts
      ensures attempts == old(attempts) + [Attempt(m, m in table)]
    {
      attempts := attempts + [Attempt(m, m in table)];
    }

    method ListUnacked() returns (order: seq<MsgId>)
      ensures InOrder(order, table, Unacked(table))
    {
      order := [];
      var todo := Unacked(table);
      while todo != {}
        invariant todo <= Unacked(table)
        invariant InOrder(order, table, Unacked(table) - todo)
        invariant forall m, n | m in order && n in todo :: table[m].createdAt <= table[n].createdAt
        decreases todo
      {
        var m := Oldest(todo);
        order := order + [m];
        todo := todo - {m};
      }
    }

    method Oldest(ids: set<MsgId>) returns (m: MsgId)
      requires ids != {} && ids <= table.Keys
      ensures m in ids && forall n | n in ids :: table[m].createdAt <= table[n].createdAt
    {
      m :| m in ids;
      var todo := ids - {m};
      while todo != {}
        invariant m in ids && todo <= ids
        invariant forall n | n in ids - todo :: table[m].createdAt <= table[n].createdAt
        decreases todo
      {
        var n :| n in todo;
        if table[n].createdAt < table[m].createdAt { m := n; }
        todo := todo - {n};
      }
    }

    /** Every unacknowledged row is offered to the tunnel, oldest first; a send that raises is skipped. */
    method Flush() returns (ghost order: seq<MsgId>)
      modifies this`attempts
      ensures InOrder(order, table, Unacked(table))
      ensures attempts == old(attempts) + StoredAttempts(order)
    {
      var entries := ListUnacked();
      order := entries;
      for i := 0 to |entries|
        invariant attempts == old(attempts) + StoredAttempts(entries[..i])
      {
        assert entries[i] in Unacked(table);
        Send(entries[i]);
        assert StoredAttempts(entries[..i + 1]) == StoredAttempts(entries[..i]) + [Attempt(entries[i], true)];
      }
      assert entries[..|entries|] == entries;
    }

    method Ack(m: MsgId)
      modifies this`table
      ensures table == MarkedAcked(old(table), m)
    {
      if m in table {
        table := table[m := table[m].(acked := true)];
      }
    }

    method DeleteAcked()
      modifies this`table
      ensures table == AckedDeleted(old(table))
    {
      var todo := table.Keys;
      ghost var was := table;
      while todo != {}
        invariant todo <= was.Keys
        invariant table == map m | m in was && (m in todo || !was[m].acked) :: was[m]
        decreases todo
      {
        var m :| m in todo;
        if table[m].acked { table := table - {m}; }
        todo := todo - {m};
      }
    }
  }

  // ----- the whole path

  datatype Handling = Handling(conn: nat, m: MsgId, at: int)

  /** The dedup map of a gateway connection, and when it was last pruned, or created. */
  datatype Dedup = Dedup(known: map<MsgId, int>, prunedAt: int)

  datatype Path = Path(
    table: Table,
    onWire: set<MsgId>,                     // copies that may still arrive, on any connection, any number of times
    conns: seq<Dedup>,                      // one for each gateway connection
    acksDown: set<MsgId>,
    clock: int,
    // history
    enqueued: set<MsgId>,
    pruned: set<MsgId>,
    log: seq<Handling>)                     // what the gateway passed to a handler

  datatype Step =
    | Enqueue(m: MsgId, sent: bool)         // `sent` is false when the tunnel is down or the send raises
    | Flush(resent: set<MsgId>)            // which of the resent rows reach the wire
    | Connect
    | Arrives(c: nat, m: MsgId)          // `handleFrame` on connection c
    | AckArrives(m: MsgId)
    | PruneDedup(c: nat)
    | DeleteAcked
    | Wait(until: int)

  const START := Path(map[], {}, [], {}, 0, {}, {}, [])

  predicate Enabled(s: Path, a: Step) {
    match a
    case Enqueue(m, _) => m !in s.enqueued
    case Flush(resent) => resent <= Unacked(s.table)
    case Arrives(c, m) => c < |s.conns| && m in s.onWire
    case AckArrives(m) => m in s.acksDown
    case PruneDedup(c) => c < |s.conns|
    case Wait(until) => s.clock <= until
    case _ => true
  }

  function Apply(s: Path, a: Step): Path {
    if !Enabled(s, a) then s
    else
      match a
      case Enqueue(m, sent) =>
        s.(table := Inserted(s.table, m, s.clock), enqueued := s.enqueued + {m},
           onWire := if sent then s.onWire + {m} else s.onWire)
      case Flush(resent) => s.(onWire := s.onWire + resent)
      case Connect => s.(conns := s.conns + [Dedup(map[], s.clock)])
      case Arrives(c, m) =>
        var d := s.conns[c];
        var handled := if m in d.known then s
                       else s.(conns := s.conns[c := d.(known := d.known[m := s.clock])],
                               log := s.log + [Handling(c, m, s.clock)]);
        handled.(acksDown := s.acksDown + {m})
      case AckArrives(m) => s.(table := MarkedAcked(s.table, m))
      case PruneDedup(c) =>
        s.(conns := s.conns[c := Dedup(TunnelHub.Pruned(s.conns[c].known, s.clock), s.clock)])
      case DeleteAcked => s.(table := AckedDeleted(s.table), pruned := s.pruned + (s.table.Keys - Unacked(s.table)))
      case Wait(until) => s.(clock := until)
  }

  function Run(steps: seq<Step>): Path {
    if steps == [] then START else Apply(Run(steps[..|steps| - 1]), steps[|steps| - 1])
  }

  predicate At(log: seq<Handling>, i: nat, m: MsgId) {
    i < |log| && log[i].m == m
  }

  ghost predicate Handled(s: Path, m: MsgId) {
    exists i :: At(s.log, i, m)
  }

  ghost predicate Delivered(s: Path) {
    && s.enqueued == s.table.Keys + s.pruned
    && (forall m | m in s.table && s.table[m].acked :: Handled(s, m))
    && (forall m | m in s.pruned :: Handled(s, m))
    && (forall m | m in s.acksDown :: Handled(s, m))
    && (forall c, m | 0 <= c < |s.conns| && m in s.conns[c].known :: Handled(s, m))
  }

  predicate Handles(log: seq<Handling>, i: nat, c: nat, m: MsgId) {
    i < |log| && log[i].conn == c && log[i].m == m
  }

  /** Every handling of the frame on the connection is more than 300 seconds older than the last prune. */
  ghost predicate Forgotten(s: Path, c: nat, m: MsgId)
    requires c < |s.conns|
  {
    forall i: nat | Handles(s.log, i, c, m) :: s.log[i].at < s.conns[c].prunedAt - TunnelHub.DEDUP_MAX_AGE
  }

  ghost predicate WellTimed(s: Path) {
    && (forall c | 0 <= c < |s.conns| :: s.conns[c].prunedAt <= s.clock)
    && (forall i | 0 <= i < |s.log| :: s.log[i].conn < |s.conns| && s.log[i].at <= s.clock)
  }

  /** The dedup map knows exactly the frames that are not forgotten, with the time of the last handling. */
  ghost predicate Remembers(s: Path) {
    && WellTimed(s)
    && (forall c: nat, m | c < |s.conns| && m in s.conns[c].known ::
          s.conns[c].known[m] >= s.conns[c].prunedAt - TunnelHub.DEDUP_MAX_AGE
            && HandledAt(s.log, c, m, s.conns[c].known[m]))
    && (forall i: nat, c: nat, m | c < |s.conns| && Handles(s.log, i, c, m) ::
          s.log[i].at >= s.conns[c].prunedAt - TunnelHub.DEDUP_MAX_AGE ==>
            m in s.conns[c].known && s.conns[c].known[m] >= s.log[i].at)
  }

  ghost predicate HandledAt(log: seq<Handling>, c: nat, m: MsgId, at: int) {
    exists i: nat :: Handles(log, i, c, m) && log[i].at == at
  }

  ghost predicate Spaced(s: Path) {
    forall i, j | 0 <= i < j < |s.log| && s.log[i].conn == s.log[j].conn && s.log[i].m == s.log[j].m ::
      s.log[j].at - s.log[i].at > TunnelHub.DEDUP_MAX_AGE
  }

  lemma LogGrows(s: Path, a: Step, m: MsgId)
    ensures s.log <= Apply(s, a).log
    ensures Handled(s, m) ==> Handled(Apply(s, a), m)
  {
    if Handled(s, m) {
      var i :| At(s.log, i, m);
      assert At(Apply(s, a).log, i, m);
    }
  }

  lemma StepKeepsDelivered(s: Path, a: Step)
    requires Delivered(s)
    ensures Delivered(Apply(s, a))
  {
    var s' := Apply(s, a);
    forall m | Handled(s, m) ensures Handled(s', m) { LogGrows(s, a, m); }
    if a.Arrives? && Enabled(s, a) {
      assert a.m !in s.conns[a.c].known ==> At(s'.log, |s.log|, a.m);
    }
  }

  lemma HandledAtGrows(log: seq<Handling>, h: Handling, c: nat, m: MsgId, at: int)
    ensures HandledAt(log, c, m, at) ==> HandledAt(log + [h], c, m, at)
    ensures HandledAt(log + [h], h.conn, h.m, h.at)
  {
    assert Handles(log + [h], |log|, h.conn, h.m);
    if HandledAt(log, c, m, at) {
      var i: nat :| Handles(log, i, c, m) && log[i].at == at;
      assert Handles(log + [h], i, c, m);
    }
  }

  lemma ArrivalKeepsRemembers(s: Path, c: nat, m: MsgId)
    requires Remembers(s) && Enabled(s, Arrives(c, m)) && m !in s.conns[c].known
    ensures Remembers(Apply(s, Arrives(c, m)))
  {
    var s', h := Apply(s, Arrives(c, m)), Handling(c, m, s.clock);
    forall d: nat, n | d < |s'.conns| && n in s'.conns[d].known
      ensures s'.conns[d].known[n] >= s'.conns[d].prunedAt - TunnelHub.DEDUP_MAX_AGE
              && HandledAt(s'.log, d, n, s'.conns[d].known[n])
    {
      HandledAtGrows(s.log, h, d, n, s'.conns[d].known[n]);
    }
    forall i: nat, d: nat, n | d < |s'.conns| && Handles(s'.log, i, d, n)
      ensures s'.log[i].at >= s'.conns[d].prunedAt - TunnelHub.DEDUP_MAX_AGE ==>
                n in s'.conns[d].known && s'.conns[d].known[n] >= s'.log[i].at
    {
      if i < |s.log| {
        assert Handles(s.log, i, d, n);
      }
    }
  }

  lemma PruneKeepsRemembers(s: Path, c: nat)
    requires Remembers(s) && c < |s.conns|
    ensures Remembers(Apply(s, PruneDedup(c)))
  {
    var s' := Apply(s, PruneDedup(c));
    forall i: nat, d: nat, n | d < |s'.conns| && Handles(s'.log, i, d, n)
      ensures s'.log[i].at >= s'.conns[d].prunedAt - TunnelHub.DEDUP_MAX_AGE ==>
                n in s'.conns[d].known && s'.conns[d].known[n] >= s'.log[i].at
    {
      assert Handles(s.log, i, d, n);
    }
  }

  lemma StepKeepsRemembers(s: Path, a: Step)
    requires Remembers(s)
    ensures Remembers(Apply(s, a))
  {
    if Enabled(s, a) {
      match a
      case Arrives(c, m) =>
        if m !in s.conns[c].known {
          ArrivalKeepsRemembers(s, c, m);
        }
      case PruneDedup(c) => PruneKeepsRemembers(s, c);
      case _ =>
    }
  }

  lemma KnownIff(s: Path, c: nat, m: MsgId)
    requires Remembers(s) && c < |s.conns|
    ensures m in s.conns[c].known <==> !Forgotten(s, c, m)
  {
    if m in s.conns[c].known {
      assert HandledAt(s.log, c, m, s.conns[c].known[m]);
    }
  }

  lemma StepKeepsSpaced(s: Path, a: Step)
    requires Remembers(s) && Spaced(s)
    ensures Spaced(Apply(s, a))
  {
    if Enabled(s, a) && a.Arrives? && a.m !in s.conns[a.c].known {
      KnownIff(s, a.c, a.m);
      forall i: nat | i < |s.log| && s.log[i].conn == a.c && s.log[i].m == a.m
        ensures s.clock - s.log[i].at > TunnelHub.DEDUP_MAX_AGE
      {
        assert Handles(s.log, i, a.c, a.m);
      }
    }
  }

  lemma {:induction false} RunKeeps(steps: seq<Step>)
    ensures Delivered(Run(steps)) && Remembers(Run(steps)) && Spaced(Run(steps))
  {
    if steps != [] {
      var s, a := Run(steps[..|steps| - 1]), steps[|steps| - 1];
      RunKeeps(steps[..|steps| - 1]);
      StepKeepsDelivered(s, a);
      StepKeepsRemembers(s, a);
      StepKeepsSpaced(s, a);
    }
  }

  /**
   At least once: whatever was enqueued either reached the gateway's handler, or is still
   listed as unacknowledged and therefore resent by the next flush. Only acknowledged
   frames, which were all handled, are ever deleted.
   */
  lemma NothingEnqueuedIsLost(steps: seq<Step>, m: MsgId)
    requires m in Run(steps).enqueued
    ensures var s := Run(steps);
            && (m in s.table || (m in s.pruned && Handled(s, m)))
            && (m in s.table && s.table[m].acked ==> Handled(s, m))
            && (m in s.table && !s.table[m].acked ==> m in Apply(s, Flush(Unacked(s.table))).onWire)
  {
    RunKeeps(steps);
  }

  /** On one connection two handlings of a frame are more than 300 seconds apart. */
  lemma HandledAgainOnlyAfterFiveMinutes(steps: seq<Step>, i: nat, j: nat)
    requires i < j < |Run(steps).log|
    requires var log := Run(steps).log; log[i].m == log[j].m && log[i].conn == log[j].conn
    ensures var log := Run(steps).log; log[j].at > log[i].at + 300
  {
    RunKeeps(steps);
  }

  /**
   Exactly when the gateway passes an arriving copy to its handler: it does if and only if
   every handling of the frame on this connection is more than 300 seconds older than the
   connection's last prune. So the first copy on a connection is always handled, and a later
   one only after a prune that came late enough.
   */
  lemma ArrivalIsHandledIff(steps: seq<Step>, c: nat, m: MsgId)
    requires var s := Run(steps); c < |s.conns| && m in s.onWire
    ensures var s := Run(steps);
            Apply(s, Arrives(c, m)).log == if Forgotten(s, c, m) then s.log + [Handling(c, m, s.clock)] else s.log
  {
    RunKeeps(steps);
    KnownIff(Run(steps), c, m);
  }

  /** A reconnect does repeat it: the dedup map belongs to the connection. */
  lemma HandledAgainAfterReconnect(m: MsgId)
    ensures Run([Connect, Enqueue(m, true), Arrives(0, m), Connect, Arrives(1, m)]).log
            == [Handling(0, m, 0), Handling(1, m, 0)]
  {
    var a := [Connect, Enqueue(m, true), Arrives(0, m), Connect, Arrives(1, m)];
    assert a[..4] == [Connect, Enqueue(m, true), Arrives(0, m), Connect];
    assert a[..4][..3] == [Connect, Enqueue(m, true), Arrives(0, m)];
    assert a[..4][..3][..2] == [Connect, Enqueue(m, true)];
    assert a[..4][..3][..2][..1] == [Connect];
    assert Run([Connect]) == START.(conns := [Dedup(map[], 0)]);
    assert Run(a[..4][..3][..2]).onWire == {m};
    assert Run(a[..4][..3]).log == [Handling(0, m, 0)];
  }
}
