/**
 Delivery of gateway frames to one device, at the granularity at which goroutines
 interleave: `SendFrame` is a lookup, a check, a track and an enqueue; `Register` is a
 map swap and a later migration; `Close` wins the flag and later unregisters. The link
 may lose, repeat and reorder what was written; acknowledgements may be lost.
 */
module Delivery {
  import opened Prelude
  import opened Frames
  import opened AckTracking
  import opened DeviceClient
  import TunnelHub

  type ConnId = nat

  /**
   Live: routed to. Superseded: replaced in the map, its pending
   frames not yet migrated. Retired: migrated or unregistered.
   */
  datatype Phase = Live | Superseded | Retired

  datatype Conn = Conn(tracked: map<MsgId, Entry>, queue: seq<MsgId>, closed: bool, phase: Phase)

  /** How far a call of SendFrame has come, and with which connection. */
  datatype Pc = LookedUp(c: ConnId) | Checked(c: ConnId) | TrackedOn(c: ConnId)

  datatype State = State(
    conns: seq<Conn>,                 // in registration order
    current: Option<ConnId>,          // Hub.devices for this device
    sends: map<MsgId, Pc>,
    migrations: map<ConnId, ConnId>,  // Register calls between swap and migration: from -> to
    written: set<MsgId>,              // written to a socket at least once
    acksSent: set<MsgId>,
    memory: Memory,                   // the device
    // history
    tracked: set<MsgId>,              // tracked by SendFrame
    accepted: set<MsgId>,             // SendFrame returned nil
    gaveUp: set<MsgId>,               // dropped by a tick after three retransmissions
    orphaned: set<MsgId>,             // pending on a connection unregistered without being superseded
    late: set<MsgId>)                 // tracked on a connection that was already retired

  datatype Step =
    | SendLookup(m: MsgId)
    | SendCheck(m: MsgId)
    | SendTrack(m: MsgId, now: int)
    | SendEnqueue(m: MsgId)
    | RegisterSwap
    | RegisterMigrate(from: ConnId, now: int, order: seq<MsgId>)
    | CloseBegin(c: ConnId)
    | CloseEnd(c: ConnId)
    | Write(c: ConnId)
    | WriteFail(c: ConnId)
    | Receive(m: MsgId)
    | AckArrives(c: ConnId, m: MsgId)
    | Tick(c: ConnId, now: int, order: seq<MsgId>)

  const START := State([], None, map[], map[], {}, {}, BLANK, {}, {}, {}, {}, {})

  function FrameOf(m: MsgId): Frame {
    Frame(Other(0), m, 0, 0)
  }

  predicate Enabled(s: State, a: Step) {
    match a
    case SendLookup(m) => m !in s.sends && m !in s.tracked && s.current.Some?   // msg_ids are fresh
    case SendCheck(m) => m in s.sends && s.sends[m].LookedUp?
    case SendTrack(m, _) => m in s.sends && s.sends[m].Checked?
    case SendEnqueue(m) => m in s.sends && s.sends[m].TrackedOn?
    case RegisterSwap => true
    case RegisterMigrate(from, _, order) =>
      from in s.migrations && from < |s.conns| && ListsIds(order, s.conns[from].tracked.Keys)
    case CloseBegin(c) => c < |s.conns|
    case CloseEnd(c) => c < |s.conns| && s.conns[c].closed
    case Write(c) => c < |s.conns| && s.conns[c].queue != []
    case WriteFail(c) => c < |s.conns| && s.conns[c].queue != []
    case Receive(m) => m in s.written
    case AckArrives(c, m) => c < |s.conns| && m in s.acksSent
    case Tick(c, now, order) => c < |s.conns| && ListsIds(order, DueIds(s.conns[c].tracked, now))
  }

  predicate ListsIds(order: seq<MsgId>, ids: set<MsgId>) {
    (forall m | m in order :: m in ids) && (forall m | m in ids :: m in order) && |order| == |ids|
  }

  function Put(s: State, c: ConnId, conn: Conn): State
    requires c < |s.conns|
  {
    s.(conns := s.conns[c := conn])
  }

  function TrackOn(conn: Conn, ids: set<MsgId>, now: int): (r: Conn)
    ensures r.tracked.Keys == conn.tracked.Keys + ids && r.phase == conn.phase
  {
    conn.(tracked := conn.tracked + map m | m in ids :: Fresh(FrameOf(m), now))
  }

  function Migrate(s: State, from: ConnId, to: ConnId, now: int, order: seq<MsgId>): State
    requires from < |s.conns| && to < |s.conns| && from != to
  {
    var ids := s.conns[from].tracked.Keys;
    var moved := TrackOn(s.conns[to], ids, now);
    Put(Put(s, to, moved.(queue := TunnelHub.Offered(moved.queue, order))),
        from, s.conns[from].(closed := true, phase := Retired)).(
      migrations := s.migrations - {from},
      late := if s.conns[to].phase.Retired? then s.late + ids else s.late)
  }

  function Apply(s: State, a: Step): State {
    if !Enabled(s, a) then s
    else
      match a
      case SendLookup(m) => s.(sends := s.sends[m := LookedUp(s.current.value)])
      case SendCheck(m) =>
        var c := s.sends[m].c;
        if c >= |s.conns| || s.conns[c].closed then s.(sends := s.sends - {m})
        else s.(sends := s.sends[m := Checked(c)])
      case SendTrack(m, now) =>
        var c := s.sends[m].c;
        if c >= |s.conns| then s
        else
          Put(s, c, TrackOn(s.conns[c], {m}, now)).(
            sends := s.sends[m := TrackedOn(c)],
            tracked := s.tracked + {m},
            late := if s.conns[c].phase.Retired? then s.late + {m} else s.late)
      case SendEnqueue(m) =>
        var c := s.sends[m].c;
        if c >= |s.conns| then s
        else if |s.conns[c].queue| >= TunnelHub.OUTBOUND_CAPACITY then s.(sends := s.sends - {m})
        else
          Put(s, c, s.conns[c].(queue := s.conns[c].queue + [m])).(
            sends := s.sends - {m}, accepted := s.accepted + {m})
      case RegisterSwap =>
        var n := |s.conns|;
        var swapped := s.(conns := s.conns + [Conn(map[], [], false, Live)], current := Some(n));
        if s.current.None? || s.current.value >= n then swapped
        else
          var prev := s.current.value;
          Put(swapped, prev, s.conns[prev].(phase := Superseded)).(migrations := s.migrations[prev := n])
      case RegisterMigrate(from, now, order) =>
        var to := s.migrations[from];
        if to >= |s.conns| || to == from then s else Migrate(s, from, to, now, order)
      case CloseBegin(c) => Put(s, c, s.conns[c].(closed := true))
      case CloseEnd(c) =>
        if s.current != Some(c) then s
        else
          Put(s, c, s.conns[c].(phase := Retired)).(
            current := None, orphaned := s.orphaned + s.conns[c].tracked.Keys)
      case Write(c) =>
        Put(s, c, s.conns[c].(queue := s.conns[c].queue[1..])).(written := s.written + {s.conns[c].queue[0]})
      case WriteFail(c) => Put(s, c, s.conns[c].(queue := s.conns[c].queue[1..], closed := true))
      case Receive(m) => s.(acksSent := s.acksSent + {m}, memory := Handle(s.memory, FrameOf(m)))
      case AckArrives(c, m) => Put(s, c, s.conns[c].(tracked := s.conns[c].tracked - {m}))
      case Tick(c, now, order) =>
        var conn := s.conns[c];
        Put(s, c, conn.(tracked := TickAll(conn.tracked, now), queue := TunnelHub.Offered(conn.queue, order))).(
          gaveUp := s.gaveUp + ExhaustedIds(conn.tracked))
  }

  function ApplyAll(s: State, steps: seq<Step>): State {
    if steps == [] then s else Apply(ApplyAll(s, steps[..|steps| - 1]), steps[|steps| - 1])
  }

  /** A disabled step leaves the state alone, so every sequence of steps is a run. */
  function Run(steps: seq<Step>): State {
    ApplyAll(START, steps)
  }

  // ----- what every run keeps

  /** The frame is tracked on a connection that is routed to, or whose frames a Register call will still migrate. */
  predicate HeldBy(s: State, m: MsgId, c: ConnId) {
    c < |s.conns| && !s.conns[c].phase.Retired? && m in s.conns[c].tracked
  }

  ghost predicate Held(s: State, m: MsgId) {
    exists c :: HeldBy(s, m, c)
  }

  predicate Done(s: State, m: MsgId) {
    m in s.memory.handled || m in s.gaveUp
  }

  predicate Dropped(s: State, m: MsgId) {
    m in s.orphaned || m in s.late
  }

  ghost predicate Structure(s: State) {
    && (s.current.Some? ==> s.current.value < |s.conns|)
    && (forall c | 0 <= c < |s.conns| :: s.conns[c].phase.Live? <==> s.current == Some(c))
    && (forall c: ConnId :: c in s.migrations <==> c < |s.conns| && s.conns[c].phase.Superseded?)
    && (forall c | c in s.migrations :: c < s.migrations[c] < |s.conns|)
    && (forall m | m in s.sends :: s.sends[m].c < |s.conns| && (m in s.tracked <==> s.sends[m].TrackedOn?))
    && (forall c | 0 <= c < |s.conns| :: s.conns[c].tracked.Keys <= s.tracked)
  }

  ghost predicate History(s: State) {
    && s.accepted <= s.tracked && s.orphaned + s.late <= s.tracked
    && Recalled(s.memory)
    && forall m | m in s.acksSent :: m in s.memory.handled
  }

  /** Each frame is held by at most one connection, and by none once it was dropped. */
  ghost predicate Unique(s: State) {
    && (forall m, c, d | HeldBy(s, m, c) && HeldBy(s, m, d) :: c == d)
    && (forall m, c | HeldBy(s, m, c) :: !Dropped(s, m))
  }

  ghost predicate Accounted(s: State) {
    forall m | m in s.tracked :: Held(s, m) || Done(s, m) || Dropped(s, m)
  }

  ghost predicate Inv(s: State) {
    Structure(s) && History(s) && Unique(s) && Accounted(s)
  }

  lemma SwapKeepsStructure(s: State)
    requires Structure(s)
    ensures Structure(Apply(s, RegisterSwap))
  {
    var s', n := Apply(s, RegisterSwap), |s.conns|;
    SwappedConns(s);
    assert forall c: ConnId :: c in s'.migrations <==> c in s.migrations || s.current == Some(c);
  }

  /** The new connection is the current one; the one it replaces is superseded; the others are as they were. */
  lemma SwappedConns(s: State)
    requires Structure(s)
    ensures var s', n := Apply(s, RegisterSwap), |s.conns|;
            && s'.current == Some(n) && |s'.conns| == n + 1 && s'.conns[n] == Conn(map[], [], false, Live)
            && s'.sends == s.sends && s'.tracked == s.tracked
            && (forall c: ConnId | c < n ::
                  s'.conns[c] == if s.current == Some(c) then s.conns[c].(phase := Superseded) else s.conns[c])
            && s'.migrations == if s.current.Some? then s.migrations[s.current.value := n] else s.migrations
  {
  }

  lemma MigrateKeepsStructure(s: State, from: ConnId, now: int, order: seq<MsgId>)
    requires Structure(s) && from in s.migrations
    ensures Structure(Migrate(s, from, s.migrations[from], now, order))
  {
    var to := s.migrations[from];
    var s' := Migrate(s, from, to, now, order);
    assert forall c | 0 <= c < |s.conns| && c != from && c != to :: s'.conns[c] == s.conns[c];
  }

  /** The steps of SendFrame and of the device. */
  predicate OfSender(a: Step) {
    a.SendLookup? || a.SendCheck? || a.SendTrack? || a.SendEnqueue? || a.Receive?
  }

  lemma TrackKeepsStructure(s: State, m: MsgId, now: int)
    requires Structure(s)
    ensures Structure(Apply(s, SendTrack(m, now)))
  {
    var s' := Apply(s, SendTrack(m, now));
    assert |s'.conns| == |s.conns| && forall c | 0 <= c < |s.conns| :: s'.conns[c].phase == s.conns[c].phase;
  }

  lemma EnqueueKeepsStructure(s: State, m: MsgId)
    requires Structure(s)
    ensures Structure(Apply(s, SendEnqueue(m)))
  {
    var s' := Apply(s, SendEnqueue(m));
    assert |s'.conns| == |s.conns|;
    assert forall c | 0 <= c < |s.conns| ::
        s'.conns[c].phase == s.conns[c].phase && s'.conns[c].tracked == s.conns[c].tracked;
  }

  lemma SenderKeepsStructure(s: State, a: Step)
    requires Structure(s) && OfSender(a)
    ensures Structure(Apply(s, a))
  {
    match a
    case SendTrack(m, now) => TrackKeepsStructure(s, m, now);
    case SendEnqueue(m) => EnqueueKeepsStructure(s, m);
    case _ =>
  }

  predicate OfClosing(a: Step) {
    a.CloseBegin? || a.CloseEnd? || a.WriteFail?
  }

  /** Connections may lose frames, and connection c is the only one that changed. */
  lemma FewerFramesKeepStructure(s: State, s': State, c: ConnId)
    requires Structure(s) && c < |s.conns| == |s'.conns| && s'.conns == s.conns[c := s'.conns[c]]
    requires s'.conns[c].tracked.Keys <= s.conns[c].tracked.Keys && s'.conns[c].phase == s.conns[c].phase
    requires s'.current == s.current && s'.migrations == s.migrations && s'.sends == s.sends && s'.tracked == s.tracked
    ensures Structure(s')
  {
  }

  lemma UnregisterKeepsStructure(s: State, c: ConnId)
    requires Structure(s) && c < |s.conns| && s.current == Some(c)
    ensures Structure(s.(conns := s.conns[c := s.conns[c].(phase := Retired)], current := None))
  {
  }

  lemma ClosingKeepsStructure(s: State, a: Step)
    requires Structure(s) && OfClosing(a)
    ensures Structure(Apply(s, a))
  {
    if Enabled(s, a) {
      if a.CloseEnd? {
        if s.current == Some(a.c) {
          UnregisterKeepsStructure(s, a.c);
        }
      } else {
        FewerFramesKeepStructure(s, Apply(s, a), a.c);
      }
    }
  }

  /** A step that only touches the frames of one connection. */
  lemma TrafficKeepsStructure(s: State, a: Step)
    requires Structure(s) && (a.Write? || a.AckArrives? || a.Tick?)
    ensures Structure(Apply(s, a))
  {
    if Enabled(s, a) {
      FewerFramesKeepStructure(s, Apply(s, a), a.c);
    }
  }

  lemma StepKeepsStructure(s: State, a: Step)
    requires Structure(s)
    ensures Structure(Apply(s, a))
  {
    if OfSender(a) {
      SenderKeepsStructure(s, a);
    } else if a.RegisterSwap? {
      SwapKeepsStructure(s);
    } else if OfClosing(a) {
      ClosingKeepsStructure(s, a);
    } else if !a.RegisterMigrate? {
      TrafficKeepsStructure(s, a);
    } else if Enabled(s, a) {
      MigrateKeepsStructure(s, a.from, a.now, a.order);
    }
  }

  lemma ReceiveKeepsHistory(s: State, m: MsgId)
    requires History(s)
    ensures History(Apply(s, Receive(m)))
    ensures s.memory.handled <= Apply(s, Receive(m)).memory.handled
  {
    RecalledHandles(s.memory, FrameOf(m));
  }

  ghost predicate KeepsRecords(s: State, a: Step) {
    var s' := Apply(s, a);
    && s'.memory == s.memory && s'.acksSent == s.acksSent
    && s'.accepted <= s'.tracked && s'.orphaned + s'.late <= s'.tracked
  }

  lemma SenderKeepsRecords(s: State, a: Step)
    requires Structure(s) && s.accepted <= s.tracked && s.orphaned + s.late <= s.tracked
    requires OfSender(a) && !a.Receive?
    ensures KeepsRecords(s, a)
  {
  }

  lemma ConnectionKeepsRecords(s: State, a: Step)
    requires Structure(s) && s.accepted <= s.tracked && s.orphaned + s.late <= s.tracked
    requires !OfSender(a)
    ensures KeepsRecords(s, a)
  {
    if a.RegisterMigrate? && Enabled(s, a) {
      assert s.conns[a.from].tracked.Keys <= s.tracked;
    }
    if a.CloseEnd? && Enabled(s, a) {
      assert s.conns[a.c].tracked.Keys <= s.tracked;
    }
  }

  lemma StepKeepsHistory(s: State, a: Step)
    requires Structure(s) && History(s)
    ensures History(Apply(s, a))
    ensures s.memory.handled <= Apply(s, a).memory.handled
  {
    if a.Receive? {
      ReceiveKeepsHistory(s, a.m);
    } else if OfSender(a) {
      SenderKeepsRecords(s, a);
    } else {
      ConnectionKeepsRecords(s, a);
    }
  }

  lemma DoneAndDroppedStay(s: State, a: Step, m: MsgId)
    requires Structure(s) && History(s)
    ensures Done(s, m) ==> Done(Apply(s, a), m)
    ensures Dropped(s, m) ==> Dropped(Apply(s, a), m)
  {
    StepKeepsHistory(s, a);
  }

  /** Steps other than these two hold nothing new, and let go only of frames that are done or dropped. */
  predicate MovesFrames(a: Step) {
    a.SendTrack? || a.RegisterMigrate?
  }

  /** The step's effect on frame m at connection c. */
  ghost predicate LetsGo(s: State, a: Step, m: MsgId, c: ConnId) {
    var s' := Apply(s, a);
    && (HeldBy(s', m, c) ==>
          HeldBy(s, m, c) && (Dropped(s', m) ==> Dropped(s, m) || exists d | HeldBy(s, m, d) :: d != c))
    && (HeldBy(s, m, c) ==> HeldBy(s', m, c) || Done(s', m) || Dropped(s', m))
    && s'.tracked == s.tracked
  }

  lemma SenderLetsGo(s: State, a: Step, m: MsgId, c: ConnId)
    requires Structure(s) && History(s) && OfSender(a) && !MovesFrames(a)
    ensures LetsGo(s, a, m, c)
  {
  }

  lemma ClosingLetsGo(s: State, a: Step, m: MsgId, c: ConnId)
    requires Structure(s) && History(s) && OfClosing(a)
    ensures LetsGo(s, a, m, c)
  {
    var s' := Apply(s, a);
    if Enabled(s, a) && a.CloseEnd? && s.current == Some(a.c) && HeldBy(s', m, c) && m in s.conns[a.c].tracked {
      assert HeldBy(s, m, a.c);
    }
  }

  lemma SwapLetsGo(s: State, m: MsgId, c: ConnId)
    requires Structure(s) && History(s)
    ensures LetsGo(s, RegisterSwap, m, c)
  {
    var s' := Apply(s, RegisterSwap);
    assert c < |s.conns| ==> s'.conns[c].tracked == s.conns[c].tracked;
    assert s'.conns[|s.conns|].tracked == map[];
  }

  lemma WriteLetsGo(s: State, w: ConnId, m: MsgId, c: ConnId)
    requires Structure(s) && History(s)
    ensures LetsGo(s, Write(w), m, c)
  {
    var s' := Apply(s, Write(w));
    assert forall d | 0 <= d < |s.conns| ::
          s'.conns[d].tracked == s.conns[d].tracked && s'.conns[d].phase == s.conns[d].phase;
  }

  lemma AckLetsGo(s: State, from: ConnId, acked: MsgId, m: MsgId, c: ConnId)
    requires Structure(s) && History(s)
    ensures LetsGo(s, AckArrives(from, acked), m, c)
  {
  }

  lemma TickLetsGo(s: State, t: ConnId, now: int, order: seq<MsgId>, m: MsgId, c: ConnId)
    requires Structure(s) && History(s)
    ensures LetsGo(s, Tick(t, now, order), m, c)
  {
  }

  lemma OtherStepsLetGo(s: State, a: Step, m: MsgId, c: ConnId)
    requires Structure(s) && History(s) && !MovesFrames(a)
    ensures LetsGo(s, a, m, c)
  {
    if OfSender(a) {
      SenderLetsGo(s, a, m, c);
    } else if OfClosing(a) {
      ClosingLetsGo(s, a, m, c);
    } else if a.RegisterSwap? {
      SwapLetsGo(s, m, c);
    } else {
      match a
      case Write(w) => WriteLetsGo(s, w, m, c);
      case AckArrives(from, acked) => AckLetsGo(s, from, acked, m, c);
      case Tick(t, now, order) => TickLetsGo(s, t, now, order, m, c);
    }
  }

  lemma OtherStepsKeepAccount(s: State, a: Step)
    requires Inv(s) && !MovesFrames(a)
    ensures Unique(Apply(s, a)) && Accounted(Apply(s, a))
  {
    var s' := Apply(s, a);
    forall m, c, d | HeldBy(s', m, c) && HeldBy(s', m, d) ensures c == d && !Dropped(s', m) {
      OtherStepsLetGo(s, a, m, c);
      OtherStepsLetGo(s, a, m, d);
    }
    forall m | m in s'.tracked ensures Held(s', m) || Done(s', m) || Dropped(s', m) {
      DoneAndDroppedStay(s, a, m);
      if Held(s, m) {
        var c :| HeldBy(s, m, c);
        OtherStepsLetGo(s, a, m, c);
      } else {
        OtherStepsLetGo(s, a, m, 0);
      }
    }
  }

  lemma SendTrackKeepsAccount(s: State, m: MsgId, now: int)
    requires Inv(s)
    ensures Unique(Apply(s, SendTrack(m, now))) && Accounted(Apply(s, SendTrack(m, now)))
  {
    var s' := Apply(s, SendTrack(m, now));
    if Enabled(s, SendTrack(m, now)) {
      var at := s.sends[m].c;
      assert forall c: ConnId | c < |s.conns| :: m !in s.conns[c].tracked;
      assert forall x, c :: HeldBy(s', x, c) <==> HeldBy(s, x, c) || (x == m && c == at && !s.conns[at].phase.Retired?);
      forall x | x in s'.tracked ensures Held(s', x) || Done(s', x) || Dropped(s', x) {
        if x == m {
          assert HeldBy(s', m, at) || m in s'.late;
        } else if Held(s, x) {
          var c :| HeldBy(s, x, c);
          assert HeldBy(s', x, c);
        }
      }
    }
  }

  lemma HeldAfterMigrate(s: State, from: ConnId, now: int, order: seq<MsgId>, m: MsgId, c: ConnId)
    requires Structure(s) && from in s.migrations
    ensures var to := s.migrations[from];
            HeldBy(Migrate(s, from, to, now, order), m, c) <==>
              c != from && (HeldBy(s, m, c) || (c == to && HeldBy(s, m, from) && !s.conns[to].phase.Retired?))
  {
    var to := s.migrations[from];
    var s' := Migrate(s, from, to, now, order);
    if c < |s.conns| && c != from && c != to {
      assert s'.conns[c] == s.conns[c];
    }
  }

  lemma MigrateKeepsAccount(s: State, from: ConnId, now: int, order: seq<MsgId>)
    requires Structure(s) && Unique(s) && Accounted(s) && from in s.migrations
    ensures var s' := Migrate(s, from, s.migrations[from], now, order); Unique(s') && Accounted(s')
  {
    var to := s.migrations[from];
    var s' := Migrate(s, from, to, now, order);
    forall x, c, d | HeldBy(s', x, c) && HeldBy(s', x, d) ensures c == d && !Dropped(s', x) {
      assert x in s.conns[from].tracked ==> HeldBy(s, x, from);
      HeldAfterMigrate(s, from, now, order, x, c);
      HeldAfterMigrate(s, from, now, order, x, d);
    }
    forall x | x in s'.tracked ensures Held(s', x) || Done(s', x) || Dropped(s', x) {
      if Held(s, x) {
        var c :| HeldBy(s, x, c);
        HeldAfterMigrate(s, from, now, order, x, if c == from then to else c);
      }
    }
  }

  lemma StepKeepsInv(s: State, a: Step)
    requires Inv(s)
    ensures Inv(Apply(s, a))
  {
    StepKeepsStructure(s, a);
    StepKeepsHistory(s, a);
    match a {
      case SendTrack(m, now) => SendTrackKeepsAccount(s, m, now);
      case RegisterMigrate(from, now, order) =>
        if Enabled(s, a) { MigrateKeepsAccount(s, from, now, order); }
      case _ => OtherStepsKeepAccount(s, a);
    }
  }

  lemma {:induction false} StepsKeepInv(s: State, steps: seq<Step>)
    requires Inv(s)
    ensures Inv(ApplyAll(s, steps))
  {
    if steps != [] {
      StepsKeepInv(s, steps[..|steps| - 1]);
      StepKeepsInv(ApplyAll(s, steps[..|steps| - 1]), steps[|steps| - 1]);
    }
  }

  lemma InvAtStart()
    ensures Inv(START)
  {
    BlankIsRecalled();
  }

  lemma RunKeepsInv(steps: seq<Step>)
    ensures Inv(Run(steps))
  {
    InvAtStart();
    StepsKeepInv(START, steps);
  }

  /**
   No silent loss, over every run and every interleaving: an accepted frame is held by a
   connection that is routed to or about to be migrated, or it reached the device's
   handler, or it was given up, or it was dropped in one of exactly two ways.
   */
  lemma NoSilentLoss(steps: seq<Step>, m: MsgId)
    requires m in Run(steps).accepted
    ensures var s := Run(steps);
            Held(s, m) || m in s.memory.handled || m in s.gaveUp || m in s.orphaned || m in s.late
  {
    RunKeepsInv(steps);
  }

  /** And those two ways do lose it: an undelivered frame is held exactly when it was not dropped. */
  lemma HeldIffNotDropped(steps: seq<Step>, m: MsgId)
    requires m in Run(steps).tracked && !Done(Run(steps), m)
    ensures Held(Run(steps), m) <==> !Dropped(Run(steps), m)
    ensures forall c, d | HeldBy(Run(steps), m, c) && HeldBy(Run(steps), m, d) :: c == d
  {
    RunKeepsInv(steps);
  }

  /** What the device handles never repeats inside a block, whatever the gateway retransmits and migrates. */
  lemma DeliveredOncePerBlock(steps: seq<Step>)
    ensures NoRepeatInBlock(Run(steps).memory.handled)
  {
    RunKeepsInv(steps);
    RecalledMeansNoRepeat(Run(steps).memory);
  }

  lemma Unfold1(s: State, a: Step)
    ensures ApplyAll(s, [a]) == Apply(s, a)
  {
    assert [a][..0] == [];
  }

  lemma Unfold2(s: State, a: Step, b: Step)
    ensures ApplyAll(s, [a, b]) == Apply(Apply(s, a), b)
  {
    assert [a, b][..1] == [a];
    Unfold1(s, a);
  }

  lemma {:induction false} Concat(s: State, before: seq<Step>, after: seq<Step>)
    ensures ApplyAll(s, before + after) == ApplyAll(ApplyAll(s, before), after)
  {
    if after == [] {
      assert before + after == before;
    } else {
      Concat(s, before, after[..|after| - 1]);
      assert (before + after)[..|before + after| - 1] == before + after[..|after| - 1];
    }
  }

  // ----- the two ways to drop a frame as late, and when they cannot happen

  /** SendFrame has passed its closed check when Register migrates and closes the connection under it. */
  lemma SendRegisterRace(m: MsgId)
    ensures var s := Run([RegisterSwap, SendLookup(m)] + [SendCheck(m), RegisterSwap]
                         + [RegisterMigrate(0, 0, []), SendTrack(m, 0)] + [SendEnqueue(m)]);
            m in s.accepted && m in s.late && !Held(s, m) && !Done(s, m)
  {
    var a, b, c := [RegisterSwap, SendLookup(m)], [SendCheck(m), RegisterSwap],
        [RegisterMigrate(0, 0, []), SendTrack(m, 0)];
    Concat(START, a, b);
    Concat(START, a + b, c);
    Concat(START, a + b + c, [SendEnqueue(m)]);
    RaceBegins(m);
    RaceEnds(Run(a + b), m);
  }

  lemma LookedUpFirst(m: MsgId) returns (s: State)
    ensures s == START.(conns := [Conn(map[], [], false, Live)], current := Some(0), sends := map[m := LookedUp(0)])
    ensures s == ApplyAll(START, [RegisterSwap, SendLookup(m)])
  {
    Unfold2(START, RegisterSwap, SendLookup(m));
    s := Apply(Apply(START, RegisterSwap), SendLookup(m));
  }

  lemma RaceBegins(m: MsgId)
    ensures var s := ApplyAll(ApplyAll(START, [RegisterSwap, SendLookup(m)]), [SendCheck(m), RegisterSwap]);
            && s.conns == [Conn(map[], [], false, Superseded), Conn(map[], [], false, Live)]
            && s.migrations == map[0 := 1]
            && s.sends == map[m := Checked(0)] && s.memory == BLANK && s.gaveUp == {}
  {
    var s1 := LookedUpFirst(m);
    Unfold2(s1, SendCheck(m), RegisterSwap);
  }

  lemma RaceEnds(s: State, m: MsgId)
    requires s.conns == [Conn(map[], [], false, Superseded), Conn(map[], [], false, Live)]
             && s.migrations == map[0 := 1]
    requires s.sends == map[m := Checked(0)] && s.memory == BLANK && s.gaveUp == {}
    ensures var s' := Apply(ApplyAll(s, [RegisterMigrate(0, 0, []), SendTrack(m, 0)]), SendEnqueue(m));
            m in s'.accepted && m in s'.late && !Held(s', m) && !Done(s', m)
  {
    Unfold2(s, RegisterMigrate(0, 0, []), SendTrack(m, 0));
    var s1 := MigrateNothing(s);
    TrackLate(s1, m);
  }

  lemma MigrateNothing(s: State) returns (s1: State)
    requires s.conns == [Conn(map[], [], false, Superseded), Conn(map[], [], false, Live)]
             && s.migrations == map[0 := 1]
    ensures s1 == Apply(s, RegisterMigrate(0, 0, []))
    ensures |s1.conns| == 2 && s1.conns[0] == Conn(map[], [], true, Retired) && s1.conns[1].tracked == map[]
    ensures s1.sends == s.sends && s1.memory == s.memory && s1.gaveUp == s.gaveUp
  {
    s1 := Apply(s, RegisterMigrate(0, 0, []));
    assert ListsIds([], s.conns[0].tracked.Keys);
    assert s1 == Migrate(s, 0, 1, 0, []);
  }

  lemma TrackLate(s: State, m: MsgId)
    requires |s.conns| == 2 && s.conns[0] == Conn(map[], [], true, Retired) && s.conns[1].tracked == map[]
    requires s.sends == map[m := Checked(0)] && s.memory == BLANK && s.gaveUp == {}
    ensures var s' := Apply(Apply(s, SendTrack(m, 0)), SendEnqueue(m));
            m in s'.accepted && m in s'.late && !Held(s', m) && !Done(s', m)
  {
    var s1 := Apply(s, SendTrack(m, 0));
    assert |s1.conns| == 2 && s1.conns[1] == s.conns[1] && s1.conns[0].queue == [] && s1.conns[0].phase.Retired?;
    assert s1.sends == map[m := TrackedOn(0)] && m in s1.late && s1.memory == BLANK && s1.gaveUp == {};
    var s2 := Apply(s1, SendEnqueue(m));
    assert |s2.conns| == 2 && s2.conns[1] == s.conns[1] && s2.conns[0].phase.Retired?;
  }

  /** A registration migrates into a connection that has closed and unregistered in the meantime. */
  lemma MigrationIntoClosedRace(m: MsgId)
    ensures var s := Run([RegisterSwap, SendLookup(m)] + [SendCheck(m), SendTrack(m, 0)]
                         + [SendEnqueue(m), RegisterSwap]
                         + [CloseBegin(1), CloseEnd(1)] + [RegisterMigrate(0, 0, [m])]);
            m in s.accepted && m in s.late && !Held(s, m) && !Done(s, m)
  {
    var a, b, c, d := [RegisterSwap, SendLookup(m)], [SendCheck(m), SendTrack(m, 0)], [SendEnqueue(m), RegisterSwap],
                      [CloseBegin(1), CloseEnd(1)];
    Concat(START, a, b);
    Concat(START, a + b, c);
    Concat(START, a + b + c, d);
    Concat(START, a + b + c + d, [RegisterMigrate(0, 0, [m])]);
    var s1 := SentOnFirst(m);
    var s2 := AcceptedThenSuperseded(s1, m);
    var s3 := SecondCloses(s2, m);
    Unfold1(s3, RegisterMigrate(0, 0, [m]));
    MigratedIntoClosed(s3, m);
  }

  /** The frame is tracked on the only connection. */
  lemma SentOnFirst(m: MsgId) returns (s: State)
    ensures s == ApplyAll(ApplyAll(START, [RegisterSwap, SendLookup(m)]), [SendCheck(m), SendTrack(m, 0)])
    ensures |s.conns| == 1 && s.conns[0].tracked.Keys == {m} && s.conns[0].queue == [] && s.conns[0].phase.Live?
    ensures s.current == Some(0) && s.sends == map[m := TrackedOn(0)] && s.migrations == map[]
    ensures s.memory == BLANK && s.gaveUp == {}
  {
    var s1 := LookedUpFirst(m);
    Unfold2(s1, SendCheck(m), SendTrack(m, 0));
    var s2 := s1.(sends := map[m := Checked(0)]);
    assert Apply(s1, SendCheck(m)) == s2;
    s := Apply(s2, SendTrack(m, 0));
  }

  /** It is accepted, and a second connection replaces the first. */
  lemma AcceptedThenSuperseded(s: State, m: MsgId) returns (s': State)
    requires |s.conns| == 1 && s.conns[0].tracked.Keys == {m} && s.conns[0].queue == [] && s.conns[0].phase.Live?
    requires s.current == Some(0) && s.sends == map[m := TrackedOn(0)] && s.migrations == map[]
    requires s.memory == BLANK && s.gaveUp == {}
    ensures s' == ApplyAll(s, [SendEnqueue(m), RegisterSwap])
    ensures |s'.conns| == 2 && s'.conns[0].tracked.Keys == {m} && s'.current == Some(1)
    ensures s'.migrations == map[0 := 1] && m in s'.accepted && s'.memory == BLANK && s'.gaveUp == {}
  {
    Unfold2(s, SendEnqueue(m), RegisterSwap);
    var s1 := Apply(s, SendEnqueue(m));
    assert s.conns[0].queue + [m] == [m];
    assert s1.conns == [s.conns[0].(queue := [m])] && m in s1.accepted;
    s' := Apply(s1, RegisterSwap);
    assert s'.conns == [s1.conns[0].(phase := Superseded), Conn(map[], [], false, Live)];
  }

  /** The second connection closes and unregisters. */
  lemma SecondCloses(s: State, m: MsgId) returns (s': State)
    requires |s.conns| == 2 && s.conns[0].tracked.Keys == {m} && s.current == Some(1)
    requires s.migrations == map[0 := 1] && m in s.accepted && s.memory == BLANK && s.gaveUp == {}
    ensures s' == ApplyAll(s, [CloseBegin(1), CloseEnd(1)])
    ensures |s'.conns| == 2 && s'.conns[0].tracked.Keys == {m} && s'.conns[1].phase.Retired?
    ensures s'.migrations == map[0 := 1] && m in s'.accepted && s'.memory == BLANK && s'.gaveUp == {}
  {
    Unfold2(s, CloseBegin(1), CloseEnd(1));
    var s1 := Apply(s, CloseBegin(1));
    assert s1 == s.(conns := s.conns[1 := s.conns[1].(closed := true)]);
    s' := Apply(s1, CloseEnd(1));
  }

  lemma MigratedIntoClosed(s: State, m: MsgId)
    requires |s.conns| == 2 && s.conns[0].tracked.Keys == {m} && s.conns[1].phase.Retired?
    requires s.migrations == map[0 := 1] && m in s.accepted && s.memory == BLANK && s.gaveUp == {}
    ensures var s' := Apply(s, RegisterMigrate(0, 0, [m]));
            m in s'.accepted && m in s'.late && !Held(s', m) && !Done(s', m)
  {
    assert ListsIds([m], s.conns[0].tracked.Keys);
    BothRetired(s, m);
  }

  lemma BothRetired(s: State, m: MsgId)
    requires |s.conns| == 2 && m in s.conns[0].tracked && s.conns[1].phase.Retired?
    ensures var s' := Migrate(s, 0, 1, 0, [m]);
            && m in s'.late && !Held(s', m)
            && s'.accepted == s.accepted && s'.memory == s.memory && s'.gaveUp == s.gaveUp
  {
    var s' := Migrate(s, 0, 1, 0, [m]);
    assert |s'.conns| == 2 && s'.conns[0].phase.Retired? && s'.conns[1].phase.Retired?;
  }

  /** Calls that are not interrupted: each of these runs to its end before the next begins. */
  datatype Op =
    | Send(m: MsgId, now: int)
    | Register(now: int, order: seq<MsgId>)
    | Close(c: ConnId)
    | FailedWrite(c: ConnId)
    | Single(a: Step)

  function StepsOf(s: State, op: Op): seq<Step> {
    match op
    case Send(m, now) => [SendLookup(m), SendCheck(m)] + [SendTrack(m, now), SendEnqueue(m)]
    case Register(now, order) =>
      if s.current.None? || s.current.value >= |s.conns| then [RegisterSwap]
      else if !ListsIds(order, s.conns[s.current.value].tracked.Keys) then []
      else [RegisterSwap, RegisterMigrate(s.current.value, now, order)]
    case Close(c) => [CloseBegin(c), CloseEnd(c)]
    case FailedWrite(c) => if c < |s.conns| && s.conns[c].queue != [] then [WriteFail(c), CloseEnd(c)] else []
    case Single(a) => if a.Write? || a.Receive? || a.AckArrives? || a.Tick? then [a] else []
  }

  function RunOps(ops: seq<Op>): State {
    if ops == [] then START
    else
      var s := RunOps(ops[..|ops| - 1]);
      ApplyAll(s, StepsOf(s, ops[|ops| - 1]))
  }

  /** No call is under way, and nothing was ever tracked too late. */
  ghost predicate Quiet(s: State) {
    s.sends == map[] && s.migrations == map[] && s.late == {}
  }

  lemma LookupAndCheck(s: State, m: MsgId)
    requires Structure(s) && Quiet(s)
    ensures var s' := Apply(Apply(s, SendLookup(m)), SendCheck(m));
            && s'.conns == s.conns && s'.migrations == map[] && s'.late == {}
            && (s'.sends == map[] || (s.current.Some? && s'.sends == map[m := Checked(s.current.value)]))
  {
  }

  lemma TrackAndEnqueue(s: State, m: MsgId, now: int)
    requires s.migrations == map[] && s.late == {}
    requires s.sends == map[] || exists c: ConnId ::
               s.sends == map[m := Checked(c)] && c < |s.conns| && s.conns[c].phase.Live?
    ensures Quiet(Apply(Apply(s, SendTrack(m, now)), SendEnqueue(m)))
  {
    if s.sends != map[] {
      var c: ConnId :| s.sends == map[m := Checked(c)] && c < |s.conns| && s.conns[c].phase.Live?;
      var s1 := Apply(s, SendTrack(m, now));
      assert s1.sends == map[m := TrackedOn(c)] && s1.late == {} && |s1.conns| == |s.conns|;
    }
  }

  lemma SendKeepsQuiet(s: State, m: MsgId, now: int)
    requires Structure(s) && Quiet(s)
    ensures Quiet(ApplyAll(s, StepsOf(s, Send(m, now))))
  {
    Concat(s, [SendLookup(m), SendCheck(m)], [SendTrack(m, now), SendEnqueue(m)]);
    var s2 := ApplyAll(s, [SendLookup(m), SendCheck(m)]);
    Unfold2(s, SendLookup(m), SendCheck(m));
    Unfold2(s2, SendTrack(m, now), SendEnqueue(m));
    LookupAndCheck(s, m);
    TrackAndEnqueue(s2, m, now);
  }

  lemma SwapThenMigrate(s: State, c: ConnId, now: int, order: seq<MsgId>)
    requires Structure(s) && Quiet(s) && s.current == Some(c) && ListsIds(order, s.conns[c].tracked.Keys)
    ensures Quiet(Apply(Apply(s, RegisterSwap), RegisterMigrate(c, now, order)))
  {
    var s1 := Apply(s, RegisterSwap);
    assert s1.migrations == map[c := |s.conns|] && s1.conns[|s.conns|].phase.Live?;
    assert s1.conns[c].tracked == s.conns[c].tracked && s1.late == {} && s1.sends == map[];
  }

  lemma RegisterKeepsQuiet(s: State, now: int, order: seq<MsgId>)
    requires Structure(s) && Quiet(s)
    ensures Quiet(ApplyAll(s, StepsOf(s, Register(now, order))))
  {
    if s.current.Some? && ListsIds(order, s.conns[s.current.value].tracked.Keys) {
      Unfold2(s, RegisterSwap, RegisterMigrate(s.current.value, now, order));
      SwapThenMigrate(s, s.current.value, now, order);
    }
  }

  lemma CloseKeepsQuiet(s: State, c: ConnId)
    requires Quiet(s)
    ensures Quiet(ApplyAll(s, [CloseBegin(c), CloseEnd(c)]))
    ensures Quiet(ApplyAll(s, [WriteFail(c), CloseEnd(c)]))
  {
    Unfold2(s, CloseBegin(c), CloseEnd(c));
    Unfold2(s, WriteFail(c), CloseEnd(c));
    assert Quiet(Apply(s, CloseBegin(c))) && Quiet(Apply(s, WriteFail(c)));
  }

  lemma OpKeepsQuiet(s: State, op: Op)
    requires Structure(s) && Quiet(s)
    ensures Quiet(ApplyAll(s, StepsOf(s, op)))
  {
    match op
    case Send(m, now) => SendKeepsQuiet(s, m, now);
    case Register(now, order) => RegisterKeepsQuiet(s, now, order);
    case Close(c) => CloseKeepsQuiet(s, c);
    case FailedWrite(c) => CloseKeepsQuiet(s, c);
    case Single(a) =>
  }

  lemma {:induction false} OpsKeepQuiet(ops: seq<Op>)
    ensures Inv(RunOps(ops)) && Quiet(RunOps(ops))
  {
    InvAtStart();
    if ops != [] {
      OpsKeepQuiet(ops[..|ops| - 1]);
      var s := RunOps(ops[..|ops| - 1]);
      StepsKeepInv(s, StepsOf(s, ops[|ops| - 1]));
      OpKeepsQuiet(s, ops[|ops| - 1]);
    }
  }

  /**
   With uninterrupted calls an accepted frame is tracked on the connection the device is
   routed to, or was handled, or given up, or was pending on a connection that closed
   without being superseded.
   */
  lemma NoSilentLossAtomic(ops: seq<Op>, m: MsgId)
    requires m in RunOps(ops).accepted
    ensures var s := RunOps(ops);
            || (s.current.Some? && s.current.value < |s.conns| && m in s.conns[s.current.value].tracked)
            || m in s.memory.handled || m in s.gaveUp || m in s.orphaned
  {
    OpsKeepQuiet(ops);
    var s := RunOps(ops);
    if Held(s, m) {
      var c :| HeldBy(s, m, c);
      assert c !in s.migrations;
    }
  }
}
