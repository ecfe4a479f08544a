/** The hub and its connections: registration with supersede and migration, routing, sending and closing. */
module TunnelHub {
  import opened Frames
  import opened AckTracking

  type DeviceId = nat
  type NodeId = nat

  const OUTBOUND_CAPACITY: nat := 256
  const DEDUP_MAX_AGE: int := 300     // seconds

  datatype SendResult = Sent | Offline | ConnectionClosed | QueueFull

  /** The dedup map after a pruner tick. */
  function Pruned(p: map<MsgId, int>, now: int): map<MsgId, int> {
    map m | m in p && p[m] >= now - DEDUP_MAX_AGE :: p[m]
  }

  /** The bounded channel after offering it `more`, frame by frame, without blocking. */
  function Offered<T>(queue: seq<T>, more: seq<T>): seq<T> {
    if more == [] then queue
    else
      var q := Offered(queue, more[..|more| - 1]);
      if |q| < OUTBOUND_CAPACITY then q + [more[|more| - 1]] else q
  }

  /** It takes a prefix: everything if there is room, and otherwise it ends up full. */
  lemma {:induction false} OfferedTakesPrefix<T>(queue: seq<T>, more: seq<T>)
    requires |queue| <= OUTBOUND_CAPACITY
    ensures Offered(queue, more) ==
              queue + if |queue| + |more| <= OUTBOUND_CAPACITY then more else more[..OUTBOUND_CAPACITY - |queue|]
  {
    if more != [] {
      OfferedTakesPrefix(queue, more[..|more| - 1]);
    }
  }

  /** The tracker after tracking every frame of `fs`. */
  function TrackedAll(v: map<MsgId, Entry>, fs: seq<Frame>, now: int): map<MsgId, Entry> {
    if fs == [] then v
    else TrackedAll(v, fs[..|fs| - 1], now)[fs[|fs| - 1].msgId := Fresh(fs[|fs| - 1], now)]
  }

  lemma {:induction false} TrackedAllOf(v: map<MsgId, Entry>, fs: seq<Frame>, now: int, m: MsgId)
    ensures m in TrackedAll(v, fs, now) <==> m in v || exists f :: f in fs && f.msgId == m
    ensures (forall f | f in fs :: f.msgId != m) && m in v ==> TrackedAll(v, fs, now)[m] == v[m]
    ensures (exists f :: f in fs && f.msgId == m) ==>
              exists f :: f in fs && f.msgId == m && TrackedAll(v, fs, now)[m] == Fresh(f, now)
  {
    if fs != [] {
      var k := |fs| - 1;
      TrackedAllOf(v, fs[..k], now, m);
      assert fs == fs[..k] + [fs[k]];
    }
  }

  /** Tracking all listed entries of `from` renews each of them on top of `v`. */
  lemma MigratedEntries(v: map<MsgId, Entry>, from: map<MsgId, Entry>, order: seq<Frame>, now: int)
    requires Lists(order, from, from.Keys) && forall m | m in from :: from[m].frame.msgId == m
    ensures TrackedAll(v, order, now) == v + map m | m in from :: Fresh(from[m].frame, now)
  {
    var r := TrackedAll(v, order, now);
    var expected := v + map m | m in from :: Fresh(from[m].frame, now);
    forall m ensures (m in r <==> m in expected) && (m in r ==> r[m] == expected[m]) {
      TrackedAllOf(v, order, now, m);
      if m in from {
        assert from[m].frame in order;
        var f :| f in order && f.msgId == m && r[m] == Fresh(f, now);
        assert f == from[m].frame;
      }
    }
  }

  lemma IdsOfListed(v: map<MsgId, Entry>, order: seq<Frame>, ids: seq<MsgId>, which: set<MsgId>)
    requires which <= v.Keys && Lists(order, v, which) && forall m | m in v :: v[m].frame.msgId == m
    requires |ids| == |order| && forall i | 0 <= i < |ids| :: ids[i] == order[i].msgId
    ensures (set m | m in ids) == which
  {
    forall m | m in which ensures m in ids {
      var i :| 0 <= i < |order| && order[i] == v[m].frame;
      assert ids[i] == m;
    }
  }

  class Registry {
    var devices: map<DeviceId, NodeId>

    method Register(d: DeviceId, node: NodeId)
      modifies this
      ensures devices == old(devices)[d := node]
    {
      devices := devices[d := node];
    }

    method Unregister(d: DeviceId)
      modifies this
      ensures devices == old(devices) - {d}
    {
      devices := devices - {d};
    }
  }

  class DeviceConn {
    const deviceId: DeviceId
    const acks: AckTracker
    var outbound: seq<Frame>
    var closed: bool
    var processed: map<MsgId, int>

    constructor (deviceId: DeviceId)
      ensures this.deviceId == deviceId && outbound == [] && !closed && processed == map[]
      ensures fresh(acks) && acks.frames == map[]
    {
      this.deviceId := deviceId;
      acks := new AckTracker();
      outbound, closed, processed := [], false, map[];
    }

    method Enqueue(f: Frame) returns (ok: bool)
      modifies this`outbound
      ensures ok == (|old(outbound)| < OUTBOUND_CAPACITY)
      ensures outbound == if ok then old(outbound) + [f] else old(outbound)
    {
      ok := |outbound| < OUTBOUND_CAPACITY;
      if ok {
        outbound := outbound + [f];
      }
    }

    /** The gateway's end: a repeated msg_id is acknowledged but not handled again. */
    method HandleFrame(f: Frame, now: int) returns (acked: bool, handled: bool)
      requires Filed(acks.frames)
      modifies this`processed, acks
      ensures Filed(acks.frames)
      ensures acked == Deduplicated(f.kind)
      ensures handled == !(Deduplicated(f.kind) && f.msgId in old(processed))
      ensures processed == if handled && Deduplicated(f.kind) then old(processed)[f.msgId := now] else old(processed)
      ensures acks.frames == if f.kind == Ack then old(acks.frames) - {f.ackId} else old(acks.frames)
    {
      acked, handled := false, true;
      if f.kind != Ack && f.kind != Ping && f.kind != Pong {
        acked := true;
        if f.msgId in processed {
          handled := false;
          return;
        }
        processed := processed[f.msgId := now];
      }
      if f.kind == Ack {
        acks.Remove(f.ackId);
      }
    }

    method PruneDedup(now: int)
      modifies this`processed
      ensures processed == Pruned(old(processed), now)
    {
      var cutoff := now - DEDUP_MAX_AGE;
      var todo := processed.Keys;
      ghost var was := processed;
      while todo != {}
        invariant todo <= was.Keys
        invariant processed == map m | m in was && (m in todo || was[m] >= cutoff) :: was[m]
        decreases todo
      {
        var m :| m in todo;
        if processed[m] < cutoff {
          processed := processed - {m};
        }
        todo := todo - {m};
      }
    }

    /** One tick of the retransmitter. */
    method Resend(retry: seq<Frame>)
      modifies this`outbound
      ensures outbound == Offered(old(outbound), retry)
    {
      for i := 0 to |retry|
        invariant outbound == Offered(old(outbound), retry[..i])
      {
        assert retry[..i + 1][..i] == retry[..i];
        var _ := Enqueue(retry[i]);
      }
      assert retry[..|retry|] == retry;
    }

    method RetransmitTick(now: int) returns (ghost order: seq<Frame>)
      requires Filed(acks.frames)
      modifies this`outbound, acks
      ensures Filed(acks.frames) && acks.frames == TickAll(old(acks.frames), now)
      ensures Lists(order, old(acks.frames), DueIds(old(acks.frames), now))
      ensures outbound == Offered(old(outbound), order)
    {
      ghost var was := acks.frames;
      var retry, failed := acks.RetransmitReady(now);
      order := retry;
      Resend(retry);
      if |failed| > 0 {
        var ids := seq(|failed|, i requires 0 <= i < |failed| => failed[i].msgId);
        IdsOfListed(was, failed, ids, ExhaustedIds(was));
        acks.RemoveFailed(ids);
      }
    }

    /**
     Moves every frame still pending on this connection to the
     tracker of `to`, whether or not its queue takes them all.
     */
    method MigratePending(to: DeviceConn, now: int) returns (ghost order: seq<Frame>)
      requires Filed(acks.frames) && Filed(to.acks.frames) && to != this && to.acks != acks
      modifies to`outbound, to.acks
      ensures Filed(to.acks.frames)
      ensures Lists(order, acks.frames, acks.frames.Keys)
      ensures to.acks.frames == old(to.acks.frames) + (map m | m in acks.frames :: Fresh(acks.frames[m].frame, now))
      ensures to.outbound == Offered(old(to.outbound), order)
    {
      var pending := acks.Pending();
      order := pending;
      for i := 0 to |pending|
        invariant Filed(to.acks.frames)
        invariant to.acks.frames == TrackedAll(old(to.acks.frames), order[..i], now)
        invariant to.outbound == Offered(old(to.outbound), order[..i])
      {
        assert order[..i + 1][..i] == order[..i];
        to.acks.Track(pending[i], now);
        var _ := to.Enqueue(pending[i]);
      }
      assert order[..|pending|] == order;
      MigratedEntries(old(to.acks.frames), acks.frames, order, now);
    }
  }

  class Hub {
    const registry: Registry
    const nodeId: NodeId
    var devices: map<DeviceId, DeviceConn>

    ghost predicate Valid()
      reads this, devices.Values, set c | c in devices.Values :: c.acks
    {
      && (forall d | d in devices :: devices[d].deviceId == d && Filed(devices[d].acks.frames))
      && (forall d, e | d in devices && e in devices && d != e :: devices[d].acks != devices[e].acks)
    }

    constructor (nodeId: NodeId)
      ensures Valid() && devices == map[] && fresh(registry) && this.nodeId == nodeId
    {
      this.nodeId := nodeId;
      registry := new Registry;
      devices := map[];
    }

    method Unregister(d: DeviceId, conn: DeviceConn)
      requires Valid()
      modifies this, registry
      ensures Valid()
      ensures devices == if d in old(devices) && old(devices)[d] == conn then old(devices) - {d} else old(devices)
      ensures registry.devices == old(registry.devices) - {d}
    {
      if d in devices && devices[d] == conn {
        devices := devices - {d};
      }
      registry.Unregister(d);
    }

    /** Close of a connection that was registered here; only the first call has an effect. */
    method Close(conn: DeviceConn)
      requires Valid()
      modifies this, registry, conn`closed
      ensures Valid() && conn.closed
      ensures old(conn.closed) ==> devices == old(devices) && registry.devices == old(registry.devices)
      ensures !old(conn.closed) ==>
                && devices == (if conn.deviceId in old(devices) && old(devices)[conn.deviceId] == conn
                               then old(devices) - {conn.deviceId} else old(devices))
                && registry.devices == old(registry.devices) - {conn.deviceId}
    {
      if conn.closed { return; }
      conn.closed := true;
      Unregister(conn.deviceId, conn);
    }

    /** The frames pending on `prev` move to the connection that has taken its place, and `prev` is closed. */
    method Supersede(prev: DeviceConn, conn: DeviceConn, now: int) returns (ghost order: seq<Frame>)
      requires Valid() && conn.deviceId in devices && devices[conn.deviceId] == conn
      requires Filed(prev.acks.frames) && prev.deviceId == conn.deviceId && prev != conn && prev.acks != conn.acks
      modifies this, registry, conn`outbound, conn.acks, prev`closed
      ensures Valid() && devices == old(devices) && prev.closed
      ensures registry.devices[conn.deviceId := nodeId] == old(registry.devices)[conn.deviceId := nodeId]
      ensures Lists(order, old(prev.acks.frames), old(prev.acks.frames).Keys)
      ensures var was := old(prev.acks.frames);
              conn.acks.frames == old(conn.acks.frames) + map m | m in was :: Fresh(was[m].frame, now)
      ensures conn.outbound == Offered(old(conn.outbound), order)
    {
      order := prev.MigratePending(conn, now);
      Close(prev);
    }

    /** Maps the device to `conn`; a connection it supersedes hands over its pending frames and is closed. */
    method Register(conn: DeviceConn, now: int) returns (ghost order: seq<Frame>)
      requires Valid() && Filed(conn.acks.frames)
      requires forall d | d in devices :: devices[d] != conn && devices[d].acks != conn.acks
      modifies this, registry, conn`outbound, conn.acks,
               if conn.deviceId in devices then {devices[conn.deviceId]} else {}
      ensures Valid()
      ensures devices == old(devices)[conn.deviceId := conn]
      ensures registry.devices == old(registry.devices)[conn.deviceId := nodeId]
      ensures conn.deviceId !in old(devices) ==>
                order == [] && conn.acks.frames == old(conn.acks.frames) && conn.outbound == old(conn.outbound)
      ensures conn.deviceId in old(devices) ==>
                var was := old(devices[conn.deviceId].acks.frames);
                && Lists(order, was, was.Keys)
                && conn.acks.frames == old(conn.acks.frames) + (map m | m in was :: Fresh(was[m].frame, now))
                && conn.outbound == Offered(old(conn.outbound), order)
                && old(devices)[conn.deviceId].closed
    {
      order := [];
      var d := conn.deviceId;
      var superseded: DeviceConn? := if d in devices then devices[d] else null;
      devices := devices[d := conn];
      if superseded != null {
        order := Supersede(superseded, conn, now);
      }
      registry.Register(d, nodeId);
    }

    /** Tracks before it enqueues: a QueueFull error leaves the frame tracked, so it may still be delivered. */
    method SendFrame(d: DeviceId, f: Frame, now: int) returns (r: SendResult)
      requires Valid()
      modifies if d in devices then {devices[d] as object, devices[d].acks} else {}
      ensures Valid()
      ensures r == if d !in devices then Offline
                   else if old(devices[d].closed) then ConnectionClosed
                   else if |old(devices[d].outbound)| < OUTBOUND_CAPACITY then Sent
                   else QueueFull
      ensures d in devices ==>
                && devices[d].closed == old(devices[d].closed) && devices[d].processed == old(devices[d].processed)
                && devices[d].outbound == old(devices[d].outbound) + (if r == Sent then [f] else [])
                && devices[d].acks.frames ==
                     (if r == ConnectionClosed || f.kind == Ack then old(devices[d].acks.frames)
                      else old(devices[d].acks.frames)[f.msgId := Fresh(f, now)])
    {
      if d !in devices { return Offline; }
      var conn := devices[d];
      if conn.closed { return ConnectionClosed; }
      if f.kind != Ack {
        conn.acks.Track(f, now);
      }
      var ok := conn.Enqueue(f);
      r := if ok then Sent else QueueFull;
    }
  }
}
