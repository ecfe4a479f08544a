/**
 The device end of the tunnel: acknowledging, deduplicating and dispatching
 received frames. `_processed_msg_ids` is emptied whenever it is full, so the
 frames that reach a handler fall into blocks of MAX_PROCESSED, and inside a
 block no msg_id occurs twice.
 */
module DeviceClient {
  import opened Frames

  const MAX_PROCESSED: nat := 10000

  /** What deduplication remembers, with the msg_ids handled so far, oldest first. */
  datatype Memory = Memory(processed: set<MsgId>, handled: seq<MsgId>)

  const BLANK := Memory({}, [])

  function Handle(d: Memory, f: Frame): Memory {
    if !Deduplicated(f.kind) || f.msgId in d.processed then d
    else if |d.processed| >= MAX_PROCESSED then Memory({f.msgId}, d.handled + [f.msgId])
    else Memory(d.processed + {f.msgId}, d.handled + [f.msgId])
  }

  function HandleAll(d: Memory, fs: seq<Frame>): Memory {
    if fs == [] then d else Handle(HandleAll(d, fs[..|fs| - 1]), fs[|fs| - 1])
  }

  datatype Outgoing = AckFrame(id: MsgId) | PongFrame

  /** The socket when a frame is sent: absent (nothing is sent), raising, or taking the frame. */
  datatype Socket = Absent | Raising | Open

  class TunnelClient {
    var processed: set<MsgId>
    ghost var handled: seq<MsgId>
    var sent: seq<Outgoing>          // frames written to the socket
    var dispatched: seq<Frame>       // frames passed to a handler, HELLO_ACK and ERROR branch
    var pendingAcks: set<MsgId>
    var outboxAcked: seq<MsgId>      // calls of Outbox.ack

    ghost function Recall(): Memory
      reads this
    {
      Memory(processed, handled)
    }

    constructor ()
      ensures Recall() == BLANK && sent == [] && dispatched == [] && pendingAcks == {} && outboxAcked == []
    {
      processed, handled, sent, dispatched, pendingAcks, outboxAcked := {}, [], [], [], {}, [];
    }

    method Send(f: Outgoing, socket: Socket) returns (raised: bool)
      modifies this`sent
      ensures raised == socket.Raising?
      ensures sent == if socket.Open? then old(sent) + [f] else old(sent)
    {
      if socket.Absent? { return false; }
      if socket.Raising? { return true; }
      sent := sent + [f];
      return false;
    }

    /**
     The acknowledgement goes out first, so a socket that raises on it keeps the frame from
     being handled; without a socket the frame is handled unacknowledged. `atPong` is the
     socket when the answer to a PING is sent.
     */
    method HandleFrame(f: Frame, atAck: Socket, atPong: Socket)
      modifies this
      ensures f.kind != Ack && atAck.Raising? ==>
                Recall() == old(Recall()) && sent == old(sent) && dispatched == old(dispatched)
                && pendingAcks == old(pendingAcks) && outboxAcked == old(outboxAcked)
      ensures f.kind == Ack ==>
                Recall() == old(Recall()) && sent == old(sent) && dispatched == old(dispatched)
                && pendingAcks == old(pendingAcks) - {f.ackId} && outboxAcked == old(outboxAcked) + [f.ackId]
      ensures f.kind != Ack && !atAck.Raising? ==>
                && Recall() == Handle(old(Recall()), f)
                && sent == old(sent) + (if atAck.Open? then [AckFrame(f.msgId)] else [])
                           + (if f.kind == Ping && atPong.Open? then [PongFrame] else [])
                && dispatched == old(dispatched) + (if Recall() != old(Recall()) then [f] else [])
                && pendingAcks == old(pendingAcks) && outboxAcked == old(outboxAcked)
    {
      if f.kind != Ack {
        var raised := Send(AckFrame(f.msgId), atAck);
        if raised { return; }
      }
      if f.kind != Ack && f.kind != Ping && f.kind != Pong {
        if f.msgId in processed { return; }
        if |processed| >= MAX_PROCESSED {
          processed := {};
        }
        processed := processed + {f.msgId};
        handled := handled + [f.msgId];
        assert |handled| != |old(handled)|;
      }
      if f.kind == Ack {
        pendingAcks := pendingAcks - {f.ackId};
        outboxAcked := outboxAcked + [f.ackId];
        return;
      }
      if f.kind == Ping {
        var _ := Send(PongFrame, atPong);
        return;
      }
      if f.kind == Pong { return; }
      dispatched := dispatched + [f];
    }
  }

  // ----- blocks

  /** Where the block of the n-th handled frame begins; a full block stays current until the next frame. */
  function BlockStart(n: nat): (start: nat)
    ensures start <= n && n - start <= MAX_PROCESSED
    ensures n > 0 ==> start < n
  {
    if n == 0 then 0
    else
      var before := BlockStart(n - 1);
      if n - 1 - before == MAX_PROCESSED then n - 1 else before
  }

  /** The blocks are the consecutive runs of MAX_PROCESSED frames. */
  lemma {:induction false} BlockStartIsDivision(n: nat)
    requires n > 0
    ensures BlockStart(n) == (n - 1) / MAX_PROCESSED * MAX_PROCESSED
  {
    if n > 1 {
      BlockStartIsDivision(n - 1);
    }
  }

  function LastBlock(h: seq<MsgId>): seq<MsgId> {
    h[BlockStart(|h|)..]
  }

  function CurrentBlock(d: Memory): seq<MsgId> {
    LastBlock(d.handled)
  }

  ghost predicate Distinct<T>(s: seq<T>) {
    forall i, j | 0 <= i < j < |s| :: s[i] != s[j]
  }

  /** No id repeats inside a block of consecutive handled frames. */
  ghost predicate NoRepeatInBlock(h: seq<MsgId>) {
    forall i, j | 0 <= i < j < |h| && i / MAX_PROCESSED == j / MAX_PROCESSED :: h[i] != h[j]
  }

  /** The processed set is exactly the current block, and no block repeats an id. */
  ghost predicate Faithful(d: Memory) {
    && d.processed == (set m | m in CurrentBlock(d))
    && |d.processed| == |CurrentBlock(d)|
    && Apart(d.handled)
  }

  lemma FaithfulMeansNoRepeat(d: Memory)
    requires Faithful(d)
    ensures NoRepeatInBlock(d.handled)
  {
    forall i, j | 0 <= i < j < |d.handled| && i / MAX_PROCESSED == j / MAX_PROCESSED
      ensures d.handled[i] != d.handled[j]
    {
      BlockStartIsDivision(j + 1);
    }
  }

  lemma BlockAfter(h: seq<MsgId>, m: MsgId)
    ensures LastBlock(h + [m]) == if |LastBlock(h)| == MAX_PROCESSED then [m] else LastBlock(h) + [m]
    ensures |LastBlock(h)| <= MAX_PROCESSED
  {
    var h' := h + [m];
    assert h'[|h|..] == [m];
    assert h'[BlockStart(|h|)..] == LastBlock(h) + [m];
  }

  ghost predicate Apart(h: seq<MsgId>) {
    forall i, j | 0 <= i < j < |h| && BlockStart(j + 1) <= i :: h[i] != h[j]
  }

  lemma ApartGrows(h: seq<MsgId>, m: MsgId)
    requires Apart(h)
    requires BlockStart(|h| + 1) == |h| || m !in h[BlockStart(|h|)..]
    ensures Apart(h + [m])
  {
    var h' := h + [m];
    forall i, j | 0 <= i < j < |h'| && BlockStart(j + 1) <= i ensures h'[i] != h'[j] {
      if j == |h| {
        assert h[i] == h[BlockStart(|h|)..][i - BlockStart(|h|)];
      }
    }
  }

  lemma HandleKeepsFaithful(d: Memory, f: Frame)
    requires Faithful(d)
    ensures Faithful(Handle(d, f))
    ensures d.handled <= Handle(d, f).handled
  {
    if Handle(d, f) != d {
      RememberKeepsFaithful(d, f.msgId);
    }
  }

  lemma RememberKeepsFaithful(d: Memory, m: MsgId)
    requires Faithful(d) && m !in d.processed
    ensures Faithful(Memory(if |d.processed| >= MAX_PROCESSED then {m} else d.processed + {m}, d.handled + [m]))
  {
    BlockAfter(d.handled, m);
    assert m !in LastBlock(d.handled);
    ApartGrows(d.handled, m);
    FullOrGrown(d, m);
  }

  lemma FullOrGrown(d: Memory, m: MsgId)
    requires d.processed == (set x | x in CurrentBlock(d)) && |d.processed| == |CurrentBlock(d)| && m !in d.processed
    ensures |d.processed + {m}| == |CurrentBlock(d) + [m]|
    ensures d.processed + {m} == set x | x in CurrentBlock(d) + [m]
  {
  }

  /** Whatever arrives has been handled afterwards, now or before. */
  lemma HandleDelivers(d: Memory, f: Frame)
    requires Faithful(d) && Deduplicated(f.kind)
    ensures f.msgId in Handle(d, f).handled
    ensures forall m | m in d.handled :: m in Handle(d, f).handled
  {
    if f.msgId in d.processed {
      assert f.msgId in CurrentBlock(d);
    } else {
      var h := Handle(d, f).handled;
      assert h[|h| - 1] == f.msgId && d.handled <= h;
    }
  }

  lemma {:induction false} StaysFaithful(fs: seq<Frame>)
    ensures Faithful(HandleAll(BLANK, fs))
  {
    if fs != [] {
      StaysFaithful(fs[..|fs| - 1]);
      HandleKeepsFaithful(HandleAll(BLANK, fs[..|fs| - 1]), fs[|fs| - 1]);
    }
  }

  /** Exact deduplication, for every sequence of received frames, however they were repeated. */
  lemma ExactDedup(fs: seq<Frame>)
    ensures Faithful(HandleAll(BLANK, fs))
    ensures NoRepeatInBlock(HandleAll(BLANK, fs).handled)
  {
    StaysFaithful(fs);
    FaithfulMeansNoRepeat(HandleAll(BLANK, fs));
  }

  /** A memory that some sequence of received frames leaves behind. */
  ghost predicate Recalled(d: Memory) {
    exists fs :: HandleAll(BLANK, fs) == d
  }

  lemma BlankIsRecalled()
    ensures Recalled(BLANK)
  {
    assert HandleAll(BLANK, []) == BLANK;
  }

  lemma RecalledHandles(d: Memory, f: Frame)
    requires Recalled(d)
    ensures Recalled(Handle(d, f))
    ensures d.handled <= Handle(d, f).handled && forall m | m in d.handled :: m in Handle(d, f).handled
    ensures Deduplicated(f.kind) ==> f.msgId in Handle(d, f).handled
  {
    var fs :| HandleAll(BLANK, fs) == d;
    HandleOneMore(fs, f);
    StaysFaithful(fs);
    HandleKeepsFaithful(d, f);
    if Deduplicated(f.kind) {
      HandleDelivers(d, f);
    }
  }

  lemma RecalledMeansNoRepeat(d: Memory)
    requires Recalled(d)
    ensures NoRepeatInBlock(d.handled)
  {
    var fs :| HandleAll(BLANK, fs) == d;
    ExactDedup(fs);
  }

  /** A frame is dispatched exactly when its id does not occur in the current block. */
  lemma HandledIffNotInBlock(fs: seq<Frame>, f: Frame)
    requires Deduplicated(f.kind)
    ensures var d := HandleAll(BLANK, fs);
            HandleAll(BLANK, fs + [f]).handled == d.handled + if f.msgId in CurrentBlock(d) then [] else [f.msgId]
  {
    StaysFaithful(fs);
    HandleOneMore(fs, f);
  }

  lemma {:induction false} FirstBlock(n: nat)
    requires n <= MAX_PROCESSED
    ensures BlockStart(n) == 0
  {
    if n > 0 {
      FirstBlock(n - 1);
    }
  }

  lemma ApartInFirstBlock(h: seq<MsgId>, i: nat, j: nat)
    requires Apart(h) && i < j < |h| <= MAX_PROCESSED
    ensures h[i] != h[j]
  {
    FirstBlock(j + 1);
  }

  /** Up to MAX_PROCESSED handled frames there is no repeat at all ... */
  lemma AtMostOnceInFirstBlock(fs: seq<Frame>)
    requires |HandleAll(BLANK, fs).handled| <= MAX_PROCESSED
    ensures Distinct(HandleAll(BLANK, fs).handled)
  {
    StaysFaithful(fs);
    var h := HandleAll(BLANK, fs).handled;
    forall i, j | 0 <= i < j < |h| ensures h[i] != h[j] {
      ApartInFirstBlock(h, i, j);
    }
  }

  /**
   ... but "processed once" is not promised for longer: when a block
   is full, one new frame makes any of its ids handled again.
   */
  lemma RepeatAcrossBlocks(fs: seq<Frame>, f: Frame, again: Frame)
    requires Deduplicated(f.kind) && Deduplicated(again.kind)
    requires var block := CurrentBlock(HandleAll(BLANK, fs));
             |block| == MAX_PROCESSED && again.msgId in block && f.msgId !in block
    ensures HandleAll(BLANK, fs + [f, again]).handled == HandleAll(BLANK, fs).handled + [f.msgId] + [again.msgId]
  {
    StaysFaithful(fs);
    var d := HandleAll(BLANK, fs);
    HandleOneMore(fs, f);
    HandleOneMore(fs + [f], again);
    assert fs + [f, again] == fs + [f] + [again];
    FullBlockForgets(d, f, again);
  }

  lemma HandleOneMore(fs: seq<Frame>, f: Frame)
    ensures HandleAll(BLANK, fs + [f]) == Handle(HandleAll(BLANK, fs), f)
  {
    assert (fs + [f])[..|fs|] == fs;
  }

  /** A full memory forgets everything but the frame that filled it over. */
  lemma FullBlockForgets(d: Memory, f: Frame, again: Frame)
    requires Deduplicated(f.kind) && Deduplicated(again.kind)
    requires |d.processed| == MAX_PROCESSED && f.msgId !in d.processed && again.msgId in d.processed
    ensures Handle(Handle(d, f), again).handled == d.handled + [f.msgId] + [again.msgId]
  {
  }
}
