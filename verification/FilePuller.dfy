/**
 The device's windowed sender of output files, and what it and the gateway's receiver
 achieve together.
 */
module FilePuller {
  import opened Prelude
  import opened FilePull

  const MAX_CHUNKS_IN_FLIGHT: nat := 8

  /** One attempt to send one file, act by act. */
  datatype Act =
    | Began(chunks: nat, digest: Digest)
    | Sent(index: nat, data: Bytes)
    | Got(ack: PullAck)
    | Waited(index: nat)
    | Ended

  /** What happens while the sender is suspended: the acknowledgements handled, and whether the awaited call raises. */
  datatype Pause = Pause(acks: seq<PullAck>, raises: bool)

  /** One file's entries of the two dictionaries of the sender, which come and go together. */
  datatype Waits = Waits(events: map<nat, bool>, status: map<nat, Status>)

  function OnAck(w: Waits, a: PullAck): Waits {
    if a.index >= 0 then
      Waits(if a.index in w.events then w.events[a.index := true] else w.events, w.status[a.index := a.status])
    else
      Waits(map i | i in w.events :: true, w.status + map i | i in w.events :: a.status)
  }

  predicate Covers(a: PullAck, fileId: FileId, i: nat) {
    a.fileId == fileId && (a.index == i || a.index < 0)
  }

  // ----- what an attempt looks like from outside

  function SentIn(acts: seq<Act>): (n: nat)
    ensures n <= |acts|
  {
    if acts == [] then 0 else SentIn(acts[..|acts| - 1]) + if acts[|acts| - 1].Sent? then 1 else 0
  }

  function WaitedIn(acts: seq<Act>): (n: nat)
    ensures n <= |acts|
  {
    if acts == [] then 0 else WaitedIn(acts[..|acts| - 1]) + if acts[|acts| - 1].Waited? then 1 else 0
  }

  /**
   The k-th chunk sent is chunk k of the file, the k-th wait is
   for chunk k, and no more than eight are outstanding.
   */
  ghost predicate StepFits(before: seq<Act>, a: Act, src: Bytes) {
    var sent, waited := SentIn(before), WaitedIn(before);
    && waited <= sent <= waited + MAX_CHUNKS_IN_FLIGHT
    && (a.Sent? ==>
          a.index == sent < ChunkCount(|src|) && a.data == Chunk(src, sent) && sent < waited + MAX_CHUNKS_IN_FLIGHT)
    && (a.Waited? ==> a.index == waited < sent)
    && (a.Ended? ==> waited == sent == ChunkCount(|src|))
    && (a.Began? ==> before == [] && a.chunks == ChunkCount(|src|))
  }

  ghost predicate Windowed(acts: seq<Act>, src: Bytes) {
    forall k | 0 <= k < |acts| :: StepFits(acts[..k], acts[k], src)
  }

  /** After chunk i went out, an acknowledgement that covers it and is no error came in. */
  ghost predicate Confirmed(acts: seq<Act>, fileId: FileId, i: nat) {
    exists j, k | 0 <= j < k < |acts| ::
      && acts[j].Sent? && acts[j].index == i
      && acts[k].Got? && Covers(acts[k].ack, fileId, i) && acts[k].ack.status != Error
  }

  ghost predicate SentBefore(acts: seq<Act>, i: nat) {
    exists j | 0 <= j < |acts| :: acts[j].Sent? && acts[j].index == i
  }

  /** What the latest acknowledgement covering chunk i since it went out said, if there was one. */
  function LastWord(acts: seq<Act>, fileId: FileId, i: nat): Option<Status> {
    if acts == [] then None
    else
      match acts[|acts| - 1]
      case Sent(j, _) => if j == i then None else LastWord(acts[..|acts| - 1], fileId, i)
      case Got(a) => if Covers(a, fileId, i) then Some(a.status) else LastWord(acts[..|acts| - 1], fileId, i)
      case _ => LastWord(acts[..|acts| - 1], fileId, i)
  }

  lemma LastWordSnoc(acts: seq<Act>, a: Act, fileId: FileId, i: nat)
    ensures LastWord(acts + [a], fileId, i) ==
              if a.Sent? && a.index == i then None
              else if a.Got? && Covers(a.ack, fileId, i) then Some(a.ack.status)
              else LastWord(acts, fileId, i)
  {
    assert (acts + [a])[..|acts|] == acts;
  }

  lemma SnocWindowed(acts: seq<Act>, a: Act, src: Bytes)
    requires Windowed(acts, src) && StepFits(acts, a, src)
    ensures Windowed(acts + [a], src)
    ensures SentIn(acts + [a]) == SentIn(acts) + if a.Sent? then 1 else 0
    ensures WaitedIn(acts + [a]) == WaitedIn(acts) + if a.Waited? then 1 else 0
  {
    var acts' := acts + [a];
    assert acts'[..|acts|] == acts;
    forall k | 0 <= k < |acts| ensures acts'[..k] == acts[..k] && acts'[k] == acts[k] {
    }
  }

  /** Below lo everything is confirmed; in between, the sender's dictionaries say what the last word was. */
  ghost predicate Tracked(acts: seq<Act>, w: Waits, fileId: FileId, lo: nat, hi: nat) {
    && AllConfirmed(acts, fileId, lo)
    && forall i | lo <= i < hi ::
          && i in w.events && SentBefore(acts, i)
          && (w.events[i] <==> LastWord(acts, fileId, i).Some?)
          && (w.events[i] ==> i in w.status && LastWord(acts, fileId, i) == Some(w.status[i]))
          && (LastWord(acts, fileId, i).Some? && LastWord(acts, fileId, i) != Some(Error)
              ==> Confirmed(acts, fileId, i))
  }

  ghost predicate AllConfirmed(acts: seq<Act>, fileId: FileId, n: nat) {
    forall i: nat | i < n :: Confirmed(acts, fileId, i)
  }

  lemma ConfirmedGrows(acts: seq<Act>, more: seq<Act>, fileId: FileId, i: nat)
    ensures Confirmed(acts, fileId, i) ==> Confirmed(acts + more, fileId, i)
    ensures SentBefore(acts, i) ==> SentBefore(acts + more, i)
  {
    var acts' := acts + more;
    assert forall k | 0 <= k < |acts| :: acts'[k] == acts[k];
    if Confirmed(acts, fileId, i) {
      var j, k :| 0 <= j < k < |acts| && acts[j].Sent? && acts[j].index == i
                  && acts[k].Got? && Covers(acts[k].ack, fileId, i) && acts[k].ack.status != Error;
      assert acts'[j].Sent? && acts'[j].index == i;
      assert acts'[k].Got?;
    }
    if SentBefore(acts, i) {
      var j :| 0 <= j < |acts| && acts[j].Sent? && acts[j].index == i;
      assert acts'[j].Sent?;
    }
  }

  lemma TrackedOnAct(acts: seq<Act>, a: Act, w: Waits, w': Waits, fileId: FileId, lo: nat, hi: nat)
    requires Tracked(acts, w, fileId, lo, hi)
    requires if a.Sent? then a.index == hi && w' == w.(events := w.events[hi := false])
             else w' == if a.Got? && a.ack.fileId == fileId then OnAck(w, a.ack) else w
    ensures Tracked(acts + [a], w', fileId, lo, if a.Sent? then hi + 1 else hi)
  {
    var acts' := acts + [a];
    forall i: nat ensures Confirmed(acts, fileId, i) ==> Confirmed(acts', fileId, i)
                  ensures SentBefore(acts, i) ==> SentBefore(acts', i) {
      ConfirmedGrows(acts, [a], fileId, i);
    }
    assert acts'[|acts|] == a;
    forall i: nat | lo <= i < hi || (a.Sent? && i == hi)
      ensures SentBefore(acts', i)
      ensures LastWord(acts', fileId, i).Some? && LastWord(acts', fileId, i) != Some(Error) ==>
                Confirmed(acts', fileId, i)
    {
      LastWordSnoc(acts, a, fileId, i);
      if i < hi && a.Got? && Covers(a.ack, fileId, i) && a.ack.status != Error {
        assert SentBefore(acts, i);
        var j :| 0 <= j < |acts| && acts[j].Sent? && acts[j].index == i;
        assert acts'[j].Sent? && acts'[j].index == i;
      }
    }
    forall i: nat | i < hi || a.Sent? ensures LastWord(acts', fileId, i) ==
              if a.Sent? && a.index == i then None
              else if a.Got? && Covers(a.ack, fileId, i) then Some(a.ack.status)
              else LastWord(acts, fileId, i) {
      LastWordSnoc(acts, a, fileId, i);
    }
  }

  function Handled(waits: map<FileId, Waits>, a: PullAck): map<FileId, Waits> {
    if a.fileId in waits then waits[a.fileId := OnAck(waits[a.fileId], a)] else waits
  }

  /** An attempt under way: chunks below lo are waited for, those below hi are sent. */
  ghost predicate Open(acts: seq<Act>, waits: map<FileId, Waits>, fileId: FileId, src: Bytes, lo: nat, hi: nat) {
    && fileId in waits
    && Windowed(acts, src)
    && WaitedIn(acts) == lo <= SentIn(acts) == hi <= lo + MAX_CHUNKS_IN_FLIGHT
    && Tracked(acts, waits[fileId], fileId, lo, hi)
    && Ended !in acts
  }

  lemma OpenOnAck(acts: seq<Act>, waits: map<FileId, Waits>, a: PullAck, fileId: FileId, src: Bytes, lo: nat, hi: nat)
    requires Open(acts, waits, fileId, src, lo, hi)
    ensures Open(acts + [Got(a)], Handled(waits, a), fileId, src, lo, hi)
  {
    SnocWindowed(acts, Got(a), src);
    TrackedOnAct(acts, Got(a), waits[fileId], Handled(waits, a)[fileId], fileId, lo, hi);
  }

  lemma OpenOnWaited(acts: seq<Act>, waits: map<FileId, Waits>, fileId: FileId, src: Bytes, lo: nat, hi: nat)
    requires Open(acts, waits, fileId, src, lo, hi) && lo < hi
    requires waits[fileId].events[lo] && waits[fileId].status[lo] != Error
    ensures Open(acts + [Waited(lo)], waits, fileId, src, lo + 1, hi)
  {
    SnocWindowed(acts, Waited(lo), src);
    assert Tracked(acts, waits[fileId], fileId, lo + 1, hi);
    TrackedOnAct(acts, Waited(lo), waits[fileId], waits[fileId], fileId, lo + 1, hi);
  }

  lemma OpenOnSend(acts: seq<Act>, waits: map<FileId, Waits>, fileId: FileId, src: Bytes, lo: nat, hi: nat)
    requires Open(acts, waits, fileId, src, lo, hi) && hi < lo + MAX_CHUNKS_IN_FLIGHT && hi < ChunkCount(|src|)
    ensures var w := waits[fileId];
            Open(acts + [Sent(hi, Chunk(src, hi))], waits[fileId := w.(events := w.events[hi := false])], fileId, src,
                 lo, hi + 1)
  {
    SnocWindowed(acts, Sent(hi, Chunk(src, hi)), src);
    var w := waits[fileId];
    TrackedOnAct(acts, Sent(hi, Chunk(src, hi)), w, w.(events := w.events[hi := false]), fileId, lo, hi);
  }

  lemma OpenAtStart(waits: map<FileId, Waits>, fileId: FileId, src: Bytes, digest: Digest)
    requires fileId in waits
    ensures Open([Began(ChunkCount(|src|), digest)], waits, fileId, src, 0, 0)
  {
    SnocWindowed([], Began(ChunkCount(|src|), digest), src);
    assert [] + [Began(ChunkCount(|src|), digest)] == [Began(ChunkCount(|src|), digest)];
  }

  /** The successful attempt: everything sent, everything confirmed, then the end frame. */
  ghost predicate Complete(acts: seq<Act>, fileId: FileId, src: Bytes) {
    && acts != [] && acts[|acts| - 1].Ended?
    && SentIn(acts) == ChunkCount(|src|)
    && AllConfirmed(acts[..|acts| - 1], fileId, ChunkCount(|src|))
  }

  lemma OpenToComplete(acts: seq<Act>, waits: map<FileId, Waits>, fileId: FileId, src: Bytes, n: nat)
    requires n == ChunkCount(|src|) && Open(acts, waits, fileId, src, n, n)
    ensures Windowed(acts + [Ended], src) && Complete(acts + [Ended], fileId, src)
  {
    SnocWindowed(acts, Ended, src);
    assert (acts + [Ended])[..|acts|] == acts;
  }

  lemma NextRead(src: Bytes, idx: nat, pos: nat)
    requires pos == Min(idx * CHUNK_SIZE, |src|)
    ensures src[pos..Min(pos + CHUNK_SIZE, |src|)] == Chunk(src, idx)
    ensures pos + |Chunk(src, idx)| == Min((idx + 1) * CHUNK_SIZE, |src|)
  {
  }

  /** The indices sent and not yet waited for. */
  ghost predicate InWindow(inflight: seq<nat>, lo: nat, hi: nat) {
    lo + |inflight| == hi && forall j | 0 <= j < |inflight| :: inflight[j] == lo + j
  }

  datatype Outcome = Done | Raised | TimedOut(index: nat) | ChunkFailed(index: nat)

  /** An attempt stops early only for the chunk it was waiting for, and only for want of an answer or for an error. */
  ghost predicate Explained(r: Outcome, acts: seq<Act>, fileId: FileId) {
    match r
    case TimedOut(i) => i == WaitedIn(acts) < SentIn(acts) && LastWord(acts, fileId, i) == None
    case ChunkFailed(i) => i == WaitedIn(acts) < SentIn(acts) && LastWord(acts, fileId, i) == Some(Error)
    case _ => true
  }

  class Puller {
    var waits: map<FileId, Waits>
    var acts: seq<Act>              // of the current attempt

    constructor ()
      ensures waits == map[] && acts == []
    {
      waits, acts := map[], [];
    }

    method HandlePullAck(a: PullAck)
      modifies this`waits
      ensures waits == Handled(old(waits), a)
    {
      if a.fileId !in waits {
        return;
      }
      var w := waits[a.fileId];
      if a.index >= 0 {
        w := w.(status := w.status[a.index := a.status]);
        if a.index in w.events {
          w := w.(events := w.events[a.index := true]);
        }
      } else {
        w := Waits(map i | i in w.events :: true, w.status + map i | i in w.events :: a.status);
      }
      waits := waits[a.fileId := w];
    }

    /** The loop turns while the sender of fileId is suspended. */
    method Deliver(acks: seq<PullAck>, fileId: FileId, ghost src: Bytes, ghost lo: nat, ghost hi: nat)
      requires Open(acts, waits, fileId, src, lo, hi)
      modifies this
      ensures Open(acts, waits, fileId, src, lo, hi)
    {
      for k := 0 to |acks|
        invariant Open(acts, waits, fileId, src, lo, hi)
      {
        OpenOnAck(acts, waits, acks[k], fileId, src, lo, hi);
        HandlePullAck(acks[k]);
        acts := acts + [Got(acks[k])];
      }
    }

    /** Waiting for chunk i. */
    method AwaitAck(pause: Pause, fileId: FileId, i: nat, ghost src: Bytes, ghost hi: nat) returns (r: Outcome)
      requires Open(acts, waits, fileId, src, i, hi) && i < hi
      modifies this
      ensures Open(acts, waits, fileId, src, if r.Done? then i + 1 else i, hi)
      ensures Explained(r, acts, fileId) && !r.Raised?
    {
      Deliver(pause.acks, fileId, src, i, hi);
      if !waits[fileId].events[i] {
        return TimedOut(i);
      }
      if waits[fileId].status[i] == Error {
        return ChunkFailed(i);
      }
      OpenOnWaited(acts, waits, fileId, src, i, hi);
      acts := acts + [Waited(i)];
      return Done;
    }

    /** Sending chunk idx, the next one of the open file; false when the outbox raises. */
    method SendChunk(pause: Pause, fileId: FileId, idx: nat, data: Bytes, ghost src: Bytes, ghost lo: nat)
      returns (ok: bool)
      requires Open(acts, waits, fileId, src, lo, idx) && idx < lo + MAX_CHUNKS_IN_FLIGHT && idx < ChunkCount(|src|)
      requires data == Chunk(src, idx)
      modifies this
      ensures Open(acts, waits, fileId, src, lo, idx + 1) && ok == !pause.raises
    {
      OpenOnSend(acts, waits, fileId, src, lo, idx);
      waits := waits[fileId := waits[fileId].(events := waits[fileId].events[idx := false])];
      acts := acts + [Sent(idx, data)];
      Deliver(pause.acks, fileId, src, lo, idx + 1);
      return !pause.raises;
    }

    /** Backpressure: wait for the oldest chunks until one more may be sent. */
    method MakeRoom(fileId: FileId, window: seq<nat>, pause: nat, pauses: nat -> Pause, ghost src: Bytes,
                    ghost low: nat, ghost idx: nat)
      returns (r: Outcome, inflight: seq<nat>, k: nat, ghost lo: nat)
      requires InWindow(window, low, idx) && Open(acts, waits, fileId, src, low, idx)
      modifies this
      ensures InWindow(inflight, lo, idx) || !r.Done?
      ensures Open(acts, waits, fileId, src, lo, idx) && Explained(r, acts, fileId) && !r.Raised?
      ensures r.Done? ==> |inflight| < MAX_CHUNKS_IN_FLIGHT
    {
      inflight, k, lo := window, pause, low;
      while |inflight| >= MAX_CHUNKS_IN_FLIGHT
        invariant InWindow(inflight, lo, idx) && Open(acts, waits, fileId, src, lo, idx)
      {
        var oldest := inflight[0];
        inflight := inflight[1..];
        r := AwaitAck(pauses(k), fileId, oldest, src, idx);
        k := k + 1;
        if !r.Done? {
          return;
        }
        lo := lo + 1;
      }
      r := Done;
    }

    method AwaitRest(fileId: FileId, inflight: seq<nat>, pause: nat, pauses: nat -> Pause, ghost src: Bytes,
                     ghost low: nat, n: nat)
      returns (r: Outcome, k: nat)
      requires InWindow(inflight, low, n) && Open(acts, waits, fileId, src, low, n)
      modifies this
      ensures exists lo :: Open(acts, waits, fileId, src, lo, n) && (r.Done? ==> lo == n)
      ensures Explained(r, acts, fileId) && !r.Raised?
    {
      k := pause;
      ghost var lo := low;
      for j := 0 to |inflight|
        invariant lo + (|inflight| - j) == n && Open(acts, waits, fileId, src, lo, n)
        invariant forall m | j <= m < |inflight| :: inflight[m] == lo + m - j
      {
        r := AwaitAck(pauses(k), fileId, inflight[j], src, n);
        k := k + 1;
        if !r.Done? {
          return;
        }
        lo := lo + 1;
      }
      r := Done;
    }

    /** Reading and sending the chunks in order, each as soon as the window has room for it. */
    method SendChunks(fileId: FileId, src: Bytes, pauses: nat -> Pause)
      returns (r: Outcome, k: nat, inflight: seq<nat>, ghost lo: nat)
      requires Open(acts, waits, fileId, src, 0, 0)
      modifies this
      ensures exists hi :: Open(acts, waits, fileId, src, lo, hi)
      ensures r.Done? ==>
                InWindow(inflight, lo, ChunkCount(|src|)) && Open(acts, waits, fileId, src, lo, ChunkCount(|src|))
      ensures r.Raised? ==> exists k :: pauses(k).raises
      ensures Explained(r, acts, fileId)
    {
      var n := ChunkCount(|src|);
      k, inflight, lo := 1, [], 0;
      var pos: nat := 0;
      for idx := 0 to n
        invariant InWindow(inflight, lo, idx) && Open(acts, waits, fileId, src, lo, idx)
        invariant pos == Min(idx * CHUNK_SIZE, |src|)
      {
        r, inflight, k, lo := MakeRoom(fileId, inflight, k, pauses, src, lo, idx);
        if !r.Done? {
          return;
        }
        NextRead(src, idx, pos);
        var data := src[pos..Min(pos + CHUNK_SIZE, |src|)];
        pos := pos + |data|;
        inflight := inflight + [idx];
        var ok := SendChunk(pauses(k), fileId, idx, data, src, lo);
        k := k + 1;
        if !ok {
          return Raised, k, inflight, lo;
        }
      }
      r := Done;
    }

    /** One attempt. `pauses` says what the event loop does at each await, in order. */
    method SendFileOnce(fileId: FileId, src: Bytes, sha: Bytes -> Digest, pauses: nat -> Pause) returns (r: Outcome)
      modifies this
      ensures Windowed(acts, src)
      ensures Ended in acts ==> Complete(acts, fileId, src)
      ensures r.Done? ==> Ended in acts && fileId !in waits
      ensures r.Raised? ==> exists k :: pauses(k).raises
      ensures Explained(r, acts, fileId)
    {
      var n := ChunkCount(|src|);
      waits := waits[fileId := Waits(map[], map[])];
      acts := [Began(n, sha(src))];
      OpenAtStart(waits, fileId, src, sha(src));
      Deliver(pauses(0).acks, fileId, src, 0, 0);
      if pauses(0).raises {
        return Raised;
      }
      var k, inflight;
      ghost var lo;
      r, k, inflight, lo := SendChunks(fileId, src, pauses);
      if !r.Done? {
        return;
      }
      r, k := AwaitRest(fileId, inflight, k, pauses, src, lo, n);
      if !r.Done? {
        return;
      }
      OpenToComplete(acts, waits, fileId, src, n);
      acts := acts + [Ended];
      if pauses(k).raises {
        return Raised;
      }
      waits := waits - {fileId};
      return Done;
    }
  }

  // ----- the sender and the receiver together

  /** Every acknowledgement of this file that the sender saw is one the gateway gave since the transfer began. */
  ghost predicate Genuine(acts: seq<Act>, fileId: FileId, given: seq<PullAck>) {
    forall a | a in acts && a.Got? && a.ack.fileId == fileId :: a.ack in given
  }

  /** Of this file's acknowledgements, those that are no error confirm one chunk each. */
  ghost predicate ChunkAcks(acks: seq<PullAck>, fileId: FileId) {
    forall a | a in acks && a.fileId == fileId && a.status != Error :: a.status == ChunkOk && a.index >= 0
  }

  lemma AckOfAStep(cfg: Config, sha: Bytes -> Digest, s: Relay, e: Event, fileId: FileId)
    requires e.fileId == fileId ==> e.Data?
    ensures var s' := Handle(s, cfg, sha, e);
            s.acks <= s'.acks && ChunkAcks(s'.acks[|s.acks|..], fileId)
  {
  }

  /** While only chunk frames arrive, that holds of all acknowledgements given. */
  lemma {:induction false} AcksOfATransfer(cfg: Config, sha: Bytes -> Digest, s: Relay, es: seq<Event>, fileId: FileId)
    requires ChunkFramesOnly(es, fileId)
    ensures s.acks <= HandleAll(s, cfg, sha, es).acks
    ensures ChunkAcks(HandleAll(s, cfg, sha, es).acks[|s.acks|..], fileId)
  {
    if es != [] {
      var before, e := es[..|es| - 1], es[|es| - 1];
      AcksOfATransfer(cfg, sha, s, before, fileId);
      var m := HandleAll(s, cfg, sha, before);
      AckOfAStep(cfg, sha, m, e, fileId);
      NewAcks(s.acks, m.acks, Handle(m, cfg, sha, e).acks, fileId);
    }
  }

  lemma NewAcks(a: seq<PullAck>, b: seq<PullAck>, c: seq<PullAck>, fileId: FileId)
    requires a <= b <= c && ChunkAcks(b[|a|..], fileId) && ChunkAcks(c[|b|..], fileId)
    ensures ChunkAcks(c[|a|..], fileId)
  {
    assert c[|a|..] == b[|a|..] + c[|b|..];
  }

  /**
   A finished attempt whose acknowledgements are the current
   transfer's: every chunk has arrived since the announcement.
   */
  lemma NoChunkIsMissing(cfg: Config, sha: Bytes -> Digest, s: Relay, b: Event, es: seq<Event>, acts: seq<Act>,
                         src: Bytes)
    requires Accepted(cfg, b) && b.chunks == ChunkCount(|src|) && ChunkFramesOnly(es, b.fileId)
    requires Complete(acts, b.fileId, src) && GivenSince(cfg, sha, OnBegin(s, cfg, b), es, acts, b.fileId)
    ensures AllArrived(es, b.fileId, b.chunks)
  {
    var s1, fileId := OnBegin(s, cfg, b), b.fileId;
    var s' := HandleAll(s1, cfg, sha, es);
    AcksOfATransfer(cfg, sha, s1, es, fileId);
    forall i: nat | i < b.chunks ensures Arrived(es, fileId, i) {
      AckMeansReceived(cfg, sha, s1, es, fileId, i);
      ReceivedIff(cfg, sha, s1, es, fileId, i);
      ConfirmedByChunkOk(acts, fileId, i, s'.acks[|s1.acks|..], src);
    }
  }

  /** The gateway gave the acknowledgements that the attempt saw after it was in state s. */
  ghost predicate GivenSince(cfg: Config, sha: Bytes -> Digest, s: Relay, es: seq<Event>, acts: seq<Act>,
                             fileId: FileId) {
    && s.acks <= HandleAll(s, cfg, sha, es).acks
    && Genuine(acts, fileId, HandleAll(s, cfg, sha, es).acks[|s.acks|..])
  }

  lemma ConfirmedByChunkOk(acts: seq<Act>, fileId: FileId, i: nat, given: seq<PullAck>, src: Bytes)
    requires Complete(acts, fileId, src) && Genuine(acts, fileId, given) && i < ChunkCount(|src|)
    requires ChunkAcks(given, fileId)
    ensures PullAck(fileId, ChunkOk, i) in given
  {
    var sent := acts[..|acts| - 1];
    assert Confirmed(sent, fileId, i);
    var j, k :| 0 <= j < k < |sent| && sent[j].Sent? && sent[j].index == i
                && sent[k].Got? && Covers(sent[k].ack, fileId, i) && sent[k].ack.status != Error;
    assert acts[k] == sent[k] && sent[k] in acts;
    assert sent[k].ack == PullAck(fileId, ChunkOk, i);
  }

  /**
   The whole pull. The announcement is accepted in whatever state the gateway is in, its
   chunk frames are delivered in any order with any repeats, the sender's attempt finishes
   on acknowledgements of this transfer: then the end frame stores exactly the file sent.
   */
  lemma FinishedPullIsStored(cfg: Config, sha: Bytes -> Digest, s: Relay, b: Event, es: seq<Event>, acts: seq<Act>,
                             src: Bytes)
    requires Accepted(cfg, b) && b.digest == sha(src) && b.chunks == ChunkCount(|src|)
    requires ChunkFramesOnly(es, b.fileId) && Unaltered(es, b.fileId, src)
    requires Complete(acts, b.fileId, src) && GivenSince(cfg, sha, OnBegin(s, cfg, b), es, acts, b.fileId)
    ensures var s' := Handle(HandleAll(OnBegin(s, cfg, b), cfg, sha, es), cfg, sha, End(b.fileId, false));
            var path := Paths.Join(OutputDir(cfg, b.jobId), b.name);
            path in s'.disk && s'.disk[path] == src && s'.acks[|s'.acks| - 1] == PullAck(b.fileId, Received, -1)
  {
    NoChunkIsMissing(cfg, sha, s, b, es, acts, src);
    PullIsStoredIff(cfg, sha, s, b, es, src);
  }

  /**
   The acknowledgements must be the current transfer's. A retry announces the file again under
   the same id, which empties the gateway's buffers; a CHUNK_OK of the earlier attempt that
   arrives after the retry's chunk went out lets the attempt finish, and the end frame then
   finds the chunk missing.
   */
  lemma StaleAckMissesAChunk(cfg: Config, sha: Bytes -> Digest, b: Event)
    requires Accepted(cfg, b) && b.digest == sha([]) && b.chunks == ChunkCount(0)
    ensures var first := HandleAll(IDLE, cfg, sha, [b, Data(b.fileId, 0, Some([]))]);
            var acts := [Began(1, sha([])), Sent(0, []), Got(first.acks[0]), Waited(0), Ended];
            var again := Handle(first, cfg, sha, b);
            && first.acks == [PullAck(b.fileId, ChunkOk, 0)]
            && Windowed(acts, []) && Complete(acts, b.fileId, [])
            && again.transfers[b.fileId].received == [false]
            && Handle(again, cfg, sha, End(b.fileId, false)).acks == first.acks + [PullAck(b.fileId, Error, -1)]
  {
    var d := Data(b.fileId, 0, Some([]));
    assert [b, d][..1] == [b] && [b][..0] == [];
    assert HandleAll(IDLE, cfg, sha, [b]) == Handle(IDLE, cfg, sha, b);
    var first := HandleAll(IDLE, cfg, sha, [b, d]);
    assert first == Handle(Handle(IDLE, cfg, sha, b), cfg, sha, d);
    OneChunkAttempt(first.acks[0], b.fileId, sha([]));
    var again := Handle(first, cfg, sha, b);
    assert again.transfers[b.fileId].received == [false];
    assert again.transfers[b.fileId].received[0] == false;
  }

  lemma OneChunkAttempt(a: PullAck, fileId: FileId, digest: Digest)
    requires a == PullAck(fileId, ChunkOk, 0)
    ensures var acts := [Began(1, digest), Sent(0, []), Got(a), Waited(0), Ended];
            Windowed(acts, []) && Complete(acts, fileId, [])
  {
    var w1 := Waits(map[0 := false], map[]);
    var sent := [Began(1, digest), Sent(0, [])];
    OneChunkSent(fileId, digest);
    OneChunkAnswered(sent, map[fileId := w1], a, fileId);
    OpenToComplete(sent + [Got(a)] + [Waited(0)], Handled(map[fileId := w1], a), fileId, [], 1);
    assert sent + [Got(a)] + [Waited(0)] + [Ended] == [Began(1, digest), Sent(0, []), Got(a), Waited(0), Ended];
  }

  lemma OneChunkSent(fileId: FileId, digest: Digest)
    ensures Open([Began(1, digest), Sent(0, [])], map[fileId := Waits(map[0 := false], map[])], fileId, [], 0, 1)
  {
    var w0 := Waits(map[], map[]);
    OpenAtStart(map[fileId := w0], fileId, [], digest);
    OpenOnSend([Began(1, digest)], map[fileId := w0], fileId, [], 0, 0);
    assert [Began(1, digest)] + [Sent(0, Chunk([], 0))] == [Began(1, digest), Sent(0, [])];
    assert map[fileId := w0][fileId := w0.(events := w0.events[0 := false])]
        == map[fileId := Waits(map[0 := false], map[])];
  }

  lemma OneChunkAnswered(sent: seq<Act>, waits: map<FileId, Waits>, a: PullAck, fileId: FileId)
    requires a == PullAck(fileId, ChunkOk, 0) && Open(sent, waits, fileId, [], 0, 1)
    ensures Open(sent + [Got(a)] + [Waited(0)], Handled(waits, a), fileId, [], 1, 1)
  {
    OpenOnAck(sent, waits, a, fileId, [], 0, 1);
    OpenOnWaited(sent + [Got(a)], Handled(waits, a), fileId, [], 0, 1);
  }
}