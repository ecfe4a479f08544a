/**
 Input files from gateway to device: the chunks are sent side by side and the device appends
 them in the order in which they arrive.
 */
module FileStage {
  import opened Prelude
  import opened FilePull

  /** path: where the bytes are written; data: written so far, which is also what has been hashed. */
  datatype Staging = Staging(path: string, digest: Digest, data: Bytes)

  datatype Ack = StagedDevice(id: FileId) | Mismatch(id: FileId)

  datatype Stage = Stage(open: map<FileId, Staging>, disk: map<string, Bytes>, acks: seq<Ack>)

  datatype Push =
    | PushBegin(id: FileId, path: string, digest: Digest)
    | PushChunk(id: FileId, index: nat, data: Bytes)
    | PushEnd(id: FileId)

  function OnPush(s: Stage, sha: Bytes -> Digest, e: Push): Stage {
    match e
    case PushBegin(id, path, digest) => s.(open := s.open[id := Staging(path, digest, [])], disk := s.disk[path := []])
    case PushChunk(id, _, data) =>
      if id !in s.open then s
      else
        var b := s.open[id];
        s.(open := s.open[id := b.(data := b.data + data)], disk := s.disk[b.path := b.data + data])
    case PushEnd(id) =>
      if id !in s.open then s
      else
        var ack := if sha(s.open[id].data) == s.open[id].digest then StagedDevice(id) else Mismatch(id);
        s.(open := s.open - {id}, acks := s.acks + [ack])
  }

  class FileStager {
    const sha: Bytes -> Digest
    var bufs: map<FileId, Staging>
    var disk: map<string, Bytes>
    var acks: seq<Ack>

    constructor (sha: Bytes -> Digest)
      ensures this.sha == sha && Contents() == Stage(map[], map[], [])
    {
      this.sha, bufs, disk, acks := sha, map[], map[], [];
    }

    function Contents(): Stage
      reads this
    {
      Stage(bufs, disk, acks)
    }

    method HandleBegin(id: FileId, path: string, digest: Digest)
      modifies this
      ensures Contents() == OnPush(old(Contents()), sha, PushBegin(id, path, digest))
    {
      disk := disk[path := []];
      bufs := bufs[id := Staging(path, digest, [])];
    }

    /** The index is not looked at. */
    method HandleChunk(id: FileId, index: nat, data: Bytes)
      modifies this
      ensures Contents() == OnPush(old(Contents()), sha, PushChunk(id, index, data))
    {
      if id !in bufs {
        return;
      }
      var buf := bufs[id];
      buf := buf.(data := buf.data + data);
      disk := disk[buf.path := buf.data];
      bufs := bufs[id := buf];
    }

    method HandleEnd(id: FileId)
      modifies this
      ensures Contents() == OnPush(old(Contents()), sha, PushEnd(id))
    {
      if id !in bufs {
        return;
      }
      var buf := bufs[id];
      bufs := bufs - {id};
      acks := acks + [if sha(buf.data) != buf.digest then Mismatch(id) else StagedDevice(id)];
    }
  }

  // ----- one file whose chunks arrive in some order

  function Arrivals(src: Bytes, order: seq<nat>): seq<Bytes> {
    seq(|order|, k requires 0 <= k < |order| => Chunk(src, order[k]))
  }

  function Deliver(s: Stage, sha: Bytes -> Digest, id: FileId, src: Bytes, order: seq<nat>): Stage {
    if order == [] then s
    else
      var i := order[|order| - 1];
      OnPush(Deliver(s, sha, id, src, order[..|order| - 1]), sha, PushChunk(id, i, Chunk(src, i)))
  }

  function Pushed(s: Stage, sha: Bytes -> Digest, id: FileId, path: string, src: Bytes, order: seq<nat>): Stage {
    OnPush(Deliver(OnPush(s, sha, PushBegin(id, path, sha(src))), sha, id, src, order), sha, PushEnd(id))
  }

  lemma {:induction false} DeliverAppends(s: Stage, sha: Bytes -> Digest, id: FileId, src: Bytes, order: seq<nat>)
    requires id in s.open && s.open[id].data == [] && s.open[id].path in s.disk && s.disk[s.open[id].path] == []
    ensures var s' := Deliver(s, sha, id, src, order);
            && id in s'.open && s'.acks == s.acks
            && s'.open[id] == s.open[id].(data := Flatten(Arrivals(src, order)))
            && s.open[id].path in s'.disk && s'.disk[s.open[id].path] == Flatten(Arrivals(src, order))
  {
    if order == [] {
      assert Arrivals(src, order) == [];
    } else {
      DeliverAppends(s, sha, id, src, order[..|order| - 1]);
      var a := Arrivals(src, order);
      assert a[..|a| - 1] == Arrivals(src, order[..|order| - 1]);
    }
  }

  ghost predicate Injective(sha: Bytes -> Digest) {
    forall a, b :: sha(a) == sha(b) ==> a == b
  }

  /**
   The device reports the file staged exactly when the chunks, joined
   as they arrived, are the file; then that is what is on disk.
   */
  lemma StagedIffJoined(s: Stage, sha: Bytes -> Digest, id: FileId, path: string, src: Bytes, order: seq<nat>)
    requires Injective(sha)
    ensures var s' := Pushed(s, sha, id, path, src, order);
            && s'.acks == s.acks + [if Flatten(Arrivals(src, order)) == src then StagedDevice(id) else Mismatch(id)]
            && path in s'.disk && s'.disk[path] == Flatten(Arrivals(src, order))
  {
    DeliverAppends(OnPush(s, sha, PushBegin(id, path, sha(src))), sha, id, src, order);
  }

  /** Arrival in sending order always succeeds; an empty file is sent without any chunk. */
  lemma InOrderIsStaged(s: Stage, sha: Bytes -> Digest, id: FileId, path: string, src: Bytes, order: seq<nat>)
    requires Injective(sha)
    requires |order| == PushCount(|src|) && forall k | 0 <= k < |order| :: order[k] == k
    ensures var s' := Pushed(s, sha, id, path, src, order);
            s'.acks == s.acks + [StagedDevice(id)] && path in s'.disk && s'.disk[path] == src
  {
    StagedIffJoined(s, sha, id, path, src, order);
    InOrderJoins(src, order);
  }

  lemma InOrderJoins(src: Bytes, order: seq<nat>)
    requires |order| == PushCount(|src|) && forall k | 0 <= k < |order| :: order[k] == k
    ensures Flatten(Arrivals(src, order)) == src
  {
    ChunksRebuildPrefix(src, Arrivals(src, order));
    assert |order| * CHUNK_SIZE >= |src|;
  }

  lemma {:induction false} BlocksMatchIff(a: seq<Bytes>, b: seq<Bytes>)
    requires |a| == |b| && forall k | 0 <= k < |a| :: |a[k]| == |b[k]|
    ensures |Flatten(a)| == |Flatten(b)| && (Flatten(a) == Flatten(b) <==> a == b)
  {
    if a != [] {
      var n := |a| - 1;
      BlocksMatchIff(a[..n], b[..n]);
      var fa, fb := Flatten(a[..n]), Flatten(b[..n]);
      assert a == a[..n] + [a[n]] && b == b[..n] + [b[n]];
      if fa + a[n] == fb + b[n] {
        assert fa == (fa + a[n])[..|fa|] && fb == (fb + b[n])[..|fb|];
        assert a[n] == (fa + a[n])[|fa|..] && b[n] == (fb + b[n])[|fb|..];
      }
    }
  }

  predicate InPlace(src: Bytes, order: seq<nat>) {
    forall k | 0 <= k < |order| :: Chunk(src, order[k]) == Chunk(src, k)
  }

  /** The number of chunks the gateway sends; none for an empty file. */
  function PushCount(size: nat): nat {
    (size + CHUNK_SIZE - 1) / CHUNK_SIZE
  }

  /** Every chunk but the last is full. */
  lemma FullChunk(src: Bytes, i: nat)
    requires i < PushCount(|src|) - 1
    ensures |Chunk(src, i)| == CHUNK_SIZE
  {
    assert (i + 1) * CHUNK_SIZE <= |src|;
  }

  lemma {:induction false} FlattenAppend(a: seq<Bytes>, b: seq<Bytes>)
    ensures Flatten(a + b) == Flatten(a) + Flatten(b)
  {
    if b == [] {
      assert a + b == a;
    } else {
      FlattenAppend(a, b[..|b| - 1]);
      assert (a + b)[..|a + b| - 1] == a + b[..|b| - 1];
    }
  }

  lemma SplitEqual(a: Bytes, b: Bytes, c: Bytes, d: Bytes)
    requires |a| == |c|
    ensures a + b == c + d <==> a == c && b == d
  {
    if a + b == c + d {
      assert a == (a + b)[..|a|] && c == (c + d)[..|c|];
      assert b == (a + b)[|a|..] && d == (c + d)[|c|..];
    }
  }

  /** The first p chunks in index order. */
  function Due(src: Bytes, p: nat): seq<Bytes> {
    seq(p, k requires 0 <= k => Chunk(src, k))
  }

  lemma DueIsPrefix(src: Bytes, p: nat)
    requires p <= PushCount(|src|) - 1
    ensures p * CHUNK_SIZE <= |src| && Flatten(Due(src, p)) == src[..p * CHUNK_SIZE]
    ensures forall k | 0 <= k < p :: |Due(src, p)[k]| == CHUNK_SIZE
  {
    ChunksRebuildPrefix(src, Due(src, p));
    assert p * CHUNK_SIZE <= |src|;
    forall k | 0 <= k < p ensures |Due(src, p)[k]| == CHUNK_SIZE {
      FullChunk(src, k);
    }
  }

  lemma InPlaceIff(src: Bytes, order: seq<nat>)
    ensures InPlace(src, order) <==> Arrivals(src, order) == Due(src, |order|)
  {
    if !InPlace(src, order) {
      var k :| 0 <= k < |order| && Chunk(src, order[k]) != Chunk(src, k);
      assert Arrivals(src, order)[k] != Due(src, |order|)[k];
    }
  }

  lemma FullArrivals(src: Bytes, order: seq<nat>)
    requires |order| <= PushCount(|src|) - 1 && forall k | 0 <= k < |order| :: order[k] < PushCount(|src|) - 1
    ensures |Flatten(Arrivals(src, order))| == |Flatten(Due(src, |order|))|
    ensures Flatten(Arrivals(src, order)) == Flatten(Due(src, |order|)) <==> InPlace(src, order)
  {
    DueIsPrefix(src, |order|);
    forall k | 0 <= k < |order| ensures |Arrivals(src, order)[k]| == CHUNK_SIZE {
      FullChunk(src, order[k]);
    }
    BlocksMatchIff(Arrivals(src, order), Due(src, |order|));
    InPlaceIff(src, order);
  }

  lemma ArrivalsSplit(src: Bytes, order: seq<nat>, p: nat)
    requires p <= |order|
    ensures Flatten(Arrivals(src, order)) == Flatten(Arrivals(src, order[..p])) + Flatten(Arrivals(src, order[p..]))
  {
    assert Arrivals(src, order) == Arrivals(src, order[..p]) + Arrivals(src, order[p..]);
    FlattenAppend(Arrivals(src, order[..p]), Arrivals(src, order[p..]));
  }

  /** What has to arrive after the first p chunks. */
  function Rest(src: Bytes, p: nat): Bytes {
    src[Min(p * CHUNK_SIZE, |src|)..]
  }

  /**
   As long as only full chunks arrive, each must have the bytes due at its place, and what arrives
   from then on must join to the rest of the file: whatever the order and the size.
   */
  lemma JoinedIffPrefixInPlace(src: Bytes, order: seq<nat>, p: nat)
    requires p <= |order| && p <= PushCount(|src|) - 1
    requires forall k | 0 <= k < p :: order[k] < PushCount(|src|) - 1
    ensures Flatten(Arrivals(src, order)) == src <==>
              InPlace(src, order[..p]) && Flatten(Arrivals(src, order[p..])) == Rest(src, p)
  {
    ArrivalsSplit(src, order, p);
    FullArrivals(src, order[..p]);
    DueThenRest(src, p);
    SplitEqual(Flatten(Arrivals(src, order[..p])), Flatten(Arrivals(src, order[p..])), Flatten(Due(src, p)),
               Rest(src, p));
  }

  lemma DueThenRest(src: Bytes, p: nat)
    requires p <= PushCount(|src|) - 1
    ensures src == Flatten(Due(src, p)) + Rest(src, p)
  {
    DueIsPrefix(src, p);
  }

  /** The order a file arrives in when its last chunk comes last, and no index is out of range. */
  predicate LastComesLast(src: Bytes, order: seq<nat>) {
    && |order| == PushCount(|src|)
    && (order != [] ==> order[|order| - 1] == |order| - 1)
    && forall k | 0 <= k < |order| - 1 :: order[k] < |order| - 1
  }

  /**
   For a file of any size whose last chunk arrives last: staged
   exactly when each arrival had the bytes due at its place.
   */
  lemma StagedIffEachInPlace(s: Stage, sha: Bytes -> Digest, id: FileId, path: string, src: Bytes, order: seq<nat>)
    requires Injective(sha) && LastComesLast(src, order)
    ensures Pushed(s, sha, id, path, src, order).acks
            == s.acks + [if InPlace(src, order) then StagedDevice(id) else Mismatch(id)]
  {
    StagedIffJoined(s, sha, id, path, src, order);
    LastChunkIsTheRest(src, order);
  }

  lemma LastChunkIsTheRest(src: Bytes, order: seq<nat>)
    requires LastComesLast(src, order)
    ensures Flatten(Arrivals(src, order)) == src <==> InPlace(src, order)
  {
    if order == [] {
      assert Arrivals(src, order) == [] && src == [];
    } else {
      var p := |order| - 1;
      JoinedIffPrefixInPlace(src, order, p);
      OneArrival(src, p);
      LastChunk(src);
      LastInPlace(src, order);
    }
  }

  lemma LastInPlace(src: Bytes, order: seq<nat>)
    requires order != [] && order[|order| - 1] == |order| - 1
    ensures order[|order| - 1..] == [|order| - 1]
    ensures InPlace(src, order) <==> InPlace(src, order[..|order| - 1])
  {
    var init := order[..|order| - 1];
    forall k | 0 <= k < |init| ensures init[k] == order[k] {
    }
    if InPlace(src, order) {
      forall k | 0 <= k < |init| ensures Chunk(src, init[k]) == Chunk(src, k) {
        assert Chunk(src, order[k]) == Chunk(src, k);
      }
    }
  }

  lemma OneArrival(src: Bytes, i: nat)
    ensures Flatten(Arrivals(src, [i])) == Chunk(src, i)
  {
    var a := Arrivals(src, [i]);
    assert a == [Chunk(src, i)] && a[..0] == [];
  }

  lemma LastChunk(src: Bytes)
    requires src != []
    ensures Chunk(src, PushCount(|src|) - 1) == Rest(src, PushCount(|src|) - 1)
  {
    assert PushCount(|src|) * CHUNK_SIZE >= |src|;
  }

  /** When another chunk takes the place of the first full one, with a different first byte, the file is refused. */
  lemma WrongFirstByteIsRefused(s: Stage, sha: Bytes -> Digest, id: FileId, path: string, src: Bytes, order: seq<nat>)
    requires Injective(sha) && order != []
    requires |Chunk(src, order[0])| > 0 && src != [] && Chunk(src, order[0])[0] != src[0]
    ensures Pushed(s, sha, id, path, src, order).acks == s.acks + [Mismatch(id)]
  {
    StagedIffJoined(s, sha, id, path, src, order);
    var a := Arrivals(src, order);
    assert a == [a[0]] + a[1..];
    FlattenAppend([a[0]], a[1..]);
    var first: seq<Bytes> := [a[0]];
    assert first[..0] == [];
    assert Flatten([a[0]]) == a[0];
    assert Flatten(a)[0] == a[0][0];
  }

  /** So a file of two chunks that begin with different bytes is refused when the second arrives first. */
  lemma SwappedChunksAreRefused(s: Stage, sha: Bytes -> Digest, id: FileId, path: string, src: Bytes)
    requires Injective(sha) && CHUNK_SIZE < |src| <= 2 * CHUNK_SIZE && src[0] != src[CHUNK_SIZE]
    ensures PushCount(|src|) == 2
    ensures Pushed(s, sha, id, path, src, [1, 0]).acks == s.acks + [Mismatch(id)]
  {
    assert Chunk(src, 1)[0] == src[CHUNK_SIZE];
    WrongFirstByteIsRefused(s, sha, id, path, src, [1, 0]);
  }
}
