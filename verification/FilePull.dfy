/**
 Output files from device to gateway: the chunk split, the gateway's indexed receiver
 with its in-place buffers, and the theorem that what is stored is what was sent.
 */
module FilePull {
  import opened Prelude
  import Paths

  type Byte = x: nat | x < 256
  type Bytes = seq<Byte>
  type FileId = nat
  /** A UUID: one component of a path. */
  type JobId = s: string | Paths.Proper(s) witness "j"
  type Digest = nat

  const CHUNK_SIZE: nat := 256 * 1024

  function ChunkCount(size: nat): nat {
    var n := (size + CHUNK_SIZE - 1) / CHUNK_SIZE;
    if n > 1 then n else 1
  }

  /** What the i-th read of CHUNK_SIZE bytes yields. */
  function Chunk(src: Bytes, i: nat): Bytes {
    src[Min(i * CHUNK_SIZE, |src|)..Min((i + 1) * CHUNK_SIZE, |src|)]
  }

  function Flatten(bufs: seq<Bytes>): Bytes {
    if bufs == [] then [] else Flatten(bufs[..|bufs| - 1]) + bufs[|bufs| - 1]
  }

  lemma {:induction false} ChunksRebuildPrefix(src: Bytes, bufs: seq<Bytes>)
    requires forall i | 0 <= i < |bufs| :: bufs[i] == Chunk(src, i)
    ensures Flatten(bufs) == src[..Min(|bufs| * CHUNK_SIZE, |src|)]
  {
    if bufs != [] {
      ChunksRebuildPrefix(src, bufs[..|bufs| - 1]);
    }
  }

  /** The chunks in index order are the file. */
  lemma ChunksRebuild(src: Bytes, bufs: seq<Bytes>)
    requires |bufs| == ChunkCount(|src|) && forall i | 0 <= i < |bufs| :: bufs[i] == Chunk(src, i)
    ensures Flatten(bufs) == src
  {
    ChunksRebuildPrefix(src, bufs);
    ChunksCover(|src|);
  }

  lemma ChunksCover(size: nat)
    ensures size <= ChunkCount(size) * CHUNK_SIZE
  {
  }

  // ----- the receiver's state and its three handlers

  datatype Transfer = Transfer(jobId: JobId, name: string, digest: Digest, buf: seq<Bytes>, received: seq<bool>)

  datatype Status = ChunkOk | Received | Error

  /** index is -1 for acknowledgements of the whole file */
  datatype PullAck = PullAck(fileId: FileId, status: Status, index: int)

  datatype Stored = Stored(fileId: FileId, jobId: JobId, name: string, path: string, data: Bytes)

  datatype Relay = Relay(transfers: map<FileId, Transfer>, disk: map<string, Bytes>, acks: seq<PullAck>,
                         log: seq<Stored>)

  /** `nameTaken`: the job already has an output of that name; `diskFails`: creating or writing the file fails. */
  datatype Event =
    | Begin(fileId: FileId, jobId: JobId, name: string, size: int, digest: Digest, chunks: nat, nameTaken: bool)
    | Data(fileId: FileId, index: int, data: Option<Bytes>)     // None: not valid base64
    | End(fileId: FileId, diskFails: bool)

  datatype Config = Config(baseDir: string, maxSize: int)

  function OutputDir(cfg: Config, jobId: JobId): string {
    Paths.Join(Paths.Join(Paths.Join(cfg.baseDir, "jobs"), jobId), "output")
  }

  function Reply(s: Relay, fileId: FileId, status: Status, index: int): Relay {
    s.(acks := s.acks + [PullAck(fileId, status, index)])
  }

  function AllFalse(n: nat): seq<bool> {
    seq(n, _ => false)
  }

  function OnBegin(s: Relay, cfg: Config, e: Event): Relay
    requires e.Begin?
  {
    if e.size > cfg.maxSize then Reply(s, e.fileId, Error, -1)
    else if !Paths.IsSafeOutputName(e.name) then Reply(s, e.fileId, Error, -1)
    else if e.nameTaken then Reply(s, e.fileId, Received, -1)
    else
      var t := Transfer(e.jobId, e.name, e.digest, seq(e.chunks, _ => []), AllFalse(e.chunks));
      s.(transfers := s.transfers[e.fileId := t])
  }

  predicate Storable(s: Relay, e: Event)
    requires e.Data?
  {
    e.fileId in s.transfers && e.data.Some?
      && 0 <= e.index < |s.transfers[e.fileId].buf| == |s.transfers[e.fileId].received|
  }

  function WithChunk(t: Transfer, e: Event): Transfer
    requires e.Data? && e.data.Some? && 0 <= e.index < |t.buf| == |t.received|
  {
    t.(buf := t.buf[e.index := e.data.value], received := t.received[e.index := true])
  }

  function AfterStore(s: Relay, e: Event): Relay
    requires e.Data?
  {
    if Storable(s, e) then s.(transfers := s.transfers[e.fileId := WithChunk(s.transfers[e.fileId], e)]) else s
  }

  function OnData(s: Relay, e: Event): Relay
    requires e.Data?
  {
    if Storable(s, e) then Reply(AfterStore(s, e), e.fileId, ChunkOk, e.index) else Reply(s, e.fileId, Error, -1)
  }

  function OnEnd(s: Relay, cfg: Config, sha: Bytes -> Digest, e: Event): Relay
    requires e.End?
  {
    if e.fileId !in s.transfers then Reply(s, e.fileId, Error, -1)
    else
      var t := s.transfers[e.fileId];
      Finish(s.(transfers := s.transfers - {e.fileId}), cfg, sha, e, t)
  }

  function Finish(s: Relay, cfg: Config, sha: Bytes -> Digest, e: Event, t: Transfer): Relay
    requires e.End?
  {
    if false in t.received || sha(Flatten(t.buf)) != t.digest || !Paths.IsSafeOutputName(t.name) || e.diskFails
    then Reply(s, e.fileId, Error, -1)
    else
      var path := Paths.Join(OutputDir(cfg, t.jobId), t.name);
      Reply(s.(disk := s.disk[path := Flatten(t.buf)],
               log := s.log + [Stored(e.fileId, t.jobId, t.name, path, Flatten(t.buf))]),
            e.fileId, Received, -1)
  }

  function Handle(s: Relay, cfg: Config, sha: Bytes -> Digest, e: Event): Relay {
    match e
    case Begin(_, _, _, _, _, _, _) => OnBegin(s, cfg, e)
    case Data(_, _, _) => OnData(s, e)
    case End(_, _) => OnEnd(s, cfg, sha, e)
  }

  const IDLE := Relay(map[], map[], [], [])

  function HandleAll(s: Relay, cfg: Config, sha: Bytes -> Digest, es: seq<Event>): Relay {
    if es == [] then s else Handle(HandleAll(s, cfg, sha, es[..|es| - 1]), cfg, sha, es[|es| - 1])
  }

  // ----- the receiver as it updates its buffers in place

  class PullTransfer {
    const jobId: JobId
    const name: string
    const digest: Digest
    const buf: array<Bytes>
    const received: array<bool>

    constructor (jobId: JobId, name: string, digest: Digest, chunks: nat)
      ensures this.jobId == jobId && this.name == name && this.digest == digest
      ensures fresh(buf) && fresh(received)
      ensures buf[..] == seq(chunks, _ => []) && received[..] == AllFalse(chunks)
    {
      this.jobId, this.name, this.digest := jobId, name, digest;
      buf := new Bytes[chunks](_ => []);
      received := new bool[chunks](_ => false);
    }

    function View(): Transfer
      reads buf, received
    {
      Transfer(jobId, name, digest, buf[..], received[..])
    }

    method Store(index: nat, data: Bytes)
      requires index < buf.Length == received.Length && buf as object != received
      modifies buf, received
      ensures View() == old(View()).(buf := old(buf[..])[index := data], received := old(received[..])[index := true])
    {
      buf[index] := data;
      received[index] := true;
    }

    method AllReceived() returns (all: bool)
      ensures all <==> false !in received[..]
    {
      for i := 0 to received.Length
        invariant forall j | 0 <= j < i :: received[j]
      {
        if !received[i] {
          assert received[..][i] == false;
          return false;
        }
      }
      return true;
    }

    method Contents() returns (data: Bytes)
      ensures data == Flatten(buf[..])
    {
      data := [];
      for i := 0 to buf.Length
        invariant data == Flatten(buf[..i])
      {
        assert buf[..i + 1][..i] == buf[..i];
        data := data + buf[i];
      }
      assert buf[..buf.Length] == buf[..];
    }
  }

  class FileRelay {
    const cfg: Config
    const sha: Bytes -> Digest
    var pullBufs: map<FileId, PullTransfer>
    var disk: map<string, Bytes>
    var acks: seq<PullAck>
    ghost var transfers: map<FileId, Transfer>     // what the buffers hold
    ghost var log: seq<Stored>

    ghost predicate Valid()
      reads this, set p | p in pullBufs.Values :: p.buf, set p | p in pullBufs.Values :: p.received
    {
      && transfers.Keys == pullBufs.Keys
      && (forall f | f in pullBufs ::
            pullBufs[f].View() == transfers[f] && pullBufs[f].buf.Length == pullBufs[f].received.Length)
      && (forall f, g | f in pullBufs && g in pullBufs && f != g ::
            pullBufs[f].buf != pullBufs[g].buf && pullBufs[f].received != pullBufs[g].received)
    }

    ghost function State(): Relay
      reads this
    {
      Relay(transfers, disk, acks, log)
    }

    constructor (cfg: Config, sha: Bytes -> Digest)
      ensures Valid() && State() == IDLE && this.cfg == cfg && this.sha == sha
    {
      this.cfg, this.sha := cfg, sha;
      pullBufs, disk, acks, transfers, log := map[], map[], [], map[], [];
    }

    method SendPullAck(fileId: FileId, status: Status, index: int)
      modifies this`acks
      ensures State() == Reply(old(State()), fileId, status, index)
      ensures old(Valid()) ==> Valid()
    {
      acks := acks + [PullAck(fileId, status, index)];
    }

    method OnFilePullBegin(e: Event)
      requires Valid() && e.Begin?
      modifies this
      ensures Valid() && State() == OnBegin(old(State()), cfg, e)
    {
      if e.size > cfg.maxSize {
        SendPullAck(e.fileId, Error, -1);
        return;
      }
      if !Paths.IsSafeOutputName(e.name) {
        SendPullAck(e.fileId, Error, -1);
        return;
      }
      if e.nameTaken {
        SendPullAck(e.fileId, Received, -1);
        return;
      }
      var pt := new PullTransfer(e.jobId, e.name, e.digest, e.chunks);
      assert pt.View() == Transfer(e.jobId, e.name, e.digest, seq(e.chunks, _ => []), AllFalse(e.chunks));
      pullBufs := pullBufs[e.fileId := pt];
      transfers := transfers[e.fileId := pt.View()];
    }

    method StoreChunk(e: Event)
      requires Valid() && e.Data? && Storable(State(), e) && e.fileId in pullBufs
      modifies this`transfers, pullBufs[e.fileId].buf, pullBufs[e.fileId].received
      ensures Valid()
      ensures State() == AfterStore(old(State()), e)
    {
      var pt := pullBufs[e.fileId];
      assert pt.View() == transfers[e.fileId];
      pt.Store(e.index, e.data.value);
      transfers := transfers[e.fileId := WithChunk(transfers[e.fileId], e)];
    }

    lemma HeldTransfer(fileId: FileId)
      requires Valid()
      ensures fileId in transfers <==> fileId in pullBufs
      ensures fileId in pullBufs ==>
                |transfers[fileId].buf| == pullBufs[fileId].buf.Length == pullBufs[fileId].received.Length
                  == |transfers[fileId].received|
    {
      if fileId in pullBufs {
        assert pullBufs[fileId].View() == transfers[fileId];
      }
    }

    /** False for an unknown file, data that does not decode, or an index out of range. */
    method TryStore(e: Event) returns (ok: bool)
      requires Valid() && e.Data?
      modifies this`transfers, set p | p in pullBufs.Values :: p.buf, set p | p in pullBufs.Values :: p.received
      ensures Valid()
      ensures ok <==> Storable(old(State()), e)
      ensures State() == AfterStore(old(State()), e)
    {
      HeldTransfer(e.fileId);
      if e.fileId !in pullBufs || e.data.None? {
        return false;
      }
      if e.index < 0 || e.index >= pullBufs[e.fileId].buf.Length {
        return false;
      }
      StoreChunk(e);
      return true;
    }

    method OnFilePullChunk(e: Event)
      requires Valid() && e.Data?
      modifies this, set p | p in pullBufs.Values :: p.buf, set p | p in pullBufs.Values :: p.received
      ensures Valid() && State() == OnData(old(State()), e)
    {
      var ok := TryStore(e);
      if !ok {
        SendPullAck(e.fileId, Error, -1);
        return;
      }
      SendPullAck(e.fileId, ChunkOk, e.index);
    }

    method OnFilePullEnd(e: Event)
      requires Valid() && e.End?
      modifies this
      ensures Valid() && State() == OnEnd(old(State()), cfg, sha, e)
    {
      if e.fileId !in pullBufs {
        SendPullAck(e.fileId, Error, -1);
        return;
      }
      var pt := pullBufs[e.fileId];
      pullBufs := pullBufs - {e.fileId};
      transfers := transfers - {e.fileId};
      FinishPull(e, pt);
    }

    method FinishPull(e: Event, pt: PullTransfer)
      requires e.End?
      modifies this`disk, this`acks, this`log
      ensures State() == Finish(old(State()), cfg, sha, e, pt.View())
    {
      var all := pt.AllReceived();
      if !all {
        SendPullAck(e.fileId, Error, -1);
        return;
      }
      var hashed := pt.Contents();
      if sha(hashed) != pt.digest {
        SendPullAck(e.fileId, Error, -1);
        return;
      }
      if !Paths.IsSafeOutputName(pt.name) {
        SendPullAck(e.fileId, Error, -1);
        return;
      }
      if e.diskFails {
        SendPullAck(e.fileId, Error, -1);
        return;
      }
      var path := Paths.Join(OutputDir(cfg, pt.jobId), pt.name);
      disk := disk[path := hashed];
      log := log + [Stored(e.fileId, pt.jobId, pt.name, path, hashed)];
      SendPullAck(e.fileId, Received, -1);
    }
  }

  // ----- end to end

  /** The announcements of this file are the sender's. */
  ghost predicate Announced(es: seq<Event>, fileId: FileId, src: Bytes, sha: Bytes -> Digest) {
    forall e | e in es && e.Begin? && e.fileId == fileId :: e.digest == sha(src) && e.chunks == ChunkCount(|src|)
  }

  /** Chunk frames of this file may be lost, repeated and reordered, but not altered. */
  ghost predicate Unaltered(es: seq<Event>, fileId: FileId, src: Bytes) {
    forall e | e in es && e.Data? && e.fileId == fileId && e.data.Some? && e.index >= 0 ::
      e.data.value == Chunk(src, e.index)
  }

  ghost predicate Partial(t: Transfer, src: Bytes) {
    && |t.buf| == |t.received| == ChunkCount(|src|)
    && forall i | 0 <= i < |t.buf| && t.received[i] :: t.buf[i] == Chunk(src, i)
  }

  /**
   For every file and every delivery of its frames, mixed with any other traffic: whatever
   is stored under its id equals the source. The digest is not even needed.
   */
  lemma {:induction false} StoredEqualsSource(cfg: Config, sha: Bytes -> Digest, es: seq<Event>, fileId: FileId,
                                              src: Bytes)
    requires Announced(es, fileId, src, sha) && Unaltered(es, fileId, src)
    ensures var s := HandleAll(IDLE, cfg, sha, es);
            && (fileId in s.transfers ==> Partial(s.transfers[fileId], src))
            && (forall r | r in s.log && r.fileId == fileId :: r.data == src)
  {
    if es != [] {
      var before, e := es[..|es| - 1], es[|es| - 1];
      StoredEqualsSource(cfg, sha, before, fileId, src);
      var s := HandleAll(IDLE, cfg, sha, before);
      if e.End? && e.fileId == fileId && fileId in s.transfers && false !in s.transfers[fileId].received {
        var t := s.transfers[fileId];
        assert forall i | 0 <= i < |t.received| :: t.received[i];
        ChunksRebuild(src, t.buf);
      }
    }
  }

  /** If chunks may be altered on the way, the digest still pins the stored bytes down, up to a collision. */
  lemma {:induction false} StoredHasTheDigest(cfg: Config, sha: Bytes -> Digest, es: seq<Event>, fileId: FileId,
                                              src: Bytes)
    requires Announced(es, fileId, src, sha)
    ensures var s := HandleAll(IDLE, cfg, sha, es);
            && (fileId in s.transfers ==> s.transfers[fileId].digest == sha(src))
            && (forall r | r in s.log && r.fileId == fileId :: sha(r.data) == sha(src))
            && ((forall a, b :: sha(a) == sha(b) ==> a == b) ==>
                  forall r | r in s.log && r.fileId == fileId :: r.data == src)
  {
    if es != [] {
      StoredHasTheDigest(cfg, sha, es[..|es| - 1], fileId, src);
    }
  }

  /** Announced here, with this job and name. */
  ghost predicate AnnouncedAs(es: seq<Event>, fileId: FileId, jobId: JobId, name: string) {
    exists e | e in es :: e.Begin? && e.fileId == fileId && e.jobId == jobId && e.name == name
  }

  /**
   Every stored file was announced with its job and an accepted name, and its path is the base
   directory, "jobs", that job, "output", and then the components of that name.
   */
  lemma {:induction false} StoredInsideOutputDir(cfg: Config, sha: Bytes -> Digest, es: seq<Event>)
    ensures forall r | r in HandleAll(IDLE, cfg, sha, es).log ::
              AnnouncedAs(es, r.fileId, r.jobId, r.name) && Paths.IsSafeOutputName(r.name) && PathOf(cfg, r)
  {
    if es != [] {
      var before, e := es[..|es| - 1], es[|es| - 1];
      StoredInsideOutputDir(cfg, sha, before);
      TransfersAnnounced(cfg, sha, before);
      var s := HandleAll(IDLE, cfg, sha, before);
      forall r | r in Handle(s, cfg, sha, e).log
        ensures AnnouncedAs(es, r.fileId, r.jobId, r.name) && Paths.IsSafeOutputName(r.name) && PathOf(cfg, r)
      {
        NewlyStored(s, cfg, sha, e, r);
        StillAnnouncedAs(es, r.fileId, r.jobId, r.name);
      }
    }
  }

  lemma NewlyStored(s: Relay, cfg: Config, sha: Bytes -> Digest, e: Event, r: Stored)
    requires r in Handle(s, cfg, sha, e).log
    ensures r in s.log || (r.fileId in s.transfers && r.jobId == s.transfers[r.fileId].jobId
                           && r.name == s.transfers[r.fileId].name
                           && Paths.IsSafeOutputName(r.name) && PathOf(cfg, r))
  {
    if r !in s.log {
      OutputPath(cfg, r.jobId, r.name);
    }
  }

  lemma StillAnnouncedAs(es: seq<Event>, fileId: FileId, jobId: JobId, name: string)
    requires es != [] && AnnouncedAs(es[..|es| - 1], fileId, jobId, name)
    ensures AnnouncedAs(es, fileId, jobId, name)
  {
  }

  /** Every open transfer carries the job and name of an announcement of its file. */
  lemma {:induction false} TransfersAnnounced(cfg: Config, sha: Bytes -> Digest, es: seq<Event>)
    ensures forall f | f in HandleAll(IDLE, cfg, sha, es).transfers ::
              AnnouncedAs(es, f, HandleAll(IDLE, cfg, sha, es).transfers[f].jobId,
                          HandleAll(IDLE, cfg, sha, es).transfers[f].name)
  {
    if es != [] {
      var before, e := es[..|es| - 1], es[|es| - 1];
      TransfersAnnounced(cfg, sha, before);
      var s, s' := HandleAll(IDLE, cfg, sha, before), HandleAll(IDLE, cfg, sha, es);
      forall f | f in s'.transfers ensures AnnouncedAs(es, f, s'.transfers[f].jobId, s'.transfers[f].name) {
        if f in s.transfers && s'.transfers[f].jobId == s.transfers[f].jobId
          && s'.transfers[f].name == s.transfers[f].name {
          StillAnnouncedAs(es, f, s'.transfers[f].jobId, s'.transfers[f].name);
        } else {
          assert e.Begin? && e.fileId == f && e in es;
        }
      }
    }
  }

  ghost predicate PathOf(cfg: Config, r: Stored) {
    && Paths.Components(r.path) == Paths.Components(cfg.baseDir) + ["jobs", r.jobId, "output"]
       + Paths.Components(r.name)
    && Paths.Rooted(r.path) == Paths.Rooted(cfg.baseDir)
    && Paths.Components(r.name) != [] && ".." !in Paths.Components(r.name)
  }

  lemma OutputPath(cfg: Config, jobId: JobId, name: string)
    requires Paths.IsSafeOutputName(name)
    ensures var path := Paths.Join(OutputDir(cfg, jobId), name);
            && Paths.Components(path) == Paths.Components(cfg.baseDir) + ["jobs", jobId, "output"]
               + Paths.Components(name)
            && Paths.Rooted(path) == Paths.Rooted(cfg.baseDir)
    ensures Paths.Components(name) != [] && ".." !in Paths.Components(name)
  {
    Paths.JoinThree(cfg.baseDir, "jobs", jobId, "output");
    Paths.SafeNameStaysInside(OutputDir(cfg, jobId), name);
    Paths.SafeIff(name);
    Paths.ComponentsShape(name);
  }

  /** Only these frames touch the transfer of this file. */
  predicate ChunkFramesOnly(es: seq<Event>, fileId: FileId) {
    forall e | e in es && e.fileId == fileId :: e.Data?
  }

  /** A chunk frame of the file with this index, and data that decodes, is among them. */
  predicate Arrived(es: seq<Event>, fileId: FileId, i: nat) {
    exists e | e in es :: e.Data? && e.fileId == fileId && e.index == i && e.data.Some?
  }

  ghost predicate InTransfer(s: Relay, fileId: FileId, i: nat) {
    fileId in s.transfers && |s.transfers[fileId].buf| == |s.transfers[fileId].received|
      && i < |s.transfers[fileId].buf|
  }

  /** Chunk frames change nothing of a transfer but its buffers. */
  lemma {:induction false} TransferKept(cfg: Config, sha: Bytes -> Digest, s: Relay, es: seq<Event>, fileId: FileId,
                                        i: nat)
    requires ChunkFramesOnly(es, fileId) && InTransfer(s, fileId, i)
    ensures var s' := HandleAll(s, cfg, sha, es);
            && InTransfer(s', fileId, i)
            && s'.transfers[fileId]
               == s.transfers[fileId].(buf := s'.transfers[fileId].buf, received := s'.transfers[fileId].received)
            && |s'.transfers[fileId].buf| == |s.transfers[fileId].buf|
  {
    if es != [] {
      TransferKept(cfg, sha, s, es[..|es| - 1], fileId, i);
    }
  }

  /** During a transfer a flag is set exactly when it was set before or the chunk has arrived since. */
  lemma {:induction false} ReceivedIff(cfg: Config, sha: Bytes -> Digest, s: Relay, es: seq<Event>, fileId: FileId,
                                       i: nat)
    requires ChunkFramesOnly(es, fileId) && InTransfer(s, fileId, i)
    ensures InTransfer(HandleAll(s, cfg, sha, es), fileId, i)
    ensures HandleAll(s, cfg, sha, es).transfers[fileId].received[i] <==>
              s.transfers[fileId].received[i] || Arrived(es, fileId, i)
  {
    TransferKept(cfg, sha, s, es, fileId, i);
    if es != [] {
      var before, e := es[..|es| - 1], es[|es| - 1];
      TransferKept(cfg, sha, s, before, fileId, i);
      ReceivedIff(cfg, sha, s, before, fileId, i);
      assert es == before + [e];
      ReceivedStep(cfg, sha, HandleAll(s, cfg, sha, before), e, fileId, i);
    }
  }

  lemma ReceivedStep(cfg: Config, sha: Bytes -> Digest, s: Relay, e: Event, fileId: FileId, i: nat)
    requires InTransfer(s, fileId, i) && (e.fileId == fileId ==> e.Data?)
    ensures var s' := Handle(s, cfg, sha, e);
            && InTransfer(s', fileId, i)
            && (s'.transfers[fileId].received[i] <==>
                  s.transfers[fileId].received[i] || (e.Data? && e.fileId == fileId && e.index == i && e.data.Some?))
  {
  }

  lemma {:induction false} AcksGrow(cfg: Config, sha: Bytes -> Digest, s: Relay, es: seq<Event>)
    ensures s.acks <= HandleAll(s, cfg, sha, es).acks
  {
    if es != [] {
      AcksGrow(cfg, sha, s, es[..|es| - 1]);
    }
  }

  /** A CHUNK_OK given during a transfer is truthful until the transfer ends: that chunk's flag is set. */
  lemma {:induction false} AckMeansReceived(cfg: Config, sha: Bytes -> Digest, s: Relay, es: seq<Event>,
                                            fileId: FileId, i: nat)
    requires ChunkFramesOnly(es, fileId) && InTransfer(s, fileId, i)
    ensures InTransfer(HandleAll(s, cfg, sha, es), fileId, i) && s.acks <= HandleAll(s, cfg, sha, es).acks
    ensures PullAck(fileId, ChunkOk, i) in HandleAll(s, cfg, sha, es).acks[|s.acks|..]
            ==> HandleAll(s, cfg, sha, es).transfers[fileId].received[i]
  {
    TransferKept(cfg, sha, s, es, fileId, i);
    AcksGrow(cfg, sha, s, es);
    if es != [] {
      var before, e := es[..|es| - 1], es[|es| - 1];
      AcksGrow(cfg, sha, s, before);
      AckMeansReceived(cfg, sha, s, before, fileId, i);
      AckStep(cfg, sha, HandleAll(s, cfg, sha, before), e, fileId, i);
      var m, s' := HandleAll(s, cfg, sha, before), HandleAll(s, cfg, sha, es);
      assert s'.acks[|s.acks|..] == m.acks[|s.acks|..] + s'.acks[|m.acks|..];
    }
  }

  lemma AckStep(cfg: Config, sha: Bytes -> Digest, s: Relay, e: Event, fileId: FileId, i: nat)
    requires InTransfer(s, fileId, i) && (e.fileId == fileId ==> e.Data?)
    ensures var s' := Handle(s, cfg, sha, e);
            && s.acks <= s'.acks && InTransfer(s', fileId, i)
            && (s.transfers[fileId].received[i] ==> s'.transfers[fileId].received[i])
            && (PullAck(fileId, ChunkOk, i) in s'.acks[|s.acks|..] ==> s'.transfers[fileId].received[i])
  {
  }

  ghost predicate AllArrived(es: seq<Event>, fileId: FileId, n: nat) {
    forall i: nat | i < n :: Arrived(es, fileId, i)
  }

  /** An announcement that opens a transfer: the tests of OnFilePullBegin pass. */
  predicate Accepted(cfg: Config, b: Event) {
    b.Begin? && b.size <= cfg.maxSize && Paths.IsSafeOutputName(b.name) && !b.nameTaken
  }

  /** The end frame finds no chunk missing exactly when every index has arrived since the announcement. */
  lemma NothingMissingIff(cfg: Config, sha: Bytes -> Digest, s: Relay, b: Event, es: seq<Event>)
    requires Accepted(cfg, b) && ChunkFramesOnly(es, b.fileId)
    ensures var m := HandleAll(OnBegin(s, cfg, b), cfg, sha, es);
            && b.fileId in m.transfers && |m.transfers[b.fileId].received| == b.chunks
            && (false !in m.transfers[b.fileId].received <==> AllArrived(es, b.fileId, b.chunks))
  {
    var s1, m := OnBegin(s, cfg, b), HandleAll(OnBegin(s, cfg, b), cfg, sha, es);
    StillAnnounced(cfg, sha, s1, es, b.fileId);
    forall i: nat | i < b.chunks ensures m.transfers[b.fileId].received[i] <==> Arrived(es, b.fileId, i) {
      ReceivedIff(cfg, sha, s1, es, b.fileId, i);
    }
    if false in m.transfers[b.fileId].received {
      var i :| 0 <= i < b.chunks && m.transfers[b.fileId].received[i] == false;
      assert !Arrived(es, b.fileId, i);
    }
  }

  lemma {:induction false} StillAnnounced(cfg: Config, sha: Bytes -> Digest, s: Relay, es: seq<Event>, fileId: FileId)
    requires ChunkFramesOnly(es, fileId) && fileId in s.transfers
    ensures var s' := HandleAll(s, cfg, sha, es);
            fileId in s'.transfers && |s'.transfers[fileId].received| == |s.transfers[fileId].received|
  {
    if es != [] {
      StillAnnounced(cfg, sha, s, es[..|es| - 1], fileId);
    }
  }

  /**
   The exact condition for a pull: after an accepted announcement, and while chunks are not altered
   and the disk works, the end frame stores the file exactly when every index has arrived since,
   in any order and with any repeats, and otherwise stores nothing and answers with an error.
   */
  lemma PullIsStoredIff(cfg: Config, sha: Bytes -> Digest, s: Relay, b: Event, es: seq<Event>, src: Bytes)
    requires Accepted(cfg, b) && b.digest == sha(src) && b.chunks == ChunkCount(|src|)
    requires ChunkFramesOnly(es, b.fileId) && Unaltered(es, b.fileId, src)
    ensures var m := HandleAll(OnBegin(s, cfg, b), cfg, sha, es);
            var s' := Handle(m, cfg, sha, End(b.fileId, false));
            var path := Paths.Join(OutputDir(cfg, b.jobId), b.name);
            && b.fileId !in s'.transfers
            && if AllArrived(es, b.fileId, b.chunks) then
                 s'.disk == m.disk[path := src] && s'.acks == m.acks + [PullAck(b.fileId, Received, -1)]
               else
                 s'.disk == m.disk && s'.acks == m.acks + [PullAck(b.fileId, Error, -1)]
  {
    var s1, m := OnBegin(s, cfg, b), HandleAll(OnBegin(s, cfg, b), cfg, sha, es);
    NothingMissingIff(cfg, sha, s, b, es);
    TransferKept(cfg, sha, s1, es, b.fileId, 0);
    PartialWhileReceiving(cfg, sha, s1, es, b.fileId, src);
    if AllArrived(es, b.fileId, b.chunks) {
      var t := m.transfers[b.fileId];
      assert forall i | 0 <= i < |t.received| :: t.received[i];
      ChunksRebuild(src, t.buf);
    }
  }

  lemma {:induction false} PartialWhileReceiving(cfg: Config, sha: Bytes -> Digest, s: Relay, es: seq<Event>,
                                                 fileId: FileId, src: Bytes)
    requires ChunkFramesOnly(es, fileId) && Unaltered(es, fileId, src)
    requires fileId in s.transfers && Partial(s.transfers[fileId], src)
    ensures fileId in HandleAll(s, cfg, sha, es).transfers && Partial(HandleAll(s, cfg, sha, es).transfers[fileId], src)
  {
    if es != [] {
      PartialWhileReceiving(cfg, sha, s, es[..|es| - 1], fileId, src);
    }
  }
}
