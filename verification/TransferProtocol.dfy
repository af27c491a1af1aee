/** Sender and receiver composed over the session: frames cross a FIFO link and the
    receiver's bounded routing buffer, acks come back over another FIFO.

    An `Env` fixes everything the two parties do not decide: the files, the bytes that
    arrive for every chunk of every attempt (headers arrive intact, data may be anything),
    and whether the receiver's disk may fail. A run is any interleaving of enabled steps. */
module TransferProtocol {
  import opened Wrappers
  import opened Transfer
  import opened TransferReceiver
  import TS = TransferSender

  // Capacity of the buffer between the event loop and the receive callback.
  const BUFFER_SLOTS: nat := 64

  type Source = TS.Source
  type Sender = TS.Sender

  datatype Env = Env(
    sources: seq<Source>,
    wire: (nat, nat, nat) -> seq<byte>,
    reliableDisk: bool,
    digest: Digest)

  function FilesOf(sources: seq<Source>, digest: Digest): seq<TransferFile> {
    seq(|sources|, i requires 0 <= i < |sources| =>
      TransferFile(sources[i].name, |sources[i].content|, digest(sources[i].content)))
  }

  function ManifestOf(e: Env): Manifest {
    var files := FilesOf(e.sources, e.digest);
    Manifest(files, SumSizes(files))
  }

  // What BuildManifest guarantees about the files, and a digest without collisions.
  ghost predicate ValidEnv(e: Env) {
    && Acceptable(ManifestOf(e))
    && (forall i, j | 0 <= i < j < |e.sources| :: e.sources[i].name != e.sources[j].name)
    && (forall x, y :: e.digest(x) == e.digest(y) ==> x == y)
  }

  function Total(e: Env, f: nat): nat
    requires f < |e.sources|
  {
    TS.ChunkCount(e.sources[f].content)
  }

  // The chunk as it arrives: true header, whatever data the wire made of it.
  function WireChunk(e: Env, f: nat, a: nat, i: nat): Chunk
    requires f < |e.sources| && i < Total(e, f)
  {
    TS.ChunkAt(e.sources[f], i).(data := e.wire(f, a, i))
  }

  predicate Clean(e: Env, f: nat, a: nat)
    requires f < |e.sources|
  {
    forall i | 0 <= i < Total(e, f) :: e.wire(f, a, i) == TS.ChunkAt(e.sources[f], i).data
  }

  predicate KeepsLengths(e: Env, f: nat, a: nat)
    requires f < |e.sources|
  {
    forall i | 0 <= i < Total(e, f) :: |e.wire(f, a, i)| == |TS.ChunkAt(e.sources[f], i).data|
  }

  // One clean attempt per file, no length ever changed, and a disk that works.
  predicate Good(e: Env) {
    && e.reliableDisk
    && forall f | 0 <= f < |e.sources| ::
         && (Clean(e, f, 0) || Clean(e, f, 1))
         && KeepsLengths(e, f, 0) && KeepsLengths(e, f, 1)
  }

  datatype System = System(
    snd: Sender,
    net: seq<Frame>,
    buf: seq<Frame>,
    rcv: Receiver,
    read: nat,
    lost: bool)

  const START: System := System(TS.NotStarted, [], [], INITIAL, 0, false)

  datatype Step = SendManifest | SendChunk | ReadAck | Route | Discard | Take(fault: Fault)

  predicate WellFormed(e: Env, s: System) {
    && Indexed(s.rcv) && s.read <= |s.rcv.acks|
    && match s.snd
       case Streaming(f, a, n) => f < |e.sources| && n < Total(e, f)
       case Awaiting(f, a) => f < |e.sources|
       case _ => true
  }

  predicate Enabled(e: Env, s: System, st: Step) {
    match st
    case SendManifest => s.snd.NotStarted?
    case SendChunk => s.snd.Streaming?
    case ReadAck => s.snd.Awaiting? && s.read < |s.rcv.acks|
    case Route => s.net != []
    case Discard => s.net != [] && s.rcv.phase.Finished?
    case Take(fault) =>
      s.buf != [] && !s.rcv.phase.Finished? && !fault.ack && (e.reliableDisk ==> fault == NO_FAULT)
  }

  function Next(e: Env, s: System, st: Step): System
    requires WellFormed(e, s) && Enabled(e, s, st)
  {
    match st
    case SendManifest =>
      s.(net := s.net + [ManifestFrame(ManifestOf(e))],
         snd := if e.sources == [] then TS.Done(TS.Success) else TS.Streaming(0, 0, 0))
    case SendChunk =>
      var (f, a, n) := (s.snd.file, s.snd.attempt, s.snd.next);
      s.(net := s.net + [ChunkFrame(WireChunk(e, f, a, n))],
         snd := if n + 1 == Total(e, f) then TS.Awaiting(f, a) else TS.Streaming(f, a, n + 1))
    case ReadAck =>
      s.(read := s.read + 1,
         snd := TS.AfterAck(e.sources, s.snd.file, s.snd.attempt, s.rcv.acks[s.read]))
    case Route =>
      // The event loop never blocks: a frame meeting a full buffer is dropped.
      if |s.buf| < BUFFER_SLOTS then s.(net := s.net[1..], buf := s.buf + [s.net[0]])
      else s.(net := s.net[1..], lost := true)
    case Discard => s.(net := s.net[1..])
    case Take(fault) =>
      s.(buf := s.buf[1..], rcv := Receive(s.rcv, Got(s.buf[0]), fault, e.digest))
  }

  // Frames of one attempt, chunks i (included) to j (excluded), as they arrive.
  function Stream(e: Env, f: nat, a: nat, i: nat, j: nat): seq<Frame>
    requires f < |e.sources| && i <= j <= Total(e, f)
  {
    seq(j - i, t requires 0 <= t < j - i => ChunkFrame(WireChunk(e, f, a, i + t)))
  }

  // The first k chunks of an attempt, concatenated as received.
  function Arrived(e: Env, f: nat, a: nat, k: nat): seq<byte> {
    if k == 0 then [] else Arrived(e, f, a, k - 1) + e.wire(f, a, k - 1)
  }

  // --- Receiver states met in honest runs ---

  predicate Fresh(e: Env, r: Receiver, j: nat) {
    && r.files == ManifestOf(e).files && r.writer.None?
    && if j < |e.sources| then r.phase == Receiving(j) && !r.draining && r.rejections == 0
       else r.phase == Finished(false)
  }

  predicate Drained(e: Env, r: Receiver, f: nat) {
    && f < |e.sources|
    && r.files == ManifestOf(e).files && r.writer.None?
    && r.phase == Receiving(f) && r.draining && r.rejections == 1
  }

  predicate Storing(e: Env, r: Receiver, f: nat, a: nat, k: nat) {
    && f < |e.sources|
    && r.files == ManifestOf(e).files && r.phase == Receiving(f)
    && !r.draining && r.rejections == a
    && r.writer == Some(PartWriter(e.sources[f].name, Arrived(e, f, a, k)))
  }

  // Ready for chunk i of attempt a.
  predicate ReadyFor(e: Env, r: Receiver, f: nat, a: nat, i: nat)
    requires f < |e.sources|
  {
    if i > 0 then Storing(e, r, f, a, i)
    else if a == 0 then Fresh(e, r, f)
    else Drained(e, r, f)
  }

  // The first j files, and nothing else, are committed byte for byte.
  predicate CommittedFirst(e: Env, r: Receiver, j: nat) {
    && j <= |e.sources|
    && (forall i | 0 <= i < j ::
          e.sources[i].name in r.disk.committed && r.disk.committed[e.sources[i].name] == e.sources[i].content)
    && (forall n | n in r.disk.committed :: exists i | 0 <= i < j :: e.sources[i].name == n)
  }

  // --- What one chunk does to the receiver ---

  predicate Stored(e: Env, r: Receiver, r': Receiver, f: nat, a: nat, i: nat)
    requires f < |e.sources|
  {
    i + 1 < Total(e, f) && Storing(e, r', f, a, i + 1) && r'.acks == r.acks && r'.disk.committed == r.disk.committed
  }

  predicate Verified(e: Env, r: Receiver, r': Receiver, f: nat, i: nat)
    requires f < |e.sources|
  {
    && i + 1 == Total(e, f) && Fresh(e, r', f + 1)
    && r'.acks == r.acks + [Accepted(e.sources[f].name)]
    && r'.disk.committed == r.disk.committed[e.sources[f].name := e.sources[f].content]
  }

  predicate Refused(e: Env, r: Receiver, r': Receiver, f: nat, a: nat, i: nat)
    requires f < |e.sources|
  {
    && !Clean(e, f, a) && (i > 0 || Total(e, f) == 1)
    && r'.acks == r.acks + [Rejected(e.sources[f].name)]
    && r'.disk.committed == r.disk.committed
    && if a == 0 then Drained(e, r', f) else Fresh(e, r', f + 1)
  }

  predicate Ended(e: Env, r: Receiver, r': Receiver, f: nat, a: nat)
    requires f < |e.sources|
  {
    && !(e.reliableDisk && KeepsLengths(e, f, a))
    && r'.acks == r.acks + [DECLINED] && r'.phase == Finished(true)
    && r'.disk.committed == r.disk.committed
  }

  lemma {:induction false} ArrivedIntact(e: Env, f: nat, a: nat, k: nat)
    requires f < |e.sources| && k <= Total(e, f)
    ensures KeepsLengths(e, f, a) ==>
              |Arrived(e, f, a, k)| == if k == Total(e, f) then |e.sources[f].content| else k * CHUNK_SIZE
    ensures Clean(e, f, a) ==>
              Arrived(e, f, a, k) ==
              e.sources[f].content[..if k == Total(e, f) then |e.sources[f].content| else k * CHUNK_SIZE]
  {
    if k > 0 {
      ArrivedIntact(e, f, a, k - 1);
    }
  }

  lemma FileFacts(e: Env, f: nat)
    requires ValidEnv(e) && f < |e.sources|
    ensures var file := ManifestOf(e).files[f];
            && file.name == e.sources[f].name && file.size == |e.sources[f].content| <= MAX_FILE_SIZE
            && file.sha256 == e.digest(e.sources[f].content) && SafeReportName(file.name)
    ensures 1 <= Total(e, f) <= 33
  {
    assert Acceptable(ManifestOf(e));
    assert ManifestOf(e).files[f].size <= MAX_FILE_SIZE;
  }

  // The attempt's bytes are all there: the digest decides whether they are the file.
  lemma ConcludeOutcome(e: Env, r: Receiver, r': Receiver, f: nat, a: nat, fault: Fault)
    requires ValidEnv(e) && f < |e.sources| && a <= 1 && Storing(e, r, f, a, Total(e, f))
    requires !fault.ack && (e.reliableDisk ==> fault == NO_FAULT)
    requires r' == Conclude(r, f, fault, e.digest)
    ensures var i := Total(e, f) - 1;
            || Verified(e, r, r', f, i)
            || (r'.acks == r.acks + [Rejected(e.sources[f].name)] && !Clean(e, f, a)
                && r'.disk.committed == r.disk.committed
                && if a == 0 then Drained(e, r', f) else Fresh(e, r', f + 1))
            || Ended(e, r, r', f, a)
  {
    FileFacts(e, f);
    ArrivedIntact(e, f, a, Total(e, f));
    var bytes, content := r.writer.value.bytes, e.sources[f].content;
    assert content[..|content|] == content;
    if e.digest(bytes) == e.digest(content) {
      assert bytes == content;
    }
  }

  lemma StoreOutcome(e: Env, r: Receiver, r': Receiver, f: nat, a: nat, i: nat, fault: Fault)
    requires ValidEnv(e) && f < |e.sources| && a <= 1 && i < Total(e, f)
    requires Storing(e, r, f, a, i) && |Arrived(e, f, a, i)| == i * CHUNK_SIZE
    requires !fault.ack && (e.reliableDisk ==> fault == NO_FAULT)
    requires r' == Store(r, f, WireChunk(e, f, a, i), fault, e.digest)
    ensures || Stored(e, r, r', f, a, i) || Verified(e, r, r', f, i) || Ended(e, r, r', f, a)
            || (i + 1 == Total(e, f) && r'.acks == r.acks + [Rejected(e.sources[f].name)] && !Clean(e, f, a)
                && r'.disk.committed == r.disk.committed
                && if a == 0 then Drained(e, r', f) else Fresh(e, r', f + 1))
  {
    FileFacts(e, f);
    var c := WireChunk(e, f, a, i);
    ArrivedIntact(e, f, a, i);
    ArrivedIntact(e, f, a, i + 1);
    if |c.data| <= CHUNK_SIZE && |r.writer.value.bytes| + |c.data| <= r.files[f].size && !fault.write {
      var written := WritePart(r, c.data);
      assert Storing(e, written, f, a, i + 1);
      if c.last {
        ConcludeOutcome(e, written, r', f, a, fault);
      }
    } else {
      assert Ended(e, r, r', f, a);
    }
  }

  // Chunk i of the attempt the receiver is ready for: the four things that can happen.
  lemma ChunkOutcome(e: Env, r: Receiver, r': Receiver, f: nat, a: nat, i: nat, fault: Fault)
    requires ValidEnv(e) && f < |e.sources| && a <= 1 && i < Total(e, f) && ReadyFor(e, r, f, a, i)
    requires !fault.ack && (e.reliableDisk ==> fault == NO_FAULT)
    requires r' == HandleChunk(r, f, WireChunk(e, f, a, i), fault, e.digest)
    ensures || Stored(e, r, r', f, a, i) || Verified(e, r, r', f, i)
            || Refused(e, r, r', f, a, i) || Ended(e, r, r', f, a)
  {
    FileFacts(e, f);
    var c := WireChunk(e, f, a, i);
    ArrivedIntact(e, f, a, i);
    if i == 0 {
      if !fault.open {
        var ready := OpenPart(Cleanup(r).(draining := false), c.name);
        assert Storing(e, ready, f, a, 0);
        StoreOutcome(e, ready, r', f, a, i, fault);
      }
    } else if c.offset == |r.writer.value.bytes| {
      StoreOutcome(e, r, r', f, a, i, fault);
    }
  }

  // Leftovers of a refused attempt are swallowed.
  lemma StragglerIsSwallowed(e: Env, r: Receiver, f: nat, a: nat, i: nat, fault: Fault)
    requires ValidEnv(e) && 0 < i && Drained(e, r, f) && i < Total(e, f)
    ensures HandleChunk(r, f, WireChunk(e, f, a, i), fault, e.digest) == r
  {}

  // Leftovers of an exhausted file meet the next one and end the transfer.
  lemma StragglerIsForeign(e: Env, r: Receiver, f: nat, a: nat, i: nat, fault: Fault)
    requires ValidEnv(e) && f + 1 < |e.sources| && 0 < i < Total(e, f) && Fresh(e, r, f + 1) && !fault.ack
    ensures var r' := HandleChunk(r, f + 1, WireChunk(e, f, a, i), fault, e.digest);
            r' == Finish(Send(r, DECLINED), true)
  {
    FileFacts(e, f + 1);
  }

  // --- The joint states of a run; n chunks of attempt a of file f are on their way or read ---

  function Queue(s: System): seq<Frame> { s.buf + s.net }

  function Unread(s: System): seq<Ack>
    requires s.read <= |s.rcv.acks|
  {
    s.rcv.acks[s.read..]
  }

  predicate Position(e: Env, s: System, f: nat, a: nat, n: nat) {
    f < |e.sources| && a <= MAX_FILE_RETRIES && n <= Total(e, f) && s.read <= |s.rcv.acks|
  }

  // The manifest has not been read yet.
  predicate Opening(e: Env, s: System, f: nat, a: nat, n: nat)
    requires Position(e, s, f, a, n)
  {
    && f == 0 && a == 0 && s.rcv == INITIAL && s.read == 0
    && Queue(s) == [ManifestFrame(ManifestOf(e))] + Stream(e, 0, 0, 0, n)
  }

  // The receiver has read k chunks of this attempt and found nothing wrong.
  predicate InStep(e: Env, s: System, f: nat, a: nat, n: nat)
    requires Position(e, s, f, a, n)
  {
    var k := n - |Queue(s)|;
    && 0 <= k <= n && k < Total(e, f) && ReadyFor(e, s.rcv, f, a, k)
    && Queue(s) == Stream(e, f, a, k, n) && Unread(s) == []
    && CommittedFirst(e, s.rcv, f) && (a == 1 ==> !Clean(e, f, 0))
  }

  // The retry is under way while leftovers of the first attempt still drain.
  predicate Draining(e: Env, s: System, f: nat, a: nat, n: nat)
    requires Position(e, s, f, a, n)
  {
    var k := Total(e, f) + n - |Queue(s)|;
    && a == 1 && 0 < k < Total(e, f) && k > 1 && Drained(e, s.rcv, f)
    && Queue(s) == Stream(e, f, 0, k, Total(e, f)) + Stream(e, f, 1, 0, n) && Unread(s) == []
    && CommittedFirst(e, s.rcv, f) && !Clean(e, f, 0)
  }

  // The first attempt was refused and its ack is on the way back.
  predicate Bounced(e: Env, s: System, f: nat, a: nat, n: nat)
    requires Position(e, s, f, a, n)
  {
    var k := n - |Queue(s)|;
    && a == 0 && 0 < k <= n && (k > 1 || Total(e, f) == 1) && Drained(e, s.rcv, f)
    && Queue(s) == Stream(e, f, 0, k, n) && Unread(s) == [Rejected(e.sources[f].name)]
    && CommittedFirst(e, s.rcv, f) && !Clean(e, f, 0)
  }

  // The file is committed and its ack is on the way back.
  predicate Delivered(e: Env, s: System, f: nat, a: nat, n: nat)
    requires Position(e, s, f, a, n)
  {
    && n == Total(e, f) && Queue(s) == [] && Unread(s) == [Accepted(e.sources[f].name)]
    && Fresh(e, s.rcv, f + 1) && CommittedFirst(e, s.rcv, f + 1)
  }

  // Both attempts were refused; leftovers of the second may still be queued.
  predicate Exhausted(e: Env, s: System, f: nat, a: nat, n: nat)
    requires Position(e, s, f, a, n)
  {
    var k := n - |Queue(s)|;
    && !Good(e) && a == 1 && CommittedFirst(e, s.rcv, f) && 0 < k <= n
    && Unread(s) != [] && Unread(s)[0] == Rejected(e.sources[f].name)
    && (s.rcv.phase.Finished?
        || (f + 1 < |e.sources| && Fresh(e, s.rcv, f + 1) && Queue(s) == Stream(e, f, 1, k, n)
            && Unread(s) == [Rejected(e.sources[f].name)]))
  }

  // The receiver refused the whole transfer.
  predicate Closed(e: Env, s: System, f: nat, a: nat, n: nat)
    requires Position(e, s, f, a, n)
  {
    && !Good(e) && s.rcv.phase.Finished? && CommittedFirst(e, s.rcv, f)
    && Unread(s) == [DECLINED] && |Queue(s)| <= n
  }

  predicate Live(e: Env, s: System, f: nat, a: nat, n: nat) {
    && Position(e, s, f, a, n)
    && (|| Opening(e, s, f, a, n) || InStep(e, s, f, a, n) || Draining(e, s, f, a, n)
        || Bounced(e, s, f, a, n) || Delivered(e, s, f, a, n) || Exhausted(e, s, f, a, n)
        || Closed(e, s, f, a, n))
  }

  // The sender has stopped early; at most leftovers of file f are still queued.
  predicate Abandoned(e: Env, s: System, f: nat) {
    && !Good(e) && f < |e.sources| && CommittedFirst(e, s.rcv, f)
    && (s.rcv.phase.Finished?
        || (f + 1 < |e.sources| && Fresh(e, s.rcv, f + 1)
            && var k := Total(e, f) - |Queue(s)|;
               0 < k && Queue(s) == Stream(e, f, 1, k, Total(e, f))))
  }

  predicate Finale(e: Env, s: System) {
    && CommittedFirst(e, s.rcv, |e.sources|)
    && (s.rcv.phase.Finished?
        || (e.sources == [] && s.rcv == INITIAL && Queue(s) == [ManifestFrame(ManifestOf(e))]))
  }

  ghost predicate Inv(e: Env, s: System) {
    && ValidEnv(e) && WellFormed(e, s) && !s.lost && |Queue(s)| <= BUFFER_SLOTS
    && match s.snd
       case NotStarted => s == START
       case Streaming(f, a, n) => Live(e, s, f, a, n)
       case Awaiting(f, a) => Live(e, s, f, a, Total(e, f))
       case Done(r) => if r == TS.Success then Finale(e, s) else exists f: nat :: Abandoned(e, s, f)
  }

  lemma StreamGrows(e: Env, f: nat, a: nat, i: nat, j: nat)
    requires f < |e.sources| && i <= j < Total(e, f)
    ensures Stream(e, f, a, i, j + 1) == Stream(e, f, a, i, j) + [ChunkFrame(WireChunk(e, f, a, j))]
  {}

  lemma StreamShrinks(e: Env, f: nat, a: nat, i: nat, j: nat)
    requires f < |e.sources| && i < j <= Total(e, f)
    ensures Stream(e, f, a, i, j)[0] == ChunkFrame(WireChunk(e, f, a, i))
    ensures Stream(e, f, a, i, j)[1..] == Stream(e, f, a, i + 1, j)
  {}

  lemma QueueAfterTake(s: System)
    requires s.buf != []
    ensures Queue(s)[0] == s.buf[0] && Queue(s)[1..] == s.buf[1..] + s.net
  {}

  lemma LiveQueueFits(e: Env, s: System, f: nat, a: nat, n: nat)
    requires ValidEnv(e) && Live(e, s, f, a, n)
    ensures |Queue(s)| <= BUFFER_SLOTS
  {
    FileFacts(e, f);
  }

  // --- One lemma per step ---

  lemma SendManifestKeeps(e: Env, s: System)
    requires Inv(e, s) && Enabled(e, s, SendManifest)
    ensures Inv(e, Next(e, s, SendManifest))
  {
    var s' := Next(e, s, SendManifest);
    assert Queue(s') == [ManifestFrame(ManifestOf(e))];
    if e.sources != [] {
      assert Stream(e, 0, 0, 0, 0) == [];
      assert Opening(e, s', 0, 0, 0);
    }
  }

  lemma SendChunkKeepsLive(e: Env, s: System, f: nat, a: nat, n: nat)
    requires ValidEnv(e) && Live(e, s, f, a, n) && s.snd == TS.Streaming(f, a, n) && n < Total(e, f) && WellFormed(e, s)
    ensures Live(e, Next(e, s, SendChunk), f, a, n + 1)
  {
    var s' := Next(e, s, SendChunk);
    assert Queue(s') == Queue(s) + [ChunkFrame(WireChunk(e, f, a, n))];
    if Opening(e, s, f, a, n) {
      StreamGrows(e, 0, 0, 0, n);
      assert Opening(e, s', f, a, n + 1);
    } else if InStep(e, s, f, a, n) {
      StreamGrows(e, f, a, n - |Queue(s)|, n);
      assert InStep(e, s', f, a, n + 1);
    } else if Draining(e, s, f, a, n) {
      StreamGrows(e, f, 1, 0, n);
      assert Draining(e, s', f, a, n + 1);
    } else if Bounced(e, s, f, a, n) {
      StreamGrows(e, f, 0, n - |Queue(s)|, n);
      assert Bounced(e, s', f, a, n + 1);
    } else if Exhausted(e, s, f, a, n) {
      StreamGrows(e, f, 1, n - |Queue(s)|, n);
      assert Exhausted(e, s', f, a, n + 1);
    } else {
      assert Closed(e, s, f, a, n);
      assert Closed(e, s', f, a, n + 1);
    }
  }

  lemma ReadAfterBounce(e: Env, s: System, s': System, f: nat)
    requires ValidEnv(e) && f < |e.sources| && Position(e, s, f, 0, Total(e, f)) && Bounced(e, s, f, 0, Total(e, f))
    requires s' == s.(read := s.read + 1, snd := TS.Streaming(f, 1, 0))
    ensures Live(e, s', f, 1, 0)
  {
    var n := Total(e, f);
    assert Unread(s') == Unread(s)[1..] && Queue(s') == Queue(s);
    assert Stream(e, f, 1, 0, 0) == [];
    if |Queue(s)| == 0 {
      assert InStep(e, s', f, 1, 0);
    } else {
      assert Queue(s') == Stream(e, f, 0, n - |Queue(s)|, n) + Stream(e, f, 1, 0, 0);
      assert Draining(e, s', f, 1, 0);
    }
  }

  lemma ReadAfterDelivery(e: Env, s: System, s': System, f: nat, a: nat)
    requires ValidEnv(e) && f < |e.sources| && Position(e, s, f, a, Total(e, f)) && Delivered(e, s, f, a, Total(e, f))
    requires s' == s.(read := s.read + 1, snd := s'.snd)
    ensures f + 1 < |e.sources| ==> Live(e, s', f + 1, 0, 0)
    ensures f + 1 == |e.sources| ==> Finale(e, s')
  {
    assert Unread(s') == Unread(s)[1..] && Queue(s') == Queue(s);
    if f + 1 < |e.sources| {
      FileFacts(e, f + 1);
      assert Stream(e, f + 1, 0, 0, 0) == [];
      assert InStep(e, s', f + 1, 0, 0);
    }
  }

  lemma ReadAfterRefusal(e: Env, s: System, s': System, f: nat, a: nat)
    requires f < |e.sources| && Position(e, s, f, a, Total(e, f))
    requires Exhausted(e, s, f, a, Total(e, f)) || Closed(e, s, f, a, Total(e, f))
    requires s' == s.(read := s.read + 1, snd := s'.snd)
    ensures Abandoned(e, s', f)
  {
    assert Queue(s') == Queue(s);
  }

  lemma AckIsPending(e: Env, s: System, f: nat, a: nat, n: nat)
    requires Live(e, s, f, a, n) && Unread(s) != []
    ensures || Bounced(e, s, f, a, n) || Delivered(e, s, f, a, n)
            || Exhausted(e, s, f, a, n) || Closed(e, s, f, a, n)
  {}

  // What reading an ack makes of the sender, by the ack that is pending.
  lemma PendingAckDecides(e: Env, s: System, f: nat, a: nat)
    requires WellFormed(e, s) && s.snd == TS.Awaiting(f, a) && Live(e, s, f, a, Total(e, f)) && s.read < |s.rcv.acks|
    ensures var n := Total(e, f); var next := TS.AfterAck(e.sources, f, a, s.rcv.acks[s.read]);
            && (Bounced(e, s, f, a, n) ==> next == TS.Streaming(f, 1, 0))
            && (Delivered(e, s, f, a, n) ==>
                  next == if f + 1 < |e.sources| then TS.Streaming(f + 1, 0, 0) else TS.Done(TS.Success))
            && (Exhausted(e, s, f, a, n) ==> next == TS.Done(TS.Failed))
            && (Closed(e, s, f, a, n) ==> next == TS.Done(TS.PeerDeclined))
  {
    assert Unread(s)[0] == s.rcv.acks[s.read];
  }

  lemma ReadAckKeeps(e: Env, s: System)
    requires Inv(e, s) && Enabled(e, s, ReadAck)
    ensures Inv(e, Next(e, s, ReadAck))
  {
    var s' := Next(e, s, ReadAck);
    var f, a := s.snd.file, s.snd.attempt;
    var n := Total(e, f);
    assert Queue(s') == Queue(s);
    AckIsPending(e, s, f, a, n);
    PendingAckDecides(e, s, f, a);
    if Bounced(e, s, f, a, n) {
      ReadAfterBounce(e, s, s', f);
    } else if Delivered(e, s, f, a, n) {
      ReadAfterDelivery(e, s, s', f, a);
      if f + 1 < |e.sources| {
        FileFacts(e, f + 1);
      }
    } else {
      ReadAfterRefusal(e, s, s', f, a);
    }
  }

  lemma RouteKeeps(e: Env, s: System)
    requires Inv(e, s) && Enabled(e, s, Route)
    ensures Inv(e, Next(e, s, Route))
  {
    var s' := Next(e, s, Route);
    assert |s.buf| < BUFFER_SLOTS;
    assert Queue(s') == Queue(s);
    SameQueueSameInv(e, s, s');
  }

  lemma SameQueueSameInv(e: Env, s: System, s': System)
    requires Inv(e, s) && s != START
    requires s' == s.(net := s'.net, buf := s'.buf) && Queue(s') == Queue(s)
    ensures Inv(e, s')
  {
    match s.snd
    case Streaming(f, a, n) => SameQueueSameLive(e, s, s', f, a, n);
    case Awaiting(f, a) => SameQueueSameLive(e, s, s', f, a, Total(e, f));
    case Done(r) =>
      if r != TS.Success {
        var f: nat :| Abandoned(e, s, f);
        assert Abandoned(e, s', f);
      }
    case NotStarted =>
  }

  lemma SameQueueSameLive(e: Env, s: System, s': System, f: nat, a: nat, n: nat)
    requires Live(e, s, f, a, n)
    requires s' == s.(net := s'.net, buf := s'.buf) && Queue(s') == Queue(s)
    ensures Live(e, s', f, a, n)
  {
    assert Unread(s') == Unread(s);
  }

  lemma DiscardKeeps(e: Env, s: System)
    requires Inv(e, s) && Enabled(e, s, Discard)
    ensures Inv(e, Next(e, s, Discard))
  {
    var s' := Next(e, s, Discard);
    assert Unread(s') == Unread(s) && |Queue(s')| == |Queue(s)| - 1;
    match s.snd
    case Streaming(f, a, n) => DiscardKeepsLive(e, s, s', f, a, n);
    case Awaiting(f, a) => DiscardKeepsLive(e, s, s', f, a, Total(e, f));
    case Done(r) =>
      if r != TS.Success {
        var f: nat :| Abandoned(e, s, f);
        assert Abandoned(e, s', f);
      }
    case NotStarted =>
  }

  lemma DiscardKeepsLive(e: Env, s: System, s': System, f: nat, a: nat, n: nat)
    requires Live(e, s, f, a, n) && s.net != [] && s.rcv.phase.Finished?
    requires s' == s.(net := s.net[1..])
    ensures Live(e, s', f, a, n)
  {
    assert Unread(s') == Unread(s) && |Queue(s')| == |Queue(s)| - 1;
    if Exhausted(e, s, f, a, n) {
      assert Exhausted(e, s', f, a, n);
    } else {
      assert Closed(e, s, f, a, n);
      assert Closed(e, s', f, a, n);
    }
  }

  // A chunk of the current attempt has been handled by a receiver that was in step with it.
  ghost predicate Handled(e: Env, s: System, s': System, f: nat, a: nat, n: nat) {
    && ValidEnv(e) && Position(e, s, f, a, n) && InStep(e, s, f, a, n) && s.buf != []
    && s' == s.(buf := s.buf[1..], rcv := s'.rcv)
    && s'.read <= |s'.rcv.acks|
  }

  lemma HandledQueue(e: Env, s: System, s': System, f: nat, a: nat, n: nat)
    requires Handled(e, s, s', f, a, n)
    ensures n > n - |Queue(s)| && Queue(s') == Stream(e, f, a, n - |Queue(s)| + 1, n)
    ensures s.buf[0] == ChunkFrame(WireChunk(e, f, a, n - |Queue(s)|))
    ensures s'.rcv.acks == s.rcv.acks ==> Unread(s') == []
    ensures forall x :: s'.rcv.acks == s.rcv.acks + [x] ==> Unread(s') == [x]
  {
    QueueAfterTake(s);
    StreamShrinks(e, f, a, n - |Queue(s)|, n);
    assert s.rcv.acks[s.read..] == [];
  }

  lemma CommitExtends(e: Env, r: Receiver, r': Receiver, f: nat)
    requires ValidEnv(e) && f < |e.sources| && CommittedFirst(e, r, f)
    requires r'.disk.committed == r.disk.committed[e.sources[f].name := e.sources[f].content]
    ensures CommittedFirst(e, r', f + 1)
  {
    forall n | n in r'.disk.committed ensures exists i | 0 <= i < f + 1 :: e.sources[i].name == n {
      if n == e.sources[f].name {
      } else {
        var i :| 0 <= i < f && e.sources[i].name == n;
        assert 0 <= i < f + 1;
      }
    }
  }

  lemma HandledWell(e: Env, s: System, s': System, f: nat, a: nat, n: nat)
    requires Handled(e, s, s', f, a, n)
    requires Stored(e, s.rcv, s'.rcv, f, a, n - |Queue(s)|) || Verified(e, s.rcv, s'.rcv, f, n - |Queue(s)|)
    ensures Live(e, s', f, a, n)
  {
    HandledQueue(e, s, s', f, a, n);
    if Stored(e, s.rcv, s'.rcv, f, a, n - |Queue(s)|) {
      assert InStep(e, s', f, a, n);
    } else {
      CommitExtends(e, s.rcv, s'.rcv, f);
      assert Delivered(e, s', f, a, n);
    }
  }

  lemma HandledBadly(e: Env, s: System, s': System, f: nat, a: nat, n: nat)
    requires Handled(e, s, s', f, a, n)
    requires Refused(e, s.rcv, s'.rcv, f, a, n - |Queue(s)|) || Ended(e, s.rcv, s'.rcv, f, a)
    ensures Live(e, s', f, a, n)
  {
    HandledQueue(e, s, s', f, a, n);
    if Ended(e, s.rcv, s'.rcv, f, a) {
      assert Closed(e, s', f, a, n);
    } else if a == 0 {
      assert Bounced(e, s', f, a, n);
    } else {
      assert Exhausted(e, s', f, a, n);
    }
  }

  lemma TakeInStep(e: Env, s: System, s': System, f: nat, a: nat, n: nat, fault: Fault)
    requires ValidEnv(e) && WellFormed(e, s) && Position(e, s, f, a, n) && InStep(e, s, f, a, n)
    requires Enabled(e, s, Take(fault)) && s' == Next(e, s, Take(fault))
    ensures Live(e, s', f, a, n)
  {
    var k := n - |Queue(s)|;
    assert s.buf[0] == ChunkFrame(WireChunk(e, f, a, k)) by {
      HandledQueue(e, s, s.(buf := s.buf[1..]), f, a, n);
    }
    ChunkOutcome(e, s.rcv, s'.rcv, f, a, k, fault);
    if Stored(e, s.rcv, s'.rcv, f, a, k) || Verified(e, s.rcv, s'.rcv, f, k) {
      HandledWell(e, s, s', f, a, n);
    } else {
      HandledBadly(e, s, s', f, a, n);
    }
  }

  lemma TakeOpening(e: Env, s: System, s': System, f: nat, a: nat, n: nat, fault: Fault)
    requires ValidEnv(e) && WellFormed(e, s) && Position(e, s, f, a, n) && Opening(e, s, f, a, n)
    requires Enabled(e, s, Take(fault)) && s' == Next(e, s, Take(fault))
    ensures Live(e, s', f, a, n)
  {
    QueueAfterTake(s);
    assert Queue(s') == Stream(e, 0, 0, 0, n);
    if fault.dir {
      assert Unread(s') == [DECLINED];
      assert Closed(e, s', f, a, n);
    } else {
      assert Fresh(e, s'.rcv, 0);
      assert InStep(e, s', f, a, n);
    }
  }

  lemma DrainingAdvances(e: Env, s: System, s': System, f: nat, a: nat, n: nat)
    requires ValidEnv(e) && Position(e, s, f, a, n) && Draining(e, s, f, a, n) && s.buf != []
    requires s' == s.(buf := s.buf[1..])
    ensures s.buf[0] == ChunkFrame(WireChunk(e, f, 0, Total(e, f) + n - |Queue(s)|))
    ensures Live(e, s', f, a, n)
  {
    var k := Total(e, f) + n - |Queue(s)|;
    QueueAfterTake(s);
    StreamShrinks(e, f, 0, k, Total(e, f));
    assert Unread(s') == Unread(s);
    assert Queue(s') == Stream(e, f, 0, k + 1, Total(e, f)) + Stream(e, f, 1, 0, n);
    if k + 1 == Total(e, f) {
      assert Stream(e, f, 0, k + 1, Total(e, f)) == [];
      assert InStep(e, s', f, a, n);
    } else {
      assert Draining(e, s', f, a, n);
    }
  }

  lemma TakeDraining(e: Env, s: System, s': System, f: nat, a: nat, n: nat, fault: Fault)
    requires ValidEnv(e) && WellFormed(e, s) && Position(e, s, f, a, n) && Draining(e, s, f, a, n)
    requires Enabled(e, s, Take(fault)) && s' == Next(e, s, Take(fault))
    ensures Live(e, s', f, a, n)
  {
    DrainingAdvances(e, s, s.(buf := s.buf[1..]), f, a, n);
    StragglerIsSwallowed(e, s.rcv, f, 0, Total(e, f) + n - |Queue(s)|, fault);
  }

  lemma TakeBounced(e: Env, s: System, s': System, f: nat, a: nat, n: nat, fault: Fault)
    requires ValidEnv(e) && WellFormed(e, s) && Position(e, s, f, a, n) && Bounced(e, s, f, a, n)
    requires Enabled(e, s, Take(fault)) && s' == Next(e, s, Take(fault))
    ensures Live(e, s', f, a, n)
  {
    var k := n - |Queue(s)|;
    QueueAfterTake(s);
    StreamShrinks(e, f, 0, k, n);
    StragglerIsSwallowed(e, s.rcv, f, 0, k, fault);
    assert s'.rcv == s.rcv;
    assert Queue(s') == Stream(e, f, 0, k + 1, n);
    assert Bounced(e, s', f, a, n);
  }

  lemma TakeExhausted(e: Env, s: System, s': System, f: nat, k: nat, n: nat, fault: Fault)
    requires ValidEnv(e) && WellFormed(e, s) && f + 1 < |e.sources| && 0 < k <= n <= Total(e, f)
    requires Fresh(e, s.rcv, f + 1) && Queue(s) == Stream(e, f, 1, k, n)
    requires Enabled(e, s, Take(fault)) && s' == Next(e, s, Take(fault))
    ensures s'.rcv == Finish(Send(s.rcv, DECLINED), true) && |Queue(s')| == |Queue(s)| - 1
  {
    QueueAfterTake(s);
    StreamShrinks(e, f, 1, k, n);
    StragglerIsForeign(e, s.rcv, f, 1, k, fault);
  }

  lemma TakeKeepsLive(e: Env, s: System, s': System, f: nat, a: nat, n: nat, fault: Fault)
    requires ValidEnv(e) && WellFormed(e, s) && Live(e, s, f, a, n)
    requires Enabled(e, s, Take(fault)) && s' == Next(e, s, Take(fault))
    ensures Live(e, s', f, a, n)
  {
    if Opening(e, s, f, a, n) {
      TakeOpening(e, s, s', f, a, n, fault);
    } else if InStep(e, s, f, a, n) {
      TakeInStep(e, s, s', f, a, n, fault);
    } else if Draining(e, s, f, a, n) {
      TakeDraining(e, s, s', f, a, n, fault);
    } else if Bounced(e, s, f, a, n) {
      TakeBounced(e, s, s', f, a, n, fault);
    } else {
      assert Exhausted(e, s, f, a, n);
      TakeExhausted(e, s, s', f, n - |Queue(s)|, n, fault);
      assert Unread(s') == Unread(s) + [DECLINED];
      assert Exhausted(e, s', f, a, n);
    }
  }

  // With nothing left to send, the receiver's remaining work changes no committed file.
  lemma TakeKeepsDone(e: Env, s: System, s': System, fault: Fault)
    requires Inv(e, s) && s.snd.Done?
    requires Enabled(e, s, Take(fault)) && s' == Next(e, s, Take(fault))
    ensures Inv(e, s')
  {
    QueueAfterTake(s);
    if s.snd.result == TS.Success {
      assert s.rcv == INITIAL && s.buf[0] == ManifestFrame(ManifestOf(e));
      assert Finale(e, s');
    } else {
      var f: nat :| Abandoned(e, s, f);
      TakeExhausted(e, s, s', f, Total(e, f) - |Queue(s)|, Total(e, f), fault);
      assert Abandoned(e, s', f);
    }
  }

  lemma TakeKeeps(e: Env, s: System, fault: Fault)
    requires Inv(e, s) && Enabled(e, s, Take(fault))
    ensures Inv(e, Next(e, s, Take(fault)))
  {
    var s' := Next(e, s, Take(fault));
    match s.snd
    case Streaming(f, a, n) =>
      TakeKeepsLive(e, s, s', f, a, n, fault);
      LiveQueueFits(e, s', f, a, n);
    case Awaiting(f, a) =>
      TakeKeepsLive(e, s, s', f, a, Total(e, f), fault);
      LiveQueueFits(e, s', f, a, Total(e, f));
    case NotStarted =>
    case Done(r) => TakeKeepsDone(e, s, s', fault);
  }

  lemma StepKeepsInv(e: Env, s: System, st: Step)
    requires Inv(e, s) && Enabled(e, s, st)
    ensures Inv(e, Next(e, s, st))
  {
    match st
    case SendManifest => SendManifestKeeps(e, s);
    case SendChunk =>
      SendChunkKeepsLive(e, s, s.snd.file, s.snd.attempt, s.snd.next);
      LiveQueueFits(e, Next(e, s, st), s.snd.file, s.snd.attempt, s.snd.next + 1);
    case ReadAck => ReadAckKeeps(e, s);
    case Route => RouteKeeps(e, s);
    case Discard => DiscardKeeps(e, s);
    case Take(fault) => TakeKeeps(e, s, fault);
  }
}
