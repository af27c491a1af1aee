/** The receiving half of the report transfer.

    `Receive` handles one inbound frame, `RunReceiver` folds it over everything the
    channel delivers, and the class `ReportReceiver` is the loop of
    internal/reporting/transfer_recv.go proved to compute exactly that fold. The lemmas
    hold for every frame sequence, however hostile, and every local failure. */
module TransferReceiver {
  import opened Wrappers
  import opened Transfer

  type Digest = seq<byte> -> string

  datatype PartWriter = PartWriter(name: string, bytes: seq<byte>)

  // What the report directory holds: renamed final files and <name>.part files.
  datatype Disk = Disk(committed: map<string, seq<byte>>, parts: map<string, seq<byte>>)

  datatype Phase = AwaitManifest | Receiving(index: nat) | Finished(failed: bool)

  datatype Receiver = Receiver(
    phase: Phase,
    files: seq<TransferFile>,
    writer: Option<PartWriter>,
    draining: bool,
    rejections: nat,
    disk: Disk,
    acks: seq<Ack>)

  const INITIAL: Receiver :=
    Receiver(AwaitManifest, [], None, false, 0, Disk(map[], map[]), [])

  datatype Input = RecvError | Got(frame: Frame)

  // Which local operations fail while one frame is handled.
  datatype Fault = Fault(dir: bool, open: bool, write: bool, commit: bool, ack: bool)

  // The entry being received exists.
  predicate Indexed(r: Receiver) { r.phase.Receiving? ==> r.phase.index < |r.files| }

  const NO_FAULT: Fault := Fault(false, false, false, false, false)

  function Cleanup(r: Receiver): Receiver {
    if r.writer.None? then r
    else r.(writer := None, disk := r.disk.(parts := r.disk.parts - {r.writer.value.name}))
  }

  function Finish(r: Receiver, failed: bool): Receiver { r.(phase := Finished(failed)) }

  function Send(r: Receiver, a: Ack): Receiver { r.(acks := r.acks + [a]) }

  // Locals of a fresh receiveOneFile call, or the end of the manifest.
  function BeginFile(r: Receiver, index: nat): Receiver {
    if index < |r.files| then r.(phase := Receiving(index), draining := false, rejections := 0)
    else Finish(r, false)
  }

  // A manifest-level refusal; the return value is `failed` when the ack itself got out.
  function Decline(r: Receiver, fault: Fault, failed: bool): Receiver {
    if fault.ack then Finish(r, true) else Finish(Send(r, DECLINED), failed)
  }

  function Reject(r: Receiver, index: nat, fault: Fault): (next: Receiver)
    requires index < |r.files| && Indexed(r)
    ensures Indexed(next)
  {
    var r := Cleanup(r).(draining := true, rejections := r.rejections + 1);
    if fault.ack then Finish(r, true)
    else
      var r := Send(r, Rejected(r.files[index].name));
      if r.rejections > MAX_FILE_RETRIES then BeginFile(r, index + 1) else r
  }

  function OpenPart(r: Receiver, name: string): Receiver {
    r.(writer := Some(PartWriter(name, [])), disk := r.disk.(parts := r.disk.parts[name := []]))
  }

  function WritePart(r: Receiver, data: seq<byte>): Receiver
    requires r.writer.Some?
  {
    var w := r.writer.value.(bytes := r.writer.value.bytes + data);
    r.(writer := Some(w), disk := r.disk.(parts := r.disk.parts[w.name := w.bytes]))
  }

  function CommitPart(r: Receiver): Receiver
    requires r.writer.Some?
  {
    var w := r.writer.value;
    r.(writer := None,
       disk := Disk(r.disk.committed[w.name := w.bytes], r.disk.parts - {w.name}))
  }

  function HandleManifest(r: Receiver, m: Manifest, fault: Fault): Receiver {
    if !Acceptable(m) || fault.dir then Decline(r, fault, false)
    else BeginFile(r.(files := m.files), 0)
  }

  // The last chunk was written: verify, then commit and ack, or reject the attempt.
  function Conclude(r: Receiver, index: nat, fault: Fault, digest: Digest): (next: Receiver)
    requires index < |r.files| && Indexed(r) && r.writer.Some?
    ensures Indexed(next)
  {
    var f, w := r.files[index], r.writer.value;
    if |w.bytes| != f.size || digest(w.bytes) != f.sha256 then Reject(r, index, fault)
    else if fault.commit then Decline(Cleanup(r), fault, true)
    else
      var r := CommitPart(r);
      if fault.ack then Finish(r, true) else BeginFile(Send(r, Accepted(f.name)), index + 1)
  }

  // An in-sequence chunk: size fences first, then the write.
  function Store(r: Receiver, index: nat, c: Chunk, fault: Fault, digest: Digest): (next: Receiver)
    requires index < |r.files| && Indexed(r) && r.writer.Some?
    ensures Indexed(next)
  {
    if |c.data| > CHUNK_SIZE || |r.writer.value.bytes| + |c.data| > r.files[index].size || fault.write then
      Decline(Cleanup(r), fault, true)
    else
      var r := WritePart(r, c.data);
      if c.last then Conclude(r, index, fault, digest) else r
  }

  predicate IsRestart(c: Chunk) { c.index == 0 && c.offset == 0 }

  function HandleChunk(r: Receiver, index: nat, c: Chunk, fault: Fault, digest: Digest): (next: Receiver)
    requires index < |r.files| && Indexed(r)
    ensures Indexed(next)
  {
    if r.draining && !IsRestart(c) then r
    else if c.name != r.files[index].name || !SafeReportName(c.name) then
      Decline(Cleanup(r), fault, true)
    else if IsRestart(c) && fault.open then
      Decline(Cleanup(r).(draining := false), fault, true)
    else
      var r := if IsRestart(c) then OpenPart(Cleanup(r).(draining := false), c.name) else r;
      if r.writer.None? || c.offset != |r.writer.value.bytes| then Reject(r, index, fault)
      else Store(r, index, c, fault, digest)
  }

  function Receive(r: Receiver, input: Input, fault: Fault, digest: Digest): (next: Receiver)
    requires Indexed(r)
    ensures Indexed(next)
    ensures input.RecvError? ==> next.phase.Finished?
  {
    match r.phase
    case Finished(_) => r
    case AwaitManifest =>
      if input.RecvError? || input.frame.ChunkFrame? then Finish(r, true)
      else HandleManifest(r, input.frame.manifest, fault)
    case Receiving(index) =>
      if input.RecvError? || input.frame.ManifestFrame? then Finish(Cleanup(r), true)
      else HandleChunk(r, index, input.frame.chunk, fault, digest)
  }

  // --- What one chunk comes to ---

  // A chunk of a doomed attempt is swallowed until the file restarts.
  predicate Swallowed(r: Receiver, c: Chunk) { r.draining && !(c.index == 0 && c.offset == 0) }

  predicate Foreign(f: TransferFile, c: Chunk) { c.name != f.name || !SafeReportName(c.name) }

  // The chunk continues what is on disk, or starts the file over.
  predicate InSequence(r: Receiver, c: Chunk) {
    (c.index == 0 && c.offset == 0) || (r.writer.Some? && c.offset == |r.writer.value.bytes|)
  }

  // The file's bytes with this chunk added.
  function Grown(r: Receiver, c: Chunk): seq<byte>
    requires InSequence(r, c)
  {
    if c.index == 0 && c.offset == 0 then c.data else r.writer.value.bytes + c.data
  }

  predicate Fits(r: Receiver, f: TransferFile, c: Chunk)
    requires InSequence(r, c)
  { |c.data| <= 256 * 1024 && |Grown(r, c)| <= f.size }

  predicate Exact(r: Receiver, f: TransferFile, c: Chunk, digest: Digest)
    requires InSequence(r, c)
  { |Grown(r, c)| == f.size && digest(Grown(r, c)) == f.sha256 }

  lemma NoBytesYet(s: seq<byte>)
    ensures [] + s == s
  {}

  /** With a working disk and channel, each chunk is answered for exactly one reason: a decline for a
      foreign name or an oversize chunk, a rejection for a gap or a finished file that does not
      verify, an acceptance for one that does, and silence otherwise. */
  lemma ChunkVerdict(r: Receiver, index: nat, c: Chunk, digest: Digest)
    requires r.phase == Receiving(index) && index < |r.files|
    ensures var f := r.files[index]; var next := HandleChunk(r, index, c, NO_FAULT, digest);
            var counts := !Swallowed(r, c);
            var ours := !Foreign(f, c) && InSequence(r, c);
            && (next.acks == r.acks + [DECLINED] <==> counts && (Foreign(f, c) || (InSequence(r, c) && !Fits(r, f, c))))
            && (next.acks == r.acks + [Rejected(f.name)]
                <==> counts && !Foreign(f, c) && (!InSequence(r, c) || (Fits(r, f, c) && c.last && !Exact(r, f, c, digest))))
            && (next.acks == r.acks + [Accepted(f.name)]
                <==> counts && ours && Fits(r, f, c) && c.last && Exact(r, f, c, digest))
            && (next.acks == r.acks <==> !counts || (ours && Fits(r, f, c) && !c.last))
  {
    NoBytesYet(c.data);
    var f := r.files[index];
    var next := HandleChunk(r, index, c, NO_FAULT, digest);
    if Swallowed(r, c) {
      assert next == r;
    } else if Foreign(f, c) {
      assert next.acks == r.acks + [DECLINED];
    } else if !InSequence(r, c) {
      assert next.acks == r.acks + [Rejected(f.name)];
    } else if !Fits(r, f, c) {
      assert next.acks == r.acks + [DECLINED];
    } else if !c.last {
      assert next.acks == r.acks;
    } else if Exact(r, f, c, digest) {
      assert next.acks == r.acks + [Accepted(f.name)];
    } else {
      assert next.acks == r.acks + [Rejected(f.name)];
    }
    AcksDiffer(r.acks, f.name);
  }

  // The receiver is done with the file: on to the next, or finished.
  predicate MovedOn(r: Receiver, next: Receiver, index: nat) {
    next.phase == if index + 1 < |r.files| then Receiving(index + 1) else Finished(false)
  }

  // The writer, if any, is the current file's.
  predicate OwnPart(r: Receiver, index: nat) {
    && r.phase == Receiving(index) && index < |r.files|
    && (r.writer.Some? ==> r.writer.value.name == r.files[index].name)
  }

  /** A decline ends everything and keeps only what was committed before. */
  lemma DeclinedChunkEnds(r: Receiver, index: nat, c: Chunk, digest: Digest)
    requires OwnPart(r, index) && !Swallowed(r, c)
    requires Foreign(r.files[index], c) || (InSequence(r, c) && !Fits(r, r.files[index], c))
    ensures var next := HandleChunk(r, index, c, NO_FAULT, digest);
            next.phase == Finished(true) && next.writer.None? && next.disk.committed == r.disk.committed
  {
    NoBytesYet(c.data);
  }

  predicate RetriedOnce(r: Receiver, next: Receiver, index: nat) {
    && next.writer.None? && next.disk.committed == r.disk.committed
    && (if r.rejections == 0 then next.phase == r.phase && next.draining && next.rejections == 1
        else MovedOn(r, next, index))
  }

  lemma RejectRetriesOnce(r: Receiver, index: nat)
    requires r.phase == Receiving(index) && index < |r.files|
    ensures RetriedOnce(r, Reject(r, index, NO_FAULT), index)
  {}

  // The chunk written after what the file holds so far.
  function Written(r: Receiver, c: Chunk): Receiver
    requires InSequence(r, c)
  {
    WritePart(if IsRestart(c) then OpenPart(Cleanup(r).(draining := false), c.name) else r, c.data)
  }

  lemma WrittenGrows(r: Receiver, index: nat, c: Chunk)
    requires OwnPart(r, index) && InSequence(r, c)
    ensures var w := Written(r, c);
            && w.phase == r.phase && w.files == r.files && w.rejections == r.rejections
            && w.disk.committed == r.disk.committed && w.writer.Some? && w.writer.value.bytes == Grown(r, c)
  {
    NoBytesYet(c.data);
  }

  /** The first rejection leaves the file open for a retry, the second moves on; neither leaves
      anything of the attempt. */
  lemma RejectedChunkRetriesOnce(r: Receiver, index: nat, c: Chunk, digest: Digest)
    requires OwnPart(r, index) && !Swallowed(r, c) && !Foreign(r.files[index], c)
    requires !InSequence(r, c) || (Fits(r, r.files[index], c) && c.last && !Exact(r, r.files[index], c, digest))
    ensures RetriedOnce(r, HandleChunk(r, index, c, NO_FAULT, digest), index)
  {
    if !InSequence(r, c) {
      RejectRetriesOnce(r, index);
    } else {
      WrittenGrows(r, index, c);
      RejectRetriesOnce(Written(r, c), index);
      assert HandleChunk(r, index, c, NO_FAULT, digest) == Reject(Written(r, c), index, NO_FAULT);
    }
  }

  /** An accepted file is committed with exactly the bytes that arrived. */
  lemma AcceptedChunkCommits(r: Receiver, index: nat, c: Chunk, digest: Digest)
    requires OwnPart(r, index) && !Swallowed(r, c) && !Foreign(r.files[index], c)
    requires InSequence(r, c) && Fits(r, r.files[index], c) && c.last && Exact(r, r.files[index], c, digest)
    ensures var name := r.files[index].name; var next := HandleChunk(r, index, c, NO_FAULT, digest);
            && next.disk.committed == r.disk.committed[name := Grown(r, c)] && name !in next.disk.parts
            && MovedOn(r, next, index)
  {
    NoBytesYet(c.data);
  }

  /** An unfinished file is its own .part. */
  lemma UnfinishedChunkIsKept(r: Receiver, index: nat, c: Chunk, digest: Digest)
    requires OwnPart(r, index) && !Swallowed(r, c) && !Foreign(r.files[index], c)
    requires InSequence(r, c) && Fits(r, r.files[index], c) && !c.last
    ensures var name := r.files[index].name; var next := HandleChunk(r, index, c, NO_FAULT, digest);
            && next.phase == r.phase && next.disk.committed == r.disk.committed && !next.draining
            && name in next.disk.parts && next.disk.parts[name] == Grown(r, c)
  {
    NoBytesYet(c.data);
  }

  /** The opening: an unacceptable manifest or an unwritable directory is declined without an error,
      a chunk first is an error, and an acceptable manifest opens its first file. */
  lemma OpeningVerdict(input: Input, fault: Fault, digest: Digest)
    requires !fault.ack
    ensures var next := Receive(INITIAL, input, fault, digest);
            if input.RecvError? || input.frame.ChunkFrame? then next.phase == Finished(true) && next.acks == []
            else if !Acceptable(input.frame.manifest) || fault.dir then next.phase == Finished(false) && next.acks == [DECLINED]
            else
              && next.acks == [] && next.files == input.frame.manifest.files
              && next.phase == if next.files == [] then Finished(false) else Receiving(0)
  {}

  /** A local failure to open, write or commit declines the transfer and returns an error; an ack that
      cannot be written returns one too, and nothing partial stays. */
  lemma LocalFailuresEndIt(r: Receiver, index: nat, c: Chunk, fault: Fault, digest: Digest)
    requires r.phase == Receiving(index) && index < |r.files| && !Swallowed(r, c) && !Foreign(r.files[index], c)
    requires InSequence(r, c) && Fits(r, r.files[index], c)
    requires (fault.open && IsRestart(c)) || fault.write || (fault.commit && c.last && Exact(r, r.files[index], c, digest))
    ensures var next := HandleChunk(r, index, c, fault, digest);
            && next.phase == Finished(true) && next.writer.None? && next.disk.committed == r.disk.committed
            && next.acks == r.acks + (if fault.ack then [] else [DECLINED])
  {
    NoBytesYet(c.data);
    assert r.acks + [] == r.acks;
  }

  lemma AcksDiffer(acks: seq<Ack>, name: string)
    ensures acks + [DECLINED] != acks + [Rejected(name)] && acks + [DECLINED] != acks + [Accepted(name)]
    ensures acks + [Rejected(name)] != acks + [Accepted(name)]
    ensures acks + [DECLINED] != acks && acks + [Rejected(name)] != acks && acks + [Accepted(name)] != acks
  {
    assert (acks + [DECLINED])[|acks|] == DECLINED && (acks + [Rejected(name)])[|acks|] == Rejected(name);
    assert (acks + [Accepted(name)])[|acks|] == Accepted(name);
  }

  type Script = seq<(Input, Fault)>

  /** Everything the channel delivers, then its closing error. */
  function RunReceiver(r: Receiver, script: Script, digest: Digest): (end: Receiver)
    requires Indexed(r)
    ensures end.phase.Finished?
    decreases |script|
  {
    if r.phase.Finished? then r
    else if script == [] then Receive(r, RecvError, NO_FAULT, digest)
    else
      var next := Receive(r, script[0].0, script[0].1, digest);
      RunReceiver(next, script[1..], digest)
  }

  // --- What every reachable receiver state satisfies ---

  // The bytes stored under the allowlisted names (no other name is ever stored).
  function StoredBytes(stored: map<string, seq<byte>>, k: nat): nat
    requires k <= |ALLOWED_FILES|
  {
    if k == 0 then 0
    else StoredBytes(stored, k - 1)
         + (if ALLOWED_FILES[k - 1] in stored then |stored[ALLOWED_FILES[k - 1]]| else 0)
  }

  function DiskBytes(d: Disk): nat {
    StoredBytes(d.committed, |ALLOWED_FILES|) + StoredBytes(d.parts, |ALLOWED_FILES|)
  }

  function EntriesNamed(files: seq<TransferFile>, name: string): nat {
    if files == [] then 0
    else EntriesNamed(files[..|files| - 1], name) + (if files[|files| - 1].name == name then 1 else 0)
  }

  function RejectsOf(acks: seq<Ack>, name: string): nat {
    if acks == [] then 0
    else RejectsOf(acks[..|acks| - 1], name) + (if acks[|acks| - 1] == Rejected(name) then 1 else 0)
  }

  // Index of the manifest entry being received; all of them once finished.
  function Reached(r: Receiver): nat {
    match r.phase
    case AwaitManifest => 0
    case Receiving(i) => i
    case Finished(_) => |r.files|
  }

  // Each committed file is some manifest entry, byte for byte of that size and digest.
  ghost predicate CommittedMatch(r: Receiver, digest: Digest) {
    forall n | n in r.disk.committed ::
      SafeReportName(n) && exists i | 0 <= i < |r.files| ::
        && r.files[i].name == n
        && |r.disk.committed[n]| == r.files[i].size
        && digest(r.disk.committed[n]) == r.files[i].sha256
  }

  // A .part exists exactly while its writer is open, and never outgrows its entry.
  predicate PartsMatch(r: Receiver) {
    match r.writer
    case None => r.disk.parts == map[]
    case Some(w) =>
      && r.disk.parts == map[w.name := w.bytes]
      && r.phase.Receiving? && r.phase.index < |r.files|
      && w.name == r.files[r.phase.index].name
      && |w.bytes| <= r.files[r.phase.index].size
      && !r.draining
  }

  // Bytes committed so far fit the entries already passed.
  predicate WithinBudget(r: Receiver) {
    && Reached(r) <= |r.files|
    && StoredBytes(r.disk.committed, |ALLOWED_FILES|) <= SumSizes(r.files[..Reached(r)])
  }

  // Rejecting acks are bounded by two per manifest entry passed.
  ghost predicate RejectsBounded(r: Receiver) {
    && Reached(r) <= |r.files|
    && (r.phase.Receiving? ==>
          r.phase.index < |r.files| && r.rejections <= MAX_FILE_RETRIES)
    && forall n: string :: RejectsOf(r.acks, n) <=
         2 * EntriesNamed(r.files[..Reached(r)], n)
         + (if r.phase.Receiving? && r.files[r.phase.index].name == n then r.rejections else 0)
  }

  // A decline is always the last ack, and only a finished receiver has sent one.
  predicate DeclineIsFinal(r: Receiver) {
    forall i | 0 <= i < |r.acks| && r.acks[i].declined :: i == |r.acks| - 1 && r.phase.Finished?
  }

  ghost predicate Invariant(r: Receiver, digest: Digest) {
    && (r.phase.AwaitManifest? ==> r == INITIAL)
    && Acceptable(Manifest(r.files, 0))
    && CommittedMatch(r, digest)
    && PartsMatch(r)
    && WithinBudget(r)
    && RejectsBounded(r)
    && DeclineIsFinal(r)
  }

  // The state between two files or right after a cleanup: nothing partial anywhere.
  ghost predicate AtRest(r: Receiver, index: nat, digest: Digest) {
    && index < |r.files| && r.rejections <= MAX_FILE_RETRIES + 1
    && Acceptable(Manifest(r.files, 0))
    && CommittedMatch(r, digest)
    && r.writer.None? && r.disk.parts == map[]
    && StoredBytes(r.disk.committed, |ALLOWED_FILES|) <= SumSizes(r.files[..index + 1])
    && (forall n: string :: RejectsOf(r.acks, n) <=
          2 * EntriesNamed(r.files[..index], n) + (if r.files[index].name == n then r.rejections else 0))
    && (forall i | 0 <= i < |r.acks| :: !r.acks[i].declined)
  }

  lemma PrefixesGrow(files: seq<TransferFile>, i: nat, j: nat)
    requires i <= j <= |files|
    requires forall k | 0 <= k < |files| :: files[k].size >= 0
    ensures SumSizes(files[..i]) <= SumSizes(files[..j])
    ensures forall n: string :: EntriesNamed(files[..i], n) <= EntriesNamed(files[..j], n)
    decreases j
  {
    if i < j {
      PrefixesGrow(files, i, j - 1);
      assert files[..j][..j - 1] == files[..j - 1];
    }
  }

  lemma NextPrefix(files: seq<TransferFile>, i: nat)
    requires i < |files|
    ensures SumSizes(files[..i + 1]) == SumSizes(files[..i]) + files[i].size
    ensures forall n: string :: EntriesNamed(files[..i + 1], n) ==
                        EntriesNamed(files[..i], n) + (if files[i].name == n then 1 else 0)
  {
    assert files[..i + 1][..i] == files[..i];
  }

  lemma SentAck(r: Receiver, a: Ack)
    ensures forall n: string :: RejectsOf(Send(r, a).acks, n) ==
                        RejectsOf(r.acks, n) + (if a == Rejected(n) then 1 else 0)
  {
    assert (r.acks + [a])[..|r.acks|] == r.acks;
  }

  lemma WholeFiles(files: seq<TransferFile>)
    ensures files[..|files|] == files
  {}

  lemma RestedMayFinish(r: Receiver, index: nat, failed: bool, digest: Digest)
    requires AtRest(r, index, digest)
    ensures Invariant(Finish(r, failed), digest)
  {
    NextPrefix(r.files, index);
    PrefixesGrow(r.files, index, |r.files|);
    PrefixesGrow(r.files, index + 1, |r.files|);
    WholeFiles(r.files);
  }

  lemma RestedMayDecline(r: Receiver, index: nat, fault: Fault, failed: bool, digest: Digest)
    requires AtRest(r, index, digest)
    ensures Invariant(Decline(r, fault, failed), digest)
  {
    RestedMayFinish(r, index, true, digest);
    RestedMayFinish(r, index, failed, digest);
    SentAck(r, DECLINED);
  }

  lemma RestedMayMoveOn(r: Receiver, index: nat, digest: Digest)
    requires AtRest(r, index, digest)
    ensures Invariant(BeginFile(r, index + 1), digest)
  {
    NextPrefix(r.files, index);
    PrefixesGrow(r.files, index, index + 1);
    if index + 1 == |r.files| {
      RestedMayFinish(r, index, false, digest);
    }
  }

  lemma CleanupRests(r: Receiver, digest: Digest)
    requires Invariant(r, digest) && r.phase.Receiving?
    ensures AtRest(Cleanup(r), r.phase.index, digest)
    ensures StoredBytes(Cleanup(r).disk.committed, |ALLOWED_FILES|) <= SumSizes(r.files[..r.phase.index])
  {
    NextPrefix(r.files, r.phase.index);
    if r.writer.Some? {
      assert Cleanup(r).disk.parts == map[];
    }
  }

  lemma RestedMayContinue(r: Receiver, index: nat, digest: Digest)
    requires AtRest(r, index, digest) && r.phase == Receiving(index)
    requires r.rejections <= MAX_FILE_RETRIES
    requires StoredBytes(r.disk.committed, |ALLOWED_FILES|) <= SumSizes(r.files[..index])
    ensures Invariant(r, digest)
  {}

  lemma RejectRests(r: Receiver, index: nat, digest: Digest)
    requires AtRest(r, index, digest) && r.rejections <= MAX_FILE_RETRIES
    ensures var held := r.(draining := true, rejections := r.rejections + 1);
            AtRest(held, index, digest) && AtRest(Send(held, Rejected(r.files[index].name)), index, digest)
  {
    SentAck(r, Rejected(r.files[index].name));
  }

  lemma RejectKeepsInvariant(r: Receiver, fault: Fault, digest: Digest)
    requires Invariant(r, digest) && r.phase.Receiving?
    ensures Invariant(Reject(r, r.phase.index, fault), digest)
  {
    var index := r.phase.index;
    var held := Cleanup(r).(draining := true, rejections := r.rejections + 1);
    CleanupRests(r, digest);
    RejectRests(Cleanup(r), index, digest);
    if fault.ack {
      RestedMayFinish(held, index, true, digest);
    } else {
      var sent := Send(held, Rejected(r.files[index].name));
      if sent.rejections > MAX_FILE_RETRIES {
        RestedMayMoveOn(sent, index, digest);
      } else {
        RestedMayContinue(sent, index, digest);
      }
    }
  }

  lemma StoreUnder(stored: map<string, seq<byte>>, name: string, bytes: seq<byte>, k: nat)
    requires k <= |ALLOWED_FILES|
    ensures StoredBytes(stored[name := bytes], k) <= StoredBytes(stored, k) + |bytes|
    ensures name !in ALLOWED_FILES[..k] ==> StoredBytes(stored[name := bytes], k) == StoredBytes(stored, k)
  {
    if k > 0 {
      StoreUnder(stored, name, bytes, k - 1);
      assert ALLOWED_FILES[..k] == ALLOWED_FILES[..k - 1] + [ALLOWED_FILES[k - 1]];
      assert ALLOWED_FILES[k - 1] !in ALLOWED_FILES[..k - 1];
    }
  }

  lemma CommitRests(r: Receiver, digest: Digest)
    requires Invariant(r, digest) && r.phase.Receiving? && r.writer.Some?
    requires |r.writer.value.bytes| == r.files[r.phase.index].size
    requires digest(r.writer.value.bytes) == r.files[r.phase.index].sha256
    ensures AtRest(CommitPart(r), r.phase.index, digest)
  {
    var w := r.writer.value;
    StoreUnder(r.disk.committed, w.name, w.bytes, |ALLOWED_FILES|);
    NextPrefix(r.files, r.phase.index);
    assert CommitPart(r).disk.parts == map[];
    assert CommittedMatch(CommitPart(r), digest);
  }

  lemma ConcludeKeepsInvariant(r: Receiver, fault: Fault, digest: Digest)
    requires Invariant(r, digest) && r.phase.Receiving? && r.writer.Some?
    ensures Invariant(Conclude(r, r.phase.index, fault, digest), digest)
  {
    var index := r.phase.index;
    var f, w := r.files[index], r.writer.value;
    if |w.bytes| != f.size || digest(w.bytes) != f.sha256 {
      RejectKeepsInvariant(r, fault, digest);
    } else if fault.commit {
      CleanupRests(r, digest);
      RestedMayDecline(Cleanup(r), index, fault, true, digest);
    } else {
      var done := CommitPart(r);
      CommitRests(r, digest);
      if fault.ack {
        RestedMayFinish(done, index, true, digest);
      } else {
        SentAck(done, Accepted(f.name));
        assert AtRest(Send(done, Accepted(f.name)), index, digest);
        RestedMayMoveOn(Send(done, Accepted(f.name)), index, digest);
      }
    }
  }

  lemma StoreKeepsInvariant(r: Receiver, c: Chunk, fault: Fault, digest: Digest)
    requires Invariant(r, digest) && r.phase.Receiving? && r.writer.Some?
    ensures Invariant(Store(r, r.phase.index, c, fault, digest), digest)
  {
    var index := r.phase.index;
    if |c.data| > CHUNK_SIZE || |r.writer.value.bytes| + |c.data| > r.files[index].size || fault.write {
      CleanupRests(r, digest);
      RestedMayDecline(Cleanup(r), index, fault, true, digest);
    } else {
      var written := WritePart(r, c.data);
      assert Invariant(written, digest);
      if c.last {
        ConcludeKeepsInvariant(written, fault, digest);
      }
    }
  }

  lemma HandleChunkKeepsInvariant(r: Receiver, c: Chunk, fault: Fault, digest: Digest)
    requires Invariant(r, digest) && r.phase.Receiving?
    ensures Invariant(HandleChunk(r, r.phase.index, c, fault, digest), digest)
  {
    var index := r.phase.index;
    if r.draining && !IsRestart(c) {
    } else {
      CleanupRests(r, digest);
      if c.name != r.files[index].name || !SafeReportName(c.name) {
        RestedMayDecline(Cleanup(r), index, fault, true, digest);
      } else if IsRestart(c) && fault.open {
        RestedMayDecline(Cleanup(r).(draining := false), index, fault, true, digest);
      } else {
        var ready := if IsRestart(c) then OpenPart(Cleanup(r).(draining := false), c.name) else r;
        assert Invariant(ready, digest);
        if ready.writer.None? || c.offset != |ready.writer.value.bytes| {
          RejectKeepsInvariant(ready, fault, digest);
        } else {
          StoreKeepsInvariant(ready, c, fault, digest);
        }
      }
    }
  }

  lemma HandleManifestKeepsInvariant(m: Manifest, fault: Fault, digest: Digest)
    ensures Invariant(HandleManifest(INITIAL, m, fault), digest)
    ensures Invariant(Finish(INITIAL, true), digest)
  {
    NothingStored(|ALLOWED_FILES|);
    SentAck(INITIAL, DECLINED);
  }

  lemma ReceiveKeepsInvariant(r: Receiver, input: Input, fault: Fault, digest: Digest)
    requires Invariant(r, digest)
    ensures Invariant(Receive(r, input, fault, digest), digest)
  {
    match r.phase
    case Finished(_) =>
    case AwaitManifest =>
      if input.Got? && input.frame.ManifestFrame? {
        HandleManifestKeepsInvariant(input.frame.manifest, fault, digest);
      } else {
        HandleManifestKeepsInvariant(Manifest([], 0), fault, digest);
      }
    case Receiving(index) =>
      if input.Got? && input.frame.ChunkFrame? {
        HandleChunkKeepsInvariant(r, input.frame.chunk, fault, digest);
      } else {
        CleanupRests(r, digest);
        RestedMayFinish(Cleanup(r), index, true, digest);
      }
  }

  lemma NothingStored(k: nat)
    requires k <= |ALLOWED_FILES|
    ensures StoredBytes(map[], k) == 0
  {}

  // The receiver after any frame sequence, without the closing error.
  function After(script: Script, digest: Digest): (r: Receiver)
    ensures Indexed(r)
  {
    if script == [] then INITIAL
    else
      var last := |script| - 1;
      Receive(After(script[..last], digest), script[last].0, script[last].1, digest)
  }

  lemma {:induction false} AfterKeepsInvariant(script: Script, digest: Digest)
    ensures Invariant(After(script, digest), digest)
  {
    if script == [] {
      NothingStored(|ALLOWED_FILES|);
    } else {
      var last := |script| - 1;
      AfterKeepsInvariant(script[..last], digest);
      ReceiveKeepsInvariant(After(script[..last], digest), script[last].0, script[last].1, digest);
    }
  }

  lemma PartialBytesFit(r: Receiver, digest: Digest)
    requires Invariant(r, digest)
    ensures DiskBytes(r.disk) <= MAX_TOTAL_SIZE
  {
    PrefixesGrow(r.files, Reached(r), |r.files|);
    WholeFiles(r.files);
    NothingStored(|ALLOWED_FILES|);
    if r.writer.Some? {
      var w := r.writer.value;
      StoreUnder(map[], w.name, w.bytes, |ALLOWED_FILES|);
      NextPrefix(r.files, r.phase.index);
      PrefixesGrow(r.files, r.phase.index + 1, |r.files|);
    }
  }

  // Committed files are allowlisted and exactly some manifest entry's size and digest.
  predicate CommittedExactly(files: seq<TransferFile>, disk: Disk, digest: Digest) {
    forall n | n in disk.committed ::
      SafeReportName(n) && exists i | 0 <= i < |files| ::
        && files[i].name == n && |disk.committed[n]| == files[i].size
        && digest(disk.committed[n]) == files[i].sha256
  }

  // A .part belongs to an entry and never outgrows it.
  predicate PartsFit(files: seq<TransferFile>, disk: Disk) {
    forall n | n in disk.parts ::
      SafeReportName(n) && exists i | 0 <= i < |files| :: files[i].name == n && |disk.parts[n]| <= files[i].size
  }

  ghost predicate FewRejects(files: seq<TransferFile>, acks: seq<Ack>) {
    forall n: string :: RejectsOf(acks, n) <= 2 * EntriesNamed(files, n)
  }

  predicate DeclineIsLast(acks: seq<Ack>) { forall i | 0 <= i < |acks| && acks[i].declined :: i == |acks| - 1 }

  /** Against any frame sequence and any local failures, in every state reached: committed
      files are allowlisted and exactly their manifest entry's size and digest; a .part
      belongs to an entry and never outgrows it; committed plus partial bytes stay within
      the total cap; each manifest entry costs at most two rejecting acks; a decline is the
      last word; and a finished receiver left no .part behind. */
  lemma ReceiverIsSafe(script: Script, digest: Digest)
    ensures var r := After(script, digest);
            && CommittedExactly(r.files, r.disk, digest) && PartsFit(r.files, r.disk)
            && DiskBytes(r.disk) <= MAX_TOTAL_SIZE
            && FewRejects(r.files, r.acks)
            && DeclineIsLast(r.acks) && (r.acks != [] && r.acks[|r.acks| - 1].declined ==> r.phase.Finished?)
            && (r.phase.Finished? ==> r.disk.parts == map[])
  {
    var r := After(script, digest);
    AfterKeepsInvariant(script, digest);
    PartialBytesFit(r, digest);
    PrefixesGrow(r.files, Reached(r), |r.files|);
    WholeFiles(r.files);
    if r.phase.Receiving? {
      NextPrefix(r.files, r.phase.index);
      PrefixesGrow(r.files, r.phase.index + 1, |r.files|);
    }
  }

  // --- The two folds agree ---

  const HANG_UP: (Input, Fault) := (RecvError, NO_FAULT)

  lemma AfterOneMore(script: Script, step: (Input, Fault), digest: Digest)
    ensures After(script + [step], digest) == Receive(After(script, digest), step.0, step.1, digest)
  {
    assert (script + [step])[..|script|] == script;
  }

  lemma FinishedIgnores(r: Receiver, step: (Input, Fault), digest: Digest)
    requires r.phase.Finished?
    ensures Receive(r, step.0, step.1, digest) == r
  {}

  lemma SplitLast(script: Script, more: Script)
    requires more != []
    ensures script + more == script + more[..|more| - 1] + [more[|more| - 1]]
  {}

  lemma SplitFirst(script: Script, more: Script, end: Script)
    requires more != []
    ensures script + more + end == script + [more[0]] + more[1..] + end
  {}

  lemma {:induction false} FinishedStays(script: Script, more: Script, digest: Digest)
    requires After(script, digest).phase.Finished?
    ensures After(script + more, digest) == After(script, digest)
    decreases |more|
  {
    if more == [] {
      assert script + more == script;
    } else {
      var cut, last := more[..|more| - 1], more[|more| - 1];
      FinishedStays(script, cut, digest);
      AfterOneMore(script + cut, last, digest);
      FinishedIgnores(After(script, digest), last, digest);
      SplitLast(script, more);
    }
  }

  // One step of the running fold, by case.
  lemma RunOnce(r: Receiver, more: Script, digest: Digest)
    requires Indexed(r)
    ensures RunReceiver(r, more, digest) ==
            if r.phase.Finished? then r
            else if more == [] then Receive(r, RecvError, NO_FAULT, digest)
            else RunReceiver(Receive(r, more[0].0, more[0].1, digest), more[1..], digest)
  {}

  /** Running on from any state reached is reaching the state after everything delivered and the
      closing error. */
  lemma {:induction false} RunIsAfter(script: Script, more: Script, digest: Digest)
    ensures RunReceiver(After(script, digest), more, digest) == After(script + more + [HANG_UP], digest)
    decreases |more|
  {
    RunOnce(After(script, digest), more, digest);
    if After(script, digest).phase.Finished? {
      FinishedStays(script, more + [HANG_UP], digest);
      assert script + more + [HANG_UP] == script + (more + [HANG_UP]);
    } else if more == [] {
      assert script + more == script;
      AfterOneMore(script, HANG_UP, digest);
    } else {
      AfterOneMore(script, more[0], digest);
      RunIsAfter(script + [more[0]], more[1..], digest);
      SplitFirst(script, more, [HANG_UP]);
    }
  }

  // The entries the receiver works through: those of an acceptable opening manifest.
  function ManifestFiles(script: Script): seq<TransferFile> {
    if |script| > 0 && script[0].0.Got? && script[0].0.frame.ManifestFrame?
       && Acceptable(script[0].0.frame.manifest) && !script[0].1.dir
    then script[0].0.frame.manifest.files else []
  }

  // Once past the manifest, the entries never change.
  predicate SameFiles(r: Receiver, next: Receiver) { next.files == r.files && !next.phase.AwaitManifest? }

  lemma RejectKeepsFiles(r: Receiver, index: nat, fault: Fault)
    requires index < |r.files| && Indexed(r) && !r.phase.AwaitManifest?
    ensures SameFiles(r, Reject(r, index, fault))
  {
    var c := Cleanup(r);
    assert SameFiles(r, c);
  }

  lemma ConcludeKeepsFiles(r: Receiver, index: nat, fault: Fault, digest: Digest)
    requires index < |r.files| && Indexed(r) && r.writer.Some? && !r.phase.AwaitManifest?
    ensures SameFiles(r, Conclude(r, index, fault, digest))
  {
    RejectKeepsFiles(r, index, fault);
    assert SameFiles(r, Cleanup(r)) && SameFiles(r, CommitPart(r));
  }

  lemma StoreKeepsFiles(r: Receiver, index: nat, c: Chunk, fault: Fault, digest: Digest)
    requires index < |r.files| && Indexed(r) && r.writer.Some? && !r.phase.AwaitManifest?
    ensures SameFiles(r, Store(r, index, c, fault, digest))
  {
    assert SameFiles(r, Cleanup(r)) && SameFiles(r, WritePart(r, c.data));
    ConcludeKeepsFiles(WritePart(r, c.data), index, fault, digest);
  }

  lemma ChunkKeepsFiles(r: Receiver, index: nat, c: Chunk, fault: Fault, digest: Digest)
    requires index < |r.files| && Indexed(r) && !r.phase.AwaitManifest?
    ensures SameFiles(r, HandleChunk(r, index, c, fault, digest))
  {
    if r.draining && !IsRestart(c) {
    } else if c.name != r.files[index].name || !SafeReportName(c.name) || (IsRestart(c) && fault.open) {
      assert SameFiles(r, Cleanup(r));
    } else {
      var o := if IsRestart(c) then OpenPart(Cleanup(r).(draining := false), c.name) else r;
      assert SameFiles(r, o) && o.phase == r.phase;
      RejectKeepsFiles(o, index, fault);
      if o.writer.Some? {
        StoreKeepsFiles(o, index, c, fault, digest);
      }
    }
  }

  lemma {:induction false} RunKeepsFiles(r: Receiver, script: Script, digest: Digest)
    requires Indexed(r) && !r.phase.AwaitManifest?
    ensures RunReceiver(r, script, digest).files == r.files
    decreases |script|
  {
    if !r.phase.Finished? && script != [] {
      var (input, fault) := script[0];
      if input.Got? && input.frame.ChunkFrame? {
        ChunkKeepsFiles(r, r.phase.index, input.frame.chunk, fault, digest);
      }
      RunKeepsFiles(Receive(r, input, fault, digest), script[1..], digest);
    }
  }

  lemma RunWorksOnManifest(script: Script, digest: Digest)
    ensures RunReceiver(INITIAL, script, digest).files == ManifestFiles(script)
  {
    if script != [] {
      RunKeepsFiles(Receive(INITIAL, script[0].0, script[0].1, digest), script[1..], digest);
    }
  }

  /** What a returned receiver leaves behind, over the manifest it was sent. */
  lemma ReturnedReceiverIsSafe(script: Script, digest: Digest)
    ensures var r := RunReceiver(INITIAL, script, digest); var files := ManifestFiles(script);
            && CommittedExactly(files, r.disk, digest) && r.disk.parts == map[]
            && DiskBytes(r.disk) <= MAX_TOTAL_SIZE
            && FewRejects(files, r.acks) && DeclineIsLast(r.acks)
  {
    RunWorksOnManifest(script, digest);
    RunIsAfter([], script, digest);
    assert [] + script == script;
    ReceiverIsSafe(script + [HANG_UP], digest);
  }

  // --- The receiving loop itself ---

  // What the caller and the peer can see of a finished receiver.
  function Observe(r: Receiver): (Phase, Disk, seq<Ack>) { (r.phase, r.disk, r.acks) }

  lemma RunUnrolls(r: Receiver, script: Script, pos: nat, digest: Digest)
    requires Indexed(r)
    requires pos <= |script| && !r.phase.Finished?
    ensures pos < |script| ==>
              RunReceiver(r, script[pos..], digest) ==
              RunReceiver(Receive(r, script[pos].0, script[pos].1, digest), script[pos + 1..], digest)
    ensures pos == |script| ==>
              RunReceiver(r, script[pos..], digest) == Receive(r, RecvError, NO_FAULT, digest)
  {
    if pos < |script| {
      assert script[pos..][1..] == script[pos + 1..];
    }
  }

  lemma RunTakesChunk(r: Receiver, script: Script, pos: nat, index: nat, digest: Digest)
    requires r.phase == Receiving(index) && index < |r.files| && pos < |script|
    requires script[pos].0.Got? && script[pos].0.frame.ChunkFrame?
    ensures var next := HandleChunk(r, index, script[pos].0.frame.chunk, script[pos].1, digest);
            && RunReceiver(r, script[pos..], digest) == RunReceiver(next, script[pos + 1..], digest)
            && (next.phase.Finished? ==> RunReceiver(r, script[pos..], digest) == next)
  {
    RunUnrolls(r, script, pos, digest);
  }

  lemma RunFails(r: Receiver, script: Script, pos: nat, index: nat, digest: Digest)
    requires r.phase == Receiving(index) && index < |r.files| && pos <= |script|
    requires pos < |script| ==> script[pos].0.RecvError? || script[pos].0.frame.ManifestFrame?
    ensures RunReceiver(r, script[pos..], digest) == Finish(Cleanup(r), true)
  {
    RunUnrolls(r, script, pos, digest);
  }

  // How one iteration of receiveOneFile leaves the loop.
  datatype LoopExit = Continue | FileDone | Failed

  class ReportReceiver {
    const script: Script
    const digest: Digest
    var pos: nat
    var disk: Disk
    var acks: seq<Ack>
    // Locals of the receiveOneFile call in progress.
    var writer: Option<PartWriter>
    var draining: bool
    var rejections: nat

    constructor (script: Script, digest: Digest)
      ensures this.script == script && this.digest == digest && pos == 0
      ensures View(AwaitManifest, []) == INITIAL
    {
      this.script, this.digest := script, digest;
      pos, disk, acks := 0, INITIAL.disk, [];
      writer, draining, rejections := None, false, 0;
    }

    ghost function View(phase: Phase, files: seq<TransferFile>): Receiver
      reads this
    {
      Receiver(phase, files, writer, draining, rejections, disk, acks)
    }

    // `r` is where the specification is after an iteration that left the loop by `exit`.
    ghost predicate Tracks(r: Receiver, files: seq<TransferFile>, index: nat, exit: LoopExit)
      reads this
    {
      match exit
      case Continue => r == View(Receiving(index), files)
      case FileDone => r == BeginFile(View(Receiving(index), files), index + 1) && writer.None?
      case Failed => Observe(r) == (Finished(true), disk, acks)
    }

    // The channel: scripted frames, then an error for ever.
    method RecvFrame() returns (input: Input, fault: Fault)
      requires pos <= |script|
      modifies this`pos
      ensures old(pos) < |script| ==> pos == old(pos) + 1 && (input, fault) == script[old(pos)]
      ensures old(pos) == |script| ==> pos == old(pos) && input == RecvError && fault == NO_FAULT
    {
      if pos < |script| {
        input, fault := script[pos].0, script[pos].1;
        pos := pos + 1;
      } else {
        input, fault := RecvError, NO_FAULT;
      }
    }

    method SendAck(a: Ack, fault: Fault) returns (sent: bool)
      modifies this`acks
      ensures sent == !fault.ack
      ensures acks == if sent then old(acks) + [a] else old(acks)
    {
      sent := !fault.ack;
      if sent {
        acks := acks + [a];
      }
    }

    // partWriter.abort on the open writer, if any: nothing partial stays on disk.
    method CleanUp()
      modifies this`disk, this`writer
      ensures forall p, files :: View(p, files) == Cleanup(old(View(p, files)))
    {
      if writer.Some? {
        disk := disk.(parts := disk.parts - {writer.value.name});
        writer := None;
      }
    }

    method DeclineFatally(files: seq<TransferFile>, index: nat, fault: Fault) returns (exit: LoopExit)
      modifies this`disk, this`writer, this`acks
      ensures exit.Failed? && Tracks(Decline(Cleanup(old(View(Receiving(index), files))), fault, true), files, index, exit)
    {
      CleanUp();
      var _ := SendAck(DECLINED, fault);
      return Failed;
    }

    method RejectAttempt(files: seq<TransferFile>, index: nat, fault: Fault) returns (exit: LoopExit)
      requires index < |files|
      modifies this`disk, this`writer, this`acks, this`draining, this`rejections
      ensures Tracks(Reject(old(View(Receiving(index), files)), index, fault), files, index, exit)
    {
      CleanUp();
      draining, rejections := true, rejections + 1;
      var sent := SendAck(Rejected(files[index].name), fault);
      if !sent {
        return Failed;
      }
      return if rejections > MAX_FILE_RETRIES then FileDone else Continue;
    }

    method StoreChunk(files: seq<TransferFile>, index: nat, c: Chunk, fault: Fault) returns (exit: LoopExit)
      requires index < |files| && writer.Some?
      modifies this`disk, this`writer, this`acks, this`draining, this`rejections
      ensures Tracks(Store(old(View(Receiving(index), files)), index, c, fault, digest), files, index, exit)
    {
      var f := files[index];
      if |c.data| > CHUNK_SIZE || |writer.value.bytes| + |c.data| > f.size || fault.write {
        exit := DeclineFatally(files, index, fault);
        return;
      }
      writer := Some(writer.value.(bytes := writer.value.bytes + c.data));
      disk := disk.(parts := disk.parts[writer.value.name := writer.value.bytes]);
      if !c.last {
        return Continue;
      }
      if |writer.value.bytes| != f.size || digest(writer.value.bytes) != f.sha256 {
        exit := RejectAttempt(files, index, fault);
        return;
      }
      if fault.commit {
        exit := DeclineFatally(files, index, fault);
        return;
      }
      disk := Disk(disk.committed[writer.value.name := writer.value.bytes], disk.parts - {writer.value.name});
      writer := None;
      var sent := SendAck(Accepted(f.name), fault);
      return if sent then FileDone else Failed;
    }

    method TakeChunk(files: seq<TransferFile>, index: nat, c: Chunk, fault: Fault) returns (exit: LoopExit)
      requires index < |files|
      modifies this`disk, this`writer, this`acks, this`draining, this`rejections
      ensures Tracks(HandleChunk(old(View(Receiving(index), files)), index, c, fault, digest), files, index, exit)
    {
      var restart := c.index == 0 && c.offset == 0;
      if draining && !restart {
        return Continue;
      }
      if c.name != files[index].name || !SafeReportName(c.name) {
        exit := DeclineFatally(files, index, fault);
        return;
      }
      if restart {
        CleanUp();
        draining := false;
        if fault.open {
          exit := DeclineFatally(files, index, fault);
          return;
        }
        writer := Some(PartWriter(c.name, []));
        disk := disk.(parts := disk.parts[c.name := []]);
      }
      if writer.None? || c.offset != |writer.value.bytes| {
        exit := RejectAttempt(files, index, fault);
      } else {
        exit := StoreChunk(files, index, c, fault);
      }
    }

    // Where the specification ends when it continues from here.
    ghost function Ahead(files: seq<TransferFile>, index: nat, exit: LoopExit): (Phase, Disk, seq<Ack>)
      requires pos <= |script| && index < |files|
      reads this
    {
      match exit
      case Continue => Observe(RunReceiver(View(Receiving(index), files), script[pos..], digest))
      case FileDone => Observe(RunReceiver(BeginFile(View(Receiving(index), files), index + 1), script[pos..], digest))
      case Failed => (Finished(true), disk, acks)
    }

    // One iteration of the chunk loop.
    method ReceiveNext(files: seq<TransferFile>, index: nat) returns (exit: LoopExit)
      requires pos <= |script| && index < |files|
      modifies this
      ensures pos <= |script| && (exit.Continue? ==> old(pos) < pos)
      ensures exit.FileDone? ==> writer.None?
      ensures Ahead(files, index, exit) == old(Ahead(files, index, Continue))
    {
      ghost var here := View(Receiving(index), files);
      ghost var at := pos;
      var input, fault := RecvFrame();
      if input.RecvError? || input.frame.ManifestFrame? {
        RunFails(here, script, at, index, digest);
        CleanUp();
        assert View(Receiving(index), files) == Cleanup(here);
        return Failed;
      }
      RunTakesChunk(here, script, at, index, digest);
      exit := TakeChunk(files, index, input.frame.chunk, fault);
    }

    method ReceiveOneFile(files: seq<TransferFile>, index: nat) returns (failed: bool)
      requires pos <= |script| && index < |files| && writer.None?
      modifies this
      ensures pos <= |script| && (!failed ==> writer.None?)
      ensures Ahead(files, index, if failed then Failed else FileDone) ==
              old(Observe(RunReceiver(BeginFile(View(Receiving(index), files), index), script[pos..], digest)))
    {
      writer, draining, rejections := None, false, 0;
      ghost var all := Ahead(files, index, Continue);
      while true
        invariant pos <= |script| && Ahead(files, index, Continue) == all
        decreases |script| - pos
      {
        var exit := ReceiveNext(files, index);
        if !exit.Continue? {
          return exit.Failed?;
        }
      }
    }

    /** The loop of transfer_recv.go reaches the same disk, the same acks and the same
        return value as folding `Receive` over the channel; so however it returns, only exact
        manifest entries are committed, nothing partial is left, the bytes stay within the cap,
        and the acks keep the sender's protocol. */
    method ReceiveReports() returns (failed: bool)
      requires pos == 0 && View(AwaitManifest, []) == INITIAL
      modifies this
      ensures (Finished(failed), disk, acks) == Observe(RunReceiver(INITIAL, script, digest))
      ensures CommittedExactly(ManifestFiles(script), disk, digest) && disk.parts == map[]
      ensures DiskBytes(disk) <= MAX_TOTAL_SIZE
      ensures FewRejects(ManifestFiles(script), acks) && DeclineIsLast(acks)
    {
      ReturnedReceiverIsSafe(script, digest);
      RunUnrolls(INITIAL, script, 0, digest);
      assert script[0..] == script;
      ghost var all := Observe(RunReceiver(INITIAL, script, digest));
      var input, fault := RecvFrame();
      if input.RecvError? || input.frame.ChunkFrame? {
        return true;
      }
      var m := input.frame.manifest;
      var ok := ValidateManifest(m);
      if !ok || fault.dir {
        var sent := SendAck(DECLINED, fault);
        return !sent;
      }
      var index := 0;
      while index < |m.files|
        invariant index <= |m.files| && pos <= |script| && writer.None?
        invariant Observe(RunReceiver(BeginFile(View(AwaitManifest, m.files), index), script[pos..], digest)) == all
      {
        failed := ReceiveOneFile(m.files, index);
        if failed {
          return true;
        }
        index := index + 1;
      }
      return false;
    }
  }
}
