/** The sending half of the report transfer: cutting a file into chunks, and the
    one-ack-per-attempt loop with a single retry. */
module TransferSender {
  import opened Transfer

  datatype Source = Source(name: string, content: seq<byte>)

  // A length that is an exact multiple of the chunk size ends in an empty chunk.
  function ChunkCount(content: seq<byte>): nat { |content| / CHUNK_SIZE + 1 }

  function ChunkAt(s: Source, i: nat): Chunk
    requires i < ChunkCount(s.content)
  {
    var last := i + 1 == ChunkCount(s.content);
    var lo := i * CHUNK_SIZE;
    Chunk(s.name, i, lo, s.content[lo..if last then |s.content| else lo + CHUNK_SIZE], last)
  }

  function Chunks(s: Source): seq<Chunk> {
    seq(ChunkCount(s.content), i requires 0 <= i < ChunkCount(s.content) => ChunkAt(s, i))
  }

  // What reaches the wire of one pass when chunk number `stop` cannot be read or sent: opening
  // the file, a read error, cancellation and a failed send all end the pass before a chunk.
  function Streamed(s: Source, stop: nat): seq<Chunk> {
    if stop < ChunkCount(s.content) then Chunks(s)[..stop] else Chunks(s)
  }

  // One pass over the file: each read fills the buffer or hits the end.
  method StreamFileChunks(s: Source, stop: nat) returns (sent: seq<Chunk>, ok: bool)
    ensures ok <==> stop >= ChunkCount(s.content)
    ensures sent == Streamed(s, stop)
  {
    sent := [];
    var offset, index := 0, 0;
    while true
      invariant offset == index * CHUNK_SIZE <= |s.content|
      invariant |sent| == index < ChunkCount(s.content) && index <= stop
      invariant forall i | 0 <= i < index :: sent[i] == ChunkAt(s, i)
      decreases |s.content| - offset
    {
      if index == stop {
        return sent, false;
      }
      var remaining := |s.content| - offset;
      var n := if remaining < CHUNK_SIZE then remaining else CHUNK_SIZE;
      var last := n < CHUNK_SIZE;
      sent := sent + [Chunk(s.name, index, offset, s.content[offset..offset + n], last)];
      offset := offset + n;
      index := index + 1;
      if last {
        return sent, true;
      }
    }
  }

  function Flatten(chunks: seq<Chunk>): seq<byte> {
    if chunks == [] then [] else Flatten(chunks[..|chunks| - 1]) + chunks[|chunks| - 1].data
  }

  lemma {:induction false} ChunkPrefix(s: Source, k: nat)
    requires k <= ChunkCount(s.content)
    ensures Flatten(Chunks(s)[..k]) ==
            s.content[..if k == ChunkCount(s.content) then |s.content| else k * CHUNK_SIZE]
  {
    if k > 0 {
      ChunkPrefix(s, k - 1);
      assert Chunks(s)[..k][..k - 1] == Chunks(s)[..k - 1];
      assert Chunks(s)[..k][k - 1] == ChunkAt(s, k - 1);
    }
  }

  /** Streaming loses nothing: the chunks carry contiguous offsets and cap-sized data,
      only the final one says so, and together they are the file. */
  lemma ChunksReassemble(s: Source)
    ensures Flatten(Chunks(s)) == s.content
    ensures forall i | 0 <= i < |Chunks(s)| ::
              var c := Chunks(s)[i];
              && c.index == i && c.offset == |Flatten(Chunks(s)[..i])|
              && c.name == s.name && (c.last <==> i == |Chunks(s)| - 1)
              && (if c.last then |c.data| < 256 * 1024 else |c.data| == 256 * 1024)
  {
    ChunkPrefix(s, ChunkCount(s.content));
    assert Chunks(s)[..ChunkCount(s.content)] == Chunks(s);
    forall i | 0 <= i < |Chunks(s)|
      ensures Chunks(s)[i].offset == |Flatten(Chunks(s)[..i])|
    {
      ChunkPrefix(s, i);
    }
  }

  datatype SendResult = Success | PeerDeclined | Failed

  datatype Sender =
    | NotStarted
    | Streaming(file: nat, attempt: nat, next: nat)
    | Awaiting(file: nat, attempt: nat)
    | Done(result: SendResult)

  // The sender's reaction to the one ack it reads for an attempt.
  function AfterAck(sources: seq<Source>, file: nat, attempt: nat, ack: Ack): Sender
    requires file < |sources|
  {
    if ack.declined then Done(PeerDeclined)
    else if ack.ok && ack.name == sources[file].name then
      if file + 1 < |sources| then Streaming(file + 1, 0, 0) else Done(Success)
    else if attempt < MAX_FILE_RETRIES then Streaming(file, attempt + 1, 0)
    else Done(Failed)
  }

  /** What an ack means to the sender: a decline ends the transfer whatever else it says; an ok for
      the file being sent moves to the next file, or to success after the last; anything else is a
      rejection, retried once and then final. */
  lemma AckDecides(sources: seq<Source>, file: nat, attempt: nat, ack: Ack)
    requires file < |sources| && attempt <= 1
    ensures var next := AfterAck(sources, file, attempt, ack);
            var ok := !ack.declined && ack.ok && ack.name == sources[file].name;
            && (next == Done(PeerDeclined) <==> ack.declined)
            && (next == Done(Success) <==> ok && file == |sources| - 1)
            && (next == Streaming(file + 1, 0, 0) <==> ok && file < |sources| - 1)
            && (next == Streaming(file, 1, 0) <==> !ack.declined && !ok && attempt == 0)
            && (next == Done(Failed) <==> !ack.declined && !ok && attempt == 1)
  {}

  // Where each pass over a file gives out, by file and attempt.
  type Stops = (nat, nat) -> nat

  // Everything sent when an attempt starts after `sent` and the acks come as given; a pass that
  // gives out and an ack that never comes both fail the transfer.
  function SendFrom(sources: seq<Source>, sent: seq<Chunk>, file: nat, attempt: nat, acks: seq<Ack>, stops: Stops)
    : (seq<Chunk>, SendResult)
    requires file < |sources|
    decreases |acks|
  {
    var now := sent + Streamed(sources[file], stops(file, attempt));
    if stops(file, attempt) < ChunkCount(sources[file].content) || acks == [] then (now, Failed)
    else
      match AfterAck(sources, file, attempt, acks[0])
      case Streaming(f, a, _) => SendFrom(sources, now, f, a, acks[1..], stops)
      case Done(r) => (now, r)
      case _ => (now, Failed)
  }

  function AllChunks(sources: seq<Source>): seq<Chunk> {
    if sources == [] then [] else AllChunks(sources[..|sources| - 1]) + Chunks(sources[|sources| - 1])
  }

  // One ack for each file from `file` on, each accepting it.
  predicate EachAccepted(sources: seq<Source>, file: nat, acks: seq<Ack>) {
    |acks| + file == |sources| && forall i | 0 <= i < |acks| :: acks[i] == Accepted(sources[file + i].name)
  }

  lemma LaterAccepted(sources: seq<Source>, file: nat, acks: seq<Ack>)
    requires EachAccepted(sources, file, acks) && acks != []
    ensures EachAccepted(sources, file + 1, acks[1..])
  {}

  /** When nothing gives out and every file is accepted at once, every chunk of every file goes out
      exactly once, in order, and the transfer succeeds. */
  lemma {:induction false} AcceptedFilesAreSentOnce(sources: seq<Source>, file: nat, sent: seq<Chunk>, acks: seq<Ack>, stops: Stops)
    requires file < |sources| && EachAccepted(sources, file, acks) && sent == AllChunks(sources[..file])
    requires forall f | 0 <= f < |sources| :: stops(f, 0) >= ChunkCount(sources[f].content)
    ensures SendFrom(sources, sent, file, 0, acks, stops) == (AllChunks(sources), Success)
    decreases |sources| - file
  {
    OneAcceptedFile(sources, sent, file, acks, stops);
    OneMoreSource(sources, file);
    if file + 1 == |sources| {
      assert sources[..file + 1] == sources;
    } else {
      LaterAccepted(sources, file, acks);
      AcceptedFilesAreSentOnce(sources, file + 1, AllChunks(sources[..file + 1]), acks[1..], stops);
    }
  }

  lemma OneMoreSource(sources: seq<Source>, file: nat)
    requires file < |sources|
    ensures AllChunks(sources[..file + 1]) == AllChunks(sources[..file]) + Chunks(sources[file])
  {
    assert sources[..file + 1][..file] == sources[..file];
  }

  lemma OneAcceptedFile(sources: seq<Source>, sent: seq<Chunk>, file: nat, acks: seq<Ack>, stops: Stops)
    requires file < |sources| && acks != [] && acks[0] == Accepted(sources[file].name)
    requires stops(file, 0) >= ChunkCount(sources[file].content)
    ensures var now := sent + Chunks(sources[file]);
            SendFrom(sources, sent, file, 0, acks, stops) ==
              if file + 1 == |sources| then (now, Success) else SendFrom(sources, now, file + 1, 0, acks[1..], stops)
  {}

  /** A file rejected twice is streamed twice and ends the transfer. */
  lemma RejectedTwiceFails(sources: seq<Source>, file: nat, sent: seq<Chunk>, first: Ack, second: Ack, stops: Stops)
    requires file < |sources| && !first.declined && !second.declined && !first.ok && !second.ok
    requires stops(file, 0) >= ChunkCount(sources[file].content) && stops(file, 1) >= ChunkCount(sources[file].content)
    ensures SendFrom(sources, sent, file, 0, [first, second], stops)
              == (sent + Chunks(sources[file]) + Chunks(sources[file]), Failed)
  {
    assert [first, second][1..] == [second];
  }

  // What sending one file came to.
  datatype FileResult = FileSent | FileDeclined | FileFailed

  method SendOneFile(sources: seq<Source>, sent0: seq<Chunk>, file: nat, acks: seq<Ack>, read: nat, stops: Stops)
    returns (sent: seq<Chunk>, result: FileResult, next: nat)
    requires file < |sources| && read <= |acks|
    ensures read <= next <= |acks|
    ensures SendFrom(sources, sent0, file, 0, acks[read..], stops) ==
            match result
            case FileDeclined => (sent, PeerDeclined)
            case FileFailed => (sent, Failed)
            case FileSent =>
              if file + 1 == |sources| then (sent, Success)
              else SendFrom(sources, sent, file + 1, 0, acks[next..], stops)
  {
    sent, next := sent0, read;
    var attempt := 0;
    while attempt <= MAX_FILE_RETRIES
      invariant read <= next <= |acks| && attempt <= MAX_FILE_RETRIES + 1
      invariant SendFrom(sources, sent0, file, 0, acks[read..], stops) ==
                if attempt <= MAX_FILE_RETRIES then SendFrom(sources, sent, file, attempt, acks[next..], stops)
                else (sent, Failed)
    {
      var chunks, ok := StreamFileChunks(sources[file], stops(file, attempt));
      sent := sent + chunks;
      if !ok {
        return sent, FileFailed, next;
      }
      if next == |acks| {
        return sent, FileFailed, next;
      }
      var ack := acks[next];
      assert acks[next..][1..] == acks[next + 1..];
      next := next + 1;
      if ack.declined {
        return sent, FileDeclined, next;
      }
      if ack.ok && ack.name == sources[file].name {
        return sent, FileSent, next;
      }
      attempt := attempt + 1;
    }
    return sent, FileFailed, next;
  }

  method SendFiles(sources: seq<Source>, acks: seq<Ack>, stops: Stops) returns (sent: seq<Chunk>, result: SendResult)
    ensures sources == [] ==> sent == [] && result == Success
    ensures sources != [] ==> (sent, result) == SendFrom(sources, [], 0, 0, acks, stops)
  {
    sent := [];
    var file, read := 0, 0;
    assert acks[0..] == acks;
    while file < |sources|
      invariant file <= |sources| && read <= |acks|
      invariant sources == [] ==> sent == []
      invariant sources != [] ==>
                  SendFrom(sources, [], 0, 0, acks, stops) ==
                  if file == |sources| then (sent, Success) else SendFrom(sources, sent, file, 0, acks[read..], stops)
    {
      var one;
      sent, one, read := SendOneFile(sources, sent, file, acks, read, stops);
      match one
      case FileDeclined => return sent, PeerDeclined;
      case FileFailed => return sent, Failed;
      case FileSent =>
      file := file + 1;
    }
    return sent, Success;
  }

  // The files a directory offers, as the manifest lists them.
  function SourcesIn(dir: string -> Entry, k: nat): (s: seq<Source>)
    requires k <= |ALLOWED_FILES|
    ensures |s| == |PresentNames(dir, k)|
    ensures forall i | 0 <= i < |s| ::
              s[i].name == PresentNames(dir, k)[i]
              && (dir(s[i].name).Regular? ==> s[i].content == dir(s[i].name).content)
  {
    var names := PresentNames(dir, k);
    seq(|names|, i requires 0 <= i < |names| =>
      Source(names[i], match dir(names[i]) case Regular(content) => content case _ => []))
  }

  datatype Sending = NothingSent | ManifestSent(manifest: Manifest, chunks: seq<Chunk>)

  /** The whole sender: nothing goes out unless the manifest was built and sent, and it describes
      exactly the files then streamed; the chunks and the result are those of the step-by-step
      sender, whatever acks come back and wherever reading or sending gives out. */
  method SendReports(dir: string -> Entry, digest: seq<byte> -> string, manifestOk: bool, acks: seq<Ack>, stops: Stops)
    returns (out: Sending, result: SendResult)
    ensures out.NothingSent? <==> !manifestOk || !Buildable(dir)
    ensures out.NothingSent? ==> result == Failed
    ensures out.ManifestSent? ==>
              var sources := SourcesIn(dir, |ALLOWED_FILES|);
              && manifestOk && Acceptable(out.manifest) && |out.manifest.files| == |sources|
              && (forall i | 0 <= i < |sources| ::
                    Describes(out.manifest.files[i], sources[i].name, sources[i].content, digest))
              && (if sources == [] then out.chunks == [] && result == Success
                  else (out.chunks, result) == SendFrom(sources, [], 0, 0, acks, stops))
  {
    var m := BuildManifest(dir, digest);
    if m.Err? || !manifestOk {
      return NothingSent, Failed;
    }
    var chunks;
    chunks, result := SendFiles(SourcesIn(dir, |ALLOWED_FILES|), acks, stops);
    out := ManifestSent(m.value, chunks);
  }
}
