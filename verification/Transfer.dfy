/** Vocabulary of the report transfer: manifests, chunks and acks, the size caps,
    the name allowlist and the gates both sides put in front of the byte stream. */
module Transfer {
  import opened Wrappers

  newtype byte = x: int | 0 <= x < 256

  const CHUNK_SIZE: int := 262144
  const MAX_FILE_SIZE: int := 8388608
  const MAX_TOTAL_SIZE: int := 16777216
  const MAX_FILE_RETRIES: nat := 1

  // Canonical transfer order; also the exact allowlist.
  const ALLOWED_FILES: seq<string> := ["report.json", "report.md", "summary.txt"]

  datatype TransferFile = TransferFile(name: string, size: int, sha256: string)
  datatype Manifest = Manifest(files: seq<TransferFile>, totalSize: int)
  datatype Chunk = Chunk(name: string, index: int, offset: int, data: seq<byte>, last: bool)
  datatype Frame = ManifestFrame(manifest: Manifest) | ChunkFrame(chunk: Chunk)
  datatype Ack = Ack(name: string, ok: bool, declined: bool)

  const DECLINED: Ack := Ack("", false, true)

  function Accepted(name: string): Ack { Ack(name, true, false) }

  function Rejected(name: string): Ack { Ack(name, false, false) }

  predicate ContainsDotDot(name: string) {
    exists i | 0 <= i < |name| - 1 :: name[i] == '.' && name[i + 1] == '.'
  }

  predicate SafeReportName(name: string) {
    '/' !in name && '\\' !in name && !ContainsDotDot(name) && name in ALLOWED_FILES
  }

  // The traversal tests never refuse a listed name: the allowlist alone decides.
  lemma SafeNamesAreTheAllowlist(name: string)
    ensures SafeReportName(name) <==> name in ALLOWED_FILES
  {
    if name in ALLOWED_FILES {
      if name == "report.json" {
      } else if name == "report.md" {
      } else {
        assert name == "summary.txt";
      }
    }
  }

  function SumSizes(files: seq<TransferFile>): int {
    if files == [] then 0 else SumSizes(files[..|files| - 1]) + files[|files| - 1].size
  }

  // The receive-side contract on a manifest.
  predicate Acceptable(m: Manifest) {
    && (forall i | 0 <= i < |m.files| ::
          SafeReportName(m.files[i].name) && 0 <= m.files[i].size <= MAX_FILE_SIZE)
    && SumSizes(m.files) <= MAX_TOTAL_SIZE
  }

  lemma {:induction false} ManifestLimits(m: Manifest)
    ensures Acceptable(m) <==>
            && (forall i | 0 <= i < |m.files| ::
                  && (m.files[i].name == "report.json" || m.files[i].name == "report.md" || m.files[i].name == "summary.txt")
                  && 0 <= m.files[i].size <= 8 * 1024 * 1024)
            && SumSizes(m.files) <= 16 * 1024 * 1024
  {
    forall i | 0 <= i < |m.files| ensures SafeReportName(m.files[i].name) <==> m.files[i].name in ALLOWED_FILES {
      SafeNamesAreTheAllowlist(m.files[i].name);
    }
  }

  method ValidateManifest(m: Manifest) returns (ok: bool)
    ensures ok <==> Acceptable(m)
  {
    var total := 0;
    for i := 0 to |m.files|
      invariant total == SumSizes(m.files[..i])
      invariant forall j | 0 <= j < i ::
          SafeReportName(m.files[j].name) && 0 <= m.files[j].size <= MAX_FILE_SIZE
    {
      var f := m.files[i];
      if !SafeReportName(f.name) || f.size < 0 || f.size > MAX_FILE_SIZE {
        return false;
      }
      assert m.files[..i + 1][..i] == m.files[..i];
      total := total + f.size;
    }
    assert m.files[..|m.files|] == m.files;
    return total <= MAX_TOTAL_SIZE;
  }

  // One directory entry as BuildManifest finds it.
  datatype Entry = Missing | Unreadable | Irregular | Regular(content: seq<byte>)

  predicate Describes(f: TransferFile, name: string, content: seq<byte>, digest: seq<byte> -> string) {
    f == TransferFile(name, |content|, digest(content))
  }

  // Names of the regular files among the first k canonical names, in order.
  function PresentNames(dir: string -> Entry, k: nat): seq<string>
    requires k <= |ALLOWED_FILES|
  {
    if k == 0 then []
    else PresentNames(dir, k - 1)
         + (if dir(ALLOWED_FILES[k - 1]).Regular? then [ALLOWED_FILES[k - 1]] else [])
  }

  lemma PresentNamesAreOrdered(dir: string -> Entry, k: nat)
    requires k <= |ALLOWED_FILES|
    ensures forall n :: n in PresentNames(dir, k) <==> n in ALLOWED_FILES[..k] && dir(n).Regular?
    ensures forall i, j | 0 <= i < j < |PresentNames(dir, k)| ::
              PresentNames(dir, k)[i] != PresentNames(dir, k)[j]
  {
    if k > 0 {
      PresentNamesAreOrdered(dir, k - 1);
      assert ALLOWED_FILES[..k] == ALLOWED_FILES[..k - 1] + [ALLOWED_FILES[k - 1]];
      assert ALLOWED_FILES[k - 1] !in ALLOWED_FILES[..k - 1];
    }
  }

  function RegularSize(dir: string -> Entry, name: string): nat {
    match dir(name) case Regular(content) => |content| case _ => 0
  }

  // Every report file is absent or a regular file within the cap, and together they fit.
  predicate Buildable(dir: string -> Entry) {
    && (forall n | n in ALLOWED_FILES :: dir(n).Missing? || (dir(n).Regular? && RegularSize(dir, n) <= 8 * 1024 * 1024))
    && RegularSize(dir, "report.json") + RegularSize(dir, "report.md") + RegularSize(dir, "summary.txt") <= 16 * 1024 * 1024
  }

  function RegularBytes(dir: string -> Entry, k: nat): nat
    requires k <= |ALLOWED_FILES|
  {
    if k == 0 then 0 else RegularBytes(dir, k - 1) + RegularSize(dir, ALLOWED_FILES[k - 1])
  }

  lemma AllRegularBytes(dir: string -> Entry)
    ensures RegularBytes(dir, |ALLOWED_FILES|) ==
            RegularSize(dir, "report.json") + RegularSize(dir, "report.md") + RegularSize(dir, "summary.txt")
  {
    assert RegularBytes(dir, 3) == RegularBytes(dir, 2) + RegularSize(dir, ALLOWED_FILES[2]);
    assert RegularBytes(dir, 2) == RegularBytes(dir, 1) + RegularSize(dir, ALLOWED_FILES[1]);
    assert RegularBytes(dir, 1) == RegularBytes(dir, 0) + RegularSize(dir, ALLOWED_FILES[0]);
  }

  /** The sender's manifest: every regular canonical file, in canonical order, with its
      true size and digest; refused on an unreadable or irregular entry or over a cap. */
  method BuildManifest(dir: string -> Entry, digest: seq<byte> -> string)
    returns (r: Result<Manifest, ()>)
    ensures r.Ok? ==>
              var names := PresentNames(dir, |ALLOWED_FILES|);
              && |r.value.files| == |names|
              && (forall i | 0 <= i < |names| ::
                    dir(names[i]).Regular? && Describes(r.value.files[i], names[i], dir(names[i]).content, digest))
              && r.value.totalSize == SumSizes(r.value.files)
    ensures r.Ok? ==> Acceptable(r.value)
    ensures r.Ok? ==> forall i, j | 0 <= i < j < |r.value.files| :: r.value.files[i].name != r.value.files[j].name
    ensures r.Ok? <==> Buildable(dir)
  {
    var ok, files, total := ListFiles(dir, digest);
    AllRegularBytes(dir);
    PresentNamesAreOrdered(dir, |ALLOWED_FILES|);
    assert EntriesOk(dir, |ALLOWED_FILES|) <==> forall n | n in ALLOWED_FILES :: EntryOk(dir, n) by {
      assert forall j | 0 <= j < |ALLOWED_FILES| :: ALLOWED_FILES[j] in ALLOWED_FILES;
    }
    if !ok || total > MAX_TOTAL_SIZE {
      return Err(());
    }
    forall i | 0 <= i < |files| ensures SafeReportName(files[i].name) {
      SafeNamesAreTheAllowlist(files[i].name);
    }
    return Ok(Manifest(files, total));
  }

  // The entries list the first k canonical names that are regular files.
  predicate Lists(files: seq<TransferFile>, dir: string -> Entry, digest: seq<byte> -> string, k: nat)
    requires k <= |ALLOWED_FILES|
  {
    && |files| == |PresentNames(dir, k)|
    && forall i | 0 <= i < |files| ::
         && dir(PresentNames(dir, k)[i]).Regular?
         && Describes(files[i], PresentNames(dir, k)[i], dir(PresentNames(dir, k)[i]).content, digest)
         && files[i].name in ALLOWED_FILES && files[i].size <= MAX_FILE_SIZE
  }

  predicate EntryOk(dir: string -> Entry, name: string) {
    dir(name).Missing? || (dir(name).Regular? && RegularSize(dir, name) <= MAX_FILE_SIZE)
  }

  predicate EntriesOk(dir: string -> Entry, k: nat)
    requires k <= |ALLOWED_FILES|
  { forall j | 0 <= j < k :: EntryOk(dir, ALLOWED_FILES[j]) }

  lemma ListOneMore(files: seq<TransferFile>, dir: string -> Entry, digest: seq<byte> -> string, k: nat)
    requires k < |ALLOWED_FILES| && Lists(files, dir, digest, k) && EntryOk(dir, ALLOWED_FILES[k])
    ensures var more := if dir(ALLOWED_FILES[k]).Missing? then files
                        else files + [TransferFile(ALLOWED_FILES[k], RegularSize(dir, ALLOWED_FILES[k]),
                                                   digest(dir(ALLOWED_FILES[k]).content))];
            Lists(more, dir, digest, k + 1) && SumSizes(more) == SumSizes(files) + RegularSize(dir, ALLOWED_FILES[k])
  {
    if dir(ALLOWED_FILES[k]).Regular? {
      SumOneMore(files, TransferFile(ALLOWED_FILES[k], RegularSize(dir, ALLOWED_FILES[k]), digest(dir(ALLOWED_FILES[k]).content)));
    }
  }

  lemma SumOneMore(files: seq<TransferFile>, f: TransferFile)
    ensures SumSizes(files + [f]) == SumSizes(files) + f.size
  {
    assert (files + [f])[..|files|] == files;
  }

  // Where the listing stands before the k-th name.
  predicate Listing(files: seq<TransferFile>, total: int, dir: string -> Entry, digest: seq<byte> -> string, k: nat)
    requires k <= |ALLOWED_FILES|
  { EntriesOk(dir, k) && Lists(files, dir, digest, k) && total == SumSizes(files) == RegularBytes(dir, k) }

  function WithEntry(files: seq<TransferFile>, dir: string -> Entry, digest: seq<byte> -> string, name: string): seq<TransferFile> {
    match dir(name)
    case Regular(content) => files + [TransferFile(name, |content|, digest(content))]
    case _ => files
  }

  lemma ListNext(files: seq<TransferFile>, total: int, dir: string -> Entry, digest: seq<byte> -> string, k: nat)
    requires k < |ALLOWED_FILES| && Listing(files, total, dir, digest, k) && EntryOk(dir, ALLOWED_FILES[k])
    ensures Listing(WithEntry(files, dir, digest, ALLOWED_FILES[k]), total + RegularSize(dir, ALLOWED_FILES[k]), dir, digest, k + 1)
  {
    ListOneMore(files, dir, digest, k);
  }

  method ListFiles(dir: string -> Entry, digest: seq<byte> -> string)
    returns (ok: bool, files: seq<TransferFile>, total: nat)
    ensures ok <==> EntriesOk(dir, |ALLOWED_FILES|)
    ensures ok ==> Lists(files, dir, digest, |ALLOWED_FILES|) && total == SumSizes(files) == RegularBytes(dir, |ALLOWED_FILES|)
  {
    files, total := [], 0;
    for k := 0 to |ALLOWED_FILES|
      invariant Listing(files, total, dir, digest, k)
    {
      var name := ALLOWED_FILES[k];
      match dir(name)
      case Missing => ListNext(files, total, dir, digest, k);
      case Unreadable =>
        assert !EntryOk(dir, ALLOWED_FILES[k]);
        return false, [], 0;
      case Irregular =>
        assert !EntryOk(dir, ALLOWED_FILES[k]);
        return false, [], 0;
      case Regular(content) =>
        if |content| > MAX_FILE_SIZE {
          assert !EntryOk(dir, ALLOWED_FILES[k]);
          return false, [], 0;
        }
        ListNext(files, total, dir, digest, k);
        files := files + [TransferFile(name, |content|, digest(content))];
        total := total + |content|;
    }
    assert EntriesOk(dir, |ALLOWED_FILES|);
    return true, files, total;
  }
}
