/** What every run of the composed report transfer satisfies. */
module TransferTheorems {
  import opened Wrappers
  import opened Transfer
  import opened TransferReceiver
  import opened TransferProtocol
  import TS = TransferSender

  predicate IsRun(e: Env, s: System, steps: seq<Step>)
    decreases |steps|
  {
    steps == [] ||
    (WellFormed(e, s) && Enabled(e, s, steps[0]) && IsRun(e, Next(e, s, steps[0]), steps[1..]))
  }

  function EndOf(e: Env, s: System, steps: seq<Step>): System
    requires IsRun(e, s, steps)
    decreases |steps|
  {
    if steps == [] then s else EndOf(e, Next(e, s, steps[0]), steps[1..])
  }

  lemma StartIsFine(e: Env)
    requires ValidEnv(e)
    ensures Inv(e, START)
  {}

  lemma {:induction false} RunKeepsInv(e: Env, s: System, steps: seq<Step>)
    requires Inv(e, s) && IsRun(e, s, steps)
    ensures Inv(e, EndOf(e, s, steps))
    decreases |steps|
  {
    if steps != [] {
      StepKeepsInv(e, s, steps[0]);
      RunKeepsInv(e, Next(e, s, steps[0]), steps[1..]);
    }
  }

  /** The non-blocking router never drops a frame: whatever the corruption and whatever the
      interleaving, sent-but-unread frames fit the buffer, even while a refused attempt
      drains behind its retry. */
  lemma RoutingLosesNothing(e: Env, steps: seq<Step>)
    requires ValidEnv(e) && IsRun(e, START, steps)
    ensures var s := EndOf(e, START, steps); !s.lost && |s.buf| + |s.net| <= BUFFER_SLOTS
  {
    StartIsFine(e);
    RunKeepsInv(e, START, steps);
  }

  // Before the manifest is read and without leftovers the backlog is far smaller.
  lemma BacklogWithoutLeftovers(e: Env, steps: seq<Step>)
    requires ValidEnv(e) && IsRun(e, START, steps)
    ensures var s := EndOf(e, START, steps);
            !s.snd.Done? && (s.snd.Streaming? || s.snd.Awaiting?) && !s.rcv.draining ==> |s.buf| + |s.net| <= 34
  {
    StartIsFine(e);
    RunKeepsInv(e, START, steps);
    var s := EndOf(e, START, steps);
    if s.snd.Streaming? || s.snd.Awaiting? {
      FileFacts(e, s.snd.file);
    }
  }

  predicate IsCommittedSource(e: Env, n: string, bytes: seq<byte>) {
    exists i | 0 <= i < |e.sources| :: e.sources[i].name == n && e.sources[i].content == bytes
  }

  lemma PrefixIsFaithful(e: Env, r: Receiver, j: nat)
    requires CommittedFirst(e, r, j)
    ensures forall n | n in r.disk.committed :: IsCommittedSource(e, n, r.disk.committed[n])
  {}

  /** Whatever the wire did to the data, a file that was committed is the file that was sent. */
  lemma CommittedFilesAreFaithful(e: Env, steps: seq<Step>)
    requires ValidEnv(e) && IsRun(e, START, steps)
    ensures var s := EndOf(e, START, steps);
            forall n | n in s.rcv.disk.committed :: IsCommittedSource(e, n, s.rcv.disk.committed[n])
  {
    StartIsFine(e);
    RunKeepsInv(e, START, steps);
    var s := EndOf(e, START, steps);
    match s.snd
    case NotStarted =>
    case Streaming(f, a, n) =>
      if CommittedFirst(e, s.rcv, f) { PrefixIsFaithful(e, s.rcv, f); }
      if CommittedFirst(e, s.rcv, f + 1) { PrefixIsFaithful(e, s.rcv, f + 1); }
    case Awaiting(f, a) =>
      if CommittedFirst(e, s.rcv, f) { PrefixIsFaithful(e, s.rcv, f); }
      if CommittedFirst(e, s.rcv, f + 1) { PrefixIsFaithful(e, s.rcv, f + 1); }
    case Done(r) =>
      if r == TS.Success {
        PrefixIsFaithful(e, s.rcv, |e.sources|);
      } else {
        var f: nat :| Abandoned(e, s, f);
        PrefixIsFaithful(e, s.rcv, f);
      }
  }

  /** Acks and attempts stay paired: the ack the sender reads is about the file it is
      sending or declines the transfer, and an attempt begins with no ack outstanding, so
      the one it reads was sent during that attempt. */
  lemma AcksMatchAttempts(e: Env, steps: seq<Step>)
    requires ValidEnv(e) && IsRun(e, START, steps)
    requires Enabled(e, EndOf(e, START, steps), ReadAck)
    ensures var s := EndOf(e, START, steps);
            && WellFormed(e, s)
            && (var ack := s.rcv.acks[s.read];
                ack == DECLINED || ack == Accepted(e.sources[s.snd.file].name) || ack == Rejected(e.sources[s.snd.file].name))
            && (var s' := Next(e, s, ReadAck); s'.snd.Streaming? ==> s'.read == |s'.rcv.acks|)
  {
    StartIsFine(e);
    RunKeepsInv(e, START, steps);
    var s := EndOf(e, START, steps);
    assert Unread(s)[0] == s.rcv.acks[s.read];
  }

  // --- Progress ---

  function AttemptsFrom(e: Env, j: nat): nat
    requires j <= |e.sources|
    decreases |e.sources| - j
  {
    if j == |e.sources| then 0 else 2 * (Total(e, j) + 1) + AttemptsFrom(e, j + 1)
  }

  // An upper bound on the sends and ack reads the sender still has to do.
  function SendsLeft(e: Env, s: System): nat
    requires WellFormed(e, s)
  {
    match s.snd
    case NotStarted => 1 + AttemptsFrom(e, 0)
    case Streaming(f, a, n) =>
      Total(e, f) - n + 1 + (if a == 0 then Total(e, f) + 1 else 0) + AttemptsFrom(e, f + 1)
    case Awaiting(f, a) => 1 + (if a == 0 then Total(e, f) + 1 else 0) + AttemptsFrom(e, f + 1)
    case Done(_) => 0
  }

  function Work(e: Env, s: System): nat
    requires WellFormed(e, s)
  {
    3 * SendsLeft(e, s) + 2 * |s.net| + |s.buf|
  }

  lemma StepsConsumeWork(e: Env, s: System, st: Step)
    requires WellFormed(e, s) && Enabled(e, s, st) && WellFormed(e, Next(e, s, st))
    ensures Work(e, Next(e, s, st)) < Work(e, s)
  {
    match st
    case SendManifest =>
    case SendChunk =>
    case ReadAck => AckConsumesWork(e, s.snd.file, s.snd.attempt, s.rcv.acks[s.read]);
    case Route =>
    case Discard =>
    case Take(fault) => assert Next(e, s, st).snd == s.snd;
  }

  // Reading an ack uses up the attempt it answers.
  lemma AckConsumesWork(e: Env, f: nat, a: nat, ack: Ack)
    requires f < |e.sources|
    ensures var next := TS.AfterAck(e.sources, f, a, ack);
            || next.Done?
            || (next == TS.Streaming(f, 1, 0) && a == 0)
            || (next == TS.Streaming(f + 1, 0, 0) && f + 1 < |e.sources|)
    ensures f + 1 < |e.sources| ==>
              AttemptsFrom(e, f + 1) == 2 * (Total(e, f + 1) + 1) + AttemptsFrom(e, f + 2)
  {}

  /** No run goes on for ever: the first state bounds the number of steps. */
  lemma {:induction false} RunsAreBounded(e: Env, s: System, steps: seq<Step>)
    requires Inv(e, s) && IsRun(e, s, steps)
    ensures |steps| <= Work(e, s)
    decreases |steps|
  {
    if steps != [] {
      StepKeepsInv(e, s, steps[0]);
      StepsConsumeWork(e, s, steps[0]);
      RunsAreBounded(e, Next(e, s, steps[0]), steps[1..]);
    }
  }

  /** The sender never waits for an ack that will not come: as long as it has not returned,
      some step of the two sides is possible, so every run that stops has a sender that
      returned. */
  lemma SenderIsNeverStuck(e: Env, steps: seq<Step>)
    requires ValidEnv(e) && IsRun(e, START, steps)
    ensures var s := EndOf(e, START, steps);
            s.snd.Done? || exists st :: Enabled(e, s, st)
    ensures var s := EndOf(e, START, steps);
            s.snd.Awaiting? ==> Enabled(e, s, ReadAck) || Enabled(e, s, Route) || Enabled(e, s, Take(NO_FAULT))
  {
    StartIsFine(e);
    RunKeepsInv(e, START, steps);
    var s := EndOf(e, START, steps);
    match s.snd
    case NotStarted => assert Enabled(e, s, SendManifest);
    case Streaming(f, a, n) => assert Enabled(e, s, SendChunk);
    case Awaiting(f, a) =>
      assert |Queue(s)| == |s.buf| + |s.net|;
      assert Enabled(e, s, ReadAck) || Enabled(e, s, Route) || Enabled(e, s, Take(NO_FAULT));
    case Done(_) =>
  }

  /** With one clean attempt per file, lengths kept and a working disk, a run that ends ends
      in success with every file committed byte for byte. */
  lemma GoodRunsDeliverEverything(e: Env, steps: seq<Step>)
    requires ValidEnv(e) && Good(e) && IsRun(e, START, steps)
    requires forall st :: !Enabled(e, EndOf(e, START, steps), st)
    ensures var s := EndOf(e, START, steps);
            && s.snd == TS.Done(TS.Success)
            && forall i | 0 <= i < |e.sources| ::
                 && e.sources[i].name in s.rcv.disk.committed
                 && s.rcv.disk.committed[e.sources[i].name] == e.sources[i].content
  {
    StartIsFine(e);
    RunKeepsInv(e, START, steps);
    SenderIsNeverStuck(e, steps);
    var s := EndOf(e, START, steps);
    assert forall f: nat :: !Abandoned(e, s, f);
  }

  /** A sender that reports success is right, whatever the wire and the disk did: every file is
      committed byte for byte and nothing else is. */
  lemma SuccessMeansDelivered(e: Env, steps: seq<Step>)
    requires ValidEnv(e) && IsRun(e, START, steps) && EndOf(e, START, steps).snd == TS.Done(TS.Success)
    ensures var d := EndOf(e, START, steps).rcv.disk;
            && (forall i | 0 <= i < |e.sources| ::
                  e.sources[i].name in d.committed && d.committed[e.sources[i].name] == e.sources[i].content)
            && (forall n | n in d.committed :: exists i | 0 <= i < |e.sources| :: e.sources[i].name == n)
  {
    StartIsFine(e);
    RunKeepsInv(e, START, steps);
    PrefixIsFaithful(e, EndOf(e, START, steps).rcv, |e.sources|);
  }

  // --- The buffer bound is exact ---

  // A collision-free digest: spell every byte as a character.
  function Spell(x: seq<byte>): string {
    seq(|x|, i requires 0 <= i < |x| => (x[i] as int) as char)
  }

  lemma SpellIsInjective(x: seq<byte>, y: seq<byte>)
    ensures Spell(x) == Spell(y) ==> x == y
  {
    if Spell(x) == Spell(y) {
      assert |x| == |Spell(x)| == |Spell(y)| == |y|;
      forall i | 0 <= i < |x| ensures x[i] == y[i] {
        assert Spell(x)[i] == Spell(y)[i];
      }
    }
  }

  function BiggestFile(): Source { TS.Source("report.json", seq(MAX_FILE_SIZE, _ => 0)) }

  // The very first chunk loses its data; everything else arrives intact.
  function FirstChunkEmptied(f: nat, a: nat, i: nat): seq<byte> {
    if (a == 0 && i == 0) || i >= TS.ChunkCount(BiggestFile().content) then []
    else TS.ChunkAt(BiggestFile(), i).data
  }

  function WorstEnv(): Env {
    Env([BiggestFile()], FirstChunkEmptied, true, Spell)
  }

  lemma WorstEnvIsValid()
    ensures ValidEnv(WorstEnv()) && Total(WorstEnv(), 0) == 33
  {
    var e := WorstEnv();
    SafeNamesAreTheAllowlist("report.json");
    var files := ManifestOf(e).files;
    assert files[..0] == [];
    assert SumSizes(files) == SumSizes(files[..0]) + files[0].size;
    forall x, y ensures e.digest(x) == e.digest(y) ==> x == y {
      SpellIsInjective(x, y);
    }
  }

  lemma {:induction false} RunsCompose(e: Env, s: System, xs: seq<Step>, ys: seq<Step>)
    requires IsRun(e, s, xs) && IsRun(e, EndOf(e, s, xs), ys)
    ensures IsRun(e, s, xs + ys) && EndOf(e, s, xs + ys) == EndOf(e, EndOf(e, s, xs), ys)
    decreases |xs|
  {
    if xs == [] {
      assert xs + ys == ys;
    } else {
      assert (xs + ys)[0] == xs[0] && (xs + ys)[1..] == xs[1..] + ys;
      var next := Next(e, s, xs[0]);
      RunsCompose(e, next, xs[1..], ys);
      assert IsRun(e, next, (xs + ys)[1..]);
    }
  }

  // The sender alone can put the rest of an attempt on the wire.
  lemma {:induction false} SendsRest(e: Env, s: System, f: nat, a: nat, n: nat) returns (steps: seq<Step>)
    requires WellFormed(e, s) && s.snd == TS.Streaming(f, a, n)
    ensures IsRun(e, s, steps)
    ensures EndOf(e, s, steps) == s.(net := s.net + Stream(e, f, a, n, Total(e, f)), snd := TS.Awaiting(f, a))
    decreases Total(e, f) - n
  {
    var s' := Next(e, s, SendChunk);
    StreamShrinks(e, f, a, n, Total(e, f));
    assert s.net + Stream(e, f, a, n, Total(e, f)) == s'.net + Stream(e, f, a, n + 1, Total(e, f));
    if n + 1 == Total(e, f) {
      steps := [SendChunk];
      assert Stream(e, f, a, n + 1, n + 1) == [];
      assert EndOf(e, s', []) == s';
    } else {
      var rest := SendsRest(e, s', f, a, n + 1);
      steps := [SendChunk] + rest;
      assert steps[1..] == rest;
    }
  }

  // The first two chunks of the worst run: an empty one, then a gap that is refused.
  lemma WorstRefusal(r: Receiver) returns (r1: Receiver, r2: Receiver)
    requires Fresh(WorstEnv(), r, 0)
    ensures var e := WorstEnv();
            && Total(e, 0) == 33
            && r1 == Receive(r, Got(ChunkFrame(WireChunk(e, 0, 0, 0))), NO_FAULT, e.digest) && r1.phase == Receiving(0)
            && Indexed(r1)
            && r2 == Receive(r1, Got(ChunkFrame(WireChunk(e, 0, 0, 1))), NO_FAULT, e.digest)
            && r2.acks == r.acks + [Rejected("report.json")] && r2.phase == Receiving(0) && Indexed(r2)
  {
    var e := WorstEnv();
    WorstEnvIsValid();
    FileFacts(e, 0);
    r1 := Receive(r, Got(ChunkFrame(WireChunk(e, 0, 0, 0))), NO_FAULT, e.digest);
    assert WireChunk(e, 0, 0, 0) == Chunk("report.json", 0, 0, [], false);
    var nothing: seq<byte> := [];
    assert nothing + nothing == nothing;
    assert r1.writer == Some(PartWriter("report.json", nothing));
    r2 := Receive(r1, Got(ChunkFrame(WireChunk(e, 0, 0, 1))), NO_FAULT, e.digest);
  }

  /** Sixty-four slots are exactly enough: some run of an honest sender fills them all. */
  lemma RoutingBoundIsReached() returns (steps: seq<Step>)
    ensures ValidEnv(WorstEnv()) && IsRun(WorstEnv(), START, steps)
    ensures var s := EndOf(WorstEnv(), START, steps);
            |s.buf| + |s.net| == BUFFER_SLOTS && s.snd == TS.Awaiting(0, 1)
  {
    var e := WorstEnv();
    WorstEnvIsValid();
    var s0 := System(TS.Streaming(0, 0, 0), [], [], BeginFile(INITIAL.(files := ManifestOf(e).files), 0), 0, false);
    var opening := OpensTransfer(e);
    var first := SendsRest(e, s0, 0, 0, 0);
    RunsCompose(e, START, opening, first);
    var s1 := EndOf(e, START, opening + first);
    var middle, s2 := RefusesSecondChunk(s1);
    RunsCompose(e, START, opening + first, middle);
    var second := SendsRest(e, s2, 0, 1, 0);
    RunsCompose(e, START, opening + first + middle, second);
    steps := opening + first + middle + second;
  }

  lemma OpensTransfer(e: Env) returns (steps: seq<Step>)
    requires ValidEnv(e) && e.sources != []
    ensures IsRun(e, START, steps)
    ensures EndOf(e, START, steps) ==
            System(TS.Streaming(0, 0, 0), [], [], BeginFile(INITIAL.(files := ManifestOf(e).files), 0), 0, false)
  {
    steps := [SendManifest, Route, Take(NO_FAULT)];
    var s1 := Next(e, START, SendManifest);
    var s2 := Next(e, s1, Route);
    var s3 := Next(e, s2, Take(NO_FAULT));
    assert steps[1..] == [Route, Take(NO_FAULT)] && steps[1..][1..] == [Take(NO_FAULT)];
    assert IsRun(e, s3, []) && EndOf(e, s3, []) == s3;
    assert IsRun(e, s2, [Take(NO_FAULT)]) && EndOf(e, s2, [Take(NO_FAULT)]) == s3;
    assert IsRun(e, s1, steps[1..]) && EndOf(e, s1, steps[1..]) == s3;
  }

  lemma RefusesSecondChunk(s: System) returns (steps: seq<Step>, end: System)
    requires var e := WorstEnv();
             && WellFormed(e, s) && Total(e, 0) == 33
             && s.snd == TS.Awaiting(0, 0) && s.buf == [] && s.net == Stream(e, 0, 0, 0, 33)
             && Fresh(e, s.rcv, 0) && s.rcv.acks == [] && s.read == 0 && !s.lost
    ensures var e := WorstEnv();
            && IsRun(e, s, steps) && end == EndOf(e, s, steps) && WellFormed(e, end)
            && end.snd == TS.Streaming(0, 1, 0) && end.buf == [] && |end.net| == 31 && !end.lost
  {
    var e := WorstEnv();
    steps := [Route, Take(NO_FAULT), Route, Take(NO_FAULT), ReadAck];
    var r1, r2 := WorstRefusal(s.rcv);
    var s1 := Next(e, s, Route);
    var s2 := Next(e, s1, Take(NO_FAULT));
    assert s2.rcv == r1 && s2.net[0] == ChunkFrame(WireChunk(e, 0, 0, 1));
    var s3 := Next(e, s2, Route);
    var s4 := Next(e, s3, Take(NO_FAULT));
    assert s4.rcv == r2;
    end := Next(e, s4, ReadAck);
    assert IsRun(e, end, []) && EndOf(e, end, []) == end;
    assert steps[1..][1..][1..][1..] == [ReadAck];
    assert IsRun(e, s4, [ReadAck]) && EndOf(e, s4, [ReadAck]) == end;
    assert steps[1..][1..][1..] == [Take(NO_FAULT), ReadAck];
    assert IsRun(e, s3, [Take(NO_FAULT), ReadAck]) && EndOf(e, s3, [Take(NO_FAULT), ReadAck]) == end;
    assert steps[1..][1..] == [Route, Take(NO_FAULT), ReadAck];
    assert IsRun(e, s2, steps[1..][1..]) && EndOf(e, s2, steps[1..][1..]) == end;
    assert IsRun(e, s1, steps[1..]) && EndOf(e, s1, steps[1..]) == end;
  }
}
