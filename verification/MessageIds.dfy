/** Message IDs and the receiver's duplicate detector. */
module MessageIds {
  import opened Wrappers
  import opened Machine
  import opened Decimal

  const RING: nat := 128
  const ID_DIGITS: nat := 8

  function Padded(n: nat): string {
    var digits := Print(n);
    if |digits| >= ID_DIGITS then digits else Zeros(ID_DIGITS - |digits|) + digits
  }

  lemma PaddedReadsBack(n: nat)
    ensures |Padded(n)| > 0 && AllDigits(Padded(n)) && Value(Padded(n)) == n
  {
    PrintReadsBack(n);
    if |Print(n)| < ID_DIGITS {
      ZerosAreNothing(ID_DIGITS - |Print(n)|, Print(n));
    }
  }

  lemma {:induction false} PrintLength(n: nat, k: nat)
    requires k > 0 && n < Pow10(k)
    ensures |Print(n)| <= k
    decreases k
  {
    if n >= 10 {
      PrintLength(n / 10, k - 1);
    }
  }

  /** Numbers are padded to eight digits, and longer ones are printed in full. */
  lemma PaddedForm(n: nat)
    ensures |Padded(n)| >= 8 && (n < 100_000_000 ==> |Padded(n)| == 8)
    ensures |Padded(n)| > 8 ==> Padded(n) == Print(n)
  {
    if n < 100_000_000 {
      assert Pow10(8) == 100_000_000;
      PrintLength(n, 8);
    }
  }

  function MessageId(role: string, n: nat): string { role + ['-'] + Padded(n) }

  function LastHyphen(s: string): (i: int)
    ensures -1 <= i < |s|
    ensures i >= 0 ==> s[i] == '-'
    ensures forall j | i < j < |s| :: s[j] != '-'
  {
    if s == [] then -1
    else if s[|s| - 1] == '-' then |s| - 1
    else LastHyphen(s[..|s| - 1])
  }

  datatype Parsed = NotAnId | Sequenced(role: string, n: nat)

  function SplitMessageId(id: string): Parsed {
    var i := LastHyphen(id);
    if i <= 0 || i == |id| - 1 then NotAnId
    else
      match ParseUint64(id[i + 1..])
      case None => NotAnId
      case Some(n) => Sequenced(id[..i], n)
  }

  /** Splitting inverts minting, for exactly the non-empty roles. */
  lemma SplitInvertsMint(role: string, n: nat)
    requires n < TWO_64
    ensures SplitMessageId(MessageId(role, n)) == (if role != [] then Sequenced(role, n) else NotAnId)
  {
    var id := MessageId(role, n);
    PaddedReadsBack(n);
    assert id[|role|] == '-' && id[|role| + 1..] == Padded(n) && id[..|role|] == role;
    forall j | |role| < j < |id| ensures id[j] != '-' {
      assert id[j] == Padded(n)[j - |role| - 1] && IsDigit(Padded(n)[j - |role| - 1]);
    }
    assert LastHyphen(id) == |role|;
  }

  /** An ID is sequenced exactly when it is a non-empty role, a hyphen and a 64-bit decimal; the role may
      itself hold hyphens. */
  lemma SequencedForm(role: string, digits: string)
    requires role != [] && digits != [] && AllDigits(digits) && Value(digits) < TWO_64
    ensures SplitMessageId(role + ['-'] + digits) == Sequenced(role, Value(digits))
  {
    var id := role + ['-'] + digits;
    assert id[|role|] == '-' && id[|role| + 1..] == digits && id[..|role|] == role;
    forall j | |role| < j < |id| ensures id[j] != '-' {
      assert id[j] == digits[j - |role| - 1] && IsDigit(digits[j - |role| - 1]);
    }
    assert LastHyphen(id) == |role|;
  }

  lemma OnlySequencedForm(id: string) returns (digits: string)
    requires SplitMessageId(id).Sequenced?
    ensures var p := SplitMessageId(id);
            && p.role != [] && digits != [] && AllDigits(digits) && Value(digits) == p.n < TWO_64
            && id == p.role + ['-'] + digits
  {
    var i := LastHyphen(id);
    digits := id[i + 1..];
    assert id == id[..i] + [id[i]] + id[i + 1..];
  }

  class MessageIDMaker {
    const role: string
    var minted: nat                   // the 64-bit atomic counter

    ghost predicate Valid()
      reads this
    { minted < TWO_64 }

    constructor (role: string)
      ensures Valid() && this.role == role && minted == 0
    { this.role, minted := role, 0; }

    method Next() returns (id: string)
      requires Valid()
      modifies this
      ensures Valid() && minted == (old(minted) + 1) % TWO_64
      ensures id == MessageId(role, minted)
      ensures role != [] ==> SplitMessageId(id) == Sequenced(role, minted)
    {
      minted := (minted + 1) % TWO_64;
      id := MessageId(role, minted);
      SplitInvertsMint(role, minted);
    }
  }

  // --- What the detector accepts, over the IDs it has accepted so far ---

  // Among the last 128 accepted.
  predicate Recent(accepted: seq<string>, id: string) {
    exists i | 0 <= i < |accepted| && |accepted| - RING <= i :: accepted[i] == id
  }

  lemma RecentIsTheLast128(accepted: seq<string>, id: string)
    ensures Recent(accepted, id) <==> id in if |accepted| <= 128 then accepted else accepted[|accepted| - 128..]
  {
    var last := if |accepted| <= 128 then accepted else accepted[|accepted| - 128..];
    var skipped := |accepted| - |last|;
    assert forall i | 0 <= i < |last| :: last[i] == accepted[skipped + i];
    if Recent(accepted, id) {
      var i :| 0 <= i < |accepted| && |accepted| - RING <= i && accepted[i] == id;
      assert last[i - skipped] == id;
    }
    if id in last {
      var k :| 0 <= k < |last| && last[k] == id;
      assert accepted[skipped + k] == id;
    }
  }

  function SplitAll(ids: seq<string>): seq<Parsed> { seq(|ids|, i requires 0 <= i < |ids| => SplitMessageId(ids[i])) }

  lemma SplitAppend(ids: seq<string>, id: string)
    ensures SplitAll(ids + [id]) == SplitAll(ids) + [SplitMessageId(id)]
  {}

  // Above everything accepted for its role.
  predicate AboveMark(accepted: seq<Parsed>, role: string, n: nat) {
    forall i | 0 <= i < |accepted| && accepted[i].Sequenced? && accepted[i].role == role :: accepted[i].n < n
  }

  /** The law: sequenced IDs must exceed their role's high-water mark; other IDs must not be
      among the last 128 accepted; the empty ID always passes. */
  predicate Accepts(accepted: seq<string>, id: string) {
    match SplitMessageId(id)
    case Sequenced(role, n) => AboveMark(SplitAll(accepted), role, n)
    case NotAnId => id == [] || !Recent(accepted, id)
  }

  /** An unsequenced ID is refused exactly while it is among the last 128 accepted; the empty one never. */
  lemma UnsequencedLaw(accepted: seq<string>, id: string)
    requires SplitMessageId(id).NotAnId?
    ensures !Accepts(accepted, id) <==> id != [] && id in if |accepted| <= 128 then accepted else accepted[|accepted| - 128..]
  {
    RecentIsTheLast128(accepted, id);
  }

  /** A sequenced ID is refused exactly when its number is not above every accepted one of its role. */
  lemma SequencedLaw(accepted: seq<string>, id: string)
    requires SplitMessageId(id).Sequenced?
    ensures !Accepts(accepted, id) <==>
            exists i | 0 <= i < |accepted| ::
              var p := SplitMessageId(accepted[i]);
              p.Sequenced? && p.role == SplitMessageId(id).role && p.n >= SplitMessageId(id).n
  {
    var q := SplitMessageId(id);
    if !Accepts(accepted, id) {
      var ps := SplitAll(accepted);
      var i :| 0 <= i < |ps| && ps[i].Sequenced? && ps[i].role == q.role && ps[i].n >= q.n;
      assert SplitMessageId(accepted[i]) == ps[i];
    } else {
      forall i | 0 <= i < |accepted|
        ensures var p := SplitMessageId(accepted[i]); !(p.Sequenced? && p.role == q.role && p.n >= q.n)
      {
        assert SplitAll(accepted)[i] == SplitMessageId(accepted[i]);
      }
    }
  }

  // --- The detector as it is written ---

  // The ring slot holds the latest accepted ID of its residue class.
  predicate RingHolds(ring: seq<string>, accepted: seq<string>) {
    && |ring| == RING
    && (forall i | 0 <= i < |accepted| && |accepted| - RING <= i :: ring[i % RING] == accepted[i])
    && (forall k | |accepted| <= k < RING :: ring[k] == [])
  }

  predicate MarksHold(marks: map<string, nat>, accepted: seq<Parsed>) {
    && (forall i | 0 <= i < |accepted| && accepted[i].Sequenced? ::
          accepted[i].role in marks && accepted[i].n <= marks[accepted[i].role])
    && (forall role | role in marks :: Sequenced(role, marks[role]) in accepted)
  }

  // Looking through the ring is looking through the last 128.
  lemma RingIsRecent(ring: seq<string>, accepted: seq<string>, id: string)
    requires RingHolds(ring, accepted) && id != []
    ensures id in ring <==> Recent(accepted, id)
  {
    if id in ring {
      var k :| 0 <= k < RING && ring[k] == id;
      var i := SlotOwner(|accepted|, k);
      assert ring[i % RING] == accepted[i];
    }
  }

  // The latest index of residue k below n.
  function SlotOwner(n: nat, k: nat): (i: int)
    requires k < RING && k < n
    ensures 0 <= i < n && n - RING <= i && i % RING == k
  {
    var i := n - 1 - (n - 1 - k) % RING;
    assert i == k + RING * ((n - 1 - k) / RING);
    assert i % RING == k;
    i
  }

  lemma RingAdvances(ring: seq<string>, accepted: seq<string>, id: string)
    requires RingHolds(ring, accepted)
    ensures RingHolds(ring[|accepted| % RING := id], accepted + [id])
  {
    var next := accepted + [id];
    var ring' := ring[|accepted| % RING := id];
    forall i | 0 <= i < |next| && |next| - RING <= i ensures ring'[i % RING] == next[i] {
      if i < |accepted| {
        ResiduesDiffer(i, |accepted|);
      }
    }
  }

  // The ring as the accepted IDs were written into it, one slot after the other.
  function RingAfter(accepted: seq<string>): (ring: seq<string>)
    ensures |ring| == RING
  {
    if accepted == [] then seq(RING, _ => [])
    else RingAfter(accepted[..|accepted| - 1])[(|accepted| - 1) % RING := accepted[|accepted| - 1]]
  }

  lemma {:induction false} RingAfterHolds(accepted: seq<string>)
    ensures RingHolds(RingAfter(accepted), accepted)
  {
    if accepted != [] {
      var before := accepted[..|accepted| - 1];
      RingAfterHolds(before);
      RingAdvances(RingAfter(before), before, accepted[|accepted| - 1]);
      assert accepted == before + [accepted[|accepted| - 1]];
    }
  }

  lemma RingAfterAppend(accepted: seq<string>, id: string)
    ensures RingAfter(accepted + [id]) == RingAfter(accepted)[|accepted| % RING := id]
    ensures (|accepted| % RING + 1) % RING == |accepted + [id]| % RING
  {
    assert (accepted + [id])[..|accepted|] == accepted;
  }

  lemma ResiduesDiffer(i: nat, n: nat)
    requires i < n < i + RING
    ensures i % RING != n % RING
  {}

  lemma MarksDecide(marks: map<string, nat>, accepted: seq<Parsed>, role: string, n: nat)
    requires MarksHold(marks, accepted)
    ensures AboveMark(accepted, role, n) <==> !(role in marks && n <= marks[role])
  {}

  // A sequenced ID still in the ring is not above its own mark.
  lemma SeenIsNotAbove(accepted: seq<string>, id: string)
    requires Recent(accepted, id)
    ensures !Accepts(accepted, id) || id == []
  {
    var i :| 0 <= i < |accepted| && |accepted| - RING <= i && accepted[i] == id;
    assert SplitAll(accepted)[i] == SplitMessageId(id);
  }

  // What Observe looks at, ring first and then the role's mark, is the law.
  lemma RingAndMarksDecide(ring: seq<string>, marks: map<string, nat>, accepted: seq<string>, id: string)
    requires RingHolds(ring, accepted) && MarksHold(marks, SplitAll(accepted))
    ensures var p := SplitMessageId(id);
            Accepts(accepted, id) <==>
              !(id != [] && id in ring) && !(p.Sequenced? && p.role in marks && p.n <= marks[p.role])
  {
    if id != [] {
      RingIsRecent(ring, accepted, id);
    }
    if id != [] && id in ring {
      SeenIsNotAbove(accepted, id);
    }
    var p := SplitMessageId(id);
    if p.Sequenced? {
      MarksDecide(marks, SplitAll(accepted), p.role, p.n);
    }
  }

  lemma MarksAdvance(marks: map<string, nat>, accepted: seq<Parsed>, p: Parsed)
    requires MarksHold(marks, accepted) && (p.Sequenced? ==> AboveMark(accepted, p.role, p.n))
    ensures MarksHold(if p.Sequenced? then marks[p.role := p.n] else marks, accepted + [p])
  {
    var next := accepted + [p];
    if p.Sequenced? {
      var marks' := marks[p.role := p.n];
      forall i | 0 <= i < |next| && next[i].Sequenced?
        ensures next[i].role in marks' && next[i].n <= marks'[next[i].role]
      {
        if i < |accepted| {
          assert next[i] == accepted[i];
        }
      }
    }
  }

  lemma MarksFollow(marks: map<string, nat>, accepted: seq<string>, id: string, p: Parsed)
    requires MarksHold(marks, SplitAll(accepted)) && Accepts(accepted, id) && p == SplitMessageId(id)
    ensures MarksHold(if p.Sequenced? then marks[p.role := p.n] else marks, SplitAll(accepted + [id]))
  {
    MarksAdvance(marks, SplitAll(accepted), p);
    SplitAppend(accepted, id);
  }

  class DuplicateDetector {
    const ring: array<string>
    var next: nat
    var maxSeq: map<string, nat>
    ghost var accepted: seq<string>

    ghost predicate Valid()
      reads this, ring
    {
      && ring.Length == RING && next == |accepted| % RING
      && ring[..] == RingAfter(accepted) && MarksHold(maxSeq, SplitAll(accepted))
    }

    constructor ()
      ensures Valid() && fresh(ring) && accepted == []
    {
      ring := new string[RING](_ => []);
      next, maxSeq, accepted := 0, map[], [];
      new;
      assert ring[..] == RingAfter([]);
    }

    method Seen(id: string) returns (found: bool)
      requires Valid()
      ensures found == (id != [] && id in ring[..])
    {
      var i := 0;
      while i < RING
        invariant 0 <= i <= RING
        invariant id == [] || forall j | 0 <= j < i :: ring[j] != id
      {
        if ring[i] == id && id != [] {
          assert ring[..][i] == id;
          return true;
        }
        i := i + 1;
      }
      return false;
    }

    method Observe(id: string) returns (ok: bool)
      requires Valid()
      modifies this, ring
      ensures Valid()
      ensures ok == Accepts(old(accepted), id)
      ensures accepted == if ok then old(accepted) + [id] else old(accepted)
    {
      RingAfterHolds(accepted);
      RingAndMarksDecide(ring[..], maxSeq, accepted, id);
      var found := Seen(id);
      if found {
        return false;
      }
      var p := SplitMessageId(id);
      if p.Sequenced? && p.role in maxSeq && p.n <= maxSeq[p.role] {
        return false;
      }
      Record(id, p);
      return true;
    }

    method Push(id: string, ghost before: seq<string>)
      requires ring.Length == RING && next == |before| % RING && ring[..] == RingAfter(before)
      modifies ring, this`next
      ensures next == |before + [id]| % RING && ring[..] == RingAfter(before + [id])
    {
      RingAfterAppend(before, id);
      ring[next] := id;
      next := (next + 1) % RING;
    }

    method Record(id: string, p: Parsed)
      requires Valid() && Accepts(accepted, id) && p == SplitMessageId(id)
      modifies this, ring
      ensures Valid() && accepted == old(accepted) + [id]
    {
      MarksFollow(maxSeq, accepted, id, p);
      if p.Sequenced? {
        maxSeq := maxSeq[p.role := p.n];
      }
      Push(id, accepted);
      accepted := accepted + [id];
    }
  }

  // --- Why mint and write must be one step ---

  // Everything in a stream of frames is accepted, each after those before it.
  predicate AllAccepted(ids: seq<string>) { forall k | 0 <= k < |ids| :: Accepts(ids[..k], ids[k]) }

  lemma AllAcceptedStep(ids: seq<string>, id: string)
    ensures AllAccepted(ids + [id]) <==> AllAccepted(ids) && Accepts(ids, id)
  {
    var more := ids + [id];
    assert more[..|ids|] == ids && more[|ids|] == id;
    forall k | 0 <= k < |ids| ensures more[..k] == ids[..k] && more[k] == ids[k] {}
    if AllAccepted(more) {
      assert Accepts(more[..|ids|], more[|ids|]);
      forall k | 0 <= k < |ids| ensures Accepts(ids[..k], ids[k]) {
        assert Accepts(more[..k], more[k]);
      }
    }
  }

  // IDs of one role, and in strictly increasing order.
  predicate OfRole(role: string, ids: seq<Parsed>) {
    forall i | 0 <= i < |ids| :: ids[i].Sequenced? && ids[i].role == role
  }

  predicate Climbing(role: string, ids: seq<Parsed>) {
    && OfRole(role, ids)
    && (forall i, j | 0 <= i < j < |ids| && ids[i].Sequenced? && ids[j].Sequenced? :: ids[i].n < ids[j].n)
  }

  lemma ClimbsOnIffAbove(role: string, ids: seq<Parsed>, n: nat)
    requires Climbing(role, ids)
    ensures Climbing(role, ids + [Sequenced(role, n)]) <==> AboveMark(ids, role, n)
  {
    var more := ids + [Sequenced(role, n)];
    assert more[|ids|] == Sequenced(role, n) && forall i | 0 <= i < |ids| :: more[i] == ids[i];
  }

  lemma ClimbingPrefix(role: string, ids: seq<Parsed>, p: Parsed)
    requires Climbing(role, ids + [p])
    ensures Climbing(role, ids)
  {
    var more := ids + [p];
    assert forall i | 0 <= i < |ids| :: more[i] == ids[i];
  }

  // Frames of one role are all accepted exactly when their numbers climb.
  lemma {:induction false} AcceptedIffClimbing(role: string, ids: seq<string>)
    requires OfRole(role, SplitAll(ids))
    ensures AllAccepted(ids) <==> Climbing(role, SplitAll(ids))
    decreases |ids|
  {
    if ids != [] {
      var cut, last := ids[..|ids| - 1], ids[|ids| - 1];
      assert ids == cut + [last];
      SplitAppend(cut, last);
      var ps, p := SplitAll(cut), SplitMessageId(last);
      assert SplitAll(ids) == ps + [p];
      assert (ps + [p])[|ps|] == p && forall i | 0 <= i < |ps| :: (ps + [p])[i] == ps[i];
      assert p.Sequenced? && p.role == role;
      AcceptedIffClimbing(role, cut);
      AllAcceptedStep(cut, last);
      if Climbing(role, ps) {
        ClimbsOnIffAbove(role, ps, p.n);
      } else if Climbing(role, ps + [p]) {
        ClimbingPrefix(role, ps, p);
      }
    }
  }

  // One role's stream: the minting side's 64-bit counter and whether it has wrapped, what reached
  // the wire, and how much of it the receiver has read and accepted.
  datatype Stream = Stream(role: string, minted: nat, wrapped: bool, wire: seq<string>, read: nat, accepted: seq<string>)

  // Any goroutine mints and writes under the lock; the build or the write may fail, leaving
  // a gap. The receiver observes frames in wire order.
  datatype StreamStep = MintAndWrite(written: bool) | Observe

  predicate StreamEnabled(s: Stream, step: StreamStep) { step.Observe? ==> s.read < |s.wire| }

  function Bumped(n: nat): nat { if n + 1 == TWO_64 then 0 else n + 1 }

  function StreamNext(s: Stream, step: StreamStep): Stream
    requires StreamEnabled(s, step)
  {
    match step
    case MintAndWrite(written) =>
      s.(minted := Bumped(s.minted), wrapped := s.wrapped || s.minted + 1 == TWO_64,
         wire := if written then s.wire + [MessageId(s.role, Bumped(s.minted))] else s.wire)
    case Observe =>
      s.(read := s.read + 1,
         accepted := if Accepts(s.accepted, s.wire[s.read]) then s.accepted + [s.wire[s.read]] else s.accepted)
  }

  predicate UpTo(ids: seq<Parsed>, top: nat) {
    forall i | 0 <= i < |ids| && ids[i].Sequenced? :: ids[i].n <= top
  }

  // What was minted: the role's own IDs, and climbing ones as long as the counter has not wrapped.
  predicate MintInv(s: Stream) {
    && s.role != [] && s.minted < TWO_64 && OfRole(s.role, SplitAll(s.wire))
    && (!s.wrapped ==> Climbing(s.role, SplitAll(s.wire)) && UpTo(SplitAll(s.wire), s.minted))
  }

  // What was read: everything was accepted, or something was refused and stays missing.
  predicate ReadInv(s: Stream) {
    && s.read <= |s.wire|
    && (if AllAccepted(s.wire[..s.read]) then s.accepted == s.wire[..s.read] else |s.accepted| < s.read)
  }

  lemma ClimbsOn(role: string, ids: seq<Parsed>, top: nat)
    requires Climbing(role, ids) && UpTo(ids, top)
    ensures Climbing(role, ids + [Sequenced(role, top + 1)]) && UpTo(ids + [Sequenced(role, top + 1)], top + 1)
  {}

  lemma MintKeeps(s: Stream, written: bool)
    requires MintInv(s)
    ensures MintInv(StreamNext(s, MintAndWrite(written)))
  {
    if written {
      var n := Bumped(s.minted);
      SplitInvertsMint(s.role, n);
      SplitAppend(s.wire, MessageId(s.role, n));
      var ids := SplitAll(s.wire);
      assert forall i | 0 <= i < |ids| :: (ids + [Sequenced(s.role, n)])[i] == ids[i];
      if !s.wrapped && s.minted + 1 < TWO_64 {
        ClimbsOn(s.role, ids, s.minted);
      }
    }
  }

  lemma MintKeepsRead(s: Stream, written: bool)
    requires ReadInv(s)
    ensures ReadInv(StreamNext(s, MintAndWrite(written)))
  {
    if written {
      assert (s.wire + [MessageId(s.role, Bumped(s.minted))])[..s.read] == s.wire[..s.read];
    }
  }

  lemma ObserveKeepsRead(s: Stream)
    requires ReadInv(s) && s.read < |s.wire|
    ensures ReadInv(StreamNext(s, Observe))
  {
    var seen, id := s.wire[..s.read], s.wire[s.read];
    assert s.wire[..s.read + 1] == seen + [id];
    AllAcceptedStep(seen, id);
  }

  lemma StreamStepKeeps(s: Stream, step: StreamStep)
    requires MintInv(s) && ReadInv(s) && StreamEnabled(s, step)
    ensures MintInv(StreamNext(s, step)) && ReadInv(StreamNext(s, step))
  {
    match step
    case MintAndWrite(written) =>
      MintKeeps(s, written);
      MintKeepsRead(s, written);
    case Observe => ObserveKeepsRead(s);
  }

  predicate IsStreamRun(s: Stream, steps: seq<StreamStep>)
    decreases |steps|
  {
    steps == [] || (StreamEnabled(s, steps[0]) && IsStreamRun(StreamNext(s, steps[0]), steps[1..]))
  }

  function StreamAfter(s: Stream, steps: seq<StreamStep>): Stream
    requires IsStreamRun(s, steps)
    decreases |steps|
  {
    if steps == [] then s else StreamAfter(StreamNext(s, steps[0]), steps[1..])
  }

  lemma {:induction false} StreamRunKeeps(s: Stream, steps: seq<StreamStep>)
    requires MintInv(s) && ReadInv(s) && IsStreamRun(s, steps)
    ensures MintInv(StreamAfter(s, steps)) && ReadInv(StreamAfter(s, steps))
    decreases |steps|
  {
    if steps != [] {
      StreamStepKeeps(s, steps[0]);
      StreamRunKeeps(StreamNext(s, steps[0]), steps[1..]);
    }
  }

  // How many IDs a run mints.
  function Mints(steps: seq<StreamStep>): nat
    decreases |steps|
  {
    if steps == [] then 0 else (if steps[0].MintAndWrite? then 1 else 0) + Mints(steps[1..])
  }

  lemma {:induction false} WrapsAfterAllMints(s: Stream, steps: seq<StreamStep>)
    requires s.minted < TWO_64 && IsStreamRun(s, steps)
    ensures StreamAfter(s, steps).wrapped <==> s.wrapped || s.minted + Mints(steps) >= TWO_64
    decreases |steps|
  {
    if steps != [] {
      WrapsAfterAllMints(StreamNext(s, steps[0]), steps[1..]);
    }
  }

  function Opened(role: string): Stream { Stream(role, 0, false, [], 0, []) }

  /** For every interleaving of writers and of the receiver, with gaps wherever a build or a write
      failed: as long as the 64-bit counter has not wrapped the receiver has accepted every frame
      it read, in order; and without that bound it has exactly when the numbers of the frames
      read climb. */
  lemma EveryDeliveredFrameIsAccepted(role: string, steps: seq<StreamStep>)
    requires role != [] && IsStreamRun(Opened(role), steps)
    ensures var s := StreamAfter(Opened(role), steps);
            && s.read <= |s.wire|
            && (s.wrapped <==> Mints(steps) >= 0x1_0000_0000_0000_0000)
            && (!s.wrapped ==> s.accepted == s.wire[..s.read])
            && (s.accepted == s.wire[..s.read] <==> Climbing(role, SplitAll(s.wire[..s.read])))
  {
    StreamRunKeeps(Opened(role), steps);
    WrapsAfterAllMints(Opened(role), steps);
    StreamKeepsRole(Opened(role), steps);
    var s := StreamAfter(Opened(role), steps);
    var seen := SplitAll(s.wire[..s.read]);
    assert forall i | 0 <= i < |seen| :: seen[i] == SplitAll(s.wire)[i];
    AcceptedIffClimbing(role, s.wire[..s.read]);
  }

  lemma {:induction false} StreamKeepsRole(s: Stream, steps: seq<StreamStep>)
    requires IsStreamRun(s, steps)
    ensures StreamAfter(s, steps).role == s.role
    decreases |steps|
  {
    if steps != [] {
      StreamKeepsRole(StreamNext(s, steps[0]), steps[1..]);
    }
  }

  /** The wrap itself: number zero comes after 2^64 - 1 and is refused once anything of the role
      was accepted. */
  lemma WrappedIdIsRefused(role: string, n: nat)
    requires role != [] && n < TWO_64
    ensures Bumped(TWO_64 - 1) == 0 && !Accepts([MessageId(role, n)], MessageId(role, 0))
  {
    SplitInvertsMint(role, n);
    SplitInvertsMint(role, 0);
    var seen := SplitAll([MessageId(role, n)]);
    assert seen[0] == Sequenced(role, n);
  }

  /** Minted IDs that reach the wire in whatever order: all are accepted exactly when their
      sequence numbers climb. A writer that lost its place between minting and writing is
      therefore dropped. */
  lemma AcceptedIffInMintOrder(role: string, ns: seq<nat>)
    requires role != [] && forall i | 0 <= i < |ns| :: ns[i] < TWO_64
    ensures var ids := seq(|ns|, i requires 0 <= i < |ns| => MessageId(role, ns[i]));
            AllAccepted(ids) <==> forall i, j | 0 <= i < j < |ns| :: ns[i] < ns[j]
  {
    var ids := seq(|ns|, i requires 0 <= i < |ns| => MessageId(role, ns[i]));
    forall i | 0 <= i < |ns| ensures SplitMessageId(ids[i]) == Sequenced(role, ns[i]) {
      SplitInvertsMint(role, ns[i]);
    }
    if AllAccepted(ids) {
      forall i, j | 0 <= i < j < |ns| ensures ns[i] < ns[j] {
        assert Accepts(ids[..j], ids[j]);
        assert SplitAll(ids[..j])[i] == SplitMessageId(ids[i]);
      }
    }
    if forall i, j | 0 <= i < j < |ns| :: ns[i] < ns[j] {
      forall k | 0 <= k < |ids| ensures Accepts(ids[..k], ids[k]) {
        forall i | 0 <= i < k ensures SplitAll(ids[..k])[i] == Sequenced(role, ns[i]) {
          assert SplitAll(ids[..k])[i] == SplitMessageId(ids[i]);
        }
      }
    }
  }
}
