/** The link monitor: polls, the coordinated cable-test window, and its event record. */
module Monitor {
  import opened Machine

  const CHANNEL_CAPACITY: nat := 64

  type u64 = n: nat | n < 0x1_0000_0000_0000_0000

  datatype Duplex = Full | Half | Unknown
  datatype Snapshot = Snapshot(operstate: string, carrier: int, speed: int, duplex: Duplex, changes: u64)
  datatype Kind = CarrierLost | CarrierRestored | SpeedChanged | DuplexChanged | OperstateChanged | Renegotiation
  datatype LinkEvent = LinkEvent(kind: Kind, selfInflicted: bool, before: Snapshot, after: Snapshot)

  // --- What two consecutive snapshots imply ---

  predicate SpeedMoved(a: Snapshot, b: Snapshot) { a.speed >= 0 && b.speed >= 0 && a.speed != b.speed }
  predicate DuplexMoved(a: Snapshot, b: Snapshot) { !a.duplex.Unknown? && !b.duplex.Unknown? && a.duplex != b.duplex }

  // The sum is 64-bit arithmetic.
  predicate Flapped(a: Snapshot, b: Snapshot) { b.changes >= (a.changes + 2) % TWO_64 }

  predicate Renegotiated(a: Snapshot, b: Snapshot) {
    Flapped(a, b) || (a.carrier == 1 && b.carrier == 1 && (SpeedMoved(a, b) || DuplexMoved(a, b)))
  }

  function EventIf(c: bool, kind: Kind, self: bool, a: Snapshot, b: Snapshot): seq<LinkEvent> {
    if c then [LinkEvent(kind, self, a, b)] else []
  }

  function CarrierPart(a: Snapshot, b: Snapshot, self: bool): seq<LinkEvent> {
    EventIf(a.carrier == 1 && b.carrier == 0, CarrierLost, self, a, b)
    + EventIf(a.carrier == 0 && b.carrier == 1, CarrierRestored, self, a, b)
  }

  function FieldPart(a: Snapshot, b: Snapshot, self: bool): seq<LinkEvent> {
    EventIf(SpeedMoved(a, b), SpeedChanged, self, a, b)
    + EventIf(DuplexMoved(a, b), DuplexChanged, self, a, b)
    + EventIf(a.operstate != b.operstate, OperstateChanged, self, a, b)
  }

  // In the stable order carrier, speed, duplex, operstate, renegotiation.
  function Detect(a: Snapshot, b: Snapshot, self: bool): seq<LinkEvent> {
    CarrierPart(a, b, self) + FieldPart(a, b, self) + EventIf(Renegotiated(a, b), Renegotiation, self, a, b)
  }

  // --- The events two snapshots imply, kind by kind ---

  predicate HasKind(events: seq<LinkEvent>, kind: Kind) { exists i | 0 <= i < |events| :: events[i].kind == kind }

  // The fixed order of kinds.
  function Place(k: Kind): nat {
    match k
    case CarrierLost => 0
    case CarrierRestored => 1
    case SpeedChanged => 2
    case DuplexChanged => 3
    case OperstateChanged => 4
    case Renegotiation => 5
  }

  // Kinds between two places, each at most once and in order, all about the same two snapshots.
  predicate InOrder(events: seq<LinkEvent>, from: nat, to: nat, self: bool, a: Snapshot, b: Snapshot) {
    && (forall i | 0 <= i < |events| ::
          && from <= Place(events[i].kind) < to
          && events[i] == LinkEvent(events[i].kind, self, a, b))
    && (forall i, j | 0 <= i < j < |events| :: Place(events[i].kind) < Place(events[j].kind))
  }

  lemma HasConcat(x: seq<LinkEvent>, y: seq<LinkEvent>, kind: Kind)
    ensures HasKind(x + y, kind) <==> HasKind(x, kind) || HasKind(y, kind)
  {
    assert forall i | 0 <= i < |x| :: (x + y)[i] == x[i];
    assert forall i | 0 <= i < |y| :: (x + y)[|x| + i] == y[i];
    if HasKind(x + y, kind) {
      var i :| 0 <= i < |x + y| && (x + y)[i].kind == kind;
      assert i >= |x| ==> y[i - |x|].kind == kind;
    }
  }

  lemma HasIf(c: bool, k: Kind, self: bool, a: Snapshot, b: Snapshot, kind: Kind)
    ensures HasKind(EventIf(c, k, self, a, b), kind) <==> c && kind == k
  {
    if c {
      assert EventIf(c, k, self, a, b)[0].kind == k;
    }
  }

  lemma OrderConcat(x: seq<LinkEvent>, y: seq<LinkEvent>, from: nat, mid: nat, to: nat, self: bool, a: Snapshot, b: Snapshot)
    requires from <= mid <= to && InOrder(x, from, mid, self, a, b) && InOrder(y, mid, to, self, a, b)
    ensures InOrder(x + y, from, to, self, a, b)
  {}

  lemma CarrierKinds(a: Snapshot, b: Snapshot, self: bool, kind: Kind)
    ensures HasKind(CarrierPart(a, b, self), kind)
            <==> (kind == CarrierLost && a.carrier == 1 && b.carrier == 0) || (kind == CarrierRestored && a.carrier == 0 && b.carrier == 1)
    ensures InOrder(CarrierPart(a, b, self), 0, 2, self, a, b)
  {
    HasIf(a.carrier == 1 && b.carrier == 0, CarrierLost, self, a, b, kind);
    HasIf(a.carrier == 0 && b.carrier == 1, CarrierRestored, self, a, b, kind);
    HasConcat(EventIf(a.carrier == 1 && b.carrier == 0, CarrierLost, self, a, b),
              EventIf(a.carrier == 0 && b.carrier == 1, CarrierRestored, self, a, b), kind);
  }

  lemma FieldKinds(a: Snapshot, b: Snapshot, self: bool, kind: Kind)
    ensures HasKind(FieldPart(a, b, self), kind)
            <==> || (kind == SpeedChanged && SpeedMoved(a, b)) || (kind == DuplexChanged && DuplexMoved(a, b))
                 || (kind == OperstateChanged && a.operstate != b.operstate)
    ensures InOrder(FieldPart(a, b, self), 2, 5, self, a, b)
  {
    var x, y, z := EventIf(SpeedMoved(a, b), SpeedChanged, self, a, b), EventIf(DuplexMoved(a, b), DuplexChanged, self, a, b),
                   EventIf(a.operstate != b.operstate, OperstateChanged, self, a, b);
    HasIf(SpeedMoved(a, b), SpeedChanged, self, a, b, kind);
    HasIf(DuplexMoved(a, b), DuplexChanged, self, a, b, kind);
    HasIf(a.operstate != b.operstate, OperstateChanged, self, a, b, kind);
    HasConcat(x, y, kind);
    HasConcat(x + y, z, kind);
    OrderConcat(x, y, 2, 3, 4, self, a, b);
    OrderConcat(x + y, z, 2, 4, 5, self, a, b);
  }

  /** Which events two consecutive snapshots imply: carrier loss and return between known carriers,
      speed and duplex changes between two known values, any operstate change, and a renegotiation
      for two or more counted transitions or for a speed or duplex change with the carrier up; each
      at most once, in that order, carrying both snapshots. */
  lemma DetectedKinds(a: Snapshot, b: Snapshot, self: bool, kind: Kind)
    ensures var speed := a.speed >= 0 && b.speed >= 0 && a.speed != b.speed;
            var duplex := (a.duplex == Full && b.duplex == Half) || (a.duplex == Half && b.duplex == Full);
            var flap := if a.changes + 2 < TWO_64 then b.changes >= a.changes + 2 else b.changes >= a.changes + 2 - TWO_64;
            HasKind(Detect(a, b, self), kind) <==>
              || (kind == CarrierLost && a.carrier == 1 && b.carrier == 0)
              || (kind == CarrierRestored && a.carrier == 0 && b.carrier == 1)
              || (kind == SpeedChanged && speed)
              || (kind == DuplexChanged && duplex)
              || (kind == OperstateChanged && a.operstate != b.operstate)
              || (kind == Renegotiation && (flap || (a.carrier == 1 && b.carrier == 1 && (speed || duplex))))
    ensures InOrder(Detect(a, b, self), 0, 6, self, a, b)
  {
    var r := EventIf(Renegotiated(a, b), Renegotiation, self, a, b);
    CarrierKinds(a, b, self, kind);
    FieldKinds(a, b, self, kind);
    HasIf(Renegotiated(a, b), Renegotiation, self, a, b, kind);
    HasConcat(CarrierPart(a, b, self), FieldPart(a, b, self), kind);
    HasConcat(CarrierPart(a, b, self) + FieldPart(a, b, self), r, kind);
    OrderConcat(CarrierPart(a, b, self), FieldPart(a, b, self), 0, 2, 5, self, a, b);
    OrderConcat(CarrierPart(a, b, self) + FieldPart(a, b, self), r, 0, 5, 6, self, a, b);
    FlapTest(a, b);
    DuplexTest(a, b);
  }

  lemma FlapTest(a: Snapshot, b: Snapshot)
    ensures Flapped(a, b) <==> if a.changes + 2 < TWO_64 then b.changes >= a.changes + 2 else b.changes >= a.changes + 2 - TWO_64
  {
    if a.changes + 2 < TWO_64 {
      assert (a.changes + 2) % TWO_64 == a.changes + 2;
    } else {
      assert (a.changes + 2) % TWO_64 == a.changes + 2 - TWO_64;
    }
  }

  lemma DuplexTest(a: Snapshot, b: Snapshot)
    ensures DuplexMoved(a, b) <==> (a.duplex == Full && b.duplex == Half) || (a.duplex == Half && b.duplex == Full)
  {}

  /** A flap is seen exactly when the counter moved by two or more, except where the 64-bit sum
      wraps: there almost every poll looks like one. */
  lemma FlapIsExactBelowTheWrap(a: Snapshot, b: Snapshot)
    ensures (Flapped(a, b) <==> b.changes >= a.changes + 2)
            <==> !(a.changes >= TWO_64 - 2 && b.changes >= a.changes + 2 - TWO_64)
  {
    if a.changes + 2 < TWO_64 {
      assert (a.changes + 2) % TWO_64 == a.changes + 2;
    } else {
      assert (a.changes + 2) % TWO_64 == a.changes + 2 - TWO_64;
    }
  }

  /** A false flap: at the top of the counter a poll that saw no transition at all is recorded as a
      renegotiation. */
  lemma FalseFlapAtTheWrap(a: Snapshot)
    requires a.changes == TWO_64 - 2
    ensures Flapped(a, a) && Detect(a, a, false) == [LinkEvent(Renegotiation, false, a, a)]
  {
    assert (a.changes + 2) % TWO_64 == 0;
  }

  // --- The monitor's state and steps ---

  datatype State = State(
    last: Snapshot,
    window: bool,
    windowEvents: u64,
    history: seq<LinkEvent>,
    channel: seq<LinkEvent>,           // buffered, not yet taken by the consumer
    taken: nat,                        // events the consumer has taken
    dropped: nat)

  datatype Step =
    | Poll(snap: Snapshot)
    | SetWindow(active: bool, snap: Snapshot)     // the snapshot read if the flag changes
    | Consume                                     // the consumer takes one event

  function Fresh(baseline: Snapshot): State { State(baseline, false, 0, [], [], 0, 0) }

  function Room(s: State): nat { if |s.channel| >= CHANNEL_CAPACITY then 0 else CHANNEL_CAPACITY - |s.channel| }

  // A full channel drops and counts.
  function Emit(s: State, events: seq<LinkEvent>): State {
    if |events| <= Room(s) then s.(channel := s.channel + events)
    else s.(channel := s.channel + events[..Room(s)], dropped := s.dropped + |events| - Room(s))
  }

  function WindowCount(s: State, snap: Snapshot): u64 {
    if s.window && snap.changes >= s.last.changes then (s.windowEvents + snap.changes - s.last.changes) % TWO_64
    else s.windowEvents
  }

  // One poll: detect, tag, count, record.
  function Observe(s: State, snap: Snapshot): State {
    s.(last := snap, windowEvents := WindowCount(s, snap), history := s.history + Detect(s.last, snap, s.window))
  }

  function PollOnce(s: State, snap: Snapshot): State { Emit(Observe(s, snap), Detect(s.last, snap, s.window)) }

  function Toggle(s: State, active: bool, snap: Snapshot): State {
    if active == s.window then s
    else
      var p := PollOnce(s, snap);
      p.(window := active, windowEvents := if active then 0 else p.windowEvents)
  }

  // What SetCableTestWindow returns.
  function Reported(s: State, active: bool, snap: Snapshot): u64 {
    if active then 0 else Toggle(s, active, snap).windowEvents
  }

  function Next(s: State, step: Step): State {
    match step
    case Poll(snap) => PollOnce(s, snap)
    case SetWindow(active, snap) => Toggle(s, active, snap)
    case Consume => if s.channel == [] then s else s.(channel := s.channel[1..], taken := s.taken + 1)
  }

  function Run(s: State, steps: seq<Step>): State {
    if steps == [] then s else Next(Run(s, steps[..|steps| - 1]), steps[|steps| - 1])
  }

  // --- The record depends on polls and toggles alone ---

  // Where a run's polls stand: the last snapshot and whether the window was open.
  datatype View = View(last: Snapshot, window: bool)

  function ViewOf(s: State): View { View(s.last, s.window) }

  function NextView(v: View, step: Step): View {
    match step
    case Poll(snap) => v.(last := snap)
    case SetWindow(active, snap) => if active == v.window then v else View(snap, active)
    case Consume => v
  }

  // The events one step adds: those of its poll, self-inflicted exactly when the window was
  // open as it ran. Opening polls before the flag goes up, closing before it comes down.
  function Added(v: View, step: Step): seq<LinkEvent> {
    match step
    case Poll(snap) => Detect(v.last, snap, v.window)
    case SetWindow(active, snap) => if active == v.window then [] else Detect(v.last, snap, v.window)
    case Consume => []
  }

  function ViewAfter(v: View, steps: seq<Step>): View {
    if steps == [] then v else NextView(ViewAfter(v, steps[..|steps| - 1]), steps[|steps| - 1])
  }

  function Recorded(v: View, steps: seq<Step>): seq<LinkEvent> {
    if steps == [] then []
    else Recorded(v, steps[..|steps| - 1]) + Added(ViewAfter(v, steps[..|steps| - 1]), steps[|steps| - 1])
  }

  lemma StepRecords(s: State, step: Step)
    ensures Next(s, step).history == s.history + Added(ViewOf(s), step)
    ensures ViewOf(Next(s, step)) == NextView(ViewOf(s), step)
  {}

  /** In every run the history is what it was plus the tagged events of the polls, whatever the
      channel held and however much of it was dropped. */
  lemma {:induction false} HistoryIsTheRecord(s: State, steps: seq<Step>)
    ensures Run(s, steps).history == s.history + Recorded(ViewOf(s), steps)
    ensures ViewOf(Run(s, steps)) == ViewAfter(ViewOf(s), steps)
  {
    if steps != [] {
      HistoryIsTheRecord(s, steps[..|steps| - 1]);
      StepRecords(Run(s, steps[..|steps| - 1]), steps[|steps| - 1]);
    }
  }

  lemma DetectTags(a: Snapshot, b: Snapshot, self: bool)
    ensures forall e | e in Detect(a, b, self) :: e.selfInflicted == self
  {}

  /** An event is marked self-inflicted exactly when its poll ran inside the window. */
  lemma SelfInflictedMeansInside(s: State, step: Step)
    ensures var added := Next(s, step).history[|s.history|..];
            Next(s, step).history == s.history + added && (forall e | e in added :: e.selfInflicted == s.window)
  {
    StepRecords(s, step);
    var added := Added(ViewOf(s), step);
    assert (s.history + added)[|s.history|..] == added;
    match step
    case Poll(snap) => DetectTags(s.last, snap, s.window);
    case SetWindow(active, snap) => DetectTags(s.last, snap, s.window);
    case Consume =>
  }

  // Every event is in the channel, taken, or counted as dropped.
  predicate Accounted(s: State) { s.taken + |s.channel| + s.dropped == |s.history| && |s.channel| <= CHANNEL_CAPACITY }

  lemma EmitAccounts(s: State, events: seq<LinkEvent>)
    requires |s.channel| <= CHANNEL_CAPACITY
    ensures var r := Emit(s, events);
            && r.taken + |r.channel| + r.dropped == s.taken + |s.channel| + s.dropped + |events|
            && |r.channel| <= CHANNEL_CAPACITY && r.history == s.history
  {}

  /** The channel keeps what it holds and takes new events in order while there is room; only what
      does not fit is dropped. */
  lemma FullChannelsDropTheNewest(s: State, events: seq<LinkEvent>)
    requires |s.channel| <= 64
    ensures var r := Emit(s, events); var k := |r.channel| - |s.channel|;
            && 0 <= k <= |events| && r.channel == s.channel + events[..k] && r.dropped == s.dropped + |events| - k
            && (k < |events| ==> |r.channel| == 64)
  {
    if |events| <= Room(s) {
      assert events[..|events|] == events;
    }
  }

  /** Setting the window to what it already is polls nothing and changes nothing; a repeated close
      returns the count again. A change of the flag polls exactly once and starts the count anew
      only on opening. */
  lemma ToggleLaw(s: State, active: bool, snap: Snapshot)
    ensures var r := Toggle(s, active, snap);
            && r.window == active
            && (active == s.window ==> r == s && Reported(s, active, snap) == if active then 0 else s.windowEvents)
            && (active != s.window ==> r.last == snap && |r.history| == |s.history| + |Detect(s.last, snap, s.window)|)
            && (active && !s.window ==> r.windowEvents == 0 && Reported(s, active, snap) == 0)
  {}

  lemma {:induction false} NothingIsLost(baseline: Snapshot, steps: seq<Step>)
    ensures Accounted(Run(Fresh(baseline), steps))
  {
    if steps != [] {
      NothingIsLost(baseline, steps[..|steps| - 1]);
      var s := Run(Fresh(baseline), steps[..|steps| - 1]);
      match steps[|steps| - 1]
      case Poll(snap) => EmitAccounts(Observe(s, snap), Detect(s.last, snap, s.window));
      case SetWindow(active, snap) => EmitAccounts(Observe(s, snap), Detect(s.last, snap, s.window));
      case Consume =>
    }
  }

  // --- The window count ---

  function Gain(a: nat, b: nat): nat { if b > a then b - a else 0 }

  // How far the counter went forward and backward over the polls of an open window.
  function Forward(from: nat, steps: seq<Step>): nat {
    if steps == [] then 0
    else
      var before := CounterAfter(from, steps[..|steps| - 1]);
      var now := CounterAfter(from, steps);
      Forward(from, steps[..|steps| - 1]) + Gain(before, now)
  }

  function Backward(from: nat, steps: seq<Step>): nat {
    if steps == [] then 0
    else
      var before := CounterAfter(from, steps[..|steps| - 1]);
      var now := CounterAfter(from, steps);
      Backward(from, steps[..|steps| - 1]) + Gain(now, before)
  }

  function CounterAfter(from: nat, steps: seq<Step>): nat {
    if steps == [] then from
    else if steps[|steps| - 1].Poll? then steps[|steps| - 1].snap.changes
    else CounterAfter(from, steps[..|steps| - 1])
  }

  lemma {:induction false} ForwardMinusBackward(from: nat, steps: seq<Step>)
    ensures from + Forward(from, steps) == CounterAfter(from, steps) + Backward(from, steps)
  {
    if steps != [] {
      ForwardMinusBackward(from, steps[..|steps| - 1]);
    }
  }

  predicate StaysOpen(steps: seq<Step>) { forall i | 0 <= i < |steps| && steps[i].SetWindow? :: steps[i].active }

  function Polls(steps: seq<Step>, closing: Snapshot): seq<Step> { steps + [Poll(closing)] }

  lemma PollCounts(s: State, snap: Snapshot, sofar: nat)
    requires s.window && s.windowEvents == sofar % TWO_64
    ensures PollOnce(s, snap).windowEvents == (sofar + Gain(s.last.changes, snap.changes)) % TWO_64
  {
    AddWraps(sofar, Gain(s.last.changes, snap.changes));
  }

  lemma {:induction false} WindowCounts(s: State, steps: seq<Step>)
    requires s.window && s.windowEvents == 0 && StaysOpen(steps)
    ensures var e := Run(s, steps);
            && e.window && e.last.changes == CounterAfter(s.last.changes, steps)
            && e.windowEvents == Forward(s.last.changes, steps) % TWO_64
  {
    if steps != [] {
      var cut := steps[..|steps| - 1];
      WindowCounts(s, cut);
      var e := Run(s, cut);
      match steps[|steps| - 1]
      case Poll(snap) =>
        PollCounts(e, snap, Forward(s.last.changes, cut));
      case _ =>
    }
  }

  lemma AddWraps(a: nat, b: nat)
    ensures (a % TWO_64 + b) % TWO_64 == (a + b) % TWO_64
  {}

  lemma ClosingCounts(s: State, opening: Snapshot, steps: seq<Step>, closing: Snapshot)
    requires !s.window && StaysOpen(steps)
    ensures Reported(Run(Toggle(s, true, opening), steps), false, closing)
            == Forward(opening.changes, Polls(steps, closing)) % TWO_64
  {
    var w := Toggle(s, true, opening);
    var polls := Polls(steps, closing);
    assert polls[..|polls| - 1] == steps;
    WindowCounts(w, steps);
    PollCounts(Run(w, steps), closing, Forward(opening.changes, steps));
  }

  /** Closing the window reports how far the carrier counter advanced between the opening and
      the closing poll, in 64 bits; that is the difference of the two counters exactly when the
      counter did not end lower and what it lost on the way is a multiple of 2^64 (nothing at
      all, short of a counter that was reset from the very top). */
  lemma ClosingReportsTheDifference(s: State, opening: Snapshot, steps: seq<Step>, closing: Snapshot)
    requires !s.window && StaysOpen(steps)
    ensures var inside := Run(Toggle(s, true, opening), steps);
            var from, polls := opening.changes, Polls(steps, closing);
            && Reported(inside, false, closing) == Forward(from, polls) % TWO_64
            && (Reported(inside, false, closing) == closing.changes - from
                <==> closing.changes >= from && Backward(from, polls) % TWO_64 == 0)
            && (Backward(from, polls) == 0 ==> Reported(inside, false, closing) == closing.changes - from)
  {
    var from, polls := opening.changes, Polls(steps, closing);
    ClosingCounts(s, opening, steps, closing);
    ForwardMinusBackward(from, polls);
    assert CounterAfter(from, polls) == closing.changes;
    DifferenceIffForward(from, closing.changes, Forward(from, polls), Backward(from, polls));
  }

  lemma DifferenceIffForward(from: nat, to: nat, forward: nat, backward: nat)
    requires from + forward == to + backward && to < TWO_64
    ensures forward % TWO_64 == to - from <==> to >= from && backward % TWO_64 == 0
    ensures backward == 0 ==> forward % TWO_64 == to - from
  {
    if to >= from {
      WholeTurns(to - from, backward);
    }
  }

  // Adding b changes nothing modulo 2^64 exactly when b is a multiple of it.
  lemma WholeTurns(d: nat, b: nat)
    requires d < TWO_64
    ensures (d + b) % TWO_64 == d <==> b % TWO_64 == 0
  {
    AddWraps(b, d);
    var r := b % TWO_64;
    assert (d + b) % TWO_64 == (r + d) % TWO_64;
    if r + d < TWO_64 {
      assert (r + d) % TWO_64 == r + d;
    } else {
      assert (r + d) % TWO_64 == r + d - TWO_64;
    }
  }

  // --- The monitor as it is written ---

  method DetectEvents(a: Snapshot, b: Snapshot) returns (events: seq<LinkEvent>)
    ensures events == Detect(a, b, false)
  {
    events := [];
    if a.carrier == 1 && b.carrier == 0 {
      events := events + [LinkEvent(CarrierLost, false, a, b)];
    } else if a.carrier == 0 && b.carrier == 1 {
      events := events + [LinkEvent(CarrierRestored, false, a, b)];
    }
    assert events == CarrierPart(a, b, false);
    if SpeedMoved(a, b) {
      events := events + [LinkEvent(SpeedChanged, false, a, b)];
    }
    if DuplexMoved(a, b) {
      events := events + [LinkEvent(DuplexChanged, false, a, b)];
    }
    if a.operstate != b.operstate {
      events := events + [LinkEvent(OperstateChanged, false, a, b)];
    }
    assert events == CarrierPart(a, b, false) + FieldPart(a, b, false);
    var flap := b.changes >= (a.changes + 2) % TWO_64;
    if flap || (a.carrier == 1 && b.carrier == 1 && (SpeedMoved(a, b) || DuplexMoved(a, b))) {
      events := events + [LinkEvent(Renegotiation, false, a, b)];
    }
  }

  function Marked(e: LinkEvent): LinkEvent { e.(selfInflicted := true) }

  function MarkAll(events: seq<LinkEvent>): (r: seq<LinkEvent>)
    ensures |r| == |events| && forall i | 0 <= i < |r| :: r[i] == Marked(events[i])
  { seq(|events|, i requires 0 <= i < |events| => Marked(events[i])) }

  lemma MarkConcat(a: seq<LinkEvent>, b: seq<LinkEvent>)
    ensures MarkAll(a + b) == MarkAll(a) + MarkAll(b)
  {}

  lemma MarkIf(c: bool, kind: Kind, a: Snapshot, b: Snapshot)
    ensures MarkAll(EventIf(c, kind, false, a, b)) == EventIf(c, kind, true, a, b)
  {}

  lemma TagsMark(a: Snapshot, b: Snapshot)
    ensures MarkAll(Detect(a, b, false)) == Detect(a, b, true)
  {
    CarrierMarks(a, b);
    FieldMarks(a, b);
    MarkIf(Renegotiated(a, b), Renegotiation, a, b);
    MarkConcat(CarrierPart(a, b, false), FieldPart(a, b, false));
    MarkConcat(CarrierPart(a, b, false) + FieldPart(a, b, false), EventIf(Renegotiated(a, b), Renegotiation, false, a, b));
  }

  lemma CarrierMarks(a: Snapshot, b: Snapshot)
    ensures MarkAll(CarrierPart(a, b, false)) == CarrierPart(a, b, true)
  {}

  lemma FieldMarks(a: Snapshot, b: Snapshot)
    ensures MarkAll(FieldPart(a, b, false)) == FieldPart(a, b, true)
  {
    MarkIf(SpeedMoved(a, b), SpeedChanged, a, b);
    MarkIf(DuplexMoved(a, b), DuplexChanged, a, b);
    MarkIf(a.operstate != b.operstate, OperstateChanged, a, b);
    MarkConcat(EventIf(SpeedMoved(a, b), SpeedChanged, false, a, b), EventIf(DuplexMoved(a, b), DuplexChanged, false, a, b));
    MarkConcat(EventIf(SpeedMoved(a, b), SpeedChanged, false, a, b) + EventIf(DuplexMoved(a, b), DuplexChanged, false, a, b),
               EventIf(a.operstate != b.operstate, OperstateChanged, false, a, b));
  }

  method Tag(events: seq<LinkEvent>) returns (r: seq<LinkEvent>)
    ensures r == MarkAll(events)
  {
    r := events;
    for i := 0 to |events|
      invariant |r| == |events|
      invariant forall k | 0 <= k < |r| :: r[k] == if k < i then Marked(events[k]) else events[k]
    {
      r := r[i := r[i].(selfInflicted := true)];
    }
  }

  lemma EmitOneMore(s: State, events: seq<LinkEvent>, i: nat)
    requires i < |events| && |s.channel| <= CHANNEL_CAPACITY
    ensures Emit(Emit(s, events[..i]), [events[i]]) == Emit(s, events[..i + 1])
  {
    assert events[..i + 1] == events[..i] + [events[i]];
    if i + 1 <= Room(s) {
      assert s.channel + events[..i] + [events[i]] == s.channel + events[..i + 1];
    } else if i <= Room(s) {
      assert events[..i + 1][..Room(s)] == events[..i];
      assert [events[i]][..0] == [];
    } else {
      assert events[..i + 1][..Room(s)] == events[..i][..Room(s)];
      assert [events[i]][..0] == [];
    }
  }

  class LinkMonitor {
    var last: Snapshot
    var cableTestWindow: bool
    var windowCarrierEvents: u64
    var history: seq<LinkEvent>
    var channel: seq<LinkEvent>
    var taken: nat
    var dropped: nat

    ghost function Value(): State
      reads this
    { State(last, cableTestWindow, windowCarrierEvents, history, channel, taken, dropped) }

    // The baseline is polled on construction.
    constructor (baseline: Snapshot)
      ensures Value() == Fresh(baseline)
    {
      last, cableTestWindow, windowCarrierEvents := baseline, false, 0;
      history, channel, taken, dropped := [], [], 0, 0;
    }

    method EmitOne(e: LinkEvent)
      requires |channel| <= CHANNEL_CAPACITY
      modifies this`channel, this`dropped
      ensures Value() == Emit(old(Value()), [e]) && |channel| <= CHANNEL_CAPACITY
    {
      if |channel| < CHANNEL_CAPACITY {
        channel := channel + [e];
      } else {
        dropped := dropped + 1;
        assert channel + [e][..0] == channel;
      }
    }

    method EmitAll(events: seq<LinkEvent>)
      requires |channel| <= CHANNEL_CAPACITY
      modifies this`channel, this`dropped
      ensures Value() == Emit(old(Value()), events) && |channel| <= CHANNEL_CAPACITY
    {
      assert channel + events[..0] == channel;
      for i := 0 to |events|
        invariant Value() == Emit(old(Value()), events[..i]) && |channel| <= CHANNEL_CAPACITY
      {
        EmitOneMore(old(Value()), events, i);
        EmitOne(events[i]);
      }
      assert events[..|events|] == events;
    }

    method PollLocked(snap: Snapshot) returns (events: seq<LinkEvent>)
      modifies this`last, this`windowCarrierEvents, this`history
      ensures Value() == Observe(old(Value()), snap)
      ensures events == Detect(old(last), snap, cableTestWindow)
    {
      var prev := last;
      last := snap;
      events := DetectEvents(prev, snap);
      if cableTestWindow {
        TagsMark(prev, snap);
        events := Tag(events);
        if snap.changes >= prev.changes {
          windowCarrierEvents := (windowCarrierEvents + (snap.changes - prev.changes)) % TWO_64;
        }
      }
      history := history + events;
    }

    method Poll(snap: Snapshot)
      requires |channel| <= CHANNEL_CAPACITY
      modifies this
      ensures Value() == PollOnce(old(Value()), snap) && |channel| <= CHANNEL_CAPACITY
    {
      var events := PollLocked(snap);
      EmitAll(events);
    }

    method SetCableTestWindow(active: bool, snap: Snapshot) returns (count: u64)
      requires |channel| <= CHANNEL_CAPACITY
      modifies this
      ensures Value() == Toggle(old(Value()), active, snap) && |channel| <= CHANNEL_CAPACITY
      ensures count == Reported(old(Value()), active, snap)
    {
      if active == cableTestWindow {
        return if active then 0 else windowCarrierEvents;
      }
      Poll(snap);
      if active {
        windowCarrierEvents := 0;
      }
      cableTestWindow := active;
      return if active then 0 else windowCarrierEvents;
    }
  }
}
