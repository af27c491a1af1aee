/** What one side keeps in every run, whatever frames the other side sends. */
module SessionRuns {
  import opened SessionState
  import opened Session

  predicate InLoop(st: State) {
    st.WaitingForLocalStart? || st.WaitingForPeerStart? || st.Ready? || st.Testing? || st.GeneratingReport?
  }

  // Where the loop can be, and how the readiness flags follow the state.
  predicate PhaseInv(s: Session) {
    !s.closed ==>
      && InLoop(s.state)
      && (s.state == WaitingForLocalStart <==> !s.localReady)
      && (s.state == WaitingForPeerStart ==> !s.peerReady)
      && (s.state.Ready? || InTests(s.state) ==> s.peerReady)
      && (s.countdown > 0 ==> s.state == Ready)
      && (s.planRunning ==> s.role == PC1 && s.state == Testing)
      && (s.sentComplete ==> s.role == PC1 && s.state == GeneratingReport)
      && (s.transferRunning ==> s.state == GeneratingReport)
      && (s.transferOn <==> s.transferRunning)
      && (s.transferOn ==> s.transferRan)
  }

  // Every finish the loop chooses is a legal move, and teardown makes it.
  predicate FinishInv(s: Session) {
    && (s.fin.Finishing? ==> Ended(s.fin.state) && (!s.closed ==> Allowed(s.state, s.fin.state)))
    && (s.closed ==> s.fin.Finishing? && s.state == s.fin.state)
  }

  // The slot belongs to the one executor whose completion is outstanding.
  predicate SlotInv(x: Executor) {
    && (x.active.ActiveOp? <==> x.running.RunningFor?)
    && (x.active.ActiveOp? ==> x.running.id == x.active.id)
    && (x.active.ActiveOp? && (x.active.op.WindowStart? || x.active.op.WindowEnd?) ==> x.window)
  }

  function Slot(x: Executor): multiset<Id> {
    if x.active.ActiveOp? then multiset{x.active.id} else multiset{}
  }

  // Each request taken up is answered exactly once or owns the slot.
  predicate LedgerInv(x: Executor) { x.handled == x.answered + Slot(x) }

  predicate Alternates(hooks: seq<bool>) { forall i | 0 <= i < |hooks| :: hooks[i] == (i % 2 == 0) }

  predicate WindowInv(x: Executor, hooked: bool, closed: bool) {
    && Alternates(x.hooks)
    && (hooked ==> (x.window <==> |x.hooks| % 2 == 1))
    && (!hooked ==> x.hooks == [])
    && (!closed ==> x.idleWide == x.window)
    && (closed ==> !x.window)
  }

  predicate ExecInv(x: Executor, hooked: bool, closed: bool) {
    (!closed ==> SlotInv(x)) && LedgerInv(x) && WindowInv(x, hooked, closed)
  }

  predicate SideInv(s: Session) {
    PhaseInv(s) && FinishInv(s) && ExecInv(s.exec, s.hooked, s.closed)
  }

  // --- Handlers that leave the executor alone ---

  // A step that leaves the executor alone owes only the phase and finish parts.
  lemma CoreStep(s: Session, s': Session)
    requires SideInv(s) && s'.exec == s.exec && s'.hooked == s.hooked && s'.closed == s.closed
    requires PhaseInv(s') && FinishInv(s')
    ensures SideInv(s')
  {}

  lemma StartKeeps(s: Session, fate: Fate)
    requires SideInv(s) && s.fin.Undecided? && !s.closed
    ensures SideInv(SendLocalReady(s, fate))
  {
    CoreStep(s, SendLocalReady(s, fate));
  }

  lemma PeerReadyKeeps(s: Session, fate: Fate)
    requires SideInv(s) && s.fin.Undecided? && !s.closed
    ensures SideInv(HandlePeerReady(s, fate))
  {
    if s.peerReady || s.state == WaitingForLocalStart || s.state == WaitingForPeerStart {
      CoreStep(s, HandlePeerReady(s, fate));
    } else {
      StrikeKeeps(s, fate);
    }
  }

  lemma TickKeeps(s: Session)
    requires SideInv(s) && s.fin.Undecided? && !s.closed
    ensures SideInv(OnCountdownTick(s))
  {
    CoreStep(s, OnCountdownTick(s));
  }

  lemma StartConfirmKeeps(s: Session, m: Message, fate: Fate)
    requires SideInv(s) && s.fin.Undecided? && !s.closed
    requires m.StartConfirm? || m == Undecodable(BadStartConfirm)
    ensures SideInv(HandleStartConfirmation(s, m, fate))
  {
    if s.role != PC2 || s.state != Ready {
      StrikeKeeps(s, fate);
    } else {
      CoreStep(s, HandleStartConfirmation(s, m, fate));
    }
  }

  lemma StrikeKeeps(s: Session, fate: Fate)
    requires SideInv(s) && s.fin.Undecided? && !s.closed
    ensures SideInv(WarnInvalidState(s, fate))
  {
    CoreStep(s, WarnInvalidState(s, fate));
  }

  lemma RouteKeeps(s: Session, fate: Fate)
    requires SideInv(s) && s.fin.Undecided? && !s.closed
    ensures SideInv(RouteTransferFrame(s, fate))
  {
    if !(s.transferOn || s.transferRan) {
      StrikeKeeps(s, fate);
    }
  }

  lemma EnterReportKeeps(s: Session)
    requires SideInv(s) && s.fin.Undecided? && !s.closed && s.role == PC2 && InTests(s.state)
    ensures SideInv(EnterReport(s)) && EnterReport(s).state == GeneratingReport
  {
    CoreStep(s, EnterReport(s));
  }

  lemma ManifestKeeps(s: Session, fate: Fate)
    requires SideInv(s) && s.fin.Undecided? && !s.closed
    ensures SideInv(HandleReportManifest(s, fate))
  {
    if s.role != PC2 || !InTests(s.state) {
      StrikeKeeps(s, fate);
    } else {
      EnterReportKeeps(s);
      CoreStep(EnterReport(s), HandleReportManifest(s, fate));
    }
  }

  lemma CompletionKeeps(s: Session, m: Message, reply: Payload, fate: Fate)
    requires SideInv(s) && s.fin.Undecided? && !s.closed && (m.Complete? || m == Undecodable(BadComplete))
    ensures SideInv(HandleComplete(s, m, reply, fate))
  {
    if m.Undecodable? {
    } else if (if s.role == PC1 then !s.sentComplete else !InTests(s.state)) {
      StrikeKeeps(s, fate);
    } else if s.role == PC1 {
      CoreStep(s, FinishCompleted(s, m.payload));
    } else {
      EnterReportKeeps(s);
      SendStep(EnterReport(s), Complete(reply), fate.first);
      var t := Send(EnterReport(s), Complete(reply), fate.first);
      CoreStep(t, FinishCompleted(t, m.payload));
    }
  }

  lemma PlanKeeps(s: Session, result: PlanResult, verdict: Payload, fate: Fate)
    requires SideInv(s) && s.fin.Undecided? && !s.closed && s.planRunning
    ensures SideInv(HandlePlanDone(s, result, verdict, fate))
  {
    CoreStep(s, HandlePlanDone(s, result, verdict, fate));
  }

  lemma TransferKeeps(s: Session, failed: bool, verdict: Payload, fate: Fate)
    requires SideInv(s) && s.fin.Undecided? && !s.closed && s.transferRunning
    ensures SideInv(HandleTransferDone(s, failed, verdict, fate))
  {
    CoreStep(s, HandleTransferDone(s, failed, verdict, fate));
  }

  // --- Handlers of the executor ---

  // A step that changes only the executor owes only the executor parts.
  lemma ExecStep(s: Session, x: Executor)
    requires SideInv(s) && ExecInv(x, s.hooked, s.closed)
    ensures SideInv(WithExec(s, x))
  {}

  lemma SettledStep(s: Session, x: Executor, id: Id)
    ensures WithExec(WithExec(s, x), Settle(WithExec(s, x).exec, id)) == WithExec(s, Settle(x, id))
  {}

  lemma SendStep(s: Session, m: Message, ok: bool)
    requires SideInv(s)
    ensures SideInv(Send(s, m, ok))
  {}

  lemma AcceptKeeps(x: Executor, hooked: bool, id: Id, op: Op)
    requires ExecInv(x, hooked, false) && !Immediate(x, op)
    ensures ExecInv(Accept(TakeUp(x, id), hooked, id, op), hooked, false)
  {
    var y := Accept(TakeUp(x, id), hooked, id, op);
    assert Slot(x) == multiset{} && Slot(y) == multiset{id};
    assert y.handled == x.handled + multiset{id} && y.answered == x.answered;
    assert WindowInv(y, hooked, false);
  }

  lemma SettleKeeps(x: Executor, hooked: bool, id: Id)
    requires ExecInv(x, hooked, false)
    ensures ExecInv(Settle(TakeUp(x, id), id), hooked, false)
  {
    var y := Settle(TakeUp(x, id), id);
    assert Slot(y) == Slot(x);
    assert y.handled == x.answered + Slot(x) + multiset{id} == y.answered + Slot(y);
  }

  lemma ReleaseKeeps(x: Executor, hooked: bool, ok: bool)
    requires ExecInv(x, hooked, false) && x.running.RunningFor?
    ensures ExecInv(Settle(Release(x, hooked, ok), x.running.id), hooked, false)
  {
    var y := Release(x, hooked, ok);
    assert Slot(x) == multiset{x.running.id} && Slot(y) == multiset{};
    assert y.handled == x.handled && y.answered == x.answered;
    assert WindowInv(y, hooked, false);
  }

  lemma SettledRequestKeeps(s: Session, id: Id, ok: bool)
    requires SideInv(s) && !s.closed
    ensures SideInv(Answer(WithExec(s, TakeUp(s.exec, id)), id, ok))
  {
    var x := TakeUp(s.exec, id);
    SettleKeeps(s.exec, s.hooked, id);
    ExecStep(s, Settle(x, id));
    SettledStep(s, x, id);
    SendStep(WithExec(s, Settle(x, id)), TestResult(id), ok);
  }

  lemma AcceptedRequestKeeps(s: Session, id: Id, op: Op)
    requires SideInv(s) && !s.closed && !Immediate(s.exec, op)
    ensures SideInv(WithExec(s, Accept(TakeUp(s.exec, id), s.hooked, id, op)))
  {
    AcceptKeeps(s.exec, s.hooked, id, op);
    ExecStep(s, Accept(TakeUp(s.exec, id), s.hooked, id, op));
  }

  lemma RequestKeeps(s: Session, m: Message, fate: Fate)
    requires SideInv(s) && s.fin.Undecided? && !s.closed && (m.TestRequest? || m == Undecodable(BadTestRequest))
    ensures SideInv(HandleTestRequest(s, m, fate))
  {
    if s.role != PC2 || s.state != Testing {
      StrikeKeeps(s, fate);
    } else if m.TestRequest? {
      if Immediate(s.exec, m.op) {
        SettledRequestKeeps(s, m.id, fate.first);
      } else {
        AcceptedRequestKeeps(s, m.id, m.op);
      }
    }
  }

  lemma OpDoneKeeps(s: Session, ok: bool, fate: Fate)
    requires SideInv(s) && s.fin.Undecided? && !s.closed && s.exec.running.RunningFor?
    ensures SideInv(HandleOpDone(s, ok, fate))
  {
    var id := s.exec.running.id;
    var x := Release(s.exec, s.hooked, ok);
    ReleaseKeeps(s.exec, s.hooked, ok);
    ExecStep(s, Settle(x, id));
    SettledStep(s, x, id);
    SendStep(WithExec(s, Settle(x, id)), TestResult(id), fate.first);
  }

  lemma TearDownKeeps(s: Session)
    requires SideInv(s) && s.fin.Finishing? && !s.closed
    ensures SideInv(TearDown(s, s.fin.state))
  {
    WindowShut(s.exec, s.hooked);
  }

  lemma WindowShut(x: Executor, hooked: bool)
    requires ExecInv(x, hooked, false)
    ensures ExecInv(LeaveWindow(x, hooked), hooked, true)
  {
    assert Slot(LeaveWindow(x, hooked)) == Slot(x);
  }

  lemma ShutdownKeeps(s: Session, fate: Fate)
    requires SideInv(s) && s.fin.Finishing? && !s.closed
    ensures SideInv(ShutDown(s, fate))
  {
    SendStep(s, Abort, s.fin.farewell && fate.first);
    TearDownKeeps(Send(s, Abort, s.fin.farewell && fate.first));
  }

  lemma FrameKeeps(s: Session, m: Message, reply: Payload, fate: Fate)
    requires SideInv(s) && s.fin.Undecided? && !s.closed
    ensures SideInv(HandleFrame(s, m, reply, fate))
  {
    match m
    case ReadyMsg => PeerReadyKeeps(s, fate);
    case StartConfirm(_) => StartConfirmKeeps(s, m, fate);
    case TestRequest(_, _) => RequestKeeps(s, m, fate);
    case TestResult(_) =>
    case Manifest(_) => ManifestKeeps(s, fate);
    case ReportChunk => RouteKeeps(s, fate);
    case ReportAck(_) => RouteKeeps(s, fate);
    case Complete(_) => CompletionKeeps(s, m, reply, fate);
    case Abort => AbortKeeps(s);
    case Undecodable(_) => UndecodableKeeps(s, m, reply, fate);
    case HandshakeMsg => StrikeKeeps(s, fate);
    case Passive =>
  }

  lemma AbortKeeps(s: Session)
    requires SideInv(s) && s.fin.Undecided? && !s.closed
    ensures SideInv(s.(fin := Finishing(Aborted, false)))
  {
    CoreStep(s, s.(fin := Finishing(Aborted, false)));
  }

  lemma UndecodableKeeps(s: Session, m: Message, reply: Payload, fate: Fate)
    requires SideInv(s) && s.fin.Undecided? && !s.closed && m.Undecodable?
    ensures SideInv(HandleFrame(s, m, reply, fate))
  {
    match m.kind
    case BadStartConfirm => StartConfirmKeeps(s, m, fate);
    case BadTestRequest => RequestKeeps(s, m, fate);
    case BadComplete => CompletionKeeps(s, m, reply, fate);
  }

  lemma HandleKeeps(s: Session, ev: Event)
    requires SideInv(s) && Enabled(s, ev)
    ensures SideInv(Handle(s, ev))
  {
    match ev
    case Start(fate) => StartKeeps(s, fate);
    case Tick => TickKeeps(s);
    case Deliver(m, reply, fate) => FrameKeeps(s, m, reply, fate);
    case PlanDone(result, verdict, fate) => PlanKeeps(s, result, verdict, fate);
    case TransferDone(failed, verdict, fate) => TransferKeeps(s, failed, verdict, fate);
    case OpDone(ok, fate) => OpDoneKeeps(s, ok, fate);
    case LocalAbort => CoreStep(s, Handle(s, ev));
    case ConnLost => CoreStep(s, Handle(s, ev));
    case CallExpired => CoreStep(s, Handle(s, ev));
    case Background(m) => CoreStep(s, Handle(s, ev));
    case Shutdown(fate) => ShutdownKeeps(s, fate);
  }

  // --- Whole runs of one side ---

  predicate IsRun(s: Session, events: seq<Event>)
    decreases |events|
  {
    events == [] || (Enabled(s, events[0]) && IsRun(Handle(s, events[0]), events[1..]))
  }

  function EndOf(s: Session, events: seq<Event>): Session
    requires IsRun(s, events)
    decreases |events|
  {
    if events == [] then s else EndOf(Handle(s, events[0]), events[1..])
  }

  lemma {:induction false} RunKeeps(s: Session, events: seq<Event>)
    requires SideInv(s) && IsRun(s, events)
    ensures SideInv(EndOf(s, events))
    decreases |events|
  {
    if events != [] {
      HandleKeeps(s, events[0]);
      RunKeeps(Handle(s, events[0]), events[1..]);
    }
  }

  /** On either side, in any run against any peer: a session that has shut down is in the
      very terminal state its loop chose. */
  lemma ShutdownLandsWhereChosen(start: Session, events: seq<Event>)
    requires start == Fresh(start.role, start.receives, start.sendsReports, start.hooked)
    requires IsRun(start, events) && EndOf(start, events).fin.Finishing?
    ensures var s := EndOf(start, events);
            if s.closed then s.state == s.fin.state && Terminal(s.state)
            else Allowed(s.state, s.fin.state)
  {
    RunKeeps(start, events);
    TerminalStates(EndOf(start, events).state);
  }

  /** A ready frame never costs a strike, in any run and whatever the peer is: a side that has not
      heard one yet is still waiting for its own start or for the peer's. */
  lemma ReadyIsNeverStruck(start: Session, events: seq<Event>, reply: Payload, fate: Fate)
    requires start == Fresh(start.role, start.receives, start.sendsReports, start.hooked)
    requires IsRun(start, events) && Enabled(EndOf(start, events), Deliver(ReadyMsg, reply, fate))
    ensures var s := EndOf(start, events);
            Handle(s, Deliver(ReadyMsg, reply, fate)).invalidState == s.invalidState
  {
    RunKeeps(start, events);
    ReadyAddsNoStrike(EndOf(start, events), fate);
  }

  lemma ReadyAddsNoStrike(s: Session, fate: Fate)
    requires PhaseInv(s) && !s.closed
    ensures HandlePeerReady(s, fate).invalidState == s.invalidState
  {
    if s.state == WaitingForPeerStart {
      var t := Move(NotePeerReady(s), Ready);
      assert t.invalidState == s.invalidState;
      assert OnBothReady(t, fate.first).invalidState == t.invalidState;
    }
  }

  /** The worker's executor in any run against any coordinator: every decodable request taken
      up in testing was answered exactly once or owns the one slot, and with no failed write
      the answers are exactly the test_results on the wire; the window callback alternates
      open and close and ends closed; the idle timeout is widened exactly while the window
      is open. */
  lemma ExecutorIsSound(start: Session, events: seq<Event>)
    requires start == Fresh(start.role, start.receives, start.sendsReports, start.hooked)
    requires IsRun(start, events)
    ensures var s := EndOf(start, events); var x := s.exec;
            && x.handled == DueIn(start, events)
            && x.handled == x.answered + (if x.active.ActiveOp? then multiset{x.active.id} else multiset{})
            && (forall i | 0 <= i < |x.hooks| :: x.hooks[i] == (i % 2 == 0))
            && (!s.closed ==> x.idleWide == x.window)
            && (s.hooked && !s.closed ==> (x.window <==> |x.hooks| % 2 == 1))
            && (s.closed ==> |x.hooks| % 2 == 0)
    ensures (forall ev | ev in events :: WritesSucceed(ev)) ==>
              Results(EndOf(start, events).sent) == EndOf(start, events).exec.answered
  {
    RunKeeps(start, events);
    RunPays(start, events);
  }

  // What no step takes back: the frames on the wire, the role, and that a transfer ran.
  predicate Grows(s: Session, t: Session) {
    s.sent <= t.sent && t.role == s.role && (s.transferRan ==> t.transferRan)
  }

  // The test_results on the wire.
  function Results(ms: seq<Message>): multiset<Id> {
    if ms == [] then multiset{}
    else Results(ms[..|ms| - 1]) + (if ms[|ms| - 1].TestResult? then multiset{ms[|ms| - 1].inReplyTo} else multiset{})
  }

  lemma ResultsAppend(ms: seq<Message>, m: Message)
    ensures Results(ms + [m]) == Results(ms) + (if m.TestResult? then multiset{m.inReplyTo} else multiset{})
  {
    assert (ms + [m])[..|ms|] == ms;
  }

  // Every answer that was due is on the wire.
  predicate Balanced(s: Session) { Results(s.sent) == s.exec.answered }

  // A step that takes up and answers nothing.
  predicate Calm(s: Session, t: Session) {
    && Grows(s, t) && Results(t.sent) == Results(s.sent)
    && t.exec.answered == s.exec.answered && t.exec.handled == s.exec.handled
  }

  lemma SendGrows(s: Session, m: Message, ok: bool)
    requires !m.TestResult?
    ensures Calm(s, Send(s, m, ok))
  {
    ResultsAppend(s.sent, m);
  }

  lemma WarnGrows(s: Session, fate: Fate)
    ensures Calm(s, WarnInvalidState(s, fate))
  {
    SendGrows(s, Passive, fate.first);
  }

  lemma BothReadyGrows(s: Session, ok: bool)
    ensures Calm(s, OnBothReady(s, ok))
  {
    ResultsAppend(s.sent, StartConfirm(START_COUNTDOWN_MS));
  }

  lemma StartGrows(s: Session, fate: Fate)
    ensures Calm(s, SendLocalReady(s, fate))
  {
    if !(s.localReady || s.state != WaitingForLocalStart || !fate.first) {
      var t := Announce(s);
      ResultsAppend(s.sent, ReadyMsg);
      assert Calm(s, t);
      BothReadyGrows(t, fate.second);
    }
  }

  lemma PeerReadyGrows(s: Session, fate: Fate)
    ensures Calm(s, HandlePeerReady(s, fate))
  {
    if s.peerReady {
    } else if s.state == WaitingForLocalStart {
      assert Calm(s, NotePeerReady(s));
    } else if s.state == WaitingForPeerStart {
      var t := Move(NotePeerReady(s), Ready);
      assert Calm(s, t);
      BothReadyGrows(t, fate.first);
    } else {
      WarnGrows(s, fate);
    }
  }

  lemma StartConfirmGrows(s: Session, m: Message, fate: Fate)
    requires m.StartConfirm? || m == Undecodable(BadStartConfirm)
    ensures Calm(s, HandleStartConfirmation(s, m, fate))
  {
    if s.role != PC2 || s.state != Ready {
      WarnGrows(s, fate);
    }
  }

  // The request an event brings to a worker in testing.
  function Due(s: Session, m: Message): multiset<Id> {
    if s.role == PC2 && s.state == Testing && m.TestRequest? then multiset{m.id} else multiset{}
  }

  // A step that may take up a request and answer: what it owes reaches the wire when the
  // write succeeds.
  predicate Pays(s: Session, t: Session, ok: bool, due: multiset<Id>) {
    && Grows(s, t) && (ok && Balanced(s) ==> Balanced(t))
    && t.exec.handled == s.exec.handled + due
  }

  lemma CalmPays(s: Session, t: Session, ok: bool)
    requires Calm(s, t)
    ensures Pays(s, t, ok, multiset{})
  {
    assert s.exec.handled + multiset{} == s.exec.handled;
  }

  lemma ExecPays(s: Session, x: Executor, ok: bool, due: multiset<Id>)
    requires x.answered == s.exec.answered && x.handled == s.exec.handled + due
    ensures Pays(s, WithExec(s, x), ok, due)
  {}

  lemma AnswerPays(s: Session, x: Executor, id: Id, ok: bool, due: multiset<Id>)
    requires x.answered == s.exec.answered && x.handled == s.exec.handled + due
    ensures Pays(s, Answer(WithExec(s, x), id, ok), ok, due)
  {
    var t := WithExec(s, x);
    var u := WithExec(t, Settle(x, id));
    assert Grows(s, u) && u.sent == s.sent && u.exec.answered == s.exec.answered + multiset{id};
    assert u.exec.handled == x.handled;
    ResultsAppend(s.sent, TestResult(id));
    assert Answer(t, id, ok) == Send(u, TestResult(id), ok);
  }

  lemma RequestPays(s: Session, m: Message, fate: Fate)
    requires m.TestRequest? || m == Undecodable(BadTestRequest)
    ensures Pays(s, HandleTestRequest(s, m, fate), fate.first, Due(s, m))
  {
    if s.role != PC2 || s.state != Testing {
      WarnGrows(s, fate);
      CalmPays(s, WarnInvalidState(s, fate), fate.first);
    } else if m.TestRequest? {
      var x := TakeUp(s.exec, m.id);
      if Immediate(s.exec, m.op) {
        AnswerPays(s, x, m.id, fate.first, multiset{m.id});
      } else {
        ExecPays(s, Accept(x, s.hooked, m.id, m.op), fate.first, multiset{m.id});
      }
    } else {
      CalmPays(s, s, fate.first);
    }
  }

  lemma OpDonePays(s: Session, ok: bool, fate: Fate)
    requires s.exec.running.RunningFor?
    ensures Pays(s, HandleOpDone(s, ok, fate), fate.first, multiset{})
  {
    var x := Release(s.exec, s.hooked, ok);
    assert x.handled == s.exec.handled + multiset{};
    AnswerPays(s, x, s.exec.running.id, fate.first, multiset{});
  }

  lemma FinishGrows(s: Session, payload: Payload)
    ensures Calm(s, FinishCompleted(s, payload))
  {}

  lemma EnterReportGrows(s: Session)
    ensures Calm(s, EnterReport(s))
  {
    if s.state == Testing {
      MoveGrows(s, GeneratingReport);
    }
  }

  lemma MoveGrows(s: Session, to: State)
    ensures Calm(s, Move(s, to))
  {}

  lemma CompletionGrows(s: Session, m: Message, reply: Payload, fate: Fate)
    requires m.Complete? || m == Undecodable(BadComplete)
    ensures Calm(s, HandleComplete(s, m, reply, fate))
  {
    if m.Undecodable? {
    } else if (if s.role == PC1 then !s.sentComplete else !InTests(s.state)) {
      WarnGrows(s, fate);
    } else if s.role == PC1 {
      FinishGrows(s, m.payload);
    } else {
      EnterReportGrows(s);
      SendGrows(EnterReport(s), Complete(reply), fate.first);
      FinishGrows(Send(EnterReport(s), Complete(reply), fate.first), m.payload);
    }
  }

  lemma SendCompleteGrows(s: Session, verdict: Payload, ok: bool)
    ensures Calm(s, SendComplete(s, verdict, ok))
  {
    SendGrows(s, Complete(verdict), ok);
  }

  lemma StartTransferGrows(s: Session)
    ensures Calm(s, StartTransfer(s)) && StartTransfer(s).transferRan == (s.transferRan || !s.transferOn)
    ensures StartTransfer(s).transferOn
  {}

  lemma PlanGrows(s: Session, result: PlanResult, verdict: Payload, fate: Fate)
    ensures Calm(s, HandlePlanDone(s, result, verdict, fate))
  {
    var t := PlanEnded(s);
    if result.PlanOk? && Allowed(t.state, GeneratingReport) {
      var u := Move(t, GeneratingReport);
      assert Calm(s, u);
      if s.sendsReports {
        StartTransferGrows(u);
      } else {
        SendCompleteGrows(u, verdict, fate.first);
      }
    }
  }

  lemma TransferGrows(s: Session, failed: bool, verdict: Payload, fate: Fate)
    ensures Calm(s, HandleTransferDone(s, failed, verdict, fate))
  {
    var t := TransferEnded(s);
    var u := Send(t, Passive, failed && fate.first);
    assert Calm(s, t);
    SendGrows(t, Passive, failed && fate.first);
    if s.role == PC1 && !s.sentComplete {
      SendCompleteGrows(u, verdict, fate.second);
    }
  }

  lemma RouteGrows(s: Session, fate: Fate)
    ensures Calm(s, RouteTransferFrame(s, fate))
  {
    if !(s.transferOn || s.transferRan) {
      WarnGrows(s, fate);
    }
  }

  lemma ManifestGrows(s: Session, fate: Fate)
    ensures Calm(s, HandleReportManifest(s, fate))
  {
    if s.role != PC2 || !InTests(s.state) {
      WarnGrows(s, fate);
    } else {
      var t := EnterReport(s);
      EnterReportGrows(s);
      if s.receives {
        StartTransferGrows(t);
      } else {
        SendGrows(MarkRan(t), ReportAck(true), fate.first);
      }
    }
  }

  lemma FrameGrows(s: Session, m: Message, reply: Payload, fate: Fate)
    requires !m.TestRequest? && m != Undecodable(BadTestRequest)
    ensures Calm(s, HandleFrame(s, m, reply, fate))
  {
    if m.ReadyMsg? {
      PeerReadyGrows(s, fate);
    } else if m.StartConfirm? || m == Undecodable(BadStartConfirm) {
      StartConfirmGrows(s, m, fate);
    } else if m.Complete? || m == Undecodable(BadComplete) {
      CompletionGrows(s, m, reply, fate);
    } else if m.Manifest? {
      ManifestGrows(s, fate);
    } else if m.ReportChunk? || m.ReportAck? {
      RouteGrows(s, fate);
    } else if m.HandshakeMsg? {
      WarnGrows(s, fate);
    }
  }

  lemma CountDownGrows(s: Session, left: nat)
    ensures Calm(s, CountDown(s, left))
  {}

  lemma GoGrows(s: Session)
    ensures Calm(s, Go(s))
  {}

  lemma TearDownGrows(s: Session, final: State)
    ensures Calm(s, TearDown(s, final))
  {}

  lemma TickGrows(s: Session)
    ensures Calm(s, OnCountdownTick(s))
  {
    if s.countdown == 1 {
      GoGrows(s);
    } else if s.countdown > 1 {
      CountDownGrows(s, s.countdown - 1);
    }
  }

  lemma ShutdownGrows(s: Session, fate: Fate)
    requires s.fin.Finishing?
    ensures Calm(s, ShutDown(s, fate))
  {
    var t := Send(s, Abort, s.fin.farewell && fate.first);
    SendGrows(s, Abort, s.fin.farewell && fate.first);
    TearDownGrows(t, s.fin.state);
  }

  // The event's own write succeeds.
  predicate WritesSucceed(ev: Event) {
    (ev.Deliver? || ev.OpDone?) ==> ev.fate.first
  }

  function DueAt(s: Session, ev: Event): multiset<Id> {
    if ev.Deliver? then Due(s, ev.msg) else multiset{}
  }

  lemma LocalGrows(s: Session, ev: Event)
    requires Enabled(s, ev) && !ev.Deliver? && !ev.OpDone?
    ensures Calm(s, Handle(s, ev))
  {
    match ev
    case Start(fate) => StartGrows(s, fate);
    case Tick => TickGrows(s);
    case PlanDone(result, verdict, fate) => PlanGrows(s, result, verdict, fate);
    case TransferDone(failed, verdict, fate) => TransferGrows(s, failed, verdict, fate);
    case Shutdown(fate) => ShutdownGrows(s, fate);
    case Background(m) => SendGrows(s, m, true);
    case _ =>
  }

  lemma StepPays(s: Session, ev: Event)
    requires Enabled(s, ev)
    ensures Pays(s, Handle(s, ev), WritesSucceed(ev), DueAt(s, ev))
  {
    match ev
    case OpDone(ok, fate) => OpDonePays(s, ok, fate);
    case Deliver(m, reply, fate) =>
      if m.TestRequest? || m == Undecodable(BadTestRequest) {
        RequestPays(s, m, fate);
      } else {
        FrameGrows(s, m, reply, fate);
        CalmPays(s, HandleFrame(s, m, reply, fate), fate.first);
      }
    case _ =>
      LocalGrows(s, ev);
      CalmPays(s, Handle(s, ev), WritesSucceed(ev));
  }

  // The decodable requests a run brings to the worker while it is in testing.
  function DueIn(s: Session, events: seq<Event>): multiset<Id>
    requires IsRun(s, events)
    decreases |events|
  {
    if events == [] then multiset{} else DueAt(s, events[0]) + DueIn(Handle(s, events[0]), events[1..])
  }

  lemma {:induction false} RunPays(s: Session, events: seq<Event>)
    requires IsRun(s, events)
    ensures Grows(s, EndOf(s, events))
    ensures (forall ev | ev in events :: WritesSucceed(ev)) && Balanced(s) ==> Balanced(EndOf(s, events))
    ensures EndOf(s, events).exec.handled == s.exec.handled + DueIn(s, events)
    decreases |events|
  {
    if events != [] {
      StepPays(s, events[0]);
      RunPays(Handle(s, events[0]), events[1..]);
    }
  }

  lemma ManifestRuns(s: Session, fate: Fate)
    requires SideInv(s) && !s.closed && s.role == PC2 && InTests(s.state)
    ensures HandleReportManifest(s, fate).transferRan
  {
    var t := EnterReport(s);
    EnterReportGrows(s);
    if s.receives {
      assert t.transferOn == s.transferOn;
      StartTransferGrows(t);
    } else {
      SendGrows(MarkRan(t), ReportAck(true), fate.first);
    }
  }

  /** Once a manifest has been taken up, with a receiver or with a local decline, no chunk
      that follows in any continuation of the run costs an invalid-state strike. */
  lemma ChunksAfterManifestAreFree(s: Session, id: Id, fate: Fate, events: seq<Event>, reply: Payload, late: Fate)
    requires SideInv(s) && s.fin.Undecided? && !s.closed && s.role == PC2 && InTests(s.state)
    requires IsRun(HandleReportManifest(s, fate), events)
    ensures Enabled(s, Deliver(Manifest(id), reply, fate))
            && HandleReportManifest(s, fate) == Handle(s, Deliver(Manifest(id), reply, fate))
    ensures var t := EndOf(HandleReportManifest(s, fate), events);
            Enabled(t, Deliver(ReportChunk, reply, late)) ==>
              Handle(t, Deliver(ReportChunk, reply, late)) == t
  {
    ManifestKeeps(s, fate);
    ManifestRuns(s, fate);
    RunPays(HandleReportManifest(s, fate), events);
  }
}
