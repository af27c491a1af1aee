/** The event loop's handlers as they are written: methods updating the fields of one session
    object. Each takes exactly the step `Session.Handle` specifies, so the object keeps the
    invariant of those steps (`Valid`), and `Run` states what that means for its fields.
    Outcomes of frame writes come in as parameters. */
module SessionLoop {
  import opened Wrappers
  import opened SessionState
  import opened Session
  import opened SessionRuns
  import opened SessionReports

  class PeerSession {
    const role: Role
    const receives: bool
    const sendsReports: bool
    const hooked: bool

    var state: State
    var localReady: bool
    var peerReady: bool
    var countdown: nat
    var planRunning: bool
    var sentComplete: bool
    var peerComplete: Option<Payload>
    var transferOn: bool
    var transferRan: bool
    var transferRunning: bool
    var invalidState: nat
    var fin: Finish
    var closed: bool
    var sent: seq<Message>

    var activeOp: ActiveOp
    var executor: Goroutine
    var cableWindowActive: bool
    var idleWide: bool
    var hookCalls: seq<bool>
    ghost var handled: multiset<Id>
    ghost var answered: multiset<Id>

    ghost function Exec(): Executor
      reads this
    {
      Executor(activeOp, executor, cableWindowActive, idleWide, hookCalls, handled, answered)
    }

    ghost function View(): Session
      reads this
    {
      Session(role, receives, sendsReports, hooked, state, localReady, peerReady, countdown, planRunning, sentComplete,
              peerComplete, transferOn, transferRan, transferRunning, invalidState, Exec(), fin, closed, sent)
    }

    // Phase, finish, slot, ledger and window are as `SessionRuns` shows them to be in every run, and the
    // reports as `SessionReports` does.
    ghost predicate Valid()
      reads this
    { SideInv(View()) && ReportInv(View()) }

    // The request the slot belongs to, if any.
    ghost function Slotted(): multiset<Id>
      reads this
    { if activeOp.ActiveOp? then multiset{activeOp.id} else multiset{} }

    constructor (role: Role, receives: bool, sendsReports: bool, hooked: bool)
      ensures View() == Fresh(role, receives, sendsReports, hooked)
      ensures Valid()
    {
      this.role, this.receives, this.sendsReports, this.hooked := role, receives, sendsReports, hooked;
      state := WaitingForLocalStart;
      localReady, peerReady, countdown, planRunning, sentComplete := false, false, 0, false, false;
      peerComplete, transferOn, transferRan, transferRunning := None, false, false, false;
      invalidState, fin, closed, sent := 0, Undecided, false, [];
      activeOp, executor, cableWindowActive, idleWide, hookCalls := NoOp, NotRunning, false, false, [];
      handled, answered := multiset{}, multiset{};
    }

    method Write(m: Message, ok: bool) returns (err: bool)
      modifies this`sent
      ensures err == !ok
      ensures View() == Send(old(View()), m, ok)
    {
      if ok {
        sent := sent + [m];
      }
      err := !ok;
    }

    method TryMove(to: State) returns (rejected: bool)
      modifies this`state
      ensures rejected == !Allowed(old(state), to)
      ensures View() == Move(old(View()), to)
    {
      rejected := !Allowed(state, to);
      if !rejected {
        state := to;
      }
    }

    method WarnFrame(fate: Fate)
      modifies this
      ensures View() == WarnInvalidState(old(View()), fate)
    {
      var _ := Write(Passive, fate.first);
      invalidState := invalidState + 1;
      if invalidState >= MAX_INVALID_STATE {
        fin := Finishing(Aborted, true);
      }
    }

    method StartCountdown(ms: int)
      modifies this`countdown
      ensures View() == CountDown(old(View()), CountdownSteps(ms))
    {
      countdown := 0;
      var n := 3;
      while n >= 1
        invariant 0 <= n <= 3
        invariant countdown == CountdownSteps(ms) - 1 - (if n >= 1 && ms >= 1000 then 1 else 0)
                               - (if n >= 2 && ms >= 2000 then 1 else 0) - (if n >= 3 && ms >= 3000 then 1 else 0)
      {
        if ms - n * 1000 >= 0 {
          countdown := countdown + 1;
        }
        n := n - 1;
      }
      countdown := countdown + 1;
    }

    method EnterReady(ok: bool)
      modifies this`sent, this`countdown
      ensures View() == OnBothReady(old(View()), ok)
    {
      if role != PC1 {
        return;
      }
      var err := Write(StartConfirm(START_COUNTDOWN_MS), ok);
      if err {
        return;
      }
      StartCountdown(START_COUNTDOWN_MS);
    }

    method AnnounceReady(fate: Fate)
      modifies this
      ensures View() == SendLocalReady(old(View()), fate)
    {
      if localReady || state != WaitingForLocalStart {
        return;
      }
      var err := Write(ReadyMsg, fate.first);
      if err {
        return;
      }
      localReady := true;
      var next := if peerReady then Ready else WaitingForPeerStart;
      var rejected := TryMove(next);
      if rejected {
        return;
      }
      if next == Ready {
        EnterReady(fate.second);
      }
    }

    method TakePeerReady(fate: Fate)
      modifies this
      ensures View() == HandlePeerReady(old(View()), fate)
    {
      if peerReady {
        return;
      }
      match state
      case WaitingForLocalStart =>
        peerReady := true;
      case WaitingForPeerStart =>
        MeetPeer(fate.first);
      case _ =>
        WarnFrame(fate);
    }

    method MeetPeer(ok: bool)
      requires state == WaitingForPeerStart
      modifies this
      ensures View() == OnBothReady(Move(NotePeerReady(old(View())), Ready), ok)
    {
      peerReady := true;
      assert View() == NotePeerReady(old(View()));
      var rejected := TryMove(Ready);
      if !rejected {
        EnterReady(ok);
      }
    }

    method TakeStartConfirmation(m: Message, fate: Fate)
      requires m.StartConfirm? || m == Undecodable(BadStartConfirm)
      modifies this
      ensures View() == HandleStartConfirmation(old(View()), m, fate)
    {
      if role != PC2 {
        WarnFrame(fate);
        return;
      }
      if state != Ready {
        WarnFrame(fate);
        return;
      }
      if m.Undecodable? {
        return;
      }
      StartCountdown(m.startInMs);
    }

    method TickCountdown()
      modifies this
      ensures View() == OnCountdownTick(old(View()))
    {
      if countdown == 0 {
        return;
      }
      countdown := countdown - 1;
      if countdown > 0 {
        return;
      }
      var rejected := TryMove(Testing);
      if !rejected && role == PC1 {
        planRunning := true;
      }
    }

    // --- The worker's executor ---

    method CallHook(open: bool)
      modifies this`hookCalls
      ensures Exec() == Hooked(old(Exec()), hooked, open)
    {
      if hooked {
        hookCalls := hookCalls + [open];
      }
    }

    method WriteTestResult(id: Id, ok: bool)
      modifies this`sent, this`answered
      ensures View() == Answer(old(View()), id, ok)
    {
      answered := answered + multiset{id};
      var _ := Write(TestResult(id), ok);
    }

    method LaunchOp(id: Id, op: Op)
      modifies this`activeOp, this`executor
      ensures Exec() == StartOp(old(Exec()), id, op)
    {
      activeOp := ActiveOp(id, op);
      executor := RunningFor(id);
    }

    // Answers a request that must not start, and reports whether it did.
    method AnswerOnTheSpot(id: Id, op: Op, ok: bool) returns (settled: bool)
      modifies this`sent, this`answered
      ensures settled == Immediate(old(Exec()), op)
      ensures View() == if settled then Answer(old(View()), id, ok) else old(View())
    {
      settled := true;
      if op.Cancel? {
        WriteTestResult(id, ok);
      } else if activeOp.ActiveOp? {
        WriteTestResult(id, ok);
      } else if op.WindowStart? && cableWindowActive {
        WriteTestResult(id, ok);
      } else if op.WindowEnd? && !cableWindowActive {
        WriteTestResult(id, ok);
      } else if op.WindowStart? && !op.validTimeout {
        WriteTestResult(id, ok);
      } else {
        settled := false;
      }
    }

    method AcceptRequest(id: Id, op: Op)
      modifies this`activeOp, this`executor, this`cableWindowActive, this`idleWide, this`hookCalls
      ensures View() == WithExec(old(View()), Accept(old(Exec()), hooked, id, op))
    {
      if op.WindowStart? {
        idleWide := true;
        cableWindowActive := true;
        CallHook(true);
      }
      LaunchOp(id, op);
    }

    method TakeTestRequest(m: Message, fate: Fate)
      requires m.TestRequest? || m == Undecodable(BadTestRequest)
      modifies this
      ensures View() == HandleTestRequest(old(View()), m, fate)
    {
      if role != PC2 || state != Testing {
        WarnFrame(fate);
        return;
      }
      if m.Undecodable? {
        return;
      }
      NoteRequest(m.id);
      var settled := AnswerOnTheSpot(m.id, m.op, fate.first);
      if !settled {
        AcceptRequest(m.id, m.op);
      }
    }

    method NoteRequest(id: Id)
      modifies this`handled
      ensures View() == WithExec(old(View()), TakeUp(old(Exec()), id))
    {
      handled := handled + multiset{id};
    }

    method ReleaseSlot(ok: bool)
      requires executor.RunningFor?
      modifies this`activeOp, this`executor, this`cableWindowActive, this`idleWide, this`hookCalls
      ensures Exec() == Release(old(Exec()), hooked, ok)
    {
      var id := executor.id;
      var finished := NoOp;
      executor := NotRunning;
      if activeOp.ActiveOp? && activeOp.id == id {
        finished := activeOp;
        activeOp := NoOp;
      }
      if finished.ActiveOp? && (finished.op.WindowEnd? || (finished.op.WindowStart? && !ok)) {
        CallHook(false);
        cableWindowActive := false;
        idleWide := false;
      }
    }

    method FinishOp(ok: bool, fate: Fate)
      requires executor.RunningFor?
      modifies this
      ensures View() == HandleOpDone(old(View()), ok, fate)
    {
      var id := executor.id;
      ReleaseSlot(ok);
      assert View() == WithExec(old(View()), Release(old(Exec()), hooked, ok));
      WriteTestResult(id, fate.first);
    }

    // --- Plan, report transfer and completion ---

    method WriteComplete(verdict: Payload, ok: bool)
      modifies this`sent, this`sentComplete
      ensures View() == SendComplete(old(View()), verdict, ok)
    {
      var _ := Write(Complete(verdict), ok);
      sentComplete := true;
    }

    method LaunchTransfer()
      modifies this`transferOn, this`transferRan, this`transferRunning
      ensures View() == StartTransfer(old(View()))
    {
      if transferOn {
        return;
      }
      transferOn := true;
      transferRan := true;
      transferRunning := true;
    }

    method FinishPlan(result: PlanResult, verdict: Payload, fate: Fate)
      modifies this
      ensures View() == HandlePlanDone(old(View()), result, verdict, fate)
    {
      ForgetPlan();
      match result
      case PlanCancelled =>
      case PlanFailed => End(Finishing(Failed, true));
      case PlanOk => ReportPlan(verdict, fate);
    }

    method ForgetPlan()
      modifies this`planRunning
      ensures View() == PlanEnded(old(View()))
    {
      planRunning := false;
    }

    method End(how: Finish)
      modifies this`fin
      ensures View() == EndAs(old(View()), how)
    {
      fin := how;
    }

    method ReportPlan(verdict: Payload, fate: Fate)
      modifies this
      ensures View() == PlanSucceeded(old(View()), verdict, fate)
    {
      var rejected := TryMove(GeneratingReport);
      if rejected {
        return;
      }
      if sendsReports {
        LaunchTransfer();
      } else {
        WriteComplete(verdict, fate.first);
      }
    }

    method LeaveTesting()
      modifies this`state
      ensures View() == EnterReport(old(View()))
    {
      if state == Testing {
        var _ := TryMove(GeneratingReport);
      }
    }

    method TakeComplete(m: Message, reply: Payload, fate: Fate)
      requires m.Complete? || m == Undecodable(BadComplete)
      modifies this
      ensures View() == HandleComplete(old(View()), m, reply, fate)
    {
      if m.Undecodable? {
        return;
      }
      match role {
        case PC1 =>
          if !sentComplete {
            WarnFrame(fate);
            return;
          }
        case PC2 =>
          if !InTests(state) {
            WarnFrame(fate);
            return;
          }
          LeaveTesting();
          var _ := Write(Complete(reply), fate.first);
      }
      peerComplete := Some(m.payload);
      fin := Finishing(Completed, false);
    }

    method RouteFrame(fate: Fate)
      modifies this
      ensures View() == RouteTransferFrame(old(View()), fate)
    {
      if !transferOn && !transferRan {
        WarnFrame(fate);
      }
    }

    method TakeManifest(fate: Fate)
      modifies this
      ensures View() == HandleReportManifest(old(View()), fate)
    {
      if role != PC2 || !InTests(state) {
        WarnFrame(fate);
        return;
      }
      LeaveTesting();
      if !receives {
        transferRan := true;
        assert View() == MarkRan(EnterReport(old(View())));
        var _ := Write(ReportAck(true), fate.first);
        return;
      }
      LaunchTransfer();
      RouteFrame(fate);
    }

    method FinishTransfer(failed: bool, verdict: Payload, fate: Fate)
      modifies this
      ensures View() == HandleTransferDone(old(View()), failed, verdict, fate)
    {
      transferOn := false;
      transferRunning := false;
      assert View() == TransferEnded(old(View()));
      if failed {
        var _ := Write(Passive, fate.first);
      }
      if role == PC1 && !sentComplete {
        WriteComplete(verdict, fate.second);
      }
    }

    // --- Dispatch and teardown ---

    method TakeFrame(m: Message, reply: Payload, fate: Fate)
      modifies this
      ensures View() == HandleFrame(old(View()), m, reply, fate)
    {
      match m
      case ReadyMsg => TakePeerReady(fate);
      case StartConfirm(_) => TakeStartConfirmation(m, fate);
      case TestRequest(_, _) => TakeTestRequest(m, fate);
      case TestResult(_) =>
      case Manifest(_) => TakeManifest(fate);
      case ReportChunk => RouteFrame(fate);
      case ReportAck(_) => RouteFrame(fate);
      case Complete(_) => TakeComplete(m, reply, fate);
      case Abort => fin := Finishing(Aborted, false);
      case Undecodable(BadStartConfirm) => TakeStartConfirmation(m, fate);
      case Undecodable(BadTestRequest) => TakeTestRequest(m, fate);
      case Undecodable(BadComplete) => TakeComplete(m, reply, fate);
      case HandshakeMsg => WarnFrame(fate);
      case Passive =>
    }

    method CloseAll()
      requires fin.Finishing?
      modifies this
      ensures View() == TearDown(old(View()), old(fin.state))
    {
      ShutWindow();
      CloseIn(fin.state);
    }

    method CloseIn(final: State)
      modifies this`state, this`closed
      ensures View() == CloseAs(old(View()), final)
    {
      var _ := TryMove(final);
      closed := true;
    }

    method ShutWindow()
      modifies this`hookCalls, this`cableWindowActive
      ensures View() == WithExec(old(View()), LeaveWindow(old(Exec()), hooked))
    {
      if cableWindowActive {
        CallHook(false);
        cableWindowActive := false;
      }
    }

    method TearDownNow(fate: Fate)
      requires fin.Finishing?
      modifies this
      ensures View() == ShutDown(old(View()), fate)
    {
      if fin.farewell {
        var _ := Write(Abort, fate.first);
      }
      assert View() == Send(old(View()), Abort, fin.farewell && fate.first);
      CloseAll();
    }

    method HandleEvent(ev: Event)
      requires Valid() && Enabled(View(), ev)
      modifies this
      ensures View() == Handle(old(View()), ev)
      ensures Valid()
    {
      HandleKeeps(View(), ev);
      StepKept(View(), ev);
      Dispatch(ev);
    }

    method Dispatch(ev: Event)
      requires Enabled(View(), ev)
      modifies this
      ensures View() == Handle(old(View()), ev)
    {
      match ev
      case Start(fate) => AnnounceReady(fate);
      case Tick => TickCountdown();
      case Deliver(m, reply, fate) => TakeFrame(m, reply, fate);
      case PlanDone(result, verdict, fate) => FinishPlan(result, verdict, fate);
      case TransferDone(failed, verdict, fate) => FinishTransfer(failed, verdict, fate);
      case OpDone(ok, fate) => FinishOp(ok, fate);
      case LocalAbort => End(Finishing(Aborted, true));
      case ConnLost => End(Finishing(Aborted, false));
      case CallExpired => End(Finishing(Failed, true));
      case Background(m) => var _ := Write(m, true);
      case Shutdown(fate) => TearDownNow(fate);
    }

    /** The loop: events are handled one at a time and the object ends where its steps lead.
        Whatever the peer sent and however it ended: a session that shut down is in the terminal
        state its loop chose, with the window closed; before that every finish it may have chosen
        is legal. Every request taken up while testing was answered once or owns the slot, the
        window callback alternated, and the idle timeout is wide exactly while the window is
        open. PC1 transferred reports only with a callback to send them, and with one its verdict
        waited for the end of the transfer; PC2 received only with a callback, and without one it
        declined exactly the manifests it took up. */
    method Run(events: seq<Event>)
      requires Valid() && IsRun(View(), events)
      modifies this
      ensures View() == EndOf(old(View()), events)
      ensures Valid()
      ensures closed ==> fin.Finishing? && state == fin.state && Ended(state) && !cableWindowActive
      ensures !closed && fin.Finishing? ==> Allowed(state, fin.state)
      ensures handled == old(handled) + DueIn(old(View()), events)
      ensures handled == answered + Slotted()
      ensures forall i | 0 <= i < |hookCalls| :: hookCalls[i] == (i % 2 == 0)
      ensures hooked ==> (cableWindowActive <==> |hookCalls| % 2 == 1)
      ensures !closed ==> idleWide == cableWindowActive
      ensures role == PC1 && transferRan ==> sendsReports
      ensures role == PC1 && sendsReports && HasComplete(sent) ==> transferRan && !transferRunning
      ensures role == PC2 && transferRunning ==> receives
      ensures role == PC2 && !receives ==> Acks(sent) == old(Acks(sent)) + DeclinesDue(old(View()), events)
    {
      RunPays(View(), events);
      RunKept(View(), events);
      var i := 0;
      while i < |events|
        invariant 0 <= i <= |events| && Valid()
        invariant IsRun(View(), events[i..])
        invariant EndOf(View(), events[i..]) == EndOf(old(View()), events)
      {
        HandleEvent(events[i]);
        i := i + 1;
      }
    }
  }
}
