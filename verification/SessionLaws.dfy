/** What each event does to one side of the session, field by field. */
module SessionLaws {
  import opened Wrappers
  import opened SessionState
  import opened Session

  // The log with a frame whose write succeeded or failed.
  function Logged(s: Session, m: Message, ok: bool): seq<Message> { if ok then s.sent + [m] else s.sent }

  // A strike: a warning goes out, and the third one ends the session with a farewell.
  function Struck(s: Session, fate: Fate): Session {
    s.(sent := Logged(s, Passive, fate.first), invalidState := s.invalidState + 1,
       fin := if s.invalidState + 1 >= 3 then Finishing(Aborted, true) else s.fin)
  }

  lemma SendLaw(s: Session, m: Message, ok: bool)
    ensures Send(s, m, ok) == s.(sent := Logged(s, m, ok))
  {}

  lemma CountStrike(s: Session, sent: seq<Message>)
    ensures Strike(s.(sent := sent)) ==
            s.(sent := sent, invalidState := s.invalidState + 1,
               fin := if s.invalidState + 1 >= 3 then Finishing(Aborted, true) else s.fin)
  {}

  lemma WarnLaw(s: Session, fate: Fate)
    ensures WarnInvalidState(s, fate) == Struck(s, fate)
  {
    SendLaw(s, Passive, fate.first);
    CountStrike(s, Logged(s, Passive, fate.first));
  }

  // --- Readiness and the synchronized start ---

  /** The countdown is GO plus those of 3, 2 and 1 that are not already past. */
  lemma CountdownLaw(ms: int)
    ensures CountdownSteps(ms) == if ms < 1000 then 1 else if ms < 2000 then 2 else if ms < 3000 then 3 else 4
  {}

  // The session after its own announcement, after the peer's, and with the start confirmed.
  function Announced(s: Session, next: State): Session { s.(localReady := true, state := next, sent := s.sent + [ReadyMsg]) }
  function MetPeer(s: Session): Session { s.(peerReady := true, state := Ready) }
  function StartConfirmed(s: Session): Session { s.(sent := s.sent + [StartConfirm(3500)], countdown := 4) }

  /** Announcing: a written ready frame makes the session wait for its peer or, with the peer already
      announced, ready; PC1 then confirms the start with 3.5 seconds lead and counts down. */
  lemma AnnounceLaw(s: Session, fate: Fate)
    requires !s.localReady && s.state == WaitingForLocalStart
    ensures SendLocalReady(s, fate) ==
            if !fate.first then s
            else if !s.peerReady then Announced(s, WaitingForPeerStart)
            else if s.role == PC2 || !fate.second then Announced(s, Ready)
            else StartConfirmed(Announced(s, Ready))
  {
    assert Announce(s) == Announced(s, if s.peerReady then Ready else WaitingForPeerStart);
  }

  /** Hearing the peer: once; noted while waiting for the operator, and otherwise making the waiting
      session ready, with the same confirmation from PC1. */
  lemma PeerReadyLaw(s: Session, fate: Fate)
    ensures HandlePeerReady(s, fate) ==
            if s.peerReady then s
            else if s.state == WaitingForLocalStart then NotePeerReady(s)
            else if s.state != WaitingForPeerStart then Struck(s, fate)
            else if s.role == PC2 || !fate.first then MetPeer(s)
            else StartConfirmed(MetPeer(s))
  {
    if !s.peerReady && s.state != WaitingForLocalStart && s.state != WaitingForPeerStart {
      WarnLaw(s, fate);
    } else if s.state == WaitingForPeerStart {
      MeetLaw(s, fate);
    }
  }

  lemma MeetLaw(s: Session, fate: Fate)
    requires s.state == WaitingForPeerStart
    ensures OnBothReady(Move(NotePeerReady(s), Ready), fate.first) ==
            if s.role == PC2 || !fate.first then MetPeer(s) else StartConfirmed(MetPeer(s))
  {
    assert Move(NotePeerReady(s), Ready) == MetPeer(s);
  }

  lemma NoteLaw(s: Session)
    ensures NotePeerReady(s) == s.(peerReady := true)
  {}

  /** Only the worker in ready takes a start_confirmation, and one that does not decode changes nothing. */
  lemma StartConfirmLaw(s: Session, m: Message, fate: Fate)
    requires m.StartConfirm? || m == Undecodable(BadStartConfirm)
    ensures HandleStartConfirmation(s, m, fate) ==
            if s.role == PC1 || s.state != Ready then Struck(s, fate)
            else if m.Undecodable? then s
            else CountDown(s, CountdownSteps(m.startInMs))
  {
    WarnLaw(s, fate);
  }

  /** The last step of a countdown in ready enters testing, where the coordinator's plan starts. */
  lemma TickLaw(s: Session)
    requires s.state == Ready && s.countdown > 0
    ensures OnCountdownTick(s) == if s.countdown > 1 then CountDown(s, s.countdown - 1) else Started(s)
  {
    if s.countdown == 1 {
      assert Go(s) == Started(s);
    }
  }

  function Started(s: Session): Session {
    s.(countdown := 0, state := Testing, planRunning := s.planRunning || s.role == PC1)
  }

  lemma CountDownLaw(s: Session, left: nat)
    ensures CountDown(s, left) == s.(countdown := left)
  {}

  // --- The executor ---

  // A request the worker must not start.
  predicate Refused(x: Executor, op: Op) {
    match op
    case Cancel => true
    case WindowStart(validTimeout) => x.active.ActiveOp? || x.window || !validTimeout
    case WindowEnd => x.active.ActiveOp? || !x.window
    case Work => x.active.ActiveOp?
  }

  function Called(x: Executor, hooked: bool, open: bool): seq<bool> { if hooked then x.hooks + [open] else x.hooks }

  lemma RefusedLaw(x: Executor, op: Op)
    ensures Immediate(x, op) <==> Refused(x, op)
  {}

  // Taking a request up into the slot; opening the window calls the hook and widens the idle timeout.
  function TakenUp(x: Executor, hooked: bool, id: Id, op: Op): Executor {
    if op.WindowStart? then
      x.(handled := x.handled + multiset{id}, active := ActiveOp(id, op), running := RunningFor(id),
         window := true, idleWide := true, hooks := Called(x, hooked, true))
    else x.(handled := x.handled + multiset{id}, active := ActiveOp(id, op), running := RunningFor(id))
  }

  lemma AcceptLaw(x: Executor, hooked: bool, id: Id, op: Op)
    ensures Accept(TakeUp(x, id), hooked, id, op) == TakenUp(x, hooked, id, op)
  {}

  lemma AnswerLaw(s: Session, x: Executor, id: Id, ok: bool)
    ensures Answer(WithExec(s, x), id, ok) ==
            s.(exec := x.(answered := x.answered + multiset{id}), sent := Logged(s, TestResult(id), ok))
  {}

  // A request taken up and answered on the spot.
  function Dismissed(s: Session, id: Id, ok: bool): Session {
    s.(exec := s.exec.(handled := s.exec.handled + multiset{id}, answered := s.exec.answered + multiset{id}),
       sent := Logged(s, TestResult(id), ok))
  }

  lemma DismissLaw(s: Session, id: Id, ok: bool)
    ensures Answer(WithExec(s, TakeUp(s.exec, id)), id, ok) == Dismissed(s, id, ok)
  {
    AnswerLaw(s, TakeUp(s.exec, id), id, ok);
    assert TakeUp(s.exec, id).(answered := s.exec.answered + multiset{id})
           == s.exec.(handled := s.exec.handled + multiset{id}, answered := s.exec.answered + multiset{id});
  }

  /** A worker in testing answers a refused request at once and gives any other the slot; a request that
      does not decode changes nothing; elsewhere it is a strike. */
  lemma RequestLaw(s: Session, m: Message, fate: Fate)
    requires m.TestRequest? || m == Undecodable(BadTestRequest)
    ensures HandleTestRequest(s, m, fate) ==
            if s.role == PC1 || s.state != Testing then Struck(s, fate)
            else if m.Undecodable? then s
            else if Refused(s.exec, m.op) then Dismissed(s, m.id, fate.first)
            else WithExec(s, TakenUp(s.exec, s.hooked, m.id, m.op))
  {
    if s.role == PC1 || s.state != Testing {
      WarnLaw(s, fate);
    } else if m.TestRequest? {
      RefusedLaw(s.exec, m.op);
      if Refused(s.exec, m.op) {
        DismissLaw(s, m.id, fate.first);
      } else {
        AcceptLaw(s.exec, s.hooked, m.id, m.op);
      }
    }
  }

  // The slot freed; ending the window, or failing to start it, closes it again.
  function Freed(x: Executor, hooked: bool, ok: bool): Executor
    requires x.running.RunningFor? && x.active.ActiveOp?
  {
    if x.active.op.WindowEnd? || (x.active.op.WindowStart? && !ok) then
      x.(active := NoOp, running := NotRunning, window := false, idleWide := false, hooks := Called(x, hooked, false))
    else x.(active := NoOp, running := NotRunning)
  }

  lemma ReleaseLaw(x: Executor, hooked: bool, ok: bool)
    requires x.running.RunningFor? && x.active.ActiveOp? && x.active.id == x.running.id
    ensures Release(x, hooked, ok) == Freed(x, hooked, ok)
  {}

  /** A finished op frees the slot it owns, closes the window where due, and is answered. */
  lemma OpDoneLaw(s: Session, ok: bool, fate: Fate)
    requires s.exec.running.RunningFor? && s.exec.active.ActiveOp? && s.exec.active.id == s.exec.running.id
    ensures var x := Freed(s.exec, s.hooked, ok); var id := s.exec.active.id;
            HandleOpDone(s, ok, fate) ==
              s.(exec := x.(answered := x.answered + multiset{id}), sent := Logged(s, TestResult(id), fate.first))
  {
    ReleaseLaw(s.exec, s.hooked, ok);
    AnswerLaw(s, Freed(s.exec, s.hooked, ok), s.exec.active.id, fate.first);
  }

  // --- Plan, transfer and completion ---

  /** A successful plan enters report generation; with a send callback configured, enabled and accepted the
      transfer starts and nothing is sent yet, without one the verdict goes out at once. A failed plan ends
      the session as failed with a farewell, a cancelled one changes nothing more. */
  lemma PlanLaw(s: Session, result: PlanResult, verdict: Payload, fate: Fate)
    requires s.state == Testing && !s.transferOn
    ensures HandlePlanDone(s, result, verdict, fate) ==
            match result
            case PlanCancelled => s.(planRunning := false)
            case PlanFailed => s.(planRunning := false, fin := Finishing(Failed, true))
            case PlanOk =>
              if s.sendsReports then
                s.(planRunning := false, state := GeneratingReport, transferOn := true, transferRan := true, transferRunning := true)
              else
                s.(planRunning := false, state := GeneratingReport, sentComplete := true,
                   sent := Logged(s, Complete(verdict), fate.first))
  {
    if result.PlanOk? {
      PlanMoves(s);
      PlanReports(s, verdict, fate.first);
    }
  }

  lemma PlanMoves(s: Session)
    requires s.state == Testing
    ensures Move(PlanEnded(s), GeneratingReport) == s.(planRunning := false, state := GeneratingReport)
  {}

  lemma PlanReports(s: Session, verdict: Payload, ok: bool)
    requires !s.transferOn
    ensures var t := s.(planRunning := false, state := GeneratingReport);
            && StartTransfer(t) == t.(transferOn := true, transferRan := true, transferRunning := true)
            && SendComplete(t, verdict, ok) == t.(sentComplete := true, sent := Logged(s, Complete(verdict), ok))
  {
    var t := s.(planRunning := false, state := GeneratingReport);
    SendLaw(t, Complete(verdict), ok);
  }

  // Testing or past it, the worker is in report generation afterwards.
  function Reporting(s: Session): Session { s.(state := GeneratingReport) }

  lemma EnterReportLaw(s: Session)
    requires s.state == Testing || s.state == GeneratingReport
    ensures EnterReport(s) == Reporting(s)
  {}

  function TransferOpened(s: Session): Session {
    s.(state := GeneratingReport, transferOn := true, transferRan := true, transferRunning := true)
  }

  function ManifestDeclined(s: Session, ok: bool): Session {
    s.(state := GeneratingReport, transferRan := true, sent := Logged(s, ReportAck(true), ok))
  }

  /** A manifest is the worker's, in testing or report generation; anywhere else it is a strike. */
  lemma MisplacedManifestLaw(s: Session, fate: Fate)
    requires s.role == PC1 || (s.state != Testing && s.state != GeneratingReport)
    ensures HandleReportManifest(s, fate) == Struck(s, fate)
  {
    WarnLaw(s, fate);
  }

  /** With a receive callback the manifest starts the transfer and nothing is declined. */
  lemma ReceivingLaw(s: Session, fate: Fate)
    requires !s.transferOn && s.role == PC2 && (s.state == Testing || s.state == GeneratingReport) && s.receives
    ensures HandleReportManifest(s, fate) == TransferOpened(s)
  {
    EnterReportLaw(s);
    OpenedLaw(s);
    RoutedLaw(TransferOpened(s), fate);
  }

  lemma OpenedLaw(s: Session)
    requires !s.transferOn
    ensures StartTransfer(Reporting(s)) == TransferOpened(s)
  {}

  lemma RoutedLaw(s: Session, fate: Fate)
    requires s.transferOn
    ensures RouteTransferFrame(s, fate) == s
  {}

  // A second manifest while the transfer runs is only routed.
  lemma RepeatedManifestLaw(s: Session, fate: Fate)
    requires s.transferOn && s.role == PC2 && s.state == GeneratingReport && s.receives
    ensures HandleReportManifest(s, fate) == s
  {}

  /** Without one it is declined, no transfer starts, and later transfer frames are still no strike. */
  lemma DecliningLaw(s: Session, fate: Fate)
    requires s.role == PC2 && (s.state == Testing || s.state == GeneratingReport) && !s.receives
    ensures HandleReportManifest(s, fate) == ManifestDeclined(s, fate.first)
  {
    EnterReportLaw(s);
    SendLaw(MarkRan(Reporting(s)), ReportAck(true), fate.first);
  }

  function TransferOver(s: Session, sent: seq<Message>): Session {
    s.(transferOn := false, transferRunning := false, sent := sent)
  }

  function VerdictSent(s: Session, sent: seq<Message>): Session {
    s.(transferOn := false, transferRunning := false, sentComplete := true, sent := sent)
  }

  /** The end of a transfer stops routing, warns about a failure, and lets PC1 send its one verdict. */
  lemma TransferLaw(s: Session, failed: bool, verdict: Payload, fate: Fate)
    ensures var warned := Logged(s, Passive, failed && fate.first);
            HandleTransferDone(s, failed, verdict, fate) ==
              if s.role == PC1 && !s.sentComplete then VerdictSent(s, if fate.second then warned + [Complete(verdict)] else warned)
              else TransferOver(s, warned)
  {
    WarnedOver(s, failed && fate.first);
    if s.role == PC1 && !s.sentComplete {
      VerdictAfter(s, Logged(s, Passive, failed && fate.first), verdict, fate.second);
    }
  }

  lemma WarnedOver(s: Session, ok: bool)
    ensures Send(TransferEnded(s), Passive, ok) == TransferOver(s, Logged(s, Passive, ok))
  {
    SendLaw(TransferEnded(s), Passive, ok);
  }

  lemma VerdictAfter(s: Session, warned: seq<Message>, verdict: Payload, ok: bool)
    ensures SendComplete(TransferOver(s, warned), verdict, ok)
            == VerdictSent(s, if ok then warned + [Complete(verdict)] else warned)
  {
    SendLaw(TransferOver(s, warned), Complete(verdict), ok);
  }

  /** A complete frame finishes PC1 once its own is out; PC2 answers it from testing or report generation
      and finishes too; each keeps the payload. Anything else is a strike, and what does not decode nothing. */
  lemma CompleteLaw(s: Session, payload: Payload, reply: Payload, fate: Fate)
    ensures HandleComplete(s, Undecodable(BadComplete), reply, fate) == s
    ensures HandleComplete(s, Complete(payload), reply, fate) ==
            if s.role == PC1 then
              (if s.sentComplete then s.(peerComplete := Some(payload), fin := Finishing(Completed, false)) else Struck(s, fate))
            else if s.state != Testing && s.state != GeneratingReport then Struck(s, fate)
            else Reporting(s).(sent := Logged(s, Complete(reply), fate.first), peerComplete := Some(payload),
                               fin := Finishing(Completed, false))
  {
    WarnLaw(s, fate);
    if s.role == PC2 && (s.state == Testing || s.state == GeneratingReport) {
      EnterReportLaw(s);
      ConcludeLaw(s, payload, reply, fate);
    }
  }

  lemma ConcludeLaw(s: Session, payload: Payload, reply: Payload, fate: Fate)
    ensures FinishCompleted(Send(Reporting(s), Complete(reply), fate.first), payload) ==
            Reporting(s).(sent := Logged(s, Complete(reply), fate.first), peerComplete := Some(payload), fin := Finishing(Completed, false))
  {}

  // --- Ends ---

  /** A local abort and an expired call say farewell, a lost connection and the peer's abort do not; the
      first two kinds abort, an expired call fails. */
  lemma EndLaw(s: Session, reply: Payload, fate: Fate)
    requires Enabled(s, LocalAbort)
    ensures Handle(s, LocalAbort) == s.(fin := Finishing(Aborted, true))
    ensures Handle(s, ConnLost) == s.(fin := Finishing(Aborted, false))
    ensures Handle(s, CallExpired) == s.(fin := Finishing(Failed, true))
    ensures Handle(s, Deliver(Abort, reply, fate)) == s.(fin := Finishing(Aborted, false))
  {}

  function TornDown(s: Session, sent: seq<Message>, final: State): Session {
    s.(sent := sent, closed := true, state := if Allowed(s.state, final) then final else s.state,
       exec := if s.exec.window then s.exec.(window := false, hooks := Called(s.exec, s.hooked, false)) else s.exec)
  }

  /** Teardown: a farewell where one is due, the window closed with its callback, the chosen state where
      the table allows it, and nothing after. */
  lemma ShutdownLaw(s: Session, fate: Fate)
    requires s.fin.Finishing?
    ensures ShutDown(s, fate) == TornDown(s, Logged(s, Abort, s.fin.farewell && fate.first), s.fin.state)
  {
    SendLaw(s, Abort, s.fin.farewell && fate.first);
    TearDownLaw(s, Logged(s, Abort, s.fin.farewell && fate.first), s.fin.state);
  }

  lemma TearDownLaw(s: Session, sent: seq<Message>, final: State)
    ensures TearDown(s.(sent := sent), final) == TornDown(s, sent, final)
  {
    LeaveLaw(s.exec, s.hooked);
    var x := LeaveWindow(s.exec, s.hooked);
    assert WithExec(s.(sent := sent), x) == s.(sent := sent, exec := x);
  }

  lemma LeaveLaw(x: Executor, hooked: bool)
    ensures LeaveWindow(x, hooked) == if x.window then x.(window := false, hooks := Called(x, hooked, false)) else x
  {}

  // --- Dispatch ---

  /** Transfer frames are dropped or routed once a transfer has run and are a strike before that; handshake
      frames are always a strike; results, heartbeats, progress and warnings change nothing here. */
  lemma RouteLaw(s: Session, m: Message, reply: Payload, fate: Fate)
    requires m.ReportChunk? || m.ReportAck? || m.HandshakeMsg? || m.TestResult? || m.Passive?
    ensures HandleFrame(s, m, reply, fate) ==
            if m.HandshakeMsg? || ((m.ReportChunk? || m.ReportAck?) && !s.transferOn && !s.transferRan) then Struck(s, fate)
            else s
  {
    WarnLaw(s, fate);
  }

  /** Each remaining message type has its handler. */
  lemma DispatchLaw(s: Session, m: Message, reply: Payload, fate: Fate)
    ensures m.ReadyMsg? ==> HandleFrame(s, m, reply, fate) == HandlePeerReady(s, fate)
    ensures m.StartConfirm? || m == Undecodable(BadStartConfirm) ==>
              HandleFrame(s, m, reply, fate) == HandleStartConfirmation(s, m, fate)
    ensures m.TestRequest? || m == Undecodable(BadTestRequest) ==> HandleFrame(s, m, reply, fate) == HandleTestRequest(s, m, fate)
    ensures m.Manifest? ==> HandleFrame(s, m, reply, fate) == HandleReportManifest(s, fate)
    ensures m.Complete? || m == Undecodable(BadComplete) ==> HandleFrame(s, m, reply, fate) == HandleComplete(s, m, reply, fate)
  {}
}
