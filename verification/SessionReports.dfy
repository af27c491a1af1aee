/** When reports are transferred and when verdicts and declines go out, over whole runs of one side. */
module SessionReports {
  import opened Wrappers
  import opened SessionState
  import opened Session
  import opened SessionRuns
  import opened SessionLaws

  predicate HasComplete(ms: seq<Message>) { exists i | 0 <= i < |ms| :: ms[i].Complete? }

  // The report_acks this side has put on the wire.
  function Acks(ms: seq<Message>): nat {
    if ms == [] then 0 else Acks(ms[..|ms| - 1]) + (if ms[|ms| - 1].ReportAck? then 1 else 0)
  }

  lemma LogStep(ms: seq<Message>, m: Message)
    ensures Acks(ms + [m]) == Acks(ms) + (if m.ReportAck? then 1 else 0)
    ensures HasComplete(ms + [m]) <==> HasComplete(ms) || m.Complete?
  {
    assert (ms + [m])[..|ms|] == ms && (ms + [m])[|ms|] == m;
    assert forall i | 0 <= i < |ms| :: (ms + [m])[i] == ms[i];
  }

  // The coordinator transfers exactly when it is to; its verdict waits for that.
  predicate CoordinatorReports(s: Session) {
    && (s.transferRan ==> s.sendsReports)
    && (s.sendsReports && HasComplete(s.sent) ==> s.transferRan && !s.transferRunning)
    && (HasComplete(s.sent) ==> s.sentComplete)
    && (!s.closed && s.state == GeneratingReport ==> s.sentComplete || (s.sendsReports && s.transferRunning))
  }

  // The worker runs a transfer only with a callback to run.
  predicate WorkerReports(s: Session) { s.transferRunning ==> s.receives }

  predicate ReportInv(s: Session) { if s.role == PC1 then CoordinatorReports(s) && Acks(s.sent) == 0 else WorkerReports(s) }

  // The declines an event owes: one for a manifest taken up without a callback.
  function DeclineDue(s: Session, ev: Event): nat {
    if ev.Deliver? && ev.msg.Manifest? && s.role == PC2 && !s.receives && InTests(s.state) && ev.fate.first then 1 else 0
  }

  // What the step from s to t keeps, owing `due` declines.
  predicate Kept(s: Session, t: Session, due: nat) {
    && ReportInv(t) && t.role == s.role && t.receives == s.receives && t.sendsReports == s.sendsReports
    && (!s.receives || s.role == PC1 ==> Acks(t.sent) == Acks(s.sent) + due)
  }

  // Steps that touch neither the transfer nor the log's acks and verdicts.
  predicate Aloof(s: Session, t: Session) {
    && t.role == s.role && t.receives == s.receives && t.sendsReports == s.sendsReports
    && t.transferRan == s.transferRan && t.transferRunning == s.transferRunning && t.sentComplete == s.sentComplete
    && Acks(t.sent) == Acks(s.sent) && HasComplete(t.sent) == HasComplete(s.sent)
    && (!t.closed && t.state == GeneratingReport ==> !s.closed && s.state == GeneratingReport)
  }

  lemma AloofKeeps(s: Session, t: Session)
    requires ReportInv(s) && Aloof(s, t)
    ensures Kept(s, t, 0)
  {}

  lemma StruckAloof(s: Session, fate: Fate)
    ensures Aloof(s, Struck(s, fate))
  {
    LogStep(s.sent, Passive);
  }

  // The readiness and start steps leave reports alone.
  lemma AnnouncedAloof(s: Session, next: State)
    requires next == Ready || next == WaitingForPeerStart
    ensures Aloof(s, Announced(s, next))
  {
    LogStep(s.sent, ReadyMsg);
  }

  lemma ConfirmedAloof(s: Session)
    ensures Aloof(s, StartConfirmed(s))
  {
    LogStep(s.sent, StartConfirm(3500));
  }

  lemma MetAloof(s: Session)
    ensures Aloof(s, MetPeer(s))
  {}

  lemma NotedAloof(s: Session)
    ensures Aloof(s, NotePeerReady(s))
  {}

  lemma CountDownAloof(s: Session, left: nat)
    ensures Aloof(s, CountDown(s, left))
  {}

  lemma StartedAloof(s: Session)
    ensures Aloof(s, Started(s))
  {}

  lemma AloofTwice(s: Session, t: Session, u: Session)
    requires Aloof(s, t) && Aloof(t, u)
    ensures Aloof(s, u)
  {}

  lemma StillAloof(s: Session)
    ensures Aloof(s, s)
  {}

  lemma AnnounceAloof(s: Session, fate: Fate)
    requires !s.localReady && s.state == WaitingForLocalStart
    ensures Aloof(s, SendLocalReady(s, fate))
  {
    AnnounceLaw(s, fate);
    StillAloof(s);
    var met := Announced(s, Ready);
    AnnouncedAloof(s, WaitingForPeerStart);
    AnnouncedAloof(s, Ready);
    ConfirmedAloof(met);
    AloofTwice(s, met, StartConfirmed(met));
  }

  lemma MeetAloof(s: Session, fate: Fate)
    requires !s.peerReady && s.state == WaitingForPeerStart
    ensures Aloof(s, HandlePeerReady(s, fate))
  {
    PeerReadyLaw(s, fate);
    MetAloof(s);
    ConfirmedAloof(MetPeer(s));
    AloofTwice(s, MetPeer(s), StartConfirmed(MetPeer(s)));
  }

  lemma HeardAloof(s: Session, fate: Fate)
    requires s.peerReady || s.state != WaitingForPeerStart
    ensures Aloof(s, HandlePeerReady(s, fate))
  {
    PeerReadyLaw(s, fate);
    StillAloof(s);
    NotedAloof(s);
    StruckAloof(s, fate);
  }

  lemma TickAloof(s: Session)
    requires s.state == Ready && s.countdown > 0
    ensures Aloof(s, OnCountdownTick(s))
  {
    TickLaw(s);
    if s.countdown > 1 {
      CountDownAloof(s, s.countdown - 1);
    } else {
      StartedAloof(s);
    }
  }

  lemma ConfirmationAloof(s: Session, m: Message, fate: Fate)
    requires m.StartConfirm? || m == Undecodable(BadStartConfirm)
    ensures Aloof(s, HandleStartConfirmation(s, m, fate))
  {
    StartConfirmLaw(s, m, fate);
    StruckAloof(s, fate);
    StillAloof(s);
    if m.StartConfirm? {
      CountDownAloof(s, CountdownSteps(m.startInMs));
    }
  }

  lemma StartKept(s: Session, fate: Fate)
    requires ReportInv(s)
    ensures Kept(s, SendLocalReady(s, fate), 0)
  {
    if !s.localReady && s.state == WaitingForLocalStart {
      AnnounceAloof(s, fate);
    } else {
      StillAloof(s);
    }
    AloofKeeps(s, SendLocalReady(s, fate));
  }

  lemma PeerReadyKept(s: Session, fate: Fate)
    requires ReportInv(s)
    ensures Kept(s, HandlePeerReady(s, fate), 0)
  {
    if !s.peerReady && s.state == WaitingForPeerStart {
      MeetAloof(s, fate);
    } else {
      HeardAloof(s, fate);
    }
    AloofKeeps(s, HandlePeerReady(s, fate));
  }

  lemma StartConfirmKept(s: Session, m: Message, fate: Fate)
    requires ReportInv(s) && (m.StartConfirm? || m == Undecodable(BadStartConfirm))
    ensures Kept(s, HandleStartConfirmation(s, m, fate), 0)
  {
    ConfirmationAloof(s, m, fate);
    AloofKeeps(s, HandleStartConfirmation(s, m, fate));
  }

  lemma TickKept(s: Session)
    requires ReportInv(s) && s.state == Ready && s.countdown > 0
    ensures Kept(s, OnCountdownTick(s), 0)
  {
    TickAloof(s);
    AloofKeeps(s, OnCountdownTick(s));
  }

  lemma DismissedAloof(s: Session, id: Id, ok: bool)
    ensures Aloof(s, Dismissed(s, id, ok))
  {
    LogStep(s.sent, TestResult(id));
  }

  lemma ExecAloof(s: Session, x: Executor)
    ensures Aloof(s, WithExec(s, x))
  {}

  lemma RequestKept(s: Session, m: Message, fate: Fate)
    requires ReportInv(s) && (m.TestRequest? || m == Undecodable(BadTestRequest))
    ensures Kept(s, HandleTestRequest(s, m, fate), 0)
  {
    RequestLaw(s, m, fate);
    if s.role == PC1 || s.state != Testing {
      StruckAloof(s, fate);
      AloofKeeps(s, Struck(s, fate));
    } else if m.Undecodable? {
      AloofKeeps(s, s);
    } else if Refused(s.exec, m.op) {
      DismissedAloof(s, m.id, fate.first);
      AloofKeeps(s, Dismissed(s, m.id, fate.first));
    } else {
      ExecAloof(s, TakenUp(s.exec, s.hooked, m.id, m.op));
      AloofKeeps(s, WithExec(s, TakenUp(s.exec, s.hooked, m.id, m.op)));
    }
  }

  lemma OpDoneKept(s: Session, ok: bool, fate: Fate)
    requires ReportInv(s) && s.exec.running.RunningFor? && s.exec.active.ActiveOp? && s.exec.active.id == s.exec.running.id
    ensures Kept(s, HandleOpDone(s, ok, fate), 0)
  {
    OpDoneLaw(s, ok, fate);
    LogStep(s.sent, TestResult(s.exec.active.id));
    AloofKeeps(s, HandleOpDone(s, ok, fate));
  }

  lemma PlanKept(s: Session, result: PlanResult, verdict: Payload, fate: Fate)
    requires ReportInv(s) && SideInv(s) && !s.closed && s.planRunning
    ensures Kept(s, HandlePlanDone(s, result, verdict, fate), 0)
  {
    PlanLaw(s, result, verdict, fate);
    LogStep(s.sent, Complete(verdict));
  }

  lemma TransferKept(s: Session, failed: bool, verdict: Payload, fate: Fate)
    requires ReportInv(s) && SideInv(s) && !s.closed && s.transferRunning
    ensures Kept(s, HandleTransferDone(s, failed, verdict, fate), 0)
  {
    TransferLaw(s, failed, verdict, fate);
    var warned := Logged(s, Passive, failed && fate.first);
    LogStep(s.sent, Passive);
    LogStep(warned, Complete(verdict));
  }

  lemma ManifestKept(s: Session, fate: Fate)
    requires ReportInv(s) && SideInv(s) && !s.closed
    ensures Kept(s, HandleReportManifest(s, fate),
                 if s.role == PC2 && !s.receives && InTests(s.state) && fate.first then 1 else 0)
  {
    if s.role == PC1 || !InTests(s.state) {
      MisplacedManifestLaw(s, fate);
      StruckAloof(s, fate);
      AloofKeeps(s, Struck(s, fate));
    } else if !s.receives {
      DecliningLaw(s, fate);
      LogStep(s.sent, ReportAck(true));
    } else if s.transferOn {
      RepeatedManifestLaw(s, fate);
    } else {
      ReceivingLaw(s, fate);
    }
  }

  lemma CompleteKept(s: Session, m: Message, reply: Payload, fate: Fate)
    requires ReportInv(s) && SideInv(s) && !s.closed && (m.Complete? || m == Undecodable(BadComplete))
    ensures Kept(s, HandleComplete(s, m, reply, fate), 0)
  {
    if m.Complete? {
      CompleteLaw(s, m.payload, reply, fate);
      StruckAloof(s, fate);
      LogStep(s.sent, Complete(reply));
      if OutOfTurn(s) {
        AloofKeeps(s, Struck(s, fate));
      }
    } else {
      CompleteLaw(s, 0, reply, fate);
      AloofKeeps(s, s);
    }
  }

  predicate OutOfTurn(s: Session) { if s.role == PC1 then !s.sentComplete else s.state != Testing && s.state != GeneratingReport }

  lemma FrameKept(s: Session, m: Message, reply: Payload, fate: Fate)
    requires ReportInv(s) && SideInv(s) && s.fin.Undecided? && !s.closed
    ensures Kept(s, HandleFrame(s, m, reply, fate), DeclineDue(s, Deliver(m, reply, fate)))
  {
    DispatchLaw(s, m, reply, fate);
    match m
    case ReadyMsg => PeerReadyKept(s, fate);
    case StartConfirm(_) => StartConfirmKept(s, m, fate);
    case TestRequest(_, _) => RequestKept(s, m, fate);
    case Manifest(_) => ManifestKept(s, fate);
    case Complete(_) => CompleteKept(s, m, reply, fate);
    case Undecodable(kind) =>
      match kind {
        case BadStartConfirm => StartConfirmKept(s, m, fate);
        case BadTestRequest => RequestKept(s, m, fate);
        case BadComplete => CompleteKept(s, m, reply, fate);
      }
    case Abort => AbortKept(s);
    case _ => RoutedKept(s, m, reply, fate);
  }

  lemma AbortKept(s: Session)
    requires ReportInv(s)
    ensures Kept(s, EndAs(s, Finishing(Aborted, false)), 0)
  {
    AloofKeeps(s, EndAs(s, Finishing(Aborted, false)));
  }

  lemma RoutedKept(s: Session, m: Message, reply: Payload, fate: Fate)
    requires ReportInv(s) && (m.ReportChunk? || m.ReportAck? || m.HandshakeMsg? || m.TestResult? || m.Passive?)
    ensures Kept(s, HandleFrame(s, m, reply, fate), 0)
  {
    RouteLaw(s, m, reply, fate);
    StruckAloof(s, fate);
    AloofKeeps(s, s);
    AloofKeeps(s, Struck(s, fate));
  }

  lemma WriteKept(s: Session, m: Message)
    requires ReportInv(s) && MayWrite(s, m)
    ensures Kept(s, Send(s, m, true), 0)
  {
    SendLaw(s, m, true);
    LogStep(s.sent, m);
  }

  lemma ShutdownKept(s: Session, fate: Fate)
    requires ReportInv(s) && s.fin.Finishing?
    ensures Kept(s, ShutDown(s, fate), 0)
  {
    ShutdownLaw(s, fate);
    LogStep(s.sent, Abort);
    AloofKeeps(s, ShutDown(s, fate));
  }

  lemma StepKept(s: Session, ev: Event)
    requires ReportInv(s) && SideInv(s) && Enabled(s, ev)
    ensures Kept(s, Handle(s, ev), DeclineDue(s, ev))
  {
    match ev
    case Start(fate) => StartKept(s, fate);
    case Tick => TickKept(s);
    case Deliver(m, reply, fate) => FrameKept(s, m, reply, fate);
    case PlanDone(result, verdict, fate) => PlanKept(s, result, verdict, fate);
    case TransferDone(failed, verdict, fate) => TransferKept(s, failed, verdict, fate);
    case OpDone(ok, fate) => OpDoneKept(s, ok, fate);
    case Background(m) => WriteKept(s, m);
    case Shutdown(fate) => ShutdownKept(s, fate);
    case _ => AloofKeeps(s, Handle(s, ev));
  }

  function DeclinesDue(s: Session, events: seq<Event>): nat
    requires IsRun(s, events)
    decreases |events|
  {
    if events == [] then 0 else DeclineDue(s, events[0]) + DeclinesDue(Handle(s, events[0]), events[1..])
  }

  lemma {:induction false} RunKept(s: Session, events: seq<Event>)
    requires ReportInv(s) && SideInv(s) && IsRun(s, events)
    ensures Kept(s, EndOf(s, events), DeclinesDue(s, events))
    decreases |events|
  {
    if events != [] {
      StepKept(s, events[0]);
      HandleKeeps(s, events[0]);
      RunKept(Handle(s, events[0]), events[1..]);
    }
  }

  /** PC1 in any run: it transfers reports only with a send callback configured, enabled and accepted; with
      one, its verdict goes out only after a transfer has run and ended; in report generation it is
      transferring, if it is to, or its verdict is out; and it never acknowledges a report. */
  lemma CoordinatorTransfersWhenItShould(start: Session, events: seq<Event>)
    requires start == Fresh(PC1, start.receives, start.sendsReports, start.hooked) && IsRun(start, events)
    ensures var s := EndOf(start, events);
            && (s.transferRan ==> start.sendsReports)
            && (start.sendsReports && (exists i | 0 <= i < |s.sent| :: s.sent[i].Complete?) ==> s.transferRan && !s.transferRunning)
            && (!s.closed && s.state == GeneratingReport ==> s.sentComplete || (start.sendsReports && s.transferRunning))
            && (forall i | 0 <= i < |s.sent| :: !s.sent[i].ReportAck?)
  {
    RunKept(start, events);
    NoAcks(EndOf(start, events).sent);
  }

  lemma {:induction false} NoAcks(ms: seq<Message>)
    ensures Acks(ms) == 0 <==> forall i | 0 <= i < |ms| :: !ms[i].ReportAck?
  {
    if ms != [] {
      var cut := ms[..|ms| - 1];
      NoAcks(cut);
      assert forall i | 0 <= i < |cut| :: cut[i] == ms[i];
    }
  }

  /** PC2 in any run: a transfer runs only with a receive callback; without one the report_acks on the wire
      are exactly the declines of the manifests taken up. */
  lemma WorkerDeclinesWhenItMust(start: Session, events: seq<Event>)
    requires start == Fresh(PC2, start.receives, start.sendsReports, start.hooked) && IsRun(start, events)
    ensures var s := EndOf(start, events);
            && (s.transferRunning ==> start.receives)
            && (!start.receives ==> Acks(s.sent) == DeclinesDue(start, events))
  {
    RunKept(start, events);
  }
}
