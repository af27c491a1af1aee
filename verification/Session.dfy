/** One side of the control session. Every event-loop handler is one atomic step; writes of
    the plan, transfer and heartbeat goroutines are steps of their own.

    `Handle` specifies each step on values; `SessionLoop.dfy` holds the class whose methods
    are the handlers of internal/peer, proved to take exactly these steps. */
module Session {
  import opened Wrappers
  import opened SessionState

  const MAX_INVALID_STATE: nat := 3
  const START_COUNTDOWN_MS: int := 3500

  datatype Role = PC1 | PC2

  // Message IDs and verdict payloads are only ever compared.
  type Id = int
  type Payload = int

  // The operation names the worker treats specially; everything else is ordinary work.
  datatype Op = Cancel | WindowStart(validTimeout: bool) | WindowEnd | Work

  datatype Message =
    | ReadyMsg
    | StartConfirm(startInMs: int)
    | TestRequest(id: Id, op: Op)
    | TestResult(inReplyTo: Id)
    | Manifest(id: Id)
    | ReportChunk
    | ReportAck(declined: bool)
    | Complete(payload: Payload)
    | Abort
    | Undecodable(kind: Kind)      // a payload of that type which does not decode
    | HandshakeMsg                 // hello, hello_ack or capabilities after the handshake
    | Passive                      // heartbeat, progress, warning or unknown: never changes the session

  datatype Kind = BadStartConfirm | BadTestRequest | BadComplete

  // Which of a handler's (at most two) frame writes succeed.
  datatype Fate = Fate(first: bool, second: bool)

  datatype PlanResult = PlanOk | PlanCancelled | PlanFailed

  datatype Event =
    | Start(fate: Fate)
    | Tick
    | Deliver(msg: Message, reply: Payload, fate: Fate)
    | PlanDone(result: PlanResult, verdict: Payload, fate: Fate)
    | TransferDone(failed: bool, verdict: Payload, fate: Fate)
    | OpDone(ok: bool, fate: Fate)
    | LocalAbort
    | ConnLost
    | CallExpired
    | Background(msg: Message)     // another goroutine writes a frame
    | Shutdown(fate: Fate)

  // The single-op slot, and the executor goroutine whose evOpDone is still to come.
  datatype ActiveOp = NoOp | ActiveOp(id: Id, op: Op)
  datatype Goroutine = NotRunning | RunningFor(id: Id)

  // The worker's executor slot and cable-test window.
  datatype Executor = Executor(
    active: ActiveOp,
    running: Goroutine,
    window: bool,
    idleWide: bool,
    hooks: seq<bool>,              // calls of OnCableTestWindow, in order
    handled: multiset<Id>,         // decodable requests taken up in testing
    answered: multiset<Id>)        // test_results written (or attempted) for them

  // The finish spec the loop runs until.
  datatype Finish = Undecided | Finishing(state: State, farewell: bool)

  datatype Session = Session(
    role: Role,
    receives: bool,                // a receive callback is configured and enabled
    sendsReports: bool,            // a send callback is configured, enabled and accepted
    hooked: bool,                  // OnCableTestWindow is set
    state: State,
    localReady: bool,
    peerReady: bool,
    countdown: nat,                // pending countdown steps, the last one being GO
    planRunning: bool,
    sentComplete: bool,
    peerComplete: Option<Payload>,
    transferOn: bool,
    transferRan: bool,
    transferRunning: bool,
    invalidState: nat,
    exec: Executor,
    fin: Finish,
    closed: bool,
    sent: seq<Message>)            // everything that reached the wire, in order

  const IDLE: Executor := Executor(NoOp, NotRunning, false, false, [], multiset{}, multiset{})

  // The session as the loop starts, right after the handshake.
  function Fresh(role: Role, receives: bool, sendsReports: bool, hooked: bool): Session {
    Session(role, receives, sendsReports, hooked, WaitingForLocalStart, false, false, 0, false, false, None,
            false, false, false, 0, IDLE, Undecided, false, [])
  }

  function Send(s: Session, m: Message, ok: bool): Session {
    if ok then s.(sent := s.sent + [m]) else s
  }

  function Move(s: Session, to: State): Session { s.(state := Transition(s.state, to)) }

  // States in which the worker accepts the coordinator's report and complete frames.
  predicate InTests(st: State) { st.Testing? || st.GeneratingReport? }

  // Three strikes end the session.
  function Strike(s: Session): Session {
    s.(invalidState := s.invalidState + 1,
       fin := if s.invalidState + 1 >= MAX_INVALID_STATE then Finishing(Aborted, true) else s.fin)
  }

  function WarnInvalidState(s: Session, fate: Fate): Session { Strike(Send(s, Passive, fate.first)) }

  // Ticks that would lie in the past are skipped; GO always comes.
  function CountdownSteps(ms: int): nat {
    1 + (if ms >= 1000 then 1 else 0) + (if ms >= 2000 then 1 else 0) + (if ms >= 3000 then 1 else 0)
  }

  // Both announcements are in: PC1 puts its start_confirmation on the wire and arms its countdown.
  function OnBothReady(s: Session, ok: bool): Session {
    if s.role != PC1 || !ok then s
    else s.(sent := s.sent + [StartConfirm(START_COUNTDOWN_MS)], countdown := CountdownSteps(START_COUNTDOWN_MS))
  }

  // The ready frame is on the wire.
  function Announce(s: Session): Session {
    s.(sent := s.sent + [ReadyMsg], localReady := true,
       state := Transition(s.state, if s.peerReady then Ready else WaitingForPeerStart))
  }

  function SendLocalReady(s: Session, fate: Fate): Session {
    if s.localReady || s.state != WaitingForLocalStart || !fate.first then s
    else if s.peerReady then OnBothReady(Announce(s), fate.second)
    else Announce(s)
  }

  function NotePeerReady(s: Session): Session { s.(peerReady := true) }

  function HandlePeerReady(s: Session, fate: Fate): Session {
    if s.peerReady then s
    else if s.state == WaitingForLocalStart then NotePeerReady(s)
    else if s.state == WaitingForPeerStart then OnBothReady(Move(NotePeerReady(s), Ready), fate.first)
    else WarnInvalidState(s, fate)
  }

  function HandleStartConfirmation(s: Session, m: Message, fate: Fate): Session
    requires m.StartConfirm? || m == Undecodable(BadStartConfirm)
  {
    if s.role != PC2 || s.state != Ready then WarnInvalidState(s, fate)
    else if m.Undecodable? then s
    else CountDown(s, CountdownSteps(m.startInMs))
  }

  // GO: testing begins, and the coordinator launches its plan.
  function Go(s: Session): Session {
    s.(countdown := 0, state := Transition(s.state, Testing),
       planRunning := s.planRunning || (Allowed(s.state, Testing) && s.role == PC1))
  }

  function CountDown(s: Session, left: nat): Session { s.(countdown := left) }

  function OnCountdownTick(s: Session): Session {
    if s.countdown == 0 then s
    else if s.countdown > 1 then CountDown(s, s.countdown - 1)
    else Go(s)
  }

  function Hooked(x: Executor, hooked: bool, open: bool): Executor {
    if hooked then x.(hooks := x.hooks + [open]) else x
  }

  function WithExec(s: Session, x: Executor): Session { s.(exec := x) }

  function Settle(x: Executor, id: Id): Executor { x.(answered := x.answered + multiset{id}) }

  // Write the test_result that settles a request.
  function Answer(s: Session, id: Id, ok: bool): Session {
    Send(WithExec(s, Settle(s.exec, id)), TestResult(id), ok)
  }

  function OpenWindow(x: Executor, hooked: bool): Executor {
    Hooked(x, hooked, true).(window := true, idleWide := true)
  }

  function CloseWindow(x: Executor, hooked: bool): Executor {
    Hooked(x, hooked, false).(window := false, idleWide := false)
  }

  function StartOp(x: Executor, id: Id, op: Op): Executor {
    x.(active := ActiveOp(id, op), running := RunningFor(id))
  }

  // Requests answered on the spot: cancels, overlaps and window misuse.
  predicate Immediate(x: Executor, op: Op) {
    || op.Cancel?
    || x.active.ActiveOp?
    || (op.WindowStart? && (x.window || !op.validTimeout))
    || (op.WindowEnd? && !x.window)
  }

  function TakeUp(x: Executor, id: Id): Executor { x.(handled := x.handled + multiset{id}) }

  function Accept(x: Executor, hooked: bool, id: Id, op: Op): Executor {
    StartOp(if op.WindowStart? then OpenWindow(x, hooked) else x, id, op)
  }

  function HandleTestRequest(s: Session, m: Message, fate: Fate): Session
    requires m.TestRequest? || m == Undecodable(BadTestRequest)
  {
    if s.role != PC2 || s.state != Testing then WarnInvalidState(s, fate)
    else if m.Undecodable? then s
    else if Immediate(s.exec, m.op) then Answer(WithExec(s, TakeUp(s.exec, m.id)), m.id, fate.first)
    else WithExec(s, Accept(TakeUp(s.exec, m.id), s.hooked, m.id, m.op))
  }

  // The finished goroutine frees the slot it owns; a window op may close the window.
  function Release(x: Executor, hooked: bool, ok: bool): Executor
    requires x.running.RunningFor?
  {
    if !x.active.ActiveOp? || x.active.id != x.running.id then x.(running := NotRunning)
    else if x.active.op.WindowEnd? || (x.active.op.WindowStart? && !ok) then
      CloseWindow(x.(running := NotRunning, active := NoOp), hooked)
    else x.(running := NotRunning, active := NoOp)
  }

  function HandleOpDone(s: Session, ok: bool, fate: Fate): Session
    requires s.exec.running.RunningFor?
  {
    Answer(WithExec(s, Release(s.exec, s.hooked, ok)), s.exec.running.id, fate.first)
  }

  function SendComplete(s: Session, verdict: Payload, ok: bool): Session {
    Send(s, Complete(verdict), ok).(sentComplete := true)
  }

  function StartTransfer(s: Session): Session {
    if s.transferOn then s
    else s.(transferOn := true, transferRan := true, transferRunning := true)
  }

  // Success: enter report generation, then transfer the reports or complete at once.
  function PlanSucceeded(s: Session, verdict: Payload, fate: Fate): Session {
    if !Allowed(s.state, GeneratingReport) then s
    else if s.sendsReports then StartTransfer(Move(s, GeneratingReport))
    else SendComplete(Move(s, GeneratingReport), verdict, fate.first)
  }

  function PlanEnded(s: Session): Session { s.(planRunning := false) }
  function EndAs(s: Session, fin: Finish): Session { s.(fin := fin) }

  function HandlePlanDone(s: Session, result: PlanResult, verdict: Payload, fate: Fate): Session {
    match result
    case PlanCancelled => PlanEnded(s)
    case PlanFailed => EndAs(PlanEnded(s), Finishing(Failed, true))
    case PlanOk => PlanSucceeded(PlanEnded(s), verdict, fate)
  }

  // The worker's testing state ends with the first report or complete frame.
  function EnterReport(s: Session): Session {
    if s.state == Testing then Move(s, GeneratingReport) else s
  }

  function FinishCompleted(s: Session, payload: Payload): Session {
    s.(peerComplete := Some(payload), fin := Finishing(Completed, false))
  }

  function HandleComplete(s: Session, m: Message, reply: Payload, fate: Fate): Session
    requires m.Complete? || m == Undecodable(BadComplete)
  {
    if m.Undecodable? then s
    else if (if s.role == PC1 then !s.sentComplete else !InTests(s.state)) then WarnInvalidState(s, fate)
    else if s.role == PC1 then FinishCompleted(s, m.payload)
    else FinishCompleted(Send(EnterReport(s), Complete(reply), fate.first), m.payload)
  }

  // A frame for the transfer callback: routed, dropped as late, or out of place.
  function RouteTransferFrame(s: Session, fate: Fate): Session {
    if s.transferOn || s.transferRan then s else WarnInvalidState(s, fate)
  }

  function MarkRan(s: Session): Session { s.(transferRan := true) }

  function HandleReportManifest(s: Session, fate: Fate): Session {
    if s.role != PC2 || !InTests(s.state) then WarnInvalidState(s, fate)
    else if s.receives then RouteTransferFrame(StartTransfer(EnterReport(s)), fate)
    else Send(MarkRan(EnterReport(s)), ReportAck(true), fate.first)
  }

  function TransferEnded(s: Session): Session { s.(transferOn := false, transferRunning := false) }

  function HandleTransferDone(s: Session, failed: bool, verdict: Payload, fate: Fate): Session {
    if s.role == PC1 && !s.sentComplete then
      SendComplete(Send(TransferEnded(s), Passive, failed && fate.first), verdict, fate.second)
    else Send(TransferEnded(s), Passive, failed && fate.first)
  }

  function HandleFrame(s: Session, m: Message, reply: Payload, fate: Fate): Session {
    match m
    case ReadyMsg => HandlePeerReady(s, fate)
    case StartConfirm(_) => HandleStartConfirmation(s, m, fate)
    case TestRequest(_, _) => HandleTestRequest(s, m, fate)
    case TestResult(_) => s
    case Manifest(_) => HandleReportManifest(s, fate)
    case ReportChunk => RouteTransferFrame(s, fate)
    case ReportAck(_) => RouteTransferFrame(s, fate)
    case Complete(_) => HandleComplete(s, m, reply, fate)
    case Abort => s.(fin := Finishing(Aborted, false))
    case Undecodable(BadStartConfirm) => HandleStartConfirmation(s, m, fate)
    case Undecodable(BadTestRequest) => HandleTestRequest(s, m, fate)
    case Undecodable(BadComplete) => HandleComplete(s, m, reply, fate)
    case HandshakeMsg => WarnInvalidState(s, fate)
    case Passive => s
  }

  // A window still open at teardown is closed; the connection goes away, idle timeout and all.
  function LeaveWindow(x: Executor, hooked: bool): Executor {
    if x.window then Hooked(x, hooked, false).(window := false) else x
  }

  function CloseAs(s: Session, final: State): Session { s.(state := Transition(s.state, final), closed := true) }

  function TearDown(s: Session, final: State): Session {
    CloseAs(WithExec(s, LeaveWindow(s.exec, s.hooked)), final)
  }

  // The ordered teardown: farewell, window, then the chosen terminal state.
  function ShutDown(s: Session, fate: Fate): Session
    requires s.fin.Finishing?
  {
    TearDown(Send(s, Abort, s.fin.farewell && fate.first), s.fin.state)
  }

  // Frames the other goroutines of an honest side write, and when they run.
  predicate MayWrite(s: Session, m: Message) {
    match m
    case Passive => true
    case TestRequest(_, _) => s.role == PC1 && s.planRunning
    case Manifest(_) => s.role == PC1 && s.transferRunning
    case ReportChunk => s.role == PC1 && s.transferRunning
    case ReportAck(_) => s.role == PC2 && s.transferRunning
    case _ => false
  }

  predicate Enabled(s: Session, ev: Event) {
    && !s.closed
    && match ev
       case Shutdown(_) => s.fin.Finishing?
       case Background(m) => MayWrite(s, m)
       case Tick => s.fin.Undecided? && s.countdown > 0
       case PlanDone(_, _, _) => s.fin.Undecided? && s.planRunning
       case TransferDone(_, _, _) => s.fin.Undecided? && s.transferRunning
       case OpDone(_, _) => s.fin.Undecided? && s.exec.running.RunningFor?
       case _ => s.fin.Undecided?
  }

  function Handle(s: Session, ev: Event): Session
    requires Enabled(s, ev)
  {
    match ev
    case Start(fate) => SendLocalReady(s, fate)
    case Tick => OnCountdownTick(s)
    case Deliver(m, reply, fate) => HandleFrame(s, m, reply, fate)
    case PlanDone(result, verdict, fate) => HandlePlanDone(s, result, verdict, fate)
    case TransferDone(failed, verdict, fate) => HandleTransferDone(s, failed, verdict, fate)
    case OpDone(ok, fate) => HandleOpDone(s, ok, fate)
    case LocalAbort => s.(fin := Finishing(Aborted, true))
    case ConnLost => s.(fin := Finishing(Aborted, false))
    case CallExpired => s.(fin := Finishing(Failed, true))
    case Background(m) => Send(s, m, true)
    case Shutdown(fate) => ShutDown(s, fate)
  }
}
