/** Two honest sessions, coordinator and worker, joined by two FIFO links. Each side's link is
    its own `sent` log together with how much of it the other side has handled. */
module SessionPair {
  import opened Wrappers
  import opened SessionState
  import opened Session
  import opened SessionRuns

  datatype Pair = Pair(pc1: Session, pc2: Session, readBy2: nat, readBy1: nat)

  datatype PairStep =
    | Local1(ev: Event)
    | Local2(ev: Event)
    | Read1(reply: Payload, fate: Fate)     // PC1 handles the next frame from PC2
    | Read2(reply: Payload, fate: Fate)     // PC2 handles the next frame from PC1

  predicate PairEnabled(p: Pair, step: PairStep) {
    match step
    case Local1(ev) => !ev.Deliver? && Enabled(p.pc1, ev)
    case Local2(ev) => !ev.Deliver? && Enabled(p.pc2, ev)
    case Read1(_, _) => p.readBy1 < |p.pc2.sent| && !p.pc1.closed && p.pc1.fin.Undecided?
    case Read2(_, _) => p.readBy2 < |p.pc1.sent| && !p.pc2.closed && p.pc2.fin.Undecided?
  }

  function PairNext(p: Pair, step: PairStep): Pair
    requires PairEnabled(p, step)
  {
    match step
    case Local1(ev) => p.(pc1 := Handle(p.pc1, ev))
    case Local2(ev) => p.(pc2 := Handle(p.pc2, ev))
    case Read1(reply, fate) =>
      p.(pc1 := Handle(p.pc1, Deliver(p.pc2.sent[p.readBy1], reply, fate)), readBy1 := p.readBy1 + 1)
    case Read2(reply, fate) =>
      p.(pc2 := Handle(p.pc2, Deliver(p.pc1.sent[p.readBy2], reply, fate)), readBy2 := p.readBy2 + 1)
  }

  // --- What the agreement rests on ---

  // The frames the readiness and completion agreements are made of.
  predicate Loud(m: Message) { m.ReadyMsg? || m.StartConfirm? || m.Complete? }

  function LoudIn(ms: seq<Message>): seq<Message> {
    if ms == [] then []
    else LoudIn(ms[..|ms| - 1]) + (if Loud(ms[|ms| - 1]) then [ms[|ms| - 1]] else [])
  }

  lemma LoudAppend(ms: seq<Message>, m: Message)
    ensures LoudIn(ms + [m]) == LoudIn(ms) + (if Loud(m) then [m] else [])
  {
    assert (ms + [m])[..|ms|] == ms;
  }

  lemma {:induction false} LoudPrefix(ms: seq<Message>, k: nat)
    requires k <= |ms|
    ensures LoudIn(ms[..k]) <= LoudIn(ms)
  {
    if k < |ms| {
      LoudPrefix(ms[..|ms| - 1], k);
      assert ms[..|ms| - 1][..k] == ms[..k];
    } else {
      assert ms[..k] == ms;
    }
  }

  // The k-th frame, when loud, is the loud frame right after those of the first k.
  lemma LoudAt(ms: seq<Message>, k: nat)
    requires k < |ms|
    ensures LoudIn(ms[..k + 1]) == LoudIn(ms[..k]) + (if Loud(ms[k]) then [ms[k]] else [])
    ensures LoudIn(ms[..k + 1]) <= LoudIn(ms)
    ensures Loud(ms[k]) ==> |LoudIn(ms[..k])| < |LoudIn(ms)| && LoudIn(ms)[|LoudIn(ms[..k])|] == ms[k]
  {
    assert ms[..k + 1] == ms[..k] + [ms[k]];
    LoudAppend(ms[..k], ms[k]);
    LoudPrefix(ms, k + 1);
  }

  // One side as far as the agreement is concerned.
  datatype Face = Face(
    localReady: bool,
    peerReady: bool,
    started: bool,                 // counting down or past it
    sentComplete: bool,
    peerComplete: Option<Payload>,
    done: bool,                    // chose to finish as completed
    loud: seq<Message>)

  predicate Started(s: Session) { s.countdown > 0 || InTests(s.state) }
  predicate Done(s: Session) { s.fin.Finishing? && s.fin.state.Completed? }

  function FaceOf(s: Session): Face {
    Face(s.localReady, s.peerReady, Started(s), s.sentComplete, s.peerComplete, Done(s), LoudIn(s.sent))
  }

  // Nothing the other side could care about, except that the test may have ended.
  predicate Quiet(f: Face, g: Face) { g == f.(started := g.started) && (g.started ==> f.started) }

  // --- The invariant, over the two faces and what each has handled of the other ---

  // PC1's loud frames are a prefix of ready, start_confirmation, complete.
  predicate CoordinatorLog(ms: seq<Message>) {
    && |ms| <= 3
    && (|ms| > 0 ==> ms[0].ReadyMsg?)
    && (|ms| > 1 ==> ms[1].StartConfirm?)
    && (|ms| > 2 ==> ms[2].Complete?)
  }

  // PC2's are a prefix of ready, complete.
  predicate WorkerLog(ms: seq<Message>) {
    && |ms| <= 2
    && (|ms| > 0 ==> ms[0].ReadyMsg?)
    && (|ms| > 1 ==> ms[1].Complete?)
  }

  // What PC1 has said matches where it stands; `heard` is what it handled of PC2's log.
  predicate CoordinatorInv(f: Face, heard: seq<Message>) {
    && CoordinatorLog(f.loud)
    && (f.localReady <==> |f.loud| > 0)
    && (f.peerReady <==> |heard| > 0)
    && (|f.loud| > 1 ==> f.peerReady)
    && (f.started ==> |f.loud| > 1)
    && (|f.loud| > 2 ==> f.sentComplete)
    && (f.done ==> |heard| == 2 && heard[1].Complete? && f.peerComplete == Some(heard[1].payload))
  }

  predicate WorkerInv(f: Face, heard: seq<Message>) {
    && WorkerLog(f.loud)
    && (f.localReady <==> |f.loud| > 0)
    && (f.peerReady <==> |heard| > 0)
    && (f.started ==> |heard| > 1)
    && (|f.loud| > 1 ==> f.done)
    && (f.done ==> |heard| == 3 && heard[2].Complete? && f.peerComplete == Some(heard[2].payload))
  }

  predicate Agreement(c: Face, w: Face, heardBy1: seq<Message>, heardBy2: seq<Message>) {
    heardBy1 <= w.loud && heardBy2 <= c.loud && CoordinatorInv(c, heardBy1) && WorkerInv(w, heardBy2)
  }

  function HeardBy1(p: Pair): seq<Message>
    requires p.readBy1 <= |p.pc2.sent|
  { LoudIn(p.pc2.sent[..p.readBy1]) }

  function HeardBy2(p: Pair): seq<Message>
    requires p.readBy2 <= |p.pc1.sent|
  { LoudIn(p.pc1.sent[..p.readBy2]) }

  predicate PairInv(p: Pair) {
    && p.pc1.role == PC1 && p.pc2.role == PC2
    && SideInv(p.pc1) && SideInv(p.pc2)
    && p.readBy1 <= |p.pc2.sent| && p.readBy2 <= |p.pc1.sent|
    && Agreement(FaceOf(p.pc1), FaceOf(p.pc2), HeardBy1(p), HeardBy2(p))
  }

  // --- Steps the other side cannot tell ---

  predicate Hushed(s: Session, t: Session) { Quiet(FaceOf(s), FaceOf(t)) }

  lemma HushedTwice(s: Session, t: Session, u: Session)
    requires Hushed(s, t) && Hushed(t, u)
    ensures Hushed(s, u)
  {}

  lemma SendHushed(s: Session, m: Message, ok: bool)
    requires !Loud(m)
    ensures Hushed(s, Send(s, m, ok))
  {
    LoudAppend(s.sent, m);
  }

  lemma StrikeHushed(s: Session, fate: Fate)
    requires s.fin.Undecided?
    ensures Hushed(s, WarnInvalidState(s, fate))
  {
    var t := Send(s, Passive, fate.first);
    SendHushed(s, Passive, fate.first);
    assert Hushed(t, Strike(t));
  }

  lemma TickHushed(s: Session)
    requires SideInv(s) && s.fin.Undecided? && !s.closed && s.countdown > 0
    ensures Hushed(s, OnCountdownTick(s))
  {
    if s.countdown == 1 {
      assert Hushed(s, OnCountdownTick(s));
    }
  }

  lemma ExecHushed(s: Session, x: Executor)
    ensures Hushed(s, WithExec(s, x))
  {}

  lemma AnswerHushed(s: Session, id: Id, ok: bool)
    ensures Hushed(s, Answer(s, id, ok))
  {
    ExecHushed(s, Settle(s.exec, id));
    SendHushed(WithExec(s, Settle(s.exec, id)), TestResult(id), ok);
  }

  lemma RequestHushed(s: Session, m: Message, fate: Fate)
    requires s.fin.Undecided? && (m.TestRequest? || m == Undecodable(BadTestRequest))
    ensures Hushed(s, HandleTestRequest(s, m, fate))
  {
    if s.role != PC2 || s.state != Testing {
      StrikeHushed(s, fate);
    } else if m.TestRequest? {
      if Immediate(s.exec, m.op) {
        var t := WithExec(s, TakeUp(s.exec, m.id));
        ExecHushed(s, TakeUp(s.exec, m.id));
        AnswerHushed(t, m.id, fate.first);
        HushedTwice(s, t, Answer(t, m.id, fate.first));
      } else {
        ExecHushed(s, Accept(TakeUp(s.exec, m.id), s.hooked, m.id, m.op));
      }
    }
  }

  lemma OpDoneHushed(s: Session, ok: bool, fate: Fate)
    requires s.exec.running.RunningFor?
    ensures Hushed(s, HandleOpDone(s, ok, fate))
  {
    var t := WithExec(s, Release(s.exec, s.hooked, ok));
    ExecHushed(s, Release(s.exec, s.hooked, ok));
    AnswerHushed(t, s.exec.running.id, fate.first);
    HushedTwice(s, t, Answer(t, s.exec.running.id, fate.first));
  }

  lemma EnterReportHushed(s: Session)
    requires InTests(s.state)
    ensures Hushed(s, EnterReport(s))
  {
    EnterReportFace(s);
  }

  lemma RouteHushed(s: Session, fate: Fate)
    requires s.fin.Undecided?
    ensures Hushed(s, RouteTransferFrame(s, fate))
  {
    if !(s.transferOn || s.transferRan) {
      StrikeHushed(s, fate);
    }
  }

  lemma StartTransferHushed(s: Session)
    ensures Hushed(s, StartTransfer(s)) && StartTransfer(s).transferOn
  {
    if !s.transferOn {
      assert Hushed(s, StartTransfer(s));
    }
  }

  lemma RanHushed(s: Session)
    ensures Hushed(s, MarkRan(s))
  {}

  lemma ManifestHushed(s: Session, fate: Fate)
    requires s.fin.Undecided?
    ensures Hushed(s, HandleReportManifest(s, fate))
  {
    if s.role != PC2 || !InTests(s.state) {
      StrikeHushed(s, fate);
    } else {
      var t := EnterReport(s);
      EnterReportHushed(s);
      if s.receives {
        StartTransferHushed(t);
        HushedTwice(s, t, StartTransfer(t));
      } else {
        RanHushed(t);
        HushedTwice(s, t, MarkRan(t));
        SendHushed(MarkRan(t), ReportAck(true), fate.first);
      }
    }
  }

  lemma FinishHushed(s: Session, fin: Finish)
    requires s.fin.Undecided? && fin.Finishing? && !fin.state.Completed?
    ensures Hushed(s, EndAs(s, fin))
  {}

  lemma CloseHushed(s: Session, final: State)
    requires Ended(final)
    ensures Hushed(s, CloseAs(s, final))
  {}

  lemma ShutdownHushed(s: Session, fate: Fate)
    requires SideInv(s) && s.fin.Finishing? && !s.closed
    ensures Hushed(s, ShutDown(s, fate))
  {
    var t := Send(s, Abort, s.fin.farewell && fate.first);
    SendHushed(s, Abort, s.fin.farewell && fate.first);
    var u := WithExec(t, LeaveWindow(t.exec, t.hooked));
    ExecHushed(t, LeaveWindow(t.exec, t.hooked));
    HushedTwice(s, t, u);
    CloseHushed(u, s.fin.state);
    HushedTwice(s, u, CloseAs(u, s.fin.state));
  }

  lemma MalformedHushed(s: Session, reply: Payload, fate: Fate)
    requires s.fin.Undecided?
    ensures Hushed(s, HandleStartConfirmation(s, Undecodable(BadStartConfirm), fate))
    ensures Hushed(s, HandleComplete(s, Undecodable(BadComplete), reply, fate))
  {
    if s.role != PC2 || s.state != Ready {
      StrikeHushed(s, fate);
    }
  }

  lemma FrameHushed(s: Session, m: Message, reply: Payload, fate: Fate)
    requires s.fin.Undecided? && !Loud(m)
    ensures Hushed(s, HandleFrame(s, m, reply, fate))
  {
    match m
    case TestRequest(_, _) => RequestHushed(s, m, fate);
    case Manifest(_) => ManifestHushed(s, fate);
    case ReportChunk => RouteHushed(s, fate);
    case ReportAck(_) => RouteHushed(s, fate);
    case Abort => FinishHushed(s, Finishing(Aborted, false));
    case HandshakeMsg => StrikeHushed(s, fate);
    case Undecodable(kind) =>
      if kind.BadTestRequest? {
        RequestHushed(s, m, fate);
      } else {
        MalformedHushed(s, reply, fate);
      }
    case _ =>
  }

  // --- Steps the other side can tell ---

  function Announced(f: Face): Face { f.(localReady := true, loud := f.loud + [ReadyMsg]) }
  function Heard(f: Face): Face { f.(peerReady := true) }
  function Confirmed(f: Face): Face { f.(started := true, loud := f.loud + [StartConfirm(START_COUNTDOWN_MS)]) }

  // Entering ready: the coordinator may put its one start_confirmation on the wire.
  predicate Scheduled(role: Role, f: Face, g: Face) { g == f || (role == PC1 && g == Confirmed(f)) }

  lemma BothReadyFace(s: Session, ok: bool)
    ensures Scheduled(s.role, FaceOf(s), FaceOf(OnBothReady(s, ok)))
  {
    LoudAppend(s.sent, StartConfirm(START_COUNTDOWN_MS));
  }

  lemma AnnounceFace(s: Session)
    requires PhaseInv(s) && !s.closed && s.state == WaitingForLocalStart
    ensures FaceOf(Announce(s)) == Announced(FaceOf(s))
  {
    LoudAppend(s.sent, ReadyMsg);
  }

  lemma StartFace(s: Session, fate: Fate)
    requires SideInv(s) && s.fin.Undecided? && !s.closed
    ensures var f, g := FaceOf(s), FaceOf(SendLocalReady(s, fate));
            || g == f
            || (!f.localReady && g == Announced(f))
            || (!f.localReady && f.peerReady && Scheduled(s.role, Announced(f), g))
  {
    if !(s.localReady || s.state != WaitingForLocalStart || !fate.first) {
      AnnounceFace(s);
      BothReadyFace(Announce(s), fate.second);
      assert Announce(s).role == s.role;
    }
  }

  lemma PeerReadyFace(s: Session, fate: Fate)
    requires SideInv(s) && s.fin.Undecided? && !s.closed
    ensures var f, g := FaceOf(s), FaceOf(HandlePeerReady(s, fate));
            if f.peerReady then g == f
            else g == Heard(f) || (f.localReady && Scheduled(s.role, Heard(f), g))
    ensures HandlePeerReady(s, fate).invalidState == s.invalidState
  {
    if s.peerReady {
    } else if s.state == WaitingForLocalStart {
      assert FaceOf(NotePeerReady(s)) == Heard(FaceOf(s));
    } else {
      var t := Move(NotePeerReady(s), Ready);
      assert FaceOf(t) == Heard(FaceOf(s)) && t.role == s.role && t.invalidState == s.invalidState;
      BothReadyFace(t, fate.first);
    }
  }

  lemma StartConfirmFace(s: Session, ms: int, fate: Fate)
    requires s.role == PC2 && s.state == Ready
    ensures FaceOf(HandleStartConfirmation(s, StartConfirm(ms), fate)) == FaceOf(s).(started := true)
    ensures HandleStartConfirmation(s, StartConfirm(ms), fate).invalidState == s.invalidState
  {}

  // A completed finish, with the answering frame when one was written.
  predicate Concludes(role: Role, f: Face, g: Face, payload: Payload, reply: Payload) {
    var h := f.(peerComplete := Some(payload), done := true);
    g == h || (role == PC2 && g == h.(loud := f.loud + [Complete(reply)]))
  }

  lemma CompleteFace(s: Session, payload: Payload, reply: Payload, fate: Fate)
    requires SideInv(s) && s.fin.Undecided? && !s.closed
    ensures var f, g := FaceOf(s), FaceOf(HandleComplete(s, Complete(payload), reply, fate));
            Quiet(f, g) || Concludes(s.role, f, g, payload, reply)
  {
    if (if s.role == PC1 then !s.sentComplete else !InTests(s.state)) {
      StrikeHushed(s, fate);
    } else if s.role == PC1 {
      FinishFace(s, payload);
    } else {
      WorkerConcludes(s, payload, reply, fate);
    }
  }

  lemma EnterReportFace(s: Session)
    requires InTests(s.state)
    ensures FaceOf(EnterReport(s)) == FaceOf(s)
  {
    if s.state == Testing {
      assert FaceOf(Move(s, GeneratingReport)) == FaceOf(s);
    }
  }

  lemma SendFace(s: Session, m: Message, ok: bool)
    requires Loud(m)
    ensures FaceOf(Send(s, m, ok)) == if ok then FaceOf(s).(loud := FaceOf(s).loud + [m]) else FaceOf(s)
  {
    LoudAppend(s.sent, m);
  }

  lemma FinishFace(s: Session, payload: Payload)
    ensures FaceOf(FinishCompleted(s, payload)) == FaceOf(s).(peerComplete := Some(payload), done := true)
  {}

  lemma WorkerConcludes(s: Session, payload: Payload, reply: Payload, fate: Fate)
    requires s.role == PC2 && InTests(s.state)
    ensures Concludes(PC2, FaceOf(s), FaceOf(FinishCompleted(Send(EnterReport(s), Complete(reply), fate.first), payload)), payload, reply)
  {
    var t := EnterReport(s);
    EnterReportFace(s);
    SendFace(t, Complete(reply), fate.first);
    FinishFace(Send(t, Complete(reply), fate.first), payload);
  }

  // The coordinator's one complete frame.
  predicate Verdict(f: Face, g: Face, verdict: Payload) {
    var h := f.(sentComplete := true);
    g == h || g == h.(loud := f.loud + [Complete(verdict)])
  }

  lemma SendCompleteFace(s: Session, verdict: Payload, ok: bool)
    ensures Verdict(FaceOf(s), FaceOf(SendComplete(s, verdict, ok)), verdict)
  {
    var t := Send(s, Complete(verdict), ok);
    SendFace(s, Complete(verdict), ok);
    assert FaceOf(t.(sentComplete := true)) == FaceOf(t).(sentComplete := true);
  }

  lemma PlanFace(s: Session, result: PlanResult, verdict: Payload, fate: Fate)
    requires SideInv(s) && s.fin.Undecided? && !s.closed && s.planRunning
    ensures var f, g := FaceOf(s), FaceOf(HandlePlanDone(s, result, verdict, fate));
            Quiet(f, g) || (s.role == PC1 && f.started && !f.sentComplete && Verdict(f, g, verdict))
  {
    var t := PlanEnded(s);
    assert FaceOf(t) == FaceOf(s);
    if result.PlanFailed? {
      FinishHushed(t, Finishing(Failed, true));
    } else if result.PlanOk? && Allowed(t.state, GeneratingReport) {
      var u := Move(t, GeneratingReport);
      assert FaceOf(u) == FaceOf(s);
      StartTransferHushed(u);
      SendCompleteFace(u, verdict, fate.first);
    }
  }

  lemma TransferFace(s: Session, failed: bool, verdict: Payload, fate: Fate)
    requires SideInv(s) && s.fin.Undecided? && !s.closed && s.transferRunning
    ensures var f, g := FaceOf(s), FaceOf(HandleTransferDone(s, failed, verdict, fate));
            Quiet(f, g) || (s.role == PC1 && f.started && !f.sentComplete && Verdict(f, g, verdict))
  {
    var t := TransferEnded(s);
    TransferEndedFace(s);
    var u := Send(t, Passive, failed && fate.first);
    NoticeFace(t, failed && fate.first);
    if s.role == PC1 && !s.sentComplete {
      SendCompleteFace(u, verdict, fate.second);
    }
  }

  lemma TransferEndedFace(s: Session)
    ensures FaceOf(TransferEnded(s)) == FaceOf(s)
  {}

  lemma NoticeFace(s: Session, ok: bool)
    ensures FaceOf(Send(s, Passive, ok)) == FaceOf(s)
  {
    LoudAppend(s.sent, Passive);
  }

  // --- Every step keeps the agreement ---

  lemma CoordinatorSpeaks(c: Face, c': Face, w: Face, h1: seq<Message>, h2: seq<Message>)
    requires Agreement(c, w, h1, h2) && c.loud <= c'.loud && CoordinatorInv(c', h1)
    ensures Agreement(c', w, h1, h2)
  {}

  lemma WorkerSpeaks(c: Face, w: Face, w': Face, h1: seq<Message>, h2: seq<Message>)
    requires Agreement(c, w, h1, h2) && w.loud <= w'.loud && WorkerInv(w', h2)
    ensures Agreement(c, w', h1, h2)
  {}

  lemma CoordinatorStarts(f: Face, g: Face, heard: seq<Message>)
    requires CoordinatorInv(f, heard)
    requires || g == f
             || (!f.localReady && g == Announced(f))
             || (!f.localReady && f.peerReady && Scheduled(PC1, Announced(f), g))
    ensures CoordinatorInv(g, heard) && f.loud <= g.loud
  {}

  lemma WorkerStarts(f: Face, g: Face, heard: seq<Message>)
    requires WorkerInv(f, heard)
    requires g == f || (!f.localReady && (g == Announced(f) || Scheduled(PC2, Announced(f), g)))
    ensures WorkerInv(g, heard) && f.loud <= g.loud
  {}

  lemma CoordinatorJudges(f: Face, g: Face, heard: seq<Message>, verdict: Payload)
    requires CoordinatorInv(f, heard)
    requires Quiet(f, g) || (f.started && !f.sentComplete && Verdict(f, g, verdict))
    ensures CoordinatorInv(g, heard) && f.loud <= g.loud
  {}

  // PC1 handles the next frame of PC2's log.
  predicate CoordinatorHears(m: Message, f: Face, g: Face) {
    if m.ReadyMsg? then
      (if f.peerReady then g == f else g == Heard(f) || (f.localReady && Scheduled(PC1, Heard(f), g)))
    else if m.Complete? then Quiet(f, g) || Concludes(PC1, f, g, m.payload, 0)
    else Quiet(f, g)
  }

  lemma CoordinatorListens(c: Face, c': Face, w: Face, h1: seq<Message>, h2: seq<Message>, m: Message)
    requires Agreement(c, w, h1, h2)
    requires CoordinatorHears(m, c, c') && !c.done
    requires h1 + (if Loud(m) then [m] else []) <= w.loud
    ensures Agreement(c', w, h1 + (if Loud(m) then [m] else []), h2)
  {
    if Loud(m) {
      assert w.loud[|h1|] == (h1 + [m])[|h1|] == m;
    } else {
      assert h1 + [] == h1;
    }
  }

  predicate WorkerHears(m: Message, f: Face, g: Face, reply: Payload) {
    if m.ReadyMsg? then
      (if f.peerReady then g == f else g == Heard(f) || (f.localReady && Scheduled(PC2, Heard(f), g)))
    else if m.StartConfirm? then g == f.(started := true)
    else if m.Complete? then Quiet(f, g) || Concludes(PC2, f, g, m.payload, reply)
    else Quiet(f, g)
  }

  lemma WorkerListens(c: Face, w: Face, w': Face, h1: seq<Message>, h2: seq<Message>, m: Message, reply: Payload)
    requires Agreement(c, w, h1, h2)
    requires WorkerHears(m, w, w', reply) && !w.done
    requires h2 + (if Loud(m) then [m] else []) <= c.loud
    ensures Agreement(c, w', h1, h2 + (if Loud(m) then [m] else []))
  {
    if Loud(m) {
      assert c.loud[|h2|] == (h2 + [m])[|h2|] == m;
    } else {
      assert h2 + [] == h2;
    }
  }

  // --- Every step of the pair ---

  lemma LocalHushed(s: Session, ev: Event)
    requires SideInv(s) && Enabled(s, ev)
    requires !ev.Deliver? && !ev.Start? && !ev.PlanDone? && !ev.TransferDone?
    ensures Hushed(s, Handle(s, ev))
  {
    match ev
    case Tick => TickHushed(s);
    case OpDone(ok, fate) => OpDoneHushed(s, ok, fate);
    case LocalAbort => FinishHushed(s, Finishing(Aborted, true));
    case ConnLost => FinishHushed(s, Finishing(Aborted, false));
    case CallExpired => FinishHushed(s, Finishing(Failed, true));
    case Background(m) => SendHushed(s, m, true);
    case Shutdown(fate) => ShutdownHushed(s, fate);
  }

  lemma CoordinatorActs(s: Session, ev: Event, heard: seq<Message>)
    requires SideInv(s) && Enabled(s, ev) && s.role == PC1 && !ev.Deliver?
    requires CoordinatorInv(FaceOf(s), heard)
    ensures CoordinatorInv(FaceOf(Handle(s, ev)), heard) && FaceOf(s).loud <= FaceOf(Handle(s, ev)).loud
  {
    match ev
    case Start(fate) =>
      StartFace(s, fate);
      CoordinatorStarts(FaceOf(s), FaceOf(Handle(s, ev)), heard);
    case PlanDone(result, verdict, fate) =>
      PlanFace(s, result, verdict, fate);
      CoordinatorJudges(FaceOf(s), FaceOf(Handle(s, ev)), heard, verdict);
    case TransferDone(failed, verdict, fate) =>
      TransferFace(s, failed, verdict, fate);
      CoordinatorJudges(FaceOf(s), FaceOf(Handle(s, ev)), heard, verdict);
    case _ => LocalHushed(s, ev);
  }

  lemma WorkerActs(s: Session, ev: Event, heard: seq<Message>)
    requires SideInv(s) && Enabled(s, ev) && s.role == PC2 && !ev.Deliver?
    requires WorkerInv(FaceOf(s), heard)
    ensures WorkerInv(FaceOf(Handle(s, ev)), heard) && FaceOf(s).loud <= FaceOf(Handle(s, ev)).loud
  {
    match ev
    case Start(fate) =>
      StartFace(s, fate);
      WorkerStarts(FaceOf(s), FaceOf(Handle(s, ev)), heard);
    case PlanDone(result, verdict, fate) => PlanFace(s, result, verdict, fate);
    case TransferDone(failed, verdict, fate) => TransferFace(s, failed, verdict, fate);
    case _ => LocalHushed(s, ev);
  }

  lemma CoordinatorReads(s: Session, m: Message, reply: Payload, fate: Fate)
    requires SideInv(s) && s.fin.Undecided? && !s.closed && s.role == PC1 && !m.StartConfirm?
    ensures CoordinatorHears(m, FaceOf(s), FaceOf(HandleFrame(s, m, reply, fate)))
  {
    if m.ReadyMsg? {
      PeerReadyFace(s, fate);
    } else if m.Complete? {
      CompleteFace(s, m.payload, reply, fate);
    } else {
      FrameHushed(s, m, reply, fate);
    }
  }

  // What the worker's state must be for a start_confirmation to be in order.
  lemma WorkerReads(s: Session, m: Message, reply: Payload, fate: Fate)
    requires SideInv(s) && s.fin.Undecided? && !s.closed && s.role == PC2
    requires m.StartConfirm? ==> s.state == Ready
    ensures WorkerHears(m, FaceOf(s), FaceOf(HandleFrame(s, m, reply, fate)), reply)
  {
    if m.ReadyMsg? {
      PeerReadyFace(s, fate);
    } else if m.StartConfirm? {
      StartConfirmFace(s, m.startInMs, fate);
    } else if m.Complete? {
      CompleteFace(s, m.payload, reply, fate);
    } else {
      FrameHushed(s, m, reply, fate);
    }
  }

  // When a start_confirmation is next for the worker, the worker is in ready.
  lemma WorkerIsReady(p: Pair)
    requires PairInv(p) && !p.pc2.closed
    requires p.readBy2 < |p.pc1.sent| && p.pc1.sent[p.readBy2].StartConfirm?
    ensures p.pc2.state == Ready
  {
    LoudAt(p.pc1.sent, p.readBy2);
    assert |HeardBy2(p)| == 1;
  }

  // The worker never sends a start_confirmation.
  lemma NoConfirmationFromWorker(p: Pair)
    requires PairInv(p) && p.readBy1 < |p.pc2.sent|
    ensures !p.pc2.sent[p.readBy1].StartConfirm?
  {
    LoudAt(p.pc2.sent, p.readBy1);
  }

  lemma PrefixKept(before: seq<Message>, after: seq<Message>, k: nat)
    requires before <= after && k <= |before|
    ensures after[..k] == before[..k]
  {}

  lemma Local1Keeps(p: Pair, ev: Event)
    requires PairInv(p) && !ev.Deliver? && Enabled(p.pc1, ev)
    ensures PairInv(p.(pc1 := Handle(p.pc1, ev)))
  {
    var s := Handle(p.pc1, ev);
    HandleKeeps(p.pc1, ev);
    StepPays(p.pc1, ev);
    PrefixKept(p.pc1.sent, s.sent, p.readBy2);
    CoordinatorActs(p.pc1, ev, HeardBy1(p));
    CoordinatorSpeaks(FaceOf(p.pc1), FaceOf(s), FaceOf(p.pc2), HeardBy1(p), HeardBy2(p));
  }

  lemma Local2Keeps(p: Pair, ev: Event)
    requires PairInv(p) && !ev.Deliver? && Enabled(p.pc2, ev)
    ensures PairInv(p.(pc2 := Handle(p.pc2, ev)))
  {
    var s := Handle(p.pc2, ev);
    HandleKeeps(p.pc2, ev);
    StepPays(p.pc2, ev);
    PrefixKept(p.pc2.sent, s.sent, p.readBy1);
    WorkerActs(p.pc2, ev, HeardBy2(p));
    WorkerSpeaks(FaceOf(p.pc1), FaceOf(p.pc2), FaceOf(s), HeardBy1(p), HeardBy2(p));
  }

  lemma Read1Agrees(p: Pair, reply: Payload, fate: Fate)
    requires PairInv(p) && PairEnabled(p, Read1(reply, fate))
    ensures Agreement(FaceOf(HandleFrame(p.pc1, p.pc2.sent[p.readBy1], reply, fate)), FaceOf(p.pc2),
                      LoudIn(p.pc2.sent[..p.readBy1 + 1]), HeardBy2(p))
  {
    var m := p.pc2.sent[p.readBy1];
    NoConfirmationFromWorker(p);
    CoordinatorReads(p.pc1, m, reply, fate);
    LoudAt(p.pc2.sent, p.readBy1);
    CoordinatorListens(FaceOf(p.pc1), FaceOf(HandleFrame(p.pc1, m, reply, fate)), FaceOf(p.pc2), HeardBy1(p), HeardBy2(p), m);
  }

  lemma Read1Keeps(p: Pair, reply: Payload, fate: Fate)
    requires PairInv(p) && PairEnabled(p, Read1(reply, fate))
    ensures PairInv(PairNext(p, Read1(reply, fate)))
  {
    var ev := Deliver(p.pc2.sent[p.readBy1], reply, fate);
    HandleKeeps(p.pc1, ev);
    StepPays(p.pc1, ev);
    PrefixKept(p.pc1.sent, Handle(p.pc1, ev).sent, p.readBy2);
    Read1Agrees(p, reply, fate);
  }

  lemma Read2Agrees(p: Pair, reply: Payload, fate: Fate)
    requires PairInv(p) && PairEnabled(p, Read2(reply, fate))
    ensures Agreement(FaceOf(p.pc1), FaceOf(HandleFrame(p.pc2, p.pc1.sent[p.readBy2], reply, fate)),
                      HeardBy1(p), LoudIn(p.pc1.sent[..p.readBy2 + 1]))
  {
    var m := p.pc1.sent[p.readBy2];
    if m.StartConfirm? {
      WorkerIsReady(p);
    }
    WorkerReads(p.pc2, m, reply, fate);
    LoudAt(p.pc1.sent, p.readBy2);
    WorkerListens(FaceOf(p.pc1), FaceOf(p.pc2), FaceOf(HandleFrame(p.pc2, m, reply, fate)), HeardBy1(p), HeardBy2(p), m, reply);
  }

  lemma Read2Keeps(p: Pair, reply: Payload, fate: Fate)
    requires PairInv(p) && PairEnabled(p, Read2(reply, fate))
    ensures PairInv(PairNext(p, Read2(reply, fate)))
  {
    var ev := Deliver(p.pc1.sent[p.readBy2], reply, fate);
    HandleKeeps(p.pc2, ev);
    StepPays(p.pc2, ev);
    PrefixKept(p.pc2.sent, Handle(p.pc2, ev).sent, p.readBy1);
    Read2Agrees(p, reply, fate);
  }

  lemma PairStepKeeps(p: Pair, step: PairStep)
    requires PairInv(p) && PairEnabled(p, step)
    ensures PairInv(PairNext(p, step))
  {
    match step
    case Local1(ev) => Local1Keeps(p, ev);
    case Local2(ev) => Local2Keeps(p, ev);
    case Read1(reply, fate) => Read1Keeps(p, reply, fate);
    case Read2(reply, fate) => Read2Keeps(p, reply, fate);
  }

  // --- Whole runs of the pair ---

  predicate IsPairRun(p: Pair, steps: seq<PairStep>)
    decreases |steps|
  {
    steps == [] || (PairEnabled(p, steps[0]) && IsPairRun(PairNext(p, steps[0]), steps[1..]))
  }

  function PairAfter(p: Pair, steps: seq<PairStep>): Pair
    requires IsPairRun(p, steps)
    decreases |steps|
  {
    if steps == [] then p else PairAfter(PairNext(p, steps[0]), steps[1..])
  }

  // Both sides right after the handshake, however each is configured.
  predicate FreshPair(p: Pair) {
    && p.pc1 == Fresh(PC1, p.pc1.receives, p.pc1.sendsReports, p.pc1.hooked)
    && p.pc2 == Fresh(PC2, p.pc2.receives, p.pc2.sendsReports, p.pc2.hooked)
    && p.readBy1 == p.readBy2 == 0
  }

  lemma FreshPairInv(p: Pair)
    requires FreshPair(p)
    ensures PairInv(p)
  {
    assert p.pc1.sent[..0] == [] && p.pc2.sent[..0] == [];
  }

  lemma {:induction false} PairRunKeeps(p: Pair, steps: seq<PairStep>)
    requires PairInv(p) && IsPairRun(p, steps)
    ensures PairInv(PairAfter(p, steps))
    decreases |steps|
  {
    if steps != [] {
      PairStepKeeps(p, steps[0]);
      PairRunKeeps(PairNext(p, steps[0]), steps[1..]);
    }
  }

  // A loud frame's place in the log is its place among the loud frames.
  lemma LoudIsOrdered(ms: seq<Message>, i: nat, j: nat)
    requires i < j < |ms| && Loud(ms[i]) && Loud(ms[j])
    ensures |LoudIn(ms[..i])| < |LoudIn(ms[..j])| < |LoudIn(ms)|
    ensures LoudIn(ms)[|LoudIn(ms[..i])|] == ms[i] && LoudIn(ms)[|LoudIn(ms[..j])|] == ms[j]
  {
    LoudAt(ms, i);
    LoudAt(ms, j);
    LoudPrefix(ms[..j], i + 1);
    assert ms[..j][..i + 1] == ms[..i + 1];
  }

  /** For every interleaving of two honest peers: a side that is testing, or past it, does so
      after both ready frames were written and each was handled by the other side. */
  lemma TestingNeedsBothReady(p: Pair, steps: seq<PairStep>)
    requires FreshPair(p) && IsPairRun(p, steps)
    ensures var q := PairAfter(p, steps);
            InTests(q.pc1.state) || InTests(q.pc2.state) ==>
              && q.readBy1 <= |q.pc2.sent| && q.readBy2 <= |q.pc1.sent|
              && ReadyMsg in q.pc1.sent && ReadyMsg in q.pc2.sent[..q.readBy1]
              && (InTests(q.pc2.state) ==> ReadyMsg in q.pc1.sent[..q.readBy2])
  {
    FreshPairInv(p);
    PairRunKeeps(p, steps);
    var q := PairAfter(p, steps);
    if InTests(q.pc1.state) || InTests(q.pc2.state) {
      LoudIsSent(q.pc1.sent, ReadyMsg);
      LoudIsSent(q.pc2.sent[..q.readBy1], ReadyMsg);
      if InTests(q.pc2.state) {
        LoudIsSent(q.pc1.sent[..q.readBy2], ReadyMsg);
      }
    }
  }

  lemma {:induction false} NotTwice(ms: seq<Message>, i: nat, j: nat)
    requires CoordinatorLog(LoudIn(ms)) && i < j < |ms|
    ensures !(ms[i].StartConfirm? && ms[j].StartConfirm?)
  {
    if ms[i].StartConfirm? && ms[j].StartConfirm? {
      LoudIsOrdered(ms, i, j);
    }
  }

  lemma {:induction false} OneConfirmation(ms: seq<Message>)
    requires CoordinatorLog(LoudIn(ms))
    ensures forall i, j | 0 <= i < j < |ms| :: !(ms[i].StartConfirm? && ms[j].StartConfirm?)
  {
    forall i, j | 0 <= i < j < |ms| ensures !(ms[i].StartConfirm? && ms[j].StartConfirm?) {
      NotTwice(ms, i, j);
    }
  }

  /** start_confirmation goes out at most once, never from the worker, and the worker that
      handles it is in ready. */
  lemma StartConfirmationIsUnique(p: Pair, steps: seq<PairStep>)
    requires FreshPair(p) && IsPairRun(p, steps)
    ensures var q := PairAfter(p, steps);
            && (forall i, j | 0 <= i < j < |q.pc1.sent| ::
                  !(q.pc1.sent[i].StartConfirm? && q.pc1.sent[j].StartConfirm?))
            && (forall i | 0 <= i < |q.pc2.sent| :: !q.pc2.sent[i].StartConfirm?)
            && (q.readBy2 < |q.pc1.sent| && q.pc1.sent[q.readBy2].StartConfirm? && !q.pc2.closed ==>
                  q.pc2.state == Ready)
  {
    FreshPairInv(p);
    PairRunKeeps(p, steps);
    var q := PairAfter(p, steps);
    OneConfirmation(q.pc1.sent);
    forall i | 0 <= i < |q.pc2.sent| ensures !q.pc2.sent[i].StartConfirm? {
      LoudAt(q.pc2.sent, i);
    }
    if q.readBy2 < |q.pc1.sent| && q.pc1.sent[q.readBy2].StartConfirm? && !q.pc2.closed {
      WorkerIsReady(q);
    }
  }

  /** No ready and no start_confirmation frame ever costs either side an invalid-state strike. */
  lemma ReadinessIsNeverStruck(p: Pair, steps: seq<PairStep>, step: PairStep)
    requires FreshPair(p) && IsPairRun(p, steps) && PairEnabled(PairAfter(p, steps), step)
    ensures var q := PairAfter(p, steps); var r := PairNext(q, step);
            && (step.Read1? && (q.pc2.sent[q.readBy1].ReadyMsg? || q.pc2.sent[q.readBy1].StartConfirm?) ==>
                  r.pc1.invalidState == q.pc1.invalidState)
            && (step.Read2? && (q.pc1.sent[q.readBy2].ReadyMsg? || q.pc1.sent[q.readBy2].StartConfirm?) ==>
                  r.pc2.invalidState == q.pc2.invalidState)
  {
    FreshPairInv(p);
    PairRunKeeps(p, steps);
    var q := PairAfter(p, steps);
    match step
    case Read1(reply, fate) =>
      NoConfirmationFromWorker(q);
      PeerReadyFace(q.pc1, fate);
    case Read2(reply, fate) =>
      PeerReadyFace(q.pc2, fate);
      if q.pc1.sent[q.readBy2].StartConfirm? {
        WorkerIsReady(q);
        StartConfirmFace(q.pc2, q.pc1.sent[q.readBy2].startInMs, fate);
      }
    case _ =>
  }

  /** Completion agreement: once PC1 finishes as completed, PC2 has chosen completed too (and is
      in it as soon as it has shut down), each holding exactly the one verdict the other sent. */
  lemma CompletionAgreement(p: Pair, steps: seq<PairStep>)
    requires FreshPair(p) && IsPairRun(p, steps) && Done(PairAfter(p, steps).pc1)
    ensures var q := PairAfter(p, steps);
            && Done(q.pc2) && (q.pc2.closed ==> q.pc2.state == Completed)
            && (q.pc1.closed ==> q.pc1.state == Completed)
            && q.pc1.peerComplete.Some? && q.pc2.peerComplete.Some?
            && Complete(q.pc2.peerComplete.value) in q.pc1.sent
            && Complete(q.pc1.peerComplete.value) in q.pc2.sent
            && (forall i | 0 <= i < |q.pc1.sent| && q.pc1.sent[i].Complete? ::
                  q.pc1.sent[i].payload == q.pc2.peerComplete.value)
            && (forall i | 0 <= i < |q.pc2.sent| && q.pc2.sent[i].Complete? ::
                  q.pc2.sent[i].payload == q.pc1.peerComplete.value)
  {
    FreshPairInv(p);
    PairRunKeeps(p, steps);
    var q := PairAfter(p, steps);
    forall i | 0 <= i < |q.pc1.sent| && q.pc1.sent[i].Complete?
      ensures q.pc1.sent[i].payload == q.pc2.peerComplete.value
    {
      LoudAt(q.pc1.sent, i);
    }
    forall i | 0 <= i < |q.pc2.sent| && q.pc2.sent[i].Complete?
      ensures q.pc2.sent[i].payload == q.pc1.peerComplete.value
    {
      LoudAt(q.pc2.sent, i);
    }
    LoudIsSent(q.pc1.sent, Complete(q.pc2.peerComplete.value));
    LoudIsSent(q.pc2.sent, Complete(q.pc1.peerComplete.value));
  }

  lemma {:induction false} LoudIsSent(ms: seq<Message>, m: Message)
    requires m in LoudIn(ms)
    ensures m in ms
  {
    if m in LoudIn(ms[..|ms| - 1]) {
      LoudIsSent(ms[..|ms| - 1], m);
    }
  }
}
