/** The session state machine's authoritative transition table. */
module SessionState {
  datatype State =
    | Initializing | Preflight | Listening | Connecting | Handshake
    | WaitingForLocalStart | WaitingForPeerStart | Ready | Testing | GeneratingReport
    | Completed | Aborted | Failed

  // The table's row for `from` lists `to`: read by column, each state with its predecessors.
  predicate Allowed(from: State, to: State) {
    match to
    case Initializing => false
    case Preflight => from.Initializing?
    case Listening => from.Preflight?
    case Connecting => from.Preflight?
    case Handshake => from.Listening? || from.Connecting?
    case WaitingForLocalStart => from.Handshake?
    case WaitingForPeerStart => from.WaitingForLocalStart?
    case Ready => from.WaitingForLocalStart? || from.WaitingForPeerStart?
    case Testing => from.Ready?
    case GeneratingReport => from.Testing?
    case Completed => from.GeneratingReport?
    case Aborted => !Ended(from)
    case Failed => !Ended(from)
  }

  // The table by row: where each state may go.
  function Successors(from: State): set<State> {
    match from
    case Initializing => {Preflight, Aborted, Failed}
    case Preflight => {Listening, Connecting, Aborted, Failed}
    case Listening => {Handshake, Aborted, Failed}
    case Connecting => {Handshake, Aborted, Failed}
    case Handshake => {WaitingForLocalStart, Aborted, Failed}
    case WaitingForLocalStart => {WaitingForPeerStart, Ready, Aborted, Failed}
    case WaitingForPeerStart => {Ready, Aborted, Failed}
    case Ready => {Testing, Aborted, Failed}
    case Testing => {GeneratingReport, Aborted, Failed}
    case GeneratingReport => {Completed, Aborted, Failed}
    case Completed => {}
    case Aborted => {}
    case Failed => {}
  }

  lemma RowsAndColumnsAgree(from: State, to: State)
    ensures Allowed(from, to) <==> to in Successors(from)
  {}

  predicate Ended(s: State) { s.Completed? || s.Aborted? || s.Failed? }

  ghost predicate Terminal(s: State) { forall t :: !Allowed(s, t) }

  lemma TerminalStates(s: State)
    ensures Terminal(s) <==> Ended(s)
  {
    if !Ended(s) {
      assert Allowed(s, Aborted);
    }
  }

  // A move outside the table leaves the state untouched.
  function Transition(from: State, to: State): State {
    if Allowed(from, to) then to else from
  }

  predicate Path(states: seq<State>) {
    forall i | 0 <= i < |states| - 1 :: Allowed(states[i], states[i + 1])
  }

  function Rank(s: State): nat {
    match s
    case Initializing => 0
    case Preflight => 1
    case Listening => 2
    case Connecting => 2
    case Handshake => 3
    case WaitingForLocalStart => 4
    case WaitingForPeerStart => 5
    case Ready => 6
    case Testing => 7
    case GeneratingReport => 8
    case Completed => 9
    case Aborted => 10
    case Failed => 10
  }

  lemma {:induction false} PathsClimb(states: seq<State>, i: nat, j: nat)
    requires Path(states) && i < j < |states|
    ensures Rank(states[i]) < Rank(states[j])
    decreases j
  {
    assert Allowed(states[j - 1], states[j]);
    if i < j - 1 {
      PathsClimb(states, i, j - 1);
    }
  }

  /** Over any run of the machine: no state repeats, nothing follows a terminal state, and a
      session that completed has passed through ready, testing and report generation. */
  lemma CompletionRequiresTesting(states: seq<State>)
    requires Path(states) && |states| > 0 && states[0] == Initializing
    ensures forall i, j | 0 <= i < j < |states| :: states[i] != states[j]
    ensures forall i | 0 <= i < |states| - 1 :: !Terminal(states[i])
    ensures states[|states| - 1] == Completed ==>
              |states| >= 4
              && states[|states| - 4..] == [Ready, Testing, GeneratingReport, Completed]
  {
    forall i, j | 0 <= i < j < |states| ensures states[i] != states[j] {
      PathsClimb(states, i, j);
    }
    forall i | 0 <= i < |states| - 1 ensures !Terminal(states[i]) {
      assert Allowed(states[i], states[i + 1]);
    }
    var n := |states|;
    if states[n - 1] == Completed {
      assert Allowed(states[n - 2], states[n - 1]);
      assert Allowed(states[n - 3], states[n - 2]);
      assert Allowed(states[n - 4], states[n - 3]);
    }
  }
}
