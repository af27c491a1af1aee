/** The coordinator's registry of in-flight calls, under every interleaving of the plan's
    goroutines, the event loop and teardown. Each mutex-guarded section is one step. */
module Registry {

  type Id = nat
  type Call = nat                       // the identity of one pendingCall
  datatype Reply = Reply(inReplyTo: Id, body: int)

  // A done channel: capacity one, with what ever happened to it.
  datatype Channel = Channel(buffer: seq<Reply>, sends: nat, closes: nat)

  const UNTOUCHED: Channel := Channel([], 0, 0)
  const DONE_CAPACITY: nat := 1

  datatype Held = Nothing | Holding(call: Call, reply: Reply)

  datatype Registry = Registry(
    pending: map<Id, Call>,
    closed: bool,
    channels: map<Call, Channel>,       // every call ever made
    ids: map<Call, Id>,                 // the message ID each registered call wrote its request under
    left: set<Call>,                    // calls that have unregistered
    held: Held)                         // what the event loop has taken and not yet sent

  datatype Step =
    | Register(call: Call, id: Id)
    | Unregister(call: Call)
    | Take(reply: Reply)                // the event loop takes the call a test_result answers
    | Send                              // and sends the result to it
    | Receive(call: Call)
    | CloseAll

  const EMPTY: Registry := Registry(map[], false, map[], map[], {}, Nothing)

  // Calls are made once and under freshly minted IDs; a call unregisters only itself. Whether
  // a send can block or panic is not ruled out here: it is what has to be shown.
  predicate Enabled(s: Registry, step: Step) {
    match step
    case Register(call, id) => call !in s.channels && id !in s.ids.Values
    case Unregister(call) => call in s.ids && call !in s.left
    case Take(_) => s.held.Nothing?
    case Send => s.held.Holding?
    case Receive(call) => call in s.channels && s.channels[call].buffer != []
    case CloseAll => true
  }

  function Without(m: map<Id, Call>, id: Id): map<Id, Call> { map k | k in m && k != id :: m[k] }

  function RegisterCall(s: Registry, call: Call, id: Id): Registry {
    if s.closed then s.(channels := s.channels[call := UNTOUCHED])
    else s.(channels := s.channels[call := UNTOUCHED], pending := s.pending[id := call], ids := s.ids[call := id])
  }

  function UnregisterCall(s: Registry, call: Call): Registry
    requires call in s.ids
  {
    s.(pending := Without(s.pending, s.ids[call]), left := s.left + {call})
  }

  function TakeCall(s: Registry, reply: Reply): Registry {
    if reply.inReplyTo !in s.pending then s
    else s.(pending := Without(s.pending, reply.inReplyTo), held := Holding(s.pending[reply.inReplyTo], reply))
  }

  function Sent(c: Channel, reply: Reply): Channel { c.(buffer := c.buffer + [reply], sends := c.sends + 1) }
  function Closed(c: Channel): Channel { c.(closes := c.closes + 1) }

  function SendReply(s: Registry): Registry
    requires s.held.Holding? && s.held.call in s.channels
  {
    s.(channels := s.channels[s.held.call := Sent(s.channels[s.held.call], s.held.reply)], held := Nothing)
  }

  function ReceiveReply(s: Registry, call: Call): Registry
    requires call in s.channels && s.channels[call].buffer != []
  {
    s.(channels := s.channels[call := s.channels[call].(buffer := s.channels[call].buffer[1..])])
  }

  function Swept(channels: map<Call, Channel>, gone: set<Call>): map<Call, Channel> {
    map c | c in channels :: if c in gone then Closed(channels[c]) else channels[c]
  }

  function CloseCalls(s: Registry): Registry {
    if s.closed then s
    else s.(closed := true, pending := map[], channels := Swept(s.channels, s.pending.Values))
  }

  function Next(s: Registry, step: Step): Registry
    requires Enabled(s, step) && (step.Send? ==> s.held.call in s.channels)
  {
    match step
    case Register(call, id) => RegisterCall(s, call, id)
    case Unregister(call) => UnregisterCall(s, call)
    case Take(reply) => TakeCall(s, reply)
    case Send => SendReply(s)
    case Receive(call) => ReceiveReply(s, call)
    case CloseAll => CloseCalls(s)
  }

  // --- The invariant ---

  // A registered call nobody has resolved: its channel was never sent to nor closed.
  predicate Unresolved(s: Registry, call: Call, id: Id) {
    && call in s.channels && s.channels[call] == UNTOUCHED
    && call in s.ids && s.ids[call] == id
  }

  predicate PendingInv(s: Registry) {
    && (forall id | id in s.pending :: Unresolved(s, s.pending[id], id))
    && (s.held.Holding? ==>
          && Unresolved(s, s.held.call, s.held.reply.inReplyTo)
          && s.held.reply.inReplyTo !in s.pending)
    && (s.closed ==> s.pending == map[])
  }

  // At most one send or one close; a buffered reply answers this call's own request.
  predicate ChannelOk(s: Registry, call: Call, c: Channel) {
    && c.sends + c.closes <= 1
    && |c.buffer| <= c.sends
    && (forall r | r in c.buffer :: call in s.ids && r.inReplyTo == s.ids[call])
  }

  predicate ChannelInv(s: Registry) { forall call | call in s.channels :: ChannelOk(s, call, s.channels[call]) }

  predicate Awaited(s: Registry, call: Call) {
    call in s.ids && ((s.ids[call] in s.pending && s.pending[s.ids[call]] == call) || (s.held.Holding? && s.held.call == call))
  }

  predicate Resolved(s: Registry, call: Call) {
    call in s.channels && s.channels[call].sends + s.channels[call].closes == 1
  }

  // No registered call is forgotten.
  predicate NoOrphans(s: Registry) {
    forall call | call in s.ids :: Awaited(s, call) || Resolved(s, call) || call in s.left
  }

  predicate IdsInv(s: Registry) {
    && s.ids.Keys <= s.channels.Keys
    && (forall c, d | c in s.ids && d in s.ids && s.ids[c] == s.ids[d] :: c == d)
  }

  predicate Inv(s: Registry) { PendingInv(s) && ChannelInv(s) && NoOrphans(s) && IdsInv(s) }

  lemma RegisterKeepsChannels(s: Registry, call: Call, id: Id)
    requires Inv(s) && Enabled(s, Register(call, id))
    ensures ChannelInv(RegisterCall(s, call, id))
  {
    var t := RegisterCall(s, call, id);
    forall c | c in t.channels ensures ChannelOk(t, c, t.channels[c]) {
      assert c != call ==> ChannelOk(s, c, s.channels[c]);
    }
  }

  lemma RegisterKeepsCalls(s: Registry, call: Call, id: Id)
    requires Inv(s) && Enabled(s, Register(call, id))
    ensures NoOrphans(RegisterCall(s, call, id)) && IdsInv(RegisterCall(s, call, id))
  {
    var t := RegisterCall(s, call, id);
    assert forall k | k in s.pending :: s.ids[s.pending[k]] == k;
    forall c | c in t.ids ensures Awaited(t, c) || Resolved(t, c) || c in t.left {
      assert c in s.ids ==> Awaited(s, c) || Resolved(s, c) || c in s.left;
    }
  }

  lemma RegisterKeeps(s: Registry, call: Call, id: Id)
    requires Inv(s) && Enabled(s, Register(call, id))
    ensures Inv(RegisterCall(s, call, id))
  {
    RegisterKeepsChannels(s, call, id);
    RegisterKeepsCalls(s, call, id);
    assert PendingInv(RegisterCall(s, call, id));
  }

  lemma UnregisterKeeps(s: Registry, call: Call)
    requires Inv(s) && Enabled(s, Unregister(call))
    ensures Inv(UnregisterCall(s, call))
  {
    var t := UnregisterCall(s, call);
    forall c | c in t.ids ensures Awaited(t, c) || Resolved(t, c) || c in t.left {
      assert Awaited(s, c) || Resolved(s, c) || c in s.left;
    }
  }

  lemma TakeKeeps(s: Registry, reply: Reply)
    requires Inv(s) && s.held.Nothing?
    ensures Inv(TakeCall(s, reply))
  {
    var t := TakeCall(s, reply);
    forall c | c in t.ids ensures Awaited(t, c) || Resolved(t, c) || c in t.left {
      assert Awaited(s, c) || Resolved(s, c) || c in s.left;
    }
  }

  lemma SendKeeps(s: Registry)
    requires Inv(s) && s.held.Holding?
    ensures s.held.call in s.channels && Inv(SendReply(s))
  {
    var t := SendReply(s);
    forall c | c in t.ids ensures Awaited(t, c) || Resolved(t, c) || c in t.left {
      assert Awaited(s, c) || Resolved(s, c) || c in s.left;
    }
  }

  lemma ReceiveKeeps(s: Registry, call: Call)
    requires Inv(s) && call in s.channels && s.channels[call].buffer != []
    ensures Inv(ReceiveReply(s, call))
  {
    var t := ReceiveReply(s, call);
    assert ChannelOk(s, call, s.channels[call]);
    forall c | c in t.ids ensures Awaited(t, c) || Resolved(t, c) || c in t.left {
      assert Awaited(s, c) || Resolved(s, c) || c in s.left;
    }
  }

  lemma CloseKeeps(s: Registry)
    requires Inv(s)
    ensures Inv(CloseCalls(s))
  {
    var t := CloseCalls(s);
    if !s.closed {
      forall c | c in t.channels ensures ChannelOk(t, c, t.channels[c]) {
        assert ChannelOk(s, c, s.channels[c]);
        if c in s.pending.Values {
          var id :| id in s.pending && s.pending[id] == c;
          assert Unresolved(s, c, id);
        }
      }
      forall c | c in t.ids ensures Awaited(t, c) || Resolved(t, c) || c in t.left {
        assert Awaited(s, c) || Resolved(s, c) || c in s.left;
        if c in s.pending.Values {
          var id :| id in s.pending && s.pending[id] == c;
          assert Unresolved(s, c, id);
        }
      }
      assert forall id | id in s.pending :: s.ids[s.pending[id]] == id;
    }
  }

  lemma StepKeeps(s: Registry, step: Step)
    requires Inv(s) && Enabled(s, step)
    ensures step.Send? ==> s.held.call in s.channels
    ensures Inv(Next(s, step))
  {
    match step
    case Register(call, id) => RegisterKeeps(s, call, id);
    case Unregister(call) => UnregisterKeeps(s, call);
    case Take(reply) => TakeKeeps(s, reply);
    case Send => SendKeeps(s);
    case Receive(call) => ReceiveKeeps(s, call);
    case CloseAll => CloseKeeps(s);
  }

  // --- Whole runs ---

  predicate IsRun(s: Registry, steps: seq<Step>)
    requires Inv(s)
    decreases |steps|
  {
    steps == [] ||
    (Enabled(s, steps[0]) && (StepKeeps(s, steps[0]); IsRun(Next(s, steps[0]), steps[1..])))
  }

  function EndOf(s: Registry, steps: seq<Step>): (r: Registry)
    requires Inv(s) && IsRun(s, steps)
    ensures Inv(r)
    decreases |steps|
  {
    if steps == [] then s
    else
      StepKeeps(s, steps[0]);
      EndOf(Next(s, steps[0]), steps[1..])
  }

  /** In every run: a channel gets one send or one close, never both; the event loop's send
      finds room in an open channel; a reply reaches only the call it is correlated to. */
  lemma ChannelsAreUsedOnce(steps: seq<Step>)
    requires IsRun(EMPTY, steps)
    ensures var s := EndOf(EMPTY, steps);
            && (forall c | c in s.channels :: s.channels[c].sends + s.channels[c].closes <= 1)
            && (s.held.Holding? ==>
                  && s.held.call in s.channels && s.channels[s.held.call].closes == 0
                  && |s.channels[s.held.call].buffer| < 1)
            && (forall c, r | c in s.channels && r in s.channels[c].buffer ::
                  c in s.ids && s.ids[c] == r.inReplyTo)
  {
    var s := EndOf(EMPTY, steps);
    forall c | c in s.channels ensures s.channels[c].sends + s.channels[c].closes <= 1 {
      assert ChannelOk(s, c, s.channels[c]);
    }
    forall c, r | c in s.channels && r in s.channels[c].buffer ensures c in s.ids && s.ids[c] == r.inReplyTo {
      assert ChannelOk(s, c, s.channels[c]);
    }
  }

  lemma {:induction false} ClosedStays(s: Registry, steps: seq<Step>)
    requires Inv(s) && IsRun(s, steps) && s.closed
    ensures EndOf(s, steps).closed
    decreases |steps|
  {
    if steps != [] {
      StepKeeps(s, steps[0]);
      ClosedStays(Next(s, steps[0]), steps[1..]);
    }
  }

  /** After teardown the registry stays empty whatever is still registered or taken, and no
      call is left waiting: each one made before has its result, its close, the result the
      loop is about to send, or has left. */
  lemma TeardownResolvesEveryCall(before: seq<Step>, after: seq<Step>)
    requires IsRun(EMPTY, before) && IsRun(CloseCalls(EndOf(EMPTY, before)), after)
    ensures var s := EndOf(CloseCalls(EndOf(EMPTY, before)), after);
            && s.closed && s.pending == map[]
            && (forall c | c in s.ids ::
                  || (c in s.channels && s.channels[c].sends + s.channels[c].closes == 1)
                  || (s.held.Holding? && s.held.call == c)
                  || c in s.left)
  {
    CloseKeeps(EndOf(EMPTY, before));
    var closed := CloseCalls(EndOf(EMPTY, before));
    ClosedStays(closed, after);
    var s := EndOf(closed, after);
    forall c | c in s.ids
      ensures || (c in s.channels && s.channels[c].sends + s.channels[c].closes == 1)
              || (s.held.Holding? && s.held.call == c)
              || c in s.left
    {
      assert Awaited(s, c) || Resolved(s, c) || c in s.left;
    }
  }

  /** A reply to a pending call is taken and sent to that call alone, which is then no longer pending; once
      received, nothing of it is left. */
  lemma ReplyReachesItsCall(s: Registry, reply: Reply)
    requires Inv(s) && s.held.Nothing? && reply.inReplyTo in s.pending
    ensures var call, t := s.pending[reply.inReplyTo], TakeCall(s, reply);
            && t.held == Holding(call, reply) && call in t.channels && t.channels == s.channels
            && var u := SendReply(t);
               && u.channels == s.channels[call := Channel([reply], 1, 0)] && u.held == Nothing
               && u.pending.Keys == s.pending.Keys - {reply.inReplyTo}
               && (forall id | id in u.pending :: u.pending[id] == s.pending[id])
               && ReceiveReply(u, call).channels == s.channels[call := Channel([], 1, 0)]
               && !u.closed == !s.closed && u.left == s.left
  {
    assert Unresolved(s, s.pending[reply.inReplyTo], reply.inReplyTo);
    assert Sent(UNTOUCHED, reply) == Channel([reply], 1, 0) && [reply][1..] == [];
  }

  // A reply nobody waits for changes nothing.
  lemma StrayReplyChangesNothing(s: Registry, reply: Reply)
    requires reply.inReplyTo !in s.pending
    ensures TakeCall(s, reply) == s
  {}

  /** A call registers under its ID until teardown, with a fresh channel either way; the others stay. */
  lemma RegisterLaw(s: Registry, call: Call, id: Id)
    requires Enabled(s, Register(call, id)) && Inv(s)
    ensures var t := RegisterCall(s, call, id);
            && t.channels == s.channels[call := Channel([], 0, 0)] && t.held == s.held && t.left == s.left && t.closed == s.closed
            && (s.closed ==> t.pending == map[] && t.ids == s.ids)
            && (!s.closed ==> t.pending.Keys == s.pending.Keys + {id} && t.pending[id] == call && t.ids == s.ids[call := id]
                              && forall k | k in s.pending :: t.pending[k] == s.pending[k])
  {
    assert forall k | k in s.pending :: Unresolved(s, s.pending[k], k);
  }

  // Calls that left were registered and are no longer pending.
  predicate LeftInv(s: Registry) {
    s.left <= s.ids.Keys && forall id | id in s.pending :: s.pending[id] !in s.left
  }

  lemma StepKeepsLeft(s: Registry, step: Step)
    requires Inv(s) && LeftInv(s) && Enabled(s, step)
    ensures step.Send? ==> s.held.call in s.channels
    ensures LeftInv(Next(s, step))
  {
    StepKeeps(s, step);
    assert forall k | k in s.pending :: Unresolved(s, s.pending[k], k);
  }

  lemma {:induction false} RunKeepsLeft(s: Registry, steps: seq<Step>)
    requires Inv(s) && LeftInv(s) && IsRun(s, steps)
    ensures LeftInv(EndOf(s, steps))
    decreases |steps|
  {
    if steps != [] {
      StepKeepsLeft(s, steps[0]);
      StepKeeps(s, steps[0]);
      RunKeepsLeft(Next(s, steps[0]), steps[1..]);
    }
  }

  /** In every run: a call that unregistered is out of the registry, so no later reply is taken for it. */
  lemma LeftCallsAreForgotten(steps: seq<Step>, reply: Reply)
    requires IsRun(EMPTY, steps)
    ensures var s := EndOf(EMPTY, steps);
            && (forall id | id in s.pending :: s.pending[id] !in s.left)
            && (s.held.Nothing? && TakeCall(s, reply).held.Holding? ==> TakeCall(s, reply).held.call !in s.left)
  {
    RunKeepsLeft(EMPTY, steps);
  }

  // --- The registry as it is written ---

  class PendingCalls {
    var pending: map<Id, Call>
    var pendingClosed: bool
    var channels: map<Call, Channel>
    var held: Held
    ghost var ids: map<Call, Id>
    ghost var left: set<Call>

    ghost function View(): Registry
      reads this
    {
      Registry(pending, pendingClosed, channels, ids, left, held)
    }

    constructor ()
      ensures View() == EMPTY
    {
      pending, pendingClosed, channels, held := map[], false, map[], Nothing;
      ids, left := map[], {};
    }

    method RegisterCall(call: Call, id: Id) returns (ok: bool)
      requires Enabled(View(), Register(call, id))
      modifies this
      ensures ok == !old(pendingClosed)
      ensures View() == Next(old(View()), Register(call, id))
    {
      channels := channels[call := UNTOUCHED];
      if pendingClosed {
        return false;
      }
      pending := pending[id := call];
      ids := ids[call := id];
      return true;
    }

    method UnregisterCall(call: Call, id: Id)
      requires Enabled(View(), Unregister(call)) && ids[call] == id
      modifies this
      ensures View() == Next(old(View()), Unregister(call))
    {
      pending := Without(pending, id);
      left := left + {call};
    }

    method TakeCall(reply: Reply) returns (found: bool)
      requires held.Nothing?
      modifies this
      ensures found == (reply.inReplyTo in old(pending))
      ensures View() == Next(old(View()), Take(reply))
    {
      found := reply.inReplyTo in pending;
      if found {
        held := Holding(pending[reply.inReplyTo], reply);
        pending := Without(pending, reply.inReplyTo);
      }
    }

    // Under the invariant the buffered send cannot block or hit a closed channel.
    method SendResult()
      requires Inv(View()) && held.Holding?
      modifies this
      ensures held == Nothing && Inv(View())
      ensures old(held.call) in old(channels) && View() == SendReply(old(View()))
    {
      SendKeeps(View());
      assert channels[held.call].closes == 0 && |channels[held.call].buffer| < DONE_CAPACITY;
      channels := channels[held.call := Sent(channels[held.call], held.reply)];
      held := Nothing;
    }

    method ClosePendingCalls()
      requires Inv(View())
      modifies this
      ensures View() == CloseCalls(old(View()))
      ensures Inv(View()) && pending == map[] && pendingClosed
    {
      CloseKeeps(View());
      PendingIsOneToOne(View());
      if pendingClosed {
        return;
      }
      pendingClosed := true;
      CloseEach();
    }

    method CloseEach()
      requires OneToOne(pending, channels)
      modifies this`pending, this`channels
      ensures pending == map[] && channels == Swept(old(channels), old(pending).Values)
    {
      ghost var all := pending.Values;
      assert channels == Swept(channels, all - pending.Values);
      while pending != map[]
        invariant Sweeping(old(channels), all, channels, pending)
        decreases |pending|
      {
        var id :| id in pending;
        SweepOne(old(channels), all, channels, pending, id);
        channels := channels[pending[id] := Closed(channels[pending[id]])];
        pending := Without(pending, id);
      }
      assert all - pending.Values == all;
    }
  }

  // Distinct pending IDs belong to distinct, existing calls.
  predicate OneToOne(pending: map<Id, Call>, channels: map<Call, Channel>) {
    && (forall id | id in pending :: pending[id] in channels)
    && (forall i, j | i in pending && j in pending && pending[i] == pending[j] :: i == j)
  }

  lemma PendingIsOneToOne(s: Registry)
    requires PendingInv(s)
    ensures OneToOne(s.pending, s.channels)
  {
    assert forall id | id in s.pending :: Unresolved(s, s.pending[id], id);
  }

  lemma DropOne(pending: map<Id, Call>, id: Id, channels: map<Call, Channel>)
    requires OneToOne(pending, channels) && id in pending
    ensures var rest := Without(pending, id);
            && OneToOne(rest, channels) && |rest| < |pending|
            && rest.Values == pending.Values - {pending[id]} && pending[id] in channels
  {
    var rest := Without(pending, id);
    forall c | c in pending.Values && c != pending[id] ensures c in rest.Values {
      var k :| k in pending && pending[k] == c;
      assert rest[k] == c;
    }
    assert rest.Keys == pending.Keys - {id};
    assert |rest.Keys| == |pending.Keys| - 1;
  }

  // Of the calls in `all`, exactly those no longer pending have been closed.
  predicate Sweeping(was: map<Call, Channel>, all: set<Call>, channels: map<Call, Channel>, pending: map<Id, Call>) {
    OneToOne(pending, was) && pending.Values <= all && channels == Swept(was, all - pending.Values)
  }

  lemma SweepOne(was: map<Call, Channel>, all: set<Call>, channels: map<Call, Channel>, pending: map<Id, Call>, id: Id)
    requires Sweeping(was, all, channels, pending) && id in pending
    ensures pending[id] in channels && |Without(pending, id)| < |pending|
    ensures Sweeping(was, all, channels[pending[id] := Closed(channels[pending[id]])], Without(pending, id))
  {
    DropOne(pending, id, was);
    var gone := all - pending.Values;
    assert all - Without(pending, id).Values == gone + {pending[id]};
    SweepMore(was, gone, pending[id]);
  }

  lemma SweepMore(was: map<Call, Channel>, gone: set<Call>, call: Call)
    requires call in was && call !in gone
    ensures Swept(was, gone)[call := Closed(Swept(was, gone)[call])] == Swept(was, gone + {call})
  {}
}
