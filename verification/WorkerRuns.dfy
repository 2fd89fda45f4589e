/** Whole sessions: everything that holds after any steps whatever of the peer, the agent task and the coordinator. */
module WorkerRuns {
  import opened Text
  import opened Protocol
  import opened CallIds
  import opened Worker
  import opened WorkerInvariants
  import opened WorkerChannels
  import opened WorkerRequests
  import opened WorkerOrder
  import opened WorkerHistory
  import A = Approval

  ghost predicate Run(s: Session, steps: seq<Step>, end: Session)
    decreases |steps|
  {
    if steps == [] then end == s
    else Enabled(s, steps[0]) && Run(Next(s, steps[0]), steps[1..], end)
  }

  /** A session of a worker with these tools and initial messages. */
  ghost predicate SessionRun(registered: set<Tool>, messages: seq<Message>, steps: seq<Step>, end: Session) {
    Run(Init(registered, messages), steps, end)
  }

  // ---------------------------------------------------------------- a held request has its causes behind it

  ghost predicate HeldAfterCauses(s: Session) {
    HoldsAsk(s.held) ==> AfterCauses(InLoop(s) + [s.held.value], |InLoop(s)|, s.requests)
  }

  ghost predicate Stream(s: Session)
    requires Shape(s)
  {
    Idle(s) && Conserved(s) && Flushed(s) && Ordered(s) && Causal(s) && HeldAfterCauses(s)
  }

  ghost predicate Memory(s: Session) {
    InputsKept(s) && HistoryExact(s) && DoneCounts(s)
  }

  ghost predicate Inv(s: Session) {
    Basics(s) && Stream(s) && Located(s) && Memory(s)
  }

  lemma BarrierAfterCauses(s: Session)
    requires Basics(s) && Stream(s) && Enabled(s, BarrierEmpty)
    ensures HeldAfterCauses(Next(s, BarrierEmpty))
  {
    hide A.Inv, IdsFromUses, NoneOutlives, Conserved, Ordered, Flushed, SentAfterCauses, Next, Enabled, OnTheWay,
      RequestsDated, Consumed;
    var n := Next(s, BarrierEmpty);
    KeepsBasics(s, BarrierEmpty);
    KeepsConserved(s, BarrierEmpty);
    KeepsOrdered(s, BarrierEmpty);
    KeepsDated(s, BarrierEmpty);
    OrderedRest(s);
    KeepsOnTheWay(s, BarrierEmpty);
    BarrierLoops(s);
    HeldCauses(n);
  }

  lemma BarrierLoops(s: Session)
    requires Enabled(s, BarrierEmpty)
    ensures Next(s, BarrierEmpty).phase.Looping?
  {
  }

  lemma OrderedRest(s: Session)
    requires Ordered(s)
    ensures InboxIsRest(s)
  {
  }

  lemma HeldCauses(s: Session)
    requires Shape(s) && Conserved(s) && Ordered(s) && OnTheWay(s) && (s.phase.Looping? || !HoldsAsk(s.held))
    ensures HeldAfterCauses(s)
  {
    hide Shape, Conserved, Ordered;
    if HoldsAsk(s.held) {
      var items, r := s.sent + [s.held.value], s.requests[s.held.value.token];
      forall j | 0 <= j < r.before ensures EventIn(items, |s.sent|, r.turn, j) {
        TakenIsSent(s, j);
        var k :| 0 <= k < |s.sent| && IsEvent(s.sent[k], CurrentTurn(s), j);
        assert IsEvent(items[k], r.turn, j);
      }
    }
  }

  lemma BarrierHolds(s: Session, step: Step)
    requires Shape(s) && Enabled(s, step) && !step.BarrierEmpty? && HoldsAsk(Next(s, step).held)
    ensures Next(s, step).held == s.held && !step.Permit? && !step.Receive?
  {
    hide A.Next, A.Enabled, After, HandleFor, MapAgentEvent, UseOf, Staged, OnCommand, Settled, TurnFinishedWith,
      Notified, Named, Shape;
    if Outside(step) {
      OutsideFrame(s, step);
    }
    match step
    case Command(command) => CommandFrame(s, command);
    case Settle(completed) => SettledFrame(s, completed);
    case FinishTurn => TurnFinishedFrame(s, s.agent.result);
    case _ =>
  }

  lemma KeepsHeldAfterCauses(s: Session, step: Step)
    requires Basics(s) && Stream(s) && Enabled(s, step)
    ensures HeldAfterCauses(Next(s, step))
  {
    hide Basics, Stream, Next, Enabled, HoldsAsk, AfterCauses, A.Enabled, A.Next;
    if step.BarrierEmpty? {
      BarrierAfterCauses(s);
    } else if HoldsAsk(Next(s, step).held) {
      var n := Next(s, step);
      StreamParts(s);
      BarrierHolds(s, step);
      StreamFrame(s, step);
      RequestsFrame(s, step);
      HoldsSome(s);
      var items := InLoop(s) + [s.held.value];
      AfterCausesKept(items, |InLoop(s)|, s.requests, items, n.requests);
    }
  }

  lemma HoldsSome(s: Session)
    requires HoldsAsk(s.held)
    ensures s.held.Some?
  {
  }

  lemma StreamParts(s: Session)
    requires Basics(s) && Stream(s)
    ensures Shape(s) && HeldAfterCauses(s)
  {
  }

  lemma KeepsStream(s: Session, step: Step)
    requires Basics(s) && Stream(s) && Enabled(s, step)
    ensures Shape(Next(s, step)) && Stream(Next(s, step))
  {
    hide A.Inv, IdsFromUses, NoneOutlives, Conserved, Ordered, Flushed, SentAfterCauses, Next, Enabled, OnTheWay,
      RequestsDated,
      HeldAfterCauses, Idle, Shape, A.Enabled, A.Next;
    KeepsBasics(s, step);
    KeepsIdle(s, step);
    KeepsConserved(s, step);
    KeepsFlushed(s, step);
    KeepsOrdered(s, step);
    KeepsDated(s, step);
    OrderedRest(s);
    KeepsOnTheWay(s, step);
    KeepsSentAfterCauses(s, step);
    KeepsHeldAfterCauses(s, step);
  }

  lemma KeepsInv(s: Session, step: Step)
    requires Inv(s) && Enabled(s, step)
    ensures Inv(Next(s, step))
  {
    hide Stream, Next, Enabled, Located, InputsKept, HistoryExact, DoneCounts, A.Inv, Shape, NoneOutlives, IdsFromUses;
    KeepsBasics(s, step);
    KeepsStream(s, step);
    KeepsLocated(s, step);
    KeepsInputs(s, step);
    KeepsHistory(s, step);
    StreamConserved(s);
    KeepsDoneCounts(s, step);
  }

  lemma StreamConserved(s: Session)
    requires Shape(s) && Stream(s)
    ensures Conserved(s)
  {
  }

  lemma InitInv(registered: set<Tool>, messages: seq<Message>)
    ensures Inv(Init(registered, messages))
  {
    A.InitInv(registered);
    hide A.Inv;
  }

  lemma {:induction false} RunKeepsInv(s: Session, steps: seq<Step>, end: Session)
    requires Inv(s) && Run(s, steps, end)
    ensures Inv(end)
    decreases |steps|
  {
    hide Inv, Enabled, Next;
    if steps != [] {
      KeepsInv(s, steps[0]);
      RunKeepsInv(Next(s, steps[0]), steps[1..], end);
    }
  }

  lemma SessionInv(registered: set<Tool>, messages: seq<Message>, steps: seq<Step>, end: Session)
    requires SessionRun(registered, messages, steps, end)
    ensures Inv(end)
  {
    hide Inv, Init;
    InitInv(registered, messages);
    RunKeepsInv(Init(registered, messages), steps, end);
  }

  /** The tools and the initial messages are settled for the whole session. */
  lemma StepKeepsSetting(s: Session, step: Step)
    requires Basics(s) && Enabled(s, step)
    ensures Next(s, step).initial == s.initial && Next(s, step).ap.registered == s.ap.registered
  {
    hide A.Inv, A.Enabled, A.Next, Next, Enabled, IdsFromUses, NoneOutlives;
    ApStep(s, step);
    var a := ApAction(s, step);
    if a.Some? {
      A.KeepsInv(s.ap, a.value);
    }
    if step.Settle? {
      SettleIs(s, step.completed);
      SettledFrame(s, step.completed);
    } else if step.FinishTurn? {
      FinishIs(s);
      TurnFinishedFrame(s, s.agent.result);
    } else if step.StartTurn? || step.Emit? {
      StartKeepsInitial(s, step);
    } else {
      HistoryFrame(s, step);
    }
  }

  lemma StartKeepsInitial(s: Session, step: Step)
    requires Enabled(s, step) && (step.StartTurn? || step.Emit?)
    ensures Next(s, step).initial == s.initial
  {
  }

  lemma {:induction false} RunKeepsSetting(s: Session, steps: seq<Step>, end: Session)
    requires Inv(s) && Run(s, steps, end)
    ensures end.initial == s.initial && end.ap.registered == s.ap.registered
    decreases |steps|
  {
    hide Stream, Located, Memory, Basics, Next, Enabled;
    if steps != [] {
      StepKeepsSetting(s, steps[0]);
      KeepsInv(s, steps[0]);
      RunKeepsSetting(Next(s, steps[0]), steps[1..], end);
    }
  }

  lemma SessionSetting(registered: set<Tool>, messages: seq<Message>, steps: seq<Step>, end: Session)
    requires SessionRun(registered, messages, steps, end)
    ensures end.initial == messages && end.ap.registered == registered
  {
    hide Inv;
    InitInv(registered, messages);
    RunKeepsSetting(Init(registered, messages), steps, end);
  }

  // ---------------------------------------------------------------- the outbound stream

  /** What the core must have emitted for the peer to read this event, `id` being its name for the call. */
  function Reported(event: WorkerEvent, id: ProviderId): Option<AgentEvent> {
    match event
    case TextDelta(text) => Some(CoreTextDelta(text))
    case AssistantMessage(text) => Some(CoreAssistantMessage(text))
    case ToolStart(_, name, argumentsJson) => Some(CoreToolStart(id, name, argumentsJson))
    case ToolResult(_, name, content, isError) => Some(CoreToolResult(id, name, content, isError))
    case TurnFinished => Some(CoreTurnFinished)
    case NeedsApproval(_, _, _) => None
    case Done(_) => None
    case Crash(_) => None
  }

  /** The item tells, but for the call's identity, what the core emitted at its place. */
  ghost predicate Reports(item: Item, turns: seq<Turn>) {
    && item.Core? && item.turn < |turns| && 0 <= item.index < |turns[item.turn].events|
    && exists id :: Reported(item.event, id) == Some(turns[item.turn].events[item.index])
  }

  /** The items are exactly what the core emitted, turn by turn, in order and without a gap. */
  ghost predicate Faithful(items: seq<Item>, turns: seq<Turn>) {
    InOrder(items) && forall i :: 0 <= i < |items| ==> Reports(items[i], turns)
  }

  lemma MappedReports(item: Item, turns: seq<Turn>)
    requires IsMapped(item, turns)
    ensures Reports(item, turns)
  {
    var core := turns[item.turn].events[item.index];
    var id := if core.CoreToolStart? || core.CoreToolResult? then core.id else "";
    assert Reported(item.event, id) == Some(core);
  }

  lemma SentIsLoopOrHeld(s: Session, i: nat)
    requires Flushed(s) && i < |s.sent|
    ensures s.sent[i] in InLoop(s) || (s.held.Some? && s.sent[i] == s.held.value) || s.sent[i].Terminal?
  {
    if !InTheLoop(s) {
      assert s.sent[i] == (s.atExit + s.tail)[i];
    }
  }

  /**
   * In the loop, the ordinary events sent and the one held are the mapped events received, across
   * cancels and turns, and they are what the core emitted, in its order. From whatever is sent of them
   * the core's event can be told, text by text and flag by flag.
   */
  lemma OrdinaryStreamConserved(registered: set<Tool>, messages: seq<Message>, steps: seq<Step>, end: Session)
    requires SessionRun(registered, messages, steps, end)
    ensures Ordinary(InLoop(end)) + Ordinary(HeldItems(end.held)) == end.received
    ensures Faithful(end.received, end.turns)
    ensures InLoop(end) <= end.sent
    ensures forall i :: 0 <= i < |end.sent| && end.sent[i].Core? ==> Reports(end.sent[i], end.turns)
  {
    hide Basics, Located, Memory, Causal, InOrder, IsMapped, HeldAfterCauses, Idle, Ordinary, Reports;
    SessionInv(registered, messages, steps, end);
    forall i | 0 <= i < |end.received| ensures Reports(end.received[i], end.turns) {
      MappedReports(end.received[i], end.turns);
    }
    forall i | 0 <= i < |end.sent| && end.sent[i].Core? ensures Reports(end.sent[i], end.turns) {
      SentIsLoopOrHeld(end, i);
      OrdinaryMembers(InLoop(end), end.sent[i]);
      OrdinaryHeld(end.held);
      assert end.sent[i] in end.received;
    }
  }

  /** Whatever way the loop is left, it adds a prefix of what is held and one terminal event. */
  lemma NothingFollowsTheTerminalEvent(registered: set<Tool>, messages: seq<Message>, steps: seq<Step>, end: Session)
    requires SessionRun(registered, messages, steps, end)
    ensures InTheLoop(end) ==> forall i :: 0 <= i < |end.sent| ==> !end.sent[i].Terminal?
    ensures !InTheLoop(end) ==> end.atExit <= end.sent <= end.atExit + end.tail && TailShape(end.tail, end.held)
    ensures forall i :: 0 <= i < |end.sent| && end.sent[i].Terminal? ==> i == |end.sent| - 1
  {
    hide Basics, Located, Memory, Causal, Ordered, HeldAfterCauses, Idle, Ordinary;
    SessionInv(registered, messages, steps, end);
    if !InTheLoop(end) {
      assert end.sent <= end.atExit + end.tail;
      if end.tail != [] {
        var e :| end.tail == HeldItems(end.held) + [Terminal(e)];
      }
    }
  }

  /** `done` reports the length of the history. */
  lemma DoneReportsHistory(registered: set<Tool>, messages: seq<Message>, steps: seq<Step>, end: Session, i: nat)
    requires SessionRun(registered, messages, steps, end)
    requires i < |end.sent| && end.sent[i].Terminal? && end.sent[i].event.Done?
    ensures end.sent[i].event.finalMessageCount == |end.messages|
  {
    hide Basics, Located, Causal, Ordered, HeldAfterCauses, Idle, Ordinary, HistoryExact, InputsKept;
    SessionInv(registered, messages, steps, end);
    NothingFollowsTheTerminalEvent(registered, messages, steps, end);
    assert end.sent[i] == (end.atExit + end.tail)[i];
  }

  // ---------------------------------------------------------------- approval requests

  /** Wherever a request stands in what was sent, everything its turn had emitted before it stands before it. */
  lemma RequestsFollowTheirCauses(registered: set<Tool>, messages: seq<Message>, steps: seq<Step>, end: Session, i: nat)
    requires SessionRun(registered, messages, steps, end) && i < |end.sent|
    ensures AfterCauses(end.sent, i, end.requests)
  {
    hide Basics, Located, Memory, AfterCauses, Ordered, Idle, InOrder;
    SessionInv(registered, messages, steps, end);
    if i < |InLoop(end)| {
      assert AfterCauses(InLoop(end), i, end.requests);
      AfterCausesKept(InLoop(end), i, end.requests, end.sent, end.requests);
    } else {
      assert end.sent[i] == (end.atExit + end.tail)[i];
      var e :| end.tail == HeldItems(end.held) + [Terminal(e)];
      if end.sent[i].Ask? {
        var upToHeld := end.atExit + [end.held.value];
        assert upToHeld <= end.sent && i == |end.atExit|;
        AfterCausesKept(upToHeld, i, end.requests, end.sent, end.requests);
      } else {
        NotAsked(end.sent, i, end.requests);
      }
    }
  }

  lemma NotAsked(items: seq<Item>, i: nat, requests: seq<Request>)
    requires i < |items| && !items[i].Ask?
    ensures AfterCauses(items, i, requests)
  {
  }

  /**
   * At every point of the loop each waiter without an answer has its request in exactly one place:
   * blocked in the send, or at one position of channel, barrier, held slot and what was sent.
   */
  lemma NoRequestLostOrDuplicated(registered: set<Tool>, messages: seq<Message>, steps: seq<Step>, end: Session, t: nat)
    requires SessionRun(registered, messages, steps, end) && InTheLoop(end) && t < |end.ap.calls|
    ensures OpenWaiter(end, t) ==>
              exists i :: 0 <= i < |Tokens(end)| && Tokens(end)[i] == t
                          && forall j :: 0 <= j < |Tokens(end)| && Tokens(end)[j] == t ==> j == i
    ensures end.ap.calls[t].phase.Registered? ==> t !in Tokens(end)
    ensures forall i, j :: 0 <= i < j < |AskTokens(end.sent)| ==> AskTokens(end.sent)[i] != AskTokens(end.sent)[j]
  {
    hide Stream, Memory, A.Inv, IdsFromUses, AskTokens;
    SessionInv(registered, messages, steps, end);
    WaiterIsInOnePlace(end, t);
    assert AskTokens(end.sent) <= Tokens(end);
  }

  /** With no turn active, nothing of an approval is left anywhere. */
  lemma IdleIsQuiet(registered: set<Tool>, messages: seq<Message>, steps: seq<Step>, end: Session)
    requires SessionRun(registered, messages, steps, end) && end.phase.Looping? && !end.active
    ensures end.barrier.None? && end.notices == [] && end.ids == map[] && !HoldsAsk(end.held)
    ensures end.ap.pending == map[] && forall t :: 0 <= t < |end.ap.calls| ==> end.ap.calls[t].Over()
  {
    hide Located, Memory, Conserved, Flushed, Ordered, Causal, HeldAfterCauses, A.Inv, IdsFromUses;
    SessionInv(registered, messages, steps, end);
    NoWaiterWithoutTask(end);
  }

  /** With no turn active, a cancel and any decision change nothing at all. */
  lemma IdleCancelAndApproveChangeNothing(registered: set<Tool>, messages: seq<Message>, steps: seq<Step>, end: Session,
                                          handle: Handle, decision: IpcApprovalDecision)
    requires SessionRun(registered, messages, steps, end) && Polls(end) && !end.active
    ensures Next(end, Command(Cancel)) == end && Next(end, Command(Approve(handle, decision))) == end
  {
    hide Inv, A.Next;
    IdleIsQuiet(registered, messages, steps, end);
    A.UnknownHandleIsRejected(end.ap, handle, decision);
  }

  /** The core is told anything but a denial only where the adapter's earlier history warrants it, for its own tool. */
  lemma SessionFailsClosed(registered: set<Tool>, messages: seq<Message>, steps: seq<Step>, end: Session, t: nat)
    requires SessionRun(registered, messages, steps, end)
    requires t < |end.ap.calls| && end.ap.calls[t].phase.Returned? && !end.ap.calls[t].phase.decision.Deny?
    ensures var c, log := end.ap.calls[t], end.ap.log;
            exists k: nat | k < |log| ::
              log[k] == A.Answered(t, c.phase.decision) && A.Warranted(log, k, t, c.phase.decision, c.tool, registered)
  {
    hide Stream, Located, Memory, A.Warranted, A.TableExact, A.TableByLog, A.AllowedExact, A.RepliesGranted,
      A.OpenBefore, A.ToolsOwn, Shape;
    SessionInv(registered, messages, steps, end);
    SessionSetting(registered, messages, steps, end);
    A.InvAuthorises(end.ap, t);
  }

  // ---------------------------------------------------------------- inputs and history

  /** The inputs that have arrived, in order. */
  function Arrived(steps: seq<Step>): seq<string> {
    if steps == [] then []
    else (if steps[0].Command? && steps[0].command.Input? then [steps[0].command.text] else []) + Arrived(steps[1..])
  }

  /** An arriving input is accepted, or it ends the session. */
  lemma InputAccepted(s: Session, step: Step)
    requires Shape(s) && Enabled(s, step)
    ensures var n, arrived := Next(s, step), Arrived([step]);
            n.accepted == s.accepted + arrived || (n.accepted == s.accepted && !InTheLoop(n) && |arrived| == 1)
  {
    assert [step][1..] == [];
    if !step.StartTurn? && !(step.Command? && step.command.Input?) {
      InputsFrame(s, step);
      assert s.accepted + [] == s.accepted;
    }
  }

  lemma NoInputAfterwards(s: Session, steps: seq<Step>, end: Session)
    requires Inv(s) && Run(s, steps, end) && !InTheLoop(s)
    ensures end.accepted == s.accepted && Arrived(steps) == []
    decreases |steps|
  {
    hide Inv, Next, Enabled;
    if steps != [] {
      KeepsInv(s, steps[0]);
      InvShape(s);
      if InTheLoop(Next(s, steps[0])) {
        LoopBefore(s, steps[0]);
      }
      NoCommandOutside(s, steps[0]);
      InputAccepted(s, steps[0]);
      assert [steps[0]][1..] == [];
      NoInputAfterwards(Next(s, steps[0]), steps[1..], end);
    }
  }

  lemma NoCommandOutside(s: Session, step: Step)
    requires Enabled(s, step) && !InTheLoop(s)
    ensures !step.Command?
  {
  }

  lemma InvShape(s: Session)
    requires Inv(s)
    ensures Shape(s)
  {
  }

  lemma ArrivedSplit(steps: seq<Step>)
    requires steps != []
    ensures Arrived(steps) == Arrived([steps[0]]) + Arrived(steps[1..])
  {
    assert [steps[0]][1..] == [];
  }

  /** All arrivals are accepted, except possibly a last one that overflowed the queue. */
  lemma {:induction false} AcceptedAreArrived(s: Session, steps: seq<Step>, end: Session)
    requires Inv(s) && Run(s, steps, end)
    ensures var all := s.accepted + Arrived(steps);
            end.accepted <= all && (|end.accepted| == |all| || (!InTheLoop(end) && |end.accepted| + 1 == |all|))
    decreases |steps|
  {
    hide Inv, Next, Enabled, Arrived, InTheLoop;
    if steps == [] {
      ArrivedNone();
      assert s.accepted + [] == s.accepted;
    } else {
      var n, rest := Next(s, steps[0]), steps[1..];
      InvShape(s);
      KeepsInv(s, steps[0]);
      InputAccepted(s, steps[0]);
      ArrivedSplit(steps);
      if n.accepted == s.accepted + Arrived([steps[0]]) {
        AcceptedAreArrived(n, rest, end);
        assert s.accepted + Arrived(steps) == n.accepted + Arrived(rest);
      } else {
        NoInputAfterwards(n, rest, end);
        StaysOut(n, rest, end);
      }
    }
  }

  lemma ArrivedNone()
    ensures Arrived([]) == []
  {
  }

  lemma {:induction false} StaysOut(s: Session, steps: seq<Step>, end: Session)
    requires Inv(s) && Run(s, steps, end) && !InTheLoop(s)
    ensures !InTheLoop(end)
    decreases |steps|
  {
    hide Inv, Next, Enabled;
    if steps != [] {
      KeepsInv(s, steps[0]);
      InvShape(s);
      if InTheLoop(Next(s, steps[0])) {
        LoopBefore(s, steps[0]);
      }
      StaysOut(Next(s, steps[0]), steps[1..], end);
    }
  }

  /**
   * Started inputs, then queued ones, are the inputs that arrived, in order; a cancel drops none, and
   * only the one that overflows the bounded queue, and ends the session, is not taken in.
   */
  lemma InputsConserved(registered: set<Tool>, messages: seq<Message>, steps: seq<Step>, end: Session)
    requires SessionRun(registered, messages, steps, end)
    ensures Inputs(end.turns) + end.queued <= Arrived(steps)
    ensures InTheLoop(end) ==> Inputs(end.turns) + end.queued == Arrived(steps)
    ensures |Arrived(steps)| <= |end.turns| + |end.queued| + 1
    ensures |end.queued| <= 32
  {
    hide Stream, Located, Basics, HistoryExact, DoneCounts;
    SessionInv(registered, messages, steps, end);
    InitInv(registered, messages);
    var s := Init(registered, messages);
    AcceptedAreArrived(s, steps, end);
    assert s.accepted + Arrived(steps) == Arrived(steps);
  }

  lemma NoticesStep(s: Session, step: Step)
    requires Shape(s) && Enabled(s, step)
    ensures |Next(s, step).notices| <= |s.notices| || |Next(s, step).notices| <= APPROVAL_CAPACITY
  {
    hide A.Next, A.Enabled, After, HandleFor, MapAgentEvent, UseOf, Staged, OnCommand, Settled, TurnFinishedWith,
      Received, WithEvent, Shape;
    match step
    case Command(command) => CommandFrame(s, command);
    case Settle(completed) => SettledFrame(s, completed);
    case FinishTurn => TurnFinishedFrame(s, s.agent.result);
    case Receive(handle) => ReceivedNotices(s, handle);
    case _ =>
  }

  lemma ReceivedNotices(s: Session, handle: Handle)
    requires Enabled(s, Receive(handle))
    ensures Received(s, handle).notices == s.notices
  {
  }

  lemma {:induction false} NoticesBounded(s: Session, steps: seq<Step>, end: Session)
    requires Inv(s) && |s.notices| <= APPROVAL_CAPACITY && Run(s, steps, end)
    ensures |end.notices| <= APPROVAL_CAPACITY
    decreases |steps|
  {
    hide Inv, Next, Enabled;
    if steps != [] {
      InvShape(s);
      NoticesStep(s, steps[0]);
      KeepsInv(s, steps[0]);
      NoticesBounded(Next(s, steps[0]), steps[1..], end);
    }
  }

  /** Whatever the peer and the core do, the queue and both channels of the coordinator stay bounded. */
  lemma EverythingBounded(registered: set<Tool>, messages: seq<Message>, steps: seq<Step>, end: Session)
    requires SessionRun(registered, messages, steps, end)
    ensures |end.queued| <= 32 && |end.notices| <= 64 && end.room <= 64
  {
    hide Stream, Located, Basics, HistoryExact, DoneCounts;
    SessionInv(registered, messages, steps, end);
    InvShape(end);
    InitInv(registered, messages);
    NoticesBounded(Init(registered, messages), steps, end);
  }

  /** The history is the initial messages followed by the completed turns, given a core that only appends. */
  lemma HistoryHoldsCompletedTurns(registered: set<Tool>, messages: seq<Message>, steps: seq<Step>, end: Session)
    requires SessionRun(registered, messages, steps, end)
    ensures end.messages == ResultOf(messages, end.turns, |end.turns|) && BasedOnResults(messages, end.turns)
    ensures AppendOnly(end.turns) ==> end.messages == messages + Grown(end.turns, |end.turns|)
  {
    hide Stream, Located, Basics, InputsKept, DoneCounts, ResultOf, BasedOnResults, Grown, AppendOnly;
    SessionInv(registered, messages, steps, end);
    SessionSetting(registered, messages, steps, end);
    if AppendOnly(end.turns) {
      HistoryIsFoldOfCompletedTurns(end);
    }
  }
}
