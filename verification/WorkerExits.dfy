/**
 * What leaving the loop adds to the stream. The documentation speaks of a held ordinary event and one
 * terminal event; a held approval request is sent too, exactly when an input overflows the queue.
 */
module WorkerExits {
  import opened Text
  import opened Protocol
  import opened CallIds
  import opened Worker
  import opened WorkerInvariants
  import opened WorkerChannels
  import opened WorkerRequests
  import opened WorkerOrder
  import opened WorkerHistory
  import opened WorkerRuns
  import A = Approval

  // ---------------------------------------------------------------- the ways out

  /** What stays of the held event when a turn is aborted. */
  function HeldStays(held: Option<Item>): seq<Item> {
    if held.Some? && held.value.Core? then [held.value] else []
  }

  /** Which steps leave the loop, and with what to be sent before the worker goes. */
  function WayOut(s: Session, step: Step): Option<seq<Item>> {
    match step
    case ReadFailed | StreamClosed | WriterClosed => Some([])
    case Command(Input(_)) =>
      if |s.queued| < 32 then None
      else Some(HeldItems(s.held) + [Terminal(Crash("worker input queue limit exceeded (maximum 32)"))])
    case Command(Stop) => if s.active then None else Some(HeldItems(s.held) + [Terminal(Done(|s.messages|))])
    case FinishTurn =>
      if s.agent.Ended? && s.agent.result.Failed? then Some([Terminal(Crash(s.agent.result.error))])
      else if s.agent.Ended? && s.agent.result.Aborted? then Some([])
      else None
    case Settle(completed) =>
      if s.phase.Aborting? && s.phase.stop then Some(HeldStays(s.held) + [Terminal(Done(|s.messages|))])
      else if completed then None
      else Some(HeldStays(s.held) + [Terminal(Crash("agent cancellation cleanup deadline exceeded"))])
    case _ => None
  }

  lemma CommandWay(s: Session, command: DaemonCommand)
    requires Polls(s) && |s.queued| <= 32
    ensures var n := OnCommand(s, command);
            match WayOut(s, Command(command))
            case None => InTheLoop(n)
            case Some(tail) => n.phase == Flushing(tail) && n.tail == tail && n.atExit == s.sent
  {
    hide A.Next;
  }

  lemma SettleWay(s: Session, completed: bool)
    requires Enabled(s, Settle(completed)) && (s.held.Some? ==> !s.held.value.Terminal?)
    ensures var n := Settled(s, completed);
            match WayOut(s, Settle(completed))
            case None => InTheLoop(n)
            case Some(tail) => n.phase == Flushing(tail) && n.tail == tail && n.atExit == s.sent
  {
    hide Settled;
    SettledFrame(s, completed);
    SettledPhase(s, completed);
  }

  lemma OtherWay(s: Session, step: Step)
    requires Enabled(s, step) && InTheLoop(s) && !step.Command? && !step.Settle?
    ensures var n := Next(s, step);
            match WayOut(s, step)
            case None => InTheLoop(n)
            case Some(tail) => n.phase == Flushing(tail) && n.tail == tail && n.atExit == s.sent
  {
    hide A.Next, A.Enabled, After, HandleFor, MapAgentEvent, UseOf, Staged, TurnFinishedWith, WithEvent;
    match step
    case FinishTurn => FinishWay(s, s.agent.result);
    case Approving(action) => ApprovingIsOutside(s, action);
    case NameCall(t, handle) => NamingIsOutside(s, t, handle);
    case _ =>
  }

  lemma FinishWay(s: Session, result: TaskResult)
    requires s.phase.Looping?
    ensures var n := TurnFinishedWith(s, result);
            if result.Completed? then n.phase.Looping?
            else
              var tail := if result.Failed? then [Terminal(Crash(result.error))] else [];
              n.phase == Flushing(tail) && n.tail == tail && n.atExit == s.sent
  {
  }

  /** In every session, the loop is left in exactly these ways, and with exactly that to be sent. */
  lemma WaysOut(registered: set<Tool>, messages: seq<Message>, steps: seq<Step>, end: Session, step: Step)
    requires SessionRun(registered, messages, steps, end) && InTheLoop(end) && Enabled(end, step)
    ensures var n := Next(end, step);
            match WayOut(end, step)
            case None => InTheLoop(n)
            case Some(tail) => n.phase == Flushing(tail) && n.tail == tail && n.atExit == end.sent
  {
    hide Basics, Located, HistoryExact, DoneCounts, Flushed, Ordered, Causal, HeldAfterCauses, Idle, Next, WayOut,
      Enabled, OnCommand, Settled, Ordinary;
    SessionInv(registered, messages, steps, end);
    if step.Command? {
      CommandIs(end, step.command);
      CommandWay(end, step.command);
    } else if step.Settle? {
      SettlesTo(end, step.completed);
      SettleWay(end, step.completed);
    } else {
      OtherWay(end, step);
    }
  }

  /** When the worker goes, every table is empty, and whoever still waits is left to be denied. */
  lemma LeavingDenies(registered: set<Tool>, messages: seq<Message>, steps: seq<Step>, end: Session)
    requires SessionRun(registered, messages, steps, end) && Enabled(end, Leave)
    ensures var n := Next(end, Leave);
            && n.ap.pending == map[] && n.ids == map[] && n.notices == [] && |n.ap.calls| == |end.ap.calls|
            && forall t :: 0 <= t < |n.ap.calls| && n.ap.calls[t].Guarded() ==> !n.ap.calls[t].reply.Open?
  {
    hide Stream, Located, Memory, IdsFromUses, NoneOutlives, Shape, A.TableExact, A.OpenBefore, A.TableByLog,
      A.AllowedExact, A.RepliesGranted, A.AnswersLogged, A.FailClosed, A.ToolsOwn, Next;
    SessionInv(registered, messages, steps, end);
    LeavesTo(end);
    CancelledTable(end.ap);
  }

  lemma LeavesTo(s: Session)
    requires Enabled(s, Leave)
    ensures var n := Next(s, Leave);
            n.ap == A.Next(s.ap, A.CancelPending) && n.ids == map[] && n.notices == []
  {
    hide A.Next;
  }

  lemma CancelledTable(st: A.State)
    requires A.TableExact(st)
    ensures var n := A.Next(st, A.CancelPending);
            && n.pending == map[] && |n.calls| == |st.calls|
            && forall t :: 0 <= t < |n.calls| && n.calls[t].Guarded() ==> !n.calls[t].reply.Open?
  {
    var n := A.Next(st, A.CancelPending);
    forall t | 0 <= t < |n.calls| && n.calls[t].Guarded() ensures !n.calls[t].reply.Open? {
      A.CancelLeavesNoneOpen(st, t);
    }
  }

  // ---------------------------------------------------------------- a held request

  predicate HasAsk(items: seq<Item>) {
    exists i :: 0 <= i < |items| && items[i].Ask?
  }

  /** An input too many arrives while a request is held. */
  predicate OverflowsHolding(s: Session, step: Step) {
    step.Command? && step.command.Input? && |s.queued| == MAX_QUEUED_INPUTS && HoldsAsk(s.held)
  }

  /** The held core event, if there is one, and one terminal event; or nothing. */
  ghost predicate OrdinaryTail(tail: seq<Item>, held: Option<Item>) {
    tail == [] || exists e: WorkerEvent :: tail == Ordinary(HeldItems(held)) + [Terminal(e)]
  }

  /** The input that shows it: the request goes out ahead of the crash. */
  lemma OverflowSendsHeldRequest(s: Session, text: string)
    requires Polls(s) && OverflowsHolding(s, Command(Input(text)))
    ensures var n := Next(s, Command(Input(text)));
            n.phase == Flushing(n.tail) && n.tail == [s.held.value, Terminal(Crash(OVERFLOW))]
  {
  }

  lemma NoAskIn(held: Option<Item>, e: WorkerEvent)
    requires !HoldsAsk(held) && (held.Some? ==> !held.value.Terminal?)
    ensures !HasAsk(HeldItems(held) + [Terminal(e)])
    ensures OrdinaryTail(HeldItems(held) + [Terminal(e)], held)
  {
    hide Ordinary;
    OrdinaryHeld(held);
    assert Ordinary(HeldItems(held)) == HeldItems(held);
  }

  /** A step that leaves the loop by a command. */
  lemma CommandExit(s: Session, command: DaemonCommand)
    requires Polls(s) && Idle(s) && Conserved(s) && OnCommand(s, command).phase.Flushing?
    ensures var tail := OnCommand(s, command).tail;
            if OverflowsHolding(s, Command(command)) then HasAsk(tail)
            else !HasAsk(tail) && OrdinaryTail(tail, s.held)
  {
    hide A.Next, Ordinary, InLoop;
    var n := OnCommand(s, command);
    if OverflowsHolding(s, Command(command)) {
      assert n.tail[0].Ask?;
    } else {
      assert !HoldsAsk(s.held);
      NoAskIn(s.held, n.tail[|n.tail| - 1].event);
    }
  }

  lemma SettleExit(s: Session, completed: bool)
    requires s.phase.Aborting? && Conserved(s) && Settled(s, completed).phase.Flushing?
    ensures var n := Settled(s, completed); !HasAsk(n.tail) && OrdinaryTail(n.tail, n.held)
  {
    hide Settled, Ordinary, InLoop, HeldItems;
    SettledFrame(s, completed);
    SettledPhase(s, completed);
    var n := Settled(s, completed);
    NoAskIn(n.held, n.tail[|n.tail| - 1].event);
  }

  lemma FinishExit(s: Session)
    requires Enabled(s, FinishTurn) && Next(s, FinishTurn).phase.Flushing?
    ensures var n := Next(s, FinishTurn); !HasAsk(n.tail) && OrdinaryTail(n.tail, n.held)
  {
    hide TurnFinishedWith, WithOutcome, Ordinary;
    TurnFinishedFrame(s, s.agent.result);
    var n := Next(s, FinishTurn);
    if n.tail != [] {
      NoAskIn(None, n.tail[0].event);
      assert n.tail == HeldItems(None) + [Terminal(n.tail[0].event)];
    }
  }

  lemma OtherExits(s: Session, step: Step)
    requires Enabled(s, step) && InTheLoop(s) && !InTheLoop(Next(s, step))
    ensures Next(s, step).phase.Flushing? && !Outside(step)
    ensures step.Command? || step.Settle? || step.FinishTurn?
         || ((step.ReadFailed? || step.StreamClosed? || step.WriterClosed?) && Next(s, step).tail == [])
  {
    hide A.Next, A.Enabled, After, HandleFor, MapAgentEvent, UseOf, Staged, Settled, OnCommand, TurnFinishedWith,
      WithEvent;
    match step
    case Settle(completed) => SettledPhase(s, completed);
    case Command(command) => CommandFrame(s, command);
    case FinishTurn => TurnFinishedFrame(s, s.agent.result);
    case Approving(action) => ApprovingFrame(s, action); ApprovingIsOutside(s, action);
    case NameCall(t, handle) => NamingIsOutside(s, t, handle);
    case _ =>
  }

  /** The one step that leaves the loop says what it means to add. */
  lemma ExitTail(s: Session, step: Step)
    requires Inv(s) && Enabled(s, step) && InTheLoop(s) && !InTheLoop(Next(s, step))
    ensures var n := Next(s, step);
            if OverflowsHolding(s, step) then HasAsk(n.tail) else !HasAsk(n.tail) && OrdinaryTail(n.tail, n.held)
  {
    hide Basics, Located, Memory, Flushed, Ordered, Causal, HeldAfterCauses, Idle, Conserved, OnCommand, Settled,
      TurnFinishedWith,
      OrdinaryTail, HasAsk, Next, Enabled;
    var n := Next(s, step);
    OtherExits(s, step);
    if step.Command? {
      CommandIs(s, step.command);
      CommandFrame(s, step.command);
      CommandExit(s, step.command);
    } else if step.Settle? {
      SettlesTo(s, step.completed);
      SettleExit(s, step.completed);
    } else if step.FinishTurn? {
      FinishExit(s);
    } else {
      NoTail(n);
    }
  }

  lemma CommandIs(s: Session, command: DaemonCommand)
    requires Enabled(s, Command(command))
    ensures Polls(s) && Next(s, Command(command)) == OnCommand(s, command)
  {
    hide OnCommand;
  }

  lemma SettlesTo(s: Session, completed: bool)
    requires Enabled(s, Settle(completed))
    ensures s.phase.Aborting? && Next(s, Settle(completed)) == Settled(s, completed)
  {
    hide Settled;
  }

  lemma NoTail(s: Session)
    requires s.tail == []
    ensures !HasAsk(s.tail) && OrdinaryTail(s.tail, s.held)
  {
  }

  // ---------------------------------------------------------------- whole sessions

  /** Out of the loop, what was meant and what was held is settled. */
  lemma TailSettled(s: Session, step: Step)
    requires Shape(s) && Enabled(s, step) && !InTheLoop(s)
    ensures var n := Next(s, step); !InTheLoop(n) && n.tail == s.tail && n.held == s.held
    ensures !step.Command?
  {
    hide A.Next, A.Enabled, After, Staged, WithEvent, Shape;
    if Outside(step) {
      OutsideFrame(s, step);
    }
  }

  /** Some input of the run arrives one too many while a request is held. */
  ghost predicate OverflowHolding(s: Session, steps: seq<Step>)
    decreases |steps|
  {
    steps != [] && Enabled(s, steps[0])
    && (OverflowsHolding(s, steps[0]) || OverflowHolding(Next(s, steps[0]), steps[1..]))
  }

  lemma {:induction false} TailSettledRun(s: Session, steps: seq<Step>, end: Session)
    requires Inv(s) && Run(s, steps, end) && !InTheLoop(s)
    ensures !InTheLoop(end) && end.tail == s.tail && end.held == s.held && !OverflowHolding(s, steps)
    decreases |steps|
  {
    hide Inv, Next, Enabled, InTheLoop;
    if steps != [] {
      InvShape(s);
      TailSettled(s, steps[0]);
      KeepsInv(s, steps[0]);
      TailSettledRun(Next(s, steps[0]), steps[1..], end);
    }
  }

  lemma OverflowLeaves(s: Session, step: Step)
    requires Inv(s) && Enabled(s, step) && OverflowsHolding(s, step)
    ensures !InTheLoop(Next(s, step))
  {
    hide Inv;
    OverflowSendsHeldRequest(s, step.command.text);
  }

  lemma {:induction false} TailOfRun(s: Session, steps: seq<Step>, end: Session)
    requires Inv(s) && Run(s, steps, end) && InTheLoop(s)
    ensures InTheLoop(end) ==> !OverflowHolding(s, steps)
    ensures !InTheLoop(end) ==>
              if OverflowHolding(s, steps) then HasAsk(end.tail)
              else !HasAsk(end.tail) && OrdinaryTail(end.tail, end.held)
    decreases |steps|
  {
    hide Inv, Next, Enabled, InTheLoop, HasAsk, OrdinaryTail, OverflowsHolding;
    if steps != [] {
      var n := Next(s, steps[0]);
      KeepsInv(s, steps[0]);
      if InTheLoop(n) {
        if OverflowsHolding(s, steps[0]) {
          OverflowLeaves(s, steps[0]);
        }
        TailOfRun(n, steps[1..], end);
      } else {
        ExitTail(s, steps[0]);
        TailSettledRun(n, steps[1..], end);
      }
    }
  }

  /**
   * A held approval request is among what leaving the loop means to add exactly when an input
   * overflowed the queue while it was held. In every other session that leaves the loop, all that is
   * added is a prefix of the held core event, if there is one, and one terminal event.
   */
  lemma HeldRequestIsAddedExactlyAtOverflow(registered: set<Tool>, messages: seq<Message>, steps: seq<Step>,
                                            end: Session)
    requires SessionRun(registered, messages, steps, end) && !InTheLoop(end)
    ensures HasAsk(end.tail) <==> OverflowHolding(Init(registered, messages), steps)
    ensures !HasAsk(end.tail) ==> OrdinaryTail(end.tail, end.held)
    ensures end.atExit <= end.sent <= end.atExit + end.tail
  {
    hide Inv, Next, Enabled, HasAsk, OrdinaryTail;
    InitInv(registered, messages);
    TailOfRun(Init(registered, messages), steps, end);
    NothingFollowsTheTerminalEvent(registered, messages, steps, end);
  }

  lemma OverflowTail(registered: set<Tool>, messages: seq<Message>, steps: seq<Step>, end: Session)
    requires SessionRun(registered, messages, steps, end) && !InTheLoop(end) && HasAsk(end.tail)
    ensures HoldsAsk(end.held) && exists e: WorkerEvent :: end.tail == [end.held.value, Terminal(e)]
  {
    hide Inv, Next, Enabled;
    NothingFollowsTheTerminalEvent(registered, messages, steps, end);
    var e :| end.tail == HeldItems(end.held) + [Terminal(e)];
    var i :| 0 <= i < |end.tail| && end.tail[i].Ask?;
    assert end.tail[i] in HeldItems(end.held);
    assert end.tail == [end.held.value, Terminal(e)];
  }
}
