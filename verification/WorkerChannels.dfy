/** The outbound stream and the way of an approval request through it. */
module WorkerChannels {
  import opened Text
  import opened Protocol
  import opened CallIds
  import opened Worker
  import opened WorkerInvariants
  import A = Approval

  // ---------------------------------------------------------------- idle means idle

  predicate HoldsAsk(held: Option<Item>) {
    held.Some? && held.value.Ask?
  }

  /** At a loop head with no turn active, nothing of the last turn's approvals is left. */
  ghost predicate Idle(s: Session) {
    s.phase.Looping? && !s.active ==>
      && s.barrier.None? && s.notices == [] && s.inbox == [] && s.ids == map[]
      && !HoldsAsk(s.held)
  }

  lemma IdleInTurn(s: Session)
    requires s.phase.Looping? ==> s.active
    ensures Idle(s)
  {
  }

  /** With no agent task, nothing outside can touch what is quiet. */
  lemma IdleOutside(s: Session, step: Step)
    requires Shape(s) && Idle(s) && Enabled(s, step) && Outside(step) && s.phase.Looping? && !s.active
    ensures Idle(Next(s, step))
  {
    hide A.Next, A.Enabled;
    assert step.Drain?;
  }

  lemma IdleCommand(s: Session, command: DaemonCommand)
    requires Idle(s) && Polls(s)
    ensures Idle(OnCommand(s, command))
  {
    hide A.Next;
  }

  lemma IdleSettled(s: Session, completed: bool)
    requires s.phase.Aborting?
    ensures Idle(Settled(s, completed))
  {
    hide Settled, HeldItems, DoneEvent, WithOutcome;
    SettledFrame(s, completed);
    SettledPhase(s, completed);
    SettledRest(s, completed);
  }

  /** The core's events have all been taken when its turn ends. */
  lemma IdleFinished(s: Session)
    requires Shape(s) && Enabled(s, FinishTurn)
    ensures Idle(Next(s, FinishTurn))
  {
    hide TurnFinishedWith, WithOutcome;
    TurnFinishedFrame(s, s.agent.result);
  }

  lemma IdleOwn(s: Session, step: Step)
    requires Shape(s) && Idle(s) && Enabled(s, step) && !Outside(step)
    requires !step.Command? && !step.Settle? && !step.FinishTurn? && !step.Receive?
    ensures Idle(Next(s, step))
  {
    hide A.Next, A.Enabled, After;
  }

  lemma IdleReceived(s: Session, handle: Handle)
    requires Enabled(s, Receive(handle))
    ensures Idle(Next(s, Receive(handle)))
  {
    hide HandleFor, After, MapAgentEvent, UseOf;
  }

  lemma KeepsIdle(s: Session, step: Step)
    requires Shape(s) && Idle(s) && Enabled(s, step)
    ensures Idle(Next(s, step))
  {
    hide A.Next, A.Enabled, OnCommand, Settled, TurnFinishedWith, Received, TurnStarted, Named, Notified, Staged,
      WithEvent, Cleaned,
      Shape, Idle;
    if Outside(step) {
      OutsideFrame(s, step);
      if s.phase.Looping? && !s.active {
        IdleOutside(s, step);
      } else {
        IdleInTurn(Next(s, step));
      }
    } else {
      match step
      case Command(command) => IdleCommand(s, command);
      case Settle(completed) => IdleSettled(s, completed);
      case FinishTurn => IdleFinished(s);
      case Receive(handle) => IdleReceived(s, handle);
      case _ => IdleOwn(s, step);
    }
  }

  /** No waiter is in the table either. */
  lemma NoWaiterWithoutTask(s: Session)
    requires Basics(s) && !s.agent.Running?
    ensures s.ap.pending == map[]
  {
    hide IdsFromUses;
    forall h ensures h !in s.ap.pending {
      A.EntryIsLive(s.ap, h);
    }
  }

  // ---------------------------------------------------------------- conservation

  /** What had been sent when the loop was left, or has been sent so far. */
  function InLoop(s: Session): seq<Item> {
    if s.phase.Flushing? || s.phase.Exited? then s.atExit else s.sent
  }

  function Ordinary(items: seq<Item>): seq<Item> {
    if items == [] then []
    else
      var last := items[|items| - 1];
      Ordinary(items[..|items| - 1]) + if last.Core? then [last] else []
  }

  lemma OrdinaryOne(items: seq<Item>, item: Item)
    ensures Ordinary(items + [item]) == Ordinary(items) + if item.Core? then [item] else []
  {
    assert (items + [item])[..|items|] == items;
  }

  ghost predicate Conserved(s: Session) {
    && Ordinary(InLoop(s)) + Ordinary(HeldItems(s.held)) == s.received
    && (forall i :: 0 <= i < |InLoop(s)| ==> !InLoop(s)[i].Terminal?)
    && (s.held.Some? ==> !s.held.value.Terminal?)
  }

  ghost predicate TailShape(tail: seq<Item>, held: Option<Item>) {
    tail == [] || exists e: WorkerEvent :: tail == HeldItems(held) + [Terminal(e)]
  }

  /** Leaving the loop adds a prefix of what is held and one terminal event, and nothing else ever. */
  ghost predicate Flushed(s: Session) {
    && (s.phase.Flushing? ==> s.atExit <= s.sent && s.sent + s.phase.rest == s.atExit + s.tail)
    && (s.phase.Exited? ==> s.atExit <= s.sent <= s.atExit + s.tail)
    && (s.phase.Flushing? || s.phase.Exited? ==> TailShape(s.tail, s.held))
  }

  lemma OrdinaryHeld(held: Option<Item>)
    ensures Ordinary(HeldItems(held)) == if held.Some? && held.value.Core? then [held.value] else []
  {
    if held.Some? {
      OrdinaryOne([], held.value);
      assert [] + [held.value] == [held.value];
    }
  }

  /** Only a permit and a mapped event touch the ordinary stream. */
  lemma StreamFrame(s: Session, step: Step)
    requires Shape(s) && Enabled(s, step) && !step.Permit? && !step.Receive?
    ensures var next := Next(s, step);
            && next.received == s.received && InLoop(next) == InLoop(s)
            && (next.held == s.held || (HoldsAsk(s.held) && next.held.None?) || (s.held.None? && HoldsAsk(next.held)))
  {
    hide A.Next, A.Enabled, After, HandleFor, MapAgentEvent, UseOf, Staged, OnCommand, Settled, TurnFinishedWith,
      Notified, Named, Shape;
    if Outside(step) {
      OutsideFrame(s, step);
    }
    match step
    case Command(command) => CommandFrame(s, command);
    case Settle(completed) => SettledFrame(s, completed); SettledPhase(s, completed);
    case FinishTurn => TurnFinishedFrame(s, s.agent.result);
    case _ =>
  }

  lemma KeepsConserved(s: Session, step: Step)
    requires Shape(s) && Conserved(s) && Enabled(s, step)
    ensures Conserved(Next(s, step))
  {
    hide A.Next, A.Enabled, After, HandleFor, MapAgentEvent, UseOf, Staged, Ordinary, OnCommand, Settled, TurnStarted,
      TurnFinishedWith, Notified, Named;
    OrdinaryHeld(s.held);
    OrdinaryHeld(Next(s, step).held);
    if step.Permit? {
      OrdinaryOne(s.sent, s.held.value);
    } else if !step.Receive? {
      StreamFrame(s, step);
    }
  }

  lemma KeepsFlushed(s: Session, step: Step)
    requires Shape(s) && Flushed(s) && Enabled(s, step)
    ensures Flushed(Next(s, step))
  {
    hide A.Next, A.Enabled, After, HandleFor, MapAgentEvent, UseOf, Staged, OnCommand, Settled, TurnFinishedWith,
      Received, Notified, Named, Shape;
    if Outside(step) {
      OutsideFrame(s, step);
    }
    match step
    case Command(command) => CommandFrame(s, command);
    case Settle(completed) => SettledFrame(s, completed); SettledPhase(s, completed);
    case FinishTurn =>
      TurnFinishedFrame(s, s.agent.result);
      if !s.agent.result.Completed? { TailAlone(Next(s, step).tail); }
    case Receive(handle) => ReceivedFrame(s, handle);
    case FlushOne => assert s.sent + [s.phase.rest[0]] + s.phase.rest[1..] == s.sent + s.phase.rest;
    case _ =>
  }

  lemma TailAlone(tail: seq<Item>)
    requires tail == [] || (|tail| == 1 && tail[0].Terminal?)
    ensures TailShape(tail, None)
  {
    if tail != [] {
      assert tail == HeldItems(None) + [Terminal(tail[0].event)];
    }
  }

  lemma ReceivedFrame(s: Session, handle: Handle)
    requires Shape(s) && Enabled(s, Receive(handle))
    ensures Received(s, handle).phase == s.phase
  {
  }
}
