/** What holds at every point of every session, whatever the peer, the agent and the clock do. */
module WorkerInvariants {
  import opened Text
  import opened Protocol
  import opened CallIds
  import opened Worker
  import A = Approval

  // ---------------------------------------------------------------- the parts fit together

  ghost predicate Shape(s: Session) {
    && |s.inbox| <= |Emitted(s)|
    && |s.requests| == |s.ap.calls|
    && |s.uses| == |s.supply| && s.useBase <= |s.uses|
    && s.room <= EVENT_CAPACITY
    && (s.phase.Looping? ==> s.active == !s.agent.NoAgent?)
    && (s.phase.Aborting? ==> s.active && !s.agent.NoAgent?)
    && (s.active || s.agent.Running? ==> s.turns != [])
    && (s.active ==> s.turns[|s.turns| - 1].outcome.InProgress?)
  }

  /** The agent task owns its approval requests: none of them outlives it. */
  ghost predicate NoneOutlives(s: Session) {
    !s.agent.Running? ==> forall t :: 0 <= t < |s.ap.calls| ==> s.ap.calls[t].Over()
  }

  ghost predicate IdsFromUses(s: Session)
    requires |s.uses| == |s.supply|
  {
    s.ids == IdsAt(s.uses, s.supply, |s.uses|)
  }

  ghost predicate Basics(s: Session) {
    Shape(s) && NoneOutlives(s) && IdsFromUses(s) && A.Inv(s.ap)
  }

  /** The step of the approval adapter that a session step takes, if any. */
  function ApAction(s: Session, step: Step): Option<A.Action> {
    match step
    case Request'(tool, _, _) => Some(A.Begin(tool))
    case NameCall(t, handle) => Some(A.Name(t, handle))
    case Approving(action) => Some(action)
    case Command(Approve(handle, decision)) => Some(A.Resolve(handle, decision))
    case Settle(_) | Leave => Some(A.CancelPending)
    case _ => None
  }

  /** A session step moves the adapter by one of its own steps or not at all. */
  lemma ApStep(s: Session, step: Step)
    requires Shape(s) && Enabled(s, step)
    ensures var a := ApAction(s, step);
            if a.None? then Next(s, step).ap == s.ap
            else A.Enabled(s.ap, a.value) && Next(s, step).ap == A.Next(s.ap, a.value)
  {
    hide A.Next, After, HandleFor, MapAgentEvent, UseOf, Staged;
  }

  // ---------------------------------------------------------------- who touches what

  /** Steps that are not the coordinator's: the peer's and the agent task's. */
  predicate Outside(step: Step) {
    step.Drain? || step.Emit? || step.Request'? || step.NameCall? || step.Approving? || step.EndTask?
  }

  /** The coordinator's own variables, and what it has done so far. */
  ghost predicate SameCoordinator(s: Session, n: Session) {
    && n.phase == s.phase && n.active == s.active && n.queued == s.queued && n.held == s.held
    && n.barrier == s.barrier && n.messages == s.messages && n.received == s.received && n.sent == s.sent
    && n.atExit == s.atExit && n.tail == s.tail && n.initial == s.initial && n.accepted == s.accepted
    && n.useBase == s.useBase && |n.turns| == |s.turns|
  }

  lemma ApprovingIsOutside(s: Session, action: A.Action)
    requires Enabled(s, Approving(action))
    ensures SameCoordinator(s, Next(s, Approving(action)))
  {
    hide A.Next, A.Enabled;
  }

  lemma NamingIsOutside(s: Session, t: nat, handle: Handle)
    requires Enabled(s, NameCall(t, handle))
    ensures SameCoordinator(s, Next(s, NameCall(t, handle)))
  {
    hide A.Next, A.Enabled, After;
  }

  lemma AgentIsOutside(s: Session, step: Step)
    requires Enabled(s, step) && (step.Drain? || step.Emit? || step.Request'? || step.EndTask?)
    ensures SameCoordinator(s, Next(s, step))
  {
    hide A.Next, A.Enabled, Staged;
  }

  /** They change in the coordinator's own steps only. */
  lemma OutsideFrame(s: Session, step: Step)
    requires Shape(s) && Enabled(s, step) && Outside(step)
    ensures SameCoordinator(s, Next(s, step))
  {
    hide Next, Enabled, Shape;
    match step
    case Approving(action) => ApprovingIsOutside(s, action);
    case NameCall(t, handle) => NamingIsOutside(s, t, handle);
    case _ => AgentIsOutside(s, step);
  }

  lemma ShapeOnCommand(s: Session, command: DaemonCommand)
    requires Shape(s) && Polls(s)
    ensures Shape(OnCommand(s, command))
  {
    hide A.Next;
    if command.Approve? {
      A.NextCalls(s.ap, A.Resolve(command.callId, command.decision));
    }
  }

  lemma ShapeSettled(s: Session, completed: bool)
    requires Shape(s) && Enabled(s, Settle(completed))
    ensures Shape(Settled(s, completed))
  {
    hide A.Next, Settled;
    SettledFrame(s, completed);
    SettledPhase(s, completed);
    SettledRest(s, completed);
    A.NextCalls(s.ap, A.CancelPending);
  }

  lemma ShapeReceived(s: Session, handle: Handle)
    requires Shape(s) && Enabled(s, Receive(handle))
    ensures Shape(Received(s, handle))
  {
    hide After, HandleFor, MapAgentEvent, UseOf;
  }

  lemma ShapeTurn(s: Session, result: TaskResult)
    requires Shape(s)
    ensures Enabled(s, StartTurn) ==> Shape(TurnStarted(s))
    ensures Enabled(s, FinishTurn) ==> Shape(TurnFinishedWith(s, result))
  {
    hide After;
  }

  lemma ShapeOutside(s: Session, step: Step)
    requires Shape(s) && Enabled(s, step) && Outside(step)
    ensures Shape(Next(s, step))
  {
    hide A.Next, A.Enabled, After, HandleFor, Staged;
    ApStep(s, step);
    var a := ApAction(s, step);
    if a.Some? {
      A.NextCalls(s.ap, a.value);
    }
  }

  lemma ShapeLeave(s: Session)
    requires Shape(s)
    ensures Shape(Cleaned(CancelPending(s)).(phase := Exited))
  {
    hide A.Next, After;
    A.NextCalls(s.ap, A.CancelPending);
  }

  lemma KeepsShape(s: Session, step: Step)
    requires Shape(s) && Enabled(s, step)
    ensures Shape(Next(s, step))
  {
    hide A.Next, A.Enabled, After, HandleFor, MapAgentEvent, UseOf, Staged, OnCommand, Settled, Received, TurnStarted,
      TurnFinishedWith, Cleaned, CancelPending, Notified, Named, WithEvent;
    if Outside(step) {
      ShapeOutside(s, step);
    }
    match step
    case Command(command) => ShapeOnCommand(s, command);
    case Settle(completed) => ShapeSettled(s, completed);
    case Receive(handle) => ShapeReceived(s, handle);
    case StartTurn => ShapeTurn(s, Aborted);
    case FinishTurn => ShapeTurn(s, s.agent.result);
    case Leave => ShapeLeave(s);
    case _ =>
  }

  /** Only by ending does the agent task stop, and it asks only while it runs. */
  lemma AgentStops(s: Session, step: Step)
    requires Enabled(s, step) && !Next(s, step).agent.Running?
    ensures s.agent.Running? ==> step.EndTask?
    ensures !step.Request'?
  {
    hide A.Next, A.Enabled, After, HandleFor, MapAgentEvent, UseOf, Staged, OnCommand, Settled, TurnFinishedWith,
      WithEvent;
    match step
    case Command(command) => CommandFrame(s, command);
    case Settle(completed) => SettledPhase(s, completed);
    case FinishTurn => TurnFinishedFrame(s, s.agent.result);
    case _ =>
  }

  lemma EndsOver(s: Session, result: TaskResult)
    requires Enabled(s, EndTask(result))
    ensures forall t :: 0 <= t < |s.ap.calls| ==> s.ap.calls[t].Over()
    ensures ApAction(s, EndTask(result)).None?
  {
  }

  lemma BeginsByRequest(s: Session, step: Step)
    requires Enabled(s, step)
    ensures var a := ApAction(s, step); a.Some? && a.value.Begin? ==> step.Request'?
  {
    hide A.Enabled;
  }

  lemma KeepsNoneOutlives(s: Session, step: Step)
    requires Shape(s) && NoneOutlives(s) && Enabled(s, step)
    ensures NoneOutlives(Next(s, step))
  {
    hide A.Next, A.Enabled, Next, Enabled, Shape, ApAction;
    ApStep(s, step);
    if !Next(s, step).agent.Running? {
      AgentStops(s, step);
      BeginsByRequest(s, step);
      if step.EndTask? {
        EndsOver(s, step.result);
      }
      var a := ApAction(s, step);
      if a.Some? {
        A.NextCalls(s.ap, a.value);
      }
    }
  }

  // ---------------------------------------------------------------- what the larger steps touch

  /** A command other than `approve` leaves the adapter alone; none touches the mapper or the channels. */
  lemma CommandFrame(s: Session, command: DaemonCommand)
    requires Polls(s)
    ensures var n := OnCommand(s, command);
            && n.active == s.active && n.held == s.held && n.barrier == s.barrier && n.messages == s.messages
            && n.received == s.received && n.sent == s.sent && n.initial == s.initial && n.turns == s.turns
            && n.notices == s.notices && n.inbox == s.inbox && n.agent == s.agent && n.requests == s.requests
            && n.uses == s.uses && n.supply == s.supply && n.ids == s.ids && n.useBase == s.useBase
            && n.stages == s.stages
            && (n.phase == s.phase || n.phase.Aborting? ||
                (n.phase == Flushing(n.tail) && n.atExit == s.sent
                 && exists e: WorkerEvent :: n.tail == HeldItems(s.held) + [Terminal(e)]))
  {
    hide A.Next;
  }

  /** An aborted turn leaves queue, history and stream as they are. */
  lemma SettledKeepsStream(s: Session, completed: bool)
    requires s.phase.Aborting?
    ensures var n := Settled(s, completed);
            && n.queued == s.queued && n.messages == s.messages && n.received == s.received && n.sent == s.sent
            && n.initial == s.initial && n.accepted == s.accepted
  {
    hide A.Next, After, HeldItems, DoneEvent, WithOutcome;
  }

  lemma SettledKeepsCalls(s: Session, completed: bool)
    requires s.phase.Aborting?
    ensures var n := Settled(s, completed);
            n.requests == s.requests && n.useBase == s.useBase && n.stages == s.stages
  {
    hide A.Next, After, HeldItems, DoneEvent, WithOutcome;
  }

  lemma SettledClears(s: Session, completed: bool)
    requires s.phase.Aborting?
    ensures var n := Settled(s, completed);
            && !n.active && n.notices == [] && n.turns == WithOutcome(s.turns, Discarded)
            && n.held == (if s.held.Some? && s.held.value.Ask? then None else s.held)
            && n.uses == s.uses + [Cleared] && n.supply == s.supply + [""] && n.ids == map[]
  {
    hide A.Next, HeldItems, DoneEvent, WithOutcome;
  }

  lemma SettledFrame(s: Session, completed: bool)
    requires s.phase.Aborting?
    ensures var n := Settled(s, completed);
            && !n.active && n.queued == s.queued && n.messages == s.messages && n.received == s.received
                 && n.sent == s.sent
            && n.initial == s.initial && n.accepted == s.accepted && n.requests == s.requests && n.notices == []
            && n.held == (if s.held.Some? && s.held.value.Ask? then None else s.held)
            && n.turns == WithOutcome(s.turns, Discarded) && n.useBase == s.useBase && n.stages == s.stages
            && n.uses == s.uses + [Cleared] && n.supply == s.supply + [""] && n.ids == map[]
  {
    hide Settled, WithOutcome;
    SettledKeepsStream(s, completed);
    SettledKeepsCalls(s, completed);
    SettledClears(s, completed);
  }

  lemma SettledRest(s: Session, completed: bool)
    requires s.phase.Aborting?
    ensures var n := Settled(s, completed);
            && n.room == s.room && n.ap == A.Next(s.ap, A.CancelPending)
            && n.barrier == if s.phase.stop then s.barrier else None
  {
    hide A.Next, After, HeldItems, DoneEvent, WithOutcome;
  }

  /** Back to the loop with the agent task gone, or out of it with what is held and a terminal event. */
  lemma SettledPhase(s: Session, completed: bool)
    requires s.phase.Aborting?
    ensures var n := Settled(s, completed);
            if !s.phase.stop && completed then
              n.phase.Looping? && n.barrier.None? && n.inbox == [] && n.agent.NoAgent?
            else
              && n.phase == Flushing(n.tail) && n.atExit == s.sent && n.agent == s.agent && n.inbox == s.inbox
              && n.tail == HeldItems(n.held) + [if s.phase.stop then DoneEvent(|s.messages|)
                   else Terminal(Crash(CANCEL_TIMEOUT))]
  {
    hide A.Next, After, HeldItems, DoneEvent, WithOutcome;
  }

  lemma TurnFinishedFrame(s: Session, result: TaskResult)
    ensures var n := TurnFinishedWith(s, result);
            && !n.active && n.queued == s.queued && n.received == s.received && n.sent == s.sent && n.held == s.held
            && n.initial == s.initial && n.accepted == s.accepted && n.requests == s.requests && n.barrier == s.barrier
            && n.inbox == s.inbox && n.useBase == s.useBase && n.stages == s.stages && n.ap == s.ap
            && if result.Completed? then
                 && n.phase == s.phase && n.notices == [] && n.messages == result.messages
                 && n.agent.NoAgent? && n.turns == WithOutcome(s.turns, Succeeded(result.messages))
                 && n.atExit == s.atExit && n.tail == s.tail
                 && n.uses == s.uses + [Cleared] && n.supply == s.supply + [""] && n.ids == map[]
               else
                 && n.phase == Flushing(n.tail) && n.atExit == s.sent && n.messages == s.messages
                 && n.turns == WithOutcome(s.turns, Discarded) && n.agent == s.agent && n.notices == s.notices
                 && n.uses == s.uses && n.supply == s.supply && n.ids == s.ids
                 && (n.tail == [] || (|n.tail| == 1 && n.tail[0].Terminal?))
  {
  }

  // ---------------------------------------------------------------- the mapper's share

  lemma IdsAtExtended(uses: seq<Use>, supply: seq<Handle>, use: Use, handle: Handle, n: nat)
    requires n <= |uses| == |supply|
    ensures IdsAt(uses + [use], supply + [handle], n) == IdsAt(uses, supply, n)
    decreases n
  {
    if n > 0 {
      IdsAtExtended(uses, supply, use, handle, n - 1);
    }
  }

  lemma WithUseIds(s: Session, use: Use, handle: Handle)
    requires |s.uses| == |s.supply| && IdsFromUses(s)
    ensures After(s.ids, use, handle) == IdsAt(s.uses + [use], s.supply + [handle], |s.uses| + 1)
  {
    IdsAtExtended(s.uses, s.supply, use, handle, |s.uses|);
  }

  /** The mapper operation a session step makes, if any, and the fresh handle it has at hand. */
  function UseAction(s: Session, step: Step): Option<(Use, Handle)> {
    match step
    case NameCall(t, handle) =>
      if t < |s.requests| then Some((ApprovalStarted(Call(s.requests[t].turn, s.requests[t].id)), handle)) else None
    case Receive(handle) =>
      if s.inbox == [] then None
      else
        var use := UseOf(s.inbox[0], CurrentTurn(s));
        if use.Some? then Some((use.value, handle)) else None
    case FinishTurn => if s.agent.Ended? && s.agent.result.Completed? then Some((Cleared, "")) else None
    case Settle(_) | Leave => Some((Cleared, ""))
    case _ => None
  }

  lemma UseOutside(s: Session, step: Step)
    requires Shape(s) && Enabled(s, step) && Outside(step) && !step.NameCall?
    ensures var n := Next(s, step); n.ids == s.ids && n.uses == s.uses && n.supply == s.supply
  {
    hide A.Next, A.Enabled, Staged;
  }

  lemma UseReceived(s: Session, handle: Handle)
    requires Shape(s) && Enabled(s, Receive(handle))
    ensures var n, u := Received(s, handle), UseAction(s, Receive(handle));
            if u.None? then n.ids == s.ids && n.uses == s.uses && n.supply == s.supply
            else n.ids == After(s.ids, u.value.0, u.value.1)
                 && n.uses == s.uses + [u.value.0] && n.supply == s.supply + [u.value.1]
  {
    hide After, HandleFor, MapAgentEvent, UseOf;
  }

  /** A session step moves the mapper by one of its operations or not at all. */
  lemma UseStep(s: Session, step: Step)
    requires Shape(s) && Enabled(s, step)
    ensures var n, u := Next(s, step), UseAction(s, step);
            if u.None? then n.ids == s.ids && n.uses == s.uses && n.supply == s.supply
            else n.ids == After(s.ids, u.value.0, u.value.1)
                 && n.uses == s.uses + [u.value.0] && n.supply == s.supply + [u.value.1]
  {
    hide A.Next, A.Enabled, Staged, OnCommand, Settled, Received, TurnFinishedWith, CancelPending, Notified,
      WithEvent, Shape;
    if Outside(step) && !step.NameCall? {
      UseOutside(s, step);
    }
    match step
    case Command(command) => CommandFrame(s, command);
    case Settle(completed) => SettledFrame(s, completed);
    case FinishTurn => TurnFinishedFrame(s, s.agent.result);
    case Receive(handle) => UseReceived(s, handle);
    case Leave => CancelFrame(s);
    case _ =>
  }

  lemma CancelFrame(s: Session)
    ensures var n := CancelPending(s); n == s.(ap := n.ap)
  {
    hide A.Next;
  }

  lemma KeepsIdsFromUses(s: Session, step: Step)
    requires Shape(s) && IdsFromUses(s) && Enabled(s, step)
    ensures Shape(Next(s, step)) && IdsFromUses(Next(s, step))
  {
    hide Next, After, Shape, Enabled, UseAction;
    ShapeLengths(s);
    KeepsShape(s, step);
    UseStep(s, step);
    var u := UseAction(s, step);
    if u.Some? {
      WithUseIds(s, u.value.0, u.value.1);
    }
  }

  lemma ShapeLengths(s: Session)
    requires Shape(s)
    ensures |s.uses| == |s.supply|
  {
  }

  lemma KeepsBasics(s: Session, step: Step)
    requires Basics(s) && Enabled(s, step)
    ensures Basics(Next(s, step))
  {
    hide A.Next, A.Inv, Next, Shape, NoneOutlives, Enabled, IdsFromUses;
    ApStep(s, step);
    KeepsShape(s, step);
    KeepsNoneOutlives(s, step);
    KeepsIdsFromUses(s, step);
    var a := ApAction(s, step);
    if a.Some? {
      A.KeepsInv(s.ap, a.value);
    }
  }
}
