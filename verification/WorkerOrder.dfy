/** The order of the outbound stream: core events as the core emitted them, and requests after their causes. */
module WorkerOrder {
  import opened Protocol
  import opened CallIds
  import opened Worker
  import opened WorkerInvariants
  import opened WorkerChannels
  import opened WorkerRequests
  import A = Approval

  // ---------------------------------------------------------------- core events, in order

  /** The unread core events are the end of what the turn has emitted. */
  ghost predicate InboxIsRest(s: Session) {
    0 <= Consumed(s) && s.inbox == Emitted(s)[Consumed(s)..]
  }

  function HandleIn(event: WorkerEvent): Handle {
    match event
    case ToolStart(id, _, _) => id
    case ToolResult(id, _, _, _) => id
    case _ => ""
  }

  /** The item is what the `index`th event of its turn maps to. */
  ghost predicate IsMapped(item: Item, turns: seq<Turn>) {
    && item.Core? && item.turn < |turns| && 0 <= item.index < |turns[item.turn].events|
    && item.event == MapAgentEvent(turns[item.turn].events[item.index], HandleIn(item.event))
  }

  ghost predicate Follows(a: Item, b: Item) {
    a.Core? && b.Core? && ((b.turn == a.turn && b.index == a.index + 1) || (b.turn > a.turn && b.index == 0))
  }

  /** Turn by turn, each turn's events from its first on, without a gap. */
  ghost predicate InOrder(items: seq<Item>) {
    && (items != [] ==> items[0].Core? && items[0].index == 0)
    && forall i :: 0 < i < |items| ==> Follows(items[i - 1], items[i])
  }

  /** While a turn is active, the last items received are its events up to the ones still unread. */
  ghost predicate EndsWithTurn(s: Session) {
    InTheLoop(s) && s.active ==>
      && 0 <= Consumed(s) <= |s.received|
      && var start := |s.received| - Consumed(s);
         && (forall i :: start <= i < |s.received| ==> IsEvent(s.received[i], CurrentTurn(s), i - start))
         && (forall i :: 0 <= i < start ==> s.received[i].Core? && s.received[i].turn < CurrentTurn(s))
  }

  predicate IsEvent(item: Item, turn: nat, index: int) {
    item.Core? && item.turn == turn && item.index == index
  }

  ghost predicate Ordered(s: Session) {
    && InboxIsRest(s) && InOrder(s.received) && EndsWithTurn(s)
    && forall i :: 0 <= i < |s.received| ==> IsMapped(s.received[i], s.turns)
  }

  lemma MappedGrows(items: seq<Item>, turns: seq<Turn>, more: seq<Turn>)
    requires forall i :: 0 <= i < |items| ==> IsMapped(items[i], turns)
    requires EventsGrow(turns, more)
    ensures forall i :: 0 <= i < |items| ==> IsMapped(items[i], more)
  {
  }

  ghost predicate EventsGrow(turns: seq<Turn>, more: seq<Turn>) {
    |turns| <= |more| && forall k :: 0 <= k < |turns| ==> turns[k].events <= more[k].events
  }

  lemma OutcomeKeepsEvents(turns: seq<Turn>, outcome: TurnOutcome)
    ensures var more := WithOutcome(turns, outcome);
            |more| == |turns| && forall k :: 0 <= k < |turns| ==> turns[k].events == more[k].events
  {
  }

  lemma TurnsByCore(s: Session, step: Step)
    requires Enabled(s, step) && (step.Emit? || step.StartTurn?)
    ensures var n := Next(s, step);
            EventsGrow(s.turns, n.turns) && (step.Emit? ==> |n.turns| == |s.turns|)
  {
    hide Staged;
  }

  /** Emission histories only grow, and the current turn's only by the core's own steps. */
  lemma TurnsGrow(s: Session, step: Step)
    requires Shape(s) && Enabled(s, step)
    ensures var n := Next(s, step);
            && |s.turns| <= |n.turns| && (forall k :: 0 <= k < |s.turns| ==> s.turns[k].events <= n.turns[k].events)
            && (!step.StartTurn? ==> |n.turns| == |s.turns|)
            && (!step.Emit? && !step.StartTurn? ==> Emitted(n) == Emitted(s))
  {
    hide A.Next, A.Enabled, After, HandleFor, MapAgentEvent, UseOf, Staged, OnCommand, Settled, TurnFinishedWith,
      Notified, Named, TurnStarted, WithEvent, WithOutcome, Shape;
    match step
    case Emit(_) | StartTurn => TurnsByCore(s, step);
    case Command(command) => CommandFrame(s, command);
    case Settle(completed) =>
      SettledFrame(s, completed);
      OutcomeKeepsEvents(s.turns, Discarded);
    case FinishTurn =>
      var result := s.agent.result;
      TurnFinishedFrame(s, result);
      OutcomeKeepsEvents(s.turns, if result.Completed? then Succeeded(result.messages) else Discarded);
    case Approving(action) => ApprovingFrame(s, action);
    case NameCall(t, handle) => NameCallFrame(s, t, handle);
    case _ =>
  }

  lemma ApprovingFrame(s: Session, action: A.Action)
    requires Shape(s) && Enabled(s, Approving(action))
    ensures var n := Next(s, Approving(action));
            n.turns == s.turns && n.inbox == s.inbox && n.requests == s.requests && n.agent == s.agent
            && n.stages == s.stages && |n.notices| >= |s.notices|
  {
    hide A.Next, A.Enabled;
  }

  lemma NameCallFrame(s: Session, t: nat, handle: Handle)
    requires Shape(s) && Enabled(s, NameCall(t, handle))
    ensures var n := Next(s, NameCall(t, handle));
            n.turns == s.turns && n.inbox == s.inbox && n.agent == s.agent && n.notices == s.notices
              && n.stages == s.stages
            && n.requests == s.requests[t := s.requests[t].(use := |s.uses|)]
  {
    hide A.Next, A.Enabled, After;
  }

  /** What receiving an event adds. */
  lemma ReceiveAdds(s: Session, handle: Handle)
    requires Shape(s) && InboxIsRest(s) && Enabled(s, Receive(handle))
    ensures var n, k := Next(s, Receive(handle)), Consumed(s);
            && n.turns == s.turns && n.phase == s.phase && n.active == s.active && InboxIsRest(n)
            && Consumed(n) == k + 1
            && |n.received| == |s.received| + 1 && n.received[..|s.received|] == s.received
            && IsEvent(n.received[|s.received|], CurrentTurn(s), k) && IsMapped(n.received[|s.received|], s.turns)
  {
    hide A.Next, After, HandleFor, UseOf;
    var n := Next(s, Receive(handle));
    assert s.inbox[0] == Emitted(s)[Consumed(s)];
    assert n.inbox == Emitted(s)[Consumed(s) + 1..];
  }

  lemma OrderedReceive(s: Session, handle: Handle)
    requires Shape(s) && Ordered(s) && Enabled(s, Receive(handle))
    ensures Ordered(Next(s, Receive(handle)))
  {
    hide Next, IsMapped;
    ReceiveAdds(s, handle);
    var n := Next(s, Receive(handle));
    assert s.active && InTheLoop(s);
    assert forall i :: 0 <= i < |s.received| ==> n.received[i] == s.received[i];
  }

  lemma MappedTurns(items: seq<Item>, turns: seq<Turn>)
    requires forall i :: 0 <= i < |items| ==> IsMapped(items[i], turns)
    ensures forall i :: 0 <= i < |items| ==> items[i].Core? && items[i].turn < |turns|
  {
  }

  /** Steps that leave the core's events alone. */
  lemma OrderedSame(s: Session, n: Session)
    requires Ordered(s) && n.received == s.received && (n.inbox == s.inbox || n.inbox == [])
    requires Emitted(n) == Emitted(s) && |n.turns| == |s.turns|
    requires forall k :: 0 <= k < |s.turns| ==> s.turns[k].events <= n.turns[k].events
    requires InTheLoop(n) && n.active ==> InTheLoop(s) && s.active && n.inbox == s.inbox
    ensures Ordered(n)
  {
    hide IsMapped, InOrder;
    MappedGrows(s.received, s.turns, n.turns);
  }

  lemma OrderedEmit(s: Session, event: AgentEvent)
    requires Shape(s) && Ordered(s) && Enabled(s, Emit(event))
    ensures Ordered(Next(s, Emit(event)))
  {
    hide IsMapped, InOrder, Staged;
    var n := Next(s, Emit(event));
    MappedGrows(s.received, s.turns, n.turns);
    assert Emitted(n) == Emitted(s) + [event];
  }

  lemma OrderedStart(s: Session)
    requires Shape(s) && Ordered(s) && Enabled(s, StartTurn)
    ensures Ordered(Next(s, StartTurn))
  {
    hide IsMapped, InOrder;
    MappedTurns(s.received, s.turns);
    MappedGrows(s.received, s.turns, Next(s, StartTurn).turns);
  }

  lemma KeepsOrdered(s: Session, step: Step)
    requires Shape(s) && Ordered(s) && Enabled(s, step)
    ensures Ordered(Next(s, step))
  {
    hide A.Next, A.Enabled, After, HandleFor, MapAgentEvent, UseOf, Staged, OnCommand, Settled, TurnFinishedWith,
      Notified, Named,
      Received, Ordered, TurnStarted, WithEvent, Emitted, Shape;
    var n := Next(s, step);
    TurnsGrow(s, step);
    match step
    case Receive(handle) => OrderedReceive(s, handle);
    case Emit(event) => OrderedEmit(s, event);
    case StartTurn => OrderedStart(s);
    case Drain | Request'(_, _, _) | EndTask(_) =>
      OutsideFrame(s, step);
      OrderedSame(s, n);
    case Approving(action) =>
      OutsideFrame(s, step);
      ApprovingFrame(s, action);
      OrderedSame(s, n);
    case NameCall(t, handle) =>
      OutsideFrame(s, step);
      NameCallFrame(s, t, handle);
      OrderedSame(s, n);
    case Command(command) =>
      CommandFrame(s, command);
      OrderedSame(s, n);
    case Settle(completed) =>
      SettledFrame(s, completed);
      SettledPhase(s, completed);
      OrderedSame(s, n);
    case FinishTurn =>
      TurnFinishedFrame(s, s.agent.result);
      OrderedSame(s, n);
    case _ =>
      OrderedSame(s, n);
  }

  // ---------------------------------------------------------------- requests, after their causes

  /** Among the first `n` items is event `index` of the turn. */
  ghost predicate EventIn(items: seq<Item>, n: nat, turn: nat, index: int)
    requires n <= |items|
  {
    exists i :: 0 <= i < n && IsEvent(items[i], turn, index)
  }

  /** Everything the core had emitted in its turn before it asked comes before the request. */
  ghost predicate AfterCauses(items: seq<Item>, i: nat, requests: seq<Request>)
    requires i < |items|
  {
    items[i].Ask? ==>
      && items[i].token < |requests|
      && forall j :: 0 <= j < requests[items[i].token].before ==> EventIn(items, i, requests[items[i].token].turn, j)
  }

  ghost predicate RequestsDated(s: Session)
    requires |s.requests| == |s.ap.calls|
  {
    && (forall t :: 0 <= t < |s.requests| ==>
          s.requests[t].turn < |s.turns| && s.requests[t].before <= |s.turns[s.requests[t].turn].events|)
    && (s.agent.Running? ==>
          forall t :: 0 <= t < |s.requests| && !s.ap.calls[t].Over() ==> s.requests[t].turn == CurrentTurn(s))
  }

  ghost predicate OfThisTurn(s: Session, token: nat) {
    token < |s.requests| && s.requests[token].turn == CurrentTurn(s)
  }

  /** On its way out a request belongs to the turn in progress; once held, its causes have been taken. */
  ghost predicate OnTheWay(s: Session) {
    InTheLoop(s) ==>
      && (s.barrier.Some? ==> OfThisTurn(s, s.barrier.value.token))
      && (forall i :: 0 <= i < |s.notices| ==> OfThisTurn(s, s.notices[i].token))
      && (HoldsAsk(s.held) ==> s.active && OfThisTurn(s, s.held.value.token)
                               && s.requests[s.held.value.token].before <= Consumed(s))
  }

  ghost predicate SentAfterCauses(s: Session) {
    forall i: nat :: i < |InLoop(s)| ==> AfterCauses(InLoop(s), i, s.requests)
  }

  ghost predicate Causal(s: Session)
    requires |s.requests| == |s.ap.calls|
  {
    RequestsDated(s) && OnTheWay(s) && SentAfterCauses(s)
  }

  lemma {:induction false} OrdinaryMembers(items: seq<Item>, item: Item)
    ensures item in Ordinary(items) <==> item in items && item.Core?
    decreases |items|
  {
    if items != [] {
      OrdinaryMembers(items[..|items| - 1], item);
      assert items == items[..|items| - 1] + [items[|items| - 1]];
    }
  }

  /** What the coordinator has taken of the turn while it holds a request, it has already sent. */
  lemma TakenIsSent(s: Session, j: nat)
    requires Shape(s) && Conserved(s) && Ordered(s) && s.phase.Looping? && s.active && HoldsAsk(s.held)
      && j < Consumed(s)
    ensures EventIn(s.sent, |s.sent|, CurrentTurn(s), j)
  {
    hide Ordinary, IsMapped, InOrder;
    OrdinaryHeld(s.held);
    assert s.received == Ordinary(s.sent) by { assert Ordinary(s.sent) + [] == Ordinary(s.sent); }
    var item := s.received[|s.received| - Consumed(s) + j];
    OrdinaryMembers(s.sent, item);
    var i :| 0 <= i < |s.sent| && s.sent[i] == item;
    assert IsEvent(s.sent[i], CurrentTurn(s), j);
  }

  /** Requests are only added, and a request only ever gains its handle. */
  lemma RequestsFrame(s: Session, step: Step)
    requires Shape(s) && Enabled(s, step)
    ensures var n := Next(s, step);
            && |n.requests| == |s.requests| + (if step.Request'? then 1 else 0)
            && (forall t :: 0 <= t < |s.requests| ==>
                  n.requests[t] == s.requests[t].(use := n.requests[t].use)
                  && (n.requests[t].use != s.requests[t].use ==> step.NameCall? && step.t == t))
            && (step.Request'? ==>
                  n.requests[|s.requests|] == Request(CurrentTurn(s), step.id, step.argumentsJson, |Emitted(s)|, 0))
  {
    hide A.Next, A.Enabled, After, HandleFor, MapAgentEvent, UseOf, Staged, OnCommand, Settled, TurnFinishedWith,
      Notified, Named, WithEvent;
    match step
    case Command(command) => CommandFrame(s, command);
    case Settle(completed) => SettledFrame(s, completed);
    case FinishTurn => TurnFinishedFrame(s, s.agent.result);
    case Approving(action) => ApprovingFrame(s, action);
    case NameCall(t, handle) => NameCallFrame(s, t, handle);
    case Receive(handle) => ReceivedRequests(s, handle);
    case _ =>
  }

  lemma ReceivedRequests(s: Session, handle: Handle)
    requires Enabled(s, Receive(handle))
    ensures Received(s, handle).requests == s.requests
  {
  }

  lemma KeepsDated(s: Session, step: Step)
    requires Basics(s) && RequestsDated(s) && Enabled(s, step)
    ensures Shape(Next(s, step)) && RequestsDated(Next(s, step))
  {
    hide A.Next, A.Enabled, A.Inv, IdsFromUses, Next, Enabled, ApAction;
    var n := Next(s, step);
    KeepsShape(s, step);
    RequestsFrame(s, step);
    TurnsGrow(s, step);
    AgentRuns(s, step);
    RequestTurn(s, step);
    forall t | 0 <= t < |n.requests|
      ensures n.requests[t].turn < |n.turns| && n.requests[t].before <= |n.turns[n.requests[t].turn].events|
    {
      if t < |s.requests| {
        assert s.turns[s.requests[t].turn].events <= n.turns[s.requests[t].turn].events;
      }
    }
    if n.agent.Running? {
      forall t | 0 <= t < |n.requests| && !n.ap.calls[t].Over() ensures n.requests[t].turn == CurrentTurn(n) {
        OverBefore(s, step, t);
      }
    }
  }

  lemma RequestTurn(s: Session, step: Step)
    requires Shape(s) && Enabled(s, step)
    ensures step.Request'? ==> s.agent.Running? && |Next(s, step).turns| == |s.turns|
    ensures step.StartTurn? ==> s.agent.NoAgent?
  {
  }

  lemma OverBefore(s: Session, step: Step, t: nat)
    requires Shape(s) && Enabled(s, step) && t < |Next(s, step).ap.calls|
    ensures t < |s.ap.calls| && s.ap.calls[t].Over() ==> Next(s, step).ap.calls[t].Over()
  {
    hide A.Next, A.Enabled, Next, Enabled;
    ApStep(s, step);
    var a := ApAction(s, step);
    if a.Some? {
      A.NextCalls(s.ap, a.value);
    }
  }

  /** A task only starts with its turn, while no request of an earlier one is still open. */
  lemma AgentRuns(s: Session, step: Step)
    requires Shape(s) && Enabled(s, step)
    ensures Next(s, step).agent.Running? ==> s.agent.Running? || (step.StartTurn? && s.agent.NoAgent?)
  {
    hide A.Next, A.Enabled, After, HandleFor, MapAgentEvent, UseOf, Staged, OnCommand, Settled, TurnFinishedWith,
      Notified, Named, WithEvent;
    match step
    case Command(command) => CommandFrame(s, command);
    case Settle(completed) => SettledPhase(s, completed);
    case FinishTurn => TurnFinishedFrame(s, s.agent.result);
    case Approving(action) => ApprovingFrame(s, action);
    case NameCall(t, handle) => NameCallFrame(s, t, handle);
    case _ =>
  }

  /** Steps of the loop that leave the way of the requests, and what the coordinator has taken, alone. */
  lemma OnTheWaySame(s: Session, n: Session)
    requires Shape(s) && Shape(n) && OnTheWay(s) && (InTheLoop(n) ==> InTheLoop(s))
    requires |s.requests| <= |n.requests| && |n.turns| == |s.turns|
    requires forall t :: 0 <= t < |s.requests| ==>
               n.requests[t].turn == s.requests[t].turn && n.requests[t].before == s.requests[t].before
    requires InTheLoop(n) ==> (n.barrier == s.barrier || n.barrier.None?) && (n.notices == s.notices || n.notices == [])
    requires InTheLoop(n) && HoldsAsk(n.held) ==> n.held == s.held && n.active == s.active && Consumed(n) >= Consumed(s)
    ensures OnTheWay(n)
  {
  }

  lemma OnTheWayNotify(s: Session, t: nat)
    requires Shape(s) && Enabled(s, Approving(A.Notify(t))) && Shape(Next(s, Approving(A.Notify(t))))
    requires RequestsDated(s) && OnTheWay(s)
    ensures OnTheWay(Next(s, Approving(A.Notify(t))))
  {
    hide A.Next;
  }

  /** The barrier has let every event through that was emitted before the request. */
  lemma OnTheWayBarrier(s: Session)
    requires Shape(s) && RequestsDated(s) && OnTheWay(s) && Enabled(s, BarrierEmpty)
    ensures OnTheWay(Next(s, BarrierEmpty))
  {
    assert s.requests[s.barrier.value.token].before <= |Emitted(s)| == Consumed(s);
  }

  lemma OnTheWayReceive(s: Session, handle: Handle)
    requires Shape(s) && OnTheWay(s) && Enabled(s, Receive(handle))
    ensures OnTheWay(Next(s, Receive(handle)))
  {
    hide After, HandleFor, MapAgentEvent, UseOf;
  }

  lemma OnTheWayMoves(s: Session, step: Step)
    requires Shape(s) && OnTheWay(s) && Idle(s) && Enabled(s, step)
    requires step.TakeNotice? || step.Permit? || step.StartTurn?
    ensures OnTheWay(Next(s, step))
  {
    hide A.Next, A.Enabled, After, HandleFor, MapAgentEvent, UseOf, Shape;
  }

  lemma OnTheWayOutside(s: Session, step: Step)
    requires Shape(s) && OnTheWay(s) && RequestsDated(s) && Enabled(s, step) && Outside(step)
    ensures OnTheWay(Next(s, step))
  {
    hide A.Next, A.Enabled, After, Staged, Notified, Named, WithEvent, OnTheWay, RequestsDated, Shape;
    var n := Next(s, step);
    KeepsShape(s, step);
    RequestsFrame(s, step);
    TurnsGrow(s, step);
    OutsideFrame(s, step);
    match step
    case Approving(action) =>
      if action.Notify? {
        OnTheWayNotify(s, action.t);
      } else {
        ApprovingFrame(s, action);
        ApprovingNotices(s, action);
        OnTheWaySame(s, n);
      }
    case NameCall(t, handle) =>
      NameCallFrame(s, t, handle);
      OnTheWaySame(s, n);
    case Emit(event) =>
      EmitConsumes(s, event);
      OnTheWaySame(s, n);
    case _ =>
      OnTheWaySame(s, n);
  }

  lemma KeepsOnTheWay(s: Session, step: Step)
    requires Basics(s) && RequestsDated(s) && OnTheWay(s) && InboxIsRest(s) && Idle(s) && Enabled(s, step)
    ensures OnTheWay(Next(s, step))
  {
    hide A.Next, A.Enabled, A.Inv, IdsFromUses, After, HandleFor, MapAgentEvent, UseOf, Staged, OnCommand, Settled,
      TurnFinishedWith,
      Notified, Named, WithEvent, Received, OnTheWay, RequestsDated, Shape, TurnStarted, NoneOutlives, Idle,
      InboxIsRest;
    var n := Next(s, step);
    if Outside(step) {
      OnTheWayOutside(s, step);
    } else if step.TakeNotice? || step.Permit? || step.StartTurn? {
      OnTheWayMoves(s, step);
    } else if step.BarrierEmpty? {
      OnTheWayBarrier(s);
    } else if step.Receive? {
      OnTheWayReceive(s, step.handle);
    } else {
      KeepsShape(s, step);
      RequestsFrame(s, step);
      TurnsGrow(s, step);
      if InTheLoop(n) { LoopBefore(s, step); }
      match step {
        case Command(command) => CommandFrame(s, command);
        case Settle(completed) =>
          SettledFrame(s, completed);
          SettledPhase(s, completed);
        case FinishTurn => TurnFinishedFrame(s, s.agent.result);
        case _ =>
      }
      OnTheWaySame(s, n);
    }
  }

  lemma EmitConsumes(s: Session, event: AgentEvent)
    requires Shape(s) && Enabled(s, Emit(event))
    ensures Consumed(Next(s, Emit(event))) == Consumed(s) && Next(s, Emit(event)).notices == s.notices
  {
    hide Staged;
  }

  lemma ApprovingNotices(s: Session, action: A.Action)
    requires Enabled(s, Approving(action)) && !action.Notify?
    ensures Next(s, Approving(action)).notices == s.notices
  {
    hide A.Next, A.Enabled;
  }

  lemma AfterCausesKept(items: seq<Item>, i: nat, requests: seq<Request>, more: seq<Item>, later: seq<Request>)
    requires i < |items| && AfterCauses(items, i, requests) && items <= more && |requests| <= |later|
    requires forall t :: 0 <= t < |requests| ==>
               later[t].turn == requests[t].turn && later[t].before == requests[t].before
    ensures AfterCauses(more, i, later)
  {
    if items[i].Ask? {
      var r := requests[items[i].token];
      forall j | 0 <= j < r.before ensures EventIn(more, i, r.turn, j) {
        assert EventIn(items, i, r.turn, j);
        var k :| 0 <= k < i && IsEvent(items[k], r.turn, j);
        assert IsEvent(more[k], r.turn, j);
      }
    }
  }

  lemma KeepsSentAfterCauses(s: Session, step: Step)
    requires Basics(s) && Causal(s) && Ordered(s) && Conserved(s) && Enabled(s, step)
    ensures SentAfterCauses(Next(s, step))
  {
    hide A.Next, A.Enabled, A.Inv, IdsFromUses, Next, Enabled, RequestsDated, Ordered, Conserved, NoneOutlives,
      AfterCauses, OnTheWay;
    var n := Next(s, step);
    RequestsFrame(s, step);
    SentGrows(s, step);
    forall i: nat | i < |InLoop(n)| ensures AfterCauses(InLoop(n), i, n.requests) {
      if i < |InLoop(s)| {
        AfterCausesKept(InLoop(s), i, s.requests, InLoop(n), n.requests);
      } else {
        PermitAfterCauses(s, step);
      }
    }
  }

  lemma SentGrows(s: Session, step: Step)
    requires Shape(s) && Enabled(s, step)
    ensures var n := Next(s, step);
            InLoop(s) <= InLoop(n) && |InLoop(n)| == |InLoop(s)| + if step.Permit? then 1 else 0
  {
    hide A.Next, A.Enabled, After, HandleFor, MapAgentEvent, UseOf, Staged, OnCommand, Settled, TurnFinishedWith,
      Notified, Named, WithEvent, TurnStarted;
    if step.Receive? {
      ReceivedSent(s, step.handle);
    } else if !step.Permit? {
      StreamFrame(s, step);
    }
  }

  lemma ReceivedSent(s: Session, handle: Handle)
    requires Enabled(s, Receive(handle))
    ensures InLoop(Received(s, handle)) == InLoop(s)
  {
  }

  lemma PermitAfterCauses(s: Session, step: Step)
    requires Basics(s) && Causal(s) && Ordered(s) && Conserved(s) && Enabled(s, step) && step.Permit?
    ensures var n := Next(s, step);
            |InLoop(n)| == |s.sent| + 1 && AfterCauses(InLoop(n), |s.sent|, n.requests)
  {
    hide A.Next, A.Inv, IdsFromUses, Ordered, Conserved, NoneOutlives, IsMapped, InOrder;
    var n := Next(s, step);
    var item := s.held.value;
    if item.Ask? {
      var r := s.requests[item.token];
      forall j | 0 <= j < r.before ensures EventIn(n.sent, |s.sent|, r.turn, j) {
        TakenIsSent(s, j);
        var k :| 0 <= k < |s.sent| && IsEvent(s.sent[k], CurrentTurn(s), j);
        assert IsEvent(n.sent[k], r.turn, j);
      }
    }
  }
}
