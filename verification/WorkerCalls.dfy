/**
 * Under the core's own discipline, the calls of a session take turns on the mapper: however far the
 * coordinator lags behind the agent, and across every cancel.
 */
module WorkerCalls {
  import opened Text
  import opened Protocol
  import opened CallIds
  import opened Worker
  import opened WorkerInvariants
  import opened WorkerChannels
  import opened WorkerRequests
  import opened WorkerOrder
  import opened WorkerRuns
  import A = Approval

  // ---------------------------------------------------------------- what the core keeps to

  function ToolId(event: AgentEvent): Option<ProviderId> {
    match event
    case CoreToolStart(id, _, _) => Some(id)
    case CoreToolResult(id, _, _, _) => Some(id)
    case _ => None
  }

  function CallOf(request: Request): Call {
    Call(request.turn, request.id)
  }

  ghost predicate RequestsOver(s: Session, call: Call)
    requires |s.requests| == |s.ap.calls|
  {
    forall t :: 0 <= t < |s.requests| && CallOf(s.requests[t]) == call ==> s.ap.calls[t].Over()
  }

  /**
   * A provider identity is not used twice within a turn: an approval request, if any, comes first and
   * is over before `ToolStart`, and nothing comes after the result.
   */
  ghost predicate Disciplined(s: Session, step: Step)
    requires Shape(s)
  {
    match step
    case Request'(_, id, _) => id !in s.stages
    case Emit(CoreToolStart(id, _, _)) =>
      id in s.stages ==> s.stages[id].Asked? && RequestsOver(s, Call(CurrentTurn(s), id))
    case Emit(CoreToolResult(id, _, _, _)) =>
      id in s.stages ==> !s.stages[id].Resulted? && RequestsOver(s, Call(CurrentTurn(s), id))
    case _ => true
  }

  // ---------------------------------------------------------------- what that keeps

  /** In the turn's events, a tool result is the last event of its identity. */
  ghost predicate EventsTidy(events: seq<AgentEvent>, stages: map<ProviderId, Stage>) {
    && (forall j, k :: 0 <= j < k < |events| && events[j].CoreToolResult? ==> ToolId(events[k]) != Some(events[j].id))
    && (forall k :: 0 <= k < |events| && ToolId(events[k]).Some? ==> ToolId(events[k]).value in stages)
    && (forall k :: 0 <= k < |events| && events[k].CoreToolResult? ==> stages[events[k].id].Resulted?)
  }

  ghost predicate UsesDated(s: Session) {
    forall i :: 0 <= i < |s.uses| && !s.uses[i].Cleared? ==> s.uses[i].call.serial < |s.turns|
  }

  /** The uses of the active turn are those since the last clear. */
  ghost predicate TurnBlock(s: Session) {
    && s.useBase <= |s.uses| && (s.useBase == 0 || s.uses[s.useBase - 1].Cleared?)
    && (forall i :: s.useBase <= i < |s.uses| ==> !s.uses[i].Cleared? && s.uses[i].call.serial == CurrentTurn(s))
    && (forall i :: 0 <= i < s.useBase && !s.uses[i].Cleared? ==> s.uses[i].call.serial < CurrentTurn(s))
  }

  ghost predicate Blocks(s: Session) {
    && (InTheLoop(s) && s.active ==> TurnBlock(s))
    && (s.phase.Looping? && !s.active ==> s.uses == [] || s.uses[|s.uses| - 1].Cleared?)
  }

  predicate HasResult(events: seq<AgentEvent>, n: int, id: ProviderId)
    requires n <= |events|
  {
    exists k :: 0 <= k < n && events[k].CoreToolResult? && events[k].id == id
  }

  /** A call of the turn is finished on the mapper only once its result has been taken. */
  ghost predicate FinishedTaken(s: Session) {
    forall i :: 0 <= i < |s.uses| && s.uses[i].Finished? && s.uses[i].call.serial == CurrentTurn(s) ==>
      HasResult(Emitted(s), Consumed(s), s.uses[i].call.id)
  }

  predicate Early(call: A.Invocation) {
    call.phase.Begun? || call.phase.Unlisted?
  }

  /** What has not been asked about or emitted in this turn has no use yet, and has no request. */
  ghost predicate Unused(s: Session) {
    && (forall id :: id !in s.stages ==> NoUse(s.uses, Call(CurrentTurn(s), id)))
    && (forall t :: 0 <= t < |s.requests| && s.requests[t].turn == CurrentTurn(s) ==> s.requests[t].id in s.stages)
  }

  ghost predicate OnePerCall(requests: seq<Request>) {
    forall t, t' :: 0 <= t < t' < |requests| ==> CallOf(requests[t]) != CallOf(requests[t'])
  }

  ghost predicate EarlyUnused(s: Session)
    requires |s.requests| == |s.ap.calls|
  {
    forall t :: 0 <= t < |s.requests| && Early(s.ap.calls[t]) ==> NoUse(s.uses, CallOf(s.requests[t]))
  }

  /** No event of a call while a request of it is still open. */
  ghost predicate EmittedAfterwards(s: Session)
    requires |s.requests| == |s.ap.calls|
  {
    forall k :: 0 <= k < |Emitted(s)| && ToolId(Emitted(s)[k]).Some? ==>
      RequestsOver(s, Call(CurrentTurn(s), ToolId(Emitted(s)[k]).value))
  }

  ghost predicate Tidy(s: Session)
    requires |s.requests| == |s.ap.calls|
  {
    && EventsTidy(Emitted(s), s.stages) && UsesDated(s) && Blocks(s) && FinishedTaken(s) && Unused(s)
    && OnePerCall(s.requests) && EarlyUnused(s) && EmittedAfterwards(s) && Separated(s.uses)
  }

  // ---------------------------------------------------------------- steps of the adapter

  lemma EarlyBefore(s: Session, step: Step, t: nat)
    requires Shape(s) && Enabled(s, step) && t < |s.ap.calls|
    ensures t < |Next(s, step).ap.calls|
    ensures Early(Next(s, step).ap.calls[t]) ==> Early(s.ap.calls[t]) && !(step.NameCall? && step.t == t)
    ensures s.ap.calls[t].Over() ==> Next(s, step).ap.calls[t].Over()
  {
    hide A.Next, A.Enabled, Next, Enabled, Shape;
    ApStep(s, step);
    var a := ApAction(s, step);
    if a.Some? {
      EarlyAction(s.ap, a.value, t);
    }
  }

  lemma EarlyAction(st: A.State, a: A.Action, t: nat)
    requires A.Enabled(st, a) && t < |st.calls|
    ensures t < |A.Next(st, a).calls|
    ensures Early(A.Next(st, a).calls[t]) ==> Early(st.calls[t]) && !(a.Name? && a.t == t)
    ensures st.calls[t].Over() ==> A.Next(st, a).calls[t].Over()
  {
  }

  lemma RequestsOverKept(s: Session, step: Step, call: Call)
    requires Shape(s) && Enabled(s, step) && Shape(Next(s, step)) && RequestsOver(s, call)
    requires step.Request'? ==> call != Call(CurrentTurn(s), step.id)
    ensures RequestsOver(Next(s, step), call)
  {
    hide A.Next, A.Enabled, Next, Enabled;
    var n := Next(s, step);
    RequestsFrame(s, step);
    forall t | 0 <= t < |n.requests| && CallOf(n.requests[t]) == call ensures n.ap.calls[t].Over() {
      if t < |s.requests| {
        EarlyBefore(s, step, t);
      }
    }
  }

  lemma OnePerCallKept(s: Session, step: Step)
    requires Shape(s) && Enabled(s, step) && Disciplined(s, step) && Unused(s) && OnePerCall(s.requests)
    ensures OnePerCall(Next(s, step).requests)
  {
    hide A.Next, A.Enabled, Next, Enabled, NoUse;
    var n := Next(s, step);
    RequestsFrame(s, step);
    forall t, t' | 0 <= t < t' < |n.requests| ensures CallOf(n.requests[t]) != CallOf(n.requests[t']) {
      assert CallOf(s.requests[t]) == CallOf(n.requests[t]);
    }
  }

  // ---------------------------------------------------------------- what the steps change

  lemma StagesFrame(s: Session, step: Step)
    requires Shape(s) && Enabled(s, step)
    ensures Next(s, step).stages ==
              match step
              case Emit(event) => Staged(s, event)
              case Request'(_, id, _) => s.stages[id := Asked]
              case StartTurn => map[]
              case _ => s.stages
  {
    hide A.Next, A.Enabled, After, HandleFor, MapAgentEvent, UseOf, Staged, OnCommand, Settled, TurnFinishedWith,
      Received,
      Notified, Named, WithEvent, Shape;
    match step
    case Command(command) => CommandFrame(s, command);
    case Settle(completed) => SettledFrame(s, completed);
    case FinishTurn => TurnFinishedFrame(s, s.agent.result);
    case Approving(action) => StagesQuiet(s, step);
    case NameCall(t, handle) => StagesQuiet(s, step);
    case Receive(handle) => StagesReceived(s, handle);
    case _ =>
  }

  lemma StagesQuiet(s: Session, step: Step)
    requires Enabled(s, step) && (step.Approving? || step.NameCall?)
    ensures Next(s, step).stages == s.stages
  {
    hide A.Next, A.Enabled, After;
  }

  lemma StagesReceived(s: Session, handle: Handle)
    requires Enabled(s, Receive(handle))
    ensures Received(s, handle).stages == s.stages
  {
  }

  /** What has been taken of a turn is never given back. */
  lemma ConsumedFrame(s: Session, step: Step)
    requires Shape(s) && Enabled(s, step) && !step.StartTurn?
    ensures Consumed(s) <= |Emitted(s)|
    ensures Consumed(s) + (if step.Receive? then 1 else 0) <= Consumed(Next(s, step)) <= |Emitted(Next(s, step))|
    ensures Emitted(s) <= Emitted(Next(s, step))
  {
    hide A.Next, A.Enabled, After, HandleFor, MapAgentEvent, UseOf, Staged, OnCommand, Settled, TurnFinishedWith,
      Notified, Named,
      WithEvent, Emitted;
    TurnsGrow(s, step);
    match step
    case Command(command) => CommandFrame(s, command);
    case Settle(completed) => SettledFrame(s, completed); SettledPhase(s, completed);
    case FinishTurn => TurnFinishedFrame(s, s.agent.result);
    case Approving(action) => ApprovingFrame(s, action);
    case NameCall(t, handle) => NameCallFrame(s, t, handle);
    case Emit(event) => EmitGrows(s, event);
    case _ =>
  }

  lemma EmitGrows(s: Session, event: AgentEvent)
    requires Shape(s) && Enabled(s, Emit(event))
    ensures var n := Next(s, Emit(event));
            Emitted(n) == Emitted(s) + [event] && Consumed(n) == Consumed(s) && |n.turns| == |s.turns|
  {
    hide Staged;
  }

  /** Within a turn the block of its uses stays open; the loop idles only behind a clear. */
  lemma BlockFrame(s: Session, step: Step)
    requires Shape(s) && Enabled(s, step) && !step.StartTurn?
    ensures var n, u := Next(s, step), UseAction(s, step);
            && (InTheLoop(n) && n.active ==>
                  InTheLoop(s) && s.active && n.useBase == s.useBase && (u.Some? ==> !u.value.0.Cleared?))
            && (n.phase.Looping? && !n.active ==>
                  (s.phase.Looping? && !s.active && u.None?) || (u.Some? && u.value.0.Cleared?))
  {
    hide A.Next, A.Enabled, After, HandleFor, MapAgentEvent, UseOf, Staged, OnCommand, Settled, TurnFinishedWith,
      Notified, Named,
      WithEvent, Received;
    if Outside(step) {
      OutsideFrame(s, step);
    }
    match step
    case Command(command) => CommandFrame(s, command);
    case Settle(completed) => SettledFrame(s, completed); SettledPhase(s, completed);
    case FinishTurn => TurnFinishedFrame(s, s.agent.result);
    case Receive(handle) => ReceivedBlock(s, handle);
    case _ =>
  }

  lemma ReceivedBlock(s: Session, handle: Handle)
    requires Enabled(s, Receive(handle))
    ensures var n, u := Received(s, handle), UseAction(s, Receive(handle));
            && n.phase == s.phase && n.active == s.active && n.useBase == s.useBase && (u.Some? ==> !u.value.0.Cleared?)
            && (u.Some? <==> ToolId(s.inbox[0]).Some?)
            && (u.Some? ==>
                  && u.value.0.call == Call(CurrentTurn(s), ToolId(s.inbox[0]).value) && !u.value.0.ApprovalStarted?
                  && (u.value.0.Finished? <==> s.inbox[0].CoreToolResult?))
  {
  }

  // ---------------------------------------------------------------- each step keeps the calls tidy

  lemma EventsTidyKept(s: Session, step: Step)
    requires Shape(s) && Enabled(s, step) && Disciplined(s, step) && EventsTidy(Emitted(s), s.stages)
    ensures EventsTidy(Emitted(Next(s, step)), Next(s, step).stages)
  {
    hide Next, Enabled, Emitted, Consumed;
    TurnsGrow(s, step);
    StagesFrame(s, step);
    match step
    case Emit(event) => EmitGrows(s, event); EventTidy(s, event);
    case StartTurn => StartedEmpty(s);
    case _ =>
  }

  lemma EventTidy(s: Session, event: AgentEvent)
    requires Shape(s) && Disciplined(s, Emit(event)) && EventsTidy(Emitted(s), s.stages)
    ensures EventsTidy(Emitted(s) + [event], Staged(s, event))
  {
    hide Emitted, Shape, RequestsOver;
  }

  lemma StartedEmpty(s: Session)
    requires Enabled(s, StartTurn)
    ensures var n := Next(s, StartTurn);
            && Emitted(n) == [] && CurrentTurn(n) == |s.turns| && |n.turns| == |s.turns| + 1
            && n.useBase == |s.uses| && s.phase.Looping? && !s.active && n.requests == s.requests && n.ap == s.ap
            && UseAction(s, StartTurn).None?
  {
  }

  /** The operation of a step is about a call of a turn there has been; in the loop, of the current one. */
  lemma UseDated(s: Session, step: Step)
    requires Basics(s) && RequestsDated(s) && Enabled(s, step)
    ensures var u := UseAction(s, step);
            u.Some? && !u.value.0.Cleared? ==> s.turns != [] && u.value.0.call.serial == CurrentTurn(s)
  {
    hide A.Next, A.Inv, Next, IdsFromUses, After, HandleFor;
    match step
    case Receive(handle) => ReceivedBlock(s, handle);
    case _ =>
  }

  lemma UsesDatedKept(s: Session, step: Step)
    requires Basics(s) && RequestsDated(s) && UsesDated(s) && Enabled(s, step)
    ensures UsesDated(Next(s, step))
  {
    hide Next, Enabled, UseAction, A.Inv, RequestsDated, IdsFromUses, NoneOutlives;
    TurnsGrow(s, step);
    UseStep(s, step);
    UseDated(s, step);
  }

  lemma BlocksKept(s: Session, step: Step)
    requires Basics(s) && RequestsDated(s) && UsesDated(s) && Blocks(s) && Enabled(s, step)
    ensures Shape(Next(s, step)) && Blocks(Next(s, step))
  {
    hide Next, Enabled, UseAction, A.Inv, RequestsDated, IdsFromUses, NoneOutlives;
    KeepsShape(s, step);
    TurnsGrow(s, step);
    UseStep(s, step);
    UseDated(s, step);
    if step.StartTurn? {
      StartedEmpty(s);
    } else {
      BlockFrame(s, step);
    }
  }

  lemma HasResultLater(events: seq<AgentEvent>, n: int, id: ProviderId, more: seq<AgentEvent>, m: int)
    requires n <= |events| && events <= more && n <= m <= |more| && HasResult(events, n, id)
    ensures HasResult(more, m, id)
  {
    var k :| 0 <= k < n && events[k].CoreToolResult? && events[k].id == id;
    assert more[k] == events[k];
  }

  lemma FinishedTakenKept(s: Session, step: Step)
    requires Basics(s) && RequestsDated(s) && InboxIsRest(s) && UsesDated(s) && FinishedTaken(s) && Enabled(s, step)
    ensures Shape(Next(s, step)) && FinishedTaken(Next(s, step))
  {
    hide Next, Enabled, UseAction, A.Inv, RequestsDated, IdsFromUses, NoneOutlives, Emitted, Consumed, HasResult;
    var n := Next(s, step);
    KeepsShape(s, step);
    TurnsGrow(s, step);
    UseStep(s, step);
    if step.StartTurn? {
      StartedEmpty(s);
    } else {
      ConsumedFrame(s, step);
      forall i | 0 <= i < |n.uses| && n.uses[i].Finished? && n.uses[i].call.serial == CurrentTurn(n)
        ensures HasResult(Emitted(n), Consumed(n), n.uses[i].call.id)
      {
        if i < |s.uses| {
          assert n.uses[i] == s.uses[i];
          HasResultLater(Emitted(s), Consumed(s), s.uses[i].call.id, Emitted(n), Consumed(n));
        } else {
          FinishingTakes(s, step);
          HasResultLater(Emitted(s), Consumed(s) + 1, n.uses[i].call.id, Emitted(n), Consumed(n));
        }
      }
    }
  }

  /** Only taking a result finishes a call on the mapper. */
  lemma FinishingTakes(s: Session, step: Step)
    requires Shape(s) && InboxIsRest(s) && Enabled(s, step)
    requires UseAction(s, step).Some? && UseAction(s, step).value.0.Finished?
    ensures step.Receive? && Consumed(s) + 1 <= |Emitted(s)|
    ensures HasResult(Emitted(s), Consumed(s) + 1, UseAction(s, step).value.0.call.id)
  {
    var k := Consumed(s);
    assert s.inbox[0] == Emitted(s)[k];
  }

  /** The operation of a step is about an identity that has come up in the turn. */
  lemma UseStaged(s: Session, step: Step)
    requires Basics(s) && RequestsDated(s) && InboxIsRest(s) && Enabled(s, step)
    requires EventsTidy(Emitted(s), s.stages) && Unused(s)
    ensures var u := UseAction(s, step);
            u.Some? && !u.value.0.Cleared? ==> u.value.0.call.id in s.stages
  {
    hide A.Next, A.Inv, Next, IdsFromUses, After, HandleFor, NoUse;
    match step
    case Receive(handle) =>
      ReceivedBlock(s, handle);
      assert s.inbox[0] == Emitted(s)[Consumed(s)];
    case _ =>
  }

  lemma NoUseExtended(uses: seq<Use>, use: Use, call: Call)
    requires NoUse(uses, call) && (use.Cleared? || use.call != call)
    ensures NoUse(uses + [use], call)
  {
  }

  lemma UnusedUses(s: Session, step: Step, id: ProviderId)
    requires Basics(s) && RequestsDated(s) && InboxIsRest(s) && Enabled(s, step) && !step.StartTurn?
    requires EventsTidy(Emitted(s), s.stages) && Unused(s) && id !in s.stages
    ensures NoUse(Next(s, step).uses, Call(CurrentTurn(s), id))
  {
    hide Next, Enabled, UseAction, A.Inv, RequestsDated, IdsFromUses, NoneOutlives, EventsTidy, NoUse, InboxIsRest;
    UseStep(s, step);
    UseStaged(s, step);
    var u := UseAction(s, step);
    if u.Some? {
      NoUseExtended(s.uses, u.value.0, Call(CurrentTurn(s), id));
    }
  }

  lemma FreshTurn(s: Session)
    requires Shape(s) && UsesDated(s) && RequestsDated(s) && Enabled(s, StartTurn)
    ensures Unused(Next(s, StartTurn))
  {
    hide Enabled, Next;
    StartedEmpty(s);
    var n := Next(s, StartTurn);
    UseStep(s, StartTurn);
    StagesFrame(s, StartTurn);
    forall id ensures NoUse(n.uses, Call(CurrentTurn(n), id)) {
    }
  }

  lemma UnusedKept(s: Session, step: Step)
    requires Basics(s) && RequestsDated(s) && InboxIsRest(s) && UsesDated(s) && Enabled(s, step)
    requires EventsTidy(Emitted(s), s.stages) && Unused(s)
    ensures Unused(Next(s, step))
  {
    hide Next, Enabled, UseAction, A.Inv, IdsFromUses, NoneOutlives, EventsTidy, NoUse, InboxIsRest, RequestsDated,
      UsesDated;
    var n := Next(s, step);
    if step.StartTurn? {
      FreshTurn(s);
    } else {
      TurnsGrow(s, step);
      StagesFrame(s, step);
      RequestsFrame(s, step);
      StagesGrow(s, step);
      forall id | id !in n.stages ensures NoUse(n.uses, Call(CurrentTurn(n), id)) {
        UnusedUses(s, step, id);
      }
      forall t | 0 <= t < |n.requests| && n.requests[t].turn == CurrentTurn(n) ensures n.requests[t].id in n.stages {
        if t < |s.requests| {
          assert s.requests[t].id in s.stages;
        }
      }
    }
  }

  lemma StagesGrow(s: Session, step: Step)
    requires Shape(s) && Enabled(s, step) && !step.StartTurn?
    ensures forall id :: id in s.stages ==> id in Next(s, step).stages
    ensures step.Request'? ==> step.id in Next(s, step).stages
  {
    hide Next, Enabled, Shape;
    StagesFrame(s, step);
  }

  lemma EarlyUnusedKept(s: Session, step: Step)
    requires Basics(s) && RequestsDated(s) && InboxIsRest(s) && Enabled(s, step) && Disciplined(s, step)
    requires Unused(s) && OnePerCall(s.requests) && EarlyUnused(s) && EmittedAfterwards(s)
    ensures Shape(Next(s, step)) && EarlyUnused(Next(s, step))
  {
    hide Next, Enabled, UseAction, A.Inv, A.Next, A.Enabled, IdsFromUses, NoneOutlives, NoUse, InboxIsRest,
      RequestsDated,
      EmittedAfterwards, OnePerCall, Early;
    var n := Next(s, step);
    KeepsShape(s, step);
    RequestsFrame(s, step);
    UseStep(s, step);
    var u := UseAction(s, step);
    forall t | 0 <= t < |n.requests| && Early(n.ap.calls[t]) ensures NoUse(n.uses, CallOf(n.requests[t])) {
      if t < |s.requests| {
        EarlyBefore(s, step, t);
        assert CallOf(n.requests[t]) == CallOf(s.requests[t]);
        if u.Some? {
          UseOfOther(s, step, t);
          NoUseExtended(s.uses, u.value.0, CallOf(s.requests[t]));
        }
      } else {
        assert u.None?  by { RequestUses(s, step); }
      }
    }
  }

  lemma RequestUses(s: Session, step: Step)
    ensures step.Request'? ==> UseAction(s, step).None?
  {
  }

  /** No step uses the call of another request that has yet to be named. */
  lemma UseOfOther(s: Session, step: Step, t: nat)
    requires Shape(s) && InboxIsRest(s) && Enabled(s, step) && UseAction(s, step).Some?
    requires OnePerCall(s.requests) && EmittedAfterwards(s)
    requires t < |s.requests| && Early(s.ap.calls[t]) && !(step.NameCall? && step.t == t)
    ensures var use := UseAction(s, step).value.0; use.Cleared? || use.call != CallOf(s.requests[t])
  {
    hide A.Next, Next, After, HandleFor;
    match step
    case Receive(handle) =>
      ReceivedBlock(s, handle);
      assert s.inbox[0] == Emitted(s)[Consumed(s)];
    case NameCall(t', handle) =>
      assert CallOf(s.requests[t']) != CallOf(s.requests[t]);
    case _ =>
  }

  lemma EmittedAfterwardsKept(s: Session, step: Step)
    requires Shape(s) && Enabled(s, step) && Shape(Next(s, step)) && Disciplined(s, step)
    requires EventsTidy(Emitted(s), s.stages) && Unused(s) && EmittedAfterwards(s)
    ensures EmittedAfterwards(Next(s, step))
  {
    hide Next, Enabled, Emitted, RequestsOver, NoUse, Shape;
    var n := Next(s, step);
    ShapeRequests(s);
    ShapeRequests(n);
    TurnsGrow(s, step);
    if step.StartTurn? {
      StartedEmpty(s);
    } else {
      if step.Emit? {
        EmitGrows(s, step.event);
      }
      forall k | 0 <= k < |Emitted(n)| && ToolId(Emitted(n)[k]).Some?
        ensures RequestsOver(n, Call(CurrentTurn(n), ToolId(Emitted(n)[k]).value))
      {
        if k < |Emitted(s)| {
          assert Emitted(n)[k] == Emitted(s)[k];
        } else {
          EmissionOver(s, step.event);
        }
        RequestsOverKept(s, step, Call(CurrentTurn(s), ToolId(Emitted(n)[k]).value));
      }
    }
  }

  lemma ShapeRequests(s: Session)
    requires Shape(s)
    ensures |s.requests| == |s.ap.calls|
  {
  }

  lemma EmissionOver(s: Session, event: AgentEvent)
    requires Shape(s) && Disciplined(s, Emit(event)) && Unused(s) && ToolId(event).Some?
    ensures RequestsOver(s, Call(CurrentTurn(s), ToolId(event).value))
  {
  }

  lemma SeparatedKept(s: Session, step: Step)
    requires Basics(s) && InboxIsRest(s) && Enabled(s, step)
    requires EventsTidy(Emitted(s), s.stages) && Blocks(s) && FinishedTaken(s) && EarlyUnused(s) && Separated(s.uses)
    ensures Separated(Next(s, step).uses)
  {
    hide Next, A.Inv, A.Next, IdsFromUses, NoneOutlives, NoUse, EventsTidy, Fits, Separated, FinishedTaken, Blocks;
    UseStep(s, step);
    var u := UseAction(s, step);
    if u.Some? {
      if step.Receive? {
        ReceivedFits(s, step.handle);
      } else {
        OthersFit(s, step);
      }
      SeparatedExtends(s.uses, u.value.0);
    }
  }

  lemma OthersFit(s: Session, step: Step)
    requires Shape(s) && Enabled(s, step) && EarlyUnused(s) && UseAction(s, step).Some? && !step.Receive?
    ensures Fits(s.uses, UseAction(s, step).value.0)
  {
    hide A.Next, LastUse;
  }

  lemma ReceivedFits(s: Session, handle: Handle)
    requires Shape(s) && InboxIsRest(s) && Enabled(s, Receive(handle)) && UseAction(s, Receive(handle)).Some?
    requires EventsTidy(Emitted(s), s.stages) && Blocks(s) && FinishedTaken(s)
    ensures Fits(s.uses, UseAction(s, Receive(handle)).value.0)
  {
    hide A.Next, LastUse, UseAction, HasResult;
    var use, k := UseAction(s, Receive(handle)).value.0, Consumed(s);
    ReceivedBlock(s, handle);
    assert s.inbox[0] == Emitted(s)[k];
    var id := use.call.id;
    NotFinishedYet(Emitted(s), s.stages, k, id);
    LastUseSince(s.uses, s.useBase, |s.uses|, id);
    var last := LastUse(s.uses, |s.uses|, id);
    if last.Some? {
      assert s.uses[last.value].call == use.call;
      assert !s.uses[last.value].Finished?;
    }
  }

  lemma NotFinishedYet(events: seq<AgentEvent>, stages: map<ProviderId, Stage>, k: int, id: ProviderId)
    requires EventsTidy(events, stages) && 0 <= k < |events| && ToolId(events[k]) == Some(id)
    ensures !HasResult(events, k, id)
  {
  }

  // ---------------------------------------------------------------- whole sessions

  lemma KeepsTidy(s: Session, step: Step)
    requires Inv(s) && Tidy(s) && Enabled(s, step) && Disciplined(s, step)
    ensures Shape(Next(s, step)) && Tidy(Next(s, step))
  {
    hide Next, Enabled, A.Inv, IdsFromUses, NoneOutlives, Located, Memory, Conserved, Flushed, HeldAfterCauses, Idle,
      OnTheWay,
      SentAfterCauses, InOrder, IsMapped, EndsWithTurn, RequestsDated, InboxIsRest, EventsTidy, UsesDated, Blocks,
      FinishedTaken, Unused, OnePerCall,
      EarlyUnused, EmittedAfterwards, Separated, Shape, Disciplined;
    KeepsShape(s, step);
    EventsTidyKept(s, step);
    UsesDatedKept(s, step);
    BlocksKept(s, step);
    FinishedTakenKept(s, step);
    UnusedKept(s, step);
    OnePerCallKept(s, step);
    EarlyUnusedKept(s, step);
    EmittedAfterwardsKept(s, step);
    SeparatedKept(s, step);
  }

  /** New handles are fresh. */
  ghost predicate FreshHandle(s: Session, step: Step)
    requires Shape(s)
  {
    var u := UseAction(s, step);
    u.Some? && !u.value.0.Cleared? ==>
      forall i :: 0 <= i < |s.uses| && !s.uses[i].Cleared? ==> s.supply[i] != u.value.1
  }

  ghost predicate Fresh'(s: Session)
    requires Shape(s)
  {
    Distinct(s.uses, s.supply)
  }

  lemma FreshKept(s: Session, step: Step)
    requires Shape(s) && Enabled(s, step) && Fresh'(s) && FreshHandle(s, step)
    ensures Shape(Next(s, step)) && Fresh'(Next(s, step))
  {
    hide Next, Enabled, UseAction;
    KeepsShape(s, step);
    UseStep(s, step);
  }

  /** A session whose core keeps its discipline and whose handles are fresh. */
  ghost predicate OrderlyRun(s: Session, steps: seq<Step>, end: Session)
    decreases |steps|
  {
    if steps == [] then end == s
    else
      && Enabled(s, steps[0]) && Shape(s) && Disciplined(s, steps[0]) && FreshHandle(s, steps[0])
      && OrderlyRun(Next(s, steps[0]), steps[1..], end)
  }

  ghost predicate OrderlySession(registered: set<Tool>, messages: seq<Message>, steps: seq<Step>, end: Session) {
    OrderlyRun(Init(registered, messages), steps, end)
  }

  lemma {:induction false} OrderlyRunKeeps(s: Session, steps: seq<Step>, end: Session)
    requires Inv(s) && Shape(s) && Tidy(s) && Fresh'(s) && OrderlyRun(s, steps, end)
    ensures Inv(end) && Shape(end) && Tidy(end) && Fresh'(end)
    decreases |steps|
  {
    hide Inv, Shape, Tidy, Fresh', Next, Enabled, Disciplined, FreshHandle;
    if steps != [] {
      KeepsInv(s, steps[0]);
      KeepsTidy(s, steps[0]);
      FreshKept(s, steps[0]);
      OrderlyRunKeeps(Next(s, steps[0]), steps[1..], end);
    }
  }

  lemma InitTidy(registered: set<Tool>, messages: seq<Message>)
    ensures var s := Init(registered, messages); Shape(s) && Tidy(s) && Fresh'(s)
  {
  }

  lemma OrderlyInv(registered: set<Tool>, messages: seq<Message>, steps: seq<Step>, end: Session)
    requires OrderlySession(registered, messages, steps, end)
    ensures Inv(end) && Shape(end) && Tidy(end) && Fresh'(end)
  {
    hide Inv, Shape, Tidy, Fresh', Init;
    InitInv(registered, messages);
    InitTidy(registered, messages);
    OrderlyRunKeeps(Init(registered, messages), steps, end);
  }

  /**
   * Over whole sessions, for every lag between the agent's naming of a call and the coordinator's
   * mapping of its events, and across cancels: two uses of the mapper yield the same handle exactly
   * when they are about the same call.
   */
  lemma CallsKeepTheirHandles(registered: set<Tool>, messages: seq<Message>, steps: seq<Step>, end: Session)
    requires OrderlySession(registered, messages, steps, end)
    ensures |end.uses| == |end.supply| && Correlated(end.uses, end.supply)
  {
    hide Inv, Correlated, Distinct, Separated, EventsTidy, UsesDated, Blocks, FinishedTaken, Unused, OnePerCall,
      EarlyUnused,
      EmittedAfterwards;
    OrderlyInv(registered, messages, steps, end);
    CorrelatedExactlyWhenSeparated(end.uses, end.supply);
  }

  // ---------------------------------------------------------------- without the core's discipline

  ghost predicate FreshRun(s: Session, steps: seq<Step>, end: Session)
    decreases |steps|
  {
    if steps == [] then end == s
    else Enabled(s, steps[0]) && Shape(s) && FreshHandle(s, steps[0]) && FreshRun(Next(s, steps[0]), steps[1..], end)
  }

  lemma {:induction false} FreshRunKeeps(s: Session, steps: seq<Step>, end: Session)
    requires Shape(s) && Fresh'(s) && FreshRun(s, steps, end)
    ensures Shape(end) && Fresh'(end)
    decreases |steps|
  {
    hide Shape, Fresh', Next, Enabled, FreshHandle;
    if steps != [] {
      FreshKept(s, steps[0]);
      FreshRunKeeps(Next(s, steps[0]), steps[1..], end);
    }
  }

  lemma {:induction false} RunKeepsUses(s: Session, steps: seq<Step>, end: Session)
    requires Shape(s) && Run(s, steps, end)
    ensures Shape(end) && s.uses <= end.uses && s.supply <= end.supply
    decreases |steps|
  {
    hide Shape, Next, Enabled, UseAction;
    if steps != [] {
      KeepsShape(s, steps[0]);
      UseStep(s, steps[0]);
      RunKeepsUses(Next(s, steps[0]), steps[1..], end);
    }
  }

  /** New handles have been fresh all along if they are distinct in the end. */
  lemma {:induction false} DistinctIsFresh(s: Session, steps: seq<Step>, end: Session)
    requires Shape(s) && Run(s, steps, end) && |end.uses| == |end.supply| && Distinct(end.uses, end.supply)
    ensures FreshRun(s, steps, end)
    decreases |steps|
  {
    hide Next, Enabled, UseAction, Shape, FreshHandle;
    if steps != [] {
      KeepsShape(s, steps[0]);
      RunKeepsUses(Next(s, steps[0]), steps[1..], end);
      FreshAmong(s, steps[0], end);
      DistinctIsFresh(Next(s, steps[0]), steps[1..], end);
    }
  }

  lemma FreshAmong(s: Session, step: Step, end: Session)
    requires Shape(s) && Enabled(s, step) && |end.uses| == |end.supply| && Distinct(end.uses, end.supply)
    requires Next(s, step).uses <= end.uses && Next(s, step).supply <= end.supply
    ensures FreshHandle(s, step)
  {
    hide Next, Enabled, UseAction;
    UseStep(s, step);
    var u := UseAction(s, step);
    if u.Some? && !u.value.0.Cleared? {
      var k := |s.uses|;
      assert end.uses[k] == Next(s, step).uses[k] == u.value.0 && end.supply[k] == Next(s, step).supply[k] == u.value.1;
      forall i | 0 <= i < k && !s.uses[i].Cleared? ensures s.supply[i] != u.value.1 {
        assert end.uses[i] == Next(s, step).uses[i] == s.uses[i] && end.supply[i] == Next(s, step).supply[i];
      }
    }
  }

  lemma FreshSession(registered: set<Tool>, messages: seq<Message>, steps: seq<Step>, end: Session)
    requires FreshRun(Init(registered, messages), steps, end)
    ensures Shape(end) && |end.uses| == |end.supply| && Distinct(end.uses, end.supply)
  {
    hide Distinct, Init, Shape;
    InitFresh(registered, messages);
    FreshRunKeeps(Init(registered, messages), steps, end);
    ShapeLengths(end);
  }

  /**
   * In any session whose handles are fresh, whatever the core does, and whichever operation of the mapper
   * is attributed to which invocation of a tool: one handle per invocation and one invocation per handle
   * exactly when the invocations have taken turns on their identities.
   */
  lemma CallsKeepTheirHandlesExactly(registered: set<Tool>, messages: seq<Message>, steps: seq<Step>, end: Session,
                                     calls: seq<Use>)
    requires FreshRun(Init(registered, messages), steps, end) && Attributes(calls, end.uses)
    ensures |calls| == |end.uses| == |end.supply|
    ensures forall i: nat | i < |end.uses| && !end.uses[i].Cleared? ::
              !calls[i].Cleared? && HandleAt(calls, end.supply, i) == HandleAt(end.uses, end.supply, i)
    ensures Correlated(calls, end.supply) <==> Separated(calls)
  {
    hide Correlated, Distinct, Separated, Init, Shape, HandleAt, Attributes;
    FreshSession(registered, messages, steps, end);
    AttributesLength(calls, end.uses);
    forall i: nat | i < |end.uses| && !end.uses[i].Cleared?
      ensures !calls[i].Cleared? && HandleAt(calls, end.supply, i) == HandleAt(end.uses, end.supply, i)
    {
      HandlesIgnoreSerials(calls, end.uses, end.supply, i);
    }
    DistinctIgnoresSerials(calls, end.uses, end.supply);
    CorrelatedExactlyWhenSeparated(calls, end.supply);
  }

  lemma AttributesLength(calls: seq<Use>, uses: seq<Use>)
    requires Attributes(calls, uses)
    ensures |calls| == |uses|
  {
  }

  lemma InitFresh(registered: set<Tool>, messages: seq<Message>)
    ensures Shape(Init(registered, messages)) && Fresh'(Init(registered, messages))
  {
  }
}
