/**
 * Approval comes first: with a peer that only answers what it has been shown, and a core that waits for
 * its answers, a call's request is out before anything else of the call.
 */
module WorkerPrecedence {
  import opened Text
  import opened Protocol
  import opened CallIds
  import opened Worker
  import opened WorkerInvariants
  import opened WorkerChannels
  import opened WorkerRequests
  import opened WorkerOrder
  import opened WorkerRuns
  import opened WorkerProgress
  import opened WorkerCalls
  import opened WorkerHandles
  import A = Approval

  // ---------------------------------------------------------------- what peer and core keep to

  predicate ShowsHandle(item: Item, handle: Handle) {
    item.Ask? && HandleNamed(item.event) == handle
  }

  /** A decision names a handle that the peer has been shown in a request. */
  ghost predicate PeerAware(s: Session, step: Step) {
    step.Command? && step.command.Approve? ==>
      exists i :: 0 <= i < |s.sent| && ShowsHandle(s.sent[i], step.command.callId)
  }

  ghost predicate RequestsReturned(s: Session, call: Call)
    requires |s.requests| == |s.ap.calls|
  {
    forall t :: 0 <= t < |s.requests| && CallOf(s.requests[t]) == call ==> s.ap.calls[t].phase.Returned?
  }

  /** The core goes on with a call only when `approve` has returned. */
  ghost predicate Patient(s: Session, step: Step)
    requires Shape(s)
  {
    step.Emit? && ToolId(step.event).Some? ==> RequestsReturned(s, Call(CurrentTurn(s), ToolId(step.event).value))
  }

  // ---------------------------------------------------------------- what that keeps

  /** Whoever has an answer was asked for in the open. */
  ghost predicate AnsweredShown(s: Session) {
    forall t :: 0 <= t < |s.ap.calls| && s.ap.calls[t].reply.Delivered? ==> t in AskTokens(s.sent)
  }

  predicate OfActiveTurn(s: Session, t: nat) {
    InTheLoop(s) && s.active && t < |s.requests| && t < |s.ap.calls| && s.requests[t].turn == CurrentTurn(s)
  }

  /** In an active turn only an abandoned request loses its reply. */
  ghost predicate LostIsLeaving(s: Session) {
    forall t: nat :: OfActiveTurn(s, t) && s.ap.calls[t].reply.Lost? ==>
             s.ap.calls[t].phase.Closing? || s.ap.calls[t].phase.Dropped?
  }

  /** Where `approve` has returned, the request is out, or will never be. */
  ghost predicate ReturnedSettled(s: Session) {
    forall t: nat :: OfActiveTurn(s, t) && s.ap.calls[t].phase.Returned? ==> t in AskTokens(s.sent) || t !in Tokens(s)
  }

  /** The check found the request's tool on the allow list, so nobody was asked. */
  ghost predicate WasAllowed(log: seq<A.Fact>, t: nat) {
    exists k :: 0 <= k < |log| && log[k].Hit? && log[k].token == t
  }

  /** Where `approve` has returned, the tool was on the allow list, or the request is out. */
  ghost predicate ReturnedAsked(s: Session) {
    forall t: nat :: OfActiveTurn(s, t) && s.ap.calls[t].phase.Returned? ==>
      WasAllowed(s.ap.log, t) || t in AskTokens(s.sent)
  }

  ghost predicate EmittedReturned(s: Session)
    requires |s.requests| == |s.ap.calls|
  {
    forall k :: 0 <= k < |Emitted(s)| && ToolId(Emitted(s)[k]).Some? ==>
      RequestsReturned(s, Call(CurrentTurn(s), ToolId(Emitted(s)[k]).value))
  }

  function Out(s: Session): seq<Item> {
    InLoop(s) + HeldItems(s.held)
  }

  /** `a` belongs to the call that `b` asks about. */
  predicate SameCall(a: Item, b: Item, turns: seq<Turn>, requests: seq<Request>) {
    a.Core? && b.Ask? && CallNamed(a, turns, requests).Some?
      && CallNamed(a, turns, requests) == CallNamed(b, turns, requests)
  }

  ghost predicate AskFirst(items: seq<Item>, turns: seq<Turn>, requests: seq<Request>) {
    forall i, j :: 0 <= i < j < |items| ==> !SameCall(items[i], items[j], turns, requests)
  }

  /** The item is the start or the result of the call that request `t` asks about. */
  predicate BelongsTo(item: Item, t: nat, turns: seq<Turn>, requests: seq<Request>) {
    item.Core? && t < |requests| && CallNamed(item, turns, requests) == Some(CallOf(requests[t]))
  }

  ghost predicate AskedBefore(s: Session, items: seq<Item>) {
    forall i: nat, t: nat | i < |items| && BelongsTo(items[i], t, s.turns, s.requests) ::
      WasAllowed(s.ap.log, t) || t in AskTokens(items[..i])
  }

  ghost predicate Courteous(s: Session)
    requires |s.requests| == |s.ap.calls|
  {
    && AnsweredShown(s) && LostIsLeaving(s) && ReturnedSettled(s) && ReturnedAsked(s) && EmittedReturned(s)
    && AskFirst(Out(s), s.turns, s.requests) && AskedBefore(s, Out(s))
  }

  // ---------------------------------------------------------------- answers

  lemma {:induction false} AskTokensMembers(items: seq<Item>, t: nat)
    ensures t in AskTokens(items) <==> exists i :: 0 <= i < |items| && items[i].Ask? && items[i].token == t
    decreases |items|
  {
    if items != [] {
      var front, last := items[..|items| - 1], items[|items| - 1];
      AskTokensMembers(front, t);
      assert items == front + [last];
    }
  }

  lemma TokensStay(s: Session, step: Step, t: nat)
    requires Shape(s) && Enabled(s, step) && t in AskTokens(s.sent)
    ensures t in AskTokens(Next(s, step).sent)
  {
    hide Next, Enabled, Shape;
    SentGrowsAlways(s, step);
    AskTokensPrefix(s.sent, Next(s, step).sent);
  }

  /** The entry a decision finds is that of a request the peer was shown. */
  lemma EntryWasShown(s: Session, handle: Handle, i: nat)
    requires Inv(s) && Shape(s) && Fresh'(s) && Linked(s)
    requires s.phase.Looping? && handle in s.ap.pending && i < |s.sent| && ShowsHandle(s.sent[i], handle)
    ensures s.ap.pending[handle].token in AskTokens(s.sent)
  {
    hide Stream, Located, Memory, Linked, Distinct, Carries, Shape, IdsFromUses, NoneOutlives, HandleNamed,
      A.OpenBefore, A.TableByLog, A.AllowedExact, A.RepliesGranted, A.AnswersLogged, A.FailClosed, A.ToolsOwn;
    var item := s.sent[i];
    assert InLoop(s) == s.sent && item in InLoop(s);
    AskCarried(s, item);
    HandlesNameOneRequest(s, s.ap.pending[handle].token, item.token, item.use, item.event);
    AskTokensMembers(s.sent, item.token);
  }

  lemma ReplyAction(st: A.State, a: A.Action, t: nat)
    requires A.Enabled(st, a) && A.TableExact(st) && t < |A.Next(st, a).calls|
    ensures var n := A.Next(st, a).calls[t];
            && (n.reply.Delivered? ==>
                 || (t < |st.calls| && st.calls[t].reply.Delivered?)
                 || (a.Resolve? && a.handle in st.pending && st.pending[a.handle].token == t))
            && (n.reply.Lost? ==>
                 || (t < |st.calls| && st.calls[t].reply.Lost?)
                 || a.CancelPending?
                 || (t < |st.calls| && n.phase.Closing?))
            && (t < |st.calls| && (st.calls[t].Over()) ==> n.phase == st.calls[t].phase)
            && (t < |st.calls| && st.calls[t].phase.Closing? ==> n.phase.Closing? || n.phase.Dropped?)
            && (t >= |st.calls| ==> n.phase.Begun? && n.reply.Open?)
  {
  }

  lemma AnsweredShownKept(s: Session, step: Step)
    requires Inv(s) && Shape(s) && Fresh'(s) && Linked(s) && AnsweredShown(s)
    requires Enabled(s, step) && PeerAware(s, step)
    ensures AnsweredShown(Next(s, step))
  {
    hide Stream, Located, Memory, Fresh', Linked, Next, Shape, A.TableExact, A.TableByLog, A.AllowedExact,
      A.RepliesGranted,
      A.OpenBefore, A.FailClosed, A.AnswersLogged, A.Next, A.Enabled, IdsFromUses, NoneOutlives;
    var n := Next(s, step);
    ApStep(s, step);
    var a := ApAction(s, step);
    forall t | 0 <= t < |n.ap.calls| && n.ap.calls[t].reply.Delivered? ensures t in AskTokens(n.sent) {
      if a.Some? {
        ReplyAction(s.ap, a.value, t);
        if t >= |s.ap.calls| || !s.ap.calls[t].reply.Delivered? {
          ResolveIsApprove(s, step);
          var i :| 0 <= i < |s.sent| && ShowsHandle(s.sent[i], step.command.callId);
          EntryWasShown(s, step.command.callId, i);
        }
      }
      TokensStay(s, step, t);
    }
  }

  lemma ResolveIsApprove(s: Session, step: Step)
    requires Enabled(s, step) && ApAction(s, step).Some? && ApAction(s, step).value.Resolve?
    ensures s.phase.Looping? && step.Command? && step.command.Approve?
      && step.command.callId == ApAction(s, step).value.handle
  {
    hide A.Enabled;
  }

  // ---------------------------------------------------------------- returns

  /** Within an active turn the agent task's requests stay its own. */
  lemma ActiveBefore(s: Session, step: Step, t: nat)
    requires Basics(s) && RequestsDated(s) && Enabled(s, step) && OfActiveTurn(Next(s, step), t)
    ensures !step.StartTurn? && InTheLoop(s) && s.active && CurrentTurn(Next(s, step)) == CurrentTurn(s)
    ensures t < |s.requests| ==> OfActiveTurn(s, t)
    ensures var a := ApAction(s, step); a.Some? ==> !a.value.CancelPending?
  {
    hide Next, Enabled, A.Inv, IdsFromUses, NoneOutlives, UseAction;
    TurnsGrow(s, step);
    RequestsFrame(s, step);
    if step.StartTurn? {
      StartedEmpty(s);
    } else {
      BlockFrame(s, step);
      CancelUses(s, step);
    }
  }

  lemma CancelUses(s: Session, step: Step)
    requires Enabled(s, step)
    ensures var a, u := ApAction(s, step), UseAction(s, step);
            a.Some? && a.value.CancelPending? ==> u.Some? && u.value.0.Cleared?
  {
    hide A.Enabled;
  }

  lemma LostIsLeavingKept(s: Session, step: Step)
    requires Basics(s) && RequestsDated(s) && LostIsLeaving(s) && Enabled(s, step)
    ensures LostIsLeaving(Next(s, step))
  {
    hide Next, Enabled, A.TableExact, A.TableByLog, A.AllowedExact, A.RepliesGranted, RequestsDated,
      A.OpenBefore, A.FailClosed, A.AnswersLogged, A.Next, A.Enabled, IdsFromUses, NoneOutlives;
    var n := Next(s, step);
    ApStep(s, step);
    var a := ApAction(s, step);
    forall t: nat | t < |n.ap.calls| && OfActiveTurn(n, t) && n.ap.calls[t].reply.Lost?
      ensures n.ap.calls[t].phase.Closing? || n.ap.calls[t].phase.Dropped?
    {
      ActiveBefore(s, step, t);
      if a.Some? {
        ReplyAction(s.ap, a.value, t);
      }
    }
  }

  lemma TokensBefore(s: Session, step: Step, t: nat)
    requires Inv(s) && Enabled(s, step) && InTheLoop(Next(s, step)) && t in Tokens(Next(s, step))
    ensures t in Tokens(s) || (step.Approving? && step.action == A.Notify(t) && t < |s.ap.calls|
              && s.ap.calls[t].phase.Registered?)
  {
    hide Next, Enabled, A.Inv, IdsFromUses, NoneOutlives, Stream, Memory, AllAnnounced, AllPresent, NoDuplicates,
      Tokens, Shape;
    InvShape(s);
    LoopBefore(s, step);
    if Outside(step) {
      TokensOutside(s, step);
      NotifyRegistered(s, step);
    } else if step.Permit? || step.TakeNotice? || step.Receive? || step.BarrierEmpty? || step.StartTurn? {
      TokensMoved(s, step);
    } else if step.Command? {
      CommandPolls(s, step.command);
      CommandTokens(s, step.command);
    } else {
      LoopSteps(s, step);
      DroppedTokens(s, step);
    }
  }

  lemma NotifyRegistered(s: Session, step: Step)
    requires Enabled(s, step)
    ensures step.Approving? && step.action.Notify? ==>
              step.action.t < |s.ap.calls| && s.ap.calls[step.action.t].phase.Registered?
  {
  }

  lemma CommandPolls(s: Session, command: DaemonCommand)
    requires Enabled(s, Command(command))
    ensures Polls(s) && Next(s, Command(command)) == OnCommand(s, command)
  {
  }

  lemma LoopSteps(s: Session, step: Step)
    requires Enabled(s, step) && InTheLoop(Next(s, step)) && !Outside(step) && !step.Command?
    ensures step.Permit? || step.TakeNotice? || step.Receive? || step.BarrierEmpty? || step.StartTurn?
         || step.FinishTurn? || step.Settle? || step.BarrierGone?
  {
  }

  /** `approve` returns at the check, at the table, or with its reply. */
  lemma ReturnSteps(st: A.State, a: A.Action, t: nat)
    requires A.Enabled(st, a) && t < |st.calls| && t < |A.Next(st, a).calls|
    requires A.Next(st, a).calls[t].phase.Returned? && !st.calls[t].phase.Returned?
    ensures ((a == A.Undeliverable(t) || a == A.Wake(t)) && (a.Wake? ==>
              st.calls[t].phase.Waiting? && !st.calls[t].reply.Open?))
         || ((a == A.Check(t) || a == A.Register(t)) && !A.Announced(st.calls[t]))
  {
  }

  lemma UndeliverableOnlyAfterwards(s: Session, step: Step)
    requires Enabled(s, step) && InTheLoop(s)
    ensures var a := ApAction(s, step); a.Some? ==> !a.value.Undeliverable?
    ensures var a := ApAction(s, step); a.Some? && (a.value.Check? || a.value.Register?) ==> step == Approving(a.value)
  {
    hide A.Enabled;
  }

  lemma ReturningSettles(s: Session, step: Step, t: nat)
    requires Inv(s) && Shape(s) && Enabled(s, step) && AnsweredShown(s) && LostIsLeaving(s)
    requires OfActiveTurn(Next(s, step), t) && Next(s, step).ap.calls[t].phase.Returned?
    requires t < |s.requests| && OfActiveTurn(s, t) && !s.ap.calls[t].phase.Returned?
    ensures t in AskTokens(s.sent) || t !in Tokens(Next(s, step))
  {
    hide Stream, Memory, Basics, Next, Enabled, Tokens, A.Next, A.Enabled, A.Announced, Shape;
    ApStep(s, step);
    UndeliverableOnlyAfterwards(s, step);
    var a := ApAction(s, step);
    if a.Some? {
      ReturnSteps(s.ap, a.value, t);
      if a.value.Check? || a.value.Register? {
        if t in Tokens(Next(s, step)) {
          TokensBefore(s, step, t);
        }
      }
    }
  }

  lemma ReturnedSettledKept(s: Session, step: Step)
    requires Inv(s) && Shape(s) && Enabled(s, step) && AnsweredShown(s) && LostIsLeaving(s) && ReturnedSettled(s)
    ensures ReturnedSettled(Next(s, step))
  {
    hide Located, Memory, Next, Enabled, Tokens, A.Next, A.Enabled, AnsweredShown, LostIsLeaving,
      RequestsDated, A.Inv, IdsFromUses, NoneOutlives, Shape, Idle, Conserved, Flushed, Ordered, OnTheWay,
      SentAfterCauses, HeldAfterCauses;
    var n := Next(s, step);
    forall t: nat | t < |n.ap.calls| && OfActiveTurn(n, t) && n.ap.calls[t].phase.Returned?
      ensures t in AskTokens(n.sent) || t !in Tokens(n)
    {
      ActiveBefore(s, step, t);
      ShapeRequests(s);
      if t >= |s.requests| {
        NewCallBegins(s, step, t);
      } else {
        if s.ap.calls[t].phase.Returned? {
          if t !in AskTokens(s.sent) {
            StillUnannounced(s, step, t);
          }
        } else {
          ReturningSettles(s, step, t);
        }
        if t in AskTokens(s.sent) {
          TokensStay(s, step, t);
        }
      }
    }
  }

  lemma StillUnannounced(s: Session, step: Step, t: nat)
    requires Inv(s) && Shape(s) && Enabled(s, step) && OfActiveTurn(Next(s, step), t)
    requires t < |s.ap.calls| && s.ap.calls[t].phase.Returned? && t !in Tokens(s)
    ensures t !in Tokens(Next(s, step))
  {
    hide Inv, Next, Enabled, Tokens, Shape;
    if t in Tokens(Next(s, step)) {
      TokensBefore(s, step, t);
    }
  }

  lemma WasAllowedLater(s: Session, step: Step, t: nat)
    requires Shape(s) && Enabled(s, step) && WasAllowed(s.ap.log, t)
    ensures WasAllowed(Next(s, step).ap.log, t)
  {
    hide Next, Enabled, Shape, A.Next, A.Enabled;
    ApStep(s, step);
    var a := ApAction(s, step);
    if a.Some? {
      LogGrows(s.ap, a.value);
    }
    var k :| 0 <= k < |s.ap.log| && s.ap.log[k].Hit? && s.ap.log[k].token == t;
    assert Next(s, step).ap.log[k] == s.ap.log[k];
  }

  lemma LogGrows(st: A.State, a: A.Action)
    requires A.Enabled(st, a)
    ensures st.log <= A.Next(st, a).log
  {
  }

  /** With fresh handles nobody finds its handle taken. */
  lemma RegisterFindsVacant(s: Session, t: nat)
    requires Inv(s) && Shape(s) && Fresh'(s) && Linked(s) && t < |s.ap.calls| && s.ap.calls[t].phase.Named?
    ensures s.ap.calls[t].phase.handle !in s.ap.pending
  {
    hide Stream, Located, Memory, IdsFromUses, NoneOutlives, AsksLinked, CoreLinked, Carries,
      A.OpenBefore, A.TableByLog, A.AllowedExact, A.RepliesGranted, A.AnswersLogged, A.FailClosed, A.ToolsOwn;
    var handle := s.ap.calls[t].phase.handle;
    if handle in s.ap.pending {
      OneHolder(s, t, s.ap.pending[handle].token);
    }
  }

  lemma ReturnActions(st: A.State, a: A.Action, t: nat)
    requires A.Enabled(st, a) && t < |st.calls| && t < |A.Next(st, a).calls|
    requires A.Next(st, a).calls[t].phase.Returned? && !st.calls[t].phase.Returned?
    requires a.Register? ==> st.calls[a.t].phase.handle !in st.pending
    ensures a == A.Undeliverable(t) || WasAllowed(A.Next(st, a).log, t)
         || (a == A.Wake(t) && st.calls[t].phase.Waiting? && !st.calls[t].reply.Open?)
  {
    if a.Check? {
      var log := A.Next(st, a).log;
      assert log[|st.log|] == A.Hit(t, st.calls[t].tool);
    }
  }

  lemma ReturningAsks(s: Session, step: Step, t: nat)
    requires Inv(s) && Shape(s) && Fresh'(s) && Linked(s) && Enabled(s, step) && AnsweredShown(s) && LostIsLeaving(s)
    requires OfActiveTurn(s, t) && !s.ap.calls[t].phase.Returned?
    requires OfActiveTurn(Next(s, step), t) && Next(s, step).ap.calls[t].phase.Returned?
    ensures WasAllowed(Next(s, step).ap.log, t) || t in AskTokens(s.sent)
  {
    hide Inv, Fresh', Linked, Shape, Next, Enabled, A.Next, WasAllowed;
    ApStep(s, step);
    UndeliverableOnlyAfterwards(s, step);
    var a := ApAction(s, step);
    if a.Some? {
      if a.value.Register? {
        RegisterFindsVacant(s, a.value.t);
      }
      ReturnActions(s.ap, a.value, t);
    }
  }

  lemma ReturnedAskedKept(s: Session, step: Step)
    requires Inv(s) && Shape(s) && Fresh'(s) && Linked(s) && Enabled(s, step)
    requires AnsweredShown(s) && LostIsLeaving(s) && ReturnedAsked(s)
    ensures ReturnedAsked(Next(s, step))
  {
    hide Located, Memory, Next, Enabled, A.Next, A.Enabled, AnsweredShown, LostIsLeaving, WasAllowed, Fresh', Linked,
      RequestsDated, A.Inv, IdsFromUses, NoneOutlives, Shape, Idle, Conserved, Flushed, Ordered, OnTheWay,
      SentAfterCauses, HeldAfterCauses;
    var n := Next(s, step);
    forall t: nat | OfActiveTurn(n, t) && n.ap.calls[t].phase.Returned?
      ensures WasAllowed(n.ap.log, t) || t in AskTokens(n.sent)
    {
      ActiveBefore(s, step, t);
      ShapeRequests(s);
      if t >= |s.requests| {
        NewCallBegins(s, step, t);
      } else {
        if !s.ap.calls[t].phase.Returned? {
          ReturningAsks(s, step, t);
        } else if WasAllowed(s.ap.log, t) {
          WasAllowedLater(s, step, t);
        }
        if t in AskTokens(s.sent) {
          TokensStay(s, step, t);
        }
      }
    }
  }

  // ---------------------------------------------------------------- events

  lemma RequestsReturnedKept(s: Session, step: Step, call: Call)
    requires Basics(s) && Enabled(s, step) && Shape(Next(s, step)) && RequestsReturned(s, call)
    requires step.Request'? ==> call != Call(CurrentTurn(s), step.id)
    ensures RequestsReturned(Next(s, step), call)
  {
    hide A.Next, A.Enabled, Next, Enabled, A.TableExact, A.TableByLog, A.AllowedExact, A.RepliesGranted,
      A.OpenBefore, A.FailClosed, A.AnswersLogged, IdsFromUses, NoneOutlives;
    var n := Next(s, step);
    RequestsFrame(s, step);
    ApStep(s, step);
    var a := ApAction(s, step);
    forall t | 0 <= t < |n.requests| && CallOf(n.requests[t]) == call ensures n.ap.calls[t].phase.Returned? {
      if t < |s.requests| && a.Some? {
        ReplyAction(s.ap, a.value, t);
      }
    }
  }

  lemma EmittedReturnedKept(s: Session, step: Step)
    requires Basics(s) && Enabled(s, step) && Disciplined(s, step) && Patient(s, step)
    requires EventsTidy(Emitted(s), s.stages) && EmittedReturned(s)
    ensures Shape(Next(s, step)) && EmittedReturned(Next(s, step))
  {
    hide Next, Enabled, Emitted, RequestsReturned, A.Inv, IdsFromUses, NoneOutlives;
    var n := Next(s, step);
    KeepsShape(s, step);
    TurnsGrow(s, step);
    if step.StartTurn? {
      StartedEmpty(s);
    } else {
      if step.Emit? {
        EmitGrows(s, step.event);
      }
      forall k | 0 <= k < |Emitted(n)| && ToolId(Emitted(n)[k]).Some?
        ensures RequestsReturned(n, Call(CurrentTurn(n), ToolId(Emitted(n)[k]).value))
      {
        if k < |Emitted(s)| {
          assert Emitted(n)[k] == Emitted(s)[k];
        }
        RequestsReturnedKept(s, step, Call(CurrentTurn(s), ToolId(Emitted(n)[k]).value));
      }
    }
  }

  // ---------------------------------------------------------------- what is out

  lemma CallNamedKept(s: Session, step: Step, item: Item)
    requires Shape(s) && Enabled(s, step)
    requires (item.Core? && IsMapped(item, s.turns)) || (item.Ask? && item.token < |s.requests|)
    ensures CallNamed(item, Next(s, step).turns, Next(s, step).requests) == CallNamed(item, s.turns, s.requests)
  {
    hide Next, Enabled, MapAgentEvent, ToolId;
    TurnsGrow(s, step);
    RequestsFrame(s, step);
    if item.Core? {
      assert s.turns[item.turn].events <= Next(s, step).turns[item.turn].events;
    }
  }

  /** What is out or held is mapped, or a request that was made. */
  lemma OutIsKnown(s: Session, item: Item)
    requires Inv(s) && Shape(s) && Linked(s) && item in Out(s)
    ensures (item.Core? && IsMapped(item, s.turns)) || (item.Ask? && item.token < |s.requests|)
  {
    hide Located, Memory, Basics, Causal, HeldAfterCauses, Idle, CoreLinked, RequestsLinked, Ordinary, A.Inv, Carries,
      InOrder,
      IsMapped, EndsWithTurn, InboxIsRest, Flushed, Shape;
    if item.Core? {
      OrdinaryMembers(InLoop(s), item);
      OrdinaryHeld(s.held);
      assert item in s.received;
    } else if item.Ask? {
      AskCarried(s, item);
      assert AskLinked(s, item.token, item.use, HandleNamed(item.event));
    }
  }

  lemma OutFrame(s: Session, step: Step)
    requires Shape(s) && Enabled(s, step)
    ensures var n := Next(s, step);
            if step.Receive? then |Out(n)| == |Out(s)| + 1 && Out(n)[..|Out(s)|] == Out(s) && Out(n)[|Out(s)|].Core?
            else if step.BarrierEmpty? then s.barrier.Some? && Out(n) == Out(s) + [MapApprovalNotice(s.barrier.value)]
            else Out(n) <= Out(s)
  {
    hide A.Next, A.Enabled, After, HandleFor, MapAgentEvent, UseOf, Staged, OnCommand, Settled, TurnFinishedWith,
      Notified, Named,
      WithEvent, TurnStarted, Shape;
    if !step.Permit? && !step.Receive? && !step.BarrierEmpty? {
      StreamFrame(s, step);
      if HoldsAsk(Next(s, step).held) {
        BarrierHolds(s, step);
      }
    }
  }

  lemma BarrierWaits(s: Session)
    requires Inv(s) && Enabled(s, BarrierEmpty)
    ensures s.barrier.Some? && OfActiveTurn(s, s.barrier.value.token) && s.barrier.value.token in Tokens(s)
    ensures s.barrier.value.token !in AskTokens(s.sent)
  {
    hide Memory, Conserved, Flushed, Ordered, SentAfterCauses, HeldAfterCauses, Idle, A.Inv, AskTokens, AllAnnounced,
      AllPresent,
      IdsFromUses, NoneOutlives;
    var t, sent := s.barrier.value.token, AskTokens(s.sent);
    AskTokensHeld(s.held);
    assert Tokens(s) == sent + [t] + NoticeTokens(s.notices);
    assert Tokens(s)[|sent|] == t;
    assert forall i :: 0 <= i < |sent| ==> Tokens(s)[i] == sent[i];
  }

  /** At an empty barrier nothing of the call has been emitted, let alone sent. */
  lemma BarrierIsFirst(s: Session, a: Item)
    requires Inv(s) && Shape(s) && ReturnedSettled(s) && EmittedReturned(s) && Enabled(s, BarrierEmpty)
    requires s.barrier.Some?
    ensures !SameCall(a, MapApprovalNotice(s.barrier.value), s.turns, s.requests)
  {
    hide Inv, Tokens, RequestsReturned;
    BarrierWaits(s);
    var t := s.barrier.value.token;
    assert !s.ap.calls[t].phase.Returned?;
    var call := CallOf(s.requests[t]);
    assert !RequestsReturned(s, call) by { NotReturned(s, t); }
  }

  lemma NotReturned(s: Session, t: nat)
    requires |s.requests| == |s.ap.calls| && t < |s.requests| && !s.ap.calls[t].phase.Returned?
    ensures !RequestsReturned(s, CallOf(s.requests[t]))
  {
  }

  lemma SameCallBefore(s: Session, step: Step, a: Item, b: Item)
    requires Inv(s) && Shape(s) && Linked(s) && Enabled(s, step) && a in Out(s) && b in Out(s)
    ensures SameCall(a, b, Next(s, step).turns, Next(s, step).requests) == SameCall(a, b, s.turns, s.requests)
  {
    hide Inv, Shape, Linked, Next, Enabled, CallNamed, Out, IsMapped;
    OutIsKnown(s, a);
    OutIsKnown(s, b);
    CallNamedKept(s, step, a);
    CallNamedKept(s, step, b);
  }

  lemma BarrierKeepsNames(s: Session, item: Item)
    requires Enabled(s, BarrierEmpty)
    ensures Next(s, BarrierEmpty).turns == s.turns && Next(s, BarrierEmpty).requests == s.requests
  {
  }

  lemma AskFirstKept(s: Session, step: Step)
    requires Inv(s) && Shape(s) && Linked(s) && Enabled(s, step) && ReturnedSettled(s) && EmittedReturned(s)
    requires AskFirst(Out(s), s.turns, s.requests)
    ensures AskFirst(Out(Next(s, step)), Next(s, step).turns, Next(s, step).requests)
  {
    hide Inv, Shape, Linked, Next, Enabled, SameCall, Out, ReturnedSettled, EmittedReturned, MapApprovalNotice;
    var n := Next(s, step);
    OutFrame(s, step);
    forall i, j | 0 <= i < j < |Out(n)| ensures !SameCall(Out(n)[i], Out(n)[j], n.turns, n.requests) {
      assert Out(n)[i] == Out(s)[i];
      if j < |Out(s)| {
        assert Out(n)[j] == Out(s)[j];
        SameCallBefore(s, step, Out(s)[i], Out(s)[j]);
      } else if step.BarrierEmpty? {
        BarrierKeepsNames(s, Out(s)[i]);
        BarrierIsFirst(s, Out(s)[i]);
      } else {
        CoreAsksNothing(Out(n)[i], Out(n)[j], n.turns, n.requests);
      }
    }
  }

  lemma CoreAsksNothing(a: Item, b: Item, turns: seq<Turn>, requests: seq<Request>)
    requires b.Core?
    ensures !SameCall(a, b, turns, requests)
  {
  }

  // ---------------------------------------------------------------- the request of what is out

  /** The core asks about no call of which something is out. */
  lemma NoRequestAfterwards(s: Session, step: Step, item: Item)
    requires Shape(s) && Disciplined(s, step) && EventsTidy(Emitted(s), s.stages) && step.Request'?
    requires item.Core? && IsMapped(item, s.turns)
    ensures CallNamed(item, s.turns, s.requests) != Some(Call(CurrentTurn(s), step.id))
  {
    hide MapAgentEvent;
    assert item.turn == CurrentTurn(s) ==> Emitted(s) == s.turns[item.turn].events;
  }

  lemma BelongsBefore(s: Session, step: Step, item: Item, t: nat)
    requires Inv(s) && Shape(s) && Linked(s) && Enabled(s, step) && Disciplined(s, step)
    requires EventsTidy(Emitted(s), s.stages) && item in Out(s)
    requires BelongsTo(item, t, Next(s, step).turns, Next(s, step).requests)
    ensures BelongsTo(item, t, s.turns, s.requests)
  {
    hide Inv, Linked, Next, Enabled, CallNamed, Out, IsMapped, Disciplined, EventsTidy, Emitted;
    OutIsKnown(s, item);
    CallNamedKept(s, step, item);
    RequestsFrame(s, step);
    if t >= |s.requests| {
      NoRequestAfterwards(s, step, item);
    }
  }

  /** What is received belongs to a call whose `approve` has returned. */
  lemma ReceivedAsked(s: Session, handle: Handle, n: Session, t: nat)
    requires Shape(s) && InboxIsRest(s) && ReturnedAsked(s) && EmittedReturned(s)
    requires Enabled(s, Receive(handle)) && n == Next(s, Receive(handle)) && |Out(n)| == |Out(s)| + 1
    requires BelongsTo(Out(n)[|Out(s)|], t, n.turns, n.requests)
    ensures n.ap == s.ap && (WasAllowed(s.ap.log, t) || t in AskTokens(Out(s)))
  {
    hide After, HandleFor, MapAgentEvent, UseOf, WasAllowed, AskTokens;
    var k := Consumed(s);
    assert s.inbox[0] == Emitted(s)[k];
    assert Out(s) == s.sent;
    assert Out(n)[|Out(s)|].index == k && Out(n)[|Out(s)|].turn == CurrentTurn(s);
    assert RequestsReturned(s, Call(CurrentTurn(s), ToolId(Emitted(s)[k]).value));
    assert OfActiveTurn(s, t);
  }

  lemma AskedBeforeAt(s: Session, step: Step, n: Session, i: nat, t: nat)
    requires Inv(s) && Shape(s) && Linked(s) && Enabled(s, step) && Disciplined(s, step)
    requires EventsTidy(Emitted(s), s.stages) && ReturnedAsked(s) && EmittedReturned(s) && AskedBefore(s, Out(s))
    requires n == Next(s, step) && i < |Out(n)| && BelongsTo(Out(n)[i], t, n.turns, n.requests)
    ensures WasAllowed(n.ap.log, t) || t in AskTokens(Out(n)[..i])
  {
    hide Inv, Shape, Linked, Next, Enabled, Disciplined, EventsTidy, ReturnedAsked, EmittedReturned, Out, BelongsTo,
      WasAllowed, AskTokens, MapApprovalNotice;
    OutFrame(s, step);
    if i < |Out(s)| {
      assert Out(n)[i] == Out(s)[i] && Out(n)[..i] == Out(s)[..i];
      BelongsBefore(s, step, Out(s)[i], t);
      if WasAllowed(s.ap.log, t) {
        WasAllowedLater(s, step, t);
      }
    } else if step.Receive? {
      InvInbox(s);
      ReceivedAsked(s, step.handle, n, t);
      assert Out(n)[..i] == Out(s);
    } else {
      AskBelongsNowhere(s.barrier.value, t, n.turns, n.requests);
    }
  }

  lemma InvInbox(s: Session)
    requires Inv(s)
    ensures InboxIsRest(s)
  {
  }

  lemma AskBelongsNowhere(notice: Notice, t: nat, turns: seq<Turn>, requests: seq<Request>)
    ensures !BelongsTo(MapApprovalNotice(notice), t, turns, requests)
  {
  }

  lemma AskedBeforeKept(s: Session, step: Step)
    requires Inv(s) && Shape(s) && Linked(s) && Enabled(s, step) && Disciplined(s, step)
    requires EventsTidy(Emitted(s), s.stages) && ReturnedAsked(s) && EmittedReturned(s) && AskedBefore(s, Out(s))
    ensures AskedBefore(Next(s, step), Out(Next(s, step)))
  {
    hide Inv, Shape, Linked, Next, Enabled, Disciplined, EventsTidy, ReturnedAsked, EmittedReturned, Out, BelongsTo,
      WasAllowed, AskTokens;
    var n := Next(s, step);
    forall i: nat, t: nat | i < |Out(n)| && BelongsTo(Out(n)[i], t, n.turns, n.requests)
      ensures WasAllowed(n.ap.log, t) || t in AskTokens(Out(n)[..i])
    {
      AskedBeforeAt(s, step, n, i, t);
    }
  }

  // ---------------------------------------------------------------- whole sessions

  lemma KeepsCourteous(s: Session, step: Step)
    requires Inv(s) && Shape(s) && Tidy(s) && Fresh'(s) && Linked(s) && Courteous(s)
    requires Enabled(s, step) && Disciplined(s, step) && PeerAware(s, step) && Patient(s, step)
    ensures Shape(Next(s, step)) && Courteous(Next(s, step))
  {
    hide Next, Enabled, Located, Memory, Fresh', Linked, Shape, OnePerCall, EventsTidy, UsesDated, Blocks,
      FinishedTaken, Unused, EarlyUnused, EmittedAfterwards, Separated, AnsweredShown, LostIsLeaving, ReturnedSettled,
      ReturnedAsked, EmittedReturned, AskFirst, AskedBefore, Out, A.Inv, IdsFromUses, NoneOutlives, Disciplined,
      Patient, PeerAware, RequestsDated, Idle, Conserved, Flushed, Ordered, OnTheWay, SentAfterCauses, HeldAfterCauses;
    KeepsShape(s, step);
    AnsweredShownKept(s, step);
    LostIsLeavingKept(s, step);
    ReturnedSettledKept(s, step);
    ReturnedAskedKept(s, step);
    EmittedReturnedKept(s, step);
    AskFirstKept(s, step);
    AskedBeforeKept(s, step);
  }

  /** An orderly session of a peer and a core that wait for each other. */
  ghost predicate CourteousRun(s: Session, steps: seq<Step>, end: Session)
    decreases |steps|
  {
    if steps == [] then end == s
    else
      && Enabled(s, steps[0]) && Shape(s) && Disciplined(s, steps[0]) && FreshHandle(s, steps[0])
      && PeerAware(s, steps[0]) && Patient(s, steps[0])
      && CourteousRun(Next(s, steps[0]), steps[1..], end)
  }

  ghost predicate Ready(s: Session) {
    Inv(s) && Shape(s) && Tidy(s) && Fresh'(s) && Linked(s) && Courteous(s)
  }

  lemma KeepsReady(s: Session, step: Step)
    requires Ready(s) && Enabled(s, step)
    requires Disciplined(s, step) && FreshHandle(s, step) && PeerAware(s, step) && Patient(s, step)
    ensures Ready(Next(s, step))
  {
    hide Inv, Shape, Tidy, Fresh', Linked, Courteous, Next, Enabled, Disciplined, FreshHandle, PeerAware, Patient;
    KeepsInv(s, step);
    KeepsTidy(s, step);
    FreshKept(s, step);
    KeepsLinked(s, step);
    KeepsCourteous(s, step);
  }

  lemma {:induction false} CourteousRunKeeps(s: Session, steps: seq<Step>, end: Session)
    requires Ready(s) && CourteousRun(s, steps, end)
    ensures Ready(end)
    decreases |steps|
  {
    hide Ready, Shape, Next, Enabled, Disciplined, FreshHandle, PeerAware, Patient;
    if steps != [] {
      KeepsReady(s, steps[0]);
      CourteousRunKeeps(Next(s, steps[0]), steps[1..], end);
    }
  }

  lemma InitReady(registered: set<Tool>, messages: seq<Message>)
    ensures Ready(Init(registered, messages))
  {
    InitInv(registered, messages);
    InitTidy(registered, messages);
    InitLinked(registered, messages);
    hide Inv, Tidy, Fresh', Linked;
  }

  lemma SentIsOut(s: Session, i: nat)
    requires Flushed(s) && i < |s.sent| && !s.sent[i].Terminal?
    ensures i < |Out(s)| && s.sent[i] == Out(s)[i]
  {
    if !InTheLoop(s) {
      assert s.sent[i] == (s.atExit + s.tail)[i];
    }
  }

  /**
   * A call's start and its result are sent only behind its request: each request made for the call has
   * been sent before, or its tool was on the allow list when it was made.
   */
  lemma NothingBeforeItsRequest(registered: set<Tool>, messages: seq<Message>, steps: seq<Step>, end: Session, i: nat,
                                t: nat)
    requires CourteousRun(Init(registered, messages), steps, end)
    requires i < |end.sent| && BelongsTo(end.sent[i], t, end.turns, end.requests)
    ensures WasAllowed(end.ap.log, t) || exists j :: 0 <= j < i && end.sent[j].Ask? && end.sent[j].token == t
  {
    hide Inv, Tidy, Fresh', Linked, Shape, Init, AnsweredShown, LostIsLeaving, ReturnedSettled, ReturnedAsked,
      EmittedReturned, AskFirst, Out, CallNamed, WasAllowed;
    InitReady(registered, messages);
    CourteousRunKeeps(Init(registered, messages), steps, end);
    ReadyFlushed(end);
    SentBeforeIsOut(end, i);
    if !WasAllowed(end.ap.log, t) {
      AskTokensMembers(end.sent[..i], t);
      var j :| 0 <= j < i && end.sent[..i][j].Ask? && end.sent[..i][j].token == t;
      assert end.sent[j] == end.sent[..i][j];
    }
  }

  lemma SentBeforeIsOut(s: Session, i: nat)
    requires Flushed(s) && i < |s.sent| && !s.sent[i].Terminal?
    ensures i < |Out(s)| && s.sent[i] == Out(s)[i] && s.sent[..i] == Out(s)[..i]
  {
    SentIsOut(s, i);
    if !InTheLoop(s) {
      assert forall j :: 0 <= j <= i ==> s.sent[j] == (s.atExit + s.tail)[j];
    }
  }

  lemma ReadyFlushed(s: Session)
    requires Ready(s)
    ensures Flushed(s)
  {
  }

  /** In what is sent, the request for a call precedes the call's start and its result. */
  lemma RequestPrecedesItsCall(registered: set<Tool>, messages: seq<Message>, steps: seq<Step>, end: Session, i: nat,
                               j: nat)
    requires CourteousRun(Init(registered, messages), steps, end)
    requires i < |end.sent| && j < |end.sent| && SameCall(end.sent[i], end.sent[j], end.turns, end.requests)
    ensures j < i
  {
    hide Inv, Tidy, Fresh', Linked, Shape, Init, SameCall, AnsweredShown, LostIsLeaving, ReturnedSettled,
      EmittedReturned, Out;
    InitReady(registered, messages);
    CourteousRunKeeps(Init(registered, messages), steps, end);
    ReadyFlushed(end);
    SameCallKinds(end.sent[i], end.sent[j], end.turns, end.requests);
    SentIsOut(end, i);
    SentIsOut(end, j);
  }

  lemma SameCallKinds(a: Item, b: Item, turns: seq<Turn>, requests: seq<Request>)
    requires SameCall(a, b, turns, requests)
    ensures a.Core? && b.Ask?
  {
  }

  // ---------------------------------------------------------------- with any core

  /** New handles are fresh, and the peer decides about what it has been shown; the core does as it likes. */
  ghost predicate AwareRun(s: Session, steps: seq<Step>, end: Session)
    decreases |steps|
  {
    if steps == [] then end == s
    else
      && Enabled(s, steps[0]) && Shape(s) && FreshHandle(s, steps[0]) && PeerAware(s, steps[0])
      && AwareRun(Next(s, steps[0]), steps[1..], end)
  }

  lemma {:induction false} AwareRunKeeps(s: Session, steps: seq<Step>, end: Session)
    requires Inv(s) && Shape(s) && Fresh'(s) && Linked(s) && AnsweredShown(s) && AwareRun(s, steps, end)
    ensures AnsweredShown(end)
    decreases |steps|
  {
    hide Inv, Shape, Fresh', Linked, AnsweredShown, Next, Enabled, FreshHandle, PeerAware;
    if steps != [] {
      KeepsInv(s, steps[0]);
      FreshKept(s, steps[0]);
      KeepsLinked(s, steps[0]);
      AnsweredShownKept(s, steps[0]);
      AwareRunKeeps(Next(s, steps[0]), steps[1..], end);
    }
  }

  /** An answer reaches `approve` only when its request has been sent. */
  lemma AnswersFollowRequests(registered: set<Tool>, messages: seq<Message>, steps: seq<Step>, end: Session, t: nat)
    requires AwareRun(Init(registered, messages), steps, end)
    requires t < |end.ap.calls| && end.ap.calls[t].reply.Delivered?
    ensures exists j :: 0 <= j < |end.sent| && end.sent[j].Ask? && end.sent[j].token == t
  {
    hide Inv, Fresh', Linked, Shape;
    InitInv(registered, messages);
    InitFresh(registered, messages);
    InitLinked(registered, messages);
    AwareRunKeeps(Init(registered, messages), steps, end);
    AskTokensMembers(end.sent, t);
  }
}
