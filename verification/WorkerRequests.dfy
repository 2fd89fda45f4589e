/**
 * The way of an approval request: from the send it blocks in, through the notice channel, the barrier
 * and the held slot, onto the outbound channel. It is lost nowhere on the way, and never overtakes
 * what the core had emitted before it.
 */
module WorkerRequests {
  import opened Text
  import opened Protocol
  import opened CallIds
  import opened Worker
  import opened WorkerInvariants
  import opened WorkerChannels
  import A = Approval

  // ---------------------------------------------------------------- where the requests are

  function AskTokens(items: seq<Item>): seq<nat> {
    if items == [] then []
    else
      var last := items[|items| - 1];
      AskTokens(items[..|items| - 1]) + if last.Ask? then [last.token] else []
  }

  function BarrierTokens(barrier: Option<Notice>): seq<nat> {
    if barrier.Some? then [barrier.value.token] else []
  }

  function NoticeTokens(notices: seq<Notice>): seq<nat> {
    seq(|notices|, i requires 0 <= i < |notices| => notices[i].token)
  }

  /** Every request that has been accepted and not discarded, in order: sent, held, barrier, channel. */
  function Tokens(s: Session): seq<nat> {
    AskTokens(s.sent) + AskTokens(HeldItems(s.held)) + BarrierTokens(s.barrier) + NoticeTokens(s.notices)
  }

  predicate InTheLoop(s: Session) {
    s.phase.Looping? || s.phase.Aborting?
  }

  ghost predicate NoDuplicates(tokens: seq<nat>) {
    forall i, j :: 0 <= i < j < |tokens| ==> tokens[i] != tokens[j]
  }

  ghost predicate AllAnnounced(s: Session, tokens: seq<nat>) {
    forall i :: 0 <= i < |tokens| ==> tokens[i] < |s.ap.calls| && A.Announced(s.ap.calls[tokens[i]])
  }

  /** Somebody is waiting for the answer. */
  predicate OpenWaiter(s: Session, t: nat) {
    t < |s.ap.calls| && s.ap.calls[t].phase.Waiting? && s.ap.calls[t].reply.Open?
  }

  ghost predicate AllPresent(s: Session, tokens: seq<nat>) {
    forall t: nat | OpenWaiter(s, t) :: t in tokens
  }

  ghost predicate Located(s: Session) {
    InTheLoop(s) ==> NoDuplicates(Tokens(s)) && AllAnnounced(s, Tokens(s)) && AllPresent(s, Tokens(s))
  }

  lemma AskTokensOne(items: seq<Item>, item: Item)
    ensures AskTokens(items + [item]) == AskTokens(items) + if item.Ask? then [item.token] else []
  {
    assert (items + [item])[..|items|] == items;
  }

  lemma AskTokensHeld(held: Option<Item>)
    ensures AskTokens(HeldItems(held)) == if HoldsAsk(held) then [held.value.token] else []
  {
    if held.Some? {
      AskTokensOne([], held.value);
      assert [] + [held.value] == [held.value];
    }
  }

  /** Notices added, taken from the front or dropped; what the rest of the way makes of it. */
  lemma TokensOutside(s: Session, step: Step)
    requires Shape(s) && Enabled(s, step) && Outside(step)
    ensures Tokens(Next(s, step))
              == Tokens(s) + (if step.Approving? && step.action.Notify? then [step.action.t] else [])
  {
    hide A.Next, A.Enabled, Staged, AskTokens, After;
    OutsideFrame(s, step);
  }

  /** Steps of the loop that move requests along without adding or dropping any. */
  lemma TokensMoved(s: Session, step: Step)
    requires Shape(s) && Enabled(s, step)
    requires step.Permit? || step.TakeNotice? || step.Receive? || step.BarrierEmpty? || step.StartTurn?
    ensures Tokens(Next(s, step)) == Tokens(s)
  {
    hide A.Next, A.Enabled, Staged, AskTokens, After, HandleFor, MapAgentEvent, UseOf, Shape;
    AskTokensHeld(s.held);
    AskTokensHeld(Next(s, step).held);
    match step
    case Permit => AskTokensOne(s.sent, s.held.value);
    case TakeNotice => assert NoticeTokens(s.notices) == [s.notices[0].token] + NoticeTokens(s.notices[1..]);
    case _ =>
  }

  /** With the agent task gone there is no open waiter to lose. */
  lemma NoOpenWaiterAtRest(s: Session)
    requires NoneOutlives(s) && !s.agent.Running?
    ensures forall t: nat :: !OpenWaiter(s, t)
  {
  }

  lemma KeepsAnnounced(s: Session, step: Step, tokens: seq<nat>)
    requires Shape(s) && Enabled(s, step) && AllAnnounced(s, tokens)
    ensures AllAnnounced(Next(s, step), tokens)
  {
    hide A.Next, A.Enabled, A.Announced, Next, Enabled, Shape;
    ApStep(s, step);
    var a := ApAction(s, step);
    forall i | 0 <= i < |tokens|
      ensures tokens[i] < |Next(s, step).ap.calls| && A.Announced(Next(s, step).ap.calls[tokens[i]])
    {
      if a.Some? {
        A.NextPhases(s.ap, a.value, tokens[i]);
      }
    }
  }

  lemma KeepsPresent(s: Session, step: Step, tokens: seq<nat>)
    requires Shape(s) && Enabled(s, step) && AllPresent(s, tokens)
    ensures AllPresent(Next(s, step), if step.Approving?
              && step.action.Notify? then tokens + [step.action.t] else tokens)
  {
    hide A.Next, A.Enabled, Next, Enabled, Shape;
    ApStep(s, step);
    var a := ApAction(s, step);
    forall t: nat | OpenWaiter(Next(s, step), t)
      ensures t in (if step.Approving? && step.action.Notify? then tokens + [step.action.t] else tokens)
    {
      if a.Some? {
        NewCallNotWaiting(s.ap, a.value, t);
        A.NextPhases(s.ap, a.value, t);
      }
    }
  }

  lemma NewCallNotWaiting(st: A.State, a: A.Action, t: nat)
    requires A.Enabled(st, a) && t < |A.Next(st, a).calls| && A.Next(st, a).calls[t].phase.Waiting?
    ensures t < |st.calls|
  {
    A.NextCalls(st, a);
  }

  lemma NotifyIsNew(s: Session, t: nat, tokens: seq<nat>)
    requires Enabled(s, Approving(A.Notify(t))) && AllAnnounced(s, tokens) && NoDuplicates(tokens) && Shape(s)
    requires AllAnnounced(Next(s, Approving(A.Notify(t))), tokens)
    ensures NoDuplicates(tokens + [t]) && AllAnnounced(Next(s, Approving(A.Notify(t))), tokens + [t])
  {
  }

  /** What a command leaves in place, as long as the loop goes on. */
  lemma CommandTokens(s: Session, command: DaemonCommand)
    requires Polls(s)
    ensures Tokens(OnCommand(s, command)) == Tokens(s)
  {
    hide OnCommand, AskTokens;
    CommandFrame(s, command);
  }

  /** Steps that drop requests only do so when the agent task has ended, and drop no sent one. */
  lemma DroppedTokens(s: Session, step: Step)
    requires Shape(s) && Enabled(s, step) && NoDuplicates(Tokens(s)) && InTheLoop(Next(s, step))
    requires step.FinishTurn? || step.Settle? || step.BarrierGone?
    ensures var n := Next(s, step);
            && NoDuplicates(Tokens(n)) && (forall t | t in Tokens(n) :: t in Tokens(s)) && !n.agent.Running?
  {
    hide A.Next, A.Enabled, AskTokens, Settled, TurnFinishedWith, Shape;
    var n := Next(s, step);
    AskTokensHeld(s.held);
    AskTokensHeld(n.held);
    match step
    case FinishTurn =>
      TurnFinishedFrame(s, s.agent.result);
      assert Tokens(n) == AskTokens(s.sent) <= Tokens(s);
    case Settle(completed) =>
      SettledFrame(s, completed);
      SettledPhase(s, completed);
      assert Tokens(n) == AskTokens(s.sent) <= Tokens(s);
    case BarrierGone =>
      var front, back := AskTokens(s.sent), NoticeTokens(s.notices);
      assert Tokens(s) == front + [s.barrier.value.token] + back;
      assert Tokens(n) == front + back;
      DropOne(front, s.barrier.value.token, back);
  }

  lemma DropOne(front: seq<nat>, t: nat, back: seq<nat>)
    requires NoDuplicates(front + [t] + back)
    ensures NoDuplicates(front + back) && forall x | x in front + back :: x in front + [t] + back
  {
    var all, fewer := front + [t] + back, front + back;
    assert forall i :: 0 <= i < |fewer| ==> fewer[i] == all[if i < |front| then i else i + 1];
    forall i, j | 0 <= i < j < |fewer| ensures fewer[i] != fewer[j] {
      assert all[if i < |front| then i else i + 1] != all[if j < |front| then j else j + 1];
    }
  }

  lemma FewerTokens(s: Session, tokens: seq<nat>, fewer: seq<nat>)
    requires AllAnnounced(s, tokens) && forall t | t in fewer :: t in tokens
    ensures AllAnnounced(s, fewer)
  {
    forall i | 0 <= i < |fewer| ensures fewer[i] < |s.ap.calls| && A.Announced(s.ap.calls[fewer[i]]) {
      assert fewer[i] in tokens;
    }
  }

  lemma KeepsLocated(s: Session, step: Step)
    requires Basics(s) && Located(s) && Enabled(s, step)
    ensures Located(Next(s, step))
  {
    hide A.Next, A.Enabled, A.Inv, IdsFromUses, AskTokens, Tokens, Shape, AllAnnounced, AllPresent, NoneOutlives,
      OpenWaiter,
      OnCommand, Settled, TurnStarted, TurnFinishedWith, Received, Notified, Named, NoDuplicates, Cleaned,
      CancelPending;
    var n := Next(s, step);
    if InTheLoop(n) {
      LoopBefore(s, step);
      KeepsBasics(s, step);
      KeepsAnnounced(s, step, Tokens(s));
      KeepsPresent(s, step, Tokens(s));
      if Outside(step) {
        TokensOutside(s, step);
        if step.Approving? && step.action.Notify? {
          NotifyIsNew(s, step.action.t, Tokens(s));
        } else {
          assert Tokens(s) + [] == Tokens(s);
        }
      } else if step.Permit? || step.TakeNotice? || step.Receive? || step.BarrierEmpty? || step.StartTurn? {
        TokensMoved(s, step);
      } else if step.Command? {
        CommandTokens(s, step.command);
      } else {
        DroppedTokens(s, step);
        FewerTokens(n, Tokens(s), Tokens(n));
        NoOpenWaiterAtRest(n);
        NonePresent(n, Tokens(n));
      }
    }
  }

  lemma NonePresent(s: Session, tokens: seq<nat>)
    requires forall t: nat :: !OpenWaiter(s, t)
    ensures AllPresent(s, tokens)
  {
  }

  lemma LoopBefore(s: Session, step: Step)
    requires Shape(s) && Enabled(s, step) && InTheLoop(Next(s, step))
    ensures InTheLoop(s)
  {
    hide A.Next, A.Enabled, Staged, After, HandleFor, MapAgentEvent, UseOf, Settled;
    if Outside(step) {
      OutsideFrame(s, step);
    }
  }

  /**
   * A request somebody is waiting on is in exactly one place: still blocked in its send, or at one
   * position of the way out.
   */
  lemma WaiterIsInOnePlace(s: Session, t: nat)
    requires InTheLoop(s) && Located(s) && t < |s.ap.calls|
    ensures OpenWaiter(s, t) ==>
              exists i :: 0 <= i < |Tokens(s)| && Tokens(s)[i] == t
                          && forall j :: 0 <= j < |Tokens(s)| && Tokens(s)[j] == t ==> j == i
    ensures s.ap.calls[t].phase.Registered? ==> t !in Tokens(s)
  {
    hide Tokens;
  }
}
