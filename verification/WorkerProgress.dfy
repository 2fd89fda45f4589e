/** Progress: a request is sent within a bounded number of iterations, and commands are never shut out. */
module WorkerProgress {
  import opened Text
  import opened Protocol
  import opened CallIds
  import opened Worker
  import opened WorkerInvariants
  import opened WorkerChannels
  import opened WorkerRequests
  import opened WorkerOrder
  import opened WorkerHistory
  import opened WorkerRuns
  import A = Approval

  // ---------------------------------------------------------------- while the core is blocked

  /** An iteration of the loop in which no command arrives. */
  predicate Iteration(step: Step) {
    step.Permit? || step.TakeNotice? || step.Receive? || step.BarrierEmpty? || step.BarrierGone?
      || step.StartTurn? || step.FinishTurn?
  }

  /** The core is blocked in its approvals, the peer reads on and sends nothing. */
  predicate Quiet(step: Step) {
    Iteration(step) || (Outside(step) && !step.Emit? && !step.EndTask? && !(step.Approving? && step.action.Notify?))
  }

  /** How many requests stand before `t` in the notice channel. */
  function Ahead(notices: seq<Notice>, t: nat): nat {
    if notices == [] || notices[0].token == t then 0 else 1 + Ahead(notices[1..], t)
  }

  /** Request `t` has been accepted by the notice channel and is not out yet. */
  predicate OnItsWay(s: Session, t: nat) {
    && s.phase.Looping? && s.active && s.agent.Running?
    && (|| (HoldsAsk(s.held) && s.held.value.token == t)
        || (s.barrier.Some? && s.barrier.value.token == t)
        || Ahead(s.notices, t) < |s.notices|)
  }

  /**
   * How many iterations it can take: two for each unread core event and one for a held event, two for
   * a request at the barrier, three for one in the channel, one more if another request comes behind.
   */
  function Distance(s: Session, t: nat): nat {
    if HoldsAsk(s.held) && s.held.value.token == t then
      if s.barrier.None? && s.notices != [] then 2 else 1
    else
      var unread := 2 * |s.inbox| + if s.held.Some? then 1 else 0;
      var p := Ahead(s.notices, t);
      unread +
      if s.barrier.Some? && s.barrier.value.token == t then (if s.notices == [] then 2 else 3)
      else (if s.barrier.Some? then 2 else 0) + 3 * (p + 1) + (if p + 1 < |s.notices| then 1 else 0)
  }

  /** Each iteration brings the request closer by one, or out. */
  lemma IterationMoves(s: Session, step: Step, t: nat)
    requires Shape(s) && OnItsWay(s, t) && Enabled(s, step) && Iteration(step)
    ensures var n := Next(s, step);
            || (OnItsWay(n, t) && Distance(n, t) == Distance(s, t) - 1)
            || (step.Permit? && HoldsAsk(s.held) && s.held.value.token == t && n.sent == s.sent + [s.held.value])
  {
    hide After, HandleFor, MapAgentEvent, UseOf, A.Next, A.Enabled, TurnFinishedWith, TurnStarted, Shape;
    var n := Next(s, step);
    if step.TakeNotice? {
      assert s.notices[0].token == t || Ahead(s.notices, t) == 1 + Ahead(n.notices, t);
    }
  }

  /** The rest of a quiet time leaves it where it is. */
  lemma OutsideWaits(s: Session, step: Step, t: nat)
    requires Shape(s) && OnItsWay(s, t) && Enabled(s, step) && Quiet(step) && Outside(step)
    ensures OnItsWay(Next(s, step), t) && Distance(Next(s, step), t) == Distance(s, t) && Next(s, step).sent == s.sent
  {
    hide A.Next, A.Enabled, Shape, Staged, After;
    OutsideFrame(s, step);
  }

  /** As long as there is room, the loop has something to do; while there is none, the peer has. */
  lemma NotStuck(s: Session, t: nat)
    requires OnItsWay(s, t)
    ensures s.room > 0 ==> exists step :: Iteration(step) && Enabled(s, step)
    ensures s.room == 0 ==> Enabled(s, Drain)
  {
    if s.room > 0 {
      var step :=
        if s.held.Some? then Permit
        else if s.barrier.None? then TakeNotice
        else if s.inbox != [] then Receive("")
        else BarrierEmpty;
      assert Iteration(step) && Enabled(s, step);
    }
  }

  function Iterations(steps: seq<Step>): nat {
    if steps == [] then 0 else (if Iteration(steps[0]) then 1 else 0) + Iterations(steps[1..])
  }

  ghost predicate AllQuiet(steps: seq<Step>) {
    forall i :: 0 <= i < |steps| ==> Quiet(steps[i])
  }

  lemma SentGrowsAlways(s: Session, step: Step)
    requires Shape(s) && Enabled(s, step)
    ensures s.sent <= Next(s, step).sent
  {
    hide A.Next, A.Enabled, After, HandleFor, MapAgentEvent, UseOf, Staged, OnCommand, Settled, TurnFinishedWith,
      Notified, Named, Shape;
    if Outside(step) {
      OutsideFrame(s, step);
    }
    match step
    case Command(command) => CommandFrame(s, command);
    case Settle(completed) => SettledFrame(s, completed);
    case FinishTurn => TurnFinishedFrame(s, s.agent.result);
    case _ =>
  }

  lemma {:induction false} AskTokensPrefix(items: seq<Item>, more: seq<Item>)
    requires items <= more
    ensures AskTokens(items) <= AskTokens(more)
    decreases |more|
  {
    if items != more {
      AskTokensPrefix(items, more[..|more| - 1]);
    }
  }

  lemma {:induction false} RunSentGrows(s: Session, steps: seq<Step>, end: Session)
    requires Inv(s) && Run(s, steps, end)
    ensures s.sent <= end.sent
    decreases |steps|
  {
    hide Inv, Next, Enabled;
    if steps != [] {
      InvShape(s);
      SentGrowsAlways(s, steps[0]);
      KeepsInv(s, steps[0]);
      RunSentGrows(Next(s, steps[0]), steps[1..], end);
    }
  }

  lemma SentNow(s: Session, step: Step, t: nat)
    requires HoldsAsk(s.held) && s.held.value.token == t && Enabled(s, step)
    requires Next(s, step).sent == s.sent + [s.held.value]
    ensures t in AskTokens(Next(s, step).sent)
  {
    AskTokensOne(s.sent, s.held.value);
  }

  /**
   * While the core is blocked and no command arrives, every iteration counts: after as many as the
   * distance, whatever happens in between, the request has been sent.
   */
  lemma {:induction false} RequestIsSentInTime(s: Session, t: nat, steps: seq<Step>, end: Session)
    requires Inv(s) && OnItsWay(s, t) && Run(s, steps, end) && AllQuiet(steps)
    ensures t in AskTokens(end.sent) || (OnItsWay(end, t) && Distance(end, t) + Iterations(steps) == Distance(s, t))
    ensures Iterations(steps) >= Distance(s, t) ==> t in AskTokens(end.sent)
    decreases |steps|
  {
    hide Inv, Next, Enabled, OnItsWay, HoldsAsk;
    if steps == [] {
      DistancePositive(s, t);
    } else {
      var step, n := steps[0], Next(s, steps[0]);
      InvShape(s);
      KeepsInv(s, step);
      assert Quiet(step);
      if Iteration(step) {
        IterationMoves(s, step, t);
        if !OnItsWay(n, t) || Distance(n, t) != Distance(s, t) - 1 {
          SentNow(s, step, t);
          RunSentGrows(n, steps[1..], end);
          AskTokensPrefix(n.sent, end.sent);
        } else {
          RequestIsSentInTime(n, t, steps[1..], end);
        }
      } else {
        OutsideWaits(s, step, t);
        RequestIsSentInTime(n, t, steps[1..], end);
      }
    }
  }

  /** The coordinator has nothing in hand, and one request in its channel behind the unread core events. */
  predicate JustAnnounced(s: Session, t: nat) {
    && s.phase.Looping? && s.active && s.agent.Running? && s.held.None? && s.barrier.None?
    && |s.notices| == 1 && s.notices[0].token == t
  }

  /** Behind `n` unread core events, a request is sent within `2n + 3` iterations, and no sooner. */
  lemma RequestIsSentWithin(s: Session, t: nat, steps: seq<Step>, end: Session)
    requires Inv(s) && JustAnnounced(s, t) && Run(s, steps, end) && AllQuiet(steps)
    requires t !in AskTokens(s.sent)
    ensures Iterations(steps) >= 2 * |s.inbox| + 3 ==> t in AskTokens(end.sent)
    ensures Iterations(steps) < 2 * |s.inbox| + 3 ==> t !in AskTokens(end.sent)
  {
    hide Inv, Next, Enabled;
    assert OnItsWay(s, t) && Distance(s, t) == 2 * |s.inbox| + 3;
    RequestIsSentInTime(s, t, steps, end);
    if Iterations(steps) < 2 * |s.inbox| + 3 {
      NotSentEarly(s, t, steps, end);
    }
  }

  /** What is on its way and not out stays so for as long as the distance, if no other request is behind it. */
  lemma {:induction false} NotSentEarly(s: Session, t: nat, steps: seq<Step>, end: Session)
    requires Inv(s) && OnItsWay(s, t) && Run(s, steps, end) && AllQuiet(steps)
    requires t !in AskTokens(s.sent) && NoneBehind(s, t) && Iterations(steps) < Distance(s, t)
    ensures t !in AskTokens(end.sent)
    decreases |steps|
  {
    hide Inv, Next, Enabled, OnItsWay, Distance, NoneBehind;
    if steps != [] {
      var step, n := steps[0], Next(s, steps[0]);
      InvShape(s);
      KeepsInv(s, step);
      assert Quiet(step);
      if Iteration(step) {
        LastStretch(s, step, t);
        IterationMoves(s, step, t);
        StillOnItsWay(s, step, t);
      } else {
        OutsideWaits(s, step, t);
        QuietNoneBehind(s, step, t);
      }
      NotSentEarly(n, t, steps[1..], end);
    }
  }

  /** No other request is behind it, and none at the barrier once it is held. */
  predicate NoneBehind(s: Session, t: nat) {
    if HoldsAsk(s.held) && s.held.value.token == t then s.barrier.None? && s.notices == []
    else if s.barrier.Some? && s.barrier.value.token == t then s.notices == []
    else Ahead(s.notices, t) + 1 == |s.notices|
  }

  lemma TakingLeavesNoneBehind(s: Session, t: nat)
    requires OnItsWay(s, t) && NoneBehind(s, t) && Enabled(s, TakeNotice)
    ensures NoneBehind(Next(s, TakeNotice), t)
  {
    assert s.notices[0].token == t || Ahead(s.notices, t) == 1 + Ahead(Next(s, TakeNotice).notices, t);
  }

  /** With more than one iteration to go, the next one does not send it. */
  lemma LastStretch(s: Session, step: Step, t: nat)
    requires Shape(s) && OnItsWay(s, t) && NoneBehind(s, t) && Enabled(s, step) && Iteration(step)
    requires t !in AskTokens(s.sent) && Distance(s, t) > 1
    ensures NoneBehind(Next(s, step), t) && t !in AskTokens(Next(s, step).sent)
  {
    hide After, HandleFor, MapAgentEvent, UseOf, A.Next, A.Enabled, TurnFinishedWith, TurnStarted, Shape, AskTokens,
      Ahead;
    if step.TakeNotice? {
      TakingLeavesNoneBehind(s, t);
    } else if step.Permit? {
      AskTokensOne(s.sent, s.held.value);
    }
  }

  lemma StillOnItsWay(s: Session, step: Step, t: nat)
    requires Enabled(s, step) && t !in AskTokens(Next(s, step).sent)
    requires OnItsWay(Next(s, step), t)
          || (step.Permit? && HoldsAsk(s.held) && s.held.value.token == t
               && Next(s, step).sent == s.sent + [s.held.value])
    ensures OnItsWay(Next(s, step), t)
  {
    hide Next, Enabled, AskTokens, OnItsWay;
    if !OnItsWay(Next(s, step), t) {
      AskTokensOne(s.sent, s.held.value);
    }
  }

  lemma QuietNoneBehind(s: Session, step: Step, t: nat)
    requires Shape(s) && NoneBehind(s, t) && Enabled(s, step) && Quiet(step) && Outside(step)
    ensures NoneBehind(Next(s, step), t)
  {
    hide A.Next, A.Enabled, Shape, Staged, After;
    OutsideFrame(s, step);
  }

  lemma DistancePositive(s: Session, t: nat)
    ensures Distance(s, t) > 0
  {
  }

  // ---------------------------------------------------------------- commands are heard

  /**
   * An iteration that does not poll the command channel is followed by one that does, whatever the
   * outbound channel's state and whatever happens in between.
   */
  lemma EverySecondIterationPolls(s: Session, step: Step, between: seq<Step>, end: Session)
    requires Inv(s) && s.phase.Looping? && Enabled(s, step) && !Outside(step)
    requires Run(Next(s, step), between, end) && forall i :: 0 <= i < |between| ==> Outside(between[i])
    ensures Polls(s) || Polls(end)
    ensures s.held.Some? ==> Polls(s)
    ensures Polls(s) ==> Enabled(s, Command(Stop))
  {
    hide Inv;
    if !Polls(s) {
      PollsAfter(s, step);
      KeepsInv(s, step);
      PollsThrough(Next(s, step), between, end);
    }
  }

  lemma PollsAfter(s: Session, step: Step)
    requires Inv(s) && s.phase.Looping? && !Polls(s) && Enabled(s, step) && !Outside(step)
    ensures Polls(Next(s, step))
  {
    hide Basics, Located, Memory, Conserved, Flushed, Ordered, Causal, HeldAfterCauses, After, HandleFor,
      MapAgentEvent, UseOf, A.Next, A.Enabled;
  }

  lemma {:induction false} PollsThrough(s: Session, steps: seq<Step>, end: Session)
    requires Inv(s) && Polls(s) && Run(s, steps, end) && forall i :: 0 <= i < |steps| ==> Outside(steps[i])
    ensures Polls(end)
    decreases |steps|
  {
    hide Inv, Next, Enabled;
    if steps != [] {
      InvShape(s);
      OutsideFrame(s, steps[0]);
      KeepsInv(s, steps[0]);
      PollsThrough(Next(s, steps[0]), steps[1..], end);
    }
  }

  /** What stays held when a turn is aborted. */
  function HeldOrdinary(held: Option<Item>): Option<Item> {
    if HoldsAsk(held) then None else held
  }

  lemma StopAborts(s: Session)
    requires Polls(s)
    ensures Enabled(s, Command(Stop))
    ensures var tail := HeldItems(s.held) + [DoneEvent(|s.messages|)];
            Next(s, Command(Stop)) ==
              if s.active then s.(phase := Aborting(true))
              else s.(phase := Flushing(tail), atExit := s.sent, tail := tail)
  {
  }

  lemma IdleHoldsNoAsk(s: Session)
    requires Inv(s) && s.phase.Looping? && !s.active
    ensures HeldOrdinary(s.held) == s.held
  {
    hide Basics, Located, Memory, Conserved, Flushed, Ordered, Causal, HeldAfterCauses;
  }

  /** During a turn the command comes, the agent task and the peer do what they do, and the abort is settled. */
  ghost predicate AbortsTo(s: Session, command: DaemonCommand, between: seq<Step>, m: Session, completed: bool,
                           n: Session) {
    && Polls(s) && s.active
    && Run(Next(s, Command(command)), between, m) && (forall i :: 0 <= i < |between| ==> Outside(between[i]))
    && Enabled(m, Settle(completed)) && n == Next(m, Settle(completed))
  }

  /** Out of the loop, with the held ordinary event, if any, and `done` still to be sent. */
  ghost predicate Stopped(s: Session, n: Session) {
    && n.tail == HeldItems(HeldOrdinary(s.held)) + [DoneEvent(|s.messages|)]
    && n.phase == Flushing(n.tail) && n.atExit == s.sent && n.sent == s.sent && n.messages == s.messages
  }

  /**
   * A `stop` that is heard leaves the loop, whether or not the agent task ends, and whatever it and the
   * peer do meanwhile: an ordinary held event and `done` are what is still to be sent.
   */
  lemma StopLeavesTheLoop(s: Session, between: seq<Step>, m: Session, completed: bool, n: Session)
    requires Inv(s) && AbortsTo(s, Stop, between, m, completed, n)
    ensures Stopped(s, n) && Enabled(m, Settle(false))
  {
    hide Inv, A.Next, Next, Settled, HeldItems, Run, WithOutcome, Shape, DoneEvent;
    InvShape(s);
    StopAborts(s);
    KeepsInv(s, Command(Stop));
    OutsideRun(Next(s, Command(Stop)), between, m);
    SettleIs(m, completed);
    SettledFrame(m, completed);
    SettledPhase(m, completed);
  }

  /** With no turn active it leaves at once, sending the same. */
  lemma IdleStopLeavesTheLoop(s: Session, n: Session)
    requires Inv(s) && !s.active && Enabled(s, Command(Stop)) && n == Next(s, Command(Stop))
    ensures Stopped(s, n)
  {
    hide Inv, Next, HeldItems, DoneEvent;
    StopAborts(s);
    IdleHoldsNoAsk(s);
  }

  /** The last turn has gone, leaving history, queue and stream as they were. */
  predicate TurnDiscarded(s: Session, n: Session) {
    && n.queued == s.queued && n.messages == s.messages && n.accepted == s.accepted && n.sent == s.sent
    && !n.active && n.turns != [] && n.turns[|n.turns| - 1].outcome.Discarded? && n.held == HeldOrdinary(s.held)
  }

  /**
   * A `cancel` that is heard aborts the turn. When the agent task ends in time the turn is discarded, the
   * history and the queue are as they were, and only a held request goes; when it does not, the
   * session ends with what is held and a crash.
   */
  lemma CancelDiscardsTheTurn(s: Session, between: seq<Step>, m: Session, completed: bool, n: Session)
    requires Inv(s) && AbortsTo(s, Cancel, between, m, completed, n)
    ensures TurnDiscarded(s, n)
    ensures var tail := HeldItems(HeldOrdinary(s.held)) + [Terminal(Crash(CANCEL_TIMEOUT))];
            n.phase == if completed then Looping else Flushing(tail)
  {
    hide Inv, A.Next, Next, Settled, HeldItems, Run, WithOutcome, Shape;
    InvShape(s);
    CancelAborts(s);
    KeepsInv(s, Command(Cancel));
    OutsideRun(Next(s, Command(Cancel)), between, m);
    SettleIs(m, completed);
    SettledFrame(m, completed);
    SettledPhase(m, completed);
    DiscardedLast(m);
  }

  lemma CancelAborts(s: Session)
    requires Polls(s) && s.active
    ensures Enabled(s, Command(Cancel)) && Next(s, Command(Cancel)) == s.(phase := Aborting(false))
  {
  }

  lemma DiscardedLast(s: Session)
    requires Shape(s) && s.phase.Aborting?
    ensures var turns := WithOutcome(s.turns, Discarded); turns != [] && turns[|turns| - 1].outcome.Discarded?
  {
  }

  lemma {:induction false} OutsideRun(s: Session, steps: seq<Step>, end: Session)
    requires Inv(s) && Run(s, steps, end) && forall i :: 0 <= i < |steps| ==> Outside(steps[i])
    ensures Inv(end) && Shape(end)
    ensures end.phase == s.phase && end.queued == s.queued && end.messages == s.messages && end.accepted == s.accepted
    ensures end.sent == s.sent && end.held == s.held && end.active == s.active
    ensures end.tail == s.tail && end.atExit == s.atExit
    decreases |steps|
  {
    hide Inv, Next, Enabled, Shape;
    InvShape(s);
    if steps != [] {
      OutsideFrame(s, steps[0]);
      KeepsInv(s, steps[0]);
      OutsideRun(Next(s, steps[0]), steps[1..], end);
    }
  }
}
