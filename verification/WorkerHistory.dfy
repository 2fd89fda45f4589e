/** Inputs and the message history: what is taken in is run, in order, and completed turns alone are remembered. */
module WorkerHistory {
  import opened Protocol
  import opened CallIds
  import opened Worker
  import opened WorkerInvariants
  import opened WorkerChannels
  import A = Approval

  // ---------------------------------------------------------------- inputs

  function Inputs(turns: seq<Turn>): seq<string> {
    seq(|turns|, k requires 0 <= k < |turns| => turns[k].input)
  }

  /** Nothing taken in is lost or reordered, and the queue keeps its bound although the idle push has no check. */
  ghost predicate InputsKept(s: Session) {
    Inputs(s.turns) + s.queued == s.accepted && |s.queued| <= MAX_QUEUED_INPUTS
  }

  lemma InputsWithOutcome(turns: seq<Turn>, outcome: TurnOutcome, event: AgentEvent)
    ensures Inputs(WithOutcome(turns, outcome)) == Inputs(turns)
    ensures Inputs(WithEvent(turns, event)) == Inputs(turns)
  {
  }

  /** Only an input adds to what was accepted, and only starting a turn takes from the queue. */
  lemma InputsFrame(s: Session, step: Step)
    requires Shape(s) && Enabled(s, step) && !step.StartTurn? && !(step.Command? && step.command.Input?)
    ensures var n := Next(s, step);
            n.queued == s.queued && n.accepted == s.accepted && Inputs(n.turns) == Inputs(s.turns)
  {
    hide A.Next, A.Enabled, After, HandleFor, MapAgentEvent, UseOf, Staged, Settled, TurnFinishedWith, Notified,
      Named, WithEvent,
      WithOutcome, Shape, Inputs;
    match step
    case Emit(event) => InputsWithOutcome(s.turns, InProgress, event);
    case Settle(completed) => SettledFrame(s, completed); InputsWithOutcome(s.turns, Discarded, CoreTurnFinished);
    case FinishTurn =>
      var result := s.agent.result;
      TurnFinishedFrame(s, result);
      InputsWithOutcome(s.turns, if result.Completed? then Succeeded(result.messages) else Discarded, CoreTurnFinished);
    case Approving(action) => QuietOutside(s, step);
    case NameCall(t, handle) => QuietOutside(s, step);
    case _ =>
  }

  lemma QuietOutside(s: Session, step: Step)
    requires Enabled(s, step) && (step.Approving? || step.NameCall?)
    ensures Next(s, step).turns == s.turns && Next(s, step).queued == s.queued && Next(s, step).accepted == s.accepted
    ensures Next(s, step).messages == s.messages && Next(s, step).active == s.active
      && Next(s, step).initial == s.initial
  {
    hide A.Next, A.Enabled, After;
  }

  lemma KeepsInputs(s: Session, step: Step)
    requires Shape(s) && InputsKept(s) && Enabled(s, step)
    ensures InputsKept(Next(s, step))
  {
    if step.StartTurn? {
      assert Inputs(Next(s, step).turns) == Inputs(s.turns) + [s.queued[0]];
    } else if step.Command? && step.command.Input? {
      hide A.Next;
    } else {
      InputsFrame(s, step);
    }
  }

  // ---------------------------------------------------------------- history

  /** What the first `n` turns leave to be remembered: the result of the last that completed. */
  function ResultOf(initial: seq<Message>, turns: seq<Turn>, n: nat): seq<Message>
    requires n <= |turns|
  {
    if n == 0 then initial
    else if turns[n - 1].outcome.Succeeded? then turns[n - 1].outcome.messages
    else ResultOf(initial, turns, n - 1)
  }

  /** Each turn started from what the turns before it had left, and its own input. */
  ghost predicate BasedOnResults(initial: seq<Message>, turns: seq<Turn>) {
    forall k :: 0 <= k < |turns| ==> turns[k].base == ResultOf(initial, turns, k) + [User(turns[k].input)]
  }

  ghost predicate HistoryExact(s: Session) {
    && s.messages == ResultOf(s.initial, s.turns, |s.turns|)
    && BasedOnResults(s.initial, s.turns)
    && (!s.active ==> s.turns == [] || !s.turns[|s.turns| - 1].outcome.InProgress?)
    && forall k :: 0 <= k < |s.turns| - 1 ==> !s.turns[k].outcome.InProgress?
  }

  lemma {:induction false} ResultOfSame(initial: seq<Message>, turns: seq<Turn>, more: seq<Turn>, n: nat)
    requires n <= |turns| && n <= |more|
    requires forall k :: 0 <= k < n ==> more[k].outcome == turns[k].outcome
    ensures ResultOf(initial, more, n) == ResultOf(initial, turns, n)
    decreases n
  {
    if n > 0 {
      ResultOfSame(initial, turns, more, n - 1);
    }
  }

  lemma BasedSame(initial: seq<Message>, turns: seq<Turn>, more: seq<Turn>)
    requires BasedOnResults(initial, turns) && |more| == |turns|
    requires forall k :: 0 <= k < |turns| ==> more[k].base == turns[k].base && more[k].input == turns[k].input
    requires forall k :: 0 <= k < |turns| - 1 ==> more[k].outcome == turns[k].outcome
    ensures BasedOnResults(initial, more)
  {
    forall k | 0 <= k < |more| ensures more[k].base == ResultOf(initial, more, k) + [User(more[k].input)] {
      ResultOfSame(initial, turns, more, k);
    }
  }

  /** The end of a turn that was in progress: the result is remembered, or nothing is. */
  lemma OutcomeSettles(s: Session, n: Session, outcome: TurnOutcome)
    requires HistoryExact(s) && s.turns != [] && s.turns[|s.turns| - 1].outcome.InProgress? && !outcome.InProgress?
    requires n.initial == s.initial && n.turns == WithOutcome(s.turns, outcome) && !n.active
    requires n.messages == if outcome.Succeeded? then outcome.messages else s.messages
    ensures HistoryExact(n)
  {
    hide ResultOf, BasedOnResults;
    BasedSame(s.initial, s.turns, n.turns);
    ResultOfSame(s.initial, s.turns, n.turns, |s.turns| - 1);
    LastResult(s.initial, s.turns);
    LastResult(s.initial, n.turns);
  }

  lemma LastResult(initial: seq<Message>, turns: seq<Turn>)
    requires turns != []
    ensures var last := turns[|turns| - 1].outcome;
            ResultOf(initial, turns, |turns|)
              == if last.Succeeded? then last.messages else ResultOf(initial, turns, |turns| - 1)
  {
  }

  lemma HistoryEmit(s: Session, event: AgentEvent)
    requires Shape(s) && HistoryExact(s) && Enabled(s, Emit(event))
    ensures HistoryExact(Next(s, Emit(event)))
  {
    hide Staged, ResultOf, BasedOnResults;
    var n := Next(s, Emit(event));
    BasedSame(s.initial, s.turns, n.turns);
    ResultOfSame(s.initial, s.turns, n.turns, |s.turns|);
  }

  lemma BasedExtends(initial: seq<Message>, turns: seq<Turn>, turn: Turn)
    requires BasedOnResults(initial, turns)
    requires turn.base == ResultOf(initial, turns, |turns|) + [User(turn.input)]
    ensures BasedOnResults(initial, turns + [turn])
  {
    hide ResultOf;
    var more := turns + [turn];
    forall k | 0 <= k < |more| ensures more[k].base == ResultOf(initial, more, k) + [User(more[k].input)] {
      ResultOfSame(initial, turns, more, k);
    }
  }

  lemma HistoryStart(s: Session)
    requires Shape(s) && HistoryExact(s) && Enabled(s, StartTurn)
    ensures HistoryExact(Next(s, StartTurn))
  {
    hide ResultOf, BasedOnResults;
    var n := Next(s, StartTurn);
    var turn := n.turns[|s.turns|];
    assert n.turns == s.turns + [turn];
    BasedExtends(s.initial, s.turns, turn);
    ResultOfSame(s.initial, s.turns, n.turns, |s.turns|);
    LastResult(s.initial, n.turns);
  }

  lemma HistoryFrame(s: Session, step: Step)
    requires Shape(s) && Enabled(s, step) && !step.StartTurn? && !step.Emit? && !step.Settle? && !step.FinishTurn?
    ensures var n := Next(s, step);
            n.turns == s.turns && n.messages == s.messages && n.initial == s.initial && n.active == s.active
  {
    hide A.Next, A.Enabled, After, HandleFor, MapAgentEvent, UseOf, Staged, OnCommand, Notified, Named, Shape;
    match step
    case Command(command) => CommandFrame(s, command);
    case Approving(action) => QuietOutside(s, step);
    case NameCall(t, handle) => QuietOutside(s, step);
    case _ =>
  }

  lemma KeepsHistory(s: Session, step: Step)
    requires Shape(s) && HistoryExact(s) && Enabled(s, step)
    ensures HistoryExact(Next(s, step))
  {
    hide A.Next, A.Enabled, Next, HistoryExact, Settled, TurnFinishedWith, WithOutcome, ResultOf;
    var n := Next(s, step);
    match step
    case Emit(event) => HistoryEmit(s, event);
    case StartTurn => HistoryStart(s);
    case Settle(completed) =>
      SettleIs(s, completed);
      SettledFrame(s, completed);
      OutcomeSettles(s, n, Discarded);
    case FinishTurn =>
      var result := s.agent.result;
      FinishIs(s);
      TurnFinishedFrame(s, result);
      OutcomeSettles(s, n, if result.Completed? then Succeeded(result.messages) else Discarded);
    case _ =>
      HistoryFrame(s, step);
      HistorySame(s, n);
  }

  lemma SettleIs(s: Session, completed: bool)
    requires Enabled(s, Settle(completed))
    ensures s.phase.Aborting? && Next(s, Settle(completed)) == Settled(s, completed)
  {
  }

  lemma FinishIs(s: Session)
    requires Enabled(s, FinishTurn)
    ensures s.agent.Ended? && Next(s, FinishTurn) == TurnFinishedWith(s, s.agent.result)
  {
  }

  lemma HistorySame(s: Session, n: Session)
    requires HistoryExact(s) && n.turns == s.turns && n.messages == s.messages && n.initial == s.initial
      && n.active == s.active
    ensures HistoryExact(n)
  {
  }

  // ---------------------------------------------------------------- given a core that only appends

  ghost predicate AppendOnly(turns: seq<Turn>) {
    forall k :: 0 <= k < |turns| && turns[k].outcome.Succeeded? ==> turns[k].base <= turns[k].outcome.messages
  }

  /** Turn by turn, for those that completed: the input, then what the core appended. */
  function Grown(turns: seq<Turn>, n: nat): seq<Message>
    requires n <= |turns|
  {
    if n == 0 then []
    else if turns[n - 1].outcome.Succeeded? && turns[n - 1].base <= turns[n - 1].outcome.messages then
      Grown(turns, n - 1) + [User(turns[n - 1].input)] + turns[n - 1].outcome.messages[|turns[n - 1].base|..]
    else Grown(turns, n - 1)
  }

  /** One more completed turn: its base is what was there, and its input and what it appended come after. */
  lemma GrownByTurn(initial: seq<Message>, before: seq<Message>, turn: Turn)
    requires turn.outcome.Succeeded? && turn.base == initial + before + [User(turn.input)]
               && turn.base <= turn.outcome.messages
    ensures turn.outcome.messages
         == initial + (before + [User(turn.input)] + turn.outcome.messages[|turn.base|..])
  {
    var m := turn.outcome.messages;
    assert m == turn.base + m[|turn.base|..];
  }

  lemma GrownUnfold(turns: seq<Turn>, n: nat)
    requires 0 < n <= |turns| && AppendOnly(turns)
    ensures Grown(turns, n) ==
            if turns[n - 1].outcome.Succeeded? then
              Grown(turns, n - 1) + [User(turns[n - 1].input)] + turns[n - 1].outcome.messages[|turns[n - 1].base|..]
            else Grown(turns, n - 1)
  {
  }

  lemma ResultUnfold(initial: seq<Message>, turns: seq<Turn>, n: nat)
    requires 0 < n <= |turns| && BasedOnResults(initial, turns)
    ensures ResultOf(initial, turns, n) ==
            if turns[n - 1].outcome.Succeeded? then turns[n - 1].outcome.messages else ResultOf(initial, turns, n - 1)
    ensures turns[n - 1].base == ResultOf(initial, turns, n - 1) + [User(turns[n - 1].input)]
  {
  }

  lemma BaseWithin(turns: seq<Turn>, k: nat)
    requires k < |turns| && AppendOnly(turns)
    ensures turns[k].outcome.Succeeded? ==> turns[k].base <= turns[k].outcome.messages
  {
  }

  lemma {:induction false} ResultIsFold(initial: seq<Message>, turns: seq<Turn>, n: nat)
    requires n <= |turns| && BasedOnResults(initial, turns) && AppendOnly(turns)
    ensures ResultOf(initial, turns, n) == initial + Grown(turns, n)
    decreases n, 1
  {
    hide BasedOnResults, AppendOnly;
    if n > 0 {
      ResultFoldStep(initial, turns, n);
    }
  }

  lemma {:induction false} ResultFoldStep(initial: seq<Message>, turns: seq<Turn>, n: nat)
    requires 0 < n <= |turns| && BasedOnResults(initial, turns) && AppendOnly(turns)
    ensures ResultOf(initial, turns, n) == initial + Grown(turns, n)
    decreases n, 0
  {
    hide BasedOnResults, AppendOnly, ResultOf, Grown;
    ResultIsFold(initial, turns, n - 1);
    ResultUnfold(initial, turns, n);
    GrownUnfold(turns, n);
    BaseWithin(turns, n - 1);
    if turns[n - 1].outcome.Succeeded? {
      GrownByTurn(initial, Grown(turns, n - 1), turns[n - 1]);
    }
  }

  /**
   * The history is the initial messages, then for each completed turn in order its input and what the
   * core appended; cancelled and failed turns leave no trace.
   */
  lemma HistoryIsFoldOfCompletedTurns(s: Session)
    requires HistoryExact(s) && AppendOnly(s.turns)
    ensures s.messages == s.initial + Grown(s.turns, |s.turns|)
  {
    ResultIsFold(s.initial, s.turns, |s.turns|);
  }

  // ---------------------------------------------------------------- the closing count

  /** `done` reports the length of the history. */
  ghost predicate DoneCounts(s: Session) {
    s.phase.Flushing? || s.phase.Exited? ==>
      forall i :: 0 <= i < |s.tail| && s.tail[i].Terminal? && s.tail[i].event.Done? ==>
        s.tail[i].event.finalMessageCount == |s.messages|
  }

  lemma DoneOnCommand(s: Session, command: DaemonCommand)
    requires Polls(s) && Conserved(s)
    ensures DoneCounts(OnCommand(s, command))
  {
    hide A.Next, Ordinary, InLoop;
  }

  lemma KeepsDoneCounts(s: Session, step: Step)
    requires Shape(s) && Conserved(s) && DoneCounts(s) && Enabled(s, step)
    ensures DoneCounts(Next(s, step))
  {
    hide A.Next, A.Enabled, After, HandleFor, MapAgentEvent, UseOf, Staged, OnCommand, Settled, TurnFinishedWith,
      Notified, Named,
      Received, Ordinary, InLoop, WithEvent, Shape;
    if Outside(step) {
      OutsideFrame(s, step);
    }
    match step
    case Command(command) => DoneOnCommand(s, command);
    case Settle(completed) =>
      SettledFrame(s, completed);
      SettledPhase(s, completed);
    case FinishTurn =>
      var result := s.agent.result;
      TurnFinishedFrame(s, result);
      FinishTail(s);
    case Receive(handle) => ReceivedFrame(s, handle);
    case _ =>
  }

  lemma FinishTail(s: Session)
    requires Enabled(s, FinishTurn)
    ensures var n := TurnFinishedWith(s, s.agent.result);
            n.phase.Flushing? ==> forall i :: 0 <= i < |n.tail| ==> n.tail[i].Terminal? && n.tail[i].event.Crash?
  {
  }
}
