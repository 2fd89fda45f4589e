/**
 * The coordinator in place: its variables, its branches, and for each of them the step of the session
 * it takes. Nothing of the session's history is in the variables; the events in the held slot and on
 * the channels do not say where they come from.
 */
module WorkerLoop {
  import opened Text
  import opened Protocol
  import opened CallIds
  import opened RemoteApproval
  import opened Worker
  import opened WorkerInvariants
  import opened WorkerChannels
  import opened WorkerHistory
  import opened WorkerRuns
  import opened WorkerProgress
  import A = Approval

  datatype ApprovalNotice = ApprovalNotice(callId: Handle, tool: Tool, argumentsJson: string)

  /** Where the coordinator is. */
  datatype Place = AtHead | AwaitingAbort(stop: bool) | Closing(rest: seq<WorkerEvent>) | Left

  function Bare(notice: Notice): ApprovalNotice {
    ApprovalNotice(notice.callId, notice.tool, notice.argumentsJson)
  }

  function BareNotices(notices: seq<Notice>): seq<ApprovalNotice> {
    seq(|notices|, i requires 0 <= i < |notices| => Bare(notices[i]))
  }

  function Events(items: seq<Item>): seq<WorkerEvent> {
    seq(|items|, i requires 0 <= i < |items| => items[i].event)
  }

  function EventIn(held: Option<Item>): Option<WorkerEvent> {
    if held.Some? then Some(held.value.event) else None
  }

  function NoticeIn(barrier: Option<Notice>): Option<ApprovalNotice> {
    if barrier.Some? then Some(Bare(barrier.value)) else None
  }

  function PlaceOf(phase: Phase): Place {
    match phase
    case Looping => AtHead
    case Aborting(stop) => AwaitingAbort(stop)
    case Flushing(rest) => Closing(Events(rest))
    case Exited => Left
  }

  /** A held event is an approval request exactly when it looks like one. */
  ghost predicate KindShows(held: Option<Item>) {
    held.Some? ==> (held.value.Ask? <==> held.value.event.NeedsApproval?)
  }

  function Pending(held: Option<WorkerEvent>): seq<WorkerEvent> {
    if held.Some? then [held.value] else []
  }

  /** Which branch of a `select!` is taken, of those it waits on. */
  datatype Ready =
    | CommandReady(command: DaemonCommand)
    | ReaderFailed
    | ReaderClosed
    | PermitReady
    | WriterGone
    | NoticeReady
    | EventReady

  /** The step of a branch. */
  function StepOf(s: Session, ready: Ready, supply: Handle): Step {
    match ready
    case CommandReady(command) => Command(command)
    case ReaderFailed => ReadFailed
    case ReaderClosed => StreamClosed
    case PermitReady => Permit
    case WriterGone => WriterClosed
    case NoticeReady => TakeNotice
    case EventReady => if s.inbox != [] then Receive(supply) else FinishTurn
  }

  /** What a `select!` does: the branch's step when it can be taken, and else it goes on waiting. */
  function Branch(s: Session, ready: Ready, supply: Handle): Option<Step> {
    var step := StepOf(s, ready, supply);
    if Enabled(s, step) then Some(step) else None
  }

  /** What one pass of the loop body does. */
  function Pass(s: Session, ready: Ready, supply: Handle): seq<Step> {
    if Enabled(s, StartTurn) then [StartTurn]
    else if Polls(s) then Steps(Branch(s, ready, supply))
    else if Enabled(s, Receive(supply)) then [Receive(supply)]
    else if Enabled(s, BarrierEmpty) then [BarrierEmpty]
    else if Enabled(s, BarrierGone) then [BarrierGone] + Steps(Branch(Next(s, BarrierGone), ready, supply))
    else []
  }

  /** At most one step. */
  function Steps(step: Option<Step>): seq<Step> {
    if step.Some? then [step.value] else []
  }

  /** What a `select!` that polls the commands owes to the branch that is ready. */
  ghost predicate SelectOwes(s: Session, ready: Ready, supply: Handle, steps: seq<Step>) {
    match ready
    case CommandReady(command) => steps == [Command(command)]
    case ReaderFailed => steps == [ReadFailed]
    case ReaderClosed => steps == [StreamClosed]
    case PermitReady => s.held.Some? && s.room > 0 ==> steps == [Permit]
    case WriterGone => s.held.Some? ==> steps == [WriterClosed]
    case NoticeReady => s.active && s.barrier.None? && s.notices != [] ==> steps == [TakeNotice]
    case EventReady =>
      s.active && s.held.None? && s.barrier.None? ==>
        && (s.inbox != [] ==> steps == [Receive(supply)])
        && (s.inbox == [] && s.agent.Ended? ==> steps == [FinishTurn])
  }

  /**
   * What one pass of the loop body owes: a command that is polled for and there is taken, as is whatever
   * else is ready and possible; and a pass that does not poll gets on with the turn.
   */
  ghost predicate PassOwes(s: Session, ready: Ready, supply: Handle, steps: seq<Step>) {
    if Polls(s) then SelectOwes(s, ready, supply, steps)
    else
      && steps != [] && Iteration(steps[0])
      && (if steps[0].BarrierGone? then ready.CommandReady? ==> steps[1..] == [Command(ready.command)]
          else |steps| == 1)
  }

  lemma PassIsOwed(s: Session, ready: Ready, supply: Handle)
    requires Shape(s) && s.phase.Looping?
    ensures PassOwes(s, ready, supply, Pass(s, ready, supply))
  {
    hide Next, A.Enabled;
    if Enabled(s, BarrierGone) {
      BarrierGoneIs(s);
    }
  }

  lemma BarrierGoneIs(s: Session)
    requires Enabled(s, BarrierGone)
    ensures Next(s, BarrierGone) == s.(barrier := None)
  {
  }

  lemma RunOfSteps(s: Session, step: Option<Step>, n: Session)
    requires if step.Some? then Enabled(s, step.value) && n == Next(s, step.value) else n == s
    ensures Run(s, Steps(step), n)
  {
    hide Enabled, Next;
    if step.Some? {
      assert [step.value][1..] == [];
      assert Run(n, [], n);
    }
  }

  lemma RunThen(s: Session, first: Step, step: Option<Step>, n: Session)
    requires Enabled(s, first) && Run(Next(s, first), Steps(step), n)
    ensures Run(s, [first] + Steps(step), n)
  {
    hide Enabled, Next;
    assert ([first] + Steps(step))[1..] == Steps(step);
  }

  class Connection {
    const approver: RemoteApprover
    const callIds: CallIdMapper
    // channels
    var room: nat
    var outbound: seq<WorkerEvent>
    var notices: seq<ApprovalNotice>
    // the active turn's task
    var agent: Agent
    var inbox: seq<AgentEvent>
    // the coordinator's own
    var place: Place
    var active: bool
    var queuedInputs: seq<string>
    var pendingEvent: Option<WorkerEvent>
    var approvalBarrier: Option<ApprovalNotice>
    var messages: seq<Message>
    ghost var session: Session

    ghost predicate Valid()
      reads this, approver, callIds
    {
      && approver.Valid() && approver.callIds == callIds && session.ap == approver.st && session.ids == callIds.active
      && room == session.room && outbound == Events(session.sent) && notices == BareNotices(session.notices)
      && agent == session.agent && inbox == session.inbox
      && place == PlaceOf(session.phase) && active == session.active && queuedInputs == session.queued
      && pendingEvent == EventIn(session.held) && approvalBarrier == NoticeIn(session.barrier)
      && messages == session.messages
      && KindShows(session.held) && Shape(session)
    }

    constructor (tools: set<Tool>, initial: seq<Message>)
      ensures Valid() && session == Init(tools, initial) && fresh(approver) && fresh(callIds)
    {
      var mapper := new CallIdMapper();
      callIds := mapper;
      approver := new RemoteApprover(mapper, tools);
      room, outbound, notices := EVENT_CAPACITY, [], [];
      agent, inbox := NoAgent, [];
      place, active, queuedInputs := AtHead, false, [];
      pendingEvent, approvalBarrier, messages := None, None, initial;
      session := Init(tools, initial);
    }

    // ---------------------------------------------------------------- commands

    /** Idle with a held event: an input is checked against the bound. */
    method CommandWhileHolding(command: DaemonCommand)
      requires Valid() && !active && pendingEvent.Some? && Enabled(session, Command(command))
      modifies this, approver
      ensures Valid() && session == Next(old(session), Command(command))
    {
      hide A.Next, A.Inv, Shape;
      KeepsShape(session, Command(command));
      session := Next(session, Command(command));
      match command
      case Input(text) =>
        if |queuedInputs| == MAX_QUEUED_INPUTS {
          EventsTail(session.held, Terminal(Crash(OVERFLOW)));
          SendOrderedTerminal(pendingEvent, Crash(OVERFLOW));
        } else {
          queuedInputs := queuedInputs + [text];
        }
      case Approve(callId, decision) => var _ := approver.Resolve(callId, decision);
      case Cancel =>
      case Stop =>
        EventsTail(session.held, DoneEvent(|messages|));
        SendOrderedTerminal(pendingEvent, Done(|messages|));
    }

    /** Idle with nothing held and nothing queued: an input is just queued. */
    method CommandWhileIdle(command: DaemonCommand)
      requires Valid() && !active && pendingEvent.None? && queuedInputs == [] && Enabled(session, Command(command))
      modifies this, approver
      ensures Valid() && session == Next(old(session), Command(command))
    {
      hide A.Next, A.Inv, Shape;
      KeepsShape(session, Command(command));
      session := Next(session, Command(command));
      match command
      case Input(text) => queuedInputs := queuedInputs + [text];
      case Approve(callId, decision) => var _ := approver.Resolve(callId, decision);
      case Cancel =>
      case Stop =>
        EventsTail(session.held, DoneEvent(|messages|));
        SendOrderedTerminal(None, Done(|messages|));
    }

    /** During a turn: cancel and stop abort the agent task first. */
    method CommandDuringTurn(command: DaemonCommand)
      requires Valid() && active && Enabled(session, Command(command))
      modifies this, approver
      ensures Valid() && session == Next(old(session), Command(command))
    {
      hide A.Next, A.Inv, Shape;
      KeepsShape(session, Command(command));
      session := Next(session, Command(command));
      match command
      case Input(text) =>
        if |queuedInputs| == MAX_QUEUED_INPUTS {
          EventsTail(session.held, Terminal(Crash(OVERFLOW)));
          SendOrderedTerminal(pendingEvent, Crash(OVERFLOW));
        } else {
          queuedInputs := queuedInputs + [text];
        }
      case Approve(callId, decision) => var _ := approver.Resolve(callId, decision);
      case Cancel => place := AwaitingAbort(false);
      case Stop => place := AwaitingAbort(true);
    }

    /** Out of the loop, with these events to be enqueued before the deadline. */
    method SendOrderedTerminal(held: Option<WorkerEvent>, terminal: WorkerEvent)
      modifies this`place
      ensures place == Closing(Pending(held) + [terminal])
    {
      place := Closing((if held.Some? then [held.value] else []) + [terminal]);
    }

    /** The frame reader failed, the command channel or the writer closed. */
    method Break(ghost step: Step)
      requires Valid() && Enabled(session, step) && (step.ReadFailed? || step.StreamClosed? || step.WriterClosed?)
      modifies this
      ensures Valid() && session == Next(old(session), step)
    {
      hide Shape;
      KeepsShape(session, step);
      session := Next(session, step);
      place := Closing([]);
    }

    // ---------------------------------------------------------------- the aborted turn

    /** Waiters, call identities, notices and a held request go; an ordinary held event stays. */
    method DiscardApprovals()
      requires approver.Valid()
      modifies approver, callIds, this`notices, this`pendingEvent
      ensures approver.Valid() && approver.st == A.Next(old(approver.st), A.CancelPending)
      ensures callIds.active == map[] && notices == []
      ensures pendingEvent == if old(pendingEvent).Some?
        && old(pendingEvent).value.NeedsApproval? then None else old(pendingEvent)
    {
      hide A.Next;
      approver.CancelPending();
      callIds.Clear();
      notices := [];
      if pendingEvent.Some? && pendingEvent.value.NeedsApproval? {
        pendingEvent := None;
      }
    }

    /** The tail of `cancel`: the agent task has ended, or its deadline has passed. */
    method FinishCancel(completed: bool)
      requires Valid() && Enabled(session, Settle(completed)) && !place.stop
      modifies this, approver, callIds
      ensures Valid() && session == Next(old(session), Settle(completed))
    {
      hide Shape, Next, RemoteApprover.Valid;
      if completed {
        ResumeIdle();
      } else {
        GiveUp();
      }
    }

    method ResumeIdle()
      requires Valid() && Enabled(session, Settle(true)) && !place.stop
      modifies this, approver, callIds
      ensures Valid() && session == Next(old(session), Settle(true))
    {
      hide A.Next, A.Inv, A.TableExact, A.OpenBefore, Shape, WithOutcome, Next, Enabled, HeldItems, Events,
        BareNotices, RemoteApprover.Valid;
      AbortAwaited(session, true);
      CancelledIs(session, true);
      KeepsShape(session, Settle(true));
      BareNone();
      session := Next(session, Settle(true));
      DiscardApprovals();
      active, approvalBarrier, agent, inbox, place := false, None, NoAgent, [], AtHead;
    }

    /** Out of the loop with a crash, the agent task left behind. */
    method GiveUp()
      requires Valid() && Enabled(session, Settle(false)) && !place.stop
      modifies this, approver, callIds
      ensures Valid() && session == Next(old(session), Settle(false))
    {
      hide A.Next, A.Inv, A.TableExact, A.OpenBefore, Shape, WithOutcome, Next, Enabled, HeldItems, Events,
        BareNotices, RemoteApprover.Valid;
      AbortAwaited(session, false);
      CancelledIs(session, false);
      KeepsShape(session, Settle(false));
      BareNone();
      session := Next(session, Settle(false));
      DiscardApprovals();
      active, approvalBarrier := false, None;
      SendOrderedTerminal(pendingEvent, Crash(CANCEL_TIMEOUT));
      EventsTail(session.held, Terminal(Crash(CANCEL_TIMEOUT)));
    }

    /** The tail of `stop`, whether or not the agent task has ended. */
    method FinishStop(completed: bool)
      requires Valid() && Enabled(session, Settle(completed)) && place.stop
      modifies this, approver, callIds
      ensures Valid() && session == Next(old(session), Settle(completed))
    {
      hide A.Next, A.Inv, A.TableExact, A.OpenBefore, Shape, WithOutcome, Settled, Next, HeldItems, Events,
        BareNotices, RemoteApprover.Valid;
      SettleIs(session, completed);
      KeepsShape(session, Settle(completed));
      SettledFrame(session, completed);
      SettledPhase(session, completed);
      SettledRest(session, completed);
      session := Next(session, Settle(completed));
      DiscardApprovals();
      active := false;
      SendOrderedTerminal(pendingEvent, Done(|messages|));
      EventsTail(session.held, DoneEvent(|messages|));
      BareNone();
    }

    // ---------------------------------------------------------------- events and notices

    /** A permit on the outbound channel. */
    method SendPending()
      requires Valid() && Enabled(session, Permit)
      modifies this
      ensures Valid() && session == Next(old(session), Permit)
    {
      hide Shape;
      KeepsShape(session, Permit);
      session := Next(session, Permit);
      outbound := outbound + [pendingEvent.value];
      pendingEvent := None;
      room := room - 1;
    }

    method TakeBarrier()
      requires Valid() && Enabled(session, TakeNotice)
      modifies this
      ensures Valid() && session == Next(old(session), TakeNotice)
    {
      hide Shape;
      KeepsShape(session, TakeNotice);
      session := Next(session, TakeNotice);
      approvalBarrier := Some(notices[0]);
      notices := notices[1..];
    }

    /** The core has been drained up to the request. */
    method PassBarrier()
      requires Valid() && Enabled(session, BarrierEmpty)
      modifies this
      ensures Valid() && session == Next(old(session), BarrierEmpty)
    {
      hide Shape;
      KeepsShape(session, BarrierEmpty);
      session := Next(session, BarrierEmpty);
      var notice := approvalBarrier.value;
      pendingEvent := Some(NeedsApproval(notice.callId, notice.tool, notice.argumentsJson));
      approvalBarrier := None;
    }

    method DropBarrier()
      requires Valid() && Enabled(session, BarrierGone)
      modifies this
      ensures Valid() && session == Next(old(session), BarrierGone)
    {
      hide Shape;
      KeepsShape(session, BarrierGone);
      session := Next(session, BarrierGone);
      approvalBarrier := None;
    }

    method MapEvent(event: AgentEvent, supply: Handle, ghost turn: nat) returns (mapped: WorkerEvent)
      modifies callIds
      ensures var use := UseOf(event, turn);
              if use.Some? then
                && mapped == MapAgentEvent(event, HandleFor(old(callIds.active), use.value, supply))
                && callIds.active == After(old(callIds.active), use.value, supply)
              else mapped == MapAgentEvent(event, "") && callIds.active == old(callIds.active)
      ensures !mapped.NeedsApproval? && exists id :: Reported(mapped, id) == Some(event)
    {
      hide HandleFor, After;
      ghost var named := if event.CoreToolStart? || event.CoreToolResult? then event.id else "";
      match event {
        case CoreTextDelta(text) => mapped := TextDelta(text);
        case CoreAssistantMessage(text) => mapped := AssistantMessage(text);
        case CoreToolStart(id, name, argumentsJson) =>
          var handle := callIds.StartEvent(id, supply, turn);
          mapped := ToolStart(handle, name, argumentsJson);
        case CoreToolResult(id, name, content, isError) =>
          var handle := callIds.Finish(id, supply, turn);
          mapped := ToolResult(handle, name, content, isError);
        case CoreTurnFinished => mapped := TurnFinished;
      }
      assert Reported(mapped, named) == Some(event);
    }

    method ReceiveEvent(supply: Handle)
      requires Valid() && Enabled(session, Receive(supply))
      modifies this, callIds
      ensures Valid() && session == Next(old(session), Receive(supply))
    {
      hide Shape, HandleFor, After, UseOf, MapAgentEvent;
      KeepsShape(session, Receive(supply));
      ghost var turn := CurrentTurn(session);
      session := Next(session, Receive(supply));
      var event := inbox[0];
      inbox := inbox[1..];
      var mapped := MapEvent(event, supply, turn);
      pendingEvent := Some(mapped);
    }

    // ---------------------------------------------------------------- turns

    method BeginTurn()
      requires Valid() && Enabled(session, StartTurn)
      modifies this
      ensures Valid() && session == Next(old(session), StartTurn)
    {
      hide Shape;
      KeepsShape(session, StartTurn);
      session := Next(session, StartTurn);
      queuedInputs := queuedInputs[1..];
      active, agent, inbox := true, Running, [];
    }

    method EndTurn()
      requires Valid() && Enabled(session, FinishTurn)
      modifies this, callIds
      ensures Valid() && session == Next(old(session), FinishTurn)
    {
      hide Shape, Next, RemoteApprover.Valid;
      if agent.result.Completed? {
        KeepTurn();
      } else {
        FailTurn();
      }
    }

    /** The turn has completed: its result is the history from now on. */
    method KeepTurn()
      requires Valid() && Enabled(session, FinishTurn) && agent.result.Completed?
      modifies this, callIds
      ensures Valid() && session == Next(old(session), FinishTurn)
    {
      hide Shape, WithOutcome, Events, BareNotices, RemoteApprover.Valid, Next;
      CompletedIs(session);
      KeepsShape(session, FinishTurn);
      BareNone();
      session := Next(session, FinishTurn);
      active, messages, agent := false, agent.result.messages, NoAgent;
      callIds.Clear();
      notices := [];
    }

    /** The turn has failed, or its task was aborted or panicked. */
    method FailTurn()
      requires Valid() && Enabled(session, FinishTurn) && !agent.result.Completed?
      modifies this
      ensures Valid() && session == Next(old(session), FinishTurn)
    {
      hide Shape, WithOutcome, BareNotices, RemoteApprover.Valid, Next;
      FailedIs(session);
      KeepsShape(session, FinishTurn);
      session := Next(session, FinishTurn);
      active := false;
      place := Closing(if agent.result.Failed? then [Crash(agent.result.error)] else []);
    }

    // ---------------------------------------------------------------- the loop body

    /** The `select!` of an idle coordinator with a held event. */
    method SelectWhileHolding(ready: Ready, supply: Handle) returns (ghost step: Option<Step>)
      requires Valid() && place.AtHead? && !active && pendingEvent.Some?
      modifies this, approver
      ensures Valid() && step == Branch(old(session), ready, supply)
      ensures session == if step.Some? then Next(old(session), step.value) else old(session)
    {
      hide Shape, Next, RemoteApprover.Valid;
      step := None;
      match ready
      case CommandReady(command) =>
        step := Some(Command(command));
        CommandWhileHolding(command);
      case ReaderFailed =>
        step := Some(ReadFailed);
        Break(ReadFailed);
      case ReaderClosed =>
        step := Some(StreamClosed);
        Break(StreamClosed);
      case PermitReady =>
        if room > 0 {
          step := Some(Permit);
          SendPending();
        }
      case WriterGone =>
        step := Some(WriterClosed);
        Break(WriterClosed);
      case _ =>
    }

    /** An idle coordinator with nothing to send or to start waits for a command. */
    method AwaitCommand(ready: Ready, supply: Handle) returns (ghost step: Option<Step>)
      requires Valid() && place.AtHead? && !active && pendingEvent.None? && queuedInputs == []
      modifies this, approver
      ensures Valid() && step == Branch(old(session), ready, supply)
      ensures session == if step.Some? then Next(old(session), step.value) else old(session)
    {
      hide Shape, Next, RemoteApprover.Valid;
      step := None;
      match ready
      case CommandReady(command) =>
        step := Some(Command(command));
        CommandWhileIdle(command);
      case ReaderFailed =>
        step := Some(ReadFailed);
        Break(ReadFailed);
      case ReaderClosed =>
        step := Some(StreamClosed);
        Break(StreamClosed);
      case _ =>
    }

    /** The `select!` during a turn, each branch with its guard. */
    method SelectDuringTurn(ready: Ready, supply: Handle) returns (ghost step: Option<Step>)
      requires Valid() && place.AtHead? && active && (pendingEvent.Some? || approvalBarrier.None?)
      modifies this, approver, callIds
      ensures Valid() && step == Branch(old(session), ready, supply)
      ensures session == if step.Some? then Next(old(session), step.value) else old(session)
    {
      hide Shape, Next, RemoteApprover.Valid;
      step := None;
      match ready
      case CommandReady(command) =>
        step := Some(Command(command));
        CommandDuringTurn(command);
      case ReaderFailed =>
        step := Some(ReadFailed);
        Break(ReadFailed);
      case ReaderClosed =>
        step := Some(StreamClosed);
        Break(StreamClosed);
      case PermitReady =>
        if pendingEvent.Some? && room > 0 {
          step := Some(Permit);
          SendPending();
        }
      case WriterGone =>
        if pendingEvent.Some? {
          step := Some(WriterClosed);
          Break(WriterClosed);
        }
      case NoticeReady =>
        if approvalBarrier.None? && notices != [] {
          step := Some(TakeNotice);
          TakeBarrier();
        }
      case EventReady =>
        if pendingEvent.None? && approvalBarrier.None? {
          if inbox != [] {
            step := Some(Receive(supply));
            ReceiveEvent(supply);
          } else if agent.Ended? {
            step := Some(FinishTurn);
            EndTurn();
          }
        }
    }

    method PassWhileIdle(ready: Ready, supply: Handle) returns (ghost steps: seq<Step>)
      requires Valid() && place.AtHead? && !active
      modifies this, approver
      ensures Valid() && steps == Pass(old(session), ready, supply) && Run(old(session), steps, session)
    {
      hide Shape, Next, Run, RemoteApprover.Valid;
      ghost var before := session;
      ghost var step: Option<Step> := None;
      if pendingEvent.Some? {
        step := SelectWhileHolding(ready, supply);
      } else if queuedInputs != [] {
        step := Some(StartTurn);
        BeginTurn();
      } else {
        step := AwaitCommand(ready, supply);
      }
      RunOfSteps(before, step, session);
      return Steps(step);
    }

    /** `try_recv` behind a barrier. */
    method PassBehindBarrier(ready: Ready, supply: Handle) returns (ghost steps: seq<Step>)
      requires Valid() && place.AtHead? && active && pendingEvent.None? && approvalBarrier.Some?
      modifies this, approver, callIds
      ensures Valid() && steps == Pass(old(session), ready, supply) && Run(old(session), steps, session)
    {
      hide Shape, Next, Run, RemoteApprover.Valid;
      ghost var before := session;
      if inbox != [] {
        ReceiveEvent(supply);
        RunOfSteps(before, Some(Receive(supply)), session);
        return [Receive(supply)];
      } else if agent.Running? {
        PassBarrier();
        RunOfSteps(before, Some(BarrierEmpty), session);
        return [BarrierEmpty];
      } else {
        ActiveHasTask(session);
        steps := DropBarrierAndSelect(ready, supply);
      }
    }

    /**
     * One pass of the loop body, as far as the next await of an abort: it takes exactly the steps that
     * the session offers for the branch that is ready, each branch's guard being its step's condition.
     */
    method Iterate(ready: Ready, supply: Handle) returns (ghost steps: seq<Step>)
      requires Valid() && place.AtHead?
      modifies this, approver, callIds
      ensures Valid() && steps == Pass(old(session), ready, supply) && Run(old(session), steps, session)
      ensures PassOwes(old(session), ready, supply, steps)
    {
      hide Shape, Next, Run, RemoteApprover.Valid, PassOwes;
      PassIsOwed(session, ready, supply);
      if !active {
        steps := PassWhileIdle(ready, supply);
      } else if pendingEvent.None? && approvalBarrier.Some? {
        steps := PassBehindBarrier(ready, supply);
      } else {
        ghost var before := session;
        ghost var step := SelectDuringTurn(ready, supply);
        RunOfSteps(before, step, session);
        return Steps(step);
      }
    }

    /** Disconnected: no `continue` here, the same pass goes on to the `select!`. */
    method DropBarrierAndSelect(ready: Ready, supply: Handle) returns (ghost steps: seq<Step>)
      requires Valid() && Enabled(session, BarrierGone)
      modifies this, approver, callIds
      ensures Valid() && Run(old(session), steps, session)
      ensures steps == [BarrierGone] + Steps(Branch(Next(old(session), BarrierGone), ready, supply))
    {
      hide Shape, Run, RemoteApprover.Valid;
      ghost var before := session;
      DropBarrier();
      ghost var between := session;
      ghost var step := SelectDuringTurn(ready, supply);
      RunOfSteps(between, step, session);
      RunThen(before, BarrierGone, step, session);
      return [BarrierGone] + Steps(step);
    }

    // ---------------------------------------------------------------- after the loop

    method EnqueueOne()
      requires Valid() && Enabled(session, FlushOne)
      modifies this
      ensures Valid() && session == Next(old(session), FlushOne)
    {
      hide Shape;
      KeepsShape(session, FlushOne);
      session := Next(session, FlushOne);
      outbound := outbound + [place.rest[0]];
      place := Closing(place.rest[1..]);
      room := room - 1;
    }

    method CleanUp()
      requires Valid() && Enabled(session, Leave)
      modifies this, approver, callIds
      ensures Valid() && session == Next(old(session), Leave)
    {
      hide A.Next, A.Inv, A.TableExact, A.OpenBefore, Shape, Events, BareNotices, RemoteApprover.Valid, Next, Enabled;
      LeaveIs(session);
      KeepsShape(session, Leave);
      BareNone();
      session := Next(session, Leave);
      approver.CancelPending();
      callIds.Clear();
      notices := [];
      place := Left;
    }
  }

  // ---------------------------------------------------------------- what the passes come to

  lemma RunOne(s: Session, step: Step, n: Session)
    requires Run(s, [step], n)
    ensures Enabled(s, step) && n == Next(s, step)
  {
    hide Enabled, Next;
    assert [step][1..] == [];
  }

  lemma IterationIsInside(step: Step)
    requires Iteration(step)
    ensures !Outside(step)
  {
  }

  /**
   * Whatever the outbound channel's state, and whatever the agent task and the peer do in between, a
   * command that waits is taken by one of two successive passes.
   */
  lemma CommandIsHeard(command: DaemonCommand, s: Session, first: seq<Step>, m: Session, between: seq<Step>, t: Session,
                       second: seq<Step>, supply: Handle, supply': Handle)
    requires Inv(s) && s.phase.Looping?
    requires PassOwes(s, CommandReady(command), supply, first) && Run(s, first, m)
    requires Run(m, between, t) && forall i :: 0 <= i < |between| ==> Outside(between[i])
    requires PassOwes(t, CommandReady(command), supply', second)
    ensures Command(command) in first || second == [Command(command)]
  {
    hide Inv, Next, Enabled, Polls, Iteration;
    if !Polls(s) {
      var step := first[0];
      if step.BarrierGone? {
        assert first[1..][0] == Command(command);
      } else {
        assert first == [step];
        RunOne(s, step, m);
        IterationIsInside(step);
        PollsAfter(s, step);
        KeepsInv(s, step);
        PollsThrough(m, between, t);
      }
    }
  }

  /** While a request is on its way and there is room, some branch is ready with which a pass brings it closer. */
  lemma PassBringsCloser(s: Session, t: nat) returns (ready: Ready)
    requires OnItsWay(s, t) && s.room > 0
    ensures forall supply, steps :: PassOwes(s, ready, supply, steps) ==> steps != [] && Iteration(steps[0])
    ensures !ready.CommandReady?
  {
    hide Ahead;
    ready := if s.held.Some? then PermitReady else NoticeReady;
    if s.held.None? && s.barrier.None? {
      AheadOfSome(s.notices, t);
    }
  }

  lemma AheadOfSome(notices: seq<Notice>, t: nat)
    requires Ahead(notices, t) < |notices|
    ensures notices != []
  {
  }

  // What the larger steps come to, field by field.

  lemma LeaveIs(s: Session)
    requires Enabled(s, Leave)
    ensures Next(s, Leave) ==
            s.(ap := A.Next(s.ap, A.CancelPending), ids := map[], uses := s.uses + [Cleared], supply := s.supply + [""],
               notices := [], phase := Exited)
  {
    hide A.Next;
  }

  lemma CancelledIs(s: Session, completed: bool)
    requires Enabled(s, Settle(completed)) && !s.phase.stop
    ensures var held := if HoldsAsk(s.held) then None else s.held;
            var settled :=
              s.(ap := A.Next(s.ap, A.CancelPending), ids := map[], uses := s.uses + [Cleared],
                supply := s.supply + [""],
                 notices := [], held := held, active := false, turns := WithOutcome(s.turns, Discarded),
                   barrier := None);
            var tail := HeldItems(held) + [Terminal(Crash(CANCEL_TIMEOUT))];
            Next(s, Settle(completed)) ==
              if completed then settled.(phase := Looping, agent := NoAgent, inbox := [])
              else settled.(phase := Flushing(tail), atExit := s.sent, tail := tail)
  {
    hide A.Next, WithOutcome, HeldItems;
  }

  lemma CompletedIs(s: Session)
    requires Enabled(s, FinishTurn) && s.agent.result.Completed?
    ensures var messages := s.agent.result.messages;
            Next(s, FinishTurn) ==
              s.(ids := map[], uses := s.uses + [Cleared], supply := s.supply + [""], notices := [], active := false,
                 agent := NoAgent, messages := messages, turns := WithOutcome(s.turns, Succeeded(messages)))
  {
    hide WithOutcome;
  }

  lemma FailedIs(s: Session)
    requires Enabled(s, FinishTurn) && !s.agent.result.Completed?
    ensures var result := s.agent.result;
            var tail := if result.Failed? then [Terminal(Crash(result.error))] else [];
            Next(s, FinishTurn) ==
              s.(active := false, turns := WithOutcome(s.turns, Discarded), phase := Flushing(tail),
                atExit := s.sent, tail := tail)
  {
    hide WithOutcome;
  }

  lemma ActiveHasTask(s: Session)
    requires Shape(s) && s.phase.Looping? && s.active
    ensures !s.agent.NoAgent?
  {
  }

  lemma AbortAwaited(s: Session, completed: bool)
    requires Enabled(s, Settle(completed))
    ensures s.phase.Aborting?
  {
  }

  lemma EventsTail(held: Option<Item>, item: Item)
    ensures Events(HeldItems(held) + [item]) == Pending(EventIn(held)) + [item.event]
  {
  }

  lemma BareNone()
    ensures BareNotices([]) == []
  {
  }
}
