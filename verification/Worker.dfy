/**
 * One worker session as a step relation: the coordinator loop, the agent task with its approval
 * requests, the shared call-ID mapper, the bounded channels and the peer. Coordinator steps are one
 * per `select!` arm or `continue`; every other step may fall between any two of them. Besides the
 * program's state a session carries its history, which no step looks at.
 */
module Worker {
  import opened Text
  import opened Protocol
  import opened CallIds
  import A = Approval

  const MAX_QUEUED_INPUTS: nat := 32
  const EVENT_CAPACITY: nat := 64
  const APPROVAL_CAPACITY: nat := 64

  /** A conversation message; the worker itself only makes user messages. */
  datatype Message = User(text: string) | Other(text: string)

  datatype AgentEvent =
    | CoreTextDelta(text: string)
    | CoreAssistantMessage(text: string)
    | CoreToolStart(id: ProviderId, name: string, argumentsJson: string)
    | CoreToolResult(id: ProviderId, name: string, content: string, isError: bool)
    | CoreTurnFinished

  datatype TaskResult = Completed(messages: seq<Message>) | Failed(error: string) | Aborted

  datatype Agent = NoAgent | Running | Ended(result: TaskResult)

  /** An internal approval notice. `token` and `use` say whose it is; the program carries the rest. */
  datatype Notice = Notice(token: nat, use: nat, callId: Handle, tool: Tool, argumentsJson: string)

  /** An outbound event, with where it comes from. */
  datatype Item =
    | Core(turn: nat, index: int, origin: Option<nat>, event: WorkerEvent)
    | Ask(token: nat, use: nat, event: WorkerEvent)
    | Terminal(event: WorkerEvent)

  /** An invocation of `approve`: for which call, and how much of the turn had been emitted by then. */
  datatype Request = Request(turn: nat, id: ProviderId, argumentsJson: string, before: nat, use: nat)

  /** How far a provider identity has got in the current turn. */
  datatype Stage = Asked | Started | Resulted

  datatype TurnOutcome = InProgress | Succeeded(messages: seq<Message>) | Discarded

  /** A turn: its input, the messages it started from, what became of it, and what the core emitted. */
  datatype Turn = Turn(input: string, base: seq<Message>, outcome: TurnOutcome, events: seq<AgentEvent>)

  datatype Phase =
    | Looping
    | Aborting(stop: bool)           // cancel or stop has aborted the agent task and waits for it
    | Flushing(rest: seq<Item>)      // out of the loop, still to be placed on the channel
    | Exited

  datatype Session = Session(
    // approval adapter, mapper and the channels
    ap: A.State,
    ids: Ids,
    notices: seq<Notice>,
    room: nat,
    // the agent task
    agent: Agent,
    inbox: seq<AgentEvent>,
    // the coordinator
    phase: Phase,
    active: bool,
    queued: seq<string>,
    held: Option<Item>,
    barrier: Option<Notice>,
    messages: seq<Message>,
    // history
    uses: seq<Use>,
    supply: seq<Handle>,
    useBase: nat,                    // operations on the mapper before the current turn
    requests: seq<Request>,          // one per token
    stages: map<ProviderId, Stage>,
    received: seq<Item>,             // core events, as mapped
    sent: seq<Item>,                 // everything placed on the outbound channel
    atExit: seq<Item>,               // what had been sent when the loop was left
    tail: seq<Item>,                 // what leaving it meant to add
    initial: seq<Message>,
    turns: seq<Turn>,
    accepted: seq<string>)           // inputs taken in

  datatype Step =
    // the peer
    | Drain
    // the agent task
    | Emit(event: AgentEvent)
    | Request'(tool: Tool, id: ProviderId, argumentsJson: string)
    | NameCall(t: nat, handle: Handle)
    | Approving(action: A.Action)
    | EndTask(result: TaskResult)
    // the coordinator
    | Command(command: DaemonCommand)
    | ReadFailed
    | StreamClosed
    | Permit
    | WriterClosed
    | TakeNotice
    | Receive(handle: Handle)
    | BarrierEmpty
    | BarrierGone
    | StartTurn
    | FinishTurn
    | Settle(completed: bool)
    | FlushOne
    | Leave

  function Init(registered: set<Tool>, messages: seq<Message>): Session {
    Session(A.Init(registered), map[], [], EVENT_CAPACITY, NoAgent, [],
            Looping, false, [], None, None, messages,
            [], [], 0, [], map[], [], [], [], [], messages, [], [])
  }

  // ---------------------------------------------------------------- mapping events

  function UseOf(event: AgentEvent, turn: nat): Option<Use> {
    match event
    case CoreToolStart(id, _, _) => Some(EventStarted(Call(turn, id)))
    case CoreToolResult(id, _, _, _) => Some(Finished(Call(turn, id)))
    case _ => None
  }

  function MapAgentEvent(event: AgentEvent, handle: Handle): WorkerEvent {
    match event
    case CoreTextDelta(text) => TextDelta(text)
    case CoreAssistantMessage(text) => AssistantMessage(text)
    case CoreToolStart(_, name, arguments) => ToolStart(handle, name, arguments)
    case CoreToolResult(_, name, content, isError) => ToolResult(handle, name, content, isError)
    case CoreTurnFinished => TurnFinished
  }

  function MapApprovalNotice(notice: Notice): Item {
    Ask(notice.token, notice.use, NeedsApproval(notice.callId, notice.tool, notice.argumentsJson))
  }

  function DoneEvent(count: nat): Item { Terminal(Done(count)) }

  const OVERFLOW := "worker input queue limit exceeded (maximum 32)"
  const CANCEL_TIMEOUT := "agent cancellation cleanup deadline exceeded"

  // ---------------------------------------------------------------- when a step can be taken

  function CurrentTurn(s: Session): nat {
    if s.turns == [] then 0 else |s.turns| - 1
  }

  /** What the core has emitted in the current turn. */
  function Emitted(s: Session): seq<AgentEvent> {
    if s.turns == [] then [] else s.turns[|s.turns| - 1].events
  }

  /** How much of it the coordinator has taken. */
  function Consumed(s: Session): int {
    |Emitted(s)| - |s.inbox|
  }

  /** The coordinator's next iteration polls the command channel. */
  predicate Polls(s: Session) {
    && s.phase.Looping?
    && if s.active then s.held.Some? || s.barrier.None? else s.held.Some? || s.queued == []
  }

  predicate Enabled(s: Session, step: Step) {
    match step
    case Drain => s.room < EVENT_CAPACITY
    case Emit(_) => s.agent.Running?
    case Request'(_, _, _) => s.agent.Running?
    case NameCall(t, handle) => s.agent.Running? && A.Enabled(s.ap, A.Name(t, handle)) && t < |s.requests|
    case Approving(action) =>
      && s.agent.Running? && A.Enabled(s.ap, action)
      && (match action
          case Notify(t) => |s.notices| < APPROVAL_CAPACITY && t < |s.requests|
          case Undeliverable(_) => s.phase.Exited?
          case Check(_) | Register(_) | Wake(_) | Abandon(_) | Unguard(_) => true
          case _ => false)
    case EndTask(_) => s.agent.Running? && forall t :: 0 <= t < |s.ap.calls| ==> s.ap.calls[t].Over()
    case Command(_) | ReadFailed | StreamClosed => Polls(s)
    case Permit => s.phase.Looping? && s.held.Some? && s.room > 0
    case WriterClosed => s.phase.Looping? && s.held.Some?
    case TakeNotice => s.phase.Looping? && s.active && s.barrier.None? && s.notices != []
    case Receive(_) => s.phase.Looping? && s.active && s.held.None? && s.inbox != []
    case BarrierEmpty =>
      s.phase.Looping? && s.active && s.held.None? && s.barrier.Some? && s.inbox == [] && s.agent.Running?
    case BarrierGone =>
      s.phase.Looping? && s.active && s.held.None? && s.barrier.Some? && s.inbox == [] && s.agent.Ended?
    case StartTurn => s.phase.Looping? && !s.active && s.held.None? && s.queued != []
    case FinishTurn =>
      s.phase.Looping? && s.active && s.held.None? && s.barrier.None? && s.inbox == [] && s.agent.Ended?
    case Settle(completed) => s.phase.Aborting? && (completed ==> s.agent.Ended?)
    case FlushOne => s.phase.Flushing? && s.phase.rest != [] && s.room > 0
    case Leave => s.phase.Flushing?
  }

  // ---------------------------------------------------------------- what a step does

  function WithUse(s: Session, use: Use, handle: Handle): Session {
    s.(ids := After(s.ids, use, handle), uses := s.uses + [use], supply := s.supply + [handle])
  }

  /** `call_ids.clear()` and `drain_approval_notices`. */
  function Cleaned(s: Session): Session {
    WithUse(s, Cleared, "").(notices := [])
  }

  function CancelPending(s: Session): Session {
    s.(ap := A.Next(s.ap, A.CancelPending))
  }

  function HeldItems(held: Option<Item>): seq<Item> {
    if held.Some? then [held.value] else []
  }

  /** Out of the loop, with `tail` still to be enqueued before the deadline. */
  function BreakWith(s: Session, tail: seq<Item>): Session {
    s.(phase := Flushing(tail), atExit := s.sent, tail := tail)
  }

  /** Only a request for approval may be dropped from the held slot. */
  function WithoutHeldAsk(s: Session): Session {
    if s.held.Some? && s.held.value.Ask? then s.(held := None) else s
  }

  function WithOutcome(turns: seq<Turn>, outcome: TurnOutcome): seq<Turn> {
    if turns == [] then turns else turns[|turns| - 1 := turns[|turns| - 1].(outcome := outcome)]
  }

  function WithEvent(turns: seq<Turn>, event: AgentEvent): seq<Turn> {
    if turns == [] then turns
    else
      var last := turns[|turns| - 1];
      turns[|turns| - 1 := last.(events := last.events + [event])]
  }

  function OnInput(s: Session, text: string): Session {
    if (s.active || s.held.Some?) && |s.queued| == MAX_QUEUED_INPUTS then
      BreakWith(s, HeldItems(s.held) + [Terminal(Crash(OVERFLOW))])
    else s.(queued := s.queued + [text], accepted := s.accepted + [text])
  }

  function OnCommand(s: Session, command: DaemonCommand): Session {
    match command
    case Input(text) => OnInput(s, text)
    case Approve(handle, decision) => s.(ap := A.Next(s.ap, A.Resolve(handle, decision)))
    case Cancel => if s.active then s.(phase := Aborting(false)) else s
    case Stop =>
      if s.active then s.(phase := Aborting(true))
      else BreakWith(s, HeldItems(s.held) + [DoneEvent(|s.messages|)])
  }

  /** The agent task has ended, or the deadline has passed without that. */
  function Settled(s: Session, completed: bool): Session
    requires s.phase.Aborting?
  {
    var c := WithoutHeldAsk(Cleaned(CancelPending(s)));
    var stopped := c.(active := false, turns := WithOutcome(c.turns, Discarded));
    if s.phase.stop then BreakWith(stopped, HeldItems(c.held) + [DoneEvent(|s.messages|)])
    else if completed then
      stopped.(phase := Looping, barrier := None, agent := NoAgent, inbox := [])
    else BreakWith(stopped.(barrier := None), HeldItems(c.held) + [Terminal(Crash(CANCEL_TIMEOUT))])
  }

  function Received(s: Session, handle: Handle): Session
    requires s.inbox != []
  {
    var event, turn := s.inbox[0], CurrentTurn(s);
    var use := UseOf(event, turn);
    var mapped := MapAgentEvent(event, if use.Some? then HandleFor(s.ids, use.value, handle) else "");
    var item := Core(turn, Consumed(s), if use.Some? then Some(|s.uses|) else None, mapped);
    (if use.Some? then WithUse(s, use.value, handle) else s).(
      inbox := s.inbox[1..], held := Some(item), received := s.received + [item])
  }

  function TurnStarted(s: Session): Session
    requires s.queued != []
  {
    var text := s.queued[0];
    var base := s.messages + [User(text)];
    s.(active := true, queued := s.queued[1..], agent := Running, inbox := [],
       stages := map[], useBase := |s.uses|, turns := s.turns + [Turn(text, base, InProgress, [])])
  }

  function TurnFinishedWith(s: Session, result: TaskResult): Session {
    match result
    case Completed(messages) =>
      Cleaned(s).(active := false, agent := NoAgent, messages := messages,
                  turns := WithOutcome(s.turns, Succeeded(messages)))
    case Failed(error) =>
      BreakWith(s.(active := false, turns := WithOutcome(s.turns, Discarded)), [Terminal(Crash(error))])
    case Aborted => BreakWith(s.(active := false, turns := WithOutcome(s.turns, Discarded)), [])
  }

  function Staged(s: Session, event: AgentEvent): map<ProviderId, Stage> {
    match event
    case CoreToolStart(id, _, _) => s.stages[id := Started]
    case CoreToolResult(id, _, _, _) => s.stages[id := Resulted]
    case _ => s.stages
  }

  function Notified(s: Session, t: nat): Session
    requires t < |s.requests| && A.Enabled(s.ap, A.Notify(t))
  {
    var r := s.requests[t];
    s.(ap := A.Next(s.ap, A.Notify(t)),
       notices := s.notices + [Notice(t, r.use, s.ap.calls[t].phase.handle, s.ap.calls[t].tool, r.argumentsJson)])
  }

  function Named(s: Session, t: nat, handle: Handle): Session
    requires t < |s.requests| && A.Enabled(s.ap, A.Name(t, handle))
  {
    var r := s.requests[t];
    WithUse(s, ApprovalStarted(Call(r.turn, r.id)), handle).(
      ap := A.Next(s.ap, A.Name(t, handle)),
      requests := s.requests[t := r.(use := |s.uses|)])
  }

  function Next(s: Session, step: Step): Session
    requires Enabled(s, step)
  {
    match step
    case Drain => s.(room := s.room + 1)
    case Emit(event) => s.(inbox := s.inbox + [event], turns := WithEvent(s.turns, event), stages := Staged(s, event))
    case Request'(tool, id, arguments) =>
      s.(ap := A.Next(s.ap, A.Begin(tool)), stages := s.stages[id := Asked],
         requests := s.requests + [Request(CurrentTurn(s), id, arguments, |Emitted(s)|, 0)])
    case NameCall(t, handle) => Named(s, t, handle)
    case Approving(action) =>
      if action.Notify? then Notified(s, action.t) else s.(ap := A.Next(s.ap, action))
    case EndTask(result) => s.(agent := Ended(result))
    case Command(command) => OnCommand(s, command)
    case ReadFailed | StreamClosed | WriterClosed => BreakWith(s, [])
    case Permit => s.(sent := s.sent + [s.held.value], held := None, room := s.room - 1)
    case TakeNotice => s.(barrier := Some(s.notices[0]), notices := s.notices[1..])
    case Receive(handle) => Received(s, handle)
    case BarrierEmpty => s.(held := Some(MapApprovalNotice(s.barrier.value)), barrier := None)
    case BarrierGone => s.(barrier := None)
    case StartTurn => TurnStarted(s)
    case FinishTurn => TurnFinishedWith(s, s.agent.result)
    case Settle(completed) => Settled(s, completed)
    case FlushOne => s.(sent := s.sent + [s.phase.rest[0]], phase := Flushing(s.phase.rest[1..]), room := s.room - 1)
    case Leave => Cleaned(CancelPending(s)).(phase := Exited)
  }
}
