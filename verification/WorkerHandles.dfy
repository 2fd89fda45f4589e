/** What goes out under a handle: one handle for each call, from its approval request to its result. */
module WorkerHandles {
  import opened Text
  import opened Protocol
  import opened CallIds
  import opened Worker
  import opened WorkerInvariants
  import opened WorkerChannels
  import opened WorkerRequests
  import opened WorkerOrder
  import opened WorkerRuns
  import opened WorkerCalls
  import A = Approval

  function HandleNamed(event: WorkerEvent): Handle {
    match event
    case ToolStart(id, _, _) => id
    case ToolResult(id, _, _, _) => id
    case NeedsApproval(id, _, _) => id
    case _ => ""
  }

  /** The call an outbound item is about, by what the core emitted or asked. */
  function CallNamed(item: Item, turns: seq<Turn>, requests: seq<Request>): Option<Call> {
    match item
    case Core(turn, index, _, _) =>
      if turn < |turns| && 0 <= index < |turns[turn].events| && ToolId(turns[turn].events[index]).Some? then
        Some(Call(turn, ToolId(turns[turn].events[index]).value))
      else None
    case Ask(token, _, _) => if token < |requests| then Some(CallOf(requests[token])) else None
    case Terminal(_) => None
  }

  // ---------------------------------------------------------------- every handle out comes from the mapper

  /** Operation `u` on the mapper was about `call` and yielded `handle`. */
  ghost predicate Yielded(uses: seq<Use>, supply: seq<Handle>, u: nat, call: Call, handle: Handle) {
    u < |uses| == |supply| && !uses[u].Cleared? && uses[u].call == call && HandleAt(uses, supply, u) == handle
  }

  ghost predicate CoreLinked(s: Session, item: Item) {
    var call := CallNamed(item, s.turns, s.requests);
    item.Core?
    && (call.Some? ==>
          item.origin.Some? && Yielded(s.uses, s.supply, item.origin.value, call.value, HandleNamed(item.event)))
  }

  /** The request's own naming of its call, on the mapper. */
  ghost predicate AskLinked(s: Session, token: nat, use: nat, handle: Handle) {
    && token < |s.requests| && use < |s.uses| == |s.supply|
    && s.uses[use] == ApprovalStarted(CallOf(s.requests[token])) && s.supply[use] == handle
  }

  ghost predicate RequestsLinked(s: Session)
    requires |s.requests| == |s.ap.calls|
  {
    forall t :: 0 <= t < |s.requests| && HasHandle(s.ap.calls[t]) ==>
      AskLinked(s, t, s.requests[t].use, s.ap.calls[t].phase.handle)
  }

  /** The event asks about the request as the core made it. */
  ghost predicate AskMatches(s: Session, token: nat, event: WorkerEvent) {
    && token < |s.requests| && token < |s.ap.calls| && event.NeedsApproval?
    && event.tool == s.ap.calls[token].tool && event.argumentsJson == s.requests[token].argumentsJson
  }

  predicate IsAsk(item: Item, token: nat, use: nat, event: WorkerEvent) {
    item == Ask(token, use, event)
  }

  predicate IsNotice(notice: Notice, token: nat, use: nat, event: WorkerEvent) {
    MapApprovalNotice(notice) == Ask(token, use, event)
  }

  predicate InNotices(notices: seq<Notice>, token: nat, use: nat, event: WorkerEvent) {
    exists i :: 0 <= i < |notices| && IsNotice(notices[i], token, use, event)
  }

  predicate InItems(items: seq<Item>, token: nat, use: nat, event: WorkerEvent) {
    exists i :: 0 <= i < |items| && IsAsk(items[i], token, use, event)
  }

  /** The request is somewhere on its way, or out, under that handle. */
  predicate Carries(s: Session, token: nat, use: nat, event: WorkerEvent) {
    || InItems(InLoop(s), token, use, event)
    || (s.held.Some? && IsAsk(s.held.value, token, use, event))
    || (s.barrier.Some? && IsNotice(s.barrier.value, token, use, event))
    || InNotices(s.notices, token, use, event)
  }

  ghost predicate AsksLinked(s: Session) {
    forall token: nat, use: nat, event: WorkerEvent :: Carries(s, token, use, event) ==>
      AskLinked(s, token, use, HandleNamed(event)) && AskMatches(s, token, event)
  }

  /** From its naming until it is over, a request has a handle. */
  predicate HasHandle(call: A.Invocation) {
    call.phase.Named? || call.Guarded()
  }

  /** No two requests have been named by the same operation, be they waiting or on their way. */
  ghost predicate Apart(s: Session)
    requires |s.requests| == |s.ap.calls|
  {
    && (forall t, t' :: 0 <= t < t' < |s.requests| && HasHandle(s.ap.calls[t]) && HasHandle(s.ap.calls[t']) ==>
          s.requests[t].use != s.requests[t'].use)
    && (forall token: nat, use: nat, event: WorkerEvent, t: nat ::
          Carries(s, token, use, event) && t < |s.requests| && HasHandle(s.ap.calls[t]) && s.requests[t].use == use ==>
            t == token)
  }

  /** What is on its way, or out, has been announced, and goes under the handle that its request has. */
  ghost predicate CarriedOwn(s: Session)
    requires |s.requests| == |s.ap.calls|
  {
    forall token: nat, use: nat, event: WorkerEvent :: Carries(s, token, use, event) ==>
      && token < |s.ap.calls| && A.Announced(s.ap.calls[token])
      && (HasHandle(s.ap.calls[token]) ==> use == s.requests[token].use)
  }

  ghost predicate Linked(s: Session)
    requires |s.requests| == |s.ap.calls|
  {
    && (forall i :: 0 <= i < |s.received| ==> CoreLinked(s, s.received[i]))
    && RequestsLinked(s) && AsksLinked(s) && Apart(s) && CarriedOwn(s)
  }

  // ---------------------------------------------------------------- links last

  lemma YieldedLater(uses: seq<Use>, supply: seq<Handle>, use: Use, fresh': Handle, u: nat, call: Call, handle: Handle)
    requires Yielded(uses, supply, u, call, handle)
    ensures Yielded(uses + [use], supply + [fresh'], u, call, handle)
  {
    IdsAtExtended(uses, supply, use, fresh', u);
  }

  lemma AskLinkedKept(s: Session, step: Step, token: nat, use: nat, handle: Handle)
    requires Shape(s) && Enabled(s, step) && AskLinked(s, token, use, handle)
    ensures AskLinked(Next(s, step), token, use, handle)
  {
    hide Next, Enabled, UseAction;
    UseStep(s, step);
    RequestsFrame(s, step);
  }

  lemma AskMatchesKept(s: Session, step: Step, token: nat, event: WorkerEvent)
    requires Shape(s) && Enabled(s, step) && AskMatches(s, token, event)
    ensures AskMatches(Next(s, step), token, event)
  {
    hide Next, Enabled, Shape, A.Next, A.Enabled;
    RequestsFrame(s, step);
    ApStep(s, step);
    var a := ApAction(s, step);
    if a.Some? {
      A.NextPhases(s.ap, a.value, token);
    }
  }

  lemma CoreLinkedKept(s: Session, step: Step, item: Item)
    requires Shape(s) && Enabled(s, step) && CoreLinked(s, item) && IsMapped(item, s.turns)
    ensures CoreLinked(Next(s, step), item)
  {
    hide Next, Enabled, UseAction, Yielded, MapAgentEvent, HandleNamed, ToolId;
    UseStep(s, step);
    TurnsGrow(s, step);
    var u, call := UseAction(s, step), CallNamed(item, s.turns, s.requests);
    assert s.turns[item.turn].events <= Next(s, step).turns[item.turn].events;
    if u.Some? && call.Some? {
      YieldedLater(s.uses, s.supply, u.value.0, u.value.1, item.origin.value, call.value, HandleNamed(item.event));
    }
  }

  // ---------------------------------------------------------------- new links

  /** A core event is mapped by its own operation. */
  lemma ReceivedLinked(s: Session, handle: Handle)
    requires Basics(s) && InboxIsRest(s) && Enabled(s, Receive(handle))
    ensures var n := Next(s, Receive(handle));
            |n.received| == |s.received| + 1 && n.received[..|s.received|] == s.received
              && CoreLinked(n, n.received[|s.received|])
  {
    hide A.Inv, After, IdsAt;
    var n, k := Next(s, Receive(handle)), Consumed(s);
    assert s.inbox[0] == Emitted(s)[k];
    var use := UseOf(s.inbox[0], CurrentTurn(s));
    if use.Some? {
      IdsAtExtended(s.uses, s.supply, use.value, handle, |s.uses|);
    }
  }

  lemma NamedLinked(s: Session, t: nat, handle: Handle)
    requires Shape(s) && Enabled(s, NameCall(t, handle))
    ensures AskLinked(Next(s, NameCall(t, handle)), t, |s.uses|, handle)
    ensures Next(s, NameCall(t, handle)).requests[t].use == |s.uses|
    ensures Next(s, NameCall(t, handle)).ap.calls[t].phase == A.Named(handle)
  {
    hide After;
  }

  /** A call keeps its handle until it is over. */
  lemma PhaseHandle(s: Session, step: Step, t: nat)
    requires Shape(s) && Enabled(s, step) && t < |s.ap.calls| < |Next(s, step).ap.calls| + 1
    requires HasHandle(Next(s, step).ap.calls[t])
    requires !(step.NameCall? && step.t == t)
    ensures var c, n := s.ap.calls[t], Next(s, step).ap.calls[t];
            HasHandle(c) && c.phase.handle == n.phase.handle
  {
    hide A.Next, A.Enabled, Next, Enabled, Shape;
    ApStep(s, step);
    var a := ApAction(s, step);
    if a.Some? {
      NamingAction(s, step);
      PhaseHandleAction(s.ap, a.value, t);
    }
  }

  lemma NamingAction(s: Session, step: Step)
    requires Enabled(s, step)
    ensures var a := ApAction(s, step); a.Some? && a.value.Name? ==> step.NameCall? && step.t == a.value.t
  {
    hide A.Enabled;
  }

  lemma PhaseHandleAction(st: A.State, a: A.Action, t: nat)
    requires A.Enabled(st, a) && t < |st.calls| && t < |A.Next(st, a).calls| && !(a.Name? && a.t == t)
    requires HasHandle(A.Next(st, a).calls[t])
    ensures var c, n := st.calls[t], A.Next(st, a).calls[t];
            HasHandle(c) && c.phase.handle == n.phase.handle
  {
  }

  lemma NewCallBegins(s: Session, step: Step, t: nat)
    requires Shape(s) && Enabled(s, step) && |s.ap.calls| <= t < |Next(s, step).ap.calls|
    ensures Next(s, step).ap.calls[t].phase.Begun?
  {
    hide A.Enabled, A.Next, Next, Enabled, Shape;
    ApStep(s, step);
    var a := ApAction(s, step);
    if a.Some? {
      NewCallAction(s.ap, a.value, t);
    }
  }

  lemma NewCallAction(st: A.State, a: A.Action, t: nat)
    requires A.Enabled(st, a) && |st.calls| <= t < |A.Next(st, a).calls|
    ensures A.Next(st, a).calls[t].phase.Begun?
  {
  }

  lemma RequestsLinkedKept(s: Session, step: Step)
    requires Shape(s) && Enabled(s, step) && RequestsLinked(s)
    ensures Shape(Next(s, step)) && RequestsLinked(Next(s, step))
  {
    hide Next, Enabled, AskLinked;
    var n := Next(s, step);
    KeepsShape(s, step);
    RequestsFrame(s, step);
    forall t | 0 <= t < |n.requests| && HasHandle(n.ap.calls[t])
      ensures AskLinked(n, t, n.requests[t].use, n.ap.calls[t].phase.handle)
    {
      if t >= |s.requests| {
        NewCallBegins(s, step, t);
      } else if step.NameCall? && step.t == t {
        NamedLinked(s, t, step.handle);
      } else {
        PhaseHandle(s, step, t);
        AskLinkedKept(s, step, t, s.requests[t].use, s.ap.calls[t].phase.handle);
      }
    }
  }

  // ---------------------------------------------------------------- the way of a request

  predicate Notifies(s: Session, step: Step, token: nat, use: nat, event: WorkerEvent) {
    && step.Approving? && step.action.Notify? && step.action.t == token
    && token < |s.requests| && token < |s.ap.calls| && s.ap.calls[token].phase.Registered?
    && use == s.requests[token].use
    && event == NeedsApproval(s.ap.calls[token].phase.handle, s.ap.calls[token].tool, s.requests[token].argumentsJson)
  }

  lemma NoticesQuiet(s: Session, step: Step)
    requires Enabled(s, step) && Outside(step) && !(step.Approving? && step.action.Notify?)
    ensures Next(s, step).notices == s.notices
  {
    hide A.Next, A.Enabled, Staged, After;
  }

  lemma NoticeAdded(s: Session, t: nat)
    requires Shape(s) && Enabled(s, Approving(A.Notify(t)))
    ensures t < |s.requests| && t < |s.ap.calls|
    ensures var c, r := s.ap.calls[t], s.requests[t];
            && c.phase.Registered?
            && Next(s, Approving(A.Notify(t))).notices
                 == s.notices + [Notice(t, r.use, c.phase.handle, c.tool, r.argumentsJson)]
  {
    hide A.Next;
  }

  lemma InNoticesSplit(front: seq<Notice>, notice: Notice, token: nat, use: nat, event: WorkerEvent)
    requires InNotices(front + [notice], token, use, event)
    ensures InNotices(front, token, use, event) || IsNotice(notice, token, use, event)
  {
    hide IsNotice;
    var i :| 0 <= i < |front + [notice]| && IsNotice((front + [notice])[i], token, use, event);
    if i < |front| {
      assert IsNotice(front[i], token, use, event);
    }
  }

  lemma NoticesKept(s: Session, step: Step, token: nat, use: nat, event: WorkerEvent)
    requires Shape(s) && Enabled(s, step) && Outside(step) && InNotices(Next(s, step).notices, token, use, event)
    ensures InNotices(s.notices, token, use, event) || Notifies(s, step, token, use, event)
  {
    hide Next, Enabled, InNotices, Shape;
    if step.Approving? && step.action.Notify? {
      var t := step.action.t;
      assert step == Approving(A.Notify(t));
      NoticeAdded(s, t);
      var notice := Next(s, step).notices[|s.notices|];
      InNoticesSplit(s.notices, notice, token, use, event);
    } else {
      NoticesQuiet(s, step);
    }
  }

  lemma CarriesPermit(s: Session, token: nat, use: nat, event: WorkerEvent)
    requires Enabled(s, Permit) && Carries(Next(s, Permit), token, use, event)
    ensures Carries(s, token, use, event)
  {
    hide IsAsk, IsNotice, InNotices;
    var n := Next(s, Permit);
    if InItems(InLoop(n), token, use, event) {
      var i :| 0 <= i < |InLoop(n)| && IsAsk(InLoop(n)[i], token, use, event);
      if i < |InLoop(s)| {
        assert IsAsk(InLoop(s)[i], token, use, event);
      }
    }
  }

  lemma CarriesTaken(s: Session, token: nat, use: nat, event: WorkerEvent)
    requires Enabled(s, TakeNotice) && Carries(Next(s, TakeNotice), token, use, event)
    ensures Carries(s, token, use, event)
  {
    hide IsAsk, IsNotice, InItems;
    var n := Next(s, TakeNotice);
    if InNotices(n.notices, token, use, event) {
      var i :| 0 <= i < |n.notices| && IsNotice(n.notices[i], token, use, event);
      assert IsNotice(s.notices[i + 1], token, use, event);
    } else if IsNotice(n.barrier.value, token, use, event) {
      assert IsNotice(s.notices[0], token, use, event);
    }
  }

  lemma CarriesPassed(s: Session, token: nat, use: nat, event: WorkerEvent)
    requires Enabled(s, BarrierEmpty) && Carries(Next(s, BarrierEmpty), token, use, event)
    ensures Carries(s, token, use, event)
  {
    hide InItems, InNotices;
  }

  lemma CarriesReceived(s: Session, supply: Handle, token: nat, use: nat, event: WorkerEvent)
    requires Enabled(s, Receive(supply)) && Carries(Next(s, Receive(supply)), token, use, event)
    ensures Carries(s, token, use, event)
  {
    hide After, HandleFor, MapAgentEvent, UseOf, InNotices, InItems, MapApprovalNotice;
  }

  lemma CarriesOutside(s: Session, step: Step, token: nat, use: nat, event: WorkerEvent)
    requires Shape(s) && Enabled(s, step) && Outside(step) && Carries(Next(s, step), token, use, event)
    ensures Carries(s, token, use, event) || Notifies(s, step, token, use, event)
  {
    hide Next, Enabled, InNotices, InItems, Shape, Notifies;
    OutsideFrame(s, step);
    if InNotices(Next(s, step).notices, token, use, event) {
      NoticesKept(s, step, token, use, event);
    }
  }

  /** Nothing is on its way that was not before, or is just being announced. */
  lemma CarriesBefore(s: Session, step: Step, token: nat, use: nat, event: WorkerEvent)
    requires Shape(s) && Enabled(s, step) && Carries(Next(s, step), token, use, event)
    ensures Carries(s, token, use, event) || Notifies(s, step, token, use, event)
  {
    hide A.Next, A.Enabled, After, HandleFor, MapAgentEvent, UseOf, Staged, OnCommand, Settled, TurnFinishedWith,
      Received, Notified,
      Named, WithEvent, InNotices, InItems, Shape, Notifies;
    if Outside(step) {
      CarriesOutside(s, step, token, use, event);
    } else if step.Receive? {
      CarriesReceived(s, step.handle, token, use, event);
    } else if step.Permit? {
      CarriesPermit(s, token, use, event);
    } else if step.TakeNotice? {
      CarriesTaken(s, token, use, event);
    } else if step.BarrierEmpty? {
      CarriesPassed(s, token, use, event);
    } else {
      NoNotices(token, use, event);
      StreamFrame(s, step);
      match step
      case Command(command) => CommandFrame(s, command);
      case Settle(completed) => SettledFrame(s, completed); SettledBarrier(s, completed);
      case FinishTurn => TurnFinishedFrame(s, s.agent.result);
      case _ =>
    }
  }

  lemma NoNotices(token: nat, use: nat, event: WorkerEvent)
    ensures !InNotices([], token, use, event)
  {
  }

  lemma SettledBarrier(s: Session, completed: bool)
    requires s.phase.Aborting?
    ensures Settled(s, completed).barrier == s.barrier || Settled(s, completed).barrier.None?
  {
    hide A.Next, After, HeldItems, DoneEvent, WithOutcome;
  }

  lemma NotifiesLinked(s: Session, step: Step, token: nat, use: nat, event: WorkerEvent)
    requires Shape(s) && RequestsLinked(s) && Notifies(s, step, token, use, event)
    ensures AskLinked(s, token, use, HandleNamed(event)) && AskMatches(s, token, event)
  {
  }

  lemma AsksLinkedKept(s: Session, step: Step)
    requires Shape(s) && Enabled(s, step) && RequestsLinked(s) && AsksLinked(s)
    ensures AsksLinked(Next(s, step))
  {
    hide Next, Enabled, AskLinked, AskMatches, Carries, HandleNamed, Shape, Notifies, RequestsLinked;
    forall token: nat, use: nat, event: WorkerEvent | Carries(Next(s, step), token, use, event)
      ensures AskLinked(Next(s, step), token, use, HandleNamed(event)) && AskMatches(Next(s, step), token, event)
    {
      CarriesBefore(s, step, token, use, event);
      if !Carries(s, token, use, event) {
        NotifiesLinked(s, step, token, use, event);
      }
      AskLinkedKept(s, step, token, use, HandleNamed(event));
      AskMatchesKept(s, step, token, event);
    }
  }

  /** What a step leaves of a request that has a handle. */
  lemma HandledBefore(s: Session, step: Step, t: nat)
    requires Shape(s) && Enabled(s, step) && t < |Next(s, step).ap.calls| == |Next(s, step).requests|
    requires HasHandle(Next(s, step).ap.calls[t])
    ensures t < |s.requests| == |s.ap.calls|
    ensures if step.NameCall? && step.t == t then Next(s, step).requests[t].use == |s.uses|
            else HasHandle(s.ap.calls[t]) && Next(s, step).requests[t].use == s.requests[t].use
  {
    hide Next, Enabled;
    RequestsFrame(s, step);
    if t >= |s.requests| {
      NewCallBegins(s, step, t);
    } else if step.NameCall? && step.t == t {
      NamedLinked(s, t, step.handle);
    } else {
      PhaseHandle(s, step, t);
    }
  }

  lemma HandledUse(s: Session, t: nat)
    requires Shape(s) && RequestsLinked(s) && t < |s.requests| && HasHandle(s.ap.calls[t])
    ensures s.requests[t].use < |s.uses|
  {
  }

  lemma CarriedUse(s: Session, token: nat, use: nat, event: WorkerEvent)
    requires AsksLinked(s) && Carries(s, token, use, event)
    ensures use < |s.uses|
  {
  }

  lemma ApartInTable(s: Session, step: Step, n: Session, t: nat, t': nat)
    requires Shape(s) && RequestsLinked(s) && Apart(s) && Enabled(s, step) && n == Next(s, step) && Shape(n)
    requires t < t' < |n.requests| && HasHandle(n.ap.calls[t]) && HasHandle(n.ap.calls[t'])
    ensures n.requests[t].use != n.requests[t'].use
  {
    hide Next, Enabled, Carries, RequestsLinked, HasHandle;
    HandledBefore(s, step, t);
    HandledBefore(s, step, t');
    if step.NameCall? && step.t == t {
      HandledUse(s, t');
    } else if step.NameCall? && step.t == t' {
      HandledUse(s, t);
    }
  }

  lemma ApartOnTheWay(s: Session, step: Step, n: Session, token: nat, use: nat, event: WorkerEvent, t: nat)
    requires Shape(s) && RequestsLinked(s) && AsksLinked(s) && Apart(s) && Enabled(s, step)
    requires n == Next(s, step) && Shape(n) && Carries(n, token, use, event)
    requires t < |n.requests| && HasHandle(n.ap.calls[t]) && n.requests[t].use == use
    ensures t == token
  {
    hide Next, Enabled, Carries, RequestsLinked, AsksLinked, Notifies, HasHandle;
    HandledBefore(s, step, t);
    CarriesBefore(s, step, token, use, event);
    if Carries(s, token, use, event) {
      CarriedUse(s, token, use, event);
    } else {
      NotifiesHandled(s, step, token, use, event);
    }
  }

  lemma NotifiesHandled(s: Session, step: Step, token: nat, use: nat, event: WorkerEvent)
    requires Notifies(s, step, token, use, event)
    ensures !step.NameCall? && token < |s.requests| && token < |s.ap.calls|
    ensures HasHandle(s.ap.calls[token]) && use == s.requests[token].use
  {
  }

  lemma ApartKept(s: Session, step: Step)
    requires Shape(s) && RequestsLinked(s) && AsksLinked(s) && Apart(s) && Enabled(s, step)
    ensures Shape(Next(s, step)) && Apart(Next(s, step))
  {
    hide Next, Enabled, Shape, Carries, RequestsLinked, AsksLinked, HasHandle;
    var n := Next(s, step);
    KeepsShape(s, step);
    ShapeRequests(n);
    forall t, t' | 0 <= t < t' < |n.requests| && HasHandle(n.ap.calls[t]) && HasHandle(n.ap.calls[t'])
      ensures n.requests[t].use != n.requests[t'].use
    {
      ApartInTable(s, step, n, t, t');
    }
    forall token: nat, use: nat, event: WorkerEvent, t: nat | Carries(n, token, use, event) && t < |n.requests|
      && HasHandle(n.ap.calls[t]) && n.requests[t].use == use
      ensures t == token
    {
      ApartOnTheWay(s, step, n, token, use, event, t);
    }
  }

  lemma AnnouncedStays(s: Session, step: Step, t: nat)
    requires Shape(s) && Enabled(s, step) && t < |s.ap.calls| && A.Announced(s.ap.calls[t])
    ensures t < |Next(s, step).ap.calls| && A.Announced(Next(s, step).ap.calls[t])
    ensures !(step.NameCall? && step.t == t)
  {
    hide Next, Enabled, Shape, A.Next, A.Enabled, A.Announced;
    ApStep(s, step);
    var a := ApAction(s, step);
    if a.Some? {
      A.NextPhases(s.ap, a.value, t);
      NamingUnlisted(s.ap, a.value, t);
    }
  }

  lemma NamingUnlisted(st: A.State, a: A.Action, t: nat)
    requires A.Enabled(st, a) && t < |st.calls|
    ensures a.Name? && a.t == t ==> !A.Announced(st.calls[t])
  {
  }

  lemma NotifiesAnnounces(s: Session, step: Step, token: nat, use: nat, event: WorkerEvent)
    requires Enabled(s, step) && Notifies(s, step, token, use, event)
    ensures token < |Next(s, step).ap.calls| && A.Announced(Next(s, step).ap.calls[token])
    ensures Next(s, step).requests == s.requests && token < |s.requests| && use == s.requests[token].use
  {
  }

  lemma CarriedOwnAt(s: Session, step: Step, n: Session, token: nat, use: nat, event: WorkerEvent)
    requires Shape(s) && CarriedOwn(s) && Enabled(s, step) && n == Next(s, step) && Shape(n)
    requires Carries(n, token, use, event)
    ensures token < |n.ap.calls| && A.Announced(n.ap.calls[token])
    ensures HasHandle(n.ap.calls[token]) ==> use == n.requests[token].use
  {
    hide Next, Enabled, Carries, Notifies, HasHandle, A.Announced;
    CarriesBefore(s, step, token, use, event);
    if Carries(s, token, use, event) {
      AnnouncedStays(s, step, token);
      if HasHandle(n.ap.calls[token]) {
        HandledBefore(s, step, token);
      }
    } else {
      NotifiesAnnounces(s, step, token, use, event);
    }
  }

  lemma CarriedOwnKept(s: Session, step: Step)
    requires Shape(s) && CarriedOwn(s) && Enabled(s, step)
    ensures Shape(Next(s, step)) && CarriedOwn(Next(s, step))
  {
    hide Next, Enabled, Shape, Carries, HasHandle, A.Announced;
    var n := Next(s, step);
    KeepsShape(s, step);
    ShapeRequests(n);
    forall token: nat, use: nat, event: WorkerEvent | Carries(n, token, use, event)
      ensures token < |n.ap.calls| && A.Announced(n.ap.calls[token])
      ensures HasHandle(n.ap.calls[token]) ==> use == n.requests[token].use
    {
      ShapeRequests(s);
      CarriedOwnAt(s, step, n, token, use, event);
    }
  }

  lemma ReceivedKept(s: Session, step: Step)
    requires Basics(s) && Ordered(s) && Enabled(s, step)
    requires forall i :: 0 <= i < |s.received| ==> CoreLinked(s, s.received[i])
    ensures var n := Next(s, step); forall i :: 0 <= i < |n.received| ==> CoreLinked(n, n.received[i])
  {
    hide Next, Enabled, CoreLinked, IsMapped, A.Inv, IdsFromUses, NoneOutlives, InOrder, EndsWithTurn;
    var n := Next(s, step);
    forall i | 0 <= i < |s.received| ensures CoreLinked(n, s.received[i]) {
      CoreLinkedKept(s, step, s.received[i]);
    }
    if step.Receive? {
      ReceivedLinked(s, step.handle);
    } else {
      ReceivedSame(s, step);
    }
  }

  lemma ReceivedSame(s: Session, step: Step)
    requires Shape(s) && Enabled(s, step) && !step.Receive?
    ensures Next(s, step).received == s.received
  {
    hide Next, Enabled, Shape;
    if step.Permit? {
      PermitReceived(s);
    } else {
      StreamFrame(s, step);
    }
  }

  lemma PermitReceived(s: Session)
    requires Enabled(s, Permit)
    ensures Next(s, Permit).received == s.received
  {
  }

  lemma KeepsLinked(s: Session, step: Step)
    requires Inv(s) && Shape(s) && Linked(s) && Enabled(s, step)
    ensures Shape(Next(s, step)) && Linked(Next(s, step))
  {
    hide Next, Enabled, CoreLinked, RequestsLinked, AsksLinked, Apart, CarriedOwn, Located, Memory, Conserved, Flushed,
      Causal, HeldAfterCauses, Idle, Ordered, Shape, A.Inv, IdsFromUses, NoneOutlives;
    RequestsLinkedKept(s, step);
    AsksLinkedKept(s, step);
    ApartKept(s, step);
    CarriedOwnKept(s, step);
    ReceivedKept(s, step);
  }

  // ---------------------------------------------------------------- whole sessions

  lemma {:induction false} RunKeepsLinked(s: Session, steps: seq<Step>, end: Session)
    requires Inv(s) && Shape(s) && Linked(s) && Run(s, steps, end)
    ensures Shape(end) && Linked(end)
    decreases |steps|
  {
    hide Inv, Shape, Linked, Next, Enabled;
    if steps != [] {
      KeepsInv(s, steps[0]);
      KeepsLinked(s, steps[0]);
      RunKeepsLinked(Next(s, steps[0]), steps[1..], end);
    }
  }

  lemma {:induction false} OrderlyIsRun(s: Session, steps: seq<Step>, end: Session)
    requires OrderlyRun(s, steps, end)
    ensures Run(s, steps, end)
    decreases |steps|
  {
    hide Next, Enabled, Shape, Disciplined, FreshHandle;
    if steps != [] {
      OrderlyIsRun(Next(s, steps[0]), steps[1..], end);
    }
  }

  lemma InitLinked(registered: set<Tool>, messages: seq<Message>)
    ensures var s := Init(registered, messages); Shape(s) && Linked(s)
  {
  }

  /** The operation on the mapper that gave an item its handle. */
  function OperationOf(item: Item): Option<nat> {
    match item
    case Core(_, _, origin, _) => origin
    case Ask(_, use, _) => Some(use)
    case Terminal(_) => None
  }

  ghost predicate NamedBy(s: Session, item: Item, u: Option<nat>, call: Call) {
    u.Some? && Yielded(s.uses, s.supply, u.value, call, HandleNamed(item.event))
  }

  /** Whatever is out and names a call does so by what the mapper yielded for that call. */
  lemma SentLinked(s: Session, i: nat)
    requires Inv(s) && Shape(s) && Linked(s) && i < |s.sent|
    ensures var call := CallNamed(s.sent[i], s.turns, s.requests);
            call.Some? ==> NamedBy(s, s.sent[i], OperationOf(s.sent[i]), call.value)
  {
    hide Located, Memory, Basics, Ordered, Causal, HeldAfterCauses, Idle, CoreLinked, RequestsLinked, Ordinary, A.Inv,
      Apart, NamedBy;
    var item := s.sent[i];
    SentIsLoopOrHeld(s, i);
    match item
    case Core(_, _, _, _) =>
      OrdinaryMembers(InLoop(s), item);
      OrdinaryHeld(s.held);
      assert item in s.received;
      CoreYielded(s, item);
    case Ask(token, use, event) =>
      AskCarried(s, item);
      assert Carries(s, token, use, event);
      AskYielded(s, item);
    case Terminal(_) =>
  }

  lemma CoreYielded(s: Session, item: Item)
    requires CoreLinked(s, item)
    ensures var call := CallNamed(item, s.turns, s.requests);
            call.Some? ==> NamedBy(s, item, OperationOf(item), call.value)
  {
  }

  lemma AskCarried(s: Session, item: Item)
    requires item.Ask? && (item in InLoop(s) || (s.held.Some? && item == s.held.value))
    ensures Carries(s, item.token, item.use, item.event)
  {
    if item in InLoop(s) {
      var i :| 0 <= i < |InLoop(s)| && InLoop(s)[i] == item;
      assert IsAsk(InLoop(s)[i], item.token, item.use, item.event);
    }
  }

  lemma AskYielded(s: Session, item: Item)
    requires item.Ask? && AskLinked(s, item.token, item.use, HandleNamed(item.event))
    ensures NamedBy(s, item, OperationOf(item), CallOf(s.requests[item.token]))
  {
  }

  lemma SessionLinked(registered: set<Tool>, messages: seq<Message>, steps: seq<Step>, end: Session)
    requires SessionRun(registered, messages, steps, end)
    ensures Shape(end) && Linked(end) && Inv(end)
  {
    hide Inv, Shape, Linked, Init;
    InitInv(registered, messages);
    InitLinked(registered, messages);
    RunKeepsLinked(Init(registered, messages), steps, end);
    SessionInv(registered, messages, steps, end);
  }

  lemma OrderlyLinked(registered: set<Tool>, messages: seq<Message>, steps: seq<Step>, end: Session)
    requires OrderlySession(registered, messages, steps, end)
    ensures Shape(end) && Linked(end) && Inv(end) && Correlated(end.uses, end.supply)
  {
    hide Inv, Shape, Linked, Init, Correlated;
    OrderlyIsRun(Init(registered, messages), steps, end);
    SessionLinked(registered, messages, steps, end);
    CallsKeepTheirHandles(registered, messages, steps, end);
  }

  ghost predicate NamesACall(end: Session, i: nat) {
    i < |end.sent| && CallNamed(end.sent[i], end.turns, end.requests).Some?
  }

  /**
   * Of everything sent in a session, two events that name a call carry the same handle exactly when
   * they are about the same call: its approval request, its start and its result.
   */
  lemma OneHandlePerCall(registered: set<Tool>, messages: seq<Message>, steps: seq<Step>, end: Session, i: nat, j: nat)
    requires OrderlySession(registered, messages, steps, end)
    requires NamesACall(end, i) && NamesACall(end, j)
    ensures HandleNamed(end.sent[i].event) == HandleNamed(end.sent[j].event) <==>
            CallNamed(end.sent[i], end.turns, end.requests) == CallNamed(end.sent[j], end.turns, end.requests)
  {
    hide Inv, Shape, Linked, Init, CallNamed, HandleNamed, HandleAt, OperationOf;
    OrderlyLinked(registered, messages, steps, end);
    SentLinked(end, i);
    SentLinked(end, j);
  }

  // ---------------------------------------------------------------- without the core's discipline

  lemma {:induction false} FreshIsRun(s: Session, steps: seq<Step>, end: Session)
    requires FreshRun(s, steps, end)
    ensures Run(s, steps, end)
    decreases |steps|
  {
    hide Next, Enabled, Shape, FreshHandle;
    if steps != [] {
      FreshIsRun(Next(s, steps[0]), steps[1..], end);
    }
  }

  lemma FreshLinked(registered: set<Tool>, messages: seq<Message>, steps: seq<Step>, end: Session)
    requires FreshRun(Init(registered, messages), steps, end)
    ensures Shape(end) && Linked(end) && Inv(end) && |end.uses| == |end.supply| && Distinct(end.uses, end.supply)
  {
    hide Inv, Shape, Linked, Init, Distinct;
    FreshIsRun(Init(registered, messages), steps, end);
    SessionLinked(registered, messages, steps, end);
    FreshSession(registered, messages, steps, end);
  }

  /** `u` is an operation of the run that yielded the handle of the `i`th event sent. */
  ghost predicate HandledBy(end: Session, i: nat, u: Option<nat>) {
    && i < |end.sent| && u.Some? && u.value < |end.uses| == |end.supply| && !end.uses[u.value].Cleared?
    && HandleNamed(end.sent[i].event) == HandleAt(end.uses, end.supply, u.value)
  }

  lemma SentHandle(end: Session, i: nat)
    requires Inv(end) && Shape(end) && Linked(end) && NamesACall(end, i)
    ensures HandledBy(end, i, OperationOf(end.sent[i]))
  {
    hide Inv, Shape, Linked, CallNamed, HandleNamed, HandleAt, OperationOf;
    SentLinked(end, i);
  }

  /**
   * Whatever the core does, two events that name a call carry the same handle exactly when the operations
   * that named them go back to the same one: an approval request's, or a use of an identity that was free.
   */
  lemma SentHandlesByOrigin(registered: set<Tool>, messages: seq<Message>, steps: seq<Step>, end: Session,
                            i: nat, j: nat)
    requires FreshRun(Init(registered, messages), steps, end) && NamesACall(end, i) && NamesACall(end, j)
    ensures var u, v := OperationOf(end.sent[i]), OperationOf(end.sent[j]);
            && HandledBy(end, i, u) && HandledBy(end, j, v)
            && (HandleNamed(end.sent[i].event) == HandleNamed(end.sent[j].event) <==>
                Origin(end.uses, u.value) == Origin(end.uses, v.value))
  {
    hide Inv, Shape, Linked, Init, NamesACall, HandleNamed, HandleAt, Origin, OperationOf;
    FreshLinked(registered, messages, steps, end);
    SentHandle(end, i);
    SentHandle(end, j);
    HandleFromOrigin(end.uses, end.supply, OperationOf(end.sent[i]).value);
    HandleFromOrigin(end.uses, end.supply, OperationOf(end.sent[j]).value);
  }

  /**
   * Whichever operation is attributed to which invocation of a tool: where the invocations have taken turns
   * on their identities, two events that name a call carry the same handle exactly when they are about the
   * same invocation.
   */
  lemma OneHandlePerInvocation(registered: set<Tool>, messages: seq<Message>, steps: seq<Step>, end: Session,
                               calls: seq<Use>, i: nat, j: nat)
    requires FreshRun(Init(registered, messages), steps, end) && Attributes(calls, end.uses) && Separated(calls)
    requires NamesACall(end, i) && NamesACall(end, j)
    ensures var u, v := OperationOf(end.sent[i]), OperationOf(end.sent[j]);
            && HandledBy(end, i, u) && HandledBy(end, j, v) && |calls| == |end.uses|
            && !calls[u.value].Cleared? && !calls[v.value].Cleared?
            && (HandleNamed(end.sent[i].event) == HandleNamed(end.sent[j].event) <==>
                calls[u.value].call == calls[v.value].call)
  {
    hide Inv, Shape, Linked, Init, NamesACall, HandleNamed, HandleAt, Separated, Attributes, OperationOf;
    FreshLinked(registered, messages, steps, end);
    SentHandle(end, i);
    SentHandle(end, j);
    CallsKeepTheirHandlesExactly(registered, messages, steps, end, calls);
  }

  lemma OneHolder(s: Session, t: nat, t': nat)
    requires Shape(s) && Distinct(s.uses, s.supply) && Linked(s)
    requires t < |s.ap.calls| && HasHandle(s.ap.calls[t]) && t' < |s.ap.calls| && HasHandle(s.ap.calls[t'])
    requires s.ap.calls[t].phase.handle == s.ap.calls[t'].phase.handle
    ensures t == t'
  {
    hide Carries, AsksLinked, CoreLinked;
    assert AskLinked(s, t, s.requests[t].use, s.ap.calls[t].phase.handle);
    assert AskLinked(s, t', s.requests[t'].use, s.ap.calls[t'].phase.handle);
    assert s.requests[t].use == s.requests[t'].use;
  }

  /** A handle belongs to one request: no other that has a handle has the one this goes out under. */
  lemma HandlesNameOneRequest(s: Session, t: nat, token: nat, use: nat, event: WorkerEvent)
    requires Shape(s) && Distinct(s.uses, s.supply) && Linked(s)
    requires t < |s.ap.calls| && HasHandle(s.ap.calls[t]) && Carries(s, token, use, event)
    requires s.ap.calls[t].phase.handle == HandleNamed(event)
    ensures t == token
  {
    hide Carries, HandleNamed, CoreLinked;
    assert AskLinked(s, t, s.requests[t].use, s.ap.calls[t].phase.handle);
    assert AskLinked(s, token, use, HandleNamed(event));
    assert s.requests[t].use == use;
  }

  /**
   * A decision for a handle the peer was shown, however late, can only reach the request it was shown
   * with: a later request has another handle, even one of the same provider identity in the same turn.
   */
  lemma DelayedDecisionReachesNobodyElse(registered: set<Tool>, messages: seq<Message>, steps: seq<Step>,
                                         end: Session, i: nat)
    requires FreshRun(Init(registered, messages), steps, end) && i < |end.sent| && end.sent[i].Ask?
    ensures var handle := HandleNamed(end.sent[i].event);
            handle in end.ap.pending ==> end.ap.pending[handle].token == end.sent[i].token
  {
    hide Located, Memory, Init, Conserved, Ordered, Causal, HeldAfterCauses, Idle, Flushed, IdsFromUses, NoneOutlives,
      Distinct, Carries, Shape, Linked, A.OpenBefore, A.TableByLog, A.AllowedExact, A.RepliesGranted, A.AnswersLogged,
      A.FailClosed, A.ToolsOwn, HandleNamed;
    FreshLinked(registered, messages, steps, end);
    var item := end.sent[i];
    var handle := HandleNamed(item.event);
    if handle in end.ap.pending {
      SentIsLoopOrHeld(end, i);
      AskCarried(end, item);
      HandlesNameOneRequest(end, end.ap.pending[handle].token, item.token, item.use, item.event);
    }
  }

  /** What the core is told for a decision: only `allow_all` for a registered tool is more than an `allow`. */
  function Told(decision: IpcApprovalDecision, isRegistered: bool): ApprovalDecision {
    match decision
    case Refuse => Deny
    case AllowOnce => Allow
    case AllowForSession => if isRegistered then AllowAll else Allow
  }

  lemma ResolvesTo(st: A.State, t: nat, decision: IpcApprovalDecision)
    requires A.TableExact(st) && t < |st.calls| && st.calls[t].phase.Waiting? && st.calls[t].reply.Open?
    ensures var n, told := A.Next(st, A.Resolve(st.calls[t].phase.handle, decision)),
                Told(decision, st.calls[t].tool in st.registered);
            && n.calls == st.calls[t := st.calls[t].(reply := A.Delivered(told))]
            && A.Enabled(n, A.Wake(t)) && A.Next(n, A.Wake(t)).calls[t].phase == A.Returned(told)
  {
    assert st.calls[t].phase.handle in st.pending;
  }

  /**
   * A decision for the handle a request was shown under, while somebody waits for it, is what that
   * `approve` returns, and touches no other.
   */
  lemma DecisionReachesItsRequest(registered: set<Tool>, messages: seq<Message>, steps: seq<Step>, end: Session,
                                  i: nat, decision: IpcApprovalDecision)
    requires SessionRun(registered, messages, steps, end) && Polls(end)
    requires i < |end.sent| && end.sent[i].Ask? && OpenWaiter(end, end.sent[i].token)
    ensures var t, told := end.sent[i].token, Told(decision, end.ap.calls[end.sent[i].token].tool in registered);
            var n := Next(end, Command(Approve(HandleNamed(end.sent[i].event), decision)));
            && n == end.(ap := n.ap) && n.ap.calls == end.ap.calls[t := end.ap.calls[t].(reply := A.Delivered(told))]
            && Enabled(n, Approving(A.Wake(t)))
            && Next(n, Approving(A.Wake(t))).ap.calls[t].phase == A.Returned(told)
  {
    hide Stream, Located, Memory, IdsFromUses, Carries, Shape, HandleNamed, CoreLinked, Apart, A.OpenBefore,
      A.TableExact, A.TableByLog, A.AllowedExact, A.RepliesGranted, A.AnswersLogged, A.FailClosed, A.ToolsOwn, A.Next,
      A.Enabled;
    SessionLinked(registered, messages, steps, end);
    SessionSetting(registered, messages, steps, end);
    var item := end.sent[i];
    InvFlushed(end);
    SentIsLoopOrHeld(end, i);
    AskCarried(end, item);
    ShapeRequests(end);
    var t := item.token;
    assert AskLinked(end, t, item.use, HandleNamed(item.event));
    assert AskLinked(end, t, end.requests[t].use, end.ap.calls[t].phase.handle);
    ResolvesTo(end.ap, t, decision);
  }

  lemma InvFlushed(s: Session)
    requires Inv(s)
    ensures Flushed(s)
  {
  }

  predicate BearsHandle(event: WorkerEvent) {
    event.ToolStart? || event.ToolResult? || event.NeedsApproval?
  }

  lemma MappedNamesACall(item: Item, turns: seq<Turn>, requests: seq<Request>)
    requires IsMapped(item, turns) && BearsHandle(item.event)
    ensures CallNamed(item, turns, requests).Some?
  {
  }

  /** No handle goes out that is not some call's. */
  lemma EveryHandleNamesACall(registered: set<Tool>, messages: seq<Message>, steps: seq<Step>, end: Session, i: nat)
    requires SessionRun(registered, messages, steps, end)
    requires i < |end.sent| && !end.sent[i].Terminal? && BearsHandle(end.sent[i].event)
    ensures CallNamed(end.sent[i], end.turns, end.requests).Some?
  {
    hide Located, Memory, Basics, Causal, HeldAfterCauses, Idle, CoreLinked, RequestsLinked, Ordinary, Carries,
      IsMapped, CallNamed, InOrder, EndsWithTurn, InboxIsRest, Shape, Flushed, Apart;
    SessionLinked(registered, messages, steps, end);
    var item := end.sent[i];
    SentIsLoopOrHeld(end, i);
    if item.Core? {
      OrdinaryMembers(InLoop(end), item);
      OrdinaryHeld(end.held);
      assert item in end.received;
      MappedNamesACall(item, end.turns, end.requests);
    } else {
      AskCarried(end, item);
      AskNamesACall(end, item);
    }
  }

  lemma AskNamesACall(s: Session, item: Item)
    requires item.Ask? && AskLinked(s, item.token, item.use, HandleNamed(item.event))
    ensures CallNamed(item, s.turns, s.requests).Some?
  {
  }

  /** A request that is sent asks for the tool and with the arguments that the core asked with. */
  lemma RequestsAreTheCores(registered: set<Tool>, messages: seq<Message>, steps: seq<Step>, end: Session, i: nat)
    requires SessionRun(registered, messages, steps, end) && i < |end.sent| && end.sent[i].Ask?
    ensures AskMatches(end, end.sent[i].token, end.sent[i].event)
  {
    hide Located, Memory, Basics, Causal, Ordered, Conserved, HeldAfterCauses, Idle, CoreLinked, RequestsLinked,
      Carries, Shape, Flushed, AskLinked, AskMatches, Apart;
    SessionLinked(registered, messages, steps, end);
    SentIsLoopOrHeld(end, i);
    AskCarried(end, end.sent[i]);
  }
}
