/**
 * The approval adapter as a step relation over all interleavings of approve, resolve, cancel and drop.
 * An invocation of `approve` is identified by its generation token; its code is cut into steps at every
 * lock and every await. Handles are arbitrary: nothing here assumes that they are distinct.
 */
module Approval {
  import opened Protocol

  /** Where an invocation of `approve` is. */
  datatype Phase =
    | Begun                        // token drawn
    | Unlisted                     // the allow set was checked and did not have the tool
    | Named(handle: Handle)        // the mapper has given it a handle
    | Registered(handle: Handle)   // in the table, guard live, its notice not yet accepted
    | Waiting(handle: Handle)      // notice accepted, waiting for the reply
    | Closing(handle: Handle)      // being dropped: the reply receiver is gone, the guard still to run
    | Returned(decision: ApprovalDecision)
    | Dropped

  /** What the one-shot reply channel shows its receiver. */
  datatype Reply = Open | Delivered(decision: ApprovalDecision) | Lost

  datatype Invocation = Invocation(tool: Tool, phase: Phase, reply: Reply) {
    predicate Guarded() {
      phase.Registered? || phase.Waiting? || phase.Closing?
    }

    predicate Over() {
      phase.Returned? || phase.Dropped?
    }

    /** The receiving half of the reply channel still exists. */
    predicate Listening() {
      !Over() && !phase.Closing?
    }
  }

  datatype Entry = Entry(token: nat, tool: Tool)

  /** What happened, in order. */
  datatype Fact =
    | Hit(token: nat, tool: Tool)
    | Entered(token: nat, handle: Handle)
    | Resolved(token: nat, handle: Handle, choice: IpcApprovalDecision, tool: Tool, delivered: bool)
    | Released(token: nat)
    | Swept
    | Answered(token: nat, decision: ApprovalDecision)

  datatype State = State(
    registered: set<Tool>,
    pending: map<Handle, Entry>,
    allowed: set<Tool>,
    calls: seq<Invocation>,   // indexed by token
    log: seq<Fact>)

  datatype Action =
    | Begin(tool: Tool)
    | Check(t: nat)
    | Name(t: nat, handle: Handle)
    | Register(t: nat)
    | Notify(t: nat)
    | Undeliverable(t: nat)
    | Wake(t: nat)
    | Abandon(t: nat)
    | Unguard(t: nat)
    | Resolve(handle: Handle, decision: IpcApprovalDecision)
    | CancelPending

  function Init(registered: set<Tool>): State {
    State(registered, map[], {}, [], [])
  }

  predicate Enabled(st: State, a: Action) {
    match a
    case Begin(_) => true
    case Check(t) => t < |st.calls| && st.calls[t].phase.Begun?
    case Name(t, _) => t < |st.calls| && st.calls[t].phase.Unlisted?
    case Register(t) => t < |st.calls| && st.calls[t].phase.Named?
    case Notify(t) => t < |st.calls| && st.calls[t].phase.Registered?
    case Undeliverable(t) => t < |st.calls| && st.calls[t].phase.Registered?
    case Wake(t) => t < |st.calls| && st.calls[t].phase.Waiting? && !st.calls[t].reply.Open?
    case Abandon(t) => t < |st.calls| && (st.calls[t].phase.Registered? || st.calls[t].phase.Waiting?)
    case Unguard(t) => t < |st.calls| && st.calls[t].phase.Closing?
    case Resolve(_, _) => true
    case CancelPending => true
  }

  /** The drop guard: it removes the entry at its handle only if the entry is of its own generation. */
  function WithoutOwn(pending: map<Handle, Entry>, handle: Handle, token: nat): map<Handle, Entry> {
    if handle in pending && pending[handle].token == token then pending - {handle} else pending
  }

  /** `allow_all` for a tool that is not registered is an ordinary `allow`. */
  function CoreDecision(decision: IpcApprovalDecision, isRegistered: bool): ApprovalDecision {
    if decision.AllowForSession? && !isRegistered then Allow else MapDecision(decision)
  }

  function Moved(st: State, t: nat, phase: Phase): State
    requires t < |st.calls|
  {
    st.(calls := st.calls[t := st.calls[t].(phase := phase)])
  }

  /** The invocation ends, its guard running on the way out. */
  function Left(st: State, t: nat, phase: Phase, facts: seq<Fact>): State
    requires t < |st.calls| && st.calls[t].Guarded()
  {
    Moved(st, t, phase).(
      pending := WithoutOwn(st.pending, st.calls[t].phase.handle, t),
      log := st.log + [Released(t)] + facts)
  }

  function Resolving(st: State, handle: Handle, decision: IpcApprovalDecision): State {
    if handle !in st.pending || st.pending[handle].token >= |st.calls| then st else
    var entry := st.pending[handle];
    var t := entry.token;
    var sent := st.calls[t].Listening();
    var persist := decision.AllowForSession? && entry.tool in st.registered;
    st.(pending := st.pending - {handle},
        calls := st.calls[t := st.calls[t].(reply := if sent then Delivered(CoreDecision(decision,
          entry.tool in st.registered)) else Lost)],
        allowed := if sent && persist then st.allowed + {entry.tool} else st.allowed,
        log := st.log + [Resolved(t, handle, decision, entry.tool, sent)])
  }

  /** Dropping every sender: whoever still waits will see the channel closed. */
  function Swept'(st: State): State {
    var senders := set h | h in st.pending :: st.pending[h].token;
    st.(pending := map[],
        calls := seq(|st.calls|, t requires 0 <= t < |st.calls| =>
                   if t in senders then st.calls[t].(reply := Lost) else st.calls[t]),
        log := st.log + [Swept])
  }

  function Next(st: State, a: Action): State
    requires Enabled(st, a)
  {
    match a
    case Begin(tool) => st.(calls := st.calls + [Invocation(tool, Begun, Open)])
    case Check(t) =>
      var tool := st.calls[t].tool;
      if tool in st.allowed then
        Moved(st, t, Returned(AllowAll)).(log := st.log + [Hit(t, tool), Answered(t, AllowAll)])
      else Moved(st, t, Unlisted)
    case Name(t, handle) => Moved(st, t, Named(handle))
    case Register(t) =>
      var handle := st.calls[t].phase.handle;
      if handle in st.pending then Moved(st, t, Returned(Deny)).(log := st.log + [Answered(t, Deny)])
      else Moved(st, t, Registered(handle)).(
             pending := st.pending[handle := Entry(t, st.calls[t].tool)],
             log := st.log + [Entered(t, handle)])
    case Notify(t) => Moved(st, t, Waiting(st.calls[t].phase.handle))
    case Undeliverable(t) => Left(st, t, Returned(Deny), [Answered(t, Deny)])
    case Wake(t) =>
      var decision := if st.calls[t].reply.Delivered? then st.calls[t].reply.decision else Deny;
      Left(st, t, Returned(decision), [Answered(t, decision)])
    case Abandon(t) =>
      // Registered: the guard is dropped before the receiver. Waiting: the receiver goes first.
      if st.calls[t].phase.Registered? then Left(st, t, Dropped, [])
      else Moved(st, t, Closing(st.calls[t].phase.handle))
    case Unguard(t) => Left(st, t, Dropped, [])
    case Resolve(handle, decision) => Resolving(st, handle, decision)
    case CancelPending => Swept'(st)
  }

  lemma NextCalls(st: State, a: Action)
    requires Enabled(st, a)
    ensures |Next(st, a).calls| == |st.calls| + (if a.Begin? then 1 else 0)
    ensures forall t :: 0 <= t < |st.calls| && st.calls[t].Over() ==> Next(st, a).calls[t].Over()
    ensures forall t :: 0 <= t < |st.calls| && Next(st, a).calls[t].Over() && !st.calls[t].Over() ==>
              !a.Resolve? && !a.CancelPending? && !a.Begin?
  {
  }

  /** Past the point where its notice was accepted by the channel. */
  predicate Announced(call: Invocation) {
    call.phase.Waiting? || call.phase.Closing? || call.Over()
  }

  lemma NextPhases(st: State, a: Action, t: nat)
    requires Enabled(st, a) && t < |st.calls|
    ensures t < |Next(st, a).calls|
    ensures var now, next := st.calls[t], Next(st, a).calls[t];
            && next.tool == now.tool
            && (Announced(now) ==> Announced(next))
            && (next.phase.Waiting? && !now.phase.Waiting? ==> a == Notify(t))
            && (next.reply.Open? ==> now.reply.Open?)
            && (next.reply != now.reply ==> a.Resolve? || a.CancelPending?)
            && (next.phase != now.phase ==> !a.Resolve? && !a.CancelPending? && !a.Begin?)
  {
  }

  /** After `cancel_pending` nobody is left waiting with an open reply. */
  lemma CancelLeavesNoneOpen(st: State, t: nat)
    requires TableExact(st) && t < |st.calls| && st.calls[t].Guarded()
    ensures !Next(st, CancelPending).calls[t].reply.Open?
  {
    if st.calls[t].reply.Open? {
      assert st.calls[t].phase.handle in st.pending;
    }
  }

  // ---------------------------------------------------------------- what the history alone says

  /** By the first `n` facts, `t` entered the table at `handle` and nothing has taken it out since. */
  predicate Outstanding(log: seq<Fact>, n: nat, t: nat, handle: Handle)
    requires n <= |log|
  {
    n > 0 &&
    match log[n - 1]
    case Entered(t', h) => (t' == t && h == handle) || Outstanding(log, n - 1, t, handle)
    case Resolved(t', _, _, _, _) => t' != t && Outstanding(log, n - 1, t, handle)
    case Released(t') => t' != t && Outstanding(log, n - 1, t, handle)
    case Swept => false
    case _ => Outstanding(log, n - 1, t, handle)
  }

  /** The registered tools for which an `allow_all` has reached a live receiver. */
  function AllowedBy(log: seq<Fact>, n: nat, registered: set<Tool>): set<Tool>
    requires n <= |log|
  {
    if n == 0 then {} else
    var before := AllowedBy(log, n - 1, registered);
    match log[n - 1]
    case Resolved(_, _, decision, tool, delivered) =>
      if delivered && decision.AllowForSession? && tool in registered then before + {tool} else before
    case _ => before
  }

  /** At `j`, a `resolve` naming `t`'s own handle took `t`'s own entry out and delivered `decision`. */
  predicate GrantedAt(log: seq<Fact>, j: nat, t: nat, decision: ApprovalDecision, registered: set<Tool>)
    requires j < |log|
  {
    && log[j].Resolved? && log[j].token == t && log[j].delivered
    && Outstanding(log, j, t, log[j].handle)
    && decision == CoreDecision(log[j].choice, log[j].tool in registered)
  }

  predicate HitAt(log: seq<Fact>, j: nat, t: nat, registered: set<Tool>)
    requires j < |log|
  {
    log[j].Hit? && log[j].token == t && log[j].tool in AllowedBy(log, j, registered)
  }

  ghost predicate Granted(log: seq<Fact>, n: nat, t: nat, decision: ApprovalDecision, registered: set<Tool>)
    requires n <= |log|
  {
    exists j: nat :: j < n && GrantedAt(log, j, t, decision, registered)
  }

  ghost predicate Listed(log: seq<Fact>, n: nat, t: nat, registered: set<Tool>)
    requires n <= |log|
  {
    exists j: nat :: j < n && HitAt(log, j, t, registered)
  }

  /** The `k`th fact, if it is an answer other than a denial, was authorised earlier. */
  ghost predicate AuthorisedAt(log: seq<Fact>, k: nat, registered: set<Tool>)
    requires k < |log|
  {
    log[k].Answered? && !log[k].decision.Deny? ==>
      || (log[k].decision.AllowAll? && Listed(log, k, log[k].token, registered))
      || Granted(log, k, log[k].token, log[k].decision, registered)
  }

  ghost predicate FailClosed(log: seq<Fact>, registered: set<Tool>) {
    forall k: nat | k < |log| :: AuthorisedAt(log, k, registered)
  }

  // ---------------------------------------------------------------- invariants

  /** The table is exactly the guarded invocations whose reply is still open. */
  ghost predicate TableExact(st: State) {
    && (forall h | h in st.pending ::
          var e := st.pending[h];
          e.token < |st.calls| && st.calls[e.token].Guarded() && st.calls[e.token].phase.handle == h
          && st.calls[e.token].reply.Open? && st.calls[e.token].tool == e.tool)
    && (forall t: nat | t < |st.calls| && st.calls[t].Guarded() && st.calls[t].reply.Open? ::
          st.calls[t].phase.handle in st.pending && st.pending[st.calls[t].phase.handle].token == t)
  }

  /** Only a registered invocation can have been replied to. */
  ghost predicate OpenBefore(st: State) {
    forall t: nat | t < |st.calls|
             && (st.calls[t].phase.Begun? || st.calls[t].phase.Unlisted? || st.calls[t].phase.Named?) ::
      st.calls[t].reply.Open?
  }

  ghost predicate TableByLog(st: State) {
    forall h: Handle, t: nat :: (h in st.pending && st.pending[h].token == t) <==> Outstanding(st.log, |st.log|, t, h)
  }

  ghost predicate AllowedExact(st: State) {
    st.allowed == AllowedBy(st.log, |st.log|, st.registered)
  }

  ghost predicate RepliesGranted(st: State) {
    forall t: nat | t < |st.calls| && st.calls[t].reply.Delivered? ::
      Granted(st.log, |st.log|, t, st.calls[t].reply.decision, st.registered)
  }

  ghost predicate AnswersLogged(st: State) {
    forall t: nat | t < |st.calls| && st.calls[t].phase.Returned? :: Answered(t, st.calls[t].phase.decision) in st.log
  }

  /** A hit is on the tool its invocation asks about, and a decision on the tool of the one it was made for. */
  ghost predicate ToolsOwn(st: State) {
    forall j :: 0 <= j < |st.log| && (st.log[j].Hit? || st.log[j].Resolved?) ==>
      st.log[j].token < |st.calls| && st.log[j].tool == st.calls[st.log[j].token].tool
  }

  ghost predicate Inv(st: State) {
    && TableExact(st) && OpenBefore(st) && TableByLog(st) && AllowedExact(st)
    && RepliesGranted(st) && AnswersLogged(st) && FailClosed(st.log, st.registered) && ToolsOwn(st)
  }

  lemma EntryIsLive(st: State, handle: Handle)
    requires TableExact(st)
    ensures handle in st.pending ==>
              var t := st.pending[handle].token; t < |st.calls| && st.calls[t].Guarded() && st.calls[t].reply.Open?
  {
  }

  // ---------------------------------------------------------------- facts do not change with later facts

  lemma {:induction false} PrefixReads(log: seq<Fact>, more: seq<Fact>, n: nat, t: nat, h: Handle,
                                       registered: set<Tool>)
    requires log <= more && n <= |log|
    ensures Outstanding(more, n, t, h) == Outstanding(log, n, t, h)
    ensures AllowedBy(more, n, registered) == AllowedBy(log, n, registered)
    decreases n
  {
    if n > 0 {
      PrefixReads(log, more, n - 1, t, h, registered);
    }
  }

  lemma GrantedLater(log: seq<Fact>, more: seq<Fact>, n: nat, m: nat, t: nat, d: ApprovalDecision,
                     registered: set<Tool>)
    requires log <= more && n <= m <= |more| && n <= |log|
    ensures Granted(log, n, t, d, registered) ==> Granted(more, m, t, d, registered)
    ensures Listed(log, n, t, registered) ==> Listed(more, m, t, registered)
  {
    if Granted(log, n, t, d, registered) {
      var j: nat :| j < n && GrantedAt(log, j, t, d, registered);
      PrefixReads(log, more, j, t, log[j].handle, registered);
      assert GrantedAt(more, j, t, d, registered);
    }
    if Listed(log, n, t, registered) {
      var j: nat :| j < n && HitAt(log, j, t, registered);
      PrefixReads(log, more, j, t, "", registered);
      assert HitAt(more, j, t, registered);
    }
  }

  /** One more fact: it need only be authorised itself. */
  lemma FailClosedExtends(log: seq<Fact>, fact: Fact, registered: set<Tool>)
    requires FailClosed(log, registered)
    requires fact.Answered? && !fact.decision.Deny? ==>
               || (fact.decision.AllowAll? && Listed(log, |log|, fact.token, registered))
               || Granted(log, |log|, fact.token, fact.decision, registered)
    ensures FailClosed(log + [fact], registered)
  {
    hide Granted, Listed;
    var more := log + [fact];
    forall k: nat | k < |more| ensures AuthorisedAt(more, k, registered) {
      if k < |log| {
        assert AuthorisedAt(log, k, registered);
      }
      if more[k].Answered? {
        GrantedLater(log, more, k, k, more[k].token, more[k].decision, registered);
      }
    }
  }

  // ---------------------------------------------------------------- each step keeps the invariants

  lemma LeftKeepsTable(st: State, t: nat, phase: Phase, facts: seq<Fact>)
    requires TableExact(st) && OpenBefore(st)
    requires t < |st.calls| && st.calls[t].Guarded() && (phase.Returned? || phase.Dropped?)
    ensures TableExact(Left(st, t, phase, facts)) && OpenBefore(Left(st, t, phase, facts))
  {
  }

  /** Entering a vacant handle; any other change of phase is outside the table, on either side of it. */
  lemma RegisterKeepsTable(st: State, t: nat)
    requires TableExact(st) && OpenBefore(st) && Enabled(st, Register(t))
    ensures TableExact(Next(st, Register(t))) && OpenBefore(Next(st, Register(t)))
  {
    var handle := st.calls[t].phase.handle;
    if handle in st.pending {
      MovedKeepsTable(st, t, Returned(Deny));
    } else {
      var next := Next(st, Register(t));
      assert forall h | h in st.pending :: st.pending[h].token != t;
      assert next.calls[t].reply.Open?;
    }
  }

  lemma MovedKeepsTable(st: State, t: nat, phase: Phase)
    requires TableExact(st) && OpenBefore(st) && t < |st.calls| && !st.calls[t].Guarded()
    requires phase.Unlisted? || phase.Named? || phase.Returned?
    requires !phase.Returned? ==> st.calls[t].reply.Open?
    ensures TableExact(Moved(st, t, phase)) && OpenBefore(Moved(st, t, phase))
  {
  }

  lemma NotifyKeepsTable(st: State, t: nat)
    requires TableExact(st) && OpenBefore(st) && Enabled(st, Notify(t))
    ensures TableExact(Next(st, Notify(t))) && OpenBefore(Next(st, Notify(t)))
  {
  }

  lemma EarlyKeepsTable(st: State, a: Action)
    requires Enabled(st, a) && TableExact(st) && OpenBefore(st) && (a.Begin? || a.Check? || a.Name?)
    ensures TableExact(Next(st, a)) && OpenBefore(Next(st, a))
  {
    if a.Name? {
      MovedKeepsTable(st, a.t, Named(a.handle));
    } else if a.Check? {
      MovedKeepsTable(st, a.t, if st.calls[a.t].tool in st.allowed then Returned(AllowAll) else Unlisted);
    }
  }

  lemma ResolvingKeepsTable(st: State, handle: Handle, decision: IpcApprovalDecision)
    requires TableExact(st) && OpenBefore(st)
    ensures TableExact(Resolving(st, handle, decision)) && OpenBefore(Resolving(st, handle, decision))
  {
    hide CoreDecision;
  }

  lemma SweptKeepsTable(st: State)
    requires TableExact(st) && OpenBefore(st)
    ensures TableExact(Swept'(st)) && OpenBefore(Swept'(st))
  {
    var next := Swept'(st);
    forall t: nat | t < |st.calls| && next.calls[t].Guarded() ensures !next.calls[t].reply.Open? {
      if st.calls[t].reply.Open? {
        assert st.calls[t].phase.handle in st.pending;
      }
    }
  }

  lemma KeepsTableExact(st: State, a: Action)
    requires Enabled(st, a) && TableExact(st) && OpenBefore(st)
    ensures TableExact(Next(st, a)) && OpenBefore(Next(st, a))
  {
    hide Left, Resolving, Swept', TableExact, OpenBefore, Moved;
    match a
    case Begin(_) | Check(_) | Name(_, _) => EarlyKeepsTable(st, a);
    case Notify(t) => NotifyKeepsTable(st, t);
    case Register(t) => RegisterKeepsTable(st, t);
    case Undeliverable(t) => LeftKeepsTable(st, t, Returned(Deny), [Answered(t, Deny)]);
    case Wake(t) =>
      var decision := if st.calls[t].reply.Delivered? then st.calls[t].reply.decision else Deny;
      LeftKeepsTable(st, t, Returned(decision), [Answered(t, decision)]);
    case Abandon(t) =>
      if st.calls[t].phase.Registered? {
        LeftKeepsTable(st, t, Dropped, []);
      } else {
        ClosingKeepsTable(st, t);
      }
    case Unguard(t) => LeftKeepsTable(st, t, Dropped, []);
    case Resolve(handle, decision) => ResolvingKeepsTable(st, handle, decision);
    case CancelPending => SweptKeepsTable(st);
  }

  lemma ClosingKeepsTable(st: State, t: nat)
    requires TableExact(st) && OpenBefore(st) && t < |st.calls| && st.calls[t].phase.Waiting?
    ensures TableExact(Next(st, Abandon(t))) && OpenBefore(Next(st, Abandon(t)))
  {
  }

  /** What the table says of an entry after a step, against what the new facts say. */
  lemma TableByLogLeft(st: State, t: nat, phase: Phase, facts: seq<Fact>)
    requires TableExact(st) && TableByLog(st) && t < |st.calls| && st.calls[t].Guarded()
    requires facts == [] || (|facts| == 1 && facts[0].Answered?)
    ensures TableByLog(Left(st, t, phase, facts))
  {
    var next := Left(st, t, phase, facts);
    var released := st.log + [Released(t)];
    forall h: Handle, u: nat
      ensures (h in next.pending && next.pending[h].token == u) <==> Outstanding(next.log, |next.log|, u, h)
    {
      PrefixReads(st.log, next.log, |st.log|, u, h, st.registered);
      assert Outstanding(next.log, |released|, u, h) <==> u != t && Outstanding(st.log, |st.log|, u, h);
    }
  }

  lemma TableByLogOthers(st: State, a: Action)
    requires Enabled(st, a) && TableExact(st) && TableByLog(st)
    requires !a.Undeliverable? && !a.Wake? && !a.Abandon? && !a.Unguard?
    ensures TableByLog(Next(st, a))
  {
    var next := Next(st, a);
    forall h: Handle, t: nat
      ensures (h in next.pending && next.pending[h].token == t) <==> Outstanding(next.log, |next.log|, t, h)
    {
      PrefixReads(st.log, next.log, |st.log|, t, h, st.registered);
    }
  }

  lemma KeepsTableByLog(st: State, a: Action)
    requires Enabled(st, a) && TableExact(st) && TableByLog(st)
    ensures TableByLog(Next(st, a))
  {
    hide Left, Resolving, Swept', TableExact, Outstanding;
    match a
    case Undeliverable(t) => TableByLogLeft(st, t, Returned(Deny), [Answered(t, Deny)]);
    case Wake(t) =>
      var decision := if st.calls[t].reply.Delivered? then st.calls[t].reply.decision else Deny;
      TableByLogLeft(st, t, Returned(decision), [Answered(t, decision)]);
    case Abandon(t) =>
      if st.calls[t].phase.Registered? {
        TableByLogLeft(st, t, Dropped, []);
      }
    case Unguard(t) => TableByLogLeft(st, t, Dropped, []);
    case _ => TableByLogOthers(st, a);
  }

  lemma KeepsAllowedExact(st: State, a: Action)
    requires Enabled(st, a) && TableExact(st) && AllowedExact(st)
    ensures AllowedExact(Next(st, a))
  {
    PrefixReads(st.log, Next(st, a).log, |st.log|, 0, "", st.registered);
  }

  lemma KeepsReplies(st: State, a: Action)
    requires Enabled(st, a) && TableExact(st) && TableByLog(st) && RepliesGranted(st)
    ensures RepliesGranted(Next(st, a))
  {
    hide Outstanding, AllowedBy, Granted;
    var next := Next(st, a);
    assert st.log <= next.log;
    forall t: nat | t < |next.calls| && next.calls[t].reply.Delivered?
      ensures Granted(next.log, |next.log|, t, next.calls[t].reply.decision, next.registered)
    {
      var d := next.calls[t].reply.decision;
      if t < |st.calls| && st.calls[t].reply == next.calls[t].reply {
        GrantedLater(st.log, next.log, |st.log|, |next.log|, t, d, st.registered);
      } else {
        ReplyGranted(st, a.handle, a.decision);
      }
    }
  }

  /** A reply delivered by `resolve` is granted by the very fact it adds. */
  lemma ReplyGranted(st: State, handle: Handle, decision: IpcApprovalDecision)
    requires TableExact(st) && TableByLog(st) && handle in st.pending
    ensures var t, next := st.pending[handle].token, Resolving(st, handle, decision);
            next.calls[t].reply.Delivered? ==>
              Granted(next.log, |next.log|, t, next.calls[t].reply.decision, st.registered)
  {
    hide Outstanding, AllowedBy;
    var t, next := st.pending[handle].token, Resolving(st, handle, decision);
    assert Outstanding(st.log, |st.log|, t, handle);
    PrefixReads(st.log, next.log, |st.log|, t, handle, st.registered);
    if next.calls[t].reply.Delivered? {
      assert GrantedAt(next.log, |st.log|, t, next.calls[t].reply.decision, st.registered);
    }
  }

  lemma KeepsAnswers(st: State, a: Action)
    requires Enabled(st, a) && TableExact(st) && AnswersLogged(st)
    ensures AnswersLogged(Next(st, a))
  {
    var next := Next(st, a);
    forall t: nat | t < |next.calls| && next.calls[t].phase.Returned?
      ensures Answered(t, next.calls[t].phase.decision) in next.log
    {
      if t < |st.calls| && st.calls[t].phase == next.calls[t].phase {
        assert Answered(t, st.calls[t].phase.decision) in st.log;
      }
    }
  }

  lemma KeepsFailClosed(st: State, a: Action)
    requires Enabled(st, a) && Inv(st)
    ensures FailClosed(Next(st, a).log, st.registered)
  {
    hide Outstanding, AllowedBy, TableExact, TableByLog, FailClosed, Granted, Listed;
    var next := Next(st, a);
    match a
    case Check(t) =>
      if st.calls[t].tool in st.allowed {
        var log1 := st.log + [Hit(t, st.calls[t].tool)];
        FailClosedExtends(st.log, Hit(t, st.calls[t].tool), st.registered);
        HitListed(st, t);
        FailClosedExtends(log1, Answered(t, AllowAll), st.registered);
        assert next.log == log1 + [Answered(t, AllowAll)];
      }
    case Register(t) =>
      if st.calls[t].phase.handle in st.pending {
        FailClosedExtends(st.log, Answered(t, Deny), st.registered);
      } else {
        FailClosedExtends(st.log, Entered(t, st.calls[t].phase.handle), st.registered);
      }
    case Undeliverable(t) =>
      FailClosedExtends(st.log, Released(t), st.registered);
      FailClosedExtends(st.log + [Released(t)], Answered(t, Deny), st.registered);
    case Wake(t) =>
      var decision := next.calls[t].phase.decision;
      FailClosedExtends(st.log, Released(t), st.registered);
      GrantedLater(st.log, st.log + [Released(t)], |st.log|, |st.log| + 1, t, decision, st.registered);
      FailClosedExtends(st.log + [Released(t)], Answered(t, decision), st.registered);
    case Abandon(t) =>
      FailClosedExtends(st.log, Released(t), st.registered);
      assert st.log + [Released(t)] + [] == st.log + [Released(t)];
    case Unguard(t) =>
      FailClosedExtends(st.log, Released(t), st.registered);
      assert st.log + [Released(t)] + [] == st.log + [Released(t)];
    case Resolve(handle, decision) =>
      if next.log != st.log {
        FailClosedExtends(st.log, next.log[|st.log|], st.registered);
      }
    case CancelPending =>
      FailClosedExtends(st.log, Swept, st.registered);
    case _ =>
  }

  lemma HitListed(st: State, t: nat)
    requires t < |st.calls| && AllowedExact(st) && st.calls[t].tool in st.allowed
    ensures var log := st.log + [Hit(t, st.calls[t].tool)]; Listed(log, |log|, t, st.registered)
  {
    hide AllowedBy;
    var log := st.log + [Hit(t, st.calls[t].tool)];
    PrefixReads(st.log, log, |st.log|, 0, "", st.registered);
    assert HitAt(log, |st.log|, t, st.registered);
  }

  lemma KeepsToolsOwn(st: State, a: Action)
    requires Enabled(st, a) && TableExact(st) && ToolsOwn(st)
    ensures ToolsOwn(Next(st, a))
  {
    var next := Next(st, a);
    forall t | 0 <= t < |st.calls| ensures next.calls[t].tool == st.calls[t].tool {
      NextPhases(st, a, t);
    }
  }

  lemma KeepsInv(st: State, a: Action)
    requires Enabled(st, a) && Inv(st)
    ensures Inv(Next(st, a)) && Next(st, a).registered == st.registered
  {
    hide Outstanding, AllowedBy, TableExact, TableByLog, AllowedExact, FailClosed, RepliesGranted, AnswersLogged,
      OpenBefore, ToolsOwn;
    KeepsToolsOwn(st, a);
    KeepsTableExact(st, a);
    KeepsTableByLog(st, a);
    KeepsAllowedExact(st, a);
    KeepsReplies(st, a);
    KeepsAnswers(st, a);
    KeepsFailClosed(st, a);
  }

  // ---------------------------------------------------------------- whole runs

  ghost predicate Run(st: State, actions: seq<Action>, end: State)
    decreases |actions|
  {
    if actions == [] then end == st
    else Enabled(st, actions[0]) && Run(Next(st, actions[0]), actions[1..], end)
  }

  lemma {:induction false} RunKeepsInv(st: State, actions: seq<Action>, end: State)
    requires Inv(st) && Run(st, actions, end)
    ensures Inv(end) && end.registered == st.registered
    decreases |actions|
  {
    if actions != [] {
      KeepsInv(st, actions[0]);
      RunKeepsInv(Next(st, actions[0]), actions[1..], end);
    }
  }

  lemma InitInv(registered: set<Tool>)
    ensures Inv(Init(registered))
  {
  }

  /**
   * Before the `n`th fact the history warrants answer `d` to invocation `t`: its tool was on the allow
   * list, or a `resolve` of its own handle, for its own tool, took its own entry out and delivered `d`.
   */
  ghost predicate Warranted(log: seq<Fact>, n: nat, t: nat, d: ApprovalDecision, tool: Tool, registered: set<Tool>)
    requires n <= |log|
  {
    exists j: nat | j < n ::
      && ((d.AllowAll? && HitAt(log, j, t, registered)) || GrantedAt(log, j, t, d, registered))
      && log[j].tool == tool
  }

  lemma InvAuthorises(st: State, t: nat)
    requires Inv(st) && t < |st.calls| && st.calls[t].phase.Returned? && !st.calls[t].phase.decision.Deny?
    ensures exists k: nat | k < |st.log| ::
              && st.log[k] == Answered(t, st.calls[t].phase.decision)
              && Warranted(st.log, k, t, st.calls[t].phase.decision, st.calls[t].tool, st.registered)
  {
    hide TableExact, TableByLog, AllowedExact, RepliesGranted, OpenBefore, Outstanding, AllowedBy, CoreDecision;
    var d := st.calls[t].phase.decision;
    var k: nat :| k < |st.log| && st.log[k] == Answered(t, d);
    assert AuthorisedAt(st.log, k, st.registered);
    if d.AllowAll? && Listed(st.log, k, t, st.registered) {
      var j: nat :| j < k && HitAt(st.log, j, t, st.registered);
      assert st.log[j].tool == st.calls[t].tool;
    } else {
      var j: nat :| j < k && GrantedAt(st.log, j, t, d, st.registered);
      assert st.log[j].tool == st.calls[t].tool;
    }
  }

  /**
   * Over every interleaving: whoever was told anything but a denial had, before it was answered, been on
   * the allow list when it looked, or been granted by a `resolve` of its own handle that removed its own entry.
   */
  lemma AnswersAreAuthorised(registered: set<Tool>, actions: seq<Action>, end: State, t: nat)
    requires Run(Init(registered), actions, end)
    requires t < |end.calls| && end.calls[t].phase.Returned? && !end.calls[t].phase.decision.Deny?
    ensures exists k: nat | k < |end.log| ::
              && end.log[k] == Answered(t, end.calls[t].phase.decision)
              && Warranted(end.log, k, t, end.calls[t].phase.decision, end.calls[t].tool, registered)
  {
    hide Inv, Warranted;
    InitInv(registered);
    RunKeepsInv(Init(registered), actions, end);
    InvAuthorises(end, t);
  }

  /**
   * The table, entry by entry: registered, guard live, not resolved, not cancelled, not released
   * since. Two invocations may have been given the same handle.
   */
  lemma TableIsTheOutstanding(registered: set<Tool>, actions: seq<Action>, end: State, h: Handle, t: nat)
    requires Run(Init(registered), actions, end)
    ensures (h in end.pending && end.pending[h].token == t) <==> Outstanding(end.log, |end.log|, t, h)
    ensures (h in end.pending && end.pending[h].token == t) <==>
            (t < |end.calls| && end.calls[t].Guarded() && end.calls[t].phase.handle == h && end.calls[t].reply.Open?)
  {
    hide AllowedExact, RepliesGranted, OpenBefore, FailClosed, AnswersLogged;
    InitInv(registered);
    RunKeepsInv(Init(registered), actions, end);
  }

  /** A guard takes nobody else's entry with it, even one at its own handle. */
  lemma LeavingTouchesOwnEntryOnly(st: State, a: Action, t: nat, h: Handle)
    requires Enabled(st, a)
    requires a == Undeliverable(t) || a == Wake(t) || a == Abandon(t) || a == Unguard(t)
    requires h in st.pending && st.pending[h].token != t
    ensures h in Next(st, a).pending && Next(st, a).pending[h] == st.pending[h]
  {
  }

  /** The allow set is the history's, never leaves the registered tools, and only ever grows. */
  lemma AllowedFromHistory(registered: set<Tool>, actions: seq<Action>, end: State)
    requires Run(Init(registered), actions, end)
    ensures end.allowed == AllowedBy(end.log, |end.log|, registered) && end.allowed <= registered
    ensures forall a | Enabled(end, a) :: end.allowed <= Next(end, a).allowed
  {
    hide TableExact, TableByLog, RepliesGranted, OpenBefore, FailClosed, AnswersLogged, Outstanding, AllowedBy;
    InitInv(registered);
    RunKeepsInv(Init(registered), actions, end);
    AllowedRegistered(end.log, |end.log|, registered);
  }

  lemma {:induction false} AllowedRegistered(log: seq<Fact>, n: nat, registered: set<Tool>)
    requires n <= |log|
    ensures AllowedBy(log, n, registered) <= registered
    decreases n
  {
    if n > 0 {
      AllowedRegistered(log, n - 1, registered);
    }
  }

  /** For an allowed tool the check answers at once: no handle, no entry, and no notice can follow. */
  lemma AllowedToolIsNotAskedAbout(st: State, t: nat, later: seq<Action>, end: State)
    requires Enabled(st, Check(t)) && st.calls[t].tool in st.allowed
    requires Run(Next(st, Check(t)), later, end)
    ensures Next(st, Check(t)).pending == st.pending
    ensures t < |end.calls| && end.calls[t].phase == Returned(AllowAll)
  {
    OverStaysOver(Next(st, Check(t)), later, end, t);
  }

  lemma {:induction false} OverStaysOver(st: State, actions: seq<Action>, end: State, t: nat)
    requires t < |st.calls| && st.calls[t].Over() && Run(st, actions, end)
    ensures t < |end.calls| && end.calls[t].phase == st.calls[t].phase
    decreases |actions|
  {
    if actions != [] {
      OverStaysOver(Next(st, actions[0]), actions[1..], end, t);
    }
  }

  /** `resolve` for a handle that is not in the table changes nothing. */
  lemma UnknownHandleIsRejected(st: State, handle: Handle, decision: IpcApprovalDecision)
    requires handle !in st.pending
    ensures Next(st, Resolve(handle, decision)) == st
  {
  }

  /** Only the first decision for a handle counts; one that comes after a cancel counts for nothing. */
  lemma LaterDecisionsAreRejected(st: State, handle: Handle, first: IpcApprovalDecision, second: IpcApprovalDecision)
    requires TableExact(st)
    ensures var once := Next(st, Resolve(handle, first)); Next(once, Resolve(handle, second)) == once
    ensures var swept := Next(st, CancelPending); Next(swept, Resolve(handle, second)) == swept
  {
    hide CoreDecision;
    EntryIsLive(st, handle);
    assert handle !in Next(st, Resolve(handle, first)).pending;
  }

  /**
   * A decision for a waiting request is what its `approve` returns. Only `allow_all` for a registered
   * tool lasts; for any other tool it is an ordinary `allow`.
   */
  lemma DecisionIsTheAnswer(st: State, t: nat, decision: IpcApprovalDecision)
    requires TableExact(st) && t < |st.calls| && st.calls[t].phase.Waiting? && st.calls[t].reply.Open?
    ensures var tool, resolved := st.calls[t].tool, Next(st, Resolve(st.calls[t].phase.handle, decision));
            var lasts := decision == AllowForSession && tool in st.registered;
            && Enabled(resolved, Wake(t))
            && Next(resolved, Wake(t)).calls[t].phase
                 == Returned(if decision == Refuse then Deny else if lasts then AllowAll else Allow)
            && resolved.allowed == st.allowed + (if lasts then {tool} else {})
  {
    assert st.calls[t].phase.handle in st.pending;
  }

  /** A decision for a request whose receiver is gone takes its entry out and is remembered nowhere. */
  lemma DecisionTooLate(st: State, t: nat, decision: IpcApprovalDecision)
    requires TableExact(st) && t < |st.calls| && st.calls[t].phase.Closing? && st.calls[t].reply.Open?
    ensures var handle, n := st.calls[t].phase.handle, Next(st, Resolve(st.calls[t].phase.handle, decision));
            && handle in st.pending && n.pending == st.pending - {handle}
            && n.allowed == st.allowed && !n.calls[t].reply.Delivered?
  {
    assert st.calls[t].phase.handle in st.pending;
  }

  /** After `cancel_pending` whoever was still waiting is told no. */
  lemma CancelDenies(st: State, t: nat)
    requires TableExact(st) && t < |st.calls| && st.calls[t].phase.Waiting? && st.calls[t].reply.Open?
    ensures var swept := Next(st, CancelPending);
            Enabled(swept, Wake(t)) && Next(swept, Wake(t)).calls[t].phase == Returned(Deny)
  {
    CancelLeavesNoneOpen(st, t);
    assert Next(st, CancelPending).calls[t].reply == Lost;
  }
}
