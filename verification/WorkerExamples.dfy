/** Two sessions: a request held when the queue overflows, and an identity used again while the coordinator lags. */
module WorkerExamples {
  import opened Text
  import opened Protocol
  import opened CallIds
  import opened Worker
  import opened WorkerInvariants
  import opened WorkerRuns
  import opened WorkerCalls
  import A = Approval

  lemma {:induction false} RunOneMore(s: Session, steps: seq<Step>, m: Session, step: Step, n: Session)
    requires Run(s, steps, m) && Enabled(m, step) && Next(m, step) == n
    ensures Run(s, steps + [step], n)
    decreases |steps|
  {
    hide Enabled, Next;
    if steps == [] {
      assert [step][1..] == [];
      assert Run(n, [], n);
      assert [] + [step] == [step];
    } else {
      RunOneMore(Next(s, steps[0]), steps[1..], m, step, n);
      assert (steps + [step])[1..] == steps[1..] + [step];
    }
  }

  /** What the sessions are made of. */
  datatype Sample = Sample(registered: set<Tool>, input: string, tool: Tool, id: ProviderId, arguments: string,
                           content: string)

  function Begun(x: Sample): Session {
    Init(x.registered, []).(
      active := true, agent := Running, turns := [Turn(x.input, [User(x.input)], InProgress, [])],
        accepted := [x.input])
  }

  lemma ToBegun(x: Sample)
    ensures Run(Init(x.registered, []), [Command(Input(x.input)), StartTurn], Begun(x))
  {
    var s0, s2 := Init(x.registered, []), Begun(x);
    var s1 := s0.(queued := [x.input], accepted := [x.input]);
    assert [] + [x.input] == [x.input];
    assert Next(s0, Command(Input(x.input))) == s1;
    StartsTurn(x, s1);
    assert Run(s2, [], s2);
    assert [StartTurn][1..] == [] && [Command(Input(x.input)), StartTurn][1..] == [StartTurn];
    assert Run(s1, [StartTurn], s2);
  }

  lemma StartsTurn(x: Sample, s: Session)
    requires s == Init(x.registered, []).(queued := [x.input], accepted := [x.input])
    ensures Enabled(s, StartTurn) && Next(s, StartTurn) == Begun(x)
  {
    assert [x.input][1..] == [];
    assert [] + [User(x.input)] == [User(x.input)];
    assert [] + [Turn(x.input, [User(x.input)], InProgress, [])] == [Turn(x.input, [User(x.input)], InProgress, [])];
  }

  // ---------------------------------------------------------------- a request on its way

  function Asking(x: Sample, phase: A.Phase): A.State {
    A.Init(x.registered).(calls := [A.Invocation(x.tool, phase, A.Open)])
  }

  /** The only request, named, registered and waiting. */
  function Entered(x: Sample, handle: Handle, phase: A.Phase): A.State {
    Asking(x, phase).(pending := map[handle := A.Entry(0, x.tool)], log := [A.Entered(0, handle)])
  }

  function Requested(x: Sample, phase: A.Phase): Session {
    Begun(x).(ap := Asking(x, phase), requests := [Request(0, x.id, x.arguments, 0, 0)], stages := map[x.id := Asked])
  }

  function Named'(x: Sample, handle: Handle, ap: A.State): Session {
    Requested(x, A.Begun).(ap := ap, ids := map[x.id := handle], uses := [ApprovalStarted(Call(0, x.id))],
      supply := [handle])
  }

  function TheNotice(x: Sample, handle: Handle): Notice {
    Notice(0, 0, handle, x.tool, x.arguments)
  }

  lemma AsksStep(x: Sample)
    ensures Next(Begun(x), Request'(x.tool, x.id, x.arguments)) == Requested(x, A.Begun)
  {
  }

  lemma CheckStep(x: Sample)
    ensures var s := Requested(x, A.Begun);
            Enabled(s, Approving(A.Check(0))) && Next(s, Approving(A.Check(0))) == Requested(x, A.Unlisted)
  {
  }

  lemma NameStep(x: Sample, handle: Handle)
    ensures var s := Requested(x, A.Unlisted);
            && Enabled(s, NameCall(0, handle))
            && Next(s, NameCall(0, handle)) == Named'(x, handle, Asking(x, A.Named(handle)))
  {
  }

  lemma RegisterStep(x: Sample, handle: Handle)
    ensures var s := Named'(x, handle, Asking(x, A.Named(handle)));
            && Enabled(s, Approving(A.Register(0)))
            && Next(s, Approving(A.Register(0))) == Named'(x, handle, Entered(x, handle, A.Registered(handle)))
  {
  }

  lemma NotifyStep(x: Sample, handle: Handle)
    ensures var s := Named'(x, handle, Entered(x, handle, A.Registered(handle)));
            && Enabled(s, Approving(A.Notify(0)))
            && Next(s, Approving(A.Notify(0)))
                 == Named'(x, handle, Entered(x, handle, A.Waiting(handle))).(notices := [TheNotice(x, handle)])
  {
  }

  function Held(x: Sample, handle: Handle): Session {
    Named'(x, handle, Entered(x, handle, A.Waiting(handle))).(held := Some(MapApprovalNotice(TheNotice(x, handle))))
  }

  lemma BarrierSteps(x: Sample, handle: Handle)
    ensures var s := Named'(x, handle, Entered(x, handle, A.Waiting(handle))).(notices := [TheNotice(x, handle)]);
            var m := s.(barrier := Some(TheNotice(x, handle)), notices := []);
            && Enabled(s, TakeNotice) && Next(s, TakeNotice) == m
            && Enabled(m, BarrierEmpty) && Next(m, BarrierEmpty) == Held(x, handle)
  {
    assert [TheNotice(x, handle)][1..] == [];
  }

  /** The steps up to the point where the request is held. */
  function AskSteps(x: Sample, handle: Handle): seq<Step> {
    [Command(Input(x.input)), StartTurn] + [Request'(x.tool, x.id, x.arguments)] + [Approving(A.Check(0))]
    + [NameCall(0, handle)] + [Approving(A.Register(0))] + [Approving(A.Notify(0))] + [TakeNotice] + [BarrierEmpty]
  }

  lemma ToHeld(x: Sample, handle: Handle)
    ensures Run(Init(x.registered, []), AskSteps(x, handle), Held(x, handle))
  {
    hide Next, Enabled, Init, Begun, Requested, Named', Asking, Entered, Held;
    var s0, p := Init(x.registered, []), [Command(Input(x.input)), StartTurn];
    var s3 := Named'(x, handle, Asking(x, A.Named(handle)));
    var s4 := Named'(x, handle, Entered(x, handle, A.Registered(handle)));
    var s5 := Named'(x, handle, Entered(x, handle, A.Waiting(handle))).(notices := [TheNotice(x, handle)]);
    var s6 := s5.(barrier := Some(TheNotice(x, handle)), notices := []);
    ToBegun(x);
    AsksStep(x);
    AskEnabled(x);
    RunOneMore(s0, p, Begun(x), Request'(x.tool, x.id, x.arguments), Requested(x, A.Begun));
    var p1 := p + [Request'(x.tool, x.id, x.arguments)];
    CheckStep(x);
    RunOneMore(s0, p1, Requested(x, A.Begun), Approving(A.Check(0)), Requested(x, A.Unlisted));
    var p2 := p1 + [Approving(A.Check(0))];
    NameStep(x, handle);
    RunOneMore(s0, p2, Requested(x, A.Unlisted), NameCall(0, handle), s3);
    var p3 := p2 + [NameCall(0, handle)];
    RegisterStep(x, handle);
    RunOneMore(s0, p3, s3, Approving(A.Register(0)), s4);
    var p4 := p3 + [Approving(A.Register(0))];
    NotifyStep(x, handle);
    RunOneMore(s0, p4, s4, Approving(A.Notify(0)), s5);
    var p5 := p4 + [Approving(A.Notify(0))];
    BarrierSteps(x, handle);
    RunOneMore(s0, p5, s5, TakeNotice, s6);
    RunOneMore(s0, p5 + [TakeNotice], s6, BarrierEmpty, Held(x, handle));
  }

  lemma AskEnabled(x: Sample)
    ensures Enabled(Begun(x), Request'(x.tool, x.id, x.arguments))
  {
  }

  // ---------------------------------------------------------------- the queue overflows while it is held

  function Copies(text: string, n: nat): seq<string> {
    seq(n, i => text)
  }

  function Filled(x: Sample, handle: Handle, n: nat): Session {
    Held(x, handle).(queued := Copies(x.input, n), accepted := Copies(x.input, n + 1))
  }

  function InputSteps(x: Sample, n: nat): seq<Step> {
    seq(n, i => Command(Input(x.input)))
  }

  lemma InputFills(x: Sample, handle: Handle, n: nat)
    requires n < MAX_QUEUED_INPUTS
    ensures var s := Filled(x, handle, n);
            Enabled(s, Command(Input(x.input))) && Next(s, Command(Input(x.input))) == Filled(x, handle, n + 1)
  {
    assert Copies(x.input, n) + [x.input] == Copies(x.input, n + 1);
    assert Copies(x.input, n + 1) + [x.input] == Copies(x.input, n + 2);
  }

  lemma NothingFilled(x: Sample, handle: Handle)
    ensures Filled(x, handle, 0) == Held(x, handle)
  {
    assert Copies(x.input, 1) == [x.input];
  }

  lemma {:induction false} ToFilled(x: Sample, handle: Handle, n: nat)
    requires n <= MAX_QUEUED_INPUTS
    ensures Run(Init(x.registered, []), AskSteps(x, handle) + InputSteps(x, n), Filled(x, handle, n))
    decreases n
  {
    hide Next, Enabled, Init, Held, Filled, AskSteps;
    var p := AskSteps(x, handle);
    if n == 0 {
      ToHeld(x, handle);
      NothingFilled(x, handle);
      assert p + InputSteps(x, 0) == p;
    } else {
      ToFilled(x, handle, n - 1);
      InputFills(x, handle, n - 1);
      RunOneMore(Init(x.registered, []), p + InputSteps(x, n - 1), Filled(x, handle, n - 1), Command(Input(x.input)),
        Filled(x, handle, n));
      assert p + InputSteps(x, n - 1) + [Command(Input(x.input))] == p + InputSteps(x, n);
    }
  }

  function Overflowed(x: Sample, handle: Handle): Session {
    var s := Filled(x, handle, MAX_QUEUED_INPUTS);
    BreakWith(s, [MapApprovalNotice(TheNotice(x, handle)), Terminal(Crash(OVERFLOW))])
  }

  lemma OverflowStep(x: Sample, handle: Handle)
    ensures var s := Filled(x, handle, MAX_QUEUED_INPUTS);
            Enabled(s, Command(Input(x.input))) && Next(s, Command(Input(x.input))) == Overflowed(x, handle)
  {
    hide Held, MapApprovalNotice;
    HeldInTurn(x, handle);
    var ask := MapApprovalNotice(TheNotice(x, handle));
    assert HeldItems(Some(ask)) + [Terminal(Crash(OVERFLOW))] == [ask, Terminal(Crash(OVERFLOW))];
  }

  lemma HeldInTurn(x: Sample, handle: Handle)
    ensures var s := Held(x, handle);
            && s.phase.Looping? && s.active && s.sent == [] && s.room == EVENT_CAPACITY
            && s.held == Some(MapApprovalNotice(TheNotice(x, handle)))
  {
  }

  lemma FlushSteps(x: Sample, handle: Handle)
    ensures var s := Overflowed(x, handle);
            var first, second := MapApprovalNotice(TheNotice(x, handle)), Terminal(Crash(OVERFLOW));
            var m := s.(sent := [first], phase := Flushing([second]), room := EVENT_CAPACITY - 1);
            var n := s.(sent := [first, second], phase := Flushing([]), room := EVENT_CAPACITY - 2);
            && Enabled(s, FlushOne) && Next(s, FlushOne) == m
            && Enabled(m, FlushOne) && Next(m, FlushOne) == n
  {
    hide Held;
    HeldInTurn(x, handle);
    var first, second := MapApprovalNotice(TheNotice(x, handle)), Terminal(Crash(OVERFLOW));
    assert [first, second][1..] == [second] && [second][1..] == [] && [first] + [second] == [first, second];
  }

  /**
   * A session in which leaving the loop adds a request for approval: the peer is asked to approve, is
   * silent, sends thirty-three inputs, and reads the request and then the crash.
   */
  lemma HeldRequestGoesOutBeforeTheCrash(x: Sample, handle: Handle) returns (steps: seq<Step>, end: Session)
    ensures SessionRun(x.registered, [], steps, end)
    ensures end.sent == [Ask(0, 0, NeedsApproval(handle, x.tool, x.arguments)), Terminal(Crash(OVERFLOW))]
    ensures end.atExit == []
  {
    hide Next, Enabled, Init, Filled, AskSteps;
    var s0, p := Init(x.registered, []), AskSteps(x, handle) + InputSteps(x, MAX_QUEUED_INPUTS);
    ToFilled(x, handle, MAX_QUEUED_INPUTS);
    OverflowStep(x, handle);
    RunOneMore(s0, p, Filled(x, handle, MAX_QUEUED_INPUTS), Command(Input(x.input)), Overflowed(x, handle));
    FlushSteps(x, handle);
    var s := Overflowed(x, handle);
    var first, second := MapApprovalNotice(TheNotice(x, handle)), Terminal(Crash(OVERFLOW));
    var m := s.(sent := [first], phase := Flushing([second]), room := EVENT_CAPACITY - 1);
    end := s.(sent := [first, second], phase := Flushing([]), room := EVENT_CAPACITY - 2);
    var p1 := p + [Command(Input(x.input))];
    RunOneMore(s0, p1, s, FlushOne, m);
    RunOneMore(s0, p1 + [FlushOne], m, FlushOne, end);
    steps := p1 + [FlushOne] + [FlushOne];
    NothingSentBefore(x, handle);
  }

  lemma NothingSentBefore(x: Sample, handle: Handle)
    ensures Overflowed(x, handle).atExit == []
  {
    hide Held;
    HeldInTurn(x, handle);
  }

  // ---------------------------------------------------------------- an identity used again behind a lag

  datatype Lag = Lag(
    ap: A.State, ids: Ids, uses: seq<Use>, supply: seq<Handle>, requests: seq<Request>, stages: map<ProviderId, Stage>,
    events: seq<AgentEvent>, inbox: seq<AgentEvent>, held: Option<Item>, received: seq<Item>, sent: seq<Item>)

  function Going(x: Sample, g: Lag): Session
    requires |g.sent| <= 3
  {
    Begun(x).(ap := g.ap, ids := g.ids, uses := g.uses, supply := g.supply, requests := g.requests, stages := g.stages,
              turns := [Turn(x.input, [User(x.input)], InProgress, g.events)], inbox := g.inbox, held := g.held,
              received := g.received, sent := g.sent, room := EVENT_CAPACITY - |g.sent|)
  }

  lemma Sends(x: Sample, g: Lag)
    requires g.held.Some? && |g.sent| < 3
    ensures Enabled(Going(x, g), Permit)
    ensures Next(Going(x, g), Permit) == Going(x, g.(held := None, sent := g.sent + [g.held.value]))
  {
  }

  lemma Emits(x: Sample, g: Lag, event: AgentEvent, stage: Stage)
    requires (event.CoreToolStart? && stage.Started?) || (event.CoreToolResult? && stage.Resulted?)
    requires |g.sent| <= 3
    ensures Enabled(Going(x, g), Emit(event))
    ensures Next(Going(x, g), Emit(event))
         == Going(x, g.(inbox := g.inbox + [event], events := g.events + [event],
              stages := g.stages[event.id := stage]))
  {
  }

  /** One mapped event, by the operation on the mapper that it stands for. */
  lemma Receives(x: Sample, g: Lag, supply: Handle, use: Use, mapped: WorkerEvent)
    requires |g.inbox| == 1 && g.held.None? && |g.sent| <= 3 && |g.events| > 0
    requires UseOf(g.inbox[0], 0) == Some(use) && !use.Cleared?
    requires mapped == MapAgentEvent(g.inbox[0], HandleFor(g.ids, use, supply))
    ensures var item := Core(0, |g.events| - 1, Some(|g.uses|), mapped);
            && Enabled(Going(x, g), Receive(supply))
            && Next(Going(x, g), Receive(supply))
                 == Going(x, g.(inbox := [], held := Some(item), received := g.received + [item],
                                ids := After(g.ids, use, supply), uses := g.uses + [use],
                                  supply := g.supply + [supply]))
  {
    hide MapAgentEvent, HandleFor, After, UseOf;
    assert g.inbox[1..] == [];
  }

  lemma Asks(x: Sample, g: Lag)
    requires |g.sent| <= 3
    ensures Enabled(Going(x, g), Request'(x.tool, x.id, x.arguments))
    ensures Next(Going(x, g), Request'(x.tool, x.id, x.arguments))
         == Going(x, g.(ap := A.Next(g.ap, A.Begin(x.tool)), stages := g.stages[x.id := Asked],
                        requests := g.requests + [Request(0, x.id, x.arguments, |g.events|, 0)]))
  {
    hide A.Next;
  }

  lemma Acts(x: Sample, g: Lag, action: A.Action)
    requires |g.sent| <= 3 && A.Enabled(g.ap, action) && (action.Check? || action.Wake?)
    ensures Enabled(Going(x, g), Approving(action))
    ensures Next(Going(x, g), Approving(action)) == Going(x, g.(ap := A.Next(g.ap, action)))
  {
    hide A.Next, A.Enabled;
  }

  lemma Approves(x: Sample, g: Lag, handle: Handle)
    requires |g.sent| <= 3
    ensures Enabled(Going(x, g), Command(Approve(handle, AllowOnce)))
    ensures Next(Going(x, g), Command(Approve(handle, AllowOnce)))
              == Going(x, g.(ap := A.Next(g.ap, A.Resolve(handle, AllowOnce))))
  {
    hide A.Next;
  }

  lemma Names(x: Sample, g: Lag, t: nat, handle: Handle)
    requires |g.sent| <= 3 && t < |g.requests| && g.requests[t].turn == 0 && A.Enabled(g.ap, A.Name(t, handle))
    ensures var use := ApprovalStarted(Call(0, g.requests[t].id));
            && Enabled(Going(x, g), NameCall(t, handle))
            && Next(Going(x, g), NameCall(t, handle))
                 == Going(x, g.(ap := A.Next(g.ap, A.Name(t, handle)), ids := After(g.ids, use, handle),
                      uses := g.uses + [use],
                                supply := g.supply + [handle],
                                  requests := g.requests[t := g.requests[t].(use := |g.uses|)]))
  {
    hide A.Next, A.Enabled, After;
  }

  function TheStart(x: Sample): AgentEvent {
    CoreToolStart(x.id, x.tool, x.arguments)
  }

  function TheResult(x: Sample): AgentEvent {
    CoreToolResult(x.id, x.tool, x.content, false)
  }

  /** The first request has been held. */
  function AtHeld(x: Sample, handle: Handle): Lag {
    Lag(Entered(x, handle, A.Waiting(handle)), map[x.id := handle], [ApprovalStarted(Call(0, x.id))], [handle],
        [Request(0, x.id, x.arguments, 0, 0)], map[x.id := Asked], [], [],
        Some(MapApprovalNotice(TheNotice(x, handle))), [], [])
  }

  lemma HeldIsGoing(x: Sample, handle: Handle)
    ensures Held(x, handle) == Going(x, AtHeld(x, handle))
  {
  }

  // The adapter's way: the first request decided and answered, the second checked and named.

  function Decided(x: Sample, handle: Handle): A.State {
    A.Next(Entered(x, handle, A.Waiting(handle)), A.Resolve(handle, AllowOnce))
  }

  lemma DecidedIs(x: Sample, handle: Handle)
    ensures Decided(x, handle).calls == [A.Invocation(x.tool, A.Waiting(handle), A.Delivered(Allow))]
    ensures Decided(x, handle).allowed == {}
  {
  }

  function AnsweredOnce(x: Sample, handle: Handle): (st: A.State)
    ensures st.calls == [A.Invocation(x.tool, A.Returned(Allow), A.Delivered(Allow))] && st.allowed == {}
  {
    DecidedIs(x, handle);
    A.Next(Decided(x, handle), A.Wake(0))
  }

  function AskedAgain(x: Sample, handle: Handle): (st: A.State)
    ensures |st.calls| == 2 && st.calls[1] == A.Invocation(x.tool, A.Begun, A.Open) && st.allowed == {}
  {
    A.Next(AnsweredOnce(x, handle), A.Begin(x.tool))
  }

  function CheckedAgain(x: Sample, handle: Handle): (st: A.State)
    ensures |st.calls| == 2 && st.calls[1] == A.Invocation(x.tool, A.Unlisted, A.Open)
  {
    A.Next(AskedAgain(x, handle), A.Check(1))
  }

  function NamedAgain(x: Sample, handle: Handle, second: Handle): (st: A.State)
    ensures |st.calls| == 2 && st.calls[1].phase == A.Named(second)
  {
    A.Next(CheckedAgain(x, handle), A.Name(1, second))
  }

  // The session's way along it.

  function StartHeld(x: Sample, handle: Handle, supply: Handle): Lag {
    var item := Core(0, 0, Some(1), ToolStart(handle, x.tool, x.arguments));
    AtHeld(x, handle).(
      ap := AnsweredOnce(x, handle), stages := map[x.id := Started], events := [TheStart(x)], held := Some(item),
      uses := [ApprovalStarted(Call(0, x.id)), EventStarted(Call(0, x.id))], supply := [handle, supply],
      received := [item], sent := [MapApprovalNotice(TheNotice(x, handle))])
  }

  /** Out, decided, answered. */
  function AtAnswer(x: Sample, handle: Handle): Lag {
    AtHeld(x, handle).(held := None, sent := [MapApprovalNotice(TheNotice(x, handle))], ap := AnsweredOnce(x, handle))
  }

  lemma ToAnswer(x: Sample, handle: Handle) returns (steps: seq<Step>)
    ensures Run(Init(x.registered, []), steps, Going(x, AtAnswer(x, handle)))
  {
    hide Next, Enabled, Init, Going, Held, A.Next, AskSteps, Entered, Decided, MapApprovalNotice;
    var s0, g0, p := Init(x.registered, []), AtHeld(x, handle), AskSteps(x, handle);
    ToHeld(x, handle);
    HeldIsGoing(x, handle);
    var ask := g0.held.value;
    var g1 := g0.(held := None, sent := [ask]);
    Sends(x, g0);
    assert [] + [ask] == [ask];
    RunOneMore(s0, p, Going(x, g0), Permit, Going(x, g1));
    var p1, g2 := p + [Permit], g1.(ap := Decided(x, handle));
    DecidedStep(x, handle);
    Approves(x, g1, handle);
    RunOneMore(s0, p1, Going(x, g1), Command(Approve(handle, AllowOnce)), Going(x, g2));
    var p2 := p1 + [Command(Approve(handle, AllowOnce))];
    Acts(x, g2, A.Wake(0));
    RunOneMore(s0, p2, Going(x, g2), Approving(A.Wake(0)), Going(x, AtAnswer(x, handle)));
    steps := p2 + [Approving(A.Wake(0))];
  }

  lemma ToStartHeld(x: Sample, handle: Handle, supply: Handle) returns (steps: seq<Step>)
    ensures Run(Init(x.registered, []), steps, Going(x, StartHeld(x, handle, supply)))
  {
    hide Next, Enabled, Init, Going, A.Next, Entered, AnsweredOnce, MapApprovalNotice;
    var s0, g3, event := Init(x.registered, []), AtAnswer(x, handle), TheStart(x);
    var p := ToAnswer(x, handle);
    var g4 := g3.(inbox := [event], events := [event], stages := map[x.id := Started]);
    Emits(x, g3, event, Started);
    assert [] + [event] == [event] && g3.stages[x.id := Started] == map[x.id := Started];
    RunOneMore(s0, p, Going(x, g3), Emit(event), Going(x, g4));
    var use, mapped := EventStarted(Call(0, x.id)), ToolStart(handle, x.tool, x.arguments);
    Receives(x, g4, supply, use, mapped);
    var item := Core(0, 0, Some(1), mapped);
    assert [] + [item] == [item] && [handle] + [supply] == [handle, supply] && g3.uses + [use] == [g3.uses[0], use];
    RunOneMore(s0, p + [Emit(event)], Going(x, g4), Receive(supply), Going(x, StartHeld(x, handle, supply)));
    steps := p + [Emit(event)] + [Receive(supply)];
  }

  lemma DecidedStep(x: Sample, handle: Handle)
    ensures Decided(x, handle) == A.Next(Entered(x, handle, A.Waiting(handle)), A.Resolve(handle, AllowOnce))
    ensures A.Enabled(Decided(x, handle), A.Wake(0)) && A.Next(Decided(x, handle), A.Wake(0)) == AnsweredOnce(x, handle)
  {
    hide A.Next, Entered;
    DecidedIs(x, handle);
  }

  /** The first result has been emitted, and the first start sent. */
  function AtResult(x: Sample, handle: Handle, supply: Handle): Lag {
    var g := StartHeld(x, handle, supply);
    g.(held := None, sent := g.sent + [g.held.value], inbox := [TheResult(x)], events := [TheStart(x), TheResult(x)],
       stages := map[x.id := Resulted])
  }

  lemma ToResult(x: Sample, handle: Handle, supply: Handle) returns (steps: seq<Step>)
    ensures Run(Init(x.registered, []), steps, Going(x, AtResult(x, handle, supply)))
  {
    hide Next, Enabled, Init, Going, A.Next, Entered, AnsweredOnce, MapApprovalNotice;
    var s0, g0, event := Init(x.registered, []), StartHeld(x, handle, supply), TheResult(x);
    var p := ToStartHeld(x, handle, supply);
    Sends(x, g0);
    var g1 := g0.(held := None, sent := g0.sent + [g0.held.value]);
    RunOneMore(s0, p, Going(x, g0), Permit, Going(x, g1));
    Emits(x, g1, event, Resulted);
    assert [] + [event] == [event] && [TheStart(x)] + [event] == [TheStart(x), event];
    assert g1.stages[x.id := Resulted] == map[x.id := Resulted];
    RunOneMore(s0, p + [Permit], Going(x, g1), Emit(event), Going(x, AtResult(x, handle, supply)));
    steps := p + [Permit] + [Emit(event)];
  }

  /** The result of the first use of the identity is still unread when the second is named. */
  function Lagging(x: Sample, handle: Handle, supply: Handle, second: Handle): Lag {
    var g := StartHeld(x, handle, supply);
    g.(held := None, sent := g.sent + [g.held.value], inbox := [TheResult(x)], events := [TheStart(x), TheResult(x)],
       stages := map[x.id := Asked], ap := NamedAgain(x, handle, second), ids := map[x.id := second],
       uses := g.uses + [ApprovalStarted(Call(0, x.id))], supply := g.supply + [second],
       requests := [g.requests[0], Request(0, x.id, x.arguments, 2, 2)])
  }

  lemma ToLagging(x: Sample, handle: Handle, supply: Handle, second: Handle) returns (steps: seq<Step>)
    ensures Run(Init(x.registered, []), steps, Going(x, Lagging(x, handle, supply, second)))
  {
    hide Next, Enabled, Init, Going, A.Next, AnsweredOnce, AskedAgain, CheckedAgain, MapApprovalNotice;
    var s0, g2, request := Init(x.registered, []), AtResult(x, handle, supply), Request(0, x.id, x.arguments, 2, 0);
    var p := ToResult(x, handle, supply);
    var g3 := g2.(ap := AskedAgain(x, handle), stages := map[x.id := Asked], requests := [g2.requests[0], request]);
    AgainSteps(x, handle, second);
    Asks(x, g2);
    assert g2.stages[x.id := Asked] == map[x.id := Asked] && g2.requests + [request] == [g2.requests[0], request];
    RunOneMore(s0, p, Going(x, g2), Request'(x.tool, x.id, x.arguments), Going(x, g3));
    var p3, g4 := p + [Request'(x.tool, x.id, x.arguments)], g3.(ap := CheckedAgain(x, handle));
    Acts(x, g3, A.Check(1));
    RunOneMore(s0, p3, Going(x, g3), Approving(A.Check(1)), Going(x, g4));
    Names(x, g4, 1, second);
    assert g4.requests[1 := request.(use := 2)] == [g2.requests[0], Request(0, x.id, x.arguments, 2, 2)];
    assert g4.ids[x.id := second] == map[x.id := second];
    var p4 := p3 + [Approving(A.Check(1))];
    RunOneMore(s0, p4, Going(x, g4), NameCall(1, second), Going(x, Lagging(x, handle, supply, second)));
    steps := p4 + [NameCall(1, second)];
  }

  lemma AgainSteps(x: Sample, handle: Handle, second: Handle)
    ensures A.Next(AnsweredOnce(x, handle), A.Begin(x.tool)) == AskedAgain(x, handle)
    ensures A.Enabled(AskedAgain(x, handle), A.Check(1))
              && A.Next(AskedAgain(x, handle), A.Check(1)) == CheckedAgain(x, handle)
    ensures A.Enabled(CheckedAgain(x, handle), A.Name(1, second))
         && A.Next(CheckedAgain(x, handle), A.Name(1, second)) == NamedAgain(x, handle, second)
  {
    hide A.Next;
  }

  lemma NotInTurn(id: ProviderId)
    ensures !Separated(LaggingReuse(id))
  {
    var uses := LaggingReuse(id);
    assert LastUse(uses, 3, id) == Some(2);
    assert uses[0].call == uses[3].call && !FirstOfCall(uses, 3);
    assert !InTurn(uses, 3);
  }

  /**
   * A session in which a call's result goes out under the handle of another: the provider uses the
   * identity again before the coordinator has come to the first call's result. The operations on the mapper
   * were the first call's, up to its start, then the second call's request, then the first call's result.
   */
  lemma ResultGoesOutUnderTheNextHandle(x: Sample, handle: Handle, supply: Handle, second: Handle, last: Handle)
    returns (steps: seq<Step>, end: Session)
    ensures SessionRun(x.registered, [], steps, end)
    ensures end.sent == [Ask(0, 0, NeedsApproval(handle, x.tool, x.arguments)),
                         Core(0, 0, Some(1), ToolStart(handle, x.tool, x.arguments)),
                         Core(0, 1, Some(3), ToolResult(second, x.tool, x.content, false))]
    ensures |end.ap.calls| == 2 && end.ap.calls[1].phase == A.Named(second)
    ensures end.uses == [ApprovalStarted(Call(0, x.id)), EventStarted(Call(0, x.id)), ApprovalStarted(Call(0, x.id)),
                         Finished(Call(0, x.id))]
    ensures end.supply == [handle, supply, second, last]
    ensures Attributes(LaggingReuse(x.id), end.uses) && !Separated(LaggingReuse(x.id))
    ensures Distinct(end.uses, end.supply) ==>
              FreshRun(Init(x.registered, []), steps, end) && !Correlated(LaggingReuse(x.id), end.supply)
  {
    hide Next, Enabled, Init, A.Next, NamedAgain, Shape, Separated, HandleAt;
    var s0, g0 := Init(x.registered, []), Lagging(x, handle, supply, second);
    var p := ToLagging(x, handle, supply, second);
    var use, mapped := Finished(Call(0, x.id)), ToolResult(second, x.tool, x.content, false);
    Receives(x, g0, last, use, mapped);
    var item := Core(0, 1, Some(3), mapped);
    var g1 := g0.(inbox := [], held := Some(item), received := g0.received + [item],
                  ids := After(g0.ids, use, last), uses := g0.uses + [use], supply := g0.supply + [last]);
    RunOneMore(s0, p, Going(x, g0), Receive(last), Going(x, g1));
    Sends(x, g1);
    var g2 := g1.(held := None, sent := g1.sent + [item]);
    RunOneMore(s0, p + [Receive(last)], Going(x, g1), Permit, Going(x, g2));
    steps, end := p + [Receive(last)] + [Permit], Going(x, g2);
    NotInTurn(x.id);
    if Distinct(end.uses, end.supply) {
      InitFresh(x.registered, []);
      DistinctIsFresh(s0, steps, end);
      DistinctIgnoresSerials(LaggingReuse(x.id), end.uses, end.supply);
      LaggingReuseCrosses(x.id, end.supply);
    }
  }
}
