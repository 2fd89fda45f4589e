# A model of the peakcode worker

The worker runs one agent session behind a socket: it reads commands, runs agent turns one at a time, asks the
peer to approve tool calls, and writes a redacted event stream. This project models that worker and proves what
its protocol keeps over every interleaving of the peer, the agent task and the coordinator, what its redactor
keeps out of the stream, and that its framing loses nothing. `dafny verify dfyconfig.toml` checks all of it.

## The parts

- `Protocol.dfy`: commands, events, decisions.
- `Approval.dfy`: the approval adapter as a step relation. Every `approve` is cut at each lock and each await;
  tokens identify invocations, handles are arbitrary strings that may collide. The history (`log`) records what
  happened; the results say what may be concluded from it. `RemoteApprover.dfy` is the adapter in place, a class
  whose methods take these steps.
- `CallIds.dfy`: the call-ID mapper, in place, and what a whole run of it does.
- `Worker.dfy`: the session. A `Session` holds the program's state and its history (what the core emitted, what was
  received and sent, which inputs came, what became of each turn); `Next` is one step: a `select!` arm or `continue`
  path of the coordinator, a step of the agent task, or the peer taking an event off the channel.
  `WorkerLoop.dfy` is the coordinator in place: a class with the loop's own variables and one method per branch,
  each proved to take the step of `Next`, and `Iterate`, one pass of the loop body, proved to take exactly the steps
  that `Next` offers for the branch that is ready. The class holds bare events;
  where they come from is in the ghost session only.
- `WorkerInvariants.dfy`, `WorkerChannels.dfy`, `WorkerRequests.dfy`, `WorkerOrder.dfy`, `WorkerHistory.dfy`:
  invariants of every session. `WorkerRuns.dfy` concludes from them for whole sessions, without any assumption.
- `WorkerExits.dfy`: what leaving the loop adds to the stream. `WorkerExamples.dfy`: two concrete sessions.
- `WorkerProgress.dfy`: how long a request can take, and that commands are heard.
- `WorkerCalls.dfy`, `WorkerHandles.dfy`, `WorkerPrecedence.dfy`: handles over whole sessions.
- `Text.dfy`, `Utf8.dfy`, `Redaction*.dfy`, `Redactor.dfy`: the redaction pipeline, its loops in place, and its
  guarantees. `RedactionCredentials.dfy` says what it does in terms of the characters themselves, without the
  definitions the stages are made of.
- `Ipc.dfy`, `EventWriter.dfy`: frames, and the writer task that redacts and frames every event.

## What is assumed, and where

The results of `WorkerRuns.dfy` and `WorkerProgress.dfy` assume nothing about the core or the peer beyond the step
relation itself: one agent task owns its event sender and its `approve` futures, so none outlives it. Where more is
needed it is a hypothesis of the theorem:

- `WorkerCalls.FreshHandle`: new handles are fresh, which is to say distinct in the end (`WorkerCalls.DistinctIsFresh`).
  The adapter's results do not use it.
- `WorkerCalls.Disciplined`: within a turn the core does not use a provider identity twice; an approval request comes
  first and is over before `ToolStart`, and nothing follows the result. Only `CallsKeepTheirHandles`, `OneHandlePerCall`
  and the two results on precedence use it.
- `WorkerPrecedence.Patient`: the core goes on with a call once `approve` has returned.
- `WorkerPrecedence.PeerAware`: the peer decides about handles it has been shown.
- `WorkerHistory.AppendOnly`: a completed turn's history extends the one it was given.
- `Ipc.Codec`: encoding gives text without a raw line feed, and decodes back (section 7 of RFC 8259 for the former).

## Where the code does not do what is said of it

- `docs/internal-ipc.md:118-121` promises one handle for a call's request, start and result even when the provider
  reuses its identity. The mapper is told the identity only, so which invocation an operation was for is stated by an
  attribution, any labelling of the operations with serials (`CallIds.Attributes`). For every session with fresh handles
  and every attribution, handles and invocations correspond exactly when the invocations took turns on their identities
  (`WorkerCalls.CallsKeepTheirHandlesExactly`), and then they do in what is sent
  (`WorkerHandles.OneHandlePerInvocation`). A reuse while the coordinator lags sends a result out under the next
  invocation's handle, within one turn (`WorkerExamples.ResultGoesOutUnderTheNextHandle`). A core that keeps
  identities apart within a turn is never affected (`WorkerHandles.OneHandlePerCall`). What the same lines promise of a
  delayed decision holds in every session with fresh handles (`WorkerHandles.DelayedDecisionReachesNobodyElse`).
- The documentation lets a held ordinary event go ahead of the terminal one (`docs/internal-ipc.md:30-37`). A held
  request for approval goes ahead of the crash when the input queue overflows
  (`WorkerExamples.HeldRequestGoesOutBeforeTheCrash`), in exactly those sessions; in all others it is the held core
  event and one terminal event (`WorkerExits.HeldRequestIsAddedExactlyAtOverflow`).
- The empty replacement is chosen when a configured secret is part of the marker. Cutting a credential out can then put
  a bearer token or a PEM header together (`RedactionConfigurations.EmptyReplacementUncoversBearer`,
  `EmptyReplacementUncoversHeader`). With one secret configured, bearer tokens are hidden exactly when the marker is
  chosen (`BearersHiddenExactly`); headers are gone exactly when the marker is chosen or the secret is a single
  character that headers contain (`HeadersGoneExactly`).
- A secret that can overlap the replacement can be completed by the text around it. For a secret that is not made of
  the other patterns the condition is exact, for that secret alone (`RedactionSecrets.SecretSafeExactly`) and over all
  configurations that get the marker (`SecretSafeWithMarkerExactly`), and such a secret also makes a
  second pass change the text: redaction with it is idempotent exactly when the marker is chosen and the secret cannot
  overlap it (`RedactionConfigurations.SecondPassIdleExactly`). The marker alone is not enough
  (`RedactionConfigurations.MarkerIsNotEnough`).

## Model

| member | source | states |
|---|---|---|
| Approval.AnswersAreAuthorised | src/remote_approver.rs:119-158 | over every interleaving of approve, resolve, cancel and drop, an answer other than a denial was preceded by its warrant: its own tool was on the allow list when it looked, or a resolve of its own handle, for its own tool, took out its own entry while registered |
| Approval.TableIsTheOutstanding | src/remote_approver.rs:46-57 | the pending table, entry by entry, is what the history says is outstanding, and the live unanswered registrations, without assuming distinct handles |
| Approval.LeavingTouchesOwnEntryOnly | src/remote_approver.rs:46-57 | a drop guard leaves every other generation's entry alone, even at its own handle |
| Approval.AllowedFromHistory | src/remote_approver.rs:91-109 | the allow set is the registered tools for which an allow_all reached a live receiver; it stays within the registered tools and only grows |
| Approval.AllowedToolIsNotAskedAbout | src/remote_approver.rs:122-127 | for an allowed tool the check answers AllowAll for good, with no entry |
| Approval.LaterDecisionsAreRejected | src/remote_approver.rs:90-114 | the second decision for a handle, and any decision after a cancel, change nothing |
| Approval.DecisionIsTheAnswer | src/remote_approver.rs:91-157 | a decision for a waiting request is what its approve returns; only allow_all for a registered tool lasts, for any other it is an ordinary allow |
| Approval.DecisionTooLate | src/remote_approver.rs:91-109 | a decision for a request whose receiver is gone takes its entry out, lasts for nothing and reaches nobody |
| Approval.CancelDenies | src/remote_approver.rs:111-157 | after cancel_pending an open waiter wakes with a denial |
| Approval.KeepsInv | src/remote_approver.rs:46-158 | every step of the adapter keeps table, allow set, replies and answers in agreement with the history |
| RemoteApproval.RemoteApprover.constructor | src/remote_approver.rs:71-88 | a new adapter is the initial state over the registry's tools |
| RemoteApproval.RemoteApprover.Resolve | src/remote_approver.rs:91-109 | takes the resolve step; true exactly when a pending entry with a live receiver was taken out; no other entry changes |
| RemoteApproval.RemoteApprover.CancelPending | src/remote_approver.rs:112-114 | takes the cancel step: empty table, allow set and delivered replies as before |
| RemoteApproval.RemoteApprover.Begin | src/remote_approver.rs:120-121 | draws the next generation token |
| RemoteApproval.RemoteApprover.Check | src/remote_approver.rs:122-127 | answers AllowAll exactly for a tool in the allow set |
| RemoteApproval.RemoteApprover.Name | src/remote_approver.rs:128 | names the call through the mapper, with a new handle always, which is the invocation's from then on |
| RemoteApproval.RemoteApprover.Register | src/remote_approver.rs:129-141 | enters the request at a vacant handle, and denies at an occupied one, leaving it alone |
| RemoteApproval.RemoteApprover.DropRegistration | src/remote_approver.rs:46-57 | removes the entry of its own generation and no other |
| RemoteApproval.RemoteApprover.Undeliverable | src/remote_approver.rs:153-155 | denies when the notice cannot be sent, with the guard run |
| RemoteApproval.RemoteApprover.AwaitReply | src/remote_approver.rs:157 | returns the delivered decision, or a denial when the sender is gone, with the guard run |
| RemoteApproval.RemoteApprover.AbandonSend | src/remote_approver.rs:142-153 | dropping the future in its send takes the abandon step |
| RemoteApproval.RemoteApprover.AbandonWait | src/remote_approver.rs:142-157 | dropping it in its wait drops the receiver first |
| RemoteApproval.RemoteApprover.FinishDrop | src/remote_approver.rs:46-57 | and then the guard removes its own entry |
| CallIds.CallIdMapper.StartApproval | src/call_id_mapper.rs:12-16 | a new handle always, remembered for the identity |
| CallIds.CallIdMapper.StartEvent | src/call_id_mapper.rs:18-24 | the remembered handle, or a new one that is then remembered |
| CallIds.CallIdMapper.Finish | src/call_id_mapper.rs:26-30 | the remembered handle, forgotten with that, or a new one |
| CallIds.CallIdMapper.Clear | src/call_id_mapper.rs:32-34 | forgets everything |
| CallIds.IdsAreLastUses | src/call_id_mapper.rs:12-34 | after any run the map holds, for the identities last used and not finished since the last clear, the handle of that use |
| CallIds.CorrelatedExactlyWhenSeparated | src/call_id_mapper.rs:12-34 | with fresh handles, one handle per call and one call per handle for exactly the runs in which calls take turns on an identity |
| CallIds.HandlesIgnoreSerials | src/call_id_mapper.rs:12-34 | the handles of a run do not depend on which invocations its operations are attributed to |
| CallIds.LaggingReuseCrosses | src/call_id_mapper.rs:12-30 | a reuse of an identity before the first call's result is mapped sends that result out under the second call's handle |
| WorkerLoop.Connection.constructor | src/worker.rs:73-111 | a new worker is the initial session |
| WorkerLoop.Connection.Iterate | src/worker.rs:113-329 | one pass of the loop body takes exactly the steps the session offers for the branch that is ready; a pass that does not poll gets on with the turn, a command or reader's end that is polled for is taken, and so is a permit with room, a notice, a core event and the task's end |
| WorkerLoop.CommandIsHeard | src/worker.rs:113-329 | of two successive passes one takes a command that waits, whatever the outbound channel's state and whatever happens in between |
| WorkerLoop.PassBringsCloser | src/worker.rs:203-311 | while a request is on its way and there is room, some branch other than a command lets a pass bring it closer |
| WorkerLoop.Connection.SelectWhileHolding | src/worker.rs:114-165 | each branch of the idle select takes its step exactly when the session allows it, and otherwise the select waits |
| WorkerLoop.Connection.SelectDuringTurn | src/worker.rs:224-328 | each branch of the turn's select takes its step exactly when the session allows it, so the guards are the steps' conditions |
| WorkerLoop.Connection.AwaitCommand | src/worker.rs:183-200 | an idle worker with nothing to do takes a command's or a closed channel's step, and else waits |
| WorkerLoop.Connection.DropBarrierAndSelect | src/worker.rs:218-328 | a disconnected core empties the barrier first, and the same pass goes on to the select's branch |
| WorkerLoop.Connection.CommandWhileHolding | src/worker.rs:117-154 | the idle command arm with a held event takes the command's step |
| WorkerLoop.Connection.CommandWhileIdle | src/worker.rs:183-200 | the idle command arm, whose push has no check, takes the same step |
| WorkerLoop.Connection.CommandDuringTurn | src/worker.rs:226-296 | the command arm of a turn takes the command's step |
| WorkerLoop.Connection.DiscardApprovals | src/worker.rs:257-262 | waiters, identities, notices and a held request go; an ordinary held event stays |
| WorkerLoop.Connection.FinishCancel | src/worker.rs:250-274 | the end of a cancel, in time or not, takes the settle step |
| WorkerLoop.Connection.FinishStop | src/worker.rs:275-292 | the end of a stop takes the settle step |
| WorkerLoop.Connection.SendPending | src/worker.rs:297-302 | a permit sends the held event |
| WorkerLoop.Connection.TakeBarrier | src/worker.rs:303-308 | a notice becomes the barrier |
| WorkerLoop.Connection.PassBarrier | src/worker.rs:210-217 | an empty core turns the barrier into the held request |
| WorkerLoop.Connection.MapEvent | src/worker.rs:433-460 | each event with the handle the mapper gives for it; but for the call's identity the core's event can be told from it, text by text and flag by flag |
| WorkerLoop.Connection.ReceiveEvent | src/worker.rs:309-311 | takes the next core event into the held slot |
| WorkerLoop.Connection.BeginTurn | src/worker.rs:167-181 | starts a turn on the oldest queued input |
| WorkerLoop.Connection.EndTurn | src/worker.rs:312-325 | a completed turn replaces the history and clears; a failed one leaves the loop with a crash |
| WorkerLoop.Connection.EnqueueOne | src/worker.rs:373-385 | enqueues the next of the events left to send, within the channel's room |
| WorkerLoop.Connection.CleanUp | src/worker.rs:331-336 | after the loop waiters, identities and notices go |
| WorkerInvariants.KeepsBasics | src/worker.rs:113-329 | every step keeps the session's parts fitting: no request outlives its task, and the map is what the operations on it make it |
| WorkerInvariants.ApStep | src/worker.rs:113-336 | every session step moves the adapter by one of its own steps or not at all |
| WorkerInvariants.UseStep | src/worker.rs:250-325 | every session step moves the mapper by one operation or not at all |
| WorkerChannels.KeepsIdle | src/worker.rs:250-262 | every step keeps an idle loop head quiet |
| WorkerChannels.KeepsConserved | src/worker.rs:113-329 | every step keeps: ordinary events sent, then the one held, are the mapped events received |
| WorkerChannels.KeepsFlushed | src/worker.rs:363-385 | every step keeps: leaving the loop adds a prefix of what is held and one terminal event |
| WorkerRequests.KeepsLocated | src/worker.rs:203-311 | every step keeps requests on the way distinct and announced, with none missing that somebody waits for |
| WorkerRequests.WaiterIsInOnePlace | src/worker.rs:210-324 | an open waiter's request is at exactly one position of the way out, and a blocked send's is at none |
| WorkerOrder.KeepsOrdered | src/worker.rs:309-311 | every step keeps: what was received is what the core emitted, turn by turn, in order, without a gap |
| WorkerOrder.KeepsOnTheWay | src/worker.rs:203-221 | every step keeps: a held request's causes have all been taken from the core |
| WorkerOrder.KeepsSentAfterCauses | src/worker.rs:297-311 | every step keeps: whatever the core had emitted before it asked is sent before the request |
| WorkerRuns.OrdinaryStreamConserved | src/worker.rs:113-329 | over whole sessions, cancels and turns, the ordinary stream is neither reordered, duplicated nor dropped; from every event sent the core's event at its place can be told, but for the call's identity |
| WorkerRuns.NothingFollowsTheTerminalEvent | src/worker.rs:363-385 | there is at most one terminal event, last; before it at most the held event is added |
| WorkerExits.WaysOut | src/worker.rs:113-385 | over whole sessions, which steps leave the loop, and exactly what each has sent before the worker goes: the held event or none, done with the count, the crash with its message, or nothing |
| WorkerExits.LeavingDenies | src/worker.rs:331-336 | when the worker goes, every table is empty and no waiter is left with an open reply |
| WorkerRuns.EverythingBounded | src/worker.rs:22-27 | whatever peer and core do, at most 32 inputs are queued and at most 64 notices and 64 events wait in their channels |
| WorkerExits.OverflowSendsHeldRequest | src/worker.rs:228-242 | an input too many while a request is held leaves the request and the crash to be sent |
| WorkerExits.HeldRequestIsAddedExactlyAtOverflow | src/worker.rs:228-242 | over whole sessions, leaving the loop means to add a request exactly when an input overflowed the queue while one was held; otherwise only a prefix of the held core event and one terminal event is added |
| WorkerExits.OverflowTail | src/worker.rs:373-385 | when it does, what is added is a prefix of that request and one terminal event |
| WorkerExamples.HeldRequestGoesOutBeforeTheCrash | src/worker.rs:228-242 | a concrete session of thirty-three inputs behind a held request in which the peer reads the request and then the crash |
| WorkerRuns.DoneReportsHistory | src/worker.rs:363-367 | done reports the length of the history |
| WorkerRuns.RequestsFollowTheirCauses | src/worker.rs:203-221 | wherever a request stands in what was sent, everything its turn had emitted before it was made stands before it |
| WorkerRuns.NoRequestLostOrDuplicated | src/worker.rs:203-311 | at every point of the loop an open waiter's request is in exactly one place, and no request is sent twice |
| WorkerRuns.IdleIsQuiet | src/worker.rs:250-325 | with no turn active the barrier, the notice channel, the pending table and the map are empty, the held event is no request, and every request is over |
| WorkerRuns.IdleCancelAndApproveChangeNothing | src/worker.rs:136-141 | with no turn active a cancel and any decision change nothing |
| WorkerRuns.SessionFailsClosed | src/remote_approver.rs:119-158 | over whole sessions an answer other than a denial is warranted by the adapter's history before it, for the invocation's own tool |
| WorkerRuns.InputsConserved | src/worker.rs:119-135 | started inputs, then queued ones, are the inputs that arrived, in order; only the one that overflows and ends the session is not taken in; the queue keeps its bound |
| WorkerRuns.HistoryHoldsCompletedTurns | src/worker.rs:312-315 | the history is the last completed turn's result; given a core that only appends, the initial messages and then each completed turn's input and messages |
| WorkerHistory.KeepsInputs | src/worker.rs:167-244 | every step keeps started and queued inputs equal to the accepted ones, and the queue within its bound, although the idle push has no check |
| WorkerHistory.KeepsHistory | src/worker.rs:167-315 | every step keeps: each turn starts from the results before it and its input, and only completed turns are remembered |
| WorkerHistory.HistoryIsFoldOfCompletedTurns | src/worker.rs:418-419 | the history is a fold of the completed turns |
| WorkerProgress.RequestIsSentInTime | src/worker.rs:203-311 | while the core is blocked and no command comes, every iteration brings a request one closer to the channel, and after as many as its distance it has been sent |
| WorkerProgress.RequestIsSentWithin | src/worker.rs:203-311 | behind n unread core events a request just put into the channel is sent after 2n + 3 iterations, and not before |
| WorkerProgress.NotStuck | src/worker.rs:203-311 | while there is room the loop has an iteration to make, and while there is none the peer can read |
| WorkerProgress.EverySecondIterationPolls | src/worker.rs:114-228 | of two successive iterations one polls the command channel, whatever the outbound channel's state |
| WorkerProgress.StopLeavesTheLoop | src/worker.rs:275-292 | a stop heard during a turn leaves the loop, whatever agent and peer do meanwhile and whether or not the agent task ends, with the held ordinary event and done to be sent |
| WorkerProgress.IdleStopLeavesTheLoop | src/worker.rs:142-150 | with no turn active it leaves at once with the same to be sent |
| WorkerProgress.CancelDiscardsTheTurn | src/worker.rs:250-274 | a cancel that is heard discards the turn and only a held request; history, queue and an ordinary held event stay, or, when the agent task does not end, the session ends with what is held and a crash |
| WorkerCalls.KeepsTidy | src/worker.rs:433-460 | every disciplined step keeps the uses of a call together on its identity, for every lag of the coordinator |
| WorkerCalls.CallsKeepTheirHandles | src/worker.rs:433-460 | over whole sessions, across lag and cancels, two mapper operations yield one handle exactly when they are about one call |
| WorkerCalls.CallsKeepTheirHandlesExactly | src/call_id_mapper.rs:12-34 | over every session with fresh handles, whatever the core does, and for every attribution of mapper operations to invocations, handles and invocations correspond exactly when the invocations took turns on their identities |
| WorkerExamples.ResultGoesOutUnderTheNextHandle | src/worker.rs:433-460 | a concrete session with fresh handles in which the result of an identity's first invocation is sent under the handle of its second, of the same turn; attributed so, the invocations did not take turns |
| WorkerHandles.OneHandlePerCall | src/worker.rs:433-468 | with a core that keeps identities apart within a turn, of everything sent, two events that name a call carry the same handle exactly when they are about the same call |
| WorkerHandles.OneHandlePerInvocation | src/worker.rs:433-468 | with any core and any attribution, where the invocations took turns two events sent carry the same handle exactly when they are about the same invocation |
| WorkerHandles.SentHandlesByOrigin | src/call_id_mapper.rs:12-30 | with any core, two events sent carry the same handle exactly when what named them goes back to one mapper operation |
| WorkerHandles.EveryHandleNamesACall | src/worker.rs:433-468 | every request, start and result that is sent is about a call |
| WorkerHandles.RequestsAreTheCores | src/worker.rs:462-468 | a request that is sent asks for the tool and with the arguments the core asked with |
| WorkerPrecedence.RequestPrecedesItsCall | src/worker.rs:203-221 | with a core and a peer that wait for each other, no request for a call is sent after its start or its result |
| WorkerPrecedence.NothingBeforeItsRequest | src/remote_approver.rs:119-158 | with the same, a start or a result is sent only when each request made for its call has been sent before it, or found its tool on the allow list |
| WorkerPrecedence.AnswersFollowRequests | src/remote_approver.rs:91-109 | with any core and a peer that decides about what it was shown, an answer reaches approve only when its request has been sent |
| WorkerHandles.DelayedDecisionReachesNobodyElse | src/remote_approver.rs:91-95 | with any core, even one that reuses an identity within a turn, a decision for a handle that was shown, however late, can only reach the request it was shown with |
| WorkerHandles.DecisionReachesItsRequest | src/worker.rs:136-140 | over whole sessions, a decision for the handle a request was sent under, while somebody waits for it, is what that approve returns, and changes nothing else but its entry, its reply and what is allowed |
| Redaction.RedactBlocks | src/redaction.rs:142-148 | the PEM loop terminates on every text and computes the stage of which `ClosedBlockCut` and `UnclosedBlockCut` say what it cuts out |
| Redaction.RedactPrivateKeys | src/redaction.rs:138-151 | the stage over all labels, of which `PrivateKeyReplaced` and `TruncatedKeyReplaced` say what it makes of a key |
| Redaction.RedactBearerTokens | src/redaction.rs:153-173 | the cursor loop terminates on every text and replaces exactly the pieces its specification cuts out |
| Redaction.RedactPrefixedTokens | src/redaction.rs:175-195 | the same for prefixed tokens; `PrefixedTokenReplaced` says in characters what they are |
| Redaction.RedactText | src/redaction.rs:104-115 | the stages in order |
| RedactionProofs.SecretAbsent | src/redaction.rs:104-115 | a secret that cannot overlap the replacement is absent from the output, whatever the later stages splice |
| RedactionProofs.BracketFreeDisjoint | src/redaction.rs:49-53 | a secret without brackets that is not in the marker cannot overlap it |
| RedactionProofs.PatternsHeaderFree | src/redaction.rs:138-151 | with the marker no PEM header survives the whole pipeline |
| RedactionTokens.PatternsBearerHidden | src/redaction.rs:153-173 | with the marker every bearer, in any case, is followed by whitespace, the end or the marker |
| RedactionTokens.RedactedTokenFree | src/redaction.rs:111-195 | with either replacement no prefix starts a long enough run of token characters in the output; no later prefix recreates one |
| RedactionTheorems.RedactedClean | src/redaction.rs:104-115 | with the marker every output is clean of all four kinds |
| RedactionTheorems.UnchangedExactlyWhenClean | src/redaction.rs:104-115 | the texts redaction leaves as they are are exactly the clean ones |
| RedactionTheorems.RedactedTwice | src/redaction.rs:104-115 | redaction is idempotent with the marker |
| RedactionCredentials.ClosedBlockCut | src/redaction.rs:142-148 | of a text with a header, the PEM loop cuts out everything up to the end of the first footer after it, whatever is between, and goes on with the rest |
| RedactionCredentials.UnclosedBlockCut | src/redaction.rs:143-147 | without a footer the result is what is before the header and the replacement: nothing after it is left |
| RedactionCredentials.PrivateKeyReplaced | src/redaction.rs:104-151 | for each of the five labels, the pipeline treats a text with a key block as the text with the replacement in its place |
| RedactionCredentials.TruncatedKeyReplaced | src/redaction.rs:104-151 | and a text with a key that is cut short as what is before it and the replacement |
| RedactionCredentials.PrefixedTokenAbsent | src/redaction.rs:111-195 | each of the eight prefixes with twelve or more letters, digits, `_`, `-` or `.` behind it is in no output, whatever is configured and put in its place |
| RedactionCredentials.PrefixedTokenReplaced | src/redaction.rs:104-195 | between texts without a credential such a run is replaced as one |
| RedactionCredentials.BearerTokenReplaced | src/redaction.rs:104-173 | so is the word after `bearer `, in letters of either case, up to the next white space of any kind |
| RedactionCredentials.UnchangedExactlyWhenNothingToHide | src/redaction.rs:104-195 | with labels, prefixes, characters and white space spelled out: redaction leaves exactly the texts in which there is nothing to hide |
| RedactionCredentials.NothingToHideIsLeft | src/redaction.rs:104-195 | and every output is such a text |
| RedactionConfigurations.HeadersGoneExactlyWithMarker | src/redaction.rs:49-53 | over all configurations and texts for which a replacement is chosen, no header survives exactly when that replacement is the marker |
| RedactionConfigurations.BearersHiddenExactlyWithMarker | src/redaction.rs:49-53 | so for bearer tokens |
| RedactionConfigurations.HeadersGoneExactly | src/redaction.rs:33-58 | with one secret configured, no header survives in any output exactly when the marker is chosen or the secret is a single character of every header |
| RedactionConfigurations.BearersHiddenExactly | src/redaction.rs:33-58 | with one secret configured, bearer tokens are hidden in every output exactly when the marker is chosen |
| RedactionConfigurations.SecondPassIdleExactly | src/redaction.rs:104-115 | with one secret that is not made of the other patterns, redaction is idempotent exactly when the marker is chosen and the secret cannot overlap it |
| RedactionConfigurations.MarkerIsNotEnough | src/redaction.rs:104-115 | a concrete secret and text for which the marker is chosen, the secret reappears and a second pass changes the output |
| RedactionConfigurations.EmptyReplacementUncoversBearer | src/redaction.rs:104-195 | with every secret for which the empty replacement is chosen, a concrete text comes out with a bearer token, and a second pass changes it again |
| RedactionConfigurations.EmptyReplacementUncoversHeader | src/redaction.rs:104-195 | with every such secret that does not occur in it, a concrete text comes out as a PEM header |
| RedactionSecrets.SecretSafeExactly | src/redaction.rs:47-57 | configured alone, a secret that is not made of the other patterns is absent from every output exactly when it cannot overlap the chosen replacement |
| RedactionSecrets.SecretSafeWithMarkerExactly | src/redaction.rs:47-57 | over all configurations that hold it and get the marker, such a secret is absent from every output exactly when it cannot overlap the marker |
| RedactionSecrets.TokenAbsent | src/redaction.rs:111-195 | with any secrets and either replacement, a string that holds a whole token is absent from every output |
| RedactionSecrets.HeaderAbsent | src/redaction.rs:138-151 | with any secrets for which the marker is chosen, so is one that holds a whole header |
| RedactionSecrets.BearerAbsent | src/redaction.rs:153-173 | and one that holds a bearer token other than the marker |
| RedactionSecrets.CredentialSecretAbsent | src/redaction.rs:33-195 | configured alone, a secret that holds a whole token or header is absent from every output, whichever replacement is chosen |
| RedactionSecrets.BearerSecretAbsent | src/redaction.rs:33-173 | configured alone, so is one that holds a bearer token other than the marker |
| RedactionSecrets.OneCharacterSecretAbsent | src/redaction.rs:47-57 | a one-character secret is absent from every output, whichever replacement is chosen |
| RedactionSecrets.BracketFreeSecretAbsent | src/redaction.rs:47-57 | a bracket-free secret is absent from every output when no secret is part of the marker |
| RedactionSecrets.SecretReplaced | src/redaction.rs:47-109 | in a text with a copy of a configured secret, the whole copy is replaced, though other secrets may be parts of it |
| RedactionSecrets.WholeSecretReplaced | src/redaction.rs:47-109 | every configured secret alone is redacted to exactly the replacement, whichever is chosen |
| Redactor.FromNamedValues | src/redaction.rs:33-58 | the secrets are exactly the non-empty key and the values of sensitive names, sorted by their UTF-8 bytes, longest first, so that none is part of a later one; the empty replacement exactly when one is part of the marker |
| Redactor.SensitiveExactly | src/redaction.rs:118-136 | which names are sensitive, in letters of either case |
| Utf8.ByteOrderIsCodePointOrder | src/redaction.rs:47 | comparing strings byte by byte is comparing them code point by code point |
| Redactor.OrderedUnique | src/redaction.rs:47-48 | the ordered list is determined by its elements, so the order of the environment is forgotten |
| Redactor.RedactEventTouchesTextsOnly | src/redaction.rs:60-102 | redaction changes an event's free texts, each to its redaction, and nothing else |
| Redactor.EventRedacted | src/redaction.rs:60-115 | every text of every event comes out free of safe secrets and credentials |
| Redactor.EventHidesNothing | src/redaction.rs:60-102 | field by field of every kind of event: identities, flags and counts are kept, and there is nothing to hide in any text |
| Redactor.RedactEventTwice | src/redaction.rs:60-115 | event redaction is idempotent with the marker |
| Ipc.ReadLine | src/ipc.rs:138-172 | for every chunking, the line is that of cutting the whole stream at its first line feed within the bound |
| Ipc.ReadFrame | src/ipc.rs:135-177 | none, payload, oversize, missing delimiter or malformed, as the whole stream says; a frame consumes its line and a failure no more than the bound |
| Ipc.ReadCommands | src/worker.rs:78-93 | the reader task forwards every frame up to the one that ends the stream |
| Ipc.CappedBuffer.Write | src/ipc.rs:103-115 | appends all of the input if it fits and nothing otherwise, within the limit |
| Ipc.WriteFrame | src/ipc.rs:122-133 | writes the payload and a line feed exactly when the payload fits, and nothing otherwise |
| Ipc.ReadsBackWhatWasSent | src/ipc.rs:122-177 | frames within the bound are read back exactly, in order, whatever follows |
| Ipc.StreamEndsWith | src/ipc.rs:135-177 | whatever ends a stream behind good frames, these are delivered and nothing after: the end, a line too long, one without its line feed, or one that does not decode |
| Ipc.NothingSkipped | src/ipc.rs:135-177 | a stream that ends cleanly is the lines of the frames read from it, byte for byte |
| EventWriter.WriteEvents | src/worker.rs:97-102 | writes the redacted events in order up to the first that does not fit in a frame |
| EventWriter.PeerReadsRedactedEvents | src/worker.rs:97-102 | a peer reads exactly the events, of every kind and in order, and a clean end; identities, flags and counts are as they were, every text is redacted and free of safe secrets and credentials |

## Left out

- Connecting the socket, configuration, provider and tool construction (`src/worker.rs:35-63`), and the daemon's side.
- The core itself: what it emits, asks and returns is arbitrary, within the hypotheses above. Its event channel is
  bounded in the program and unbounded here, which only adds runs.
- Real time: each 250 ms deadline is an arbitrary choice between completed and expired.
- Joining the reader and writer tasks after the loop, and the result `run_connection` returns; aborting a turn that is
  still active then is followed by the clean-up whether or not the agent task has ended.
- A closed notice channel (`src/worker.rs:306`): the coordinator itself holds a sender.
- The command channel between reader task and coordinator: commands arrive one by one.
- JSON text: encoding and decoding are parameters; `arguments_json` is a string. `WriteFrame` takes the pieces the
  serializer writes; flushing is not modelled.
- UUIDs are a supply of handles; tokens do not wrap around; locks are not poisoned.
- Texts are sequences of characters; byte offsets are not modelled. `ByteLength` orders secrets by UTF-8 length.
- `from_named_values` inserts in order and drops duplicates where the program sorts and deduplicates; the result is
  the same list (`Redactor.OrderedUnique`).
- `peak_len` and `peak_capacity` in the capped buffer, and logging.
- The gRPC side, command-line stubs and generated types, which have no behaviour yet.
- WorkerLoop.Connection.Iterate: ends where an abort is awaited; what the agent task does meanwhile is in the session
  only, and `approve`'s own steps are methods of `RemoteApprover`.
- RedactionSecrets.SecretSafeExactly: is about one configured secret, since deleting others can keep it from leaking,
  and not about one that holds five dashes in a row
  without a whole header, or `bearer ` before whitespace, the end or a bracket: text that completes such a secret may
  itself be cut by a later stage. `RedactionProofs.SecretAbsent` gives the sufficient half for every secret of every
  configuration.
- RedactionConfigurations.SecondPassIdleExactly: likewise; `RedactionTheorems.RedactedTwice` is the sufficient half.
- RedactionConfigurations.HeadersGoneExactly: is about one configured secret. With several and the empty replacement it
  depends on which of them delete the letters of a header; `HeadersGoneExactlyWithMarker` is about all configurations.
- RedactionConfigurations.BearersHiddenExactly: likewise; `BearersHiddenExactlyWithMarker`.
