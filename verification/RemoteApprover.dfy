/**
 * The approval adapter in place. `approve` is cut where it takes the lock or waits; each piece, like
 * `resolve`, `cancel_pending` and the drop guard, is one step of the approval state machine.
 */
module RemoteApproval {
  import opened Text
  import opened Protocol
  import opened CallIds
  import A = Approval

  class RemoteApprover {
    const registeredTools: set<Tool>
    const callIds: CallIdMapper
    // behind the lock; an entry's token also stands for the sending half of its reply channel
    var pending: map<Handle, A.Entry>
    var allowedTools: set<Tool>
    var nextToken: nat
    // the receiving halves of the reply channels, and what has been put in
    var listening: set<nat>
    var replies: map<nat, ApprovalDecision>
    // where the invocations are, and everything that happened
    ghost var st: A.State

    ghost predicate Valid()
      reads this
    {
      && st.registered == registeredTools && st.pending == pending && st.allowed == allowedTools
      && |st.calls| == nextToken
      && A.TableExact(st) && A.OpenBefore(st)
      && (forall t: nat :: t in listening <==> t < |st.calls| && st.calls[t].Listening())
      && (forall t: nat :: t in replies <==> t < |st.calls| && st.calls[t].reply.Delivered?)
      && (forall t: nat | t < |st.calls| && st.calls[t].reply.Delivered? :: t in replies
           && replies[t] == st.calls[t].reply.decision)
    }

    constructor (callIds: CallIdMapper, tools: set<Tool>)
      ensures Valid() && st == A.Init(tools) && registeredTools == tools && this.callIds == callIds
    {
      this.callIds, registeredTools := callIds, tools;
      pending, allowedTools, nextToken := map[], {}, 0;
      listening, replies := {}, map[];
      st := A.Init(tools);
    }

    /** True exactly when a pending request has been taken out and its receiver got the decision. */
    method Resolve(callId: Handle, decision: IpcApprovalDecision) returns (sent: bool)
      requires Valid()
      modifies this
      ensures Valid() && st == A.Next(old(st), A.Resolve(callId, decision))
      ensures sent <==> callId in old(pending) && old(pending)[callId].token in old(listening)
      ensures callId !in pending && forall h :: h != callId ==> (h in pending <==> h in old(pending))
    {
      hide A.TableExact, A.OpenBefore;
      A.KeepsTableExact(st, A.Resolve(callId, decision));
      A.EntryIsLive(st, callId);
      st := A.Next(st, A.Resolve(callId, decision));
      if callId !in pending {
        return false;
      }
      var approval := pending[callId];
      pending := pending - {callId};
      var persist := decision.AllowForSession? && approval.tool in registeredTools;
      var coreDecision := if decision.AllowForSession? && !persist then Allow else MapDecision(decision);
      sent := approval.token in listening;
      if sent {
        replies := replies[approval.token := coreDecision];
      }
      if sent && persist {
        allowedTools := allowedTools + {approval.tool};
      }
    }

    method CancelPending()
      requires Valid()
      modifies this
      ensures Valid() && st == A.Next(old(st), A.CancelPending)
      ensures pending == map[] && allowedTools == old(allowedTools) && replies == old(replies)
    {
      A.KeepsTableExact(st, A.CancelPending);
      st := A.Next(st, A.CancelPending);
      pending := map[];
    }

    // ---------------------------------------------------------------- the pieces of approve

    method Begin(tool: Tool) returns (token: nat)
      requires Valid()
      modifies this
      ensures Valid() && st == A.Next(old(st), A.Begin(tool)) && token == |old(st).calls|
    {
      hide A.TableExact, A.OpenBefore;
      A.KeepsTableExact(st, A.Begin(tool));
      st := A.Next(st, A.Begin(tool));
      token := nextToken;
      nextToken := nextToken + 1;
      listening := listening + {token};
    }

    /** An allowed tool is not asked about. */
    method Check(token: nat, tool: Tool) returns (answer: Option<ApprovalDecision>)
      requires Valid() && A.Enabled(st, A.Check(token)) && st.calls[token].tool == tool
      modifies this
      ensures Valid() && st == A.Next(old(st), A.Check(token))
      ensures answer == (if tool in old(allowedTools) then Some(AllowAll) else None) && pending == old(pending)
    {
      hide A.TableExact, A.OpenBefore;
      A.KeepsTableExact(st, A.Check(token));
      st := A.Next(st, A.Check(token));
      if tool in allowedTools {
        listening := listening - {token};
        return Some(AllowAll);
      }
      return None;
    }

    /** The call is named afresh, and the handle becomes the invocation's own. */
    method Name(token: nat, id: ProviderId, supply: Handle, ghost serial: nat) returns (callId: Handle)
      requires Valid() && token < |st.calls| && st.calls[token].phase.Unlisted?
      modifies this`st, callIds
      ensures Valid() && st == A.Next(old(st), A.Name(token, callId))
      ensures callId == HandleFor(old(callIds.active), ApprovalStarted(Call(serial, id)), supply)
      ensures callIds.active == After(old(callIds.active), ApprovalStarted(Call(serial, id)), supply)
    {
      hide A.TableExact, A.OpenBefore;
      callId := callIds.StartApproval(id, supply, serial);
      A.KeepsTableExact(st, A.Name(token, callId));
      st := A.Next(st, A.Name(token, callId));
    }

    /** An occupied handle is left alone, and the request denied. */
    method Register(token: nat, callId: Handle, tool: Tool) returns (entered: bool)
      requires Valid() && A.Enabled(st, A.Register(token)) && st.calls[token].phase.handle == callId
        && st.calls[token].tool == tool
      modifies this
      ensures Valid() && st == A.Next(old(st), A.Register(token))
      ensures entered <==> callId !in old(pending)
      ensures pending == if entered then old(pending)[callId := A.Entry(token, tool)] else old(pending)
    {
      hide A.TableExact, A.OpenBefore;
      A.KeepsTableExact(st, A.Register(token));
      st := A.Next(st, A.Register(token));
      if callId !in pending {
        pending := pending[callId := A.Entry(token, tool)];
        return true;
      }
      listening := listening - {token};
      return false;
    }

    /** The channel has accepted the notice. */
    ghost method Notify(token: nat)
      requires Valid() && A.Enabled(st, A.Notify(token))
      modifies this`st
      ensures Valid() && st == A.Next(old(st), A.Notify(token))
    {
      hide A.TableExact, A.OpenBefore;
      A.KeepsTableExact(st, A.Notify(token));
      st := A.Next(st, A.Notify(token));
    }

    /** The drop guard: it removes its own generation only. */
    method DropRegistration(callId: Handle, token: nat)
      modifies this`pending
      ensures pending == A.WithoutOwn(old(pending), callId, token)
    {
      if callId in pending && pending[callId].token == token {
        pending := pending - {callId};
      }
    }

    /** The channel is closed: deny. */
    method Undeliverable(token: nat, callId: Handle) returns (decision: ApprovalDecision)
      requires Valid() && A.Enabled(st, A.Undeliverable(token)) && st.calls[token].phase.handle == callId
      modifies this
      ensures Valid() && st == A.Next(old(st), A.Undeliverable(token))
      ensures decision == Deny && st.calls[token].phase == A.Returned(Deny)
    {
      hide A.TableExact, A.OpenBefore;
      A.KeepsTableExact(st, A.Undeliverable(token));
      st := A.Next(st, A.Undeliverable(token));
      DropRegistration(callId, token);
      listening := listening - {token};
      return Deny;
    }

    /** The reply, or a denial when the sending half is gone. */
    method AwaitReply(token: nat, callId: Handle) returns (decision: ApprovalDecision)
      requires Valid() && A.Enabled(st, A.Wake(token)) && st.calls[token].phase.handle == callId
      modifies this
      ensures Valid() && st == A.Next(old(st), A.Wake(token))
      ensures st.calls[token].phase == A.Returned(decision)
      ensures decision == if token in old(replies) then old(replies)[token] else Deny
    {
      hide A.TableExact, A.OpenBefore;
      A.KeepsTableExact(st, A.Wake(token));
      st := A.Next(st, A.Wake(token));
      decision := if token in replies then replies[token] else Deny;
      DropRegistration(callId, token);
      listening := listening - {token};
    }

    /** The future is dropped in its send: guard, then receiver. */
    method AbandonSend(token: nat, callId: Handle)
      requires Valid() && A.Enabled(st, A.Abandon(token)) && st.calls[token].phase == A.Registered(callId)
      modifies this
      ensures Valid() && st == A.Next(old(st), A.Abandon(token))
    {
      hide A.TableExact, A.OpenBefore;
      A.KeepsTableExact(st, A.Abandon(token));
      st := A.Next(st, A.Abandon(token));
      DropRegistration(callId, token);
      listening := listening - {token};
    }

    /** The future is dropped in its wait: the receiver goes first, and a decision may come in between. */
    method AbandonWait(token: nat)
      requires Valid() && A.Enabled(st, A.Abandon(token)) && st.calls[token].phase.Waiting?
      modifies this
      ensures Valid() && st == A.Next(old(st), A.Abandon(token))
    {
      hide A.TableExact, A.OpenBefore;
      A.KeepsTableExact(st, A.Abandon(token));
      st := A.Next(st, A.Abandon(token));
      listening := listening - {token};
    }

    method FinishDrop(token: nat, callId: Handle)
      requires Valid() && A.Enabled(st, A.Unguard(token)) && st.calls[token].phase.handle == callId
      modifies this
      ensures Valid() && st == A.Next(old(st), A.Unguard(token))
    {
      hide A.TableExact, A.OpenBefore;
      A.KeepsTableExact(st, A.Unguard(token));
      st := A.Next(st, A.Unguard(token));
      DropRegistration(callId, token);
    }
  }
}
