/**
 * Opaque handles for provider call identities. The agent task names a call when it asks for approval,
 * the coordinator looks the name up later, when it maps the call's events; the results say for which
 * interleavings of the two every call keeps one handle of its own.
 */
module CallIds {
  import opened Text
  import opened Protocol

  /** One tool call; `serial` tells apart calls for which the provider used the same identity. */
  datatype Call = Call(serial: nat, id: ProviderId)

  /** One operation on the mapper. */
  datatype Use =
    | ApprovalStarted(call: Call)
    | EventStarted(call: Call)
    | Finished(call: Call)
    | Cleared

  type Ids = map<ProviderId, Handle>

  /** The handle an operation returns; `supply` is what a new handle would be. */
  function HandleFor(ids: Ids, use: Use, supply: Handle): Handle
    requires !use.Cleared?
  {
    if !use.ApprovalStarted? && use.call.id in ids then ids[use.call.id] else supply
  }

  function After(ids: Ids, use: Use, supply: Handle): Ids {
    match use
    case ApprovalStarted(call) => ids[call.id := supply]
    case EventStarted(call) => if call.id in ids then ids else ids[call.id := supply]
    case Finished(call) => ids - {call.id}
    case Cleared => map[]
  }

  class CallIdMapper {
    var active: Ids

    constructor ()
      ensures active == map[]
    {
      active := map[];
    }

    /** `serial` says which call under the identity this is. */
    method StartApproval(id: ProviderId, supply: Handle, ghost serial: nat) returns (handle: Handle)
      modifies this
      ensures handle == HandleFor(old(active), ApprovalStarted(Call(serial, id)), supply)
      ensures active == After(old(active), ApprovalStarted(Call(serial, id)), supply)
    {
      handle := supply;
      active := active[id := handle];
    }

    method StartEvent(id: ProviderId, supply: Handle, ghost serial: nat) returns (handle: Handle)
      modifies this
      ensures handle == HandleFor(old(active), EventStarted(Call(serial, id)), supply)
      ensures active == After(old(active), EventStarted(Call(serial, id)), supply)
    {
      if id !in active {
        active := active[id := supply];
      }
      handle := active[id];
    }

    method Finish(id: ProviderId, supply: Handle, ghost serial: nat) returns (handle: Handle)
      modifies this
      ensures handle == HandleFor(old(active), Finished(Call(serial, id)), supply)
      ensures active == After(old(active), Finished(Call(serial, id)), supply)
    {
      if id in active {
        handle := active[id];
        active := active - {id};
      } else {
        handle := supply;
      }
    }

    method Clear()
      modifies this
      ensures active == After(old(active), Cleared, "")
    {
      active := map[];
    }
  }

  // ---------------------------------------------------------------- a whole run of the mapper

  /** The first `n` operations of a run, operation `i` having `supply[i]` at hand. */
  function IdsAt(uses: seq<Use>, supply: seq<Handle>, n: nat): Ids
    requires n <= |uses| == |supply|
  {
    if n == 0 then map[] else After(IdsAt(uses, supply, n - 1), uses[n - 1], supply[n - 1])
  }

  function HandleAt(uses: seq<Use>, supply: seq<Handle>, i: nat): Handle
    requires i < |uses| == |supply| && !uses[i].Cleared?
  {
    HandleFor(IdsAt(uses, supply, i), uses[i], supply[i])
  }

  /** New handles are fresh; a clear draws none. */
  ghost predicate Distinct(uses: seq<Use>, supply: seq<Handle>)
    requires |uses| == |supply|
  {
    forall i, j :: 0 <= i < j < |supply| && !uses[i].Cleared? && !uses[j].Cleared? ==> supply[i] != supply[j]
  }

  /** Two operations get the same handle exactly when they are about the same call. */
  ghost predicate Correlated(uses: seq<Use>, supply: seq<Handle>)
    requires |uses| == |supply|
  {
    forall i: nat, j: nat | i < |uses| && j < |uses| && !uses[i].Cleared? && !uses[j].Cleared? ::
      uses[i].call == uses[j].call <==> HandleAt(uses, supply, i) == HandleAt(uses, supply, j)
  }

  /** The latest of the first `n` operations on a provider identity since the last clear. */
  function LastUse(uses: seq<Use>, n: nat, id: ProviderId): (r: Option<nat>)
    requires n <= |uses|
    ensures r.Some? ==> r.value < n && !uses[r.value].Cleared? && uses[r.value].call.id == id
  {
    if n == 0 || uses[n - 1].Cleared? then None
    else if uses[n - 1].call.id == id then Some(n - 1)
    else LastUse(uses, n - 1, id)
  }

  /** The identity is taken: it has been used since the last clear, and not finished last. */
  predicate Taken(uses: seq<Use>, n: nat, id: ProviderId)
    requires n <= |uses|
  {
    var last := LastUse(uses, n, id);
    last.Some? && !uses[last.value].Finished?
  }

  predicate FirstOfCall(uses: seq<Use>, i: nat)
    requires i < |uses| && !uses[i].Cleared?
  {
    forall j :: 0 <= j < i && !uses[j].Cleared? ==> uses[j].call != uses[i].call
  }

  /**
   * A call begins on an identity that is free, or by asking for approval; from then on the latest
   * use of the identity is always its own.
   */
  predicate InTurn(uses: seq<Use>, i: nat)
    requires i < |uses| && !uses[i].Cleared?
  {
    var id := uses[i].call.id;
    if FirstOfCall(uses, i) then uses[i].ApprovalStarted? || !Taken(uses, i, id)
    else
      && !uses[i].ApprovalStarted?
      && Taken(uses, i, id)
      && uses[LastUse(uses, i, id).value].call == uses[i].call
  }

  ghost predicate Separated(uses: seq<Use>) {
    forall i: nat | i < |uses| && !uses[i].Cleared? :: InTurn(uses, i)
  }

  /** The map holds, for each identity that is taken, the handle of its latest use. */
  lemma {:induction false} IdsAreLastUses(uses: seq<Use>, supply: seq<Handle>, n: nat, id: ProviderId)
    requires n <= |uses| == |supply|
    ensures id in IdsAt(uses, supply, n) <==> Taken(uses, n, id)
    ensures Taken(uses, n, id) ==> IdsAt(uses, supply, n)[id] == HandleAt(uses, supply, LastUse(uses, n, id).value)
    decreases n
  {
    if n > 0 {
      IdsAreLastUses(uses, supply, n - 1, id);
    }
  }

  /** The operation that drew the handle operation `i` returns. */
  function Origin(uses: seq<Use>, i: nat): (o: nat)
    requires i < |uses| && !uses[i].Cleared?
    ensures o <= i && !uses[o].Cleared?
  {
    if uses[i].ApprovalStarted? || !Taken(uses, i, uses[i].call.id) then i
    else Origin(uses, LastUse(uses, i, uses[i].call.id).value)
  }

  lemma {:induction false} HandleFromOrigin(uses: seq<Use>, supply: seq<Handle>, i: nat)
    requires i < |uses| == |supply| && !uses[i].Cleared?
    ensures HandleAt(uses, supply, i) == supply[Origin(uses, i)]
    decreases i
  {
    var id := uses[i].call.id;
    IdsAreLastUses(uses, supply, i, id);
    if !uses[i].ApprovalStarted? && Taken(uses, i, id) {
      HandleFromOrigin(uses, supply, LastUse(uses, i, id).value);
    }
  }

  lemma {:induction false} OriginIsFirst(uses: seq<Use>, i: nat)
    requires i < |uses| && !uses[i].Cleared? && Separated(uses)
    ensures var o := Origin(uses, i); !uses[o].Cleared? && FirstOfCall(uses, o) && uses[o].call == uses[i].call
    decreases i
  {
    assert InTurn(uses, i);
    if !FirstOfCall(uses, i) {
      OriginIsFirst(uses, LastUse(uses, i, uses[i].call.id).value);
    }
  }

  /** One handle per call and one call per handle, for exactly the runs whose calls take turns. */
  lemma CorrelatedExactlyWhenSeparated(uses: seq<Use>, supply: seq<Handle>)
    requires |uses| == |supply| && Distinct(uses, supply)
    ensures Correlated(uses, supply) <==> Separated(uses)
  {
    if Separated(uses) {
      SeparatedCorrelated(uses, supply);
    }
    if Correlated(uses, supply) {
      CorrelatedSeparated(uses, supply);
    }
  }

  lemma SeparatedCorrelated(uses: seq<Use>, supply: seq<Handle>)
    requires |uses| == |supply| && Distinct(uses, supply) && Separated(uses)
    ensures Correlated(uses, supply)
  {
    hide HandleAt, Origin, InTurn;
    forall i: nat, j: nat | i < |uses| && j < |uses| && !uses[i].Cleared? && !uses[j].Cleared?
      ensures uses[i].call == uses[j].call <==> HandleAt(uses, supply, i) == HandleAt(uses, supply, j)
    {
      HandleFromOrigin(uses, supply, i);
      HandleFromOrigin(uses, supply, j);
      OriginIsFirst(uses, i);
      OriginIsFirst(uses, j);
    }
  }

  lemma CorrelatedSeparated(uses: seq<Use>, supply: seq<Handle>)
    requires |uses| == |supply| && Distinct(uses, supply) && Correlated(uses, supply)
    ensures Separated(uses)
  {
    forall i: nat | i < |uses| && !uses[i].Cleared? ensures InTurn(uses, i) {
      var id := uses[i].call.id;
      HandleFromOrigin(uses, supply, i);
      if !uses[i].ApprovalStarted? && Taken(uses, i, id) {
        var last := LastUse(uses, i, id).value;
        HandleFromOrigin(uses, supply, last);
      }
      if !FirstOfCall(uses, i) {
        var j :| 0 <= j < i && !uses[j].Cleared? && uses[j].call == uses[i].call;
        HandleFromOrigin(uses, supply, j);
      }
    }
  }

  // ---------------------------------------------------------------- whose calls they are

  predicate SameButForSerial(a: Use, b: Use) {
    match a
    case ApprovalStarted(call) => b.ApprovalStarted? && b.call.id == call.id
    case EventStarted(call) => b.EventStarted? && b.call.id == call.id
    case Finished(call) => b.Finished? && b.call.id == call.id
    case Cleared => b.Cleared?
  }

  /** `calls` says of each operation of the run `uses` which call it was about, in whatever way. */
  ghost predicate Attributes(calls: seq<Use>, uses: seq<Use>) {
    |calls| == |uses| && forall i :: 0 <= i < |uses| ==> SameButForSerial(calls[i], uses[i])
  }

  /** The mapper does not see whose call an operation is about. */
  lemma {:induction false} IdsIgnoreSerials(calls: seq<Use>, uses: seq<Use>, supply: seq<Handle>, n: nat)
    requires n <= |uses| == |supply| && Attributes(calls, uses)
    ensures IdsAt(calls, supply, n) == IdsAt(uses, supply, n)
    decreases n
  {
    if n > 0 {
      IdsIgnoreSerials(calls, uses, supply, n - 1);
      assert SameButForSerial(calls[n - 1], uses[n - 1]);
    }
  }

  lemma HandlesIgnoreSerials(calls: seq<Use>, uses: seq<Use>, supply: seq<Handle>, i: nat)
    requires i < |uses| == |supply| && Attributes(calls, uses) && !uses[i].Cleared?
    ensures !calls[i].Cleared? && HandleAt(calls, supply, i) == HandleAt(uses, supply, i)
  {
    IdsIgnoreSerials(calls, uses, supply, i);
    assert SameButForSerial(calls[i], uses[i]);
  }

  lemma DistinctIgnoresSerials(calls: seq<Use>, uses: seq<Use>, supply: seq<Handle>)
    requires |uses| == |supply| && Attributes(calls, uses) && Distinct(uses, supply)
    ensures Distinct(calls, supply)
  {
    forall i | 0 <= i < |uses| ensures calls[i].Cleared? == uses[i].Cleared? {
      assert SameButForSerial(calls[i], uses[i]);
    }
  }

  /** A provider identity is used again while the coordinator still lags behind. */
  function LaggingReuse(id: ProviderId): seq<Use> {
    [ApprovalStarted(Call(0, id)), EventStarted(Call(0, id)), ApprovalStarted(Call(1, id)), Finished(Call(0, id))]
  }

  /** Then the first call's result goes out under the second call's handle. */
  lemma LaggingReuseCrosses(id: ProviderId, supply: seq<Handle>)
    requires |supply| == 4 && Distinct(LaggingReuse(id), supply)
    ensures var uses := LaggingReuse(id);
            && HandleAt(uses, supply, 3) == HandleAt(uses, supply, 2) != HandleAt(uses, supply, 1)
            && !Correlated(uses, supply)
  {
    var uses := LaggingReuse(id);
    assert IdsAt(uses, supply, 1) == map[id := supply[0]];
    assert IdsAt(uses, supply, 2) == map[id := supply[0]];
    assert IdsAt(uses, supply, 3) == map[id := supply[2]];
  }

  // ---------------------------------------------------------------- one more operation

  lemma {:induction false} LastUseExtended(uses: seq<Use>, use: Use, n: nat, id: ProviderId)
    requires n <= |uses|
    ensures LastUse(uses + [use], n, id) == LastUse(uses, n, id)
    decreases n
  {
    if n > 0 {
      LastUseExtended(uses, use, n - 1, id);
    }
  }

  ghost predicate NoUse(uses: seq<Use>, call: Call) {
    forall i :: 0 <= i < |uses| && !uses[i].Cleared? ==> uses[i].call != call
  }

  lemma InTurnExtended(uses: seq<Use>, use: Use, i: nat)
    requires i < |uses| && !uses[i].Cleared? && InTurn(uses, i)
    ensures InTurn(uses + [use], i)
  {
    hide LastUse;
    LastUseExtended(uses, use, i, uses[i].call.id);
    assert FirstOfCall(uses + [use], i) == FirstOfCall(uses, i);
  }

  /** What the next operation must be for the calls to keep taking turns. */
  ghost predicate Fits(uses: seq<Use>, use: Use) {
    use.Cleared? ||
    if NoUse(uses, use.call) then use.ApprovalStarted? || !Taken(uses, |uses|, use.call.id)
    else
      && !use.ApprovalStarted?
      && Taken(uses, |uses|, use.call.id)
      && uses[LastUse(uses, |uses|, use.call.id).value].call == use.call
  }

  lemma SeparatedExtends(uses: seq<Use>, use: Use)
    requires Separated(uses) && Fits(uses, use)
    ensures Separated(uses + [use])
  {
    hide LastUse, InTurn;
    var more := uses + [use];
    forall i: nat | i < |more| && !more[i].Cleared? ensures InTurn(more, i) {
      if i < |uses| {
        assert InTurn(uses, i);
        InTurnExtended(uses, use, i);
      } else {
        FitsInTurn(uses, use);
      }
    }
  }

  lemma FitsInTurn(uses: seq<Use>, use: Use)
    requires Fits(uses, use) && !use.Cleared?
    ensures InTurn(uses + [use], |uses|)
  {
    hide LastUse;
    var more := uses + [use];
    LastUseExtended(uses, use, |uses|, use.call.id);
    assert FirstOfCall(more, |uses|) == NoUse(uses, use.call);
  }

  /** Since a clear, the latest use of an identity lies within what came after it. */
  lemma {:induction false} LastUseSince(uses: seq<Use>, base: nat, n: nat, id: ProviderId)
    requires base <= n <= |uses| && (base == 0 || uses[base - 1].Cleared?)
    requires forall i :: base <= i < n ==> !uses[i].Cleared?
    ensures var last := LastUse(uses, n, id);
            && (last.Some? ==> last.value >= base)
            && (last.None? ==> forall i :: base <= i < n ==> uses[i].call.id != id)
    decreases n
  {
    if n > base {
      LastUseSince(uses, base, n - 1, id);
    }
  }
}
