/** Runs of the registry object: what is proved of the machine holds of it. */
module AuthRegistryRuns {
  import opened Wrappers
  import opened IdOrder
  import opened AuthRegistry
  import opened AuthRegistryImpl
  import opened AuthRegistryProofs

  /** One public call at the given time. */
  method Perform(registry: AuthSessionRegistry, e: Event) returns (reply: Reply, stopped: map<Id, Owner>)
    modifies registry
    ensures registry.Performed(old(registry.State()), e.at, e.op, reply, stopped)
  {
    match e.op
    case Create(request, ids) => reply, stopped := registry.Create(e.at, request, ids);
    case TakeSnapshot(id) => reply, stopped := registry.TakeSnapshot(e.at, id);
    case ReceiveCallback(id, state, code) => reply, stopped := registry.ReceiveCallback(e.at, id, state, code);
    case ReceiveDenied(id, state) => reply, stopped := registry.ReceiveDenied(e.at, id, state);
    case BeginCompletion(id) => reply, stopped := registry.BeginCompletion(e.at, id);
    case FinishAuthorized(id) => reply, stopped := registry.FinishAuthorized(e.at, id);
    case FinishFailed(id, fault) => reply, stopped := registry.FinishFailed(e.at, id, fault);
    case Fail(id, fault) => reply, stopped := registry.Fail(e.at, id, fault);
    case Cancel(id) => reply, stopped := registry.Cancel(e.at, id);
    case StopCallback(id) => reply, stopped := registry.StopCallback(e.at, id);
    case StoreCredential(url, token, expiresAt, firstRead, ids) =>
      reply, stopped := registry.StoreCredential(e.at, url, token, expiresAt, firstRead, ids);
    case ResolveCredential(id) => reply, stopped := registry.ResolveCredential(e.at, id);
    case RemoveCredential(id) => reply, stopped := registry.RemoveCredential(e.at, id);
  }

  lemma {:induction false} RunMore(past: seq<Event>, e: Event)
    ensures After(past + [e]) == Step(Final(past), e.at, e.op) && Final(past + [e]) == Step(Final(past), e.at, e.op).state
  {
    assert (past + [e])[..|past|] == past;
  }

  /** One more call of a run. */
  method Continue(registry: AuthSessionRegistry, ghost past: seq<Event>, e: Event) returns (reply: Reply, stopped: map<Id, Owner>)
    requires registry.State() == Final(past)
    modifies registry
    ensures registry.State() == Final(past + [e])
    ensures reply == After(past + [e]).reply && stopped == After(past + [e]).stopped
  {
    reply, stopped := Perform(registry, e);
    RunMore(past, e);
  }

  /** The i-th call was answered and stopped owners as in the machine's run. */
  ghost predicate AsAfter(run: seq<Event>, i: nat, reply: Reply, stopped: map<Id, Owner>)
    requires i < |run|
  {
    reply == After(run[..i + 1]).reply && stopped == After(run[..i + 1]).stopped
  }

  /** Any run on a new registry: it ends in the state of the machine, every call is answered and
      stops the owners as the machine says, and the object keeps the limits, the disjoint ids and
      the shape of every session. */
  method PerformAll(run: seq<Event>) returns (registry: AuthSessionRegistry, replies: seq<Reply>, stopped: seq<map<Id, Owner>>)
    ensures fresh(registry) && registry.State() == Final(run) && Inv(registry.State())
    ensures |replies| == |stopped| == |run|
    ensures forall i :: 0 <= i < |run| ==> AsAfter(run, i, replies[i], stopped[i])
  {
    registry := new AuthSessionRegistry();
    replies, stopped := [], [];
    for n := 0 to |run|
      invariant fresh(registry) && registry.State() == Final(run[..n]) && |replies| == |stopped| == n
      invariant forall i :: 0 <= i < n ==> AsAfter(run, i, replies[i], stopped[i])
    {
      assert run[..n + 1] == run[..n] + [run[n]];
      var reply, owners := Continue(registry, run[..n], run[n]);
      replies, stopped := replies + [reply], stopped + [owners];
    }
    assert run[..|run|] == run;
    RunKeepsInv(run);
  }
}
