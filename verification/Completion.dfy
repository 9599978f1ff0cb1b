/**
 `AuthCompleteExecute` (src/auth_functions.cpp) and `InstallTemporarySessionSecret`
 (src/session_credentials.cpp) run by any number of threads: a transition system whose atomic
 steps are the locked regions of the registry, the catalog transaction and the striped mutex.
 */
module Completion {
  import opened Wrappers
  import opened IdOrder
  import opened AuthRegistry

  type Tid = nat
  type Name = string

  const STRIPES: nat := 64

  /** Where a thread is. `sid` is the auth session it completes, `cid` its new credential,
      `prior` the credential its secret name referred to when it read the catalog. */
  datatype Thread =
    | Looked(sid: Id, name: Name)                             // saw CALLBACK_RECEIVED
    | Began(sid: Id, name: Name)                              // BeginCompletion handed it the material
    | Exchanged(sid: Id, name: Name, capability: Credential)  // the provider returned a capability
    | Stored(sid: Id, name: Name, cid: Id)
    | Locked(sid: Id, name: Name, cid: Id)                    // holds the mutex of its name's stripe
    | Read(sid: Id, name: Name, cid: Id, prior: Option<Id>)
    | Committed(sid: Id, name: Name, cid: Id, prior: Option<Id>)
    | RolledBack(sid: Id, name: Name, cid: Id, prior: Option<Id>)
    | Installed(sid: Id, cid: Id)                             // mutex released
    | Failing(sid: Id, stored: Option<Id>)                    // in the catch block
    | Cleaned(sid: Id)
    | Checked(sid: Id, recorded: bool)                        // past the first interrupt check

  /** Who answers for a stored credential. */
  datatype Holder = ByName(name: Name) | ByThread(tid: Tid)

  /** `issued`, `expiry` and `holder` only record history; no step reads them, except that
      `GenerateOpaqueId` is taken never to repeat an id within a run. */
  datatype System = System(
    reg: Registry,
    catalog: map<Name, Id>,
    threads: map<Tid, Thread>,
    locks: map<nat, Tid>,
    now: nat,
    issued: set<Id>,
    expiry: map<Id, nat>,
    holder: map<Id, Holder>)

  const START := System(EMPTY, map[], map[], map[], 0, {}, map[], map[])

  /** The thread-side steps carry the answers of what the thread cannot control. */
  datatype Move =
    | Env(op: Op)
    | Look(tid: Tid, sid: Id)
    | Begin(tid: Tid)
    | Exchange(tid: Tid, result: Option<Credential>)
    | Store(tid: Tid, firstRead: nat, ids: nat -> Id)
    | Acquire(tid: Tid)
    | ReadCatalog(tid: Tid, ok: bool)
    | Commit(tid: Tid, ok: bool)
    | Retire(tid: Tid)
    | Undo(tid: Tid)
    | Finish(tid: Tid)
    | Drop(tid: Tid)
    | Check(tid: Tid, interrupted: bool)
    | Report(tid: Tid, interrupted: bool, fault: Fault)

  function Stripe(hash: Name -> nat, name: Name): nat { hash(name) % STRIPES }

  predicate HoldsMutex(th: Thread) { th.Locked? || th.Read? || th.Committed? || th.RolledBack? }

  /** Calls other code makes at any time: starting, watching, cancelling, the callback worker,
      and queries resolving the credential of a secret. */
  predicate Outside(op: Op) {
    || op.Create? || op.TakeSnapshot? || op.ReceiveCallback? || op.ReceiveDenied?
    || op.Fail? || op.Cancel? || op.StopCallback? || op.ResolveCredential?
  }

  function To(s: System, t: Tid, th: Thread): System { s.(threads := s.threads[t := th]) }
  function Leave(s: System, t: Tid): System { s.(threads := s.threads - {t}) }

  ghost function Call(s: System, op: Op): System { s.(reg := Step(s.reg, s.now, op).state) }
  ghost function Answer(s: System, op: Op): Reply { Step(s.reg, s.now, op).reply }

  function Find(catalog: map<Name, Id>, name: Name): Option<Id> {
    if name in catalog then Some(catalog[name]) else None
  }

  /** No id is ever issued twice. */
  ghost predicate Fresh(s: System, reply: Reply) { reply.NewId? ==> reply.id !in s.issued }

  function Issue(s: System, reply: Reply): System {
    if reply.NewId? then s.(issued := s.issued + {reply.id}) else s
  }

  /** The steps at a standing clock; `None` when the step is not enabled. */
  ghost function Do(hash: Name -> nat, s: System, m: Move): Option<System> {
    match m
    case Env(op) =>
      if Outside(op) && Fresh(s, Answer(s, op)) then Some(Issue(Call(s, op), Answer(s, op))) else None
    case Look(t, sid) =>
      if t in s.threads then None else
      var r := Answer(s, TakeSnapshot(sid));
      var s' := Call(s, TakeSnapshot(sid));
      if r.Seen? && r.snapshot.status.CallbackReceived? then Some(To(s', t, Looked(sid, r.snapshot.secretName))) else Some(s')
    case _ =>
      if m.tid in s.threads then DoThread(hash, s, m.tid, s.threads[m.tid], m) else None
  }

  ghost function DoThread(hash: Name -> nat, s: System, t: Tid, th: Thread, m: Move): Option<System> {
    match th
    case Looked(sid, name) =>
      if !m.Begin? then None else
      var s' := Call(s, BeginCompletion(sid));
      // A caller that lost the race owns nothing and just looks again.
      Some(if Answer(s, BeginCompletion(sid)).Handed? then To(s', t, Began(sid, name)) else Leave(s', t))
    case Began(sid, name) =>
      if !m.Exchange? then None else
      Some(To(s, t, if m.result.Some? then Exchanged(sid, name, m.result.value) else Failing(sid, None)))
    case Exchanged(sid, name, c) =>
      if m.Store? then DoStore(s, t, th, StoreCredential(c.instanceUrl, c.accessToken, c.expiresAt, m.firstRead, m.ids)) else None
    case Stored(sid, name, cid) =>
      var stripe := Stripe(hash, name);
      if m.Acquire? && stripe !in s.locks
      then Some(To(s, t, Locked(sid, name, cid)).(locks := s.locks[stripe := t])) else None
    case Locked(sid, name, cid) =>
      if !m.ReadCatalog? then None else
      Some(To(s, t, if m.ok then Read(sid, name, cid, Find(s.catalog, name)) else RolledBack(sid, name, cid, None)))
    case Read(sid, name, cid, prior) =>
      if !m.Commit? then None else
      Some(if m.ok then DoCommit(s, t, th) else To(s, t, RolledBack(sid, name, cid, prior)))
    case Committed(sid, name, cid, prior) =>
      if m.Retire? then Some(DoRetire(hash, s, t, th)) else None
    case RolledBack(sid, name, cid, prior) =>
      if m.Undo? then Some(DoUndo(hash, s, t, th)) else None
    case Installed(sid, cid) =>
      if !m.Finish? then None else
      var s' := Call(s, FinishAuthorized(sid));
      Some(if Answer(s, FinishAuthorized(sid)) == Done then Leave(s', t) else To(s', t, Failing(sid, Some(cid))))
    case Failing(sid, cid) =>
      if !m.Drop? then None else
      Some(To(if cid.Some? then Forget(s, t, cid.value) else s, t, Cleaned(sid)))
    case Cleaned(sid) =>
      if m.Check? then Some(DoCheck(s, t, sid, m.interrupted)) else None
    case Checked(sid, _) =>
      if m.Report? then Some(DoReport(s, t, sid, m.interrupted, m.fault)) else None
  }

  ghost function DoStore(s: System, t: Tid, th: Thread, op: Op): Option<System>
    requires th.Exchanged? && op.StoreCredential?
  {
    var r := Answer(s, op);
    if !Fresh(s, r) then None
    else if r.NewId? then
      Some(To(Issue(Call(s, op), r), t, Stored(th.sid, th.name, r.id))
             .(expiry := s.expiry[r.id := op.expiresAt], holder := s.holder[r.id := ByThread(t)]))
    else Some(To(Call(s, op), t, Failing(th.sid, None)))
  }

  /** The catalog entry now names the new credential; the thread answers for the displaced one. */
  function DoCommit(s: System, t: Tid, th: Thread): System
    requires th.Read?
  {
    var h := s.holder[th.cid := ByName(th.name)];
    To(s, t, Committed(th.sid, th.name, th.cid, th.prior))
      .(catalog := s.catalog[th.name := th.cid],
        holder := if th.prior.Some? && th.prior.value != th.cid then h[th.prior.value := ByThread(t)] else h)
  }

  /** Retires the displaced credential and leaves the critical section. */
  ghost function DoRetire(hash: Name -> nat, s: System, t: Tid, th: Thread): System
    requires th.Committed?
  {
    var s' := if th.prior.Some? && th.prior.value != th.cid then Forget(s, t, th.prior.value) else s;
    To(s', t, Installed(th.sid, th.cid)).(locks := s.locks - {Stripe(hash, th.name)})
  }

  /** Removes the credential that did not become reachable and leaves the critical section. */
  ghost function DoUndo(hash: Name -> nat, s: System, t: Tid, th: Thread): System
    requires th.RolledBack?
  {
    var s' := if Some(th.cid) != th.prior then Call(s, RemoveCredential(th.cid)) else s;
    To(s', t, Failing(th.sid, Some(th.cid))).(locks := s.locks - {Stripe(hash, th.name)})
  }

  /** The interrupt check of the catch block itself. */
  ghost function DoCheck(s: System, t: Tid, sid: Id, interrupted: bool): System {
    To(if interrupted then Call(s, FinishFailed(sid, TokenExchangeFailed)) else s, t, Checked(sid, interrupted))
  }

  /** `RecordAuthCompletionFailure`, which checks for the interrupt again and then throws. */
  ghost function DoReport(s: System, t: Tid, sid: Id, interrupted: bool, fault: Fault): System {
    Leave(if interrupted then s else Call(s, FinishFailed(sid, fault)), t)
  }

  /** Removes a credential nobody answers for any more. */
  ghost function Forget(s: System, t: Tid, cid: Id): System {
    Call(s, RemoveCredential(cid)).(holder := s.holder - {cid})
  }

  /** A step at a time not before the previous one. */
  datatype Timed = Timed(at: nat, move: Move)

  ghost function Advance(hash: Name -> nat, s: System, e: Timed): Option<System> {
    if e.at < s.now then None else Do(hash, s.(now := e.at), e.move)
  }

  /** The state after a schedule all of whose steps were enabled. */
  ghost function Reach(hash: Name -> nat, run: seq<Timed>): Option<System> {
    if run == [] then Some(START) else
    var before := Reach(hash, run[..|run| - 1]);
    if before.Some? then Advance(hash, before.value, run[|run| - 1]) else None
  }
}
