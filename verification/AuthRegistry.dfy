/**
 The state machine of `AuthSessionRegistry` (src/auth_session_registry.cpp), one atomic
 step per region executed under the registry mutex. `AuthRegistryImpl` proves that the
 imperative code computes these steps; `AuthRegistryProofs` reasons about runs of them.
 */
module AuthRegistry {
  import opened Wrappers
  import opened IdOrder

  datatype Status =
    | Pending | CallbackReceived | Completing
    | Authorized | AccessDenied | Expired | Cancelled | Failed

  datatype Fault =
    | SessionNotFound | CallbackProtocolError | SessionExpired | StateMismatch | UserDenied
    | SessionLimitReached | ReauthRequired | TokenExchangeFailed | OtherFault(code: nat)

  /** Identity of an `AuthCallbackOwner` object. */
  type Owner = nat

  datatype Session = Session(
    status: Status,
    expectedState: string, verifier: string, code: string,
    loginOrigin: string, clientId: string, secretName: string,
    expiresAt: nat, expiresUtc: int,
    fault: Option<Fault>,
    owner: Option<Owner>)

  datatype Credential = Credential(instanceUrl: string, accessToken: string, expiresAt: nat)

  type Sessions = map<Id, Session>
  type Credentials = map<Id, Credential>

  datatype Registry = Registry(sessions: Sessions, credentials: Credentials)

  const EMPTY := Registry(map[], map[])

  datatype StartRequest = StartRequest(
    loginOrigin: string, clientId: string, secretName: string,
    expectedState: string, verifier: string,
    expiresAt: nat, expiresUtc: int, owner: Option<Owner>)

  datatype Snapshot = Snapshot(status: Status, secretName: string, expiresUtc: int, fault: Option<Fault>)
  datatype Material = Material(code: string, verifier: string, loginOrigin: string, clientId: string, secretName: string)

  /** The public calls. `ids` are the answers of successive `GenerateOpaqueId` calls;
      `firstRead` is the clock value `StoreCredential` reads before it takes the mutex. */
  datatype Op =
    | Create(request: StartRequest, ids: nat -> Id)
    | TakeSnapshot(id: Id)
    | ReceiveCallback(id: Id, state: string, code: string)
    | ReceiveDenied(id: Id, state: string)
    | BeginCompletion(id: Id)
    | FinishAuthorized(id: Id)
    | FinishFailed(id: Id, fault: Fault)
    | Fail(id: Id, fault: Fault)
    | Cancel(id: Id)
    | StopCallback(id: Id)
    | StoreCredential(instanceUrl: string, accessToken: string, expiresAt: nat, firstRead: nat, ids: nat -> Id)
    | ResolveCredential(id: Id)
    | RemoveCredential(id: Id)

  datatype Reply =
    | Done
    | NewId(id: Id)
    | Seen(snapshot: Snapshot)
    | Handed(material: Material)
    | Resolved(instanceUrl: string, accessToken: string)
    | Threw(fault: Fault)

  /** `stopped` are the callback owners a step passed to `StopAndJoin`, keyed by the session
      that held them; `dropped` those destroyed with an evicted session instead. */
  datatype Outcome = Outcome(state: Registry, reply: Reply, stopped: map<Id, Owner>, dropped: map<Id, Owner>)

  const MAX_ACTIVE: nat := 4
  const MAX_SESSIONS: nat := 32
  const MAX_CREDENTIALS: nat := 16
  const ID_ATTEMPTS: nat := 16

  predicate Terminal(status: Status) {
    status.Authorized? || status.AccessDenied? || status.Expired? || status.Cancelled? || status.Failed?
  }

  /** A transition that may hand the callback owner to its caller. */
  datatype Ended = Ended(session: Session, owner: Option<Owner>)

  /** `TerminalLocked`. */
  function End(s: Session, status: Status, fault: Option<Fault>, release: bool): Ended {
    if Terminal(s.status) then Ended(s, None)
    else Ended(s.(status := status, fault := fault, expectedState := "", verifier := "", code := "",
                  owner := if release then None else s.owner),
               if release then s.owner else None)
  }

  predicate Elapsed(s: Session, now: nat) {
    !s.status.Completing? && !Terminal(s.status) && now >= s.expiresAt
  }

  /** `ExpireLocked`. */
  function Expire(s: Session, now: nat, release: bool): Ended {
    if Elapsed(s, now) then End(s, Status.Expired, Some(SessionExpired), release) else Ended(s, None)
  }

  function Sweep(m: Sessions, now: nat): Sessions {
    map k | k in m :: Expire(m[k], now, true).session
  }

  function SweptOwners(m: Sessions, now: nat): map<Id, Owner> {
    map k | k in m && Expire(m[k], now, true).owner.Some? :: Expire(m[k], now, true).owner.value
  }

  function TerminalIds(m: Sessions): set<Id> { set k | k in m && Terminal(m[k].status) }
  function ActiveIds(m: Sessions): set<Id> { set k | k in m && !Terminal(m[k].status) }

  /** While the table is full, the first terminal session in key order is erased. */
  ghost function Evict(m: Sessions): (r: Sessions)
    ensures r.Keys <= m.Keys
    ensures forall k :: k in r ==> r[k] == m[k]
    decreases |m|
  {
    if |m| >= MAX_SESSIONS && TerminalIds(m) != {} then
      var k := First(TerminalIds(m));
      assert |(m - {k}).Keys| < |m.Keys| by { assert (m - {k}).Keys == m.Keys - {k}; }
      Evict(m - {k})
    else m
  }

  function Owners(m: Sessions): map<Id, Owner> {
    map k | k in m && m[k].owner.Some? :: m[k].owner.value
  }

  function Only(k: Id, owner: Option<Owner>): map<Id, Owner> {
    if owner.Some? then map[k := owner.value] else map[]
  }

  /** The first of `left` more draws that is not in use, or the empty string. */
  function Draw(taken: set<Id>, ids: nat -> Id, left: nat): (id: Id)
    requires left <= ID_ATTEMPTS
    ensures id == "" || id !in taken
  {
    if left == 0 then "" else
    if ids(ID_ATTEMPTS - left) !in taken then ids(ID_ATTEMPTS - left) else Draw(taken, ids, left - 1)
  }

  /** The id loop of `Create` and `StoreCredential`: at most sixteen draws. */
  function FreeId(r: Registry, ids: nat -> Id): (id: Id)
    ensures id == "" || id !in Taken(r)
  {
    Draw(Taken(r), ids, ID_ATTEMPTS)
  }

  function Taken(r: Registry): set<Id> { r.sessions.Keys + r.credentials.Keys }

  function Opened(q: StartRequest): Session {
    Session(Pending, q.expectedState, q.verifier, "", q.loginOrigin, q.clientId, q.secretName,
            q.expiresAt, q.expiresUtc, None, q.owner)
  }

  function Quiet(r: Registry, reply: Reply): Outcome { Outcome(r, reply, map[], map[]) }

  predicate WellFormed(q: StartRequest) { q.expectedState != "" && q.verifier != "" && q.expiresAt != 0 }

  /** The sessions left once `Create` has swept and evicted. */
  ghost function Kept(m: Sessions, now: nat): Sessions { Evict(Sweep(m, now)) }

  /** The second half of `Create`: the active limit, the id, the new session. */
  function Admit(r: Registry, q: StartRequest, ids: nat -> Id): (Registry, Reply) {
    if |ActiveIds(r.sessions)| >= MAX_ACTIVE || FreeId(r, ids) == "" then (r, Threw(SessionLimitReached))
    else (r.(sessions := r.sessions[FreeId(r, ids) := Opened(q)]), NewId(FreeId(r, ids)))
  }

  ghost function CreateStep(r: Registry, now: nat, q: StartRequest, ids: nat -> Id): Outcome {
    if !WellFormed(q) then Quiet(r, Threw(CallbackProtocolError))
    else if q.expiresAt <= now then Quiet(r, Threw(SessionExpired))
    else
      var kept := Kept(r.sessions, now);
      var (r', reply) := Admit(r.(sessions := kept), q, ids);
      Outcome(r', reply, SweptOwners(r.sessions, now), Owners(Sweep(r.sessions, now)) - kept.Keys)
  }

  /** What a call does to the one session it looks up, the owner it releases, its answer. */
  datatype Local = Local(session: Session, owner: Option<Owner>, reply: Reply)

  /** The calls that work on a single session. */
  predicate OnSession(op: Op) {
    !op.Create? && !op.StoreCredential? && !op.ResolveCredential? && !op.RemoveCredential?
  }

  function SnapshotLocal(s: Session, now: nat): Local {
    var e := Expire(s, now, true);
    var reap := Terminal(e.session.status) && e.owner.None?;
    var s' := if reap then e.session.(owner := None) else e.session;
    Local(s', if reap then e.session.owner else e.owner,
          Seen(Snapshot(s'.status, s'.secretName, s'.expiresUtc, s'.fault)))
  }

  /** The worker-side calls keep the callback owner in the session. */
  function CallbackLocal(s: Session, now: nat, state: string, code: string): Local {
    var s' := Expire(s, now, false).session;
    if !s'.status.Pending? || code == "" then Local(s', None, Threw(CallbackProtocolError))
    else if s'.expectedState != state then
      Local(End(s', Failed, Some(StateMismatch), false).session, None, Threw(StateMismatch))
    else Local(s'.(code := code, expectedState := "", status := CallbackReceived), None, Done)
  }

  function DeniedLocal(s: Session, now: nat, state: string): Local {
    var s' := Expire(s, now, false).session;
    if !s'.status.Pending? then Local(s', None, Threw(CallbackProtocolError))
    else if s'.expectedState != state then
      Local(End(s', Failed, Some(StateMismatch), false).session, None, Threw(StateMismatch))
    else Local(End(s', AccessDenied, Some(UserDenied), false).session, None, Done)
  }

  function BeginLocal(s: Session, now: nat): Local {
    var e := Expire(s, now, true);
    var s' := e.session;
    if !s'.status.CallbackReceived? then Local(s', e.owner, Threw(CallbackProtocolError))
    else Local(s'.(status := Completing, code := "", verifier := ""), None,
               Handed(Material(s'.code, s'.verifier, s'.loginOrigin, s'.clientId, s'.secretName)))
  }

  function FinishLocal(s: Session, status: Status, fault: Option<Fault>): Local {
    if !s.status.Completing? then Local(s, None, Threw(CallbackProtocolError))
    else var e := End(s, status, fault, true); Local(e.session, e.owner, Done)
  }

  /** `Fail` and `Cancel`: no expiry sweep, and no effect once completion owns the session. */
  function AbortLocal(s: Session, status: Status, fault: Option<Fault>): Local {
    if s.status.Completing? then Local(s, None, Done)
    else var e := End(s, status, fault, true); Local(e.session, e.owner, Done)
  }

  function SessionStep(s: Session, now: nat, op: Op): Local
    requires OnSession(op)
  {
    match op
    case TakeSnapshot(_) => SnapshotLocal(s, now)
    case ReceiveCallback(_, state, code) => CallbackLocal(s, now, state, code)
    case ReceiveDenied(_, state) => DeniedLocal(s, now, state)
    case BeginCompletion(_) => BeginLocal(s, now)
    case FinishAuthorized(_) => FinishLocal(s, Authorized, None)
    case FinishFailed(_, fault) => FinishLocal(s, Failed, Some(fault))
    case Fail(_, fault) => AbortLocal(s, Failed, Some(fault))
    case Cancel(_) => AbortLocal(s, Cancelled, None)
    case StopCallback(_) => Local(s.(owner := None), s.owner, Done)
  }

  function Live(m: Credentials, now: nat): Credentials { map k | k in m && now < m[k].expiresAt :: m[k] }

  function StoreStep(r: Registry, now: nat, url: string, token: string, expiresAt: nat, firstRead: nat, ids: nat -> Id): Outcome {
    if url == "" || token == "" || expiresAt <= firstRead then Quiet(r, Threw(ReauthRequired))
    else
      var r' := r.(credentials := Live(r.credentials, now));
      if |r'.credentials| >= MAX_CREDENTIALS then Quiet(r', Threw(SessionLimitReached))
      else
        var id := FreeId(r', ids);
        if id == "" then Quiet(r', Threw(SessionLimitReached))
        else Quiet(r'.(credentials := r'.credentials[id := Credential(url, token, expiresAt)]), NewId(id))
  }

  function ResolveStep(r: Registry, now: nat, id: Id): Outcome {
    if id !in r.credentials then Quiet(r, Threw(ReauthRequired))
    else if now >= r.credentials[id].expiresAt then
      Quiet(r.(credentials := r.credentials - {id}), Threw(ReauthRequired))
    else Quiet(r, Resolved(r.credentials[id].instanceUrl, r.credentials[id].accessToken))
  }

  /** One call, executed at time `now`. */
  ghost function Step(r: Registry, now: nat, op: Op): Outcome {
    match op
    case Create(q, ids) => CreateStep(r, now, q, ids)
    case StoreCredential(url, token, expiresAt, firstRead, ids) => StoreStep(r, now, url, token, expiresAt, firstRead, ids)
    case ResolveCredential(id) => ResolveStep(r, now, id)
    case RemoveCredential(id) => Quiet(r.(credentials := r.credentials - {id}), Done)
    case _ =>
      if op.id !in r.sessions then Quiet(r, if op.StopCallback? then Done else Threw(SessionNotFound))
      else
        var l := SessionStep(r.sessions[op.id], now, op);
        Outcome(r.(sessions := r.sessions[op.id := l.session]), l.reply, Only(op.id, l.owner), map[])
  }
}
