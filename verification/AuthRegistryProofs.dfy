/** What every run of the auth session registry keeps. */
module AuthRegistryProofs {
  import opened Wrappers
  import opened IdOrder
  import opened AuthRegistry

  /** A call and the clock value at which its locked region executes. */
  datatype Event = Event(at: nat, op: Op)

  /** Any interleaving of calls by any number of threads is such a sequence. */
  ghost function Final(run: seq<Event>): Registry
    decreases |run|, 1
  {
    if run == [] then EMPTY else After(run).state
  }

  /** The outcome of the last event of a run. */
  ghost function After(run: seq<Event>): Outcome
    requires run != []
    decreases |run|, 0
  {
    var e := run[|run| - 1];
    Step(Final(run[..|run| - 1]), e.at, e.op)
  }

  // ---------------------------------------------------------------- capacity and status

  /** What a session holds is determined by its status, and its fault by how it ended. */
  predicate SessionInv(s: Session) {
    match s.status
    case Pending => s.expectedState != "" && s.verifier != "" && s.code == "" && s.fault.None?
    case CallbackReceived => s.expectedState == "" && s.verifier != "" && s.code != "" && s.fault.None?
    case Completing => Wiped(s) && s.fault.None?
    case Authorized => Wiped(s) && s.fault.None?
    case Cancelled => Wiped(s) && s.fault.None?
    case AccessDenied => Wiped(s) && s.fault == Some(UserDenied)
    case Expired => Wiped(s) && s.fault == Some(SessionExpired)
    case Failed => Wiped(s) && s.fault.Some?
  }

  predicate Wiped(s: Session) { s.expectedState == "" && s.verifier == "" && s.code == "" }

  ghost predicate Shaped(m: Sessions) { forall k :: k in m ==> SessionInv(m[k]) }

  ghost predicate Bounded(m: Sessions) { |ActiveIds(m)| <= MAX_ACTIVE && |m| <= MAX_SESSIONS }

  ghost predicate Inv(r: Registry) {
    && Shaped(r.sessions)
    && Bounded(r.sessions)
    && |r.credentials| <= MAX_CREDENTIALS
    && r.sessions.Keys !! r.credentials.Keys
  }

  lemma {:induction false} SubsetSize<T>(a: set<T>, b: set<T>)
    requires a <= b
    ensures |a| <= |b|
  {
    assert b == a + (b - a);
  }

  /** A call keeps the shape of its session, and never revives a terminal one. */
  lemma {:induction false} SessionStepKeeps(s: Session, now: nat, op: Op)
    requires OnSession(op) && SessionInv(s)
    ensures SessionInv(SessionStep(s, now, op).session)
    ensures Terminal(s.status) ==> Terminal(SessionStep(s, now, op).session.status)
  {}

  lemma {:induction false} SweepBounded(m: Sessions, now: nat)
    requires Bounded(m)
    ensures Bounded(Sweep(m, now))
  {
    assert Sweep(m, now).Keys == m.Keys;
    SubsetSize(ActiveIds(Sweep(m, now)), ActiveIds(m));
  }

  lemma {:induction false} WriteBounded(m: Sessions, k: Id, s: Session)
    requires Bounded(m) && k in m
    requires Terminal(m[k].status) ==> Terminal(s.status)
    ensures Bounded(m[k := s])
  {
    assert m[k := s].Keys == m.Keys;
    SubsetSize(ActiveIds(m[k := s]), ActiveIds(m));
  }

  lemma {:induction false} InsertBounded(m: Sessions, k: Id, s: Session)
    requires k !in m && |ActiveIds(m)| < MAX_ACTIVE && |m| < MAX_SESSIONS
    ensures Bounded(m[k := s])
  {
    assert m[k := s].Keys == m.Keys + {k};
    SubsetSize(ActiveIds(m[k := s]), ActiveIds(m) + {k});
  }

  /** With no more than 32 sessions, eviction leaves a free slot unless all of them are active. */
  lemma {:induction false} EvictFrees(m: Sessions)
    ensures |Evict(m)| < MAX_SESSIONS || TerminalIds(Evict(m)) == {}
    ensures ActiveIds(Evict(m)) == ActiveIds(m)
    ensures |Evict(m)| <= |m|
    decreases |m|
  {
    if |m| >= MAX_SESSIONS && TerminalIds(m) != {} {
      var k := First(TerminalIds(m));
      assert (m - {k}).Keys == m.Keys - {k};
      EvictFrees(m - {k});
      assert ActiveIds(m - {k}) == ActiveIds(m);
    }
  }

  /** `Create` expires elapsed sessions and evicts terminal ones only. */
  lemma {:induction false} KeptFacts(m: Sessions, now: nat)
    ensures var kept := Kept(m, now);
            && kept.Keys <= m.Keys
            && (forall k :: k in kept ==> kept[k] == Expire(m[k], now, true).session)
            && (forall k :: k in m && k !in kept ==> Terminal(Expire(m[k], now, true).session.status))
  {
    var swept := Sweep(m, now);
    EvictFrees(swept);
    assert forall k :: k in swept && k !in Evict(swept) ==> k !in ActiveIds(swept);
  }

  lemma {:induction false} KeptAt(m: Sessions, now: nat, k: Id)
    ensures var kept := Kept(m, now);
            && (k in kept ==> k in m && kept[k] == Expire(m[k], now, true).session)
            && (k in m && k !in kept ==> Terminal(Expire(m[k], now, true).session.status))
  {
    KeptFacts(m, now);
  }

  lemma {:induction false} KeptBounded(m: Sessions, now: nat)
    requires Bounded(m)
    ensures Bounded(Kept(m, now))
    ensures |ActiveIds(Kept(m, now))| < MAX_ACTIVE ==> |Kept(m, now)| < MAX_SESSIONS
  {
    var swept := Sweep(m, now);
    SweepBounded(m, now);
    EvictFrees(swept);
    // A full table without a terminal session would hold 32 active ones.
    assert Evict(swept).Keys == TerminalIds(Evict(swept)) + ActiveIds(Evict(swept));
  }

  lemma {:induction false} AdmitKeepsInv(r: Registry, q: StartRequest, ids: nat -> Id)
    requires Inv(r) && WellFormed(q)
    requires |ActiveIds(r.sessions)| < MAX_ACTIVE ==> |r.sessions| < MAX_SESSIONS
    ensures Inv(Admit(r, q, ids).0)
  {
    var id := FreeId(r, ids);
    if |ActiveIds(r.sessions)| < MAX_ACTIVE && id != "" { InsertBounded(r.sessions, id, Opened(q)); }
  }

  lemma {:induction false} KeptKeepsInv(r: Registry, now: nat)
    requires Inv(r)
    ensures Inv(r.(sessions := Kept(r.sessions, now)))
    ensures var kept := Kept(r.sessions, now); |ActiveIds(kept)| < MAX_ACTIVE ==> |kept| < MAX_SESSIONS
  {
    var m := r.sessions;
    KeptFacts(m, now);
    KeptBounded(m, now);
    assert Shaped(Kept(m, now)) by {
      forall k | k in Kept(m, now) ensures SessionInv(Kept(m, now)[k]) { assert SessionInv(m[k]); }
    }
  }

  lemma {:induction false} CreateKeepsInv(r: Registry, now: nat, q: StartRequest, ids: nat -> Id)
    requires Inv(r)
    ensures Inv(CreateStep(r, now, q, ids).state)
  {
    if WellFormed(q) && q.expiresAt > now {
      KeptKeepsInv(r, now);
      AdmitKeepsInv(r.(sessions := Kept(r.sessions, now)), q, ids);
    }
  }

  lemma {:induction false} StoreKeepsInv(r: Registry, now: nat, url: string, token: string, expiresAt: nat, firstRead: nat, ids: nat -> Id)
    requires Inv(r)
    ensures Inv(StoreStep(r, now, url, token, expiresAt, firstRead, ids).state)
  {
    var r' := r.(credentials := Live(r.credentials, now));
    LiveKeepsInv(r, now);
    var id := FreeId(r', ids);
    if |r'.credentials| < MAX_CREDENTIALS && id != "" { AddKeepsInv(r', id, Credential(url, token, expiresAt)); }
  }

  lemma {:induction false} LiveKeepsInv(r: Registry, now: nat)
    requires Inv(r)
    ensures Inv(r.(credentials := Live(r.credentials, now)))
  {
    SubsetSize(Live(r.credentials, now).Keys, r.credentials.Keys);
  }

  lemma {:induction false} AddKeepsInv(r: Registry, id: Id, c: Credential)
    requires Inv(r) && |r.credentials| < MAX_CREDENTIALS && id !in Taken(r)
    ensures Inv(r.(credentials := r.credentials[id := c]))
  {
    assert r.credentials[id := c].Keys == r.credentials.Keys + {id};
  }

  lemma {:induction false} DropKeepsInv(r: Registry, id: Id)
    requires Inv(r)
    ensures Inv(r.(credentials := r.credentials - {id}))
  {
    SubsetSize((r.credentials - {id}).Keys, r.credentials.Keys);
  }

  lemma {:induction false} WriteKeepsInv(r: Registry, now: nat, op: Op)
    requires Inv(r) && OnSession(op) && op.id in r.sessions
    ensures Inv(r.(sessions := r.sessions[op.id := SessionStep(r.sessions[op.id], now, op).session]))
  {
    SessionStepKeeps(r.sessions[op.id], now, op);
    WriteBounded(r.sessions, op.id, SessionStep(r.sessions[op.id], now, op).session);
  }

  /** Every step keeps the capacity limits, the disjointness of the two id spaces and the
      status-determined shape of every session. */
  lemma {:induction false} StepKeepsInv(r: Registry, now: nat, op: Op)
    requires Inv(r)
    ensures Inv(Step(r, now, op).state)
  {
    if OnSession(op) {
      SessionCallKeepsInv(r, now, op);
    } else if op.Create? {
      CreateKeepsInv(r, now, op.request, op.ids);
    } else {
      CredentialCallKeepsInv(r, now, op);
    }
  }

  lemma {:induction false} SessionCallKeepsInv(r: Registry, now: nat, op: Op)
    requires Inv(r) && OnSession(op)
    ensures Inv(Step(r, now, op).state)
  {
    if op.id in r.sessions {
      WriteKeepsInv(r, now, op);
      assert Step(r, now, op).state == r.(sessions := r.sessions[op.id := SessionStep(r.sessions[op.id], now, op).session]);
    }
  }

  lemma {:induction false} CredentialCallKeepsInv(r: Registry, now: nat, op: Op)
    requires Inv(r) && !OnSession(op) && !op.Create?
    ensures Inv(Step(r, now, op).state)
  {
    if op.StoreCredential? {
      StoreKeepsInv(r, now, op.instanceUrl, op.accessToken, op.expiresAt, op.firstRead, op.ids);
    } else {
      DropKeepsInv(r, op.id);
      CredentialCallDrops(r, now, op);
    }
  }

  lemma {:induction false} CredentialCallDrops(r: Registry, now: nat, op: Op)
    requires op.ResolveCredential? || op.RemoveCredential?
    ensures Step(r, now, op).state == r || Step(r, now, op).state == r.(credentials := r.credentials - {op.id})
  {}

  /** Capacity and status invariant over whole runs: at most 4 active sessions, 32 sessions and
      16 credentials, disjoint ids, and per session the material and fault its status implies. */
  lemma {:induction false} RunKeepsInv(run: seq<Event>)
    ensures Inv(Final(run))
  {
    if run == [] {
      assert ActiveIds(map[]) == {};
    } else {
      var e := run[|run| - 1];
      RunKeepsInv(run[..|run| - 1]);
      StepKeepsInv(Final(run[..|run| - 1]), e.at, e.op);
    }
  }

  /** Session `k` of a registry, if there is one. */
  function View(r: Registry, k: Id): Option<Session> {
    if k in r.sessions then Some(r.sessions[k]) else None
  }

  /** The session as an expiry sweep leaves it. */
  function Swept(s: Session, now: nat): Session { Expire(s, now, true).session }

  /** What one step can do to session `k`: the call's own transition, the opening of a new
      session, the sweep or an eviction by `Create`, or nothing. */
  ghost predicate Moves(b: Option<Session>, a: Option<Session>, now: nat, op: Op, reply: Reply, k: Id) {
    if OnSession(op) && op.id == k && b.Some? then
      a == Some(SessionStep(b.value, now, op).session) && reply == SessionStep(b.value, now, op).reply
    else if op.Create? && reply == NewId(k) then
      a == Some(Opened(op.request)) && (b.Some? ==> Terminal(Swept(b.value, now).status))
    else if op.Create? && b.Some? then
      a == b || a == Some(Swept(b.value, now)) || (a.None? && Terminal(Swept(b.value, now).status))
    else a == b
  }

  lemma {:induction false} AdmitAt(r: Registry, q: StartRequest, ids: nat -> Id, k: Id)
    ensures var (r', reply) := Admit(r, q, ids);
            && (reply == NewId(k) ==> k !in r.sessions && View(r', k) == Some(Opened(q)))
            && (reply != NewId(k) ==> View(r', k) == View(r, k))
            && (reply.NewId? || reply.Threw?)
  {}

  lemma {:induction false} CreateMoves(r: Registry, now: nat, op: Op, k: Id)
    requires op.Create?
    ensures var o := CreateStep(r, now, op.request, op.ids);
            Moves(View(r, k), View(o.state, k), now, op, o.reply, k)
  {
    KeptAt(r.sessions, now, k);
    AdmitAt(r.(sessions := Kept(r.sessions, now)), op.request, op.ids, k);
  }

  lemma {:induction false} StepMoves(r: Registry, now: nat, op: Op, k: Id)
    ensures var o := Step(r, now, op); Moves(View(r, k), View(o.state, k), now, op, o.reply, k)
  {
    if op.Create? { CreateMoves(r, now, op, k); }
  }

  /** Position in the life of a session. */
  function Rank(status: Status): nat {
    match status
    case Pending => 0
    case CallbackReceived => 1
    case Completing => 2
    case _ => 3
  }

  /** Unless the step opens a new session under id `k`, what happens to session `k` is: it stays,
      it moves forward, or, being terminal, it is evicted. Its identity fields never change, and
      a terminal session keeps its status and fault. */
  lemma {:induction false} StatusMovesForward(r: Registry, now: nat, op: Op, k: Id)
    requires k in r.sessions
    requires !(op.Create? && Step(r, now, op).reply == NewId(k))
    ensures var s, m := r.sessions[k], Step(r, now, op).state.sessions;
            if k in m then
              && Rank(s.status) <= Rank(m[k].status)
              && (Terminal(s.status) ==> m[k] == s.(owner := m[k].owner))
              && m[k].secretName == s.secretName && m[k].expiresAt == s.expiresAt
              && m[k].loginOrigin == s.loginOrigin && m[k].clientId == s.clientId && m[k].expiresUtc == s.expiresUtc
              && (m[k].owner == s.owner || m[k].owner.None?)
            else
              op.Create? && Terminal(Swept(s, now).status)
  {
    StepMoves(r, now, op, k);
  }

  // ---------------------------------------------------------------- single use

  ghost function Count(b: bool): nat { if b then 1 else 0 }

  /** How often a run opened a session under id `k`. */
  ghost function TimesOpened(run: seq<Event>, k: Id): nat {
    if run == [] then 0 else
    TimesOpened(run[..|run| - 1], k) + Count(run[|run| - 1].op.Create? && After(run).reply == NewId(k))
  }

  /** How often a run has handed out completion material of id `k` since it last opened a session
      under that id, which it may do again once the session has been evicted. */
  ghost function HandedSince(run: seq<Event>, k: Id): nat {
    if run == [] then 0
    else if run[|run| - 1].op.Create? && After(run).reply == NewId(k) then 0
    else HandedSince(run[..|run| - 1], k) + Count(run[|run| - 1].op == BeginCompletion(k) && After(run).reply.Handed?)
  }

  lemma {:induction false} HandedSpends(r: Registry, now: nat, op: Op, k: Id)
    ensures var o := Step(r, now, op);
            Count(op == BeginCompletion(k) && o.reply.Handed?)
              + Count(k in o.state.sessions && Rank(o.state.sessions[k].status) < 2)
            <= Count(op.Create? && o.reply == NewId(k)) + Count(k in r.sessions && Rank(r.sessions[k].status) < 2)
  {
    StepMoves(r, now, op, k);
  }

  /** Every opened session yields completion material at most once, and none once it has left the
      states before COMPLETING otherwise; and only an opened session yields any. */
  lemma {:induction false} MaterialAtMostOnce(run: seq<Event>, k: Id)
    ensures HandedSince(run, k) + Count(k in Final(run).sessions && Rank(Final(run).sessions[k].status) < 2)
            <= Count(TimesOpened(run, k) > 0)
  {
    if run != [] {
      var e := run[|run| - 1];
      MaterialAtMostOnce(run[..|run| - 1], k);
      HandedSpends(Final(run[..|run| - 1]), e.at, e.op, k);
    }
  }

  predicate Has(owners: map<Id, Owner>, k: Id, w: Owner) { k in owners && owners[k] == w }

  /** How often a run received callback owner `w` with a session opened under id `k`, ... */
  ghost function OwnersTaken(run: seq<Event>, k: Id, w: Owner): nat {
    if run == [] then 0 else
    OwnersTaken(run[..|run| - 1], k, w)
      + Count(run[|run| - 1].op.Create? && After(run).reply == NewId(k) && run[|run| - 1].op.request.owner == Some(w))
  }

  /** ... stopped it there, ... */
  ghost function OwnersStopped(run: seq<Event>, k: Id, w: Owner): nat {
    if run == [] then 0 else OwnersStopped(run[..|run| - 1], k, w) + Count(Has(After(run).stopped, k, w))
  }

  /** ... or lost it to eviction, which never calls `StopAndJoin`. */
  ghost function OwnersDropped(run: seq<Event>, k: Id, w: Owner): nat {
    if run == [] then 0 else OwnersDropped(run[..|run| - 1], k, w) + Count(Has(After(run).dropped, k, w))
  }

  ghost function Holding(r: Registry, k: Id, w: Owner): nat { Count(k in r.sessions && r.sessions[k].owner == Some(w)) }

  lemma {:induction false} KeptOwners(r: Registry, now: nat, k: Id, w: Owner)
    ensures var kept := Kept(r.sessions, now);
            Count(Has(SweptOwners(r.sessions, now), k, w)) + Count(Has(Owners(Sweep(r.sessions, now)) - kept.Keys, k, w))
              + Holding(r.(sessions := kept), k, w)
            == Holding(r, k, w)
  {
    KeptAt(r.sessions, now, k);
  }

  lemma {:induction false} CreateOwners(r: Registry, now: nat, q: StartRequest, ids: nat -> Id, k: Id, w: Owner)
    ensures var o := CreateStep(r, now, q, ids);
            Count(Has(o.stopped, k, w)) + Count(Has(o.dropped, k, w)) + Holding(o.state, k, w)
            == Holding(r, k, w) + Count(o.reply == NewId(k) && q.owner == Some(w))
  {
    if WellFormed(q) && q.expiresAt > now {
      KeptOwners(r, now, k, w);
      AdmitAt(r.(sessions := Kept(r.sessions, now)), q, ids, k);
    }
  }

  lemma {:induction false} OwnerConserved(r: Registry, now: nat, op: Op, k: Id, w: Owner)
    ensures var o := Step(r, now, op);
            Count(Has(o.stopped, k, w)) + Count(Has(o.dropped, k, w)) + Holding(o.state, k, w)
            == Holding(r, k, w) + Count(op.Create? && o.reply == NewId(k) && op.request.owner == Some(w))
    ensures op.ReceiveCallback? || op.ReceiveDenied? ==> Step(r, now, op).stopped == map[]
  {
    if op.Create? {
      CreateOwners(r, now, op.request, op.ids, k, w);
    } else if OnSession(op) {
      SessionOwners(r, now, op, k, w);
    }
  }

  lemma {:induction false} SessionOwners(r: Registry, now: nat, op: Op, k: Id, w: Owner)
    requires OnSession(op)
    ensures var o := Step(r, now, op);
            && Count(Has(o.stopped, k, w)) + Holding(o.state, k, w) == Holding(r, k, w) && o.dropped == map[]
            && (op.ReceiveCallback? || op.ReceiveDenied? ==> o.stopped == map[])
  {}

  /** Conservation of callback owners: each one taken with a session is stopped there once, or
      dropped there once by an eviction, or still held there; so none is ever stopped twice, and
      none is stopped for a session it was not given to. */
  lemma {:induction false} OwnersConserved(run: seq<Event>, k: Id, w: Owner)
    ensures OwnersTaken(run, k, w) == OwnersStopped(run, k, w) + OwnersDropped(run, k, w) + Holding(Final(run), k, w)
  {
    if run != [] {
      var e := run[|run| - 1];
      OwnersConserved(run[..|run| - 1], k, w);
      OwnerConserved(Final(run[..|run| - 1]), e.at, e.op, k, w);
    }
  }

  // ---------------------------------------------------------------- completion ownership

  ghost predicate Finishes(op: Op, k: Id) {
    (op.FinishAuthorized? || op.FinishFailed?) && op.id == k
  }

  /** No call but its own Finish touches a session that is being completed, except that
      `StopCallback` may take its callback owner. */
  lemma {:induction false} CompletingIsExclusive(r: Registry, now: nat, op: Op, k: Id)
    requires k in r.sessions && r.sessions[k].status.Completing? && !Finishes(op, k)
    ensures var m := Step(r, now, op).state.sessions;
            k in m && m[k].(owner := None) == r.sessions[k].(owner := None)
  {
    StepMoves(r, now, op, k);
  }

  /** The state a run of calls leads to from `r`. */
  ghost function From(r: Registry, run: seq<Event>): Registry {
    if run == [] then r else
    var e := run[|run| - 1];
    Step(From(r, run[..|run| - 1]), e.at, e.op).state
  }

  /** Exclusive completion ownership: after `BeginCompletion` handed out the material, whatever
      other calls, clock advances, sweeps and evictions follow, `FinishAuthorized` and
      `FinishFailed` by the owner cannot be refused. */
  lemma {:induction false} FinishCannotBeRefused(r: Registry, began: nat, k: Id, run: seq<Event>, now: nat, fault: Fault)
    requires Step(r, began, BeginCompletion(k)).reply.Handed?
    requires forall e :: e in run ==> !Finishes(e.op, k)
    ensures var r' := From(Step(r, began, BeginCompletion(k)).state, run);
            && k in r'.sessions && r'.sessions[k].status.Completing?
            && Step(r', now, FinishAuthorized(k)).reply == Done
            && Step(r', now, FinishAuthorized(k)).state.sessions[k].status == Authorized
            && Step(r', now, FinishFailed(k, fault)).reply == Done
            && Step(r', now, FinishFailed(k, fault)).state.sessions[k].fault == Some(fault)
  {
    if run != [] {
      var e := run[|run| - 1];
      FinishCannotBeRefused(r, began, k, run[..|run| - 1], now, fault);
      CompletingIsExclusive(From(Step(r, began, BeginCompletion(k)).state, run[..|run| - 1]), e.at, e.op, k);
    }
  }
}
