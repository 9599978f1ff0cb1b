/**
 `AuthSessionRegistry` as the object it is: two maps updated in place by sweep, evict and
 retry loops. Each method is proved to perform exactly one step of `AuthRegistry.Step`.
 */
module AuthRegistryImpl {
  import opened Wrappers
  import opened IdOrder
  import opened AuthRegistry
  import ConstantTime

  /** The sessions when only those in `done` have been swept, and the owners released so far. */
  ghost function PartSwept(m: Sessions, now: nat, done: set<Id>): Sessions {
    map k | k in m :: if k in done then Expire(m[k], now, true).session else m[k]
  }

  ghost function PartOwners(m: Sessions, now: nat, done: set<Id>): map<Id, Owner> {
    map k | k in done && k in m && Expire(m[k], now, true).owner.Some? :: Expire(m[k], now, true).owner.value
  }

  lemma SweptNone(m: Sessions, now: nat)
    ensures PartSwept(m, now, {}) == m && PartOwners(m, now, {}) == map[]
  {}

  lemma SweptAll(m: Sessions, now: nat)
    ensures PartSwept(m, now, m.Keys) == Sweep(m, now)
    ensures PartOwners(m, now, m.Keys) == SweptOwners(m, now)
  {}

  lemma SweptOneMore(m: Sessions, now: nat, done: set<Id>, k: Id)
    requires k in m && k !in done
    ensures var e := Expire(m[k], now, true);
            && PartSwept(m, now, done)[k] == m[k]
            && PartSwept(m, now, done + {k}) == PartSwept(m, now, done)[k := e.session]
            && PartOwners(m, now, done + {k}) ==
               if e.owner.Some? then PartOwners(m, now, done)[k := e.owner.value] else PartOwners(m, now, done)
  {}

  class AuthSessionRegistry {
    var sessions: Sessions
    var credentials: Credentials

    function State(): Registry
      reads this
    {
      Registry(sessions, credentials)
    }

    /** The call at `now` had the effect, the answer and the stopped owners of `op`. */
    ghost predicate Performed(before: Registry, now: nat, op: Op, reply: Reply, stopped: map<Id, Owner>)
      reads this
    {
      var o := Step(before, now, op);
      State() == o.state && reply == o.reply && stopped == o.stopped
    }

    constructor ()
      ensures State() == EMPTY
    {
      sessions, credentials := map[], map[];
    }

    method TerminalLocked(id: Id, status: Status, fault: Option<Fault>, release: bool) returns (owner: Option<Owner>)
      requires id in sessions
      modifies this
      ensures credentials == old(credentials)
      ensures sessions == old(sessions)[id := End(old(sessions)[id], status, fault, release).session]
      ensures owner == End(old(sessions)[id], status, fault, release).owner
    {
      owner := None;
      var s := sessions[id];
      if Terminal(s.status) { return; }
      s := s.(status := status);
      s := s.(fault := fault);
      s := s.(expectedState := "");
      s := s.(verifier := "");
      s := s.(code := "");
      if release {
        owner := s.owner;
        s := s.(owner := None);
      }
      sessions := sessions[id := s];
    }

    method ExpireLocked(id: Id, now: nat, release: bool) returns (owner: Option<Owner>)
      requires id in sessions
      modifies this
      ensures credentials == old(credentials)
      ensures sessions == old(sessions)[id := Expire(old(sessions)[id], now, release).session]
      ensures owner == Expire(old(sessions)[id], now, release).owner
    {
      owner := None;
      var s := sessions[id];
      if s.status != Completing && !Terminal(s.status) && now >= s.expiresAt {
        owner := TerminalLocked(id, Status.Expired, Some(SessionExpired), release);
      }
    }

    /** The sweep over all sessions that opens `Create`. */
    method SweepAll(now: nat) returns (stopped: map<Id, Owner>)
      modifies this
      ensures credentials == old(credentials)
      ensures sessions == Sweep(old(sessions), now)
      ensures stopped == SweptOwners(old(sessions), now)
    {
      stopped := map[];
      ghost var start, done := sessions, {};
      var todo := sessions.Keys;
      SweptNone(start, now);
      while todo != {}
        invariant credentials == old(credentials)
        invariant done == start.Keys - todo && todo <= start.Keys
        invariant sessions == PartSwept(start, now, done)
        invariant stopped == PartOwners(start, now, done)
        decreases |todo|
      {
        var k :| k in todo;
        SweptOneMore(start, now, done, k);
        var owner := ExpireLocked(k, now, true);
        if owner.Some? { stopped := stopped[k := owner.value]; }
        todo, done := todo - {k}, done + {k};
      }
      SweptAll(start, now);
      assert done == start.Keys;
    }

    /** `std::find_if` over the ordered map for the first terminal session. */
    method FirstTerminal() returns (found: Option<Id>)
      ensures found.None? <==> TerminalIds(sessions) == {}
      ensures found.Some? ==> found.value == First(TerminalIds(sessions))
    {
      found := None;
      var todo := sessions.Keys;
      while todo != {}
        invariant todo <= sessions.Keys
        invariant found.None? ==> forall k :: k in TerminalIds(sessions) ==> k in todo
        invariant found.Some? ==> IsFirst(found.value, TerminalIds(sessions) - todo)
        decreases |todo|
      {
        var k :| k in todo;
        ghost var seen := TerminalIds(sessions) - todo;
        if Terminal(sessions[k].status) {
          LeTotal(k, k);
          if found.None? {
            found := Some(k);
          } else {
            LeTotal(k, found.value);
            if Le(k, found.value) {
              forall j | j in seen ensures Le(k, j) { LeTransitive(k, found.value, j); }
              found := Some(k);
            }
          }
        }
        todo := todo - {k};
      }
      assert TerminalIds(sessions) - {} == TerminalIds(sessions);
      if found.Some? { FirstUnique(found.value, First(TerminalIds(sessions)), TerminalIds(sessions)); }
    }

    method EvictTerminal()
      modifies this
      ensures credentials == old(credentials)
      ensures sessions == Evict(old(sessions))
    {
      while |sessions| >= MAX_SESSIONS
        invariant credentials == old(credentials)
        invariant Evict(sessions) == Evict(old(sessions))
        decreases |sessions|
      {
        var victim := FirstTerminal();
        if victim.None? { break; }
        assert (sessions - {victim.value}).Keys == sessions.Keys - {victim.value};
        sessions := sessions - {victim.value};
      }
    }

    method CountActive() returns (active: nat)
      ensures active == |ActiveIds(sessions)|
    {
      active := 0;
      var todo := sessions.Keys;
      ghost var counted := {};
      while todo != {}
        invariant todo <= sessions.Keys
        invariant counted == ActiveIds(sessions) - todo && active == |counted|
        decreases |todo|
      {
        var k :| k in todo;
        todo := todo - {k};
        if !Terminal(sessions[k].status) {
          active := active + 1;
          counted := counted + {k};
        }
      }
      assert ActiveIds(sessions) - {} == ActiveIds(sessions);
    }

    method DrawId(ids: nat -> Id) returns (id: Id)
      ensures id == FreeId(State(), ids)
    {
      id := "";
      for attempt := 0 to ID_ATTEMPTS
        invariant id == ""
        invariant FreeId(State(), ids) == Draw(Taken(State()), ids, ID_ATTEMPTS - attempt)
      {
        id := ids(attempt);
        if id !in sessions && id !in credentials { return; }
        id := "";
      }
    }

    method Create(now: nat, request: StartRequest, ids: nat -> Id) returns (reply: Reply, stopped: map<Id, Owner>)
      modifies this
      ensures Performed(old(State()), now, Op.Create(request, ids), reply, stopped)
    {
      stopped := map[];
      if request.expectedState == "" || request.verifier == "" || request.expiresAt == 0 {
        return Threw(CallbackProtocolError), stopped;
      }
      if request.expiresAt <= now { return Threw(SessionExpired), stopped; }
      stopped := SweepAll(now);
      EvictTerminal();
      var active := CountActive();
      if active >= MAX_ACTIVE { return Threw(SessionLimitReached), stopped; }
      var id := DrawId(ids);
      if id == "" { return Threw(SessionLimitReached), stopped; }
      sessions := sessions[id := Opened(request)];
      reply := NewId(id);
    }

    method TakeSnapshot(now: nat, id: Id) returns (reply: Reply, stopped: map<Id, Owner>)
      modifies this
      ensures Performed(old(State()), now, Op.TakeSnapshot(id), reply, stopped)
    {
      if id !in sessions { return Threw(SessionNotFound), map[]; }
      var owner := ExpireLocked(id, now, true);
      if Terminal(sessions[id].status) && owner.None? {
        owner := sessions[id].owner;
        sessions := sessions[id := sessions[id].(owner := None)];
      }
      var s := sessions[id];
      reply := Seen(Snapshot(s.status, s.secretName, s.expiresUtc, s.fault));
      stopped := Only(id, owner);
    }

    method ReceiveCallback(now: nat, id: Id, state: string, code: string) returns (reply: Reply, stopped: map<Id, Owner>)
      modifies this
      ensures Performed(old(State()), now, Op.ReceiveCallback(id, state, code), reply, stopped)
    {
      if id !in sessions { return Threw(SessionNotFound), map[]; }
      var expired := ExpireLocked(id, now, false);
      stopped := Only(id, expired);
      if sessions[id].status != Pending || code == "" { return Threw(CallbackProtocolError), stopped; }
      var same := ConstantTime.ConstantTimeEquals(sessions[id].expectedState, state);
      if !same {
        expired := TerminalLocked(id, Failed, Some(StateMismatch), false);
        return Threw(StateMismatch), stopped;
      }
      var s := sessions[id].(code := code);
      s := s.(expectedState := "");
      s := s.(status := CallbackReceived);
      sessions := sessions[id := s];
      reply := Done;
    }

    method ReceiveDenied(now: nat, id: Id, state: string) returns (reply: Reply, stopped: map<Id, Owner>)
      modifies this
      ensures Performed(old(State()), now, Op.ReceiveDenied(id, state), reply, stopped)
    {
      stopped := map[];
      if id !in sessions { return Threw(SessionNotFound), stopped; }
      var unused := ExpireLocked(id, now, false);
      if sessions[id].status != Pending { return Threw(CallbackProtocolError), stopped; }
      var same := ConstantTime.ConstantTimeEquals(sessions[id].expectedState, state);
      if !same {
        unused := TerminalLocked(id, Failed, Some(StateMismatch), false);
        return Threw(StateMismatch), stopped;
      }
      unused := TerminalLocked(id, AccessDenied, Some(UserDenied), false);
      reply := Done;
    }

    method BeginCompletion(now: nat, id: Id) returns (reply: Reply, stopped: map<Id, Owner>)
      modifies this
      ensures Performed(old(State()), now, Op.BeginCompletion(id), reply, stopped)
    {
      if id !in sessions { return Threw(SessionNotFound), map[]; }
      var owner := ExpireLocked(id, now, true);
      stopped := Only(id, owner);
      var s := sessions[id];
      if s.status != CallbackReceived { return Threw(CallbackProtocolError), stopped; }
      reply := Handed(Material(s.code, s.verifier, s.loginOrigin, s.clientId, s.secretName));
      s := s.(status := Completing);
      s := s.(code := "", verifier := "");
      sessions := sessions[id := s];
    }

    method FinishAuthorized(now: nat, id: Id) returns (reply: Reply, stopped: map<Id, Owner>)
      modifies this
      ensures Performed(old(State()), now, Op.FinishAuthorized(id), reply, stopped)
    {
      if id !in sessions { return Threw(SessionNotFound), map[]; }
      if sessions[id].status != Completing { return Threw(CallbackProtocolError), map[]; }
      var owner := TerminalLocked(id, Authorized, None, true);
      return Done, Only(id, owner);
    }

    method FinishFailed(now: nat, id: Id, fault: Fault) returns (reply: Reply, stopped: map<Id, Owner>)
      modifies this
      ensures Performed(old(State()), now, Op.FinishFailed(id, fault), reply, stopped)
    {
      if id !in sessions { return Threw(SessionNotFound), map[]; }
      if sessions[id].status != Completing { return Threw(CallbackProtocolError), map[]; }
      var owner := TerminalLocked(id, Failed, Some(fault), true);
      return Done, Only(id, owner);
    }

    method Fail(now: nat, id: Id, fault: Fault) returns (reply: Reply, stopped: map<Id, Owner>)
      modifies this
      ensures Performed(old(State()), now, Op.Fail(id, fault), reply, stopped)
    {
      if id !in sessions { return Threw(SessionNotFound), map[]; }
      if sessions[id].status == Completing { return Done, map[]; }
      var owner := TerminalLocked(id, Failed, Some(fault), true);
      return Done, Only(id, owner);
    }

    method Cancel(now: nat, id: Id) returns (reply: Reply, stopped: map<Id, Owner>)
      modifies this
      ensures Performed(old(State()), now, Op.Cancel(id), reply, stopped)
    {
      if id !in sessions { return Threw(SessionNotFound), map[]; }
      if sessions[id].status == Completing { return Done, map[]; }
      var owner := TerminalLocked(id, Cancelled, None, true);
      return Done, Only(id, owner);
    }

    method StopCallback(now: nat, id: Id) returns (reply: Reply, stopped: map<Id, Owner>)
      modifies this
      ensures Performed(old(State()), now, Op.StopCallback(id), reply, stopped)
    {
      var owner := None;
      if id in sessions {
        owner := sessions[id].owner;
        sessions := sessions[id := sessions[id].(owner := None)];
      }
      return Done, Only(id, owner);
    }

    /** Erases the elapsed credentials while iterating over the map. */
    method PurgeCredentials(now: nat)
      modifies this
      ensures sessions == old(sessions)
      ensures credentials == Live(old(credentials), now)
    {
      var todo := credentials.Keys;
      while todo != {}
        invariant sessions == old(sessions)
        invariant todo <= credentials.Keys
        invariant credentials == map k | k in old(credentials) && (k in todo || now < old(credentials)[k].expiresAt)
                                 :: old(credentials)[k]
        decreases |todo|
      {
        var k :| k in todo;
        if now >= credentials[k].expiresAt { credentials := credentials - {k}; }
        todo := todo - {k};
      }
    }

    method StoreCredential(now: nat, instanceUrl: string, accessToken: string, expiresAt: nat, firstRead: nat, ids: nat -> Id)
      returns (reply: Reply, stopped: map<Id, Owner>)
      modifies this
      ensures Performed(old(State()), now, Op.StoreCredential(instanceUrl, accessToken, expiresAt, firstRead, ids), reply, stopped)
    {
      stopped := map[];
      if instanceUrl == "" || accessToken == "" || expiresAt <= firstRead { return Threw(ReauthRequired), stopped; }
      PurgeCredentials(now);
      if |credentials| >= MAX_CREDENTIALS { return Threw(SessionLimitReached), stopped; }
      var id := DrawId(ids);
      if id == "" { return Threw(SessionLimitReached), stopped; }
      credentials := credentials[id := Credential(instanceUrl, accessToken, expiresAt)];
      reply := NewId(id);
    }

    method ResolveCredential(now: nat, id: Id) returns (reply: Reply, stopped: map<Id, Owner>)
      modifies this
      ensures Performed(old(State()), now, Op.ResolveCredential(id), reply, stopped)
    {
      stopped := map[];
      if id !in credentials { return Threw(ReauthRequired), stopped; }
      if now >= credentials[id].expiresAt {
        credentials := credentials - {id};
        return Threw(ReauthRequired), stopped;
      }
      reply := Resolved(credentials[id].instanceUrl, credentials[id].accessToken);
    }

    method RemoveCredential(now: nat, id: Id) returns (reply: Reply, stopped: map<Id, Owner>)
      modifies this
      ensures Performed(old(State()), now, Op.RemoveCredential(id), reply, stopped)
    {
      credentials := credentials - {id};
      return Done, map[];
    }
  }
}
