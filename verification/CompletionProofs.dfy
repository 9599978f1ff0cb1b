/** Catalog, credentials and auth sessions stay coherent in every interleaving of completions. */
module CompletionProofs {
  import opened Wrappers
  import opened IdOrder
  import opened AuthRegistry
  import opened AuthRegistryProofs
  import opened Completion

  /** The credential outside the catalog a thread answers for. */
  function Pending(th: Thread): Option<Id> {
    match th
    case Stored(_, _, cid) => Some(cid)
    case Locked(_, _, cid) => Some(cid)
    case Read(_, _, cid, _) => Some(cid)
    case RolledBack(_, _, cid, _) => Some(cid)
    case Committed(_, _, cid, prior) => if prior.Some? && prior.value != cid then prior else None
    case Failing(_, cid) => cid
    case _ => None
  }

  /** The session a thread is completing. */
  function Owned(th: Thread): Option<Id> {
    match th
    case Looked(_, _) => None
    case Checked(sid, recorded) => if recorded then None else Some(sid)
    case _ => Some(th.sid)
  }

  // Views of a thread that need not exist.
  function PendingAt(s: System, t: Tid): Option<Id> { if t in s.threads then Pending(s.threads[t]) else None }
  function OwnedAt(s: System, t: Tid): Option<Id> { if t in s.threads then Owned(s.threads[t]) else None }
  function MutexAt(s: System, t: Tid): Option<Name> {
    if t in s.threads && HoldsMutex(s.threads[t]) then Some(s.threads[t].name) else None
  }

  /** Every stored credential has exactly one holder, and only an elapsed one can be missing. */
  ghost predicate Held(s: System) {
    && (forall n :: n in s.catalog ==> s.catalog[n] in s.holder && s.holder[s.catalog[n]] == ByName(n))
    && (forall t :: PendingAt(s, t).Some? ==> PendingAt(s, t).value in s.holder
                                              && s.holder[PendingAt(s, t).value] == ByThread(t))
    && (forall c :: c in s.holder ==>
          match s.holder[c]
          case ByName(n) => n in s.catalog && s.catalog[n] == c
          case ByThread(t) => PendingAt(s, t) == Some(c))
    && s.holder.Keys <= s.expiry.Keys <= s.issued
  }

  /** The credential a thread is about to install. */
  function NewAt(s: System, t: Tid): Option<Id> {
    if t in s.threads && (s.threads[t].Stored? || s.threads[t].Locked? || s.threads[t].Read?)
    then Some(s.threads[t].cid) else None
  }

  /** Stored, or gone only because its time is up. */
  ghost predicate Good(s: System, c: Id) {
    c in s.reg.credentials || (c in s.expiry && s.expiry[c] <= s.now)
  }

  ghost predicate Backed(s: System) {
    && (forall c :: c in s.reg.credentials ==> c in s.holder && c in s.expiry && s.reg.credentials[c].expiresAt == s.expiry[c])
    && (forall n :: n in s.catalog ==> Good(s, s.catalog[n]))
    && (forall t :: NewAt(s, t).Some? ==> Good(s, NewAt(s, t).value))
  }

  /** A stripe is locked if and only if the thread recorded for it is in the critical section of
      a name of that stripe, and what a thread read there is still current. */
  ghost predicate Guarded(hash: Name -> nat, s: System) {
    && (forall t :: MutexAt(s, t).Some? ==>
          Stripe(hash, MutexAt(s, t).value) in s.locks && s.locks[Stripe(hash, MutexAt(s, t).value)] == t)
    && (forall p :: p in s.locks ==>
          MutexAt(s, s.locks[p]).Some? && Stripe(hash, MutexAt(s, s.locks[p]).value) == p)
    && (forall t :: t in s.threads && s.threads[t].Read? ==> Find(s.catalog, s.threads[t].name) == s.threads[t].prior)
  }

  predicate IsCompleting(r: Registry, k: Id) { k in r.sessions && r.sessions[k].status.Completing? }
  predicate IsOver(r: Registry, k: Id) { k in r.sessions ==> Terminal(r.sessions[k].status) }

  /** Every completing thread exclusively owns a COMPLETING session. */
  ghost predicate Owning(s: System) {
    && (forall t :: OwnedAt(s, t).Some? ==> IsCompleting(s.reg, OwnedAt(s, t).value))
    && (forall t, u :: OwnedAt(s, t).Some? && OwnedAt(s, t) == OwnedAt(s, u) ==> t == u)
    && (forall t :: t in s.threads && s.threads[t].Checked? && s.threads[t].recorded ==>
          s.threads[t].sid in s.issued && IsOver(s.reg, s.threads[t].sid))
    && s.reg.sessions.Keys <= s.issued
  }

  ghost predicate SystemInv(hash: Name -> nat, s: System) {
    Held(s) && Backed(s) && Guarded(hash, s) && Owning(s)
  }

  // ---------------------------------------------------------------- credentials

  /** Steps that leave the credentials, the catalog and the pending ones alone. */
  lemma {:induction false} HeldFrame(s: System, s': System)
    requires Held(s) && Backed(s)
    requires s'.reg.credentials == s.reg.credentials && s'.catalog == s.catalog && s'.now == s.now
    requires s'.holder == s.holder && s'.expiry == s.expiry && s.issued <= s'.issued
    requires forall t :: PendingAt(s', t) == PendingAt(s, t)
    requires forall t :: NewAt(s', t).Some? ==> NewAt(s', t) == NewAt(s, t)
    ensures Held(s') && Backed(s')
  {}

  /** Elapsed credentials may vanish at any time. */
  lemma {:induction false} PurgeKeeps(s: System, s': System)
    requires Held(s) && Backed(s)
    requires s' == s.(reg := s'.reg)
    requires s'.reg.credentials.Keys <= s.reg.credentials.Keys
    requires forall c :: c in s'.reg.credentials ==> s'.reg.credentials[c] == s.reg.credentials[c]
    requires forall c :: c in s.reg.credentials && c !in s'.reg.credentials ==> s.reg.credentials[c].expiresAt <= s.now
    ensures Held(s') && Backed(s')
  {
    assert forall t :: PendingAt(s', t) == PendingAt(s, t) && NewAt(s', t) == NewAt(s, t);
  }

  /** A new credential, held by the thread that stored it. */
  function Insert(s: System, t: Tid, th: Thread, c: Id, cred: Credential): System {
    To(s, t, th).(reg := s.reg.(credentials := s.reg.credentials[c := cred]), issued := s.issued + {c},
                  expiry := s.expiry[c := cred.expiresAt], holder := s.holder[c := ByThread(t)])
  }

  lemma {:induction false} InsertViews(s: System, t: Tid, th: Thread, c: Id, cred: Credential)
    ensures var s' := Insert(s, t, th, c, cred);
            forall u :: u != t ==> PendingAt(s', u) == PendingAt(s, u) && NewAt(s', u) == NewAt(s, u)
  {
    ViewsElsewhere(s, Insert(s, t, th, c, cred), t, th);
  }

  lemma {:induction false} ViewsElsewhere(s: System, s': System, t: Tid, th: Thread)
    requires s'.threads == s.threads[t := th]
    ensures forall u :: u != t ==> PendingAt(s', u) == PendingAt(s, u) && NewAt(s', u) == NewAt(s, u)
  {}

  lemma {:induction false} InsertHeld(s: System, t: Tid, th: Thread, c: Id, cred: Credential)
    requires Held(s) && PendingAt(s, t).None? && c !in s.issued && Pending(th) == Some(c)
    ensures Held(Insert(s, t, th, c, cred))
  {
    InsertViews(s, t, th, c, cred);
  }

  lemma {:induction false} InsertKeeps(s: System, t: Tid, th: Thread, c: Id, cred: Credential)
    requires Held(s) && Backed(s) && PendingAt(s, t).None? && c !in s.issued && Pending(th) == Some(c)
    ensures var s' := Insert(s, t, th, c, cred); Held(s') && Backed(s')
  {
    InsertViews(s, t, th, c, cred);
    InsertHeld(s, t, th, c, cred);
  }

  lemma {:induction false} StoreShape(r: Registry, now: nat, op: Op)
    requires op.StoreCredential?
    ensures var o, live := Step(r, now, op), Live(r.credentials, now);
            && o.state.sessions == r.sessions
            && if o.reply.NewId?
               then o.state.credentials == live[o.reply.id := Credential(op.instanceUrl, op.accessToken, op.expiresAt)]
               else o.state.credentials == r.credentials || o.state.credentials == live
  {
    StoreStepShape(r, now, op.instanceUrl, op.accessToken, op.expiresAt, op.firstRead, op.ids);
  }

  lemma {:induction false} StoreStepShape(r: Registry, now: nat, url: string, token: string, expiresAt: nat, firstRead: nat, ids: nat -> Id)
    ensures var o, live := StoreStep(r, now, url, token, expiresAt, firstRead, ids), Live(r.credentials, now);
            && o.state.sessions == r.sessions
            && if o.reply.NewId? then o.state.credentials == live[o.reply.id := Credential(url, token, expiresAt)]
               else o.state.credentials == r.credentials || o.state.credentials == live
  {}

  lemma {:induction false} PurgedKeeps(s: System)
    requires Held(s) && Backed(s)
    ensures var s' := s.(reg := s.reg.(credentials := Live(s.reg.credentials, s.now))); Held(s') && Backed(s')
  {
    PurgeKeeps(s, s.(reg := s.reg.(credentials := Live(s.reg.credentials, s.now))));
  }

  lemma {:induction false} StoreKeeps(s: System, t: Tid, th: Thread, op: Op)
    requires Held(s) && Backed(s) && t in s.threads && s.threads[t] == th && th.Exchanged? && op.StoreCredential?
    requires DoStore(s, t, th, op).Some?
    ensures var s' := DoStore(s, t, th, op).value; Held(s') && Backed(s')
  {
    StoreShape(s.reg, s.now, op);
    PurgedKeeps(s);
    var live := s.(reg := s.reg.(credentials := Live(s.reg.credentials, s.now)));
    if Answer(s, op).NewId? { StoredKeeps(s, live, t, th, op); } else { RefusedKeeps(s, live, t, th, op); }
  }

  lemma {:induction false} StoredKeeps(s: System, live: System, t: Tid, th: Thread, op: Op)
    requires live == s.(reg := live.reg) && live.reg.sessions == s.reg.sessions && Held(live) && Backed(live)
    requires t in s.threads && s.threads[t] == th && th.Exchanged? && op.StoreCredential?
    requires Answer(s, op).NewId? && Answer(s, op).id !in s.issued
    requires var cred := Credential(op.instanceUrl, op.accessToken, op.expiresAt);
             Call(s, op).reg == live.reg.(credentials := live.reg.credentials[Answer(s, op).id := cred])
    ensures var s' := DoStore(s, t, th, op).value; Held(s') && Backed(s')
  {
    var c := Answer(s, op).id;
    InsertKeeps(live, t, Stored(th.sid, th.name, c), c, Credential(op.instanceUrl, op.accessToken, op.expiresAt));
  }

  lemma {:induction false} RefusedKeeps(s: System, live: System, t: Tid, th: Thread, op: Op)
    requires live == s.(reg := live.reg) && Held(live) && Backed(live) && Held(s) && Backed(s)
    requires t in s.threads && s.threads[t] == th && th.Exchanged? && op.StoreCredential?
    requires !Answer(s, op).NewId?
    requires Call(s, op).reg.credentials == live.reg.credentials || Call(s, op).reg.credentials == s.reg.credentials
    ensures var s' := DoStore(s, t, th, op).value; Held(s') && Backed(s')
  {
    var s' := DoStore(s, t, th, op).value;
    assert s' == To(Call(s, op), t, Failing(th.sid, None));
    RefusedViews(s, t, th, s');
    if s'.reg.credentials == s.reg.credentials {
      HeldFrame(s, s');
    } else {
      RefusedViews(live, t, th, s');
      HeldFrame(live, s');
    }
  }

  lemma {:induction false} RefusedViews(s: System, t: Tid, th: Thread, s': System)
    requires t in s.threads && s.threads[t] == th && th.Exchanged? && s'.threads == s.threads[t := Failing(th.sid, None)]
    ensures forall u :: PendingAt(s', u) == PendingAt(s, u)
    ensures forall u :: NewAt(s', u).Some? ==> NewAt(s', u) == NewAt(s, u)
  {}

  lemma {:induction false} CommitViews(s: System, t: Tid, th: Thread)
    requires Held(s) && t in s.threads && s.threads[t] == th && th.Read? && th.prior == Find(s.catalog, th.name)
    ensures var s' := DoCommit(s, t, th);
            && PendingAt(s, t) == Some(th.cid) == NewAt(s, t)
            && (th.prior.Some? ==> th.prior.value != th.cid)
            && PendingAt(s', t) == th.prior && NewAt(s', t).None?
            && (forall u :: u != t ==> PendingAt(s', u) == PendingAt(s, u) && NewAt(s', u) == NewAt(s, u))
  {}

  lemma {:induction false} CommitHeld(s: System, t: Tid, th: Thread)
    requires Held(s) && t in s.threads && s.threads[t] == th && th.Read? && th.prior == Find(s.catalog, th.name)
    ensures Held(DoCommit(s, t, th))
  {
    CommitViews(s, t, th);
  }

  lemma {:induction false} CommitBacked(s: System, t: Tid, th: Thread)
    requires Held(s) && Backed(s)
    requires t in s.threads && s.threads[t] == th && th.Read? && th.prior == Find(s.catalog, th.name)
    ensures Backed(DoCommit(s, t, th))
  {
    CommitViews(s, t, th);
    assert Good(s, th.cid);
    assert forall c :: Good(s, c) ==> Good(DoCommit(s, t, th), c);
  }

  lemma {:induction false} ForgetViews(s: System, t: Tid, th: Thread, c: Id)
    requires Held(s) && PendingAt(s, t) == Some(c) && Pending(th).None?
    ensures var s' := To(Forget(s, t, c), t, th);
            && PendingAt(s', t).None? && NewAt(s', t).None?
            && (forall u :: u != t ==> PendingAt(s', u) == PendingAt(s, u) && NewAt(s', u) == NewAt(s, u))
            && (forall u :: u != t ==> PendingAt(s, u) != Some(c) && NewAt(s, u) != Some(c))
  {
    assert forall u :: NewAt(s, u).Some? ==> PendingAt(s, u) == NewAt(s, u);
  }

  /** Removing a credential its thread answers for, and dropping it from the holders. */
  lemma {:induction false} ForgetHeld(s: System, t: Tid, th: Thread, c: Id)
    requires Held(s) && PendingAt(s, t) == Some(c) && Pending(th).None?
    ensures Held(To(Forget(s, t, c), t, th))
  {
    ForgetViews(s, t, th, c);
  }

  lemma {:induction false} ForgetBacked(s: System, t: Tid, th: Thread, c: Id)
    requires Held(s) && Backed(s) && PendingAt(s, t) == Some(c) && Pending(th).None?
    ensures Backed(To(Forget(s, t, c), t, th))
  {
    ForgetViews(s, t, th, c);
    assert forall d :: d != c && Good(s, d) ==> Good(To(Forget(s, t, c), t, th), d);
  }

  /** Removing it early, while the thread still answers for it. */
  lemma {:induction false} UndoKeeps(s: System, t: Tid, c: Id)
    requires Held(s) && Backed(s) && PendingAt(s, t) == Some(c) && NewAt(s, t).None?
    ensures var s' := Call(s, RemoveCredential(c)); Held(s') && Backed(s')
  {
    var s' := Call(s, RemoveCredential(c));
    assert forall u :: PendingAt(s', u) == PendingAt(s, u) && NewAt(s', u) == NewAt(s, u);
    assert forall u :: NewAt(s, u).Some? ==> PendingAt(s, u) == NewAt(s, u);
  }

  // ---------------------------------------------------------------- the striped mutex

  lemma {:induction false} GuardedFrame(hash: Name -> nat, s: System, s': System)
    requires Guarded(hash, s) && s'.locks == s.locks && s'.catalog == s.catalog
    requires forall t :: MutexAt(s', t) == MutexAt(s, t)
    requires forall t :: t in s'.threads && s'.threads[t].Read? ==>
               (t in s.threads && s'.threads[t] == s.threads[t]) || Find(s.catalog, s'.threads[t].name) == s'.threads[t].prior
    ensures Guarded(hash, s')
  {}

  /** A commit cannot invalidate what another thread has read: that thread holds another mutex. */
  lemma {:induction false} CommitGuarded(hash: Name -> nat, s: System, t: Tid, th: Thread)
    requires Guarded(hash, s) && t in s.threads && s.threads[t] == th && th.Read?
    ensures Guarded(hash, DoCommit(s, t, th))
  {
    var s' := DoCommit(s, t, th);
    assert MutexAt(s, t) == Some(th.name);
    assert forall u :: MutexAt(s', u) == MutexAt(s, u);
    forall u | u in s'.threads && s'.threads[u].Read?
      ensures Find(s'.catalog, s'.threads[u].name) == s'.threads[u].prior
    {
      assert u != t && MutexAt(s, u) == Some(s.threads[u].name);
    }
  }

  lemma {:induction false} AcquireGuarded(hash: Name -> nat, s: System, t: Tid, th: Thread)
    requires Guarded(hash, s) && th.Locked? && Stripe(hash, th.name) !in s.locks && MutexAt(s, t).None?
    ensures Guarded(hash, To(s, t, th).(locks := s.locks[Stripe(hash, th.name) := t]))
  {
    var s' := To(s, t, th).(locks := s.locks[Stripe(hash, th.name) := t]);
    assert MutexAt(s', t) == Some(th.name);
    assert forall u :: u != t ==> MutexAt(s', u) == MutexAt(s, u);
  }

  lemma {:induction false} ReleaseGuarded(hash: Name -> nat, s: System, t: Tid, th: Thread, name: Name)
    requires Guarded(hash, s) && MutexAt(s, t) == Some(name) && !HoldsMutex(th)
    ensures Guarded(hash, To(s, t, th).(locks := s.locks - {Stripe(hash, name)}))
  {
    var s' := To(s, t, th).(locks := s.locks - {Stripe(hash, name)});
    assert MutexAt(s', t).None?;
    assert forall u :: u != t ==> MutexAt(s', u) == MutexAt(s, u);
  }

  // ---------------------------------------------------------------- session ownership

  /** A registry call that finishes no owned session leaves all ownership intact. */
  lemma {:induction false} CallOwning(s: System, op: Op)
    requires Owning(s) && Fresh(s, Answer(s, op))
    requires forall t :: OwnedAt(s, t).Some? ==> !Finishes(op, OwnedAt(s, t).value)
    ensures Owning(Issue(Call(s, op), Answer(s, op)))
  {
    var s' := Issue(Call(s, op), Answer(s, op));
    assert forall t :: OwnedAt(s', t) == OwnedAt(s, t);
    forall t | OwnedAt(s, t).Some? ensures IsCompleting(s'.reg, OwnedAt(s, t).value) {
      CompletingIsExclusive(s.reg, s.now, op, OwnedAt(s, t).value);
    }
    forall k | k in s.issued && IsOver(s.reg, k) ensures IsOver(s'.reg, k) {
      OverStays(s, op, k);
    }
    forall k | k in s'.reg.sessions ensures k in s'.issued {
      SessionsAreIssued(s, op, k);
    }
  }

  /** A session that is over stays over, or is gone: its id is not issued again. */
  lemma {:induction false} OverStays(s: System, op: Op, k: Id)
    requires k in s.issued && IsOver(s.reg, k) && Fresh(s, Answer(s, op))
    ensures IsOver(Call(s, op).reg, k)
  {
    StepMoves(s.reg, s.now, op, k);
  }

  lemma {:induction false} SessionsAreIssued(s: System, op: Op, k: Id)
    requires s.reg.sessions.Keys <= s.issued && k in Call(s, op).reg.sessions
    ensures k in Issue(Call(s, op), Answer(s, op)).issued
  {
    StepMoves(s.reg, s.now, op, k);
  }

  /** A thread whose ownership does not change. */
  lemma {:induction false} OwningFrame(s: System, s': System)
    requires Owning(s) && s'.reg.sessions == s.reg.sessions && s.issued <= s'.issued
    requires forall t :: OwnedAt(s', t).Some? ==> OwnedAt(s', t) == OwnedAt(s, t)
    requires forall t :: t in s'.threads && s'.threads[t].Checked? && s'.threads[t].recorded ==>
               t in s.threads && s'.threads[t] == s.threads[t]
    ensures Owning(s')
  {}

  lemma {:induction false} BeginOwning(s: System, t: Tid, th: Thread)
    requires Owning(s) && t in s.threads && s.threads[t] == th && th.Looked?
    requires Answer(s, BeginCompletion(th.sid)).Handed?
    ensures Owning(To(Call(s, BeginCompletion(th.sid)), t, Began(th.sid, th.name)))
  {
    var op := BeginCompletion(th.sid);
    CallOwning(s, op);
    var s1 := Call(s, op);
    var s' := To(s1, t, Began(th.sid, th.name));
    // Nobody owns a session that is still CALLBACK_RECEIVED.
    assert forall u :: OwnedAt(s, u) != Some(th.sid);
    assert IsCompleting(s'.reg, th.sid);
    assert forall u :: u != t ==> OwnedAt(s', u) == OwnedAt(s1, u) == OwnedAt(s, u);
  }

  /** Finishing the session one owns, and giving up the ownership. */
  lemma {:induction false} FinishOwning(s: System, t: Tid, op: Op)
    requires Owning(s) && OwnedAt(s, t).Some? && Finishes(op, OwnedAt(s, t).value)
    ensures Answer(s, op) == Done
    ensures Owning(Leave(Call(s, op), t))
    ensures var k := OwnedAt(s, t).value; k in s.issued && IsOver(Call(s, op).reg, k)
  {
    var k := OwnedAt(s, t).value;
    assert IsCompleting(s.reg, k);
    var gone := Leave(s, t);
    assert forall u :: u != t ==> OwnedAt(gone, u) == OwnedAt(s, u);
    assert OwnedAt(gone, t).None?;
    CallOwning(gone, op);
  }

  lemma {:induction false} CheckedOwning(s: System, t: Tid, sid: Id)
    requires Owning(s) && t !in s.threads && sid in s.issued && IsOver(s.reg, sid)
    ensures Owning(To(s, t, Checked(sid, true)))
  {
    var s' := To(s, t, Checked(sid, true));
    assert forall u :: OwnedAt(s', u) == OwnedAt(s, u);
  }

  // ---------------------------------------------------------------- every step

  /** Calls that never touch the credentials. */
  lemma {:induction false} CredentialsUntouched(r: Registry, now: nat, op: Op)
    requires !op.StoreCredential? && !op.ResolveCredential? && !op.RemoveCredential?
    ensures Step(r, now, op).state.credentials == r.credentials
  {}

  lemma {:induction false} CallKeeps(hash: Name -> nat, s: System, op: Op)
    requires SystemInv(hash, s) && Fresh(s, Answer(s, op)) && (Outside(op) || op.BeginCompletion?)
    ensures SystemInv(hash, Issue(Call(s, op), Answer(s, op)))
  {
    var s' := Issue(Call(s, op), Answer(s, op));
    CallOwning(s, op);
    assert forall t :: MutexAt(s', t) == MutexAt(s, t);
    GuardedFrame(hash, s, s');
    CallHeld(s, op);
  }

  lemma {:induction false} CallHeld(s: System, op: Op)
    requires Held(s) && Backed(s) && (Outside(op) || op.BeginCompletion?)
    ensures var s' := Issue(Call(s, op), Answer(s, op)); Held(s') && Backed(s')
  {
    var s' := Issue(Call(s, op), Answer(s, op));
    if op.ResolveCredential? {
      assert s' == s.(reg := s'.reg);
      PurgeKeeps(s, s');
    } else {
      CredentialsUntouched(s.reg, s.now, op);
      assert forall t :: PendingAt(s', t) == PendingAt(s, t) && NewAt(s', t) == NewAt(s, t);
      HeldFrame(s, s');
    }
  }

  /** A thread appears, goes, or moves between points at which it answers for the same things. */
  lemma {:induction false} PassKeeps(hash: Name -> nat, s: System, s': System, t: Tid)
    requires SystemInv(hash, s) && s' == s.(threads := s'.threads)
    requires forall u :: u != t ==> (u in s.threads <==> u in s'.threads) && (u in s.threads ==> s.threads[u] == s'.threads[u])
    requires PendingAt(s', t) == PendingAt(s, t) && MutexAt(s', t) == MutexAt(s, t)
    requires OwnedAt(s', t).None? || OwnedAt(s', t) == OwnedAt(s, t)
    requires NewAt(s', t).None? || NewAt(s', t) == NewAt(s, t)
    requires t in s'.threads ==> !(s'.threads[t].Checked? && s'.threads[t].recorded)
    requires t in s'.threads && s'.threads[t].Read? ==> s'.threads[t].prior == Find(s.catalog, s'.threads[t].name)
    ensures SystemInv(hash, s')
  {
    assert forall u :: PendingAt(s', u) == PendingAt(s, u) && MutexAt(s', u) == MutexAt(s, u);
    HeldFrame(s, s');
    GuardedFrame(hash, s, s');
    OwningFrame(s, s');
  }

  lemma {:induction false} BeganHeld(hash: Name -> nat, s: System, t: Tid, th: Thread)
    requires Held(s) && Backed(s) && Guarded(hash, s) && t in s.threads && s.threads[t] == th && th.Looked?
    ensures var s' := To(s, t, Began(th.sid, th.name)); Held(s') && Backed(s') && Guarded(hash, s')
  {
    var s' := To(s, t, Began(th.sid, th.name));
    assert forall u :: PendingAt(s', u) == PendingAt(s, u) && NewAt(s', u) == NewAt(s, u) && MutexAt(s', u) == MutexAt(s, u);
    HeldFrame(s, s');
    GuardedFrame(hash, s, s');
  }

  lemma {:induction false} LookedKeeps(hash: Name -> nat, s: System, t: Tid, th: Thread, m: Move)
    requires SystemInv(hash, s) && t in s.threads && s.threads[t] == th && th.Looked? && m.Begin?
    ensures SystemInv(hash, DoThread(hash, s, t, th, m).value)
  {
    var op := BeginCompletion(th.sid);
    CallKeeps(hash, s, op);
    var s1, s' := Call(s, op), DoThread(hash, s, t, th, m).value;
    if Answer(s, op).Handed? {
      BeginOwning(s, t, th);
      BeganHeld(hash, s1, t, th);
    } else {
      PassKeeps(hash, s1, s', t);
    }
  }

  /** The steps that change what is stored or locked but no session. */
  lemma {:induction false} OwningKept(s: System, s': System, t: Tid)
    requires Owning(s) && s'.reg.sessions == s.reg.sessions && s.issued <= s'.issued
    requires t in s.threads && t in s'.threads && s'.threads == s.threads[t := s'.threads[t]]
    requires Owned(s'.threads[t]) == Owned(s.threads[t]) && Owned(s.threads[t]).Some?
    ensures Owning(s')
  {
    OwningFrame(s, s');
  }

  lemma {:induction false} ExchangedKeeps(hash: Name -> nat, s: System, t: Tid, th: Thread, op: Op)
    requires SystemInv(hash, s) && t in s.threads && s.threads[t] == th && th.Exchanged? && op.StoreCredential?
    requires DoStore(s, t, th, op).Some?
    ensures SystemInv(hash, DoStore(s, t, th, op).value)
  {
    StoreKeeps(s, t, th, op);
    var s' := DoStore(s, t, th, op).value;
    StoreViews(s, t, th, op);
    GuardedFrame(hash, s, s');
    OwningKept(s, s', t);
  }

  lemma {:induction false} StoreViews(s: System, t: Tid, th: Thread, op: Op)
    requires t in s.threads && s.threads[t] == th && th.Exchanged? && op.StoreCredential?
    requires DoStore(s, t, th, op).Some?
    ensures var s' := DoStore(s, t, th, op).value;
            && s'.reg.sessions == s.reg.sessions && s.issued <= s'.issued
            && s'.locks == s.locks && s'.catalog == s.catalog
            && t in s'.threads && s'.threads == s.threads[t := s'.threads[t]]
            && (s'.threads[t].Stored? || s'.threads[t].Failing?) && s'.threads[t].sid == th.sid
            && (forall u :: MutexAt(s', u) == MutexAt(s, u))
  {
    StoreShape(s.reg, s.now, op);
  }

  lemma {:induction false} StoredMoveKeeps(hash: Name -> nat, s: System, t: Tid, th: Thread, m: Move)
    requires SystemInv(hash, s) && t in s.threads && s.threads[t] == th && th.Stored?
    requires DoThread(hash, s, t, th, m).Some?
    ensures SystemInv(hash, DoThread(hash, s, t, th, m).value)
  {
    var s' := DoThread(hash, s, t, th, m).value;
    AcquireGuarded(hash, s, t, Locked(th.sid, th.name, th.cid));
    assert forall u :: PendingAt(s', u) == PendingAt(s, u) && NewAt(s', u) == NewAt(s, u);
    HeldFrame(s, s');
    OwningKept(s, s', t);
  }

  lemma {:induction false} ReadMoveKeeps(hash: Name -> nat, s: System, t: Tid, th: Thread, m: Move)
    requires SystemInv(hash, s) && t in s.threads && s.threads[t] == th && th.Read? && m.Commit?
    ensures SystemInv(hash, DoThread(hash, s, t, th, m).value)
  {
    var s' := DoThread(hash, s, t, th, m).value;
    if m.ok {
      CommitHeld(s, t, th);
      CommitBacked(s, t, th);
      CommitGuarded(hash, s, t, th);
      OwningKept(s, s', t);
    } else {
      PassKeeps(hash, s, s', t);
    }
  }

  /** Thread `t` has moved to `th` and released the stripe; no session and no entry has changed. */
  ghost predicate Unlocks(hash: Name -> nat, s: System, s': System, t: Tid, th: Thread, name: Name) {
    && s'.threads == s.threads[t := th] && s'.locks == s.locks - {Stripe(hash, name)} && s'.catalog == s.catalog
    && s'.reg.sessions == s.reg.sessions && s'.issued == s.issued
  }

  lemma {:induction false} RetireIsQuiet(hash: Name -> nat, s: System, t: Tid, th: Thread)
    requires th.Committed?
    ensures Unlocks(hash, s, DoRetire(hash, s, t, th), t, Installed(th.sid, th.cid), th.name)
  {}

  lemma {:induction false} UndoIsQuiet(hash: Name -> nat, s: System, t: Tid, th: Thread)
    requires th.RolledBack?
    ensures Unlocks(hash, s, DoUndo(hash, s, t, th), t, Failing(th.sid, Some(th.cid)), th.name)
  {}

  /** Leaving the critical section. */
  lemma {:induction false} ReleaseKeeps(hash: Name -> nat, s: System, s': System, t: Tid, th: Thread, name: Name)
    requires Guarded(hash, s) && Owning(s) && MutexAt(s, t) == Some(name) && OwnedAt(s, t).Some?
    requires !HoldsMutex(th) && Owned(th) == OwnedAt(s, t) && Unlocks(hash, s, s', t, th, name)
    ensures Guarded(hash, s') && Owning(s')
  {
    ReleaseGuarded(hash, s, t, th, name);
    var s1 := To(s, t, th).(locks := s'.locks);
    assert forall u :: MutexAt(s', u) == MutexAt(s1, u);
    GuardedFrame(hash, s1, s');
    OwningKept(s, s', t);
  }

  lemma {:induction false} CommittedKeeps(hash: Name -> nat, s: System, t: Tid, th: Thread)
    requires SystemInv(hash, s) && t in s.threads && s.threads[t] == th && th.Committed?
    ensures SystemInv(hash, DoRetire(hash, s, t, th))
  {
    if Pending(th).Some? { RetireHeld(hash, s, t, th); } else { NothingToRetireHeld(hash, s, t, th); }
    RetireIsQuiet(hash, s, t, th);
    assert MutexAt(s, t) == Some(th.name) && OwnedAt(s, t) == Some(th.sid);
    ReleaseKeeps(hash, s, DoRetire(hash, s, t, th), t, Installed(th.sid, th.cid), th.name);
  }

  lemma {:induction false} UnlockedHeld(s: System, s': System)
    requires Held(s) && Backed(s) && s' == s.(locks := s'.locks)
    ensures Held(s') && Backed(s')
  {
    assert forall u :: PendingAt(s', u) == PendingAt(s, u) && NewAt(s', u) == NewAt(s, u);
    HeldFrame(s, s');
  }

  lemma {:induction false} RetireHeld(hash: Name -> nat, s: System, t: Tid, th: Thread)
    requires Held(s) && Backed(s) && t in s.threads && s.threads[t] == th && th.Committed? && Pending(th).Some?
    ensures var s' := DoRetire(hash, s, t, th); Held(s') && Backed(s')
  {
    var next := Installed(th.sid, th.cid);
    assert PendingAt(s, t) == th.prior;
    ForgetHeld(s, t, next, th.prior.value);
    ForgetBacked(s, t, next, th.prior.value);
    UnlockedHeld(To(Forget(s, t, th.prior.value), t, next), DoRetire(hash, s, t, th));
  }

  lemma {:induction false} NothingToRetireHeld(hash: Name -> nat, s: System, t: Tid, th: Thread)
    requires Held(s) && Backed(s) && t in s.threads && s.threads[t] == th && th.Committed? && Pending(th).None?
    ensures var s' := DoRetire(hash, s, t, th); Held(s') && Backed(s')
  {
    var s1 := To(s, t, Installed(th.sid, th.cid));
    assert forall u :: PendingAt(s1, u) == PendingAt(s, u) && (NewAt(s1, u).Some? ==> NewAt(s1, u) == NewAt(s, u));
    HeldFrame(s, s1);
    UnlockedHeld(s1, DoRetire(hash, s, t, th));
  }

  lemma {:induction false} UndoHeld(hash: Name -> nat, s: System, t: Tid, th: Thread)
    requires Held(s) && Backed(s) && t in s.threads && s.threads[t] == th && th.RolledBack?
    ensures Held(DoUndo(hash, s, t, th)) && Backed(DoUndo(hash, s, t, th))
  {
    var s1 := if Some(th.cid) != th.prior then Call(s, RemoveCredential(th.cid)) else s;
    if Some(th.cid) != th.prior { UndoKeeps(s, t, th.cid); }
    UndoneHeld(s1, DoUndo(hash, s, t, th), t, th);
  }

  lemma {:induction false} UndoneHeld(s: System, s': System, t: Tid, th: Thread)
    requires Held(s) && Backed(s) && t in s.threads && s.threads[t] == th && th.RolledBack?
    requires s' == To(s, t, Failing(th.sid, Some(th.cid))).(locks := s'.locks)
    ensures Held(s') && Backed(s')
  {
    assert forall u :: PendingAt(s', u) == PendingAt(s, u) && (NewAt(s', u).Some? ==> NewAt(s', u) == NewAt(s, u));
    HeldFrame(s, s');
  }

  lemma {:induction false} RolledBackKeeps(hash: Name -> nat, s: System, t: Tid, th: Thread)
    requires SystemInv(hash, s) && t in s.threads && s.threads[t] == th && th.RolledBack?
    ensures SystemInv(hash, DoUndo(hash, s, t, th))
  {
    UndoHeld(hash, s, t, th);
    UndoIsQuiet(hash, s, t, th);
    assert MutexAt(s, t) == Some(th.name) && OwnedAt(s, t) == Some(th.sid);
    ReleaseKeeps(hash, s, DoUndo(hash, s, t, th), t, Failing(th.sid, Some(th.cid)), th.name);
  }

  /** The owner finishes its session: only the sessions and its own thread change. */
  lemma {:induction false} FinishKeeps(hash: Name -> nat, s: System, t: Tid, op: Op)
    requires SystemInv(hash, s) && PendingAt(s, t).None? && MutexAt(s, t).None?
    requires OwnedAt(s, t).Some? && Finishes(op, OwnedAt(s, t).value)
    ensures Answer(s, op) == Done && SystemInv(hash, Leave(Call(s, op), t))
    ensures var k := OwnedAt(s, t).value; k in s.issued && IsOver(Call(s, op).reg, k)
  {
    FinishOwning(s, t, op);
    CredentialsUntouched(s.reg, s.now, op);
    var s' := Leave(Call(s, op), t);
    assert forall u :: PendingAt(s', u) == PendingAt(s, u) && MutexAt(s', u) == MutexAt(s, u);
    assert forall u :: NewAt(s', u).Some? ==> NewAt(s', u) == NewAt(s, u);
    HeldFrame(s, s');
    GuardedFrame(hash, s, s');
  }

  lemma {:induction false} FailingKeeps(hash: Name -> nat, s: System, t: Tid, th: Thread, m: Move)
    requires SystemInv(hash, s) && t in s.threads && s.threads[t] == th && th.Failing? && m.Drop?
    ensures SystemInv(hash, DoThread(hash, s, t, th, m).value)
  {
    var s' := DoThread(hash, s, t, th, m).value;
    if th.stored.Some? {
      DroppedKeeps(hash, s, t, th);
    } else {
      PassKeeps(hash, s, s', t);
    }
  }

  lemma {:induction false} DroppedKeeps(hash: Name -> nat, s: System, t: Tid, th: Thread)
    requires SystemInv(hash, s) && t in s.threads && s.threads[t] == th && th.Failing? && th.stored.Some?
    ensures SystemInv(hash, To(Forget(s, t, th.stored.value), t, Cleaned(th.sid)))
  {
    var s' := To(Forget(s, t, th.stored.value), t, Cleaned(th.sid));
    ForgetHeld(s, t, Cleaned(th.sid), th.stored.value);
    ForgetBacked(s, t, Cleaned(th.sid), th.stored.value);
    assert forall u :: MutexAt(s', u) == MutexAt(s, u);
    GuardedFrame(hash, s, s');
    OwningKept(s, s', t);
  }

  lemma {:induction false} CleanedKeeps(hash: Name -> nat, s: System, t: Tid, th: Thread, interrupted: bool)
    requires SystemInv(hash, s) && t in s.threads && s.threads[t] == th && th.Cleaned?
    ensures SystemInv(hash, DoCheck(s, t, th.sid, interrupted))
  {
    if interrupted {
      InterruptedKeeps(hash, s, t, th);
    } else {
      PassKeeps(hash, s, DoCheck(s, t, th.sid, false), t);
    }
  }

  lemma {:induction false} InterruptedKeeps(hash: Name -> nat, s: System, t: Tid, th: Thread)
    requires SystemInv(hash, s) && t in s.threads && s.threads[t] == th && th.Cleaned?
    ensures SystemInv(hash, DoCheck(s, t, th.sid, true))
  {
    var op := FinishFailed(th.sid, TokenExchangeFailed);
    assert OwnedAt(s, t) == Some(th.sid);
    FinishKeeps(hash, s, t, op);
    var gone := Leave(Call(s, op), t);
    assert DoCheck(s, t, th.sid, true) == To(gone, t, Checked(th.sid, true));
    RecordedKeeps(hash, gone, t, th.sid);
  }

  lemma {:induction false} RecordedKeeps(hash: Name -> nat, s: System, t: Tid, sid: Id)
    requires SystemInv(hash, s) && t !in s.threads && sid in s.issued && IsOver(s.reg, sid)
    ensures SystemInv(hash, To(s, t, Checked(sid, true)))
  {
    var s' := To(s, t, Checked(sid, true));
    CheckedOwning(s, t, sid);
    assert forall u :: PendingAt(s', u) == PendingAt(s, u) && NewAt(s', u) == NewAt(s, u) && MutexAt(s', u) == MutexAt(s, u);
    HeldFrame(s, s');
    GuardedFrame(hash, s, s');
  }

  lemma {:induction false} CheckedKeeps(hash: Name -> nat, s: System, t: Tid, th: Thread, interrupted: bool, fault: Fault)
    requires SystemInv(hash, s) && t in s.threads && s.threads[t] == th && th.Checked?
    ensures SystemInv(hash, DoReport(s, t, th.sid, interrupted, fault))
  {
    var s' := DoReport(s, t, th.sid, interrupted, fault);
    if interrupted {
      PassKeeps(hash, s, s', t);
    } else if !th.recorded {
      FinishKeeps(hash, s, t, FinishFailed(th.sid, fault));
    } else {
      // The session is already over, so the second FinishFailed is refused and changes nothing.
      assert Call(s, FinishFailed(th.sid, fault)) == s by {
        if th.sid in s.reg.sessions { assert s.reg.sessions[th.sid := s.reg.sessions[th.sid]] == s.reg.sessions; }
      }
      PassKeeps(hash, s, s', t);
    }
  }

  lemma {:induction false} ThreadKeeps(hash: Name -> nat, s: System, t: Tid, m: Move)
    requires SystemInv(hash, s) && t in s.threads && DoThread(hash, s, t, s.threads[t], m).Some?
    ensures SystemInv(hash, DoThread(hash, s, t, s.threads[t], m).value)
  {
    var th := s.threads[t];
    if th.Looked? || th.Began? || th.Exchanged? || th.Stored? || th.Locked? || th.Read? {
      EarlyKeeps(hash, s, t, th, m);
    } else {
      LateKeeps(hash, s, t, th, m);
    }
  }

  /** Up to the commit. */
  lemma {:induction false} EarlyKeeps(hash: Name -> nat, s: System, t: Tid, th: Thread, m: Move)
    requires SystemInv(hash, s) && t in s.threads && s.threads[t] == th && DoThread(hash, s, t, th, m).Some?
    requires th.Looked? || th.Began? || th.Exchanged? || th.Stored? || th.Locked? || th.Read?
    ensures SystemInv(hash, DoThread(hash, s, t, th, m).value)
  {
    var s' := DoThread(hash, s, t, th, m).value;
    match th
    case Looked(_, _) => LookedKeeps(hash, s, t, th, m);
    case Began(_, _) => PassKeeps(hash, s, s', t);
    case Exchanged(_, _, c) =>
      ExchangedKeeps(hash, s, t, th, StoreCredential(c.instanceUrl, c.accessToken, c.expiresAt, m.firstRead, m.ids));
    case Stored(_, _, _) => StoredMoveKeeps(hash, s, t, th, m);
    case Locked(_, _, _) => PassKeeps(hash, s, s', t);
    case Read(_, _, _, _) => ReadMoveKeeps(hash, s, t, th, m);
  }

  /** After it, and on the way out. */
  lemma {:induction false} LateKeeps(hash: Name -> nat, s: System, t: Tid, th: Thread, m: Move)
    requires SystemInv(hash, s) && t in s.threads && s.threads[t] == th && DoThread(hash, s, t, th, m).Some?
    requires !(th.Looked? || th.Began? || th.Exchanged? || th.Stored? || th.Locked? || th.Read?)
    ensures SystemInv(hash, DoThread(hash, s, t, th, m).value)
  {
    match th
    case Committed(_, _, _, _) => CommittedKeeps(hash, s, t, th);
    case RolledBack(_, _, _, _) => RolledBackKeeps(hash, s, t, th);
    case Installed(sid, _) => FinishKeeps(hash, s, t, FinishAuthorized(sid));
    case Failing(_, _) => FailingKeeps(hash, s, t, th, m);
    case Cleaned(_) => CleanedKeeps(hash, s, t, th, m.interrupted);
    case Checked(_, _) => CheckedKeeps(hash, s, t, th, m.interrupted, m.fault);
  }

  lemma {:induction false} MoveKeeps(hash: Name -> nat, s: System, m: Move)
    requires SystemInv(hash, s) && Do(hash, s, m).Some?
    ensures SystemInv(hash, Do(hash, s, m).value)
  {
    match m
    case Env(op) => CallKeeps(hash, s, op);
    case Look(t, sid) => LookKeeps(hash, s, t, sid);
    case _ => ThreadKeeps(hash, s, m.tid, m);
  }

  lemma {:induction false} LookKeeps(hash: Name -> nat, s: System, t: Tid, sid: Id)
    requires SystemInv(hash, s) && Do(hash, s, Look(t, sid)).Some?
    ensures SystemInv(hash, Do(hash, s, Look(t, sid)).value)
  {
    var s1, s' := Call(s, TakeSnapshot(sid)), Do(hash, s, Look(t, sid)).value;
    CallKeeps(hash, s, TakeSnapshot(sid));
    if s' != s1 { LookedNow(hash, s1, t, s'.threads[t]); }
  }

  lemma {:induction false} LookedNow(hash: Name -> nat, s: System, t: Tid, th: Thread)
    requires SystemInv(hash, s) && t !in s.threads && th.Looked?
    ensures SystemInv(hash, To(s, t, th))
  {
    PassKeeps(hash, s, To(s, t, th), t);
  }

  lemma {:induction false} TimeKeeps(hash: Name -> nat, s: System, now: nat)
    requires SystemInv(hash, s) && s.now <= now
    ensures SystemInv(hash, s.(now := now))
  {
    var s' := s.(now := now);
    assert forall t :: PendingAt(s', t) == PendingAt(s, t) && NewAt(s', t) == NewAt(s, t)
                       && MutexAt(s', t) == MutexAt(s, t) && OwnedAt(s', t) == OwnedAt(s, t);
    assert forall c :: Good(s, c) ==> Good(s', c);
    GuardedFrame(hash, s, s');
    OwningFrame(s, s');
  }

  lemma {:induction false} ReachKeeps(hash: Name -> nat, run: seq<Timed>)
    requires Reach(hash, run).Some?
    ensures SystemInv(hash, Reach(hash, run).value)
  {
    if run != [] {
      var before, e := Reach(hash, run[..|run| - 1]), run[|run| - 1];
      ReachKeeps(hash, run[..|run| - 1]);
      TimeKeeps(hash, before.value, e.at);
      MoveKeeps(hash, before.value.(now := e.at), e.move);
    }
  }

  // ---------------------------------------------------------------- main results

  /** Catalog and credentials in every reachable state: a catalog entry names a credential that
      still resolves unless its time is up; no two names share one; and every stored credential
      is named by the catalog or answered for by exactly one thread in flight. */
  lemma {:induction false} CatalogCoherent(hash: Name -> nat, run: seq<Timed>)
    requires Reach(hash, run).Some?
    ensures var s := Reach(hash, run).value;
            && (forall n :: n in s.catalog && s.catalog[n] !in s.reg.credentials ==>
                  s.catalog[n] in s.expiry && s.expiry[s.catalog[n]] <= s.now)
            && (forall n, n' :: n in s.catalog && n' in s.catalog && s.catalog[n] == s.catalog[n'] ==> n == n')
            && (forall c :: c in s.reg.credentials ==>
                  || (exists n :: n in s.catalog && s.catalog[n] == c)
                  || (exists t :: PendingAt(s, t) == Some(c) && forall u :: PendingAt(s, u) == Some(c) ==> u == t))
  {
    ReachKeeps(hash, run);
    var s := Reach(hash, run).value;
    forall n | n in s.catalog && s.catalog[n] !in s.reg.credentials
      ensures s.catalog[n] in s.expiry && s.expiry[s.catalog[n]] <= s.now
    {
      assert Good(s, s.catalog[n]);
    }
    forall c | c in s.reg.credentials
      ensures || (exists n :: n in s.catalog && s.catalog[n] == c)
              || (exists t :: PendingAt(s, t) == Some(c) && forall u :: PendingAt(s, u) == Some(c) ==> u == t)
    {
      match s.holder[c]
      case ByName(n) => assert n in s.catalog && s.catalog[n] == c;
      case ByThread(t) => assert PendingAt(s, t) == Some(c);
    }
  }

  /** The steps a thread takes, as opposed to calls from outside. */
  predicate IsThreadMove(m: Move) { !m.Env? && !m.Look? }

  /** When no completion is in flight nothing leaks: no stripe is locked, the stored credentials are exactly the
      unexpired ones the catalog names, plus elapsed ones not yet purged; and resolving a
      named credential succeeds if and only if it has not expired. */
  lemma {:induction false} QuiescentCatalog(hash: Name -> nat, run: seq<Timed>, now: nat)
    requires Reach(hash, run).Some? && Reach(hash, run).value.threads == map[] && Reach(hash, run).value.now <= now
    ensures var s := Reach(hash, run).value;
            && s.locks == map[] && s.reg.credentials.Keys <= s.catalog.Values
            && forall n :: n in s.catalog ==>
                 && s.catalog[n] in s.expiry
                 && (Step(s.reg, now, ResolveCredential(s.catalog[n])).reply.Resolved? <==> now < s.expiry[s.catalog[n]])
  {
    ReachKeeps(hash, run);
    var s := Reach(hash, run).value;
    assert forall t :: PendingAt(s, t).None? && MutexAt(s, t).None?;
    assert s.locks == map[];
    forall c | c in s.reg.credentials ensures c in s.catalog.Values {
      assert s.holder[c].ByName? && s.catalog[s.holder[c].name] == c;
    }
    forall n | n in s.catalog
      ensures s.catalog[n] in s.expiry
      ensures Step(s.reg, now, ResolveCredential(s.catalog[n])).reply.Resolved? <==> now < s.expiry[s.catalog[n]]
    {
      assert Good(s, s.catalog[n]) && s.catalog[n] in s.holder;
    }
  }

  /** After a successful install the owner's `FinishAuthorized` cannot be refused, so the catch
      block that would delete the installed credential is never entered with one. */
  lemma {:induction false} InstalledIsNeverUndone(hash: Name -> nat, run: seq<Timed>, t: Tid)
    requires Reach(hash, run).Some? && t in Reach(hash, run).value.threads
    ensures var s := Reach(hash, run).value; var th := s.threads[t];
            && (th.Installed? ==> Answer(s, FinishAuthorized(th.sid)) == Done)
            && (th.Failing? && th.stored.Some? ==> th.stored.value !in s.catalog.Values)
  {
    ReachKeeps(hash, run);
    var s := Reach(hash, run).value;
    var th := s.threads[t];
    if th.Installed? { FinishKeeps(hash, s, t, FinishAuthorized(th.sid)); }
    if th.Failing? && th.stored.Some? { assert PendingAt(s, t) == th.stored; }
  }
}
