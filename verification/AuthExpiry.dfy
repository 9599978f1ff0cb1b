/**
 Lazy expiry against an eager reference. The registry expires a session only when a call
 happens to look at it; the reference expires every elapsed session at every tick.
 */
module AuthExpiry {
  import opened Wrappers
  import opened IdOrder
  import opened AuthRegistry
  import opened AuthRegistryProofs

  /** The reference registry: a tick expires all elapsed sessions, then the call is made. */
  function Tick(r: Registry, now: nat): Registry { r.(sessions := Sweep(r.sessions, now)) }
  ghost function EagerStep(r: Registry, now: nat, op: Op): Outcome { Step(Tick(r, now), now, op) }

  /** Equal but for the callback owner, which no caller can observe. */
  predicate Same(a: Session, b: Session) { a.(owner := None) == b.(owner := None) }

  ghost predicate Alike(a: Sessions, b: Sessions) {
    a.Keys == b.Keys && forall k :: k in a ==> Same(a[k], b[k])
  }

  /** The reference state is what the lazy state would be if it were swept at `now`. */
  ghost predicate Related(lazy: Registry, eager: Registry, now: nat) {
    lazy.credentials == eager.credentials && Alike(Sweep(lazy.sessions, now), eager.sessions)
  }

  predicate Aborts(op: Op) { op.Cancel? || op.Fail? }

  /** The calls that would act on a session the reference has already expired. */
  ghost predicate Late(r: Registry, now: nat, op: Op) {
    Aborts(op) && op.id in r.sessions && Elapsed(r.sessions[op.id], now)
  }

  lemma {:induction false} SweepLater(m: Sessions, e: Sessions, before: nat, now: nat)
    requires before <= now && Alike(Sweep(m, before), e)
    ensures Alike(Sweep(m, now), Sweep(e, now))
  {
    forall k | k in m ensures Same(Sweep(m, now)[k], Sweep(e, now)[k]) {
      assert Same(Sweep(m, before)[k], e[k]);
      SweptLater(m[k], e[k], before, now);
    }
  }

  lemma {:induction false} SweptLater(a: Session, b: Session, before: nat, now: nat)
    requires before <= now && Same(Swept(a, before), b)
    ensures Same(Swept(a, now), Swept(b, now))
  {}

  /** One session: the call answers alike and leaves alike sessions. */
  lemma {:induction false} SessionStepAlike(lazy: Session, eager: Session, now: nat, op: Op)
    requires OnSession(op) && Same(Swept(lazy, now), eager)
    requires !(Aborts(op) && Elapsed(lazy, now))
    ensures SessionStep(lazy, now, op).reply == SessionStep(eager, now, op).reply
    ensures Same(Swept(SessionStep(lazy, now, op).session, now), SessionStep(eager, now, op).session)
  {}

  lemma {:induction false} WriteAlike(lazy: Registry, eager: Registry, now: nat, op: Op)
    requires Related(lazy, eager, now) && OnSession(op) && op.id in lazy.sessions && !Late(lazy, now, op)
    ensures Step(lazy, now, op).reply == Step(eager, now, op).reply
    ensures Related(Step(lazy, now, op).state, Step(eager, now, op).state, now)
  {
    var k := op.id;
    var l, e := lazy.sessions, eager.sessions;
    assert Same(Sweep(l, now)[k], e[k]);
    SessionStepAlike(l[k], e[k], now, op);
    OverwriteAlike(l, e, now, k, SessionStep(l[k], now, op).session, SessionStep(e[k], now, op).session);
  }

  lemma {:induction false} OverwriteAlike(l: Sessions, e: Sessions, now: nat, k: Id, l': Session, e': Session)
    requires Alike(Sweep(l, now), e) && k in l && Same(Swept(l', now), e')
    ensures Alike(Sweep(l[k := l'], now), e[k := e'])
  {
    forall j | j in l ensures Same(Sweep(l[k := l'], now)[j], e[k := e'][j]) {
      assert Same(Sweep(l, now)[j], e[j]);
    }
  }

  lemma {:induction false} EvictAlike(a: Sessions, b: Sessions)
    requires Alike(a, b)
    ensures Alike(Evict(a), Evict(b))
    decreases |a|
  {
    AlikeCounts(a, b);
    if |a| >= MAX_SESSIONS && TerminalIds(a) != {} {
      var k := First(TerminalIds(a));
      assert (a - {k}).Keys == a.Keys - {k};
      EvictAlike(a - {k}, b - {k});
    }
  }

  lemma {:induction false} AlikeCounts(a: Sessions, b: Sessions)
    requires Alike(a, b)
    ensures |a| == |b| && TerminalIds(a) == TerminalIds(b) && ActiveIds(a) == ActiveIds(b)
  {
    assert |a.Keys| == |b.Keys|;
    assert forall k :: k in a ==> Same(a[k], b[k]);
  }

  lemma {:induction false} SweepTwice(m: Sessions, now: nat)
    ensures Sweep(Sweep(m, now), now) == Sweep(m, now)
  {}

  /** A swept table evicts alike, and is not changed by sweeping what is kept of it. */
  lemma {:induction false} KeptAlike(l: Sessions, e: Sessions, now: nat)
    requires Alike(Sweep(l, now), e)
    ensures Alike(Kept(l, now), Kept(e, now))
    ensures Sweep(Kept(l, now), now) == Kept(l, now)
  {
    SweepLater(l, e, now, now);
    SweepTwice(l, now);
    EvictAlike(Sweep(l, now), Sweep(e, now));
    var swept := Sweep(l, now);
    forall k | k in Kept(l, now) ensures Swept(Kept(l, now)[k], now) == Kept(l, now)[k] {
      assert Kept(l, now)[k] == swept[k] == Sweep(swept, now)[k];
    }
  }

  lemma {:induction false} InsertAlike(l: Sessions, e: Sessions, now: nat, id: Id, s: Session)
    requires Alike(l, e) && Sweep(l, now) == l && !Elapsed(s, now)
    ensures Alike(Sweep(l[id := s], now), e[id := s])
  {
    var m := Sweep(l[id := s], now);
    forall k | k in m ensures Same(m[k], e[id := s][k]) {
      if k != id { assert Sweep(l, now)[k] == l[k] && Same(l[k], e[k]); }
    }
  }

  lemma {:induction false} AdmitAlike(lazy: Registry, eager: Registry, now: nat, q: StartRequest, ids: nat -> Id)
    requires lazy.credentials == eager.credentials && Alike(lazy.sessions, eager.sessions)
    requires Sweep(lazy.sessions, now) == lazy.sessions && q.expiresAt > now
    ensures Admit(lazy, q, ids).1 == Admit(eager, q, ids).1
    ensures Related(Admit(lazy, q, ids).0, Admit(eager, q, ids).0, now)
  {
    AlikeCounts(lazy.sessions, eager.sessions);
    assert Taken(lazy) == Taken(eager);
    InsertAlike(lazy.sessions, eager.sessions, now, FreeId(lazy, ids), Opened(q));
  }

  lemma {:induction false} CreateAlike(lazy: Registry, eager: Registry, now: nat, op: Op)
    requires Related(lazy, eager, now) && op.Create?
    ensures Step(lazy, now, op).reply == Step(eager, now, op).reply
    ensures Related(Step(lazy, now, op).state, Step(eager, now, op).state, now)
  {
    if WellFormed(op.request) && op.request.expiresAt > now {
      KeptAlike(lazy.sessions, eager.sessions, now);
      AdmitAlike(lazy.(sessions := Kept(lazy.sessions, now)), eager.(sessions := Kept(eager.sessions, now)),
                 now, op.request, op.ids);
    }
  }

  lemma {:induction false} StoreAlike(lazy: Registry, eager: Registry, now: nat, op: Op)
    requires op.StoreCredential?
    requires lazy.credentials == eager.credentials && lazy.sessions.Keys == eager.sessions.Keys
    ensures var l, e := Step(lazy, now, op), Step(eager, now, op);
            && l.reply == e.reply && l.state.credentials == e.state.credentials
            && l.state.sessions == lazy.sessions && e.state.sessions == eager.sessions
  {
    assert Taken(lazy.(credentials := Live(lazy.credentials, now)))
        == Taken(eager.(credentials := Live(eager.credentials, now)));
  }

  lemma {:induction false} StepAlike(lazy: Registry, eager: Registry, now: nat, op: Op)
    requires Related(lazy, eager, now) && !Late(lazy, now, op)
    ensures Step(lazy, now, op).reply == Step(eager, now, op).reply
    ensures Related(Step(lazy, now, op).state, Step(eager, now, op).state, now)
  {
    if op.Create? {
      CreateAlike(lazy, eager, now, op);
    } else if op.StoreCredential? {
      StoreAlike(lazy, eager, now, op);
    } else if OnSession(op) {
      SessionCallAlike(lazy, eager, now, op);
    }
  }

  lemma {:induction false} SessionCallAlike(lazy: Registry, eager: Registry, now: nat, op: Op)
    requires Related(lazy, eager, now) && !Late(lazy, now, op) && OnSession(op)
    ensures Step(lazy, now, op).reply == Step(eager, now, op).reply
    ensures Related(Step(lazy, now, op).state, Step(eager, now, op).state, now)
  {
    if op.id in lazy.sessions { WriteAlike(lazy, eager, now, op); }
  }

  /** The clock never goes back, and no `Cancel` or `Fail` reaches an elapsed session. */
  ghost predicate Punctual(run: seq<Event>) {
    run == [] ||
    var before, e := run[..|run| - 1], run[|run| - 1];
    && Punctual(before)
    && (before != [] ==> before[|before| - 1].at <= e.at)
    && !Late(Final(before), e.at, e.op)
  }

  ghost function EagerFinal(run: seq<Event>): Registry
    decreases |run|, 1
  {
    if run == [] then EMPTY else EagerAfter(run).state
  }

  ghost function EagerAfter(run: seq<Event>): Outcome
    requires run != []
    decreases |run|, 0
  {
    EagerStep(EagerFinal(run[..|run| - 1]), run[|run| - 1].at, run[|run| - 1].op)
  }

  /** Lazy expiry refines eager expiry: over every punctual run the registry gives, call by
      call, the answers of the reference. */
  lemma {:induction false} LazyRefinesEager(run: seq<Event>)
    requires Punctual(run)
    ensures run != [] ==> After(run).reply == EagerAfter(run).reply
    ensures run != [] ==> Related(Final(run), EagerFinal(run), run[|run| - 1].at)
  {
    if run != [] {
      var before, e := run[..|run| - 1], run[|run| - 1];
      LazyRefinesEager(before);
      var lazy, eager := Final(before), EagerFinal(before);
      if before != [] {
        SweepLater(lazy.sessions, eager.sessions, before[|before| - 1].at, e.at);
      }
      StepAlike(lazy, Tick(eager, e.at), e.at, e.op);
    }
  }

  /** The exclusion of late aborts is exact: on related states `Cancel` and `Fail` stay in step
      with the reference if and only if their target has not elapsed. */
  lemma {:induction false} AbortAgreesExactly(lazy: Registry, eager: Registry, now: nat, op: Op)
    requires Related(lazy, eager, now) && Aborts(op)
    ensures Related(Step(lazy, now, op).state, Step(eager, now, op).state, now) <==> !Late(lazy, now, op)
  {
    if Late(lazy, now, op) {
      var k := op.id;
      assert Same(Sweep(lazy.sessions, now)[k], eager.sessions[k]);
      var l', e' := Step(lazy, now, op).state.sessions, Step(eager, now, op).state.sessions;
      assert !e'[k].status.Cancelled? && !e'[k].status.Failed?;
      assert !Same(Sweep(l', now)[k], e'[k]);
    } else {
      StepAlike(lazy, eager, now, op);
    }
  }

  lemma {:induction false} Extend(run: seq<Event>, e: Event)
    ensures After(run + [e]) == Step(Final(run), e.at, e.op)
    ensures EagerAfter(run + [e]) == EagerStep(EagerFinal(run), e.at, e.op)
  {
    assert (run + [e])[..|run|] == run;
  }

  lemma {:induction false} FirstCreate(q: StartRequest, ids: nat -> Id)
    requires WellFormed(q) && ids(0) == "a"
    ensures Step(EMPTY, 0, Op.Create(q, ids)).state == Registry(map["a" := Opened(q)], map[])
    ensures EagerStep(EMPTY, 0, Op.Create(q, ids)).state == Registry(map["a" := Opened(q)], map[])
  {
    assert Sweep(map[], 0) == map[];
    assert ActiveIds(map[]) == {};
    assert FreeId(EMPTY, ids) == "a";
    assert EMPTY.(sessions := map[]) == EMPTY;
  }

  /** A run that is not punctual: a session created at 0 that elapses at 5 and is cancelled at 9
      reads as cancelled, while the reference reports it expired. */
  lemma {:induction false} LateCancelDiffers() returns (run: seq<Event>)
    ensures run != []
    ensures After(run).reply.Seen? && After(run).reply.snapshot.status == Cancelled
    ensures EagerAfter(run).reply.Seen? && EagerAfter(run).reply.snapshot.status == Status.Expired
  {
    var q := StartRequest("", "", "", "state", "verifier", 5, 0, None);
    var ids := (i: nat) => "a";
    var create, cancel, look := Event(0, Op.Create(q, ids)), Event(9, Op.Cancel("a")), Event(9, TakeSnapshot("a"));
    run := [] + [create] + [cancel] + [look];
    FirstCreate(q, ids);
    Extend([], create);
    Extend([] + [create], cancel);
    Extend([] + [create] + [cancel], look);
    LateCancel(q);
  }

  lemma {:induction false} LateCancel(q: StartRequest)
    requires q.expiresAt == 5 && WellFormed(q)
    ensures var r := Registry(map["a" := Opened(q)], map[]);
            var lazy := Step(Step(r, 9, Op.Cancel("a")).state, 9, TakeSnapshot("a")).reply;
            var eager := EagerStep(EagerStep(r, 9, Op.Cancel("a")).state, 9, TakeSnapshot("a")).reply;
            lazy.Seen? && lazy.snapshot.status == Cancelled && eager.Seen? && eager.snapshot.status == Status.Expired
  {
    var r := Registry(map["a" := Opened(q)], map[]);
    assert Step(r, 9, Op.Cancel("a")).state.sessions["a"].status == Cancelled;
    assert EagerStep(r, 9, Op.Cancel("a")).state.sessions["a"].status == Status.Expired;
  }
}
