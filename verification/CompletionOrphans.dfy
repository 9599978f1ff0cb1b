/** What becomes of a completion that fails (src/auth_functions.cpp:273-286): exactly when its session is
    left behind, that it then stays behind for ever, and what that does to the registry. */
module CompletionOrphans {
  import opened Wrappers
  import opened IdOrder
  import opened AuthRegistry
  import opened AuthRegistryProofs
  import opened Completion
  import opened CompletionProofs

  // ---------------------------------------------------------------- runs from a state

  /** The state after a schedule that starts in `s`. */
  ghost function From(hash: Name -> nat, s: System, run: seq<Timed>): Option<System> {
    if run == [] then Some(s) else
    var before := From(hash, s, run[..|run| - 1]);
    if before.Some? then Advance(hash, before.value, run[|run| - 1]) else None
  }

  lemma {:induction false} ReachFrom(hash: Name -> nat, first: seq<Timed>, more: seq<Timed>)
    ensures Reach(hash, first + more) ==
            if Reach(hash, first).Some? then From(hash, Reach(hash, first).value, more) else None
    decreases |more|
  {
    if more == [] {
      assert first + more == first;
    } else {
      var last := |more| - 1;
      ReachFrom(hash, first, more[..last]);
      assert (first + more)[..|first + more| - 1] == first + more[..last];
    }
  }

  lemma {:induction false} StepKeeps(hash: Name -> nat, s: System, e: Timed)
    requires SystemInv(hash, s) && Advance(hash, s, e).Some?
    ensures SystemInv(hash, Advance(hash, s, e).value)
  {
    TimeKeeps(hash, s, e.at);
    MoveKeeps(hash, s.(now := e.at), e.move);
  }

  lemma {:induction false} FromKeeps(hash: Name -> nat, s: System, run: seq<Timed>)
    requires SystemInv(hash, s) && From(hash, s, run).Some?
    ensures SystemInv(hash, From(hash, s, run).value)
  {
    if run != [] {
      FromKeeps(hash, s, run[..|run| - 1]);
      StepKeeps(hash, From(hash, s, run[..|run| - 1]).value, run[|run| - 1]);
    }
  }

  // ---------------------------------------------------------------- the two checks

  /** A step of thread `t` itself. */
  predicate MovedBy(m: Move, t: Tid) { IsThreadMove(m) && m.tid == t }

  /** Nobody else moves a thread. */
  lemma {:induction false} ThreadStays(hash: Name -> nat, s: System, e: Timed, t: Tid)
    requires t in s.threads && Advance(hash, s, e).Some? && !MovedBy(e.move, t)
    ensures t in Advance(hash, s, e).value.threads && Advance(hash, s, e).value.threads[t] == s.threads[t]
  {
    var s1 := s.(now := e.at);
    if IsThreadMove(e.move) { OthersStay(hash, s1, e.move.tid, s1.threads[e.move.tid], e.move, t); }
  }

  lemma {:induction false} OthersStay(hash: Name -> nat, s: System, t: Tid, th: Thread, m: Move, u: Tid)
    requires t in s.threads && s.threads[t] == th && DoThread(hash, s, t, th, m).Some? && u != t && u in s.threads
    ensures var s' := DoThread(hash, s, t, th, m).value; u in s'.threads && s'.threads[u] == s.threads[u]
  {
    match th
    case Exchanged(_, _, c) => OthersStayStore(s, t, th, StoreCredential(c.instanceUrl, c.accessToken, c.expiresAt, m.firstRead, m.ids), u);
    case _ =>
  }

  lemma {:induction false} OthersStayStore(s: System, t: Tid, th: Thread, op: Op, u: Tid)
    requires th.Exchanged? && op.StoreCredential? && DoStore(s, t, th, op).Some? && u != t && u in s.threads
    ensures var s' := DoStore(s, t, th, op).value; u in s'.threads && s'.threads[u] == s.threads[u]
  {}

  lemma {:induction false} ThreadStaysFor(hash: Name -> nat, s: System, run: seq<Timed>, t: Tid)
    requires t in s.threads && From(hash, s, run).Some? && forall i :: 0 <= i < |run| ==> !MovedBy(run[i].move, t)
    ensures t in From(hash, s, run).value.threads && From(hash, s, run).value.threads[t] == s.threads[t]
  {
    if run != [] {
      ThreadStaysFor(hash, s, run[..|run| - 1], t);
      ThreadStays(hash, From(hash, s, run[..|run| - 1]).value, run[|run| - 1], t);
    }
  }

  /** COMPLETING, although no thread will finish it. */
  ghost predicate Orphan(s: System, k: Id) {
    IsCompleting(s.reg, k) && forall t :: OwnedAt(s, t) != Some(k)
  }

  /** The last step of a failed completion, from any reachable state: its session is left behind
      if and only if it was not recorded before and the interrupt is seen now. */
  lemma {:induction false} ReportLeaves(hash: Name -> nat, s: System, t: Tid, interrupted: bool, fault: Fault)
    requires SystemInv(hash, s) && t in s.threads && s.threads[t].Checked?
    ensures var th := s.threads[t];
            var s' := DoReport(s, t, th.sid, interrupted, fault);
            if !th.recorded && interrupted then Orphan(s', th.sid) else IsOver(s'.reg, th.sid)
  {
    var th := s.threads[t];
    var s' := DoReport(s, t, th.sid, interrupted, fault);
    if !th.recorded {
      assert OwnedAt(s, t) == Some(th.sid);
      assert forall u :: u != t ==> OwnedAt(s', u) == OwnedAt(s, u) && OwnedAt(s, u) != Some(th.sid);
    }
  }

  /** A failed completion on any schedule: it passes the first check, then anything happens that
      is not a step of its own thread, then it reports. Its session is left COMPLETING without an
      owner if and only if the interrupt came between the two checks; otherwise it is terminal or
      already evicted. */
  lemma {:induction false} FailureIsRecordedExactly(hash: Name -> nat, before: seq<Timed>, t: Tid, first: bool, at: nat,
                                                    middle: seq<Timed>, second: bool, fault: Fault, later: nat)
    requires Reach(hash, before).Some? && t in Reach(hash, before).value.threads && Reach(hash, before).value.threads[t].Cleaned?
    requires forall i :: 0 <= i < |middle| ==> !MovedBy(middle[i].move, t)
    requires var run := before + ([Timed(at, Check(t, first))] + middle + [Timed(later, Report(t, second, fault))]);
             Reach(hash, run).Some?
    ensures var run := before + ([Timed(at, Check(t, first))] + middle + [Timed(later, Report(t, second, fault))]);
            var s, k := Reach(hash, run).value, Reach(hash, before).value.threads[t].sid;
            && (Orphan(s, k) <==> !first && second)
            && (!Orphan(s, k) ==> IsOver(s.reg, k))
            && t !in s.threads
  {
    var check, report := Timed(at, Check(t, first)), Timed(later, Report(t, second, fault));
    var s0 := Reach(hash, before).value;
    ReachKeeps(hash, before);
    var tail := [check] + middle + [report];
    ReachFrom(hash, before, tail);
    assert tail[..|tail| - 1] == [check] + middle;
    BetweenChecks(hash, s0, t, first, at, middle);
    ReportEnds(hash, From(hash, s0, [check] + middle).value, t, second, fault, later);
  }

  lemma {:induction false} ReportEnds(hash: Name -> nat, s: System, t: Tid, interrupted: bool, fault: Fault, later: nat)
    requires SystemInv(hash, s) && t in s.threads && s.threads[t].Checked?
    requires Advance(hash, s, Timed(later, Report(t, interrupted, fault))).Some?
    ensures var th := s.threads[t];
            var s' := Advance(hash, s, Timed(later, Report(t, interrupted, fault))).value;
            && (Orphan(s', th.sid) <==> !th.recorded && interrupted)
            && (!Orphan(s', th.sid) ==> IsOver(s'.reg, th.sid)) && t !in s'.threads
  {
    TimeKeeps(hash, s, later);
    ReportLeaves(hash, s.(now := later), t, interrupted, fault);
  }

  /** Whatever happens in between, the thread remembers what the first check saw. */
  lemma {:induction false} BetweenChecks(hash: Name -> nat, s: System, t: Tid, first: bool, at: nat, middle: seq<Timed>)
    requires SystemInv(hash, s) && t in s.threads && s.threads[t].Cleaned?
    requires forall i :: 0 <= i < |middle| ==> !MovedBy(middle[i].move, t)
    requires From(hash, s, [Timed(at, Check(t, first))] + middle).Some?
    ensures var s' := From(hash, s, [Timed(at, Check(t, first))] + middle).value;
            SystemInv(hash, s') && t in s'.threads && s'.threads[t] == Checked(s.threads[t].sid, first)
  {
    var check := Timed(at, Check(t, first));
    FromSplit(hash, s, check, middle);
    var s1 := Advance(hash, s, check).value;
    StepKeeps(hash, s, check);
    ThreadStaysFor(hash, s1, middle, t);
    FromKeeps(hash, s1, middle);
  }

  lemma {:induction false} FromSplit(hash: Name -> nat, s: System, e: Timed, run: seq<Timed>)
    ensures From(hash, s, [e] + run) ==
            if Advance(hash, s, e).Some? then From(hash, Advance(hash, s, e).value, run) else None
    decreases |run|
  {
    if run == [] {
      assert [e] + run == [e] && [e][..0] == [];
    } else {
      FromSplit(hash, s, e, run[..|run| - 1]);
      assert ([e] + run)[..|run|] == [e] + run[..|run| - 1];
    }
  }

  // ---------------------------------------------------------------- for ever

  /** No call made by anybody else ends a session that is being completed. */
  lemma {:induction false} CallKeepsOrphan(s: System, op: Op, s': System, k: Id)
    requires Orphan(s, k) && !Finishes(op, k)
    requires s'.reg.sessions == Step(s.reg, s.now, op).state.sessions
    requires forall u :: OwnedAt(s', u).Some? ==> OwnedAt(s', u) == OwnedAt(s, u) || OwnedAt(s', u) != Some(k)
    ensures Orphan(s', k)
  {
    CompletingIsExclusive(s.reg, s.now, op, k);
  }

  /** A step that touches no session. */
  lemma {:induction false} QuietKeepsOrphan(s: System, s': System, k: Id)
    requires Orphan(s, k) && s'.reg.sessions == s.reg.sessions
    requires forall u :: OwnedAt(s', u).Some? ==> OwnedAt(s', u) == OwnedAt(s, u)
    ensures Orphan(s', k)
  {}

  /** The threads that work on the catalog and the credentials. */
  predicate Working(th: Thread) {
    th.Began? || th.Exchanged? || th.Stored? || th.Locked? || th.Read? || th.Committed? || th.RolledBack? || th.Failing?
  }

  lemma {:induction false} WorkIsQuiet(hash: Name -> nat, s: System, t: Tid, th: Thread, m: Move)
    requires t in s.threads && s.threads[t] == th && Working(th) && DoThread(hash, s, t, th, m).Some?
    ensures var s' := DoThread(hash, s, t, th, m).value;
            && s'.reg.sessions == s.reg.sessions
            && t in s'.threads && Owned(s'.threads[t]) == Owned(th) && s'.threads == s.threads[t := s'.threads[t]]
  {
    match th
    case Began(_, _) =>
    case Stored(_, _, _) =>
    case Locked(_, _, _) =>
    case Read(_, _, _, _) => CommitIsQuiet(s, t, th);
    case Failing(_, _) => DropIsQuiet(s, t, th);
    case Exchanged(_, _, c) =>
      StoreIsQuiet(s, t, th, StoreCredential(c.instanceUrl, c.accessToken, c.expiresAt, m.firstRead, m.ids));
    case Committed(_, _, _, _) => RetireIsQuiet(hash, s, t, th);
    case RolledBack(_, _, _, _) => UndoIsQuiet(hash, s, t, th);
  }

  lemma {:induction false} CommitIsQuiet(s: System, t: Tid, th: Thread)
    requires th.Read?
    ensures var s' := DoCommit(s, t, th);
            s'.reg == s.reg && s'.threads == s.threads[t := Committed(th.sid, th.name, th.cid, th.prior)]
  {}

  lemma {:induction false} DropIsQuiet(s: System, t: Tid, th: Thread)
    requires th.Failing?
    ensures var s' := To(if th.stored.Some? then Forget(s, t, th.stored.value) else s, t, Cleaned(th.sid));
            s'.reg.sessions == s.reg.sessions && s'.threads == s.threads[t := Cleaned(th.sid)]
  {}

  lemma {:induction false} StoreIsQuiet(s: System, t: Tid, th: Thread, op: Op)
    requires th.Exchanged? && op.StoreCredential? && DoStore(s, t, th, op).Some?
    ensures var s' := DoStore(s, t, th, op).value;
            && s'.reg.sessions == s.reg.sessions && t in s'.threads
            && Owned(s'.threads[t]) == Owned(th) && s'.threads == s.threads[t := s'.threads[t]]
  {
    StoreShape(s.reg, s.now, op);
  }

  lemma {:induction false} OwnedElsewhere(s: System, s': System, t: Tid)
    requires forall u :: u != t ==> (u in s'.threads <==> u in s.threads) && (u in s.threads ==> s'.threads[u] == s.threads[u])
    ensures forall u :: u != t ==> OwnedAt(s', u) == OwnedAt(s, u)
  {}

  lemma {:induction false} ThreadKeepsOrphan(hash: Name -> nat, s: System, t: Tid, m: Move, k: Id)
    requires Owning(s) && Orphan(s, k) && t in s.threads && DoThread(hash, s, t, s.threads[t], m).Some?
    ensures Orphan(DoThread(hash, s, t, s.threads[t], m).value, k)
  {
    var th := s.threads[t];
    var s' := DoThread(hash, s, t, th, m).value;
    assert OwnedAt(s, t) == Owned(th);
    if Working(th) {
      WorkIsQuiet(hash, s, t, th, m);
      OwnedElsewhere(s, s', t);
      QuietKeepsOrphan(s, s', k);
    } else {
      EndsKeepOrphan(hash, s, t, th, m, k);
    }
  }

  /** The first and the last steps of a completion. */
  lemma {:induction false} EndsKeepOrphan(hash: Name -> nat, s: System, t: Tid, th: Thread, m: Move, k: Id)
    requires Owning(s) && Orphan(s, k) && t in s.threads && s.threads[t] == th && !Working(th)
    requires DoThread(hash, s, t, th, m).Some?
    ensures Orphan(DoThread(hash, s, t, th, m).value, k)
  {
    var s' := DoThread(hash, s, t, th, m).value;
    assert OwnedAt(s, t) == Owned(th);
    OthersUnmoved(hash, s, t, th, m);
    OwnedElsewhere(s, s', t);
    match th
    case Looked(_, _) => BeginKeepsOrphan(s, s', t, th, k);
    case Installed(sid, _) => CallKeepsOrphan(s, FinishAuthorized(sid), s', k);
    case Cleaned(sid) => CheckKeepsOrphan(s, t, sid, m.interrupted, k);
    case Checked(sid, _) => ReportKeepsOrphan(s, t, sid, m.interrupted, m.fault, k);
  }

  lemma {:induction false} CheckKeepsOrphan(s: System, t: Tid, sid: Id, interrupted: bool, k: Id)
    requires Orphan(s, k) && sid != k
    ensures Orphan(DoCheck(s, t, sid, interrupted), k)
  {
    var s' := DoCheck(s, t, sid, interrupted);
    assert forall u :: u != t ==> OwnedAt(s', u) == OwnedAt(s, u);
    if interrupted { CallKeepsOrphan(s, FinishFailed(sid, TokenExchangeFailed), s', k); }
  }

  lemma {:induction false} ReportKeepsOrphan(s: System, t: Tid, sid: Id, interrupted: bool, fault: Fault, k: Id)
    requires Orphan(s, k) && sid != k
    ensures Orphan(DoReport(s, t, sid, interrupted, fault), k)
  {
    var s' := DoReport(s, t, sid, interrupted, fault);
    assert forall u :: u != t ==> OwnedAt(s', u) == OwnedAt(s, u);
    if !interrupted { CallKeepsOrphan(s, FinishFailed(sid, fault), s', k); }
  }

  /** A session that is being completed is not handed out again. */
  lemma {:induction false} BeginKeepsOrphan(s: System, s': System, t: Tid, th: Thread, k: Id)
    requires Orphan(s, k) && th.Looked?
    requires var op := BeginCompletion(th.sid);
             s' == if Answer(s, op).Handed? then To(Call(s, op), t, Began(th.sid, th.name)) else Leave(Call(s, op), t)
    requires forall u :: u != t ==> OwnedAt(s', u) == OwnedAt(s, u)
    ensures Orphan(s', k)
  {
    CallKeepsOrphan(s, BeginCompletion(th.sid), s', k);
  }

  lemma {:induction false} OthersUnmoved(hash: Name -> nat, s: System, t: Tid, th: Thread, m: Move)
    requires t in s.threads && s.threads[t] == th && !Working(th) && DoThread(hash, s, t, th, m).Some?
    ensures var s' := DoThread(hash, s, t, th, m).value;
            forall u :: u != t ==> (u in s'.threads <==> u in s.threads) && (u in s.threads ==> s'.threads[u] == s.threads[u])
  {}

  /** An orphan stays one after every further step, at any time. */
  lemma {:induction false} OrphanStays(hash: Name -> nat, s: System, e: Timed, k: Id)
    requires SystemInv(hash, s) && Orphan(s, k) && Advance(hash, s, e).Some?
    ensures Orphan(Advance(hash, s, e).value, k)
  {
    var s1, s' := s.(now := e.at), Advance(hash, s, e).value;
    TimeKeeps(hash, s, e.at);
    assert forall u :: OwnedAt(s1, u) == OwnedAt(s, u);
    if IsThreadMove(e.move) {
      ThreadKeepsOrphan(hash, s1, e.move.tid, e.move, k);
    } else {
      OutsideKeepsOrphan(hash, s1, e.move, k);
    }
  }

  lemma {:induction false} OutsideKeepsOrphan(hash: Name -> nat, s: System, m: Move, k: Id)
    requires Orphan(s, k) && !IsThreadMove(m) && Do(hash, s, m).Some?
    ensures Orphan(Do(hash, s, m).value, k)
  {
    var s' := Do(hash, s, m).value;
    if m.Env? {
      CallKeepsOrphan(s, m.op, Call(s, m.op), k);
      QuietKeepsOrphan(Call(s, m.op), s', k);
    } else {
      var s1 := Call(s, TakeSnapshot(m.sid));
      CallKeepsOrphan(s, TakeSnapshot(m.sid), s1, k);
      if s' != s1 {
        OwnedElsewhere(s1, s', m.tid);
        QuietKeepsOrphan(s1, s', k);
      }
    }
  }

  lemma {:induction false} OrphanForever(hash: Name -> nat, s: System, run: seq<Timed>, k: Id)
    requires SystemInv(hash, s) && Orphan(s, k) && From(hash, s, run).Some?
    ensures Orphan(From(hash, s, run).value, k)
  {
    if run != [] {
      OrphanForever(hash, s, run[..|run| - 1], k);
      FromKeeps(hash, s, run[..|run| - 1]);
      OrphanStays(hash, From(hash, s, run[..|run| - 1]).value, run[|run| - 1], k);
    }
  }

  // ---------------------------------------------------------------- what it does to the registry

  /** With four sessions that are being completed `Create` never succeeds, at any time, whatever
      is requested: a request it does not refuse for itself finds the limit reached. */
  lemma {:induction false} FullOfCompleting(r: Registry, now: nat, q: StartRequest, ids: nat -> Id, left: set<Id>)
    requires |left| >= MAX_ACTIVE && forall k :: k in left ==> IsCompleting(r, k)
    ensures Step(r, now, Op.Create(q, ids)).reply.Threw?
    ensures WellFormed(q) && q.expiresAt > now ==> Step(r, now, Op.Create(q, ids)).reply == Threw(SessionLimitReached)
  {
    var kept := Kept(r.sessions, now);
    forall k | k in left ensures k in ActiveIds(kept) {
      assert IsCompleting(r, k);
      KeptAt(r.sessions, now, k);
    }
    SubsetSize(left, ActiveIds(kept));
  }

  /** Four orphans block the registry for good: on every continuation of the run, at any time,
      every `Create` throws. */
  lemma {:induction false} FourOrphansBlock(hash: Name -> nat, run: seq<Timed>, left: set<Id>, more: seq<Timed>,
                                           now: nat, q: StartRequest, ids: nat -> Id)
    requires Reach(hash, run).Some? && |left| >= MAX_ACTIVE && forall k :: k in left ==> Orphan(Reach(hash, run).value, k)
    requires Reach(hash, run + more).Some?
    ensures var r := Reach(hash, run + more).value.reg;
            && Step(r, now, Op.Create(q, ids)).reply.Threw?
            && (WellFormed(q) && q.expiresAt > now ==> Step(r, now, Op.Create(q, ids)).reply == Threw(SessionLimitReached))
  {
    var s := Reach(hash, run).value;
    ReachKeeps(hash, run);
    ReachFrom(hash, run, more);
    var s' := From(hash, s, more).value;
    forall k | k in left ensures IsCompleting(s'.reg, k) {
      assert Orphan(s, k);
      OrphanForever(hash, s, more, k);
    }
    FullOfCompleting(s'.reg, now, q, ids, left);
  }

  // ---------------------------------------------------------------- that it happens

  predicate AllCompleting(m: Sessions) { forall k :: k in m ==> m[k].status.Completing? }

  lemma {:induction false} CompletingKept(m: Sessions, now: nat)
    requires AllCompleting(m)
    ensures Kept(m, now) == m && ActiveIds(m) == m.Keys
  {
    assert Sweep(m, now) == m;
    assert TerminalIds(m) == {};
  }

  function Request(now: nat): StartRequest { StartRequest("", "", "name", "state", "verifier", now + 1, 0, None) }

  function Called(now: nat): Session {
    Opened(Request(now)).(code := "code", expectedState := "", status := CallbackReceived)
  }

  function LeftBehind(now: nat): Session { Called(now).(status := Completing, code := "", verifier := "") }

  /** `s` with a session under the new id `k`, and these threads. */
  function With(s: System, k: Id, session: Session, threads: map<Tid, Thread>): System {
    s.(reg := s.reg.(sessions := s.reg.sessions[k := session]), issued := s.issued + {k}, threads := threads)
  }

  lemma {:induction false} RunThen(hash: Name -> nat, run: seq<Timed>, m: Move)
    requires Reach(hash, run).Some?
    ensures var s := Reach(hash, run).value; Reach(hash, run + [Timed(s.now, m)]) == Do(hash, s, m)
  {
    var s := Reach(hash, run).value;
    assert (run + [Timed(s.now, m)])[..|run|] == run;
    assert s.(now := s.now) == s;
  }

  lemma {:induction false} NewIsNew(hash: Name -> nat, s: System, k: Id)
    requires SystemInv(hash, s) && k !in s.issued
    ensures k !in s.reg.sessions && k !in s.reg.credentials && forall u :: OwnedAt(s, u) != Some(k)
  {}

  lemma {:induction false} OpenMove(hash: Name -> nat, s: System, k: Id)
    requires SystemInv(hash, s) && AllCompleting(s.reg.sessions) && |s.reg.sessions| < MAX_ACTIVE && k !in s.issued && k != ""
    ensures Do(hash, s, Env(Op.Create(Request(s.now), (i: nat) => k))) == Some(With(s, k, Opened(Request(s.now)), s.threads))
  {
    NewIsNew(hash, s, k);
    OpenStep(s.reg, s.now, k, (i: nat) => k);
  }

  lemma {:induction false} OpenStep(r: Registry, now: nat, k: Id, ids: nat -> Id)
    requires AllCompleting(r.sessions) && |r.sessions| < MAX_ACTIVE && k !in Taken(r) && k != "" && ids(0) == k
    ensures var o := Step(r, now, Op.Create(Request(now), ids));
            o.reply == NewId(k) && o.state == r.(sessions := r.sessions[k := Opened(Request(now))])
  {
    CompletingKept(r.sessions, now);
    assert r.(sessions := Kept(r.sessions, now)) == r;
    assert FreeId(r, ids) == k;
  }

  lemma {:induction false} CallbackMove(hash: Name -> nat, s: System, k: Id)
    ensures Do(hash, With(s, k, Opened(Request(s.now)), s.threads), Env(Op.ReceiveCallback(k, "state", "code")))
         == Some(With(s, k, Called(s.now), s.threads))
  {
    assert s.reg.sessions[k := Opened(Request(s.now))][k := Called(s.now)] == s.reg.sessions[k := Called(s.now)];
  }

  lemma {:induction false} LookMove(hash: Name -> nat, s: System, k: Id, t: Tid)
    requires t !in s.threads
    ensures Do(hash, With(s, k, Called(s.now), s.threads), Look(t, k))
         == Some(With(s, k, Called(s.now), s.threads[t := Looked(k, "name")]))
  {
    assert s.reg.sessions[k := Called(s.now)][k := Called(s.now)] == s.reg.sessions[k := Called(s.now)];
  }

  lemma {:induction false} BeginMove(hash: Name -> nat, s: System, k: Id, t: Tid)
    ensures Do(hash, With(s, k, Called(s.now), s.threads[t := Looked(k, "name")]), Begin(t))
         == Some(With(s, k, LeftBehind(s.now), s.threads[t := Began(k, "name")]))
  {
    assert s.reg.sessions[k := Called(s.now)][k := LeftBehind(s.now)] == s.reg.sessions[k := LeftBehind(s.now)];
    assert s.threads[t := Looked(k, "name")][t := Began(k, "name")] == s.threads[t := Began(k, "name")];
  }

  // The exchange fails, nothing is to be dropped, and the interrupt comes between the checks.
  lemma {:induction false} FailureMoves(hash: Name -> nat, s: System, k: Id, t: Tid)
    requires t !in s.threads
    ensures var left, th := LeftBehind(s.now), s.threads;
            && Do(hash, With(s, k, left, th[t := Began(k, "name")]), Exchange(t, None)) == Some(With(s, k, left, th[t := Failing(k, None)]))
            && Do(hash, With(s, k, left, th[t := Failing(k, None)]), Drop(t)) == Some(With(s, k, left, th[t := Cleaned(k)]))
  {
    var th: map<Tid, Thread> := s.threads;
    assert th[t := Began(k, "name")][t := Failing(k, None)] == th[t := Failing(k, None)];
    assert th[t := Failing(k, None)][t := Cleaned(k)] == th[t := Cleaned(k)];
  }

  lemma {:induction false} CheckMoves(hash: Name -> nat, s: System, k: Id, t: Tid)
    requires t !in s.threads
    ensures var left, th := LeftBehind(s.now), s.threads;
            && Do(hash, With(s, k, left, th[t := Cleaned(k)]), Check(t, false)) == Some(With(s, k, left, th[t := Checked(k, false)]))
            && Do(hash, With(s, k, left, th[t := Checked(k, false)]), Report(t, true, TokenExchangeFailed)) == Some(With(s, k, left, th))
  {
    var th: map<Tid, Thread> := s.threads;
    assert th[t := Cleaned(k)][t := Checked(k, false)] == th[t := Checked(k, false)];
    assert th[t := Checked(k, false)] - {t} == th;
  }

  /** One more orphan, in eight steps. */
  lemma {:induction false} MakeOrphan(hash: Name -> nat, run: seq<Timed>, t: Tid, k: Id) returns (longer: seq<Timed>)
    requires Reach(hash, run).Some?
    requires var s := Reach(hash, run).value;
             && AllCompleting(s.reg.sessions) && |s.reg.sessions| < MAX_ACTIVE
             && t !in s.threads && k !in s.issued && k != ""
    ensures Reach(hash, longer).Some?
    ensures var s, s' := Reach(hash, run).value, Reach(hash, longer).value;
            s' == With(s, k, LeftBehind(s.now), s.threads) && Orphan(s', k) && k !in s.reg.sessions
  {
    var s := Reach(hash, run).value;
    ReachKeeps(hash, run);
    NewIsNew(hash, s, k);
    OpenMove(hash, s, k);
    CallbackMove(hash, s, k);
    LookMove(hash, s, k, t);
    BeginMove(hash, s, k, t);
    FailureMoves(hash, s, k, t);
    CheckMoves(hash, s, k, t);
    longer := Extended(hash, run, Env(Op.Create(Request(s.now), (i: nat) => k)));
    longer := Extended(hash, longer, Env(Op.ReceiveCallback(k, "state", "code")));
    longer := Extended(hash, longer, Look(t, k));
    longer := Extended(hash, longer, Begin(t));
    longer := Extended(hash, longer, Exchange(t, None));
    longer := Extended(hash, longer, Drop(t));
    longer := Extended(hash, longer, Check(t, false));
    longer := Extended(hash, longer, Report(t, true, TokenExchangeFailed));
    assert forall u :: OwnedAt(Reach(hash, longer).value, u) == OwnedAt(s, u);
  }

  lemma {:induction false} Extended(hash: Name -> nat, run: seq<Timed>, m: Move) returns (longer: seq<Timed>)
    requires Reach(hash, run).Some? && Do(hash, Reach(hash, run).value, m).Some?
    ensures Reach(hash, longer) == Do(hash, Reach(hash, run).value, m)
  {
    RunThen(hash, run, m);
    longer := run + [Timed(Reach(hash, run).value.now, m)];
  }

  /** A schedule that blocks the registry: four times an interrupt between the checks. */
  lemma {:induction false} BlockedIsReachable(hash: Name -> nat) returns (run: seq<Timed>, left: set<Id>)
    ensures Reach(hash, run).Some? && |left| == MAX_ACTIVE
    ensures forall k :: k in left ==> Orphan(Reach(hash, run).value, k)
  {
    run, left := [], {};
    for n := 0 to MAX_ACTIVE
      invariant Reach(hash, run).Some? && |left| == n && OnlyOrphans(Reach(hash, run).value, left, n)
    {
      var k := seq(n + 1, i => 'a');
      var s := Reach(hash, run).value;
      SubsetSize(s.reg.sessions.Keys, left);
      run := MakeOrphan(hash, run, 0, k);
      OneMoreOrphan(s, Reach(hash, run).value, left, n, k);
      left := left + {k};
    }
  }

  /** Nothing but these orphans, whose ids are no longer than `n`. */
  ghost predicate OnlyOrphans(s: System, left: set<Id>, n: nat) {
    && s.threads == map[] && s.issued == left && s.reg.sessions.Keys == left && AllCompleting(s.reg.sessions)
    && forall k :: k in left ==> |k| <= n
  }

  lemma {:induction false} OneMoreOrphan(s: System, s': System, left: set<Id>, n: nat, k: Id)
    requires OnlyOrphans(s, left, n) && |k| == n + 1 && s' == With(s, k, LeftBehind(s.now), s.threads)
    ensures OnlyOrphans(s', left + {k}, n + 1)
  {}
}
