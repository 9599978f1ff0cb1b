/** Completions make progress: exactly which steps are enabled, that some thread can always take
    one whatever it is answered, and that every completion ends. */
module CompletionEnds {
  import opened Wrappers
  import opened IdOrder
  import opened AuthRegistry
  import opened Completion
  import opened CompletionProofs
  import opened CompletionOrphans

  /** The step a thread takes next; what it is answered is open. */
  predicate Due(th: Thread, m: Move) {
    match th
    case Looked(_, _) => m.Begin?
    case Began(_, _) => m.Exchange?
    case Exchanged(_, _, _) => m.Store?
    case Stored(_, _, _) => m.Acquire?
    case Locked(_, _, _) => m.ReadCatalog?
    case Read(_, _, _, _) => m.Commit?
    case Committed(_, _, _, _) => m.Retire?
    case RolledBack(_, _, _, _) => m.Undo?
    case Installed(_, _) => m.Finish?
    case Failing(_, _) => m.Drop?
    case Cleaned(_) => m.Check?
    case Checked(_, _) => m.Report?
  }

  /** The stripe of the thread's secret name is taken. */
  predicate Waits(hash: Name -> nat, s: System, t: Tid) {
    t in s.threads && s.threads[t].Stored? && Stripe(hash, s.threads[t].name) in s.locks
  }

  /** The ids drawn for a credential do not repeat one of the run. */
  ghost predicate NewIds(s: System, t: Tid, m: Move) {
    t in s.threads && s.threads[t].Exchanged? && m.Store? ==>
      var c := s.threads[t].capability;
      Fresh(s, Answer(s, StoreCredential(c.instanceUrl, c.accessToken, c.expiresAt, m.firstRead, m.ids)))
  }

  /** A thread can take its next step with any answers, unless it waits for a stripe; and no
      other step. */
  lemma {:induction false} EnabledExactly(hash: Name -> nat, s: System, m: Move)
    requires IsThreadMove(m)
    ensures Do(hash, s, m).Some? <==>
            m.tid in s.threads && Due(s.threads[m.tid], m) && !Waits(hash, s, m.tid) && NewIds(s, m.tid, m)
  {
    if m.tid in s.threads {
      var t, th := m.tid, s.threads[m.tid];
      match th
      case Exchanged(_, _, c) =>
        if m.Store? { StoreEnabled(s, t, th, StoreCredential(c.instanceUrl, c.accessToken, c.expiresAt, m.firstRead, m.ids)); }
      case _ =>
    }
  }

  lemma StoreEnabled(s: System, t: Tid, th: Thread, op: Op)
    requires th.Exchanged? && op.StoreCredential?
    ensures DoStore(s, t, th, op).Some? <==> Fresh(s, Answer(s, op))
  {}

  /** No deadlock: while a completion is in flight some thread waits for nothing, and can take
      its next step whatever it is answered. Whoever holds the stripe another one waits for is
      never itself waiting. */
  lemma {:induction false} NeverStuck(hash: Name -> nat, run: seq<Timed>) returns (t: Tid)
    requires Reach(hash, run).Some? && Reach(hash, run).value.threads != map[]
    ensures var s := Reach(hash, run).value;
            && t in s.threads && !Waits(hash, s, t)
            && forall m :: IsThreadMove(m) && m.tid == t && Due(s.threads[t], m) && NewIds(s, t, m) ==> Do(hash, s, m).Some?
  {
    ReachKeeps(hash, run);
    t := Mover(hash, Reach(hash, run).value);
  }

  lemma {:induction false} Mover(hash: Name -> nat, s: System) returns (t: Tid)
    requires SystemInv(hash, s) && s.threads != map[]
    ensures t in s.threads && !Waits(hash, s, t)
    ensures forall m :: IsThreadMove(m) && m.tid == t && Due(s.threads[t], m) && NewIds(s, t, m) ==> Do(hash, s, m).Some?
  {
    t :| t in s.threads;
    if Waits(hash, s, t) {
      t := s.locks[Stripe(hash, s.threads[t].name)];
      assert MutexAt(s, t).Some?;
    }
    forall m | IsThreadMove(m) && m.tid == t && Due(s.threads[t], m) && NewIds(s, t, m) ensures Do(hash, s, m).Some? {
      EnabledExactly(hash, s, m);
    }
  }

  // ---------------------------------------------------------------- every completion ends

  /** How many steps a thread has still to take, at most. */
  function Rest(th: Thread): nat {
    match th
    case Looked(_, _) => 11
    case Began(_, _) => 10
    case Exchanged(_, _, _) => 9
    case Stored(_, _, _) => 8
    case Locked(_, _, _) => 7
    case Read(_, _, _, _) => 6
    case Committed(_, _, _, _) => 5
    case RolledBack(_, _, _, _) => 4
    case Installed(_, _) => 4
    case Failing(_, _) => 3
    case Cleaned(_) => 2
    case Checked(_, _) => 1
  }

  function RestAt(s: System, t: Tid): nat { if t in s.threads then Rest(s.threads[t]) else 0 }

  /** Every step of a thread brings it closer to its end. */
  lemma {:induction false} OwnStep(hash: Name -> nat, s: System, m: Move)
    requires IsThreadMove(m) && Do(hash, s, m).Some?
    ensures m.tid in s.threads && RestAt(Do(hash, s, m).value, m.tid) < RestAt(s, m.tid)
  {
    var t, th := m.tid, s.threads[m.tid];
    match th
    case Exchanged(_, _, c) => OwnStore(s, t, th, StoreCredential(c.instanceUrl, c.accessToken, c.expiresAt, m.firstRead, m.ids));
    case _ =>
  }

  lemma OwnStore(s: System, t: Tid, th: Thread, op: Op)
    requires th.Exchanged? && op.StoreCredential? && DoStore(s, t, th, op).Some?
    ensures RestAt(DoStore(s, t, th, op).value, t) < Rest(th)
  {}

  /** How many steps of a run are the thread's own. */
  function OwnSteps(run: seq<Timed>, t: Tid): nat {
    if run == [] then 0 else OwnSteps(run[..|run| - 1], t) + if MovedBy(run[|run| - 1].move, t) then 1 else 0
  }

  predicate Starts(m: Move, t: Tid) { m.Look? && m.tid == t }

  /** A completion takes at most eleven steps of its own, on every schedule and whatever it is
      answered. */
  lemma {:induction false} EveryCompletionEnds(hash: Name -> nat, s: System, run: seq<Timed>, t: Tid)
    requires t in s.threads && From(hash, s, run).Some? && forall i :: 0 <= i < |run| ==> !Starts(run[i].move, t)
    ensures OwnSteps(run, t) + RestAt(From(hash, s, run).value, t) <= Rest(s.threads[t]) <= 11
  {
    if run != [] {
      var before, e := From(hash, s, run[..|run| - 1]).value, run[|run| - 1];
      EveryCompletionEnds(hash, s, run[..|run| - 1], t);
      EndsStep(hash, before, e, t);
    }
  }

  lemma {:induction false} EndsStep(hash: Name -> nat, s: System, e: Timed, t: Tid)
    requires Advance(hash, s, e).Some? && !Starts(e.move, t)
    ensures RestAt(Advance(hash, s, e).value, t) + (if MovedBy(e.move, t) then 1 else 0) <= RestAt(s, t)
  {
    var s1 := s.(now := e.at);
    if MovedBy(e.move, t) {
      OwnStep(hash, s1, e.move);
    } else if t in s.threads {
      ThreadStays(hash, s, e, t);
    } else {
      NoneAppears(hash, s1, e.move, t);
    }
  }

  /** Only looking starts a thread. */
  lemma {:induction false} NoneAppears(hash: Name -> nat, s: System, m: Move, t: Tid)
    requires Do(hash, s, m).Some? && !Starts(m, t) && t !in s.threads
    ensures t !in Do(hash, s, m).value.threads
  {
    if IsThreadMove(m) {
      match s.threads[m.tid]
      case Exchanged(_, _, c) =>
        NoneAppearsStore(s, m.tid, s.threads[m.tid], StoreCredential(c.instanceUrl, c.accessToken, c.expiresAt, m.firstRead, m.ids), t);
      case _ =>
    }
  }

  lemma NoneAppearsStore(s: System, t: Tid, th: Thread, op: Op, u: Tid)
    requires th.Exchanged? && op.StoreCredential? && DoStore(s, t, th, op).Some? && u !in s.threads && t in s.threads
    ensures u !in DoStore(s, t, th, op).value.threads
  {}

  /** How many steps all threads have still to take, at most. */
  ghost function Work(threads: map<Tid, Thread>): nat {
    if threads == map[] then 0 else
    var t :| t in threads;
    Rest(threads[t]) + Work(threads - {t})
  }

  lemma {:induction false} WorkSplit(threads: map<Tid, Thread>, t: Tid)
    requires t in threads
    ensures Work(threads) == Rest(threads[t]) + Work(threads - {t})
  {
    var u :| u in threads && Work(threads) == Rest(threads[u]) + Work(threads - {u});
    if u != t {
      WorkSplit(threads - {u}, t);
      WorkSplit(threads - {t}, u);
      assert threads - {u} - {t} == threads - {t} - {u};
    }
  }

  lemma {:induction false} WorkBounded(threads: map<Tid, Thread>)
    ensures Work(threads) <= 11 * |threads|
  {
    if threads != map[] {
      var t :| t in threads;
      var fewer := threads - {t};
      WorkSplit(threads, t);
      WorkBounded(fewer);
      assert fewer.Keys == threads.Keys - {t};
      assert |threads.Keys| == |fewer.Keys| + 1;
    }
  }

  /** A step of a thread is work done. */
  lemma {:induction false} WorkDone(hash: Name -> nat, s: System, e: Timed)
    requires IsThreadMove(e.move) && Advance(hash, s, e).Some?
    ensures Work(Advance(hash, s, e).value.threads) < Work(s.threads)
  {
    var s', t := Advance(hash, s, e).value, e.move.tid;
    OwnStep(hash, s.(now := e.at), e.move);
    OthersSame(hash, s, e);
    assert s'.threads - {t} == s.threads - {t};
    WorkSplit(s.threads, t);
    if t in s'.threads { WorkSplit(s'.threads, t); } else { assert s'.threads - {t} == s'.threads; }
  }

  lemma {:induction false} OthersSame(hash: Name -> nat, s: System, e: Timed)
    requires IsThreadMove(e.move) && Advance(hash, s, e).Some?
    ensures Advance(hash, s, e).value.threads - {e.move.tid} == s.threads - {e.move.tid}
  {
    var s', t := Advance(hash, s, e).value, e.move.tid;
    forall u | u != t ensures u in s.threads <==> u in s'.threads
                      ensures u in s.threads ==> s'.threads[u] == s.threads[u]
    {
      if u in s.threads { ThreadStays(hash, s, e, u); } else { NoneAppears(hash, s.(now := e.at), e.move, u); }
    }
  }

  /** Any schedule of thread steps alone is finite, and as long as a thread is left it can be
      continued; so it ends with no completion in flight. */
  lemma {:induction false} ThreadsAlone(hash: Name -> nat, s: System, run: seq<Timed>)
    requires SystemInv(hash, s) && From(hash, s, run).Some? && forall i :: 0 <= i < |run| ==> IsThreadMove(run[i].move)
    ensures |run| + Work(From(hash, s, run).value.threads) <= Work(s.threads) <= 11 * |s.threads|
    ensures From(hash, s, run).value.threads != map[] ==>
              exists e: Timed :: IsThreadMove(e.move) && Advance(hash, From(hash, s, run).value, e).Some?
  {
    WorkBounded(s.threads);
    var end := From(hash, s, run).value;
    if run != [] {
      var before := From(hash, s, run[..|run| - 1]).value;
      ThreadsAlone(hash, s, run[..|run| - 1]);
      WorkDone(hash, before, run[|run| - 1]);
    }
    if end.threads != map[] {
      FromKeeps(hash, s, run);
      var t := Mover(hash, end);
      var m := SomeDue(end, t);
      assert end.(now := end.now) == end;
      assert Advance(hash, end, Timed(end.now, m)).Some?;
    }
  }

  /** There is always an answer: a credential may be refused for want of a new id. */
  lemma {:induction false} SomeDue(s: System, t: Tid) returns (m: Move)
    requires t in s.threads
    ensures IsThreadMove(m) && m.tid == t && Due(s.threads[t], m) && NewIds(s, t, m)
  {
    match s.threads[t]
    case Looked(_, _) => m := Begin(t);
    case Began(_, _) => m := Exchange(t, None);
    case Exchanged(_, _, c) => m := Store(t, c.expiresAt, (i: nat) => "");
    case Stored(_, _, _) => m := Acquire(t);
    case Locked(_, _, _) => m := ReadCatalog(t, true);
    case Read(_, _, _, _) => m := Commit(t, true);
    case Committed(_, _, _, _) => m := Retire(t);
    case RolledBack(_, _, _, _) => m := Undo(t);
    case Installed(_, _) => m := Finish(t);
    case Failing(_, _) => m := Drop(t);
    case Cleaned(_) => m := Check(t, false);
    case Checked(_, _) => m := Report(t, false, TokenExchangeFailed);
  }
}
