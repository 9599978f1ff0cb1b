/**
 The credential store against a simple map. The registry forgets elapsed credentials when it
 stores or resolves; the ledger below never forgets anything and filters by expiry on reading.
 */
module CredentialStore {
  import opened IdOrder
  import opened AuthRegistry
  import opened AuthRegistryProofs

  /** The never-purged map after a call that was answered with `reply`. */
  function Record(ledger: Credentials, op: Op, reply: Reply): Credentials {
    match op
    case StoreCredential(url, token, expiresAt, _, _) =>
      if reply.NewId? then ledger[reply.id := Credential(url, token, expiresAt)] else ledger
    case RemoveCredential(id) => ledger - {id}
    case _ => ledger
  }

  function Lookup(ledger: Credentials, now: nat, id: Id): Reply {
    if id in ledger && now < ledger[id].expiresAt then Resolved(ledger[id].instanceUrl, ledger[id].accessToken)
    else Threw(ReauthRequired)
  }

  /** The two maps hold the same live credentials. */
  ghost predicate Agree(store: Credentials, ledger: Credentials, now: nat) {
    forall k :: (k in store && now < store[k].expiresAt) || (k in ledger && now < ledger[k].expiresAt)
                ==> k in store && k in ledger && store[k] == ledger[k]
  }

  lemma {:induction false} SameLive(store: Credentials, ledger: Credentials, now: nat)
    requires Agree(store, ledger, now)
    ensures Live(store, now) == Live(ledger, now)
  {}

  lemma {:induction false} StoreAgrees(r: Registry, ledger: Credentials, now: nat, op: Op)
    requires op.StoreCredential? && Agree(r.credentials, ledger, now)
    ensures var o := Step(r, now, op); Agree(o.state.credentials, Record(ledger, op, o.reply), now)
  {}

  lemma {:induction false} CredentialStepAgrees(r: Registry, ledger: Credentials, now: nat, op: Op)
    requires Agree(r.credentials, ledger, now)
    ensures var o := Step(r, now, op);
            && Agree(o.state.credentials, Record(ledger, op, o.reply), now)
            && (op.ResolveCredential? ==> o.reply == Lookup(ledger, now, op.id))
  {
    if op.StoreCredential? { StoreAgrees(r, ledger, now, op); }
  }

  /** Past its argument check, `StoreCredential` refuses exactly when sixteen unexpired
      credentials are stored, or when the sixteen drawn ids are all in use. */
  lemma {:induction false} StoreRefusesExactlyWhenFull(r: Registry, ledger: Credentials, now: nat, op: Op)
    requires op.StoreCredential? && Agree(r.credentials, ledger, now)
    requires op.instanceUrl != "" && op.accessToken != "" && op.expiresAt > op.firstRead
    ensures var reply := Step(r, now, op).reply;
            var free := FreeId(r.(credentials := Live(ledger, now)), op.ids);
            if |Live(ledger, now)| >= MAX_CREDENTIALS || free == "" then reply == Threw(SessionLimitReached)
            else reply == NewId(free)
  {
    SameLive(r.credentials, ledger, now);
  }

  ghost predicate Ordered(run: seq<Event>) {
    forall i, j :: 0 <= i < j < |run| ==> run[i].at <= run[j].at
  }

  ghost function Ledger(run: seq<Event>): Credentials {
    if run == [] then map[] else Record(Ledger(run[..|run| - 1]), run[|run| - 1].op, After(run).reply)
  }

  /** Refinement over whole runs with a nondecreasing clock: every `ResolveCredential` is
      answered as the never-purged map filtered by expiry answers it. */
  lemma {:induction false} StoreRefinesLedger(run: seq<Event>, now: nat)
    requires Ordered(run) && (run != [] ==> run[|run| - 1].at <= now)
    ensures Agree(Final(run).credentials, Ledger(run), now)
    ensures forall id :: Step(Final(run), now, ResolveCredential(id)).reply == Lookup(Ledger(run), now, id)
  {
    if run != [] {
      var before, e := run[..|run| - 1], run[|run| - 1];
      StoreRefinesLedger(before, e.at);
      CredentialStepAgrees(Final(before), Ledger(before), e.at, e.op);
      assert Agree(Final(run).credentials, Ledger(run), e.at);
    }
    forall id ensures Step(Final(run), now, ResolveCredential(id)).reply == Lookup(Ledger(run), now, id) {
      CredentialStepAgrees(Final(run), Ledger(run), now, ResolveCredential(id));
    }
  }
}
