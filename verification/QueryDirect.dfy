/** When a query that is answered at once succeeds: nothing that could stop it is true. */
module QueryDirect {
  import opened Wrappers
  import opened ChunkPath
  import opened QueryTrace
  import opened QueryWorld

  /** The user never interrupts, and the time never runs out. */
  ghost predicate Calm(world: World, o: Options) {
    (forall n: nat :: !world.interrupt(n)) && (forall n: nat :: Delays(world, n) < o.overallTimeoutMs as int)
  }

  /** The answer to the first request, as the codec reads it. */
  function FirstAnswer(world: World): Option<QueryResponse> { DecodedBy(world, world.reply(0)) }

  /** The answer announces that it is the whole result. */
  ghost predicate AllAtOnce(o: Options, r: QueryResponse) {
    && r.state == QueryState.Complete && !Chunked(r) && r.chunk.nextUrl == "" && (r.queryId == "" || SafeId(r.queryId))
    && |r.metadata| <= o.maxColumns as int
  }

  /** Its rows are as announced, and within all limits. */
  predicate Deliverable(o: Options, r: QueryResponse) {
    var rows, width := |r.chunk.rows|, |r.metadata|;
    && Declared(r) && (r.hasRowCount ==> r.rowCount as int == rows) && Wide(r.chunk.rows, width)
    && rows <= o.maxRows as int && Times(rows, width) <= o.maxCells as int
  }

  /** Nothing goes wrong outside, and the first answer announces the whole result. */
  ghost predicate AnswersAtOnce(world: World, o: Options) {
    && Calm(world, o) && world.reply(0).Some? && |world.reply(0).value.body| <= o.maxTotalBytes as int
    && FirstAnswer(world).Some? && AllAtOnce(o, FirstAnswer(world).value)
  }

  /** Such an answer calls for no further request. */
  predicate AskedOnce(world: World, most: nat, t: Trace) {
    && t.Then? && t.before == Start && t.last.endpoint == Submit
    && t.last.reply == world.reply(0) && t.last.budget as int == most
  }

  lemma {:induction false} OneRequest(world: World, o: Options, t: Trace, id: string, calls: nat, bytes: nat)
    requires AnswersAtOnce(world, o) && Proper(t, id, o) && NoCleanup(t)
    requires Recorded(world, o.maxTotalBytes as int, t, calls, bytes)
    ensures t == Start || AskedOnce(world, o.maxTotalBytes as int, t)
  {
    if t.Then? {
      OneRequest(world, o, t.before, id, calls - 1, bytes - Charged(t.last));
      NoPath(id);
    }
  }

  lemma NoPath(id: string)
    ensures !LinksTo("", id)
  {}

  lemma {:induction false} NeverInterrupted(world: World, n: nat)
    requires forall k: nat :: !world.interrupt(k)
    ensures !Interrupts(world, n)
  {
    if n > 0 { NeverInterrupted(world, n - 1); }
  }

  /** A record of a session in such a world, abandoned or not. */
  ghost predicate RecordedIn(world: World, o: Options, t: Trace, f: Facts, tape: Tape, clock: nat, startedAt: nat, bytes: nat, naps: nat) {
    && TimedIn(world, tape, clock, startedAt, Times(naps, o.pollIntervalMs as int))
    && LoggedIn(world, o.maxTotalBytes as int, tape.calls, bytes, naps, t)
    && Proper(t, f.queryId, o) && (NoCleanup(t) || CleanedUp(t, f.queryId))
    && (f.queryId == "" || (SafeId(f.queryId) && Named(world, t, f.queryId)))
    && f.latest == Latest(t) && f.interrupted == tape.interrupted && f.late == (clock - startedAt >= o.overallTimeoutMs as int)
  }

  lemma HeardOf(world: World, o: Options, t: Trace, id: string)
    requires AnswersAtOnce(world, o) && (t == Start || AskedOnce(world, o.maxTotalBytes as int, t))
    ensures Links(t) == [] && RunningHeard(world, t) == 0 && (id != "" && Named(world, t, id) ==> id == FirstAnswer(world).value.queryId)
  {
    NoPath(id);
    assert !Named(world, Start, id);
  }

  /** The one request, and what the session knows after it. */
  lemma HeardOnce(world: World, o: Options, t: Trace, f: Facts, tape: Tape, clock: nat, startedAt: nat, bytes: nat, naps: nat)
    requires AnswersAtOnce(world, o) && RecordedIn(world, o, t, f, tape, clock, startedAt, bytes, naps)
    ensures f.latest.Some? ==> f.latest.value.reply == world.reply(0) && f.latest.value.budget == o.maxTotalBytes && f.latest.value.endpoint == Submit
    ensures (StatusReply(t) == None || StatusReply(t) == world.reply(0)) && Links(t) == []
    ensures f.queryId != "" ==> f.queryId == FirstAnswer(world).value.queryId
    ensures RunningHeard(world, t) == 0
  {
    var asked := if CleanedUp(t, f.queryId) then t.before else t;
    var calls, spent := if CleanedUp(t, f.queryId) then tape.calls - 1 else tape.calls, bytes;
    OneRequest(world, o, asked, f.queryId, calls, spent);
    HeardOf(world, o, asked, f.queryId);
  }

  lemma Untroubled(world: World, o: Options, t: Trace, f: Facts, tape: Tape, clock: nat, startedAt: nat, bytes: nat, naps: nat, e: Error)
    requires AnswersAtOnce(world, o) && RecordedIn(world, o, t, f, tape, clock, startedAt, bytes, naps)
    ensures !Troubled(world, f, e)
  {
    HeardOnce(world, o, t, f, tape, clock, startedAt, bytes, naps);
    NeverInterrupted(world, tape.looks);
    Leading(f.queryId);
  }

  lemma Leading(id: string)
    ensures Leads("", id)
  {}

  /** An answer that announces the whole result is one that the preparation can go on with. */
  lemma Unhindered(world: World, o: Options, f: Facts, e: Error)
    requires AnswersAtOnce(world, o) && !Troubled(world, f, e)
    requires f.latest.Some? ==> f.latest.value.reply == world.reply(0) && f.latest.value.endpoint == Submit
    ensures !Hinders(world, o, f, e)
  {}

  lemma {:induction false} NeverDelayed(world: World, n: nat)
    requires forall k: nat :: world.delay(k) == 0
    ensures Delays(world, n) == 0
  {
    if n > 1 { NeverDelayed(world, n - 1); }
  }

  lemma IdleIsCalm(world: World, o: Options)
    requires (forall k: nat :: world.delay(k) == 0) && (forall k: nat :: !world.interrupt(k))
    ensures Calm(world, o)
  {
    forall n: nat ensures Delays(world, n) < o.overallTimeoutMs as int { NeverDelayed(world, n); }
  }
}
