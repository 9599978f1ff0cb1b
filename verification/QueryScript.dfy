/** When a query whose result comes in numbered chunks succeeds: what the world has to answer, and
    that the requests meet these answers in order. */
module QueryScript {
  import opened Wrappers
  import opened ChunkPath
  import opened QueryTrace
  import opened QueryWorld
  import opened QueryDirect
  import Text

  /** The answer to the n-th request, as the codec reads it. */
  function AnswerAt(world: World, n: nat): Option<QueryResponse> { DecodedBy(world, world.reply(n)) }

  /** The bytes of the `k` answers from `first` on. */
  function BytesFrom(world: World, first: nat, k: nat): nat {
    if k == 0 then 0 else
    BytesFrom(world, first, k - 1) + if world.reply(first + k - 1).Some? then |world.reply(first + k - 1).value.body| else 0
  }

  lemma {:induction false} BytesGrow(world: World, first: nat, i: nat, k: nat)
    requires i <= k
    ensures BytesFrom(world, first, i) <= BytesFrom(world, first, k)
    decreases k
  {
    if i < k { BytesGrow(world, first, i, k - 1); }
  }

  /** No interrupt, and time enough for all steps and `naps` pauses. */
  ghost predicate Quiet(world: World, o: Options, naps: nat) {
    (forall n: nat :: !world.interrupt(n)) && forall n: nat :: Delays(world, n) + Times(naps, o.pollIntervalMs as int) < o.overallTimeoutMs as int
  }

  /** The next `n` requests are answered, and the answers fit what is left of the bytes. */
  ghost predicate Replied(world: World, o: Options, first: nat, n: nat, bytes: nat, naps: nat) {
    && Quiet(world, o, naps) && bytes + BytesFrom(world, first, n) <= o.maxTotalBytes as int
    && forall i :: first <= i < first + n ==> world.reply(i).Some?
  }

  // ---------------------------------------------------------------- requests and answers

  lemma {:induction false} RecordedOnce(world: World, most: nat, t: Trace, calls: nat, bytes: nat, calls': nat, bytes': nat)
    requires Recorded(world, most, t, calls, bytes) && Recorded(world, most, t, calls', bytes')
    ensures calls == calls' && bytes == bytes'
  {
    if t.Then? { RecordedOnce(world, most, t.before, calls - 1, bytes - Charged(t.last), calls' - 1, bytes' - Charged(t.last)); }
  }

  /** Since `start`, where `calls` requests had been made and `bytes` bytes charged, `t` made only
      chunk requests: they met the answers from `calls` on, in order. */
  ghost predicate Met(world: World, most: nat, calls: nat, bytes: nat, t: Trace, callsNow: nat, bytesNow: nat) {
    && callsNow == calls + |Chunks(t)| && bytesNow <= bytes + BytesFrom(world, calls, |Chunks(t)|)
    && (forall i :: 0 <= i < |Chunks(t)| ==> Chunks(t)[i].reply == world.reply(calls + i))
    && (Chunks(t) != [] ==> var k := |Chunks(t)| - 1;
                            Latest(t) == Some(Chunks(t)[k]) && Chunks(t)[k].budget as int >= most - bytes - BytesFrom(world, calls, k))
  }

  lemma {:induction false} ChunksMeet(world: World, most: nat, start: Trace, calls: nat, bytes: nat, t: Trace, callsNow: nat, bytesNow: nat)
    requires Recorded(world, most, start, calls, bytes) && Chunks(start) == []
    requires Recorded(world, most, t, callsNow, bytesNow) && Onward(start, t) && NoCleanup(t) && Links(t) == []
    ensures Met(world, most, calls, bytes, t, callsNow, bytesNow)
    decreases t
  {
    if t == start {
      RecordedOnce(world, most, t, calls, bytes, callsNow, bytesNow);
    } else {
      var before := t.before;
      ChunksMeet(world, most, start, calls, bytes, before, callsNow - 1, bytesNow - Charged(t.last));
      OneMoreMet(world, most, calls, bytes, t, callsNow, bytesNow);
    }
  }

  lemma OneMoreMet(world: World, most: nat, calls: nat, bytes: nat, t: Trace, callsNow: nat, bytesNow: nat)
    requires t.Then? && t.last.endpoint.Chunk? && callsNow > 0 && bytesNow >= Charged(t.last)
    requires Met(world, most, calls, bytes, t.before, callsNow - 1, bytesNow - Charged(t.last))
    requires t.last.reply == world.reply(callsNow - 1) && t.last.budget as int == most - (bytesNow - Charged(t.last))
    ensures Met(world, most, calls, bytes, t, callsNow, bytesNow)
  {
    var k := |Chunks(t.before)|;
    assert Chunks(t) == Chunks(t.before) + [t.last] && |Chunks(t)| == k + 1;
    assert world.reply(calls + (k + 1) - 1) == t.last.reply;
  }

  // ---------------------------------------------------------------- chunks read by the codec

  /** The rows of the `k` answers from `first` on. */
  function RowsFrom(world: World, first: nat, k: nat): nat {
    if k == 0 then 0 else
    RowsFrom(world, first, k - 1) + if AnswerAt(world, first + k - 1).Some? then |AnswerAt(world, first + k - 1).value.chunk.rows| else 0
  }

  lemma {:induction false} RowsGrow(world: World, first: nat, i: nat, k: nat)
    requires i <= k
    ensures RowsFrom(world, first, i) <= RowsFrom(world, first, k)
    decreases k
  {
    if i < k { RowsGrow(world, first, i, k - 1); }
  }

  /** An answer that brings a chunk of the announced result. */
  ghost predicate BringsChunk(terms: Terms, id: string, r: QueryResponse) {
    && r.state == QueryState.Complete && Consistent(r, id) && (r.metadata == [] || r.metadata == terms.metadata)
    && Declared(r) && Wide(r.chunk.rows, |terms.metadata|)
  }

  /** The next answers bring all announced chunks, with all announced rows, within all limits. */
  ghost predicate Serves(world: World, o: Options, terms: Terms, id: string, first: nat, bytes: nat, naps: nat) {
    var n := terms.chunks as int;
    && Replied(world, o, first, n, bytes, naps) && terms.chunks <= o.maxChunks
    && (forall i :: first <= i < first + n ==> AnswerAt(world, i).Some? && BringsChunk(terms, id, AnswerAt(world, i).value))
    && RowsFrom(world, first, n) <= o.maxRows as int && Times(RowsFrom(world, first, n), |terms.metadata|) <= o.maxCells as int
    && (terms.hasRows ==> terms.rows as int == RowsFrom(world, first, n))
  }

  /** The chunks of these answers. */
  function ChunksFrom(world: World, first: nat, n: nat): (chunks: seq<ResultChunk>)
    ensures |chunks| == n
    ensures forall i :: 0 <= i < n && AnswerAt(world, first + i).Some? ==> chunks[i] == AnswerAt(world, first + i).value.chunk
  {
    seq(n, i requires 0 <= i < n =>
      if AnswerAt(world, first + i).Some? then AnswerAt(world, first + i).value.chunk else ResultChunk([], ""))
  }

  /** The chunk that is due is not refused. */
  lemma NotRejected(world: World, o: Options, f: Facts, terms: Terms, id: string, first: nat, bytes: nat, naps: nat, e: Error)
    requires Serves(world, o, terms, id, first, bytes, naps) && f.fetched as int < terms.chunks as int
    requires f.metadata == terms.metadata && f.hasRows == terms.hasRows && f.expectedRows == terms.rows
    requires f.rows as int == RowsFrom(world, first, f.fetched as int)
    ensures !Rejectable(o, f, AnswerAt(world, first + f.fetched as int).value, e)
  {
    var k := f.fetched as int;
    RowsGrow(world, first, k + 1, terms.chunks as int);
    TimesMonotone(RowsFrom(world, first, k + 1), RowsFrom(world, first, terms.chunks as int), |terms.metadata|);
  }

  /** Nor is there any trouble about the request for it. */
  lemma NotTroubled(world: World, o: Options, f: Facts, terms: Terms, id: string, first: nat, bytes: nat, naps: nat, e: Error)
    requires Serves(world, o, terms, id, first, bytes, naps) && f.fetched as int < terms.chunks as int
    requires !f.interrupted && !f.late && f.queryId == id && SafeId(id) && f.latest.Some?
    requires f.latest.value.reply == world.reply(first + f.fetched as int)
    requires f.latest.value.budget as int >= o.maxTotalBytes as int - bytes - BytesFrom(world, first, f.fetched as int)
    ensures !Troubled(world, f, e) && LatestAnswer(world, f) == AnswerAt(world, first + f.fetched as int)
  {
    var k := f.fetched as int;
    BytesGrow(world, first, k + 1, terms.chunks as int);
    assert world.reply(first + k).Some? && BringsChunk(terms, id, AnswerAt(world, first + k).value);
    assert BytesFrom(world, first, k + 1) == BytesFrom(world, first, k) + |world.reply(first + k).value.body|;
  }

  /** So the delivery does not stop before the end of the data. */
  lemma NotStopped(world: World, o: Options, f: Facts, terms: Terms, id: string, first: nat, bytes: nat, naps: nat, e: Error)
    requires Serves(world, o, terms, id, first, bytes, naps) && f.fetched as int < terms.chunks as int
    requires !f.interrupted && !f.late && f.queryId == id && SafeId(id) && f.nextUrl == ""
    requires f.metadata == terms.metadata && f.hasRows == terms.hasRows && f.expectedRows == terms.rows
    requires f.rows as int == RowsFrom(world, first, f.fetched as int)
    requires f.due ==> && f.latest.Some? && f.latest.value.reply == world.reply(first + f.fetched as int)
                       && f.latest.value.budget as int >= o.maxTotalBytes as int - bytes - BytesFrom(world, first, f.fetched as int)
    ensures !Stops(world, o, f, e)
  {
    if f.due {
      NotTroubled(world, o, f, terms, id, first, bytes, naps, e);
      NotRejected(world, o, f, terms, id, first, bytes, naps, e);
    }
  }

  // ---------------------------------------------------------------- the preparation

  /** The id that the answer to the submission gives the query. */
  function GivenId(world: World): string { if AnswerAt(world, 0).Some? then AnswerAt(world, 0).value.queryId else "" }

  /** An answer to the submission or a poll: the query is running, or done, with its result in
      numbered chunks within the limits. */
  ghost predicate Reports(o: Options, id: string, r: QueryResponse, done: bool) {
    && r.queryId == id && Consistent(r, id)
    && if done then r.state == QueryState.Complete && Chunked(r) && r.chunkCount <= o.maxChunks && (r.hasRowCount ==> r.rowCount <= o.maxRows)
       else r.state.Running?
  }

  /** An answer that describes the result. */
  ghost predicate Describes(o: Options, id: string, r: QueryResponse) {
    && r.state == QueryState.Complete && r.metadata != [] && NumericComplete(r.metadata)
    && |r.metadata| <= o.maxColumns as int && Consistent(r, id)
  }

  /** The query is done at the `polls`-th poll, if not at once, and then described. */
  ghost predicate Completes(world: World, o: Options, polls: nat) {
    && SafeId(GivenId(world)) && Quiet(world, o, polls) && BytesFrom(world, 0, polls + 2) <= o.maxTotalBytes as int
    && (forall i :: 0 <= i <= polls ==> AnswerAt(world, i).Some? && Reports(o, GivenId(world), AnswerAt(world, i).value, i == polls))
    && AnswerAt(world, polls + 1).Some? && Describes(o, GivenId(world), AnswerAt(world, polls + 1).value)
  }

  /** What a session expects after these two answers. */
  function Expected(status: QueryResponse, described: QueryResponse): Terms {
    Expecting(NumberedV3, described.metadata, status.hasRowCount, status.rowCount, status.chunkCount)
  }

  /** And the answers after that bring its chunks. */
  ghost predicate AnswersInChunks(world: World, o: Options, polls: nat) {
    && Completes(world, o, polls)
    && Serves(world, o, Expected(AnswerAt(world, polls).value, AnswerAt(world, polls + 1).value), GivenId(world),
              polls + 2, BytesFrom(world, 0, polls + 2), polls)
  }

  /** The requests of such a preparation: the submission, the polls, the one for metadata. */
  predicate Prepares(world: World, most: nat, polls: nat, t: Trace, calls: nat) {
    match t
    case Start => calls == 0
    case Then(before, e) =>
      && 0 < calls <= polls + 2 && e.reply == world.reply(calls - 1) && e.budget as int >= most - BytesFrom(world, 0, calls - 1)
      && (if calls == polls + 2 then e.endpoint.MetadataOf? else IsStatus(e.endpoint))
      && Prepares(world, most, polls, before, calls - 1)
  }

  lemma {:induction false} PreparesHeard(world: World, most: nat, polls: nat, t: Trace, calls: nat)
    requires Prepares(world, most, polls, t, calls)
    ensures Latest(t) == if t.Start? then None else Some(t.last)
    ensures StatusReply(t) == if calls == 0 then None else world.reply(if calls == polls + 2 then polls else calls - 1)
    ensures MetadataReply(t) == if calls == polls + 2 then world.reply(polls + 1) else None
  {
    if t.Then? { PreparesHeard(world, most, polls, t.before, calls - 1); }
  }

  lemma {:induction false} PreparesInOrder(world: World, o: Options, polls: nat, t: Trace, calls: nat, bytes: nat)
    requires Completes(world, o, polls) && Recorded(world, o.maxTotalBytes as int, t, calls, bytes)
    requires NoCleanup(t) && Chunks(t) == [] && Links(t) == []
    ensures Prepares(world, o.maxTotalBytes as int, polls, t, calls) && bytes <= BytesFrom(world, 0, calls)
  {
    if t.Then? {
      var before := t.before;
      PreparesInOrder(world, o, polls, before, calls - 1, bytes - Charged(t.last));
      PreparesHeard(world, o.maxTotalBytes as int, polls, before, calls - 1);
      NextOfPreparation(world, o, polls, before, calls - 1, t.last.endpoint);
    }
  }

  /** What is called for next. */
  lemma NextOfPreparation(world: World, o: Options, polls: nat, before: Trace, calls: nat, next: Endpoint)
    requires Completes(world, o, polls) && Prepares(world, o.maxTotalBytes as int, polls, before, calls)
    requires Latest(before) == if before.Start? then None else Some(before.last)
    requires StatusReply(before) == if calls == 0 then None else world.reply(if calls == polls + 2 then polls else calls - 1)
    requires CalledFor(world, before, next) && !next.Chunk? && !next.Legacy? && !next.Cleanup?
    ensures calls < polls + 2 && if calls == polls + 1 then next.MetadataOf? else IsStatus(next)
  {
    if calls > 0 {
      assert before.last.reply == world.reply(calls - 1);
      if calls <= polls + 1 { assert Reports(o, GivenId(world), AnswerAt(world, calls - 1).value, calls - 1 == polls); }
    }
  }

  /** The trace without the DELETE that may end it. */
  function Asked(t: Trace): Trace { if t.Then? && t.last.endpoint.Cleanup? then t.before else t }

  /** What the session has heard and learned by then. */
  lemma {:induction false} PreparesLearns(world: World, o: Options, polls: nat, t: Trace, calls: nat, id: string)
    requires Completes(world, o, polls) && Prepares(world, o.maxTotalBytes as int, polls, t, calls)
    ensures RunningHeard(world, t) <= polls && RunningHeard(world, t) <= calls
    ensures id != "" && Named(world, t, id) ==> id == GivenId(world)
  {
    if t.Then? {
      PreparesLearns(world, o, polls, t.before, calls - 1, id);
      if calls <= polls + 1 { assert Reports(o, GivenId(world), AnswerAt(world, calls - 1).value, calls - 1 == polls); }
    }
  }

  /** The answer to a request of the preparation is within its budget. */
  lemma AnswerFits(world: World, o: Options, polls: nat, n: nat)
    requires Completes(world, o, polls) && n <= polls + 1 && world.reply(n).Some?
    ensures BytesFrom(world, 0, n) + |world.reply(n).value.body| <= o.maxTotalBytes as int
  {
    BytesGrow(world, 0, n + 1, polls + 2);
    assert BytesFrom(world, 0, n + 1) == BytesFrom(world, 0, n) + |world.reply(n).value.body|;
  }

  /** The n-th answer is no reason to stop ... */
  lemma NoTrouble(world: World, o: Options, polls: nat, f: Facts, n: nat, e: Error)
    requires Completes(world, o, polls) && n <= polls + 1 && !f.interrupted && !f.late && f.latest.Some?
    requires f.latest.value.reply == world.reply(n) && f.latest.value.budget as int >= o.maxTotalBytes as int - BytesFrom(world, 0, n)
    requires f.queryId == "" || f.queryId == GivenId(world)
    ensures !Troubled(world, f, e) && LatestAnswer(world, f) == AnswerAt(world, n) && AnswerAt(world, n).Some?
  {
    if n <= polls { assert Reports(o, GivenId(world), AnswerAt(world, n).value, n == polls); }
    AnswerFits(world, o, polls, n);
  }

  /** ... whether it reports on the query or describes the result. */
  lemma NoFault(world: World, o: Options, polls: nat, f: Facts, n: nat, e: Error)
    requires Completes(world, o, polls) && n <= polls + 1 && f.latest.Some? && AnswerAt(world, n).Some?
    requires if n == polls + 1 then f.latest.value.endpoint.MetadataOf? else IsStatus(f.latest.value.endpoint)
    ensures !Unfitting(o, f, AnswerAt(world, n).value, e)
  {
    if n <= polls { assert Reports(o, GivenId(world), AnswerAt(world, n).value, n == polls); }
  }

  /** The whole record of a session in such a world, abandoned or not. */
  lemma PreparesWell(world: World, o: Options, polls: nat, t: Trace, f: Facts, tape: Tape, clock: nat, startedAt: nat,
                     bytes: nat, naps: nat, e: Error)
    requires Completes(world, o, polls) && RecordedIn(world, o, t, f, tape, clock, startedAt, bytes, naps)
    requires Chunks(t) == [] && Links(t) == []
    ensures !Hinders(world, o, f, e) && naps <= polls && (f.queryId == "" || f.queryId == GivenId(world))
    ensures NoCleanup(t) ==> bytes <= BytesFrom(world, 0, tape.calls) && HeardBy(world, polls, t, tape.calls)
  {
    var asked, calls := Asked(t), if CleanedUp(t, f.queryId) then tape.calls - 1 else tape.calls;
    PreparesInOrder(world, o, polls, asked, calls, bytes);
    PreparesHeard(world, o.maxTotalBytes as int, polls, asked, calls);
    PreparesLearns(world, o, polls, asked, calls, f.queryId);
    InTime(world, o, polls, f, tape, clock, startedAt, naps);
    NotHindered(world, o, polls, asked, calls, f, e);
  }

  lemma InTime(world: World, o: Options, polls: nat, f: Facts, tape: Tape, clock: nat, startedAt: nat, naps: nat)
    requires Quiet(world, o, polls) && TimedIn(world, tape, clock, startedAt, Times(naps, o.pollIntervalMs as int)) && naps <= polls
    requires f.interrupted == tape.interrupted && f.late == (clock - startedAt >= o.overallTimeoutMs as int)
    ensures !f.interrupted && !f.late
  {
    NeverInterrupted(world, tape.looks);
    TimesMonotone(naps, polls, o.pollIntervalMs as int);
  }

  lemma NotHindered(world: World, o: Options, polls: nat, asked: Trace, calls: nat, f: Facts, e: Error)
    requires Completes(world, o, polls) && Prepares(world, o.maxTotalBytes as int, polls, asked, calls)
    requires !f.interrupted && !f.late && (f.queryId == "" || f.queryId == GivenId(world))
    requires f.latest == if asked.Start? then None else Some(asked.last)
    ensures !Hinders(world, o, f, e)
  {
    if asked.Then? {
      NoTrouble(world, o, polls, f, calls - 1, e);
      NoFault(world, o, polls, f, calls - 1, e);
    }
  }

  /** What has been heard after `calls` requests. */
  predicate HeardBy(world: World, polls: nat, t: Trace, calls: nat) {
    && calls <= polls + 2
    && StatusReply(t) == (if calls == 0 then None else world.reply(if calls == polls + 2 then polls else calls - 1))
    && MetadataReply(t) == if calls == polls + 2 then world.reply(polls + 1) else None
  }

  // ---------------------------------------------------------------- a server of this kind

  const RUNNING := QueryResponse(
    QueryState.Running, "q", 0, 0, false, false, 0, false, [], ResultChunk([], ""))
  const COMPLETED := QueryResponse(
    QueryState.Complete, "q", 1, 1, true, true, 0, false, [], ResultChunk([], ""))
  const DESCRIBED := QueryResponse(
    QueryState.Complete, "q", 0, 0, false, false, 0, false, [Column("a", "text", true, false, false, 0, 0)], ResultChunk([], ""))
  const ONE_ROW := QueryResponse(
    QueryState.Complete, "", 0, 0, false, false, 1, true, [], ResultChunk([[None]], ""))

  /** It completes the query at the `polls`-th poll, with one chunk of one row. */
  function Serving(polls: nat): World {
    World(n => Some(HttpResponse(n, "", "application/json")),
          (response: HttpResponse) => Decoded(
            if response.status < polls then RUNNING
            else if response.status == polls then COMPLETED
            else if response.status == polls + 1 then DESCRIBED else ONE_ROW),
          n => 0, n => false)
  }

  lemma {:induction false} NoBytes(polls: nat, first: nat, k: nat)
    ensures BytesFrom(Serving(polls), first, k) == 0
  {
    if k > 0 { NoBytes(polls, first, k - 1); }
  }

  lemma ThereIsAServer(o: Options, polls: nat)
    requires Times(polls, o.pollIntervalMs as int) < o.overallTimeoutMs as int
    ensures AnswersInChunks(Serving(polls), o, polls)
  {
    ItCompletes(o, polls);
    ItServes(o, polls);
  }

  lemma ItCompletes(o: Options, polls: nat)
    requires Times(polls, o.pollIntervalMs as int) < o.overallTimeoutMs as int
    ensures Completes(Serving(polls), o, polls)
  {
    var world := Serving(polls);
    forall n: nat ensures Delays(world, n) + Times(polls, o.pollIntervalMs as int) < o.overallTimeoutMs as int { NeverDelayed(world, n); }
    NoBytes(polls, 0, polls + 2);
    NotNumeric(DESCRIBED.metadata);
    NoPath("q");
    forall i | 0 <= i <= polls ensures AnswerAt(world, i).Some? && Reports(o, "q", AnswerAt(world, i).value, i == polls) {
      assert AnswerAt(world, i) == Some(if i < polls then RUNNING else COMPLETED);
    }
    assert AnswerAt(world, polls + 1) == Some(DESCRIBED);
  }

  lemma ItServes(o: Options, polls: nat)
    requires Completes(Serving(polls), o, polls)
    ensures AnswersInChunks(Serving(polls), o, polls)
  {
    var world, terms := Serving(polls), Expected(COMPLETED, DESCRIBED);
    assert AnswerAt(world, polls) == Some(COMPLETED) && AnswerAt(world, polls + 1) == Some(DESCRIBED) && AnswerAt(world, polls + 2) == Some(ONE_ROW);
    NoBytes(polls, 0, polls + 2);
    NoBytes(polls, polls + 2, 1);
    assert RowsFrom(world, polls + 2, 1) == RowsFrom(world, polls + 2, 0) + 1;
    TimesIsProduct(1, 1);
    NoPath("q");
    assert BringsChunk(terms, "q", ONE_ROW);
  }

  lemma NotNumeric(metadata: Columns)
    requires |metadata| == 1 && metadata[0].typeName == "text"
    ensures NumericComplete(metadata)
  {
    assert Text.Lower("text")[0] == 't';
  }
}
