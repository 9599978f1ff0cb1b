/** Whole lives of a query session: `Execute`, and any sequence of calls on a cursor. */
module QueryRuns {
  import opened Wrappers
  import opened QueryTrace
  import opened QueryWorld
  import opened QueryDirect
  import opened QuerySession
  import opened QuerySteps
  import opened QueryScript
  import opened QueryServed
  import Origins

  /** The world's record of a valid session. */
  lemma SessionRecord(s: Session, e: Error)
    requires s.Valid() && AnswersAtOnce(s.world, s.options)
    ensures !s.Trouble(e) && !s.Unready(e)
    ensures LatestAnswer(s.world, s.Facts()).Some? ==> LatestAnswer(s.world, s.Facts()) == FirstAnswer(s.world)
    ensures (StatusReply(s.sent) == None || StatusReply(s.sent) == s.world.reply(0)) && Links(s.sent) == []
    ensures s.queryId != "" ==> s.queryId == FirstAnswer(s.world).value.queryId
  {
    HeardOnce(s.world, s.options, s.sent, s.Facts(), s.tape, s.clock, s.startedAt, s.totalBytes as int, s.naps);
    Untroubled(s.world, s.options, s.sent, s.Facts(), s.tape, s.clock, s.startedAt, s.totalBytes as int, s.naps, e);
    Unhindered(s.world, s.options, s.Facts(), e);
  }

  /** How a query ends whose first answer announces the whole result: with that answer, if its
      rows are as announced and within the limits. */
  ghost predicate Settled(world: World, o: Options, r: Result<seq<ResultChunk>, Error>) {
    AnswersAtOnce(world, o) ==>
      var q := FirstAnswer(world).value; if Deliverable(o, q) then r == Ok([q.chunk]) else r.Err?
  }

  lemma OneChunk(chunk: ResultChunk)
    ensures Total([chunk]) == |chunk.rows|
  {
    Appended([], chunk, 0);
    assert [] + [chunk] == [chunk];
  }

  /** Its result is the one chunk. */
  lemma SettledWell(s: Session, chunks: seq<ResultChunk>)
    requires s.Valid() && s.reconciled && Progress(s, chunks)
    ensures Settled(s.world, s.options, Ok(chunks))
  {
    if AnswersAtOnce(s.world, s.options) {
      SessionRecord(s, WrongUse);
      DoneIsComplete(s, chunks);
      OneAnswer(s, chunks);
    }
  }

  lemma OneAnswer(s: Session, chunks: seq<ResultChunk>)
    requires s.Valid() && AnswersAtOnce(s.world, s.options) && CompleteResult(s, chunks)
    requires (StatusReply(s.sent) == None || StatusReply(s.sent) == s.world.reply(0)) && Links(s.sent) == []
    ensures chunks == [FirstAnswer(s.world).value.chunk] && Deliverable(s.options, FirstAnswer(s.world).value)
  {
    OneChunk(chunks[0]);
  }

  /** Where such a query stands when it stops: at that answer, or after it. */
  lemma StandsAtOnce(world: World, at: Stage, got: seq<ResultChunk>, q: QueryResponse)
    requires Delivering(world, at, got) && DecodedBy(world, StatusReply(at.sent)) == Some(q) && Links(at.sent) == []
    requires q.chunk.nextUrl == "" && !Chunked(q)
    ensures at.terms.mode.DirectLegacy? && Announces(q, at.terms) && at.link == ""
    ensures if at.Ended() then at.rows == |q.chunk.rows| else at.kept == Some(q) && at.rows == 0 && at.fetched == 0
  {
    if got != [] {
      assert got == [got[0]];
      OneChunk(got[0]);
    }
  }

  lemma RefusedAtOnce(s: Session, q: QueryResponse, e: Error)
    requires s.Valid() && AnswersAtOnce(s.world, s.options) && FirstAnswer(s.world) == Some(q) && s.Undelivered(e)
    requires s.rows == 0 && s.fetched == 0 && s.nextUrl == "" && Announces(q, s.Terms()) && s.mode.DirectLegacy?
    ensures !Deliverable(s.options, q)
  {
    SessionRecord(s, e);
  }

  /** It fails only if its rows are not as announced or beyond the limits. */
  lemma SettledBadly(s: Session, at: Stage, got: seq<ResultChunk>, e: Error)
    requires s.Valid() && s.Announced() && Delivering(s.world, at, got) && StoppedAt(s, at, e)
    ensures Settled(s.world, s.options, Err(e))
  {
    if AnswersAtOnce(s.world, s.options) {
      var q := FirstAnswer(s.world).value;
      SessionRecord(s, e);
      NothingMoreHeard(at.sent, s.sent);
      NothingUnsent(at.sent, s.sent);
      StandsAtOnce(s.world, at, got, q);
      if !at.Ended() { RefusedAtOnce(s, q, e); }
    }
  }

  /** The loop of `Execute`. It ends because every chunk counts against the chunk limit. The
      cursor stood at `at` when it ended or stopped, with the chunks `got`. */
  method Drain(s: Session) returns (r: Result<seq<ResultChunk>, Error>, ghost at: Stage, ghost got: seq<ResultChunk>)
    requires s.Valid() && !s.terminal && Progress(s, [])
    modifies s`tape, s`clock, s`cap, s`totalBytes, s`sent, s`nextIndex, s`visited, s`queryId,
             s`rows, s`cells, s`fetched, s`spoiled, s`nextUrl, s`buffered, s`reconciled, s`terminal
    ensures s.Valid() && (r.Ok? <==> s.reconciled) && Drained(s, at, got, r) && Onward(old(s.sent), at.sent)
    ensures at.terms == old(StageOf(s)).terms && (at.terms.mode.NumberedV3? ==> at.id == old(StageOf(s)).id)
  {
    at, got := StageOf(s), [];
    var chunks: seq<ResultChunk> := [];
    while true
      invariant s.Valid() && !s.terminal && Progress(s, chunks)
      invariant got == chunks && at == StageOf(s) && Onward(old(s.sent), at.sent)
      invariant at.terms == old(StageOf(s)).terms && (at.terms.mode.NumberedV3? ==> at.id == old(StageOf(s)).id)
      decreases s.options.maxChunks as int - s.fetched as int
    {
      var next := Collect(s, chunks);
      if next.Err? { return Err(next.error), at, got; }
      if next.value.None? { return Ok(chunks), at, got; }
      MovesOnward(s.world, at, StageOf(s), next.value.value);
      OnwardTransitive(old(s.sent), at.sent, s.sent);
      chunks := chunks + [next.value.value];
      at, got := StageOf(s), chunks;
    }
  }

  lemma MovesOnward(world: World, at: Stage, now: Stage, chunk: ResultChunk)
    requires Moved(world, at, now, chunk)
    ensures Onward(at.sent, now.sent)
  {}

  /** The same loop, with what it comes to: a query in numbered chunks whose next answers bring
      them all returns them all. */
  method Deliver(s: Session) returns (r: Result<seq<ResultChunk>, Error>)
    requires s.Valid() && !s.terminal && Progress(s, [])
    modifies s`tape, s`clock, s`cap, s`totalBytes, s`sent, s`nextIndex, s`visited, s`queryId,
             s`rows, s`cells, s`fetched, s`spoiled, s`nextUrl, s`buffered, s`reconciled, s`terminal
    ensures s.Valid() && (r.Ok? <==> s.reconciled)
    ensures if r.Ok? then CompleteResult(s, r.value) else s.Announced() && Stopped(s, r.error)
    ensures Settled(s.world, s.options, r)
    ensures old(ServedFrom(s)) ==> r == Ok(ChunksFrom(s.world, old(s.tape.calls), s.expectedChunks as int))
  {
    ghost var served, outset := ServedFrom(s), OutsetOf(s);
    if served { BegunFrom(s); }
    ghost var at, got;
    r, at, got := Drain(s);
    Outcome(s, at, got, r, served, outset);
  }

  lemma Outcome(s: Session, at: Stage, got: seq<ResultChunk>, r: Result<seq<ResultChunk>, Error>, served: bool, outset: Outset)
    requires s.Valid() && Drained(s, at, got, r) && Onward(outset.from.sent, at.sent)
    requires served ==> outset.Promising(s.world, s.options)
    requires served ==> at.terms == outset.from.terms && at.id == outset.from.id && s.naps == outset.naps
    ensures if r.Ok? then CompleteResult(s, r.value) else s.Announced() && Stopped(s, r.error)
    ensures Settled(s.world, s.options, r)
    ensures served ==> r == Ok(ChunksFrom(s.world, outset.calls, s.expectedChunks as int))
  {
    if r.Ok? { DoneIsComplete(s, r.value); }
    SettledAtEnd(s, at, got, r);
    assert served ==> StageOf(s).terms == outset.from.terms && StageOf(s).id == outset.from.id;
    if served { ServedAtEnd(s, at, got, r, outset.from.sent, outset.calls, outset.bytes); }
  }

  /** How the loop ended. */
  ghost predicate Drained(s: Session, at: Stage, got: seq<ResultChunk>, r: Result<seq<ResultChunk>, Error>)
    reads s
  {
    && Delivering(s.world, at, got)
    && match r
       case Ok(chunks) => s.reconciled && Progress(s, chunks) && chunks == got && at == StageOf(s)
       case Err(e) => s.Announced() && StoppedAt(s, at, e)
  }

  lemma SettledAtEnd(s: Session, at: Stage, got: seq<ResultChunk>, r: Result<seq<ResultChunk>, Error>)
    requires s.Valid() && Drained(s, at, got, r)
    ensures Settled(s.world, s.options, r)
  {
    match r
    case Ok(chunks) => SettledWell(s, chunks);
    case Err(e) => SettledBadly(s, at, got, e);
  }

  lemma ServedAtEnd(s: Session, at: Stage, got: seq<ResultChunk>, r: Result<seq<ResultChunk>, Error>,
                    start: Trace, calls: nat, bytes: nat)
    requires s.Valid() && s.mode.NumberedV3? && Drained(s, at, got, r) && Onward(start, at.sent)
    requires Begun(s.world, s.options, start, calls, bytes)
    requires Serves(s.world, s.options, s.Terms(), s.queryId, calls, bytes, s.naps)
    ensures r == Ok(ChunksFrom(s.world, calls, s.expectedChunks as int))
  {
    match r
    case Ok(chunks) => AllDelivered(s, chunks, start, calls, bytes);
    case Err(e) => NeverStops(s, at, got, start, calls, bytes, e);
  }

  /** A query that is completed, at once or after any number of polls, with numbered chunks, then
      described, and then served with them, returns them. */
  ghost predicate Served(world: World, o: Options, r: Result<seq<ResultChunk>, Error>) {
    forall polls: nat :: AnswersInChunks(world, o, polls) ==>
      r == Ok(ChunksFrom(world, polls + 2, AnswerAt(world, polls).value.chunkCount as int))
  }

  lemma ReadyToDrain(s: Session)
    requires s.Ready() && Chunks(s.sent) == [] && Links(s.sent) == []
    ensures s.Valid() && !s.terminal && Progress(s, [])
    ensures forall polls: nat :: AnswersInChunks(s.world, s.options, polls) ==>
              ServedFrom(s) && s.tape.calls == polls + 2 && s.expectedChunks == AnswerAt(s.world, polls).value.chunkCount
  {
    forall polls: nat | AnswersInChunks(s.world, s.options, polls)
      ensures ServedFrom(s) && s.tape.calls == polls + 2 && s.expectedChunks == AnswerAt(s.world, polls).value.chunkCount
    {
      ReadyServed(s, polls);
    }
  }

  /** What the caller passed cannot be a query. */
  ghost predicate BadArguments(instanceUrl: string, sql: string, accessToken: string) {
    sql == "" || instanceUrl == "" || accessToken == "" || !Origins.TrustedTenantUrl(instanceUrl)
  }

  /** The error is true: the arguments are bad, or something stands in the way of the
      preparation or, once the result has been announced, of its delivery. */
  ghost predicate Explained(s: Session, sql: string, accessToken: string, e: Error)
    reads s
  {
    || (e == InvalidArgument && BadArguments(s.instanceUrl, sql, accessToken))
    || s.Unready(e) || (s.Announced() && Stopped(s, e))
  }

  method PrepareAndDrain(s: Session, sql: string, accessToken: string) returns (r: Result<seq<ResultChunk>, Error>)
    requires s.Valid() && s.Fresh()
    modifies s
    ensures s.Valid() && (r.Ok? <==> s.reconciled)
    ensures if r.Ok? then CompleteResult(s, r.value) else Explained(s, sql, accessToken, r.error)
    ensures BadArguments(s.instanceUrl, sql, accessToken) || (Settled(s.world, s.options, r) && Served(s.world, s.options, r))
  {
    var failure := s.Prepare(sql, accessToken);
    if failure.Some? {
      PreparationSucceeds(s, failure.value);
      return Err(failure.value);
    }
    ReadyToDrain(s);
    r := Deliver(s);
  }

  /** Neither kind of server hinders the preparation. */
  lemma PreparationSucceeds(s: Session, e: Error)
    requires s.Valid() && Chunks(s.sent) == [] && Links(s.sent) == []
    ensures AnswersAtOnce(s.world, s.options) ==> !s.Unready(e)
    ensures forall polls: nat :: Completes(s.world, s.options, polls) ==> !s.Unready(e)
  {
    if AnswersAtOnce(s.world, s.options) { SessionRecord(s, e); }
    forall polls: nat | Completes(s.world, s.options, polls) ensures !s.Unready(e) { NeverHindered(s, polls, e); }
  }

  /** The destructor. */
  method Dispose(s: Session)
    requires s.Valid()
    modifies s`terminal, s`tape, s`sent
    ensures s.Valid() && s.Facts() == old(s.Facts()) && (old(s.reconciled) ==> s.sent == old(s.sent))
    ensures if s.queryId != "" && !s.reconciled then CleanedUp(s.sent, s.queryId) else NoCleanup(s.sent)
    ensures old(s.Announced()) ==> s.Announced()
  {
    s.Cancel();
  }

  /** `QueryApiV3Client::Execute`, up to and including the destruction of the session. */
  method Execute(s: Session, sql: string, accessToken: string) returns (r: Result<seq<ResultChunk>, Error>)
    requires s.Valid() && s.Fresh()
    modifies s
    ensures s.Valid()
    ensures if r.Ok? then s.reconciled && CompleteResult(s, r.value) else Explained(s, sql, accessToken, r.error)
    // A query whose first answer announces the whole result succeeds if and only if the rows
    // are as announced and within the limits, and then returns that answer.
    ensures BadArguments(s.instanceUrl, sql, accessToken) || Settled(s.world, s.options, r)
    // One that is announced in numbered chunks and served with them returns them.
    ensures BadArguments(s.instanceUrl, sql, accessToken) || Served(s.world, s.options, r)
    ensures if r.Err? && s.queryId != "" then CleanedUp(s.sent, s.queryId) else NoCleanup(s.sent)
  {
    r := PrepareAndDrain(s, sql, accessToken);
    Dispose(s);
  }

  // ---------------------------------------------------------------- any calls at all

  /** The calls a cursor offers. */
  datatype CursorCall = NextChunk | NextArrowChunk | ReportArrowChunk(decodedRows: uint64)

  method PerformNext(s: Session) returns (threw: bool)
    requires s.Valid()
    modifies s`tape, s`clock, s`cap, s`totalBytes, s`sent, s`nextIndex, s`visited, s`queryId,
             s`rows, s`cells, s`fetched, s`spoiled, s`nextUrl, s`buffered, s`reconciled, s`terminal
    ensures s.Valid() && s.Forward(old(s.sent), old(s.queryId)) && s.mode == old(s.mode)
    ensures old(s.terminal) ==> s.terminal && s.reconciled == old(s.reconciled) && s.sent == old(s.sent)
    ensures old(s.terminal) && !old(s.reconciled) ==> threw
    ensures threw && s.mode.NumberedV3? && !old(s.outstanding) ==> s.terminal && !s.reconciled
  {
    var r := s.NextChunk();
    threw := r.Err?;
  }

  method PerformNextArrow(s: Session) returns (threw: bool)
    requires s.Valid()
    modifies s`tape, s`clock, s`cap, s`totalBytes, s`sent, s`outstanding, s`reconciled, s`terminal
    ensures s.Valid() && s.Forward(old(s.sent), old(s.queryId))
    ensures old(s.terminal) ==> s.terminal && s.reconciled == old(s.reconciled) && s.sent == old(s.sent)
    ensures old(s.terminal) && !old(s.reconciled) ==> threw
    ensures threw && s.mode.NumberedV3? && !old(s.outstanding) ==> s.terminal && !s.reconciled
  {
    var r := s.NextArrowChunk();
    threw := r.Err?;
  }

  method PerformReport(s: Session, decodedRows: uint64) returns (threw: bool)
    requires s.Valid()
    modifies s`tape, s`clock, s`sent, s`rows, s`cells, s`fetched, s`nextIndex, s`outstanding, s`terminal
    ensures s.Valid() && s.Forward(old(s.sent), old(s.queryId))
    ensures old(s.terminal) ==> s.terminal && s.sent == old(s.sent)
    ensures threw && old(s.outstanding) ==> s.terminal && !s.reconciled
  {
    var r := s.ReportArrowChunk(decodedRows);
    threw := r.Some?;
  }

  /** Makes one call; `threw` is whether it threw. */
  method Perform(s: Session, call: CursorCall) returns (threw: bool)
    requires s.Valid()
    modifies s
    ensures s.Valid() && s.Forward(old(s.sent), old(s.queryId))
    ensures old(s.reconciled) ==> s.reconciled && s.sent == old(s.sent)
    ensures old(s.terminal) && !old(s.reconciled) ==>
              s.terminal && !s.reconciled && s.sent == old(s.sent) && (!call.ReportArrowChunk? ==> threw)
    ensures threw && s.mode.NumberedV3? && !old(s.outstanding) && !call.ReportArrowChunk? ==> s.terminal && !s.reconciled
    ensures threw && old(s.outstanding) && call.ReportArrowChunk? ==> s.terminal && !s.reconciled
    ensures s.mode == old(s.mode)
  {
    match call
    case NextChunk => { threw := PerformNext(s); }
    case NextArrowChunk => { threw := PerformNextArrow(s); }
    case ReportArrowChunk(n) => { threw := PerformReport(s, n); }
  }

  method PerformAll(s: Session, calls: seq<CursorCall>) returns (threw: seq<bool>)
    requires s.Valid()
    modifies s
    ensures s.Valid() && s.Forward(old(s.sent), old(s.queryId)) && |threw| == |calls|
    ensures old(s.terminal) ==> s.terminal && s.reconciled == old(s.reconciled) && s.sent == old(s.sent)
    // Once a query has been abandoned no call but a late report can do anything but throw.
    ensures old(s.terminal) && !old(s.reconciled) ==>
              forall i :: 0 <= i < |calls| && !calls[i].ReportArrowChunk? ==> threw[i]
  {
    threw := [];
    for k := 0 to |calls|
      invariant s.Valid() && s.Forward(old(s.sent), old(s.queryId)) && |threw| == k
      invariant old(s.terminal) ==> s.terminal && s.reconciled == old(s.reconciled) && s.sent == old(s.sent)
      invariant old(s.terminal) && !old(s.reconciled) ==>
                  forall i :: 0 <= i < k && !calls[i].ReportArrowChunk? ==> threw[i]
    {
      ghost var middle := s.sent;
      var one := Perform(s, calls[k]);
      OnwardTransitive(old(s.sent), middle, s.sent);
      threw := threw + [one];
    }
  }

  method PrepareAndPerform(s: Session, sql: string, accessToken: string, calls: seq<CursorCall>)
    requires s.Valid() && s.Fresh()
    modifies s
    ensures s.Valid()
  {
    var failure := s.Prepare(sql, accessToken);
    if failure.None? {
      var _ := PerformAll(s, calls);
    }
  }

  /** Construction, preparation, any calls at all, destruction: the query is deleted by one
      request, the last of all, if and only if its id was learned and it was not reconciled. */
  method WholeLife(world: World, options: Options, instanceUrl: string, sql: string, accessToken: string, calls: seq<CursorCall>)
    returns (s: Session)
    ensures fresh(s) && s.Valid()
    ensures if s.queryId != "" && !s.reconciled then CleanedUp(s.sent, s.queryId) else NoCleanup(s.sent)
    // Every request names the one query, is capped by the bytes left and timed by the time left.
    ensures Proper(s.sent, s.queryId, s.options) && (s.queryId != "" ==> Named(s.world, s.sent, s.queryId))
    // The answers before it called for it, and all answers that fitted are charged.
    ensures s.world == world && s.options == options && Recorded(world, options.maxTotalBytes as int, s.sent, s.tape.calls, s.totalBytes as int)
    // No limit is ever exceeded, and no link is followed twice.
    ensures && s.rows <= s.options.maxRows && s.cells <= s.options.maxCells && s.fetched <= s.options.maxChunks
            && s.totalBytes <= s.options.maxTotalBytes && |Links(s.sent)| <= s.options.maxChunks as int
            && (s.mode.DirectLegacy? ==> NoRevisit(s.sent)) && (s.mode.NumberedV3? ==> InOrder(s.sent, s.queryId))
  {
    s := new Session(world, options, instanceUrl);
    PrepareAndPerform(s, sql, accessToken, calls);
    s.Cancel();
  }

  /** A failed numbered fetch or report is final, whatever is called afterwards. */
  method NumberedFailureIsFinal(s: Session, call: CursorCall, calls: seq<CursorCall>) returns (threw: bool, later: seq<bool>)
    requires s.Valid() && s.mode.NumberedV3? && s.outstanding == call.ReportArrowChunk?
    modifies s
    ensures s.Valid() && |later| == |calls|
    ensures threw ==> CleanedUp(s.sent, s.queryId)
    ensures threw ==> forall i :: 0 <= i < |calls| && !calls[i].ReportArrowChunk? ==> later[i]
  {
    threw := Perform(s, call);
    later := PerformAll(s, calls);
  }

  /** `NextChunk` on an open legacy cursor, and what of its contract decides whether it can end
      after a failure. */
  method NextLegacy(s: Session) returns (r: Result<Option<ResultChunk>, Error>)
    requires s.Valid() && s.mode.DirectLegacy? && !s.terminal && !s.outstanding
    modifies s`tape, s`clock, s`cap, s`totalBytes, s`sent, s`nextIndex, s`visited, s`queryId,
             s`rows, s`cells, s`fetched, s`spoiled, s`nextUrl, s`buffered, s`reconciled, s`terminal
    ensures s.Valid() && s.Terms() == old(s.Terms()) && !s.outstanding
    ensures r == Ok(None) <==> old(s.AtEnd()) && (s.hasExpectedRows ==> old(s.rows) == s.expectedRows)
    ensures r.Err? ==> (s.terminal <==> s.queryId != "") && !s.reconciled && s.nextUrl == old(s.nextUrl)
    ensures r.Err? || r == Ok(None) ==> s.rows == old(s.rows)
    ensures old(s.AtEnd()) ==> r.Err? || r == Ok(None)
    ensures old(s.buffered).Some? ==> s.buffered.None? && s.queryId == old(s.queryId) && old(s.nextUrl) == ""
    ensures old(s.buffered).Some? && !Wide(old(s.buffered).value.chunk.rows, |s.metadata|) ==> r.Err?
  {
    r := s.NextChunk();
  }

  /** A failure of a legacy query is final except for a failure on the kept first response of a
      query whose id is unknown: then the next call reports the end of a result, although this
      response was lost, provided no other number of rows was advertised. */
  method BufferedFailure(s: Session) returns (first: Result<Option<ResultChunk>, Error>, second: Result<Option<ResultChunk>, Error>)
    requires s.Valid() && s.mode.DirectLegacy? && !s.terminal && !s.outstanding
    modifies s`tape, s`clock, s`cap, s`totalBytes, s`sent, s`nextIndex, s`visited, s`queryId,
             s`rows, s`cells, s`fetched, s`spoiled, s`nextUrl, s`buffered, s`reconciled, s`terminal
    ensures old(s.buffered).Some? && !Wide(old(s.buffered).value.chunk.rows, |s.metadata|) ==> first.Err?
    ensures first.Err? ==>
              (second == Ok(None) <==>
               old(s.buffered).Some? && old(s.queryId) == "" && (s.hasExpectedRows ==> s.rows == s.expectedRows))
  {
    first := NextLegacy(s);
    if first.Err? && s.queryId == "" {
      second := NextLegacy(s);
    } else {
      second := s.NextChunk();
    }
  }

  /** A session whose preparation succeeded on an answer that announces the whole result keeps it. */
  lemma KeptAtOnce(s: Session)
    requires s.Ready() && s.Valid() && AnswersAtOnce(s.world, s.options)
    ensures s.mode.DirectLegacy? && s.buffered == FirstAnswer(s.world) && s.metadata == FirstAnswer(s.world).value.metadata
    ensures s.hasExpectedRows == FirstAnswer(s.world).value.hasRowCount
    ensures s.queryId != "" ==> s.queryId == FirstAnswer(s.world).value.queryId
  {
    SessionRecord(s, WrongUse);
  }

  /** So the result of a query is lost, without a trace, whenever its one answer has neither an
      id nor a row count and a row of the wrong width: the preparation succeeds, the first call
      fails, and the second reports the end. */
  method LosesTheResult(s: Session, sql: string, accessToken: string)
    returns (failure: Option<Error>, first: Result<Option<ResultChunk>, Error>, second: Result<Option<ResultChunk>, Error>)
    requires s.Valid() && s.Fresh() && AnswersAtOnce(s.world, s.options)
    requires var q := FirstAnswer(s.world).value; q.queryId == "" && !q.hasRowCount && !Wide(q.chunk.rows, |q.metadata|)
    modifies s
    ensures BadArguments(s.instanceUrl, sql, accessToken) || (failure.None? && first.Err? && second == Ok(None))
  {
    failure := s.Prepare(sql, accessToken);
    if failure.Some? {
      SessionRecord(s, failure.value);
      first, second := Ok(None), Ok(None);
    } else {
      KeptAtOnce(s);
      first, second := BufferedFailure(s);
    }
  }

  /** An answer that announces one column and brings a row of none. */
  const SHORT_ROW := QueryResponse(
    QueryState.Complete, "", 0, 0, false, false, 0, false,
    [Column("a", "text", true, false, false, 0, 0)], ResultChunk([[]], ""))

  /** A server that always answers so, at once. */
  const LOSING := World(
    n => Some(HttpResponse(200, "", "application/json")), response => Decoded(SHORT_ROW), n => 0, n => false)

  lemma LosingAnswers(o: Options)
    ensures AnswersAtOnce(LOSING, o) && FirstAnswer(LOSING) == Some(SHORT_ROW) && !Wide(SHORT_ROW.chunk.rows, 1)
  {
    IdleIsCalm(LOSING, o);
    assert |SHORT_ROW.chunk.rows[0]| == 0;
  }

  /** There is such a server. */
  method LosesAgainst(options: Options, instanceUrl: string, sql: string, accessToken: string)
    returns (failure: Option<Error>, first: Result<Option<ResultChunk>, Error>, second: Result<Option<ResultChunk>, Error>)
    ensures BadArguments(instanceUrl, sql, accessToken) || (failure.None? && first.Err? && second == Ok(None))
  {
    LosingAnswers(options);
    var s := new Session(LOSING, options, instanceUrl);
    failure, first, second := LosesTheResult(s, sql, accessToken);
  }

  // ---------------------------------------------------------------- a request after the deadline

  /** The clock stands still until the second look of the first request, and then the deadline
      has passed. */
  function Stalling(o: Options): World {
    World(n => None, response => Garbled, n => if n == 4 then o.overallTimeoutMs as nat + 1 else 0, n => false)
  }

  /** Against it the query is submitted although the time is up, and may take the full request
      timeout: the first two steps of `Prepare`. */
  method LateRequest(options: Options, instanceUrl: string, sql: string, accessToken: string) returns (s: Session)
    requires !BadArguments(instanceUrl, sql, accessToken)
    ensures s.sent.Then? && s.sent.before == Start && s.sent.last.endpoint == Submit
    ensures s.sent.last.leftMs < 0 && s.sent.last.timeoutMs == options.requestTimeoutMs as int
  {
    s := new Session(Stalling(options), options, instanceUrl);
    var failure := s.CheckArguments(sql, accessToken);
    assert failure.None?;
    ghost var log;
    var reply;
    reply, log := s.Send(Submit);
    TimeoutInRange(options, log.value.leftMs);
  }
}
