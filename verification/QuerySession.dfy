/**
 `Session` and `QueryCursor` of src/query_api.cpp. The remote, the codec, the clock and the
 user's interrupt are a `World`: any run of the program is a run against one of them.
 */
module QuerySession {
  import opened Wrappers
  import opened ChunkPath
  import opened QueryTrace
  import opened QueryWorld
  import Origins
  import Text

  class Session {
    const world: World
    const options: Options
    const instanceUrl: string

    // the runtime
    var tape: Tape
    var clock: nat

    var startedAt: nat
    var totalBytes: uint64
    var cap: uint64
    var mode: Mode
    var metadata: Columns
    var queryId: string
    var expectedChunks: uint64
    var hasExpectedRows: bool
    var expectedRows: uint64
    var nextIndex: uint64
    var buffered: Option<QueryResponse>
    var nextUrl: string
    var visited: set<string>
    var fetched: uint64
    var rows: uint64
    var cells: uint64
    var reconciled: bool
    var terminal: bool
    var outstanding: bool

    ghost var sent: Trace
    ghost var spoiled: bool  // an Accept has thrown
    ghost var naps: nat      // how often it slept between polls

    // ---------------------------------------------------------------- invariant

    // The run so far is a run against this world.
    ghost predicate Timed()
      reads this
    {
      TimedIn(world, tape, clock, startedAt, Times(naps, options.pollIntervalMs as int))
    }

    ghost predicate Logged()
      reads this
    {
      LoggedIn(world, options.maxTotalBytes as int, tape.calls, totalBytes as int, naps, sent)
    }

    ghost predicate Budgeted()
      reads this
    {
      && Timed() && Logged() && totalBytes <= options.maxTotalBytes
      && cap <= MAX_RESPONSE && (cap == MAX_RESPONSE || cap >= options.maxTotalBytes - totalBytes)
      && rows <= options.maxRows && cells <= options.maxCells && fetched <= options.maxChunks
      && (hasExpectedRows ==> rows <= expectedRows)
      && (!spoiled ==> cells as int == Times(rows as int, |metadata|))
    }

    /** The advertised totals fit the budgets. */
    ghost predicate InLimits()
      reads this
    {
      expectedChunks <= options.maxChunks && (hasExpectedRows ==> expectedRows <= options.maxRows)
    }

    /** `settled` is false only while a fetch is under way or has failed. */
    ghost predicate NumberedInv(settled: bool)
      reads this
    {
      && SafeId(queryId) && buffered.None?
      && fetched <= nextIndex <= expectedChunks
      && (settled || outstanding ==> InLimits())
      && (outstanding ==> nextIndex < expectedChunks && fetched == nextIndex && |Chunks(sent)| == fetched as int + 1 && !reconciled)
      && InOrder(sent, queryId) && Links(sent) == [] && CameInChunks(world, sent) && nextUrl == ""
      && |Chunks(sent)| <= fetched as int + 1 && |Chunks(sent)| <= expectedChunks as int
      && (settled ==> && fetched == nextIndex && AllAnswered(sent)
                      && |Chunks(sent)| == nextIndex as int + if outstanding then 1 else 0)
    }

    ghost predicate LegacyInv(settled: bool)
      reads this
    {
      && !outstanding && Chunks(sent) == [] && NoRevisit(sent) && Followed(sent) <= visited
      && (buffered.Some? ==> fetched == 0 && Consistent(buffered.value, queryId) && buffered == Answer())
      && Leads(nextUrl, queryId)
      && (fetched == 0 ==> nextUrl == "")
      && |Links(sent)| <= fetched as int
      && (settled ==> && |Links(sent)| == (if fetched == 0 then 0 else fetched as int - 1)
                      && (nextUrl != "" ==> Answer().Some? && Answer().value.chunk.nextUrl == nextUrl))
    }

    /** The answer to the latest request. */
    ghost function Answer(): Option<QueryResponse>
      reads this
    {
      DecodedBy(world, LatestReply(sent))
    }

    /** The response to the latest request, which was a submission or a poll. */
    ghost predicate Status(response: QueryResponse)
      reads this
    {
      Answer() == Some(response) && IsStatus(Latest(sent).value.endpoint)
    }

    ghost function Facts(): Facts
      reads this
    {
      QueryWorld.Facts(tape.interrupted, clock - startedAt >= options.overallTimeoutMs as int, Latest(sent),
                       queryId, metadata, hasExpectedRows, expectedRows, rows, fetched, mode.NumberedV3? ==> fetched as int < |Chunks(sent)|,
                       AtEnd(), nextUrl, visited)
    }

    // What is wrong with a response.
    ghost predicate Misnames(response: QueryResponse, e: Error)
      reads this
    {
      Misnaming(Facts(), response, e)
    }

    ghost predicate Unacceptable(response: QueryResponse, e: Error)
      reads this
    {
      Rejectable(options, Facts(), response, e)
    }

    // The error is true.
    ghost predicate Halting(e: Error)
      reads this
    {
      Halted(Facts(), e)
    }

    ghost predicate Obstruction(e: Error)
      reads this
    {
      Obstructed(Facts(), e)
    }

    ghost predicate Trouble(e: Error)
      reads this
    {
      Troubled(world, Facts(), e)
    }

    ghost predicate Unready(e: Error)
      reads this
    {
      Hinders(world, options, Facts(), e)
    }

    ghost predicate Undelivered(e: Error)
      reads this
    {
      Stops(world, options, Facts(), e)
    }

    ghost predicate Unoffered(e: Error)
      reads this
    {
      StopsArrow(world, Facts(), e)
    }

    ghost predicate Inv(settled: bool)
      reads this
    {
      && Budgeted()
      && (queryId == "" || (SafeId(queryId) && Named(world, sent, queryId)))
      && Proper(sent, queryId, options)
      && Disposed(sent, queryId, terminal, reconciled)
      && (terminal && !reconciled ==> SafeId(queryId))
      && (reconciled ==> terminal && Complete())
      && (mode.NumberedV3? ==> NumberedInv(settled))
      && (mode.DirectLegacy? ==> LegacyInv(settled))
    }

    /** A step has failed: what is left unsettled is settled by deleting the query, if it has an id. */
    ghost predicate Failing()
      reads this
    {
      Inv(false) && (queryId == "" ==> Inv(true))
    }

    /** All advertised data has been received. */
    ghost predicate Complete()
      reads this
    {
      && (hasExpectedRows ==> rows == expectedRows)
      && (mode.NumberedV3? ==> fetched == nextIndex == expectedChunks && |Chunks(sent)| == expectedChunks as int && AllAnswered(sent))
      && (mode.DirectLegacy? ==> buffered.None? && nextUrl == "")
    }

    ghost predicate Valid()
      reads this
    {
      Inv(!terminal)
    }

    constructor (world: World, options: Options, instanceUrl: string)
      ensures Valid() && Fresh() && tape == Tape(1, 0, false)
      ensures this.world == world && this.options == options && this.instanceUrl == instanceUrl
    {
      this.world, this.options, this.instanceUrl := world, options, instanceUrl;
      tape, clock := Tape(1, 0, false), world.delay(0);
      startedAt, totalBytes, cap := world.delay(0), 0, MAX_RESPONSE;
      mode, metadata, queryId := DirectLegacy, [], "";
      expectedChunks, hasExpectedRows, expectedRows, nextIndex := 0, false, 0, 0;
      buffered, nextUrl, visited := None, "", {};
      fetched, rows, cells, reconciled, terminal, outstanding := 0, 0, 0, false, false, false;
      sent, spoiled, naps := Start, false, 0;
    }

    /** Nothing has been sent yet. */
    ghost predicate Fresh()
      reads this
    {
      && sent == Start && queryId == "" && mode.DirectLegacy? && metadata == [] && buffered.None? && nextUrl == ""
      && fetched == 0 && rows == 0 && cells == 0 && !reconciled && !terminal && !outstanding && !spoiled
      && totalBytes == 0 && cap == MAX_RESPONSE && clock == startedAt && visited == {}
      && !hasExpectedRows && nextIndex == 0 && naps == 0
    }

    // ---------------------------------------------------------------- runtime

    method IsCancelled() returns (cancelled: bool)
      requires Timed()
      modifies `tape
      ensures Timed() && tape == Tape(old(tape.looks) + 1, old(tape.calls), old(tape.interrupted) || world.interrupt(old(tape.looks)))
      ensures cancelled == tape.interrupted
    {
      tape := Tape(tape.looks + 1, tape.calls, tape.interrupted || world.interrupt(tape.looks));
      return tape.interrupted;
    }

    method NowMs() returns (now: nat)
      requires Timed()
      modifies `tape, `clock
      ensures Timed() && tape == old(tape).Look()
      ensures now == clock == old(clock) + world.delay(old(tape.looks))
    {
      clock := clock + world.delay(tape.looks);
      tape := tape.Look();
      return clock;
    }

    /** Returns early only when interrupted. */
    method SleepMs(ms: uint64)
      requires Timed() && ms == options.pollIntervalMs
      modifies `tape, `clock, `naps
      ensures Timed() && tape.calls == old(tape.calls)
      ensures old(clock) <= clock && (old(tape.interrupted) ==> tape.interrupted)
      ensures tape.interrupted || (old(clock) + ms as int <= clock && naps == old(naps) + 1)
      ensures naps <= old(naps) + 1
    {
      var cancelled := IsCancelled();
      if !cancelled {
        clock := clock + ms as int + world.delay(tape.looks);
        naps := naps + 1;
        tape := tape.Look();
      }
    }

    /** The next check passes: no interrupt is seen, and the clock is before the deadline. */
    ghost predicate Open()
      reads this
    {
      && !tape.interrupted && !world.interrupt(tape.looks)
      && clock + world.delay(tape.looks + 1) - startedAt < options.overallTimeoutMs as int
    }

    /** The time left at the clock read after that check. */
    ghost function LeftThen(): int
      reads this
    {
      options.overallTimeoutMs as int - (clock + world.delay(tape.looks + 1) + world.delay(tape.looks + 2) - startedAt)
    }

    method CheckActive() returns (failure: Option<Error>)
      requires Timed()
      modifies `tape, `clock
      ensures Timed() && tape.calls == old(tape.calls)
      ensures old(clock) <= clock && (old(tape.interrupted) ==> tape.interrupted)
      ensures failure.None? <==> old(Open())
      ensures failure.None? ==> clock == old(clock) + world.delay(old(tape.looks) + 1) && tape.looks == old(tape.looks) + 2
      ensures failure.None? <==> !tape.interrupted && clock - startedAt < options.overallTimeoutMs as int
      ensures failure.Some? ==> failure.value == if tape.interrupted then QueryCancelled else QueryTimedOut
    {
      var cancelled := IsCancelled();
      if cancelled { return Some(QueryCancelled); }
      var now := NowMs();
      if now - startedAt >= options.overallTimeoutMs as int { return Some(QueryTimedOut); }
      return None;
    }

    // ---------------------------------------------------------------- requests

    /** Hands a request to the transport. */
    method Transmit(endpoint: Endpoint, timeoutMs: int, requestCap: uint64, ghost leftMs: int, ghost budget: uint64)
      returns (reply: Option<HttpResponse>)
      modifies `tape, `sent
      ensures sent == Then(old(sent), Exchange(endpoint, timeoutMs, leftMs, requestCap, budget, reply))
      ensures reply == world.reply(old(tape.calls)) && tape == old(tape).(calls := old(tape.calls) + 1)
    {
      reply := world.reply(tape.calls);
      tape := tape.(calls := tape.calls + 1);
      sent := Then(sent, Exchange(endpoint, timeoutMs, leftMs, requestCap, budget, reply));
    }

    /** `Cancel`: deletes the query once, if its id is known; also the destructor. */
    method Cancel()
      requires Inv(false) && (queryId == "" && !terminal ==> Inv(true))
      modifies `terminal, `tape, `sent
      ensures Valid() && (sent == old(sent) || (sent.Then? && sent.before == old(sent) && sent.last.endpoint.Cleanup?))
      ensures terminal == (old(terminal) || queryId != "")
      ensures sent == old(sent) <==> old(terminal) || queryId == ""
      ensures Chunks(sent) == Chunks(old(sent)) && Links(sent) == Links(old(sent)) && PollCount(sent) == PollCount(old(sent))
      ensures Facts() == old(Facts())
    {
      var safe := IsSafeQueryId(queryId);
      if terminal || reconciled || !safe { return; }
      Delete();
    }

    method Delete()
      requires Inv(false) && !terminal && !reconciled && SafeId(queryId)
      modifies `terminal, `tape, `sent
      ensures sent.Then? && sent.before == old(sent) && sent.last.endpoint == Cleanup(queryId) && terminal
      ensures Inv(false) && Facts() == old(Facts())
    {
      SendDelete();
    }

    method SendDelete()
      requires Inv(false) && !terminal && !reconciled && SafeId(queryId)
      modifies `terminal, `tape, `sent
      ensures sent.Then? && sent.before == old(sent) && sent.last.endpoint == Cleanup(queryId) && terminal
      ensures tape.interrupted == old(tape.interrupted) && Inv(false)
    {
      terminal := true;
      var _ := Transmit(Cleanup(queryId), options.cleanupTimeoutMs as int, CLEANUP_RESPONSE, 0, 0);
    }

    /** The handler of the try blocks. */
    method Abandon()
      requires Failing() && !terminal && !reconciled
      modifies `terminal, `tape, `sent
      ensures Valid() && (terminal <==> queryId != "") && Facts() == old(Facts())
      ensures sent == old(sent) || (sent.Then? && sent.before == old(sent) && sent.last.endpoint.Cleanup?)
      ensures PollCount(sent) == PollCount(old(sent)) && (queryId == "" ==> sent == old(sent))
    {
      Cancel();
    }

    method Send(endpoint: Endpoint) returns (r: Result<HttpResponse, Error>, ghost log: Option<Exchange>)
      requires Budgeted() && !endpoint.Cleanup? && CalledFor(world, sent, endpoint)
      modifies `tape, `clock, `cap, `totalBytes, `sent
      ensures Budgeted() && old(clock) <= clock && (old(tape.interrupted) ==> tape.interrupted)
      ensures sent == Plus(old(sent), log)
      ensures log.Some? ==> && log.value.endpoint == endpoint && Paced(log.value, options)
                            && log.value.budget == options.maxTotalBytes - old(totalBytes)
                            && log.value.leftMs == old(LeftThen())
      ensures (log.Some? <==> old(Open())) && (log.None? ==> r.Err? && Halting(r.error))
      ensures totalBytes as int == old(totalBytes) as int + if r.Ok? then |r.value.body| else 0
      ensures r.Ok? ==> log.Some? && log.value.reply == Some(r.value)
      ensures r.Err? ==> Obstruction(r.error)
    {
      log := None;
      var failure := CheckActive();
      if failure.Some? { return Err(failure.value), log; }
      r := Converse(endpoint);
      log := Some(sent.last);
    }

    /** Sends the request, whatever the time, and charges the answer. */
    method Converse(endpoint: Endpoint) returns (r: Result<HttpResponse, Error>)
      requires Budgeted() && !endpoint.Cleanup? && CalledFor(world, sent, endpoint)
      modifies `tape, `clock, `cap, `totalBytes, `sent
      ensures Budgeted() && old(clock) <= clock && (old(tape.interrupted) ==> tape.interrupted)
      ensures sent.Then? && sent.before == old(sent) && sent.last.endpoint == endpoint && Paced(sent.last, options)
      ensures sent.last.budget == options.maxTotalBytes - old(totalBytes)
      ensures sent.last.leftMs == options.overallTimeoutMs as int - (old(clock) + world.delay(old(tape.looks)) - startedAt)
      ensures totalBytes as int == old(totalBytes) as int + if r.Ok? then |r.value.body| else 0
      ensures if r.Ok? then sent.last.reply == Some(r.value) else Obstruction(r.error)
    {
      var reply := Launch(endpoint);
      r := Settle(reply);
    }

    /** Computes the limits of a request and hands it to the transport. */
    method Launch(endpoint: Endpoint) returns (reply: Option<HttpResponse>)
      requires Budgeted() && !endpoint.Cleanup? && CalledFor(world, sent, endpoint)
      modifies `tape, `clock, `cap, `sent
      ensures Timed() && clock == old(clock) + world.delay(old(tape.looks)) && tape.interrupted == old(tape.interrupted) && Awaited()
      ensures sent.Then? && sent.before == old(sent) && sent.last.endpoint == endpoint && sent.last.reply == reply
      ensures Paced(sent.last, options) && sent.last.leftMs == options.overallTimeoutMs as int - (clock - startedAt)
      ensures cap <= MAX_RESPONSE && (cap == MAX_RESPONSE || cap >= options.maxTotalBytes - totalBytes)
    {
      var now := NowMs();
      var elapsed := now - startedAt;
      // A deadline that passes between the two clock reads makes this subtraction wrap.
      var timeout := Min(options.requestTimeoutMs as int, Minus64(options.overallTimeoutMs as int, elapsed));
      var remaining := options.maxTotalBytes - Min64(totalBytes, options.maxTotalBytes);
      cap := Min64(cap, remaining);
      reply := Transmit(endpoint, timeout, cap, options.overallTimeoutMs as int - elapsed, remaining);
    }

    /** The last request has its answer, which is not charged yet. */
    ghost predicate Awaited()
      reads this
    {
      && sent.Then? && !sent.last.endpoint.Cleanup? && tape.calls > 0 && totalBytes <= options.maxTotalBytes
      && LoggedIn(world, options.maxTotalBytes as int, tape.calls - 1, totalBytes as int, naps, sent.before)
      && CalledFor(world, sent.before, sent.last.endpoint)
      && sent.last.reply == world.reply(tape.calls - 1) && sent.last.budget == options.maxTotalBytes - totalBytes
    }

    /** Charges an answer, or says why there is none. */
    method Settle(reply: Option<HttpResponse>) returns (r: Result<HttpResponse, Error>)
      requires Timed() && Awaited() && sent.last.reply == reply
      modifies `tape, `clock, `totalBytes
      ensures Timed() && Logged() && totalBytes <= options.maxTotalBytes && old(totalBytes) <= totalBytes
      ensures old(clock) <= clock && (old(tape.interrupted) ==> tape.interrupted)
      ensures totalBytes as int == old(totalBytes) as int + if r.Ok? then |r.value.body| else 0
      ensures if r.Ok? then reply == Some(r.value) else Obstruction(r.error)
    {
      if reply.None? {
        var error := Lost();
        return Err(error);
      }
      var remaining := options.maxTotalBytes - Min64(totalBytes, options.maxTotalBytes);
      if |reply.value.body| > remaining as int { return Err(ResponseLimit); }
      totalBytes := totalBytes + |reply.value.body| as uint64;
      return Ok(reply.value);
    }

    /** The handler of a transport failure. */
    method Lost() returns (error: Error)
      requires Timed() && Latest(sent).Some? && Latest(sent).value.reply.None?
      modifies `tape, `clock
      ensures Timed() && tape.calls == old(tape.calls) && old(clock) <= clock && (old(tape.interrupted) ==> tape.interrupted)
      ensures Obstruction(error)
    {
      var cancelled := IsCancelled();
      if cancelled { return QueryCancelled; }
      var now := NowMs();
      if now - startedAt >= options.overallTimeoutMs as int { return QueryTimedOut; }
      return TransportFailed;
    }

    /** `Send`, but for the times. */
    method SendLogged(endpoint: Endpoint) returns (r: Result<HttpResponse, Error>, ghost log: Option<Exchange>)
      requires Budgeted() && !endpoint.Cleanup? && CalledFor(world, sent, endpoint)
      modifies `tape, `clock, `cap, `totalBytes, `sent
      ensures Budgeted() && old(clock) <= clock && sent == Plus(old(sent), log)
      ensures log.Some? ==> log.value.endpoint == endpoint && Paced(log.value, options)
      ensures r.Ok? ==> log.Some? && log.value.reply == Some(r.value)
      ensures log.None? ==> r.Err? && Halting(r.error)
      ensures r.Err? ==> Obstruction(r.error)
    {
      r, log := Send(endpoint);
    }

    /** `Decode(Send(request))`. */
    method SendAndDecode(endpoint: Endpoint) returns (r: Result<QueryResponse, Error>, ghost log: Option<Exchange>)
      requires Budgeted() && !endpoint.Cleanup? && CalledFor(world, sent, endpoint)
      modifies `tape, `clock, `cap, `totalBytes, `sent
      ensures Budgeted() && old(clock) <= clock && sent == Plus(old(sent), log)
      ensures log.Some? ==> log.value.endpoint == endpoint && Paced(log.value, options)
      ensures r.Ok? ==> log.Some? && log.value.reply.Some? && world.decode(log.value.reply.value) == Decoded(r.value)
      ensures log.None? ==> r.Err? && Halting(r.error)
      ensures if r.Ok? then Answer() == Some(r.value) else Trouble(r.error)
    {
      var response;
      response, log := SendLogged(endpoint);
      if response.Err? { return Err(response.error), log; }
      r := Decode(response.value);
    }

    method Decode(response: HttpResponse) returns (r: Result<QueryResponse, Error>)
      requires Timed()
      modifies `tape
      ensures Timed() && tape.calls == old(tape.calls) && (old(tape.interrupted) ==> tape.interrupted)
      ensures r.Err? && LatestReply(sent) == Some(response) ==> Trouble(r.error)
      ensures r.Ok? <==> world.decode(response).Decoded?
      ensures r.Ok? ==> r.value == world.decode(response).response
    {
      match world.decode(response)
      case Decoded(value) => return Ok(value);
      case NeedsReauth => return Err(ReauthRequired);
      case Garbled =>
        var cancelled := IsCancelled();
        return Err(if cancelled then QueryCancelled else DecodingFailed);
    }

    /** Learns the query id once; afterwards any other id is an error. */
    method RememberQueryId(response: QueryResponse) returns (failure: Option<Error>)
      requires queryId == "" || SafeId(queryId)
      modifies `queryId
      ensures queryId == old(queryId) || (old(queryId) == "" && SafeId(queryId) && Names(response, queryId))
      ensures failure.None? ==> Consistent(response, queryId)
      ensures failure.Some? ==> Misnames(response, failure.value)
      ensures Consistent(response, old(queryId)) ==> queryId == old(queryId)
      ensures failure.None? <==>
              var known := if response.queryId != "" then response.queryId else old(queryId);
              && (response.queryId != "" ==> SafeId(response.queryId) && (old(queryId) == "" || response.queryId == old(queryId)))
              && (known == "" || Leads(response.chunk.nextUrl, known))
    {
      if response.queryId != "" {
        var safe := IsSafeQueryId(response.queryId);
        if !safe { return Some(InvalidQueryId); }
        if queryId != "" && response.queryId != queryId { return Some(IdentityChanged); }
        queryId := response.queryId;
      }
      var safePath := IsSafeChunkPath(response.chunk.nextUrl);
      if safePath {
        SafePathId(response.chunk.nextUrl);
        var nextId := QueryIdFromChunkPath(response.chunk.nextUrl);
        if queryId != "" && nextId != queryId { return Some(IdentityChanged); }
        if queryId == "" { queryId := nextId; }
      }
      return None;
    }

    // ---------------------------------------------------------------- rows

    /** The loop of `Accept`: counts the cells row by row, and may stop in the middle. */
    method CountCells(chunkRows: Rows) returns (failure: Option<Error>)
      requires cells <= options.maxCells
      modifies `cells
      ensures cells <= options.maxCells
      ensures failure.None? ==> cells as int == old(cells) as int + Times(|chunkRows|, |metadata|)
      ensures failure == Some(InvalidRowWidth) ==> !Wide(chunkRows, |metadata|)
      ensures failure.Some? && failure.value != InvalidRowWidth ==>
                failure.value == MaterializationLimit && old(cells) as int + Times(|chunkRows|, |metadata|) > options.maxCells as int
      ensures failure.None? <==> Wide(chunkRows, |metadata|) && old(cells) as int + Times(|chunkRows|, |metadata|) <= options.maxCells as int
    {
      var width := |metadata| as uint64;
      for i := 0 to |chunkRows|
        invariant cells <= options.maxCells && cells as int == old(cells) as int + Times(i, |metadata|)
        invariant forall j :: 0 <= j < i ==> |chunkRows[j]| == |metadata|
      {
        var size := |chunkRows[i]| as uint64;
        if size != width { return Some(InvalidRowWidth); }
        if size > options.maxCells - Min64(cells, options.maxCells) {
          TimesMonotone(i + 1, |chunkRows|, |metadata|);
          return Some(MaterializationLimit);
        }
        cells := cells + size;
      }
      return None;
    }

    ghost predicate Screened(response: QueryResponse)
      reads this
    {
      var more := |response.chunk.rows|;
      && response.state == QueryState.Complete && (response.metadata == [] || response.metadata == metadata)
      && fetched < options.maxChunks && Declared(response)
      && rows as int + more <= options.maxRows as int
    }

    ghost predicate Acceptable(response: QueryResponse)
      reads this
    {
      var more := |response.chunk.rows|;
      && Screened(response) && (hasExpectedRows ==> rows as int + more <= expectedRows as int)
      && Wide(response.chunk.rows, |metadata|) && cells as int + Times(more, |metadata|) <= options.maxCells as int
    }

    method Accept(response: QueryResponse) returns (r: Result<ResultChunk, Error>)
      requires Budgeted()
      modifies `rows, `cells, `fetched, `spoiled
      ensures Budgeted()
      ensures r.Ok? <==> old(Acceptable(response))
      ensures r.Err? && !old(spoiled) ==> Unacceptable(response, r.error)
      ensures r.Err? ==> rows == old(rows) && fetched == old(fetched)
      ensures r.Ok? ==> && r.value == response.chunk && Wide(r.value.rows, |metadata|)
                        && rows as int == old(rows) as int + |r.value.rows| && fetched as int == old(fetched) as int + 1
                        && spoiled == old(spoiled)
    {
      var failure := Screen(response);
      if failure.Some? { return Err(failure.value); }
      r := TakeRows(response);
    }

    /** The checks of `Accept` on the response as a whole. */
    method Screen(response: QueryResponse) returns (failure: Option<Error>)
      requires Budgeted()
      ensures failure.Some? ==> Unacceptable(response, failure.value)
      ensures failure.None? <==> Screened(response)
    {
      if response.state != QueryState.Complete { return Some(ChunkFailed); }
      if response.metadata != [] && metadata != response.metadata { return Some(SchemaChanged); }
      if fetched >= options.maxChunks { return Some(TooManyChunks); }
      var chunkRows := |response.chunk.rows| as uint64;
      if response.hasReturnedRows && response.returnedRows != chunkRows { return Some(RowCountMismatch); }
      if chunkRows > options.maxRows - Min64(rows, options.maxRows) { return Some(MaterializationLimit); }
      return None;
    }

    /** The checks of `Accept` on the rows, and their charge. */
    method TakeRows(response: QueryResponse) returns (r: Result<ResultChunk, Error>)
      requires Budgeted() && Screened(response)
      modifies `rows, `cells, `fetched, `spoiled
      ensures Budgeted()
      ensures r.Ok? <==> old(Acceptable(response))
      ensures r.Err? && !old(spoiled) ==> Unacceptable(response, r.error)
      ensures r.Err? ==> rows == old(rows) && fetched == old(fetched)
      ensures r.Ok? ==> && r.value == response.chunk
                        && rows as int == old(rows) as int + |r.value.rows| && fetched as int == old(fetched) as int + 1
                        && spoiled == old(spoiled)
    {
      var failure := CountRows(response);
      if failure.Some? { return Err(failure.value); }
      TimesAdds(rows as int, |response.chunk.rows|, |metadata|);
      rows := rows + |response.chunk.rows| as uint64;
      fetched := fetched + 1;
      return Ok(response.chunk);
    }

    /** The row loop and the check against the announced total. */
    method CountRows(response: QueryResponse) returns (failure: Option<Error>)
      requires Budgeted() && Screened(response)
      modifies `cells, `spoiled
      ensures cells <= options.maxCells
      ensures failure.Some? ==> spoiled
      ensures failure.None? ==> spoiled == old(spoiled) && cells as int == old(cells) as int + Times(|response.chunk.rows|, |metadata|)
      ensures failure.None? <==> old(Acceptable(response))
      ensures failure.Some? && !old(spoiled) ==> Unacceptable(response, failure.value)
    {
      var chunkRows := |response.chunk.rows| as uint64;
      failure := CountCells(response.chunk.rows);
      if failure.Some? {
        TimesAdds(rows as int, |response.chunk.rows|, |metadata|);
        spoiled := true;
        return;
      }
      if hasExpectedRows && chunkRows > expectedRows - Min64(rows, expectedRows) {
        spoiled := true;
        return Some(RowCountMismatch);
      }
    }

    /** The final reconciliation. */
    method Finish() returns (failure: Option<Error>)
      modifies `reconciled, `terminal
      ensures failure.Some? ==> reconciled == old(reconciled) && terminal == old(terminal)
      ensures failure.None? ==> reconciled && terminal
      ensures failure.Some? ==>
                || (failure.value == ChunkCountMismatch && mode.NumberedV3? && fetched != expectedChunks)
                || (failure.value == RowCountMismatch && hasExpectedRows && rows != expectedRows)
                || (failure.value == IncompleteChain && mode.DirectLegacy? && nextUrl != "")
      ensures failure.None? <==> && (mode.NumberedV3? ==> fetched == expectedChunks)
                                 && (hasExpectedRows ==> rows == expectedRows)
                                 && (mode.DirectLegacy? ==> nextUrl == "")
    {
      if mode == NumberedV3 && fetched != expectedChunks { return Some(ChunkCountMismatch); }
      if hasExpectedRows && rows != expectedRows { return Some(RowCountMismatch); }
      if mode == DirectLegacy && nextUrl != "" { return Some(IncompleteChain); }
      reconciled := true;
      terminal := true;
      return None;
    }

    // ---------------------------------------------------------------- the JSON cursor

    /** The request for the next data. */
    function NextEndpoint(): Endpoint
      reads this
    {
      match mode
      case NumberedV3 => Chunk(queryId, nextIndex as int)
      case DirectLegacy => Legacy(nextUrl)
    }

    /** Where a delivered chunk came from: the response kept since the preparation, or the answer
        to the one request just sent. */
    ghost predicate Obtained(chunk: ResultChunk, before: Trace, endpoint: Endpoint, kept: Option<QueryResponse>)
      reads this
    {
      && (mode.DirectLegacy? ==> nextUrl == chunk.nextUrl)
      && if kept.Some? then sent == before && chunk == kept.value.chunk && Declared(kept.value)
         else Answers(world, before, sent, endpoint, chunk)
    }

    /** Fetches the next numbered chunk. The index moves before the request is made. */
    method FetchNumbered() returns (r: Result<QueryResponse, Error>)
      requires Inv(true) && mode.NumberedV3? && !terminal && !outstanding && nextIndex < expectedChunks
      modifies `tape, `clock, `cap, `totalBytes, `sent, `nextIndex
      ensures Onward(old(sent), sent) && nextIndex as int == old(nextIndex) as int + 1
      ensures Fetched(r) && (r.Ok? ==> Answers(world, old(sent), sent, old(NextEndpoint()), r.value.chunk))
    {
      var index := nextIndex;
      nextIndex := nextIndex + 1;
      r := RequestNumbered(index);
    }

    method RequestNumbered(index: uint64) returns (r: Result<QueryResponse, Error>)
      requires Inv(false) && mode.NumberedV3? && !terminal && !outstanding && InLimits() && AllAnswered(sent)
      requires fetched == index && |Chunks(sent)| == index as int && nextIndex as int == index as int + 1
      modifies `tape, `clock, `cap, `totalBytes, `sent
      ensures Inv(false) && Onward(old(sent), sent)
      ensures if r.Ok? then Arrived(r.value) && Answers(world, old(sent), sent, Chunk(queryId, index as int), r.value.chunk)
              else Undelivered(r.error)
    {
      ghost var log;
      r, log := SendAndDecode(Chunk(queryId, index as int));
    }

    /** Follows the path the previous chunk named, once it has been checked. */
    method FollowLink() returns (r: Result<QueryResponse, Error>)
      requires Inv(true) && mode.DirectLegacy? && !terminal && buffered.None? && nextUrl != ""
      requires SafePath(nextUrl) && nextUrl !in visited
      modifies `tape, `clock, `cap, `totalBytes, `sent, `visited
      ensures Onward(old(sent), sent) && queryId != ""
      ensures Fetched(r) && (r.Ok? ==> Answers(world, old(sent), sent, Legacy(nextUrl), r.value.chunk))
    {
      visited := visited + {nextUrl};
      SafePathId(nextUrl);
      if queryId == "" {
        // Never taken: the response that named this path already taught the session its id.
        assert false;
      }
      r := RequestLinked();
    }

    method CheckLink() returns (failure: Option<Error>)
      requires nextUrl != ""
      ensures failure.None? <==> SafePath(nextUrl) && nextUrl !in visited
      ensures failure.Some? ==> failure.value == UnsafeChunkUrl && Undelivered(failure.value)
    {
      var safe := IsSafeChunkPath(nextUrl);
      return if !safe || nextUrl in visited then Some(UnsafeChunkUrl) else None;
    }

    method RequestLinked() returns (r: Result<QueryResponse, Error>)
      requires Inv(true) && mode.DirectLegacy? && !terminal && buffered.None? && queryId != "" && fetched > 0
      requires LinksTo(nextUrl, queryId) && nextUrl !in Followed(sent) && nextUrl in visited
      requires CalledFor(world, sent, Legacy(nextUrl))
      modifies `tape, `clock, `cap, `totalBytes, `sent
      ensures Onward(old(sent), sent)
      ensures if r.Ok? then Arrived(r.value) && Answers(world, old(sent), sent, Legacy(nextUrl), r.value.chunk) else Inv(false) && Trouble(r.error)
    {
      ghost var log;
      r, log := SendAndDecode(Legacy(nextUrl));
    }

    /** `RememberQueryId` followed by `CheckActive`, as every decoded response is treated. */
    method Learn(response: QueryResponse, ghost settled: bool) returns (failure: Option<Error>)
      requires Inv(settled) && !terminal && buffered.None? && Answer() == Some(response)
      modifies `tape, `clock, `queryId
      ensures Inv(settled) && (queryId == old(queryId) || old(queryId) == "")
      ensures failure.None? ==> Consistent(response, queryId) && !tape.interrupted && clock - startedAt < options.overallTimeoutMs as int
      ensures old(clock) <= clock && (Consistent(response, old(queryId)) ==> queryId == old(queryId))
      ensures failure.Some? ==> Trouble(failure.value)
    {
      failure := LearnId(response, settled);
      if failure.None? {
        failure := CheckStillActive(settled);
      } else {
        assert Misnames(response, failure.value);
      }
    }

    method LearnId(response: QueryResponse, ghost settled: bool) returns (failure: Option<Error>)
      requires Inv(settled) && !terminal && buffered.None? && Answer() == Some(response)
      modifies `queryId
      ensures Inv(settled) && (queryId == old(queryId) || old(queryId) == "")
      ensures failure.None? ==> Consistent(response, queryId)
      ensures Consistent(response, old(queryId)) ==> queryId == old(queryId)
      ensures failure.Some? ==> Misnames(response, failure.value)
    {
      if SafePath(nextUrl) { SafePathId(nextUrl); }
      failure := RememberQueryId(response);
      if old(queryId) == "" { Relabel(sent, queryId, options); }
      if queryId != old(queryId) { LatestNames(world, sent, queryId); }
    }

    /** `CheckActive` between other steps. */
    method CheckStillActive(ghost settled: bool) returns (failure: Option<Error>)
      requires Inv(settled)
      modifies `tape, `clock
      ensures Inv(settled) && old(clock) <= clock
      ensures failure.None? ==> !tape.interrupted && clock - startedAt < options.overallTimeoutMs as int
      ensures failure.Some? ==> Halting(failure.value)
    {
      failure := CheckActive();
    }

    /** The response to the latest request is at hand, still to be learned from and taken. */
    ghost predicate Arrived(response: QueryResponse)
      reads this
    {
      && Inv(false) && !terminal && !outstanding && buffered.None? && Answer() == Some(response)
      && (mode.NumberedV3? ==> InLimits() && AllAnswered(sent) && |Chunks(sent)| == nextIndex as int && fetched as int + 1 == nextIndex as int)
      && (mode.DirectLegacy? ==> |Links(sent)| == fetched as int && (fetched == 0 || queryId != ""))
    }

    /** The last steps of `NextChunk`, common to all modes. */
    method Receive(response: QueryResponse, ghost kept: bool) returns (r: Result<ResultChunk, Error>)
      requires Arrived(response) && (kept ==> Consistent(response, queryId))
      modifies `tape, `clock, `queryId, `rows, `cells, `fetched, `spoiled, `nextUrl
      ensures if r.Ok? then Inv(true) && spoiled == old(spoiled) else Failing()
      ensures r.Ok? ==> Taken(response, r.value, old(rows), old(fetched))
      ensures queryId == old(queryId) || old(queryId) == ""
      ensures kept ==> queryId == old(queryId)
      ensures r.Err? ==> Untouched(old(rows), old(fetched), old(nextUrl))
      ensures r.Err? && !old(spoiled) ==> Undelivered(r.error)
    {
      var failure := LearnArrived(response, kept);
      r := AcceptLearned(response, failure);
    }

    /** The response has been learned from, or that has failed. */
    ghost predicate Learned(response: QueryResponse, failure: Option<Error>)
      reads this
    {
      Arrived(response) && Failing() && if failure.None? then Consistent(response, queryId) else Undelivered(failure.value)
    }

    method AcceptLearned(response: QueryResponse, failure: Option<Error>) returns (r: Result<ResultChunk, Error>)
      requires Learned(response, failure)
      modifies `rows, `cells, `fetched, `spoiled, `nextUrl
      ensures if r.Ok? then Inv(true) && spoiled == old(spoiled) else Failing()
      ensures r.Ok? ==> Taken(response, r.value, old(rows), old(fetched))
      ensures r.Err? ==> Untouched(old(rows), old(fetched), old(nextUrl))
      ensures r.Err? && !old(spoiled) ==> Undelivered(r.error)
    {
      if failure.Some? { return Err(failure.value); }
      r := AcceptNext(response);
    }

    /** What there is to be received: an answer, or the error that took its place. */
    ghost predicate Fetched(response: Result<QueryResponse, Error>)
      reads this
    {
      if response.Ok? then Arrived(response.value) else Inv(false) && Undelivered(response.error)
    }

    /** The same for the outcome of a request for a chunk; the id is known. */
    method ReceiveFetched(response: Result<QueryResponse, Error>) returns (r: Result<ResultChunk, Error>)
      requires Fetched(response) && queryId != ""
      modifies `tape, `clock, `queryId, `rows, `cells, `fetched, `spoiled, `nextUrl
      ensures if r.Ok? then Inv(true) && spoiled == old(spoiled) else Inv(false)
      ensures r.Ok? ==> response.Ok? && Taken(response.value, r.value, old(rows), old(fetched))
      ensures r.Err? ==> Untouched(old(rows), old(fetched), old(nextUrl))
      ensures queryId == old(queryId) && (r.Err? && !old(spoiled) ==> Undelivered(r.error))
    {
      if response.Err? { return Err(response.error); }
      r := Receive(response.value, false);
    }

    method LearnArrived(response: QueryResponse, ghost kept: bool) returns (failure: Option<Error>)
      requires Arrived(response) && (kept ==> Consistent(response, queryId))
      modifies `tape, `clock, `queryId
      ensures Learned(response, failure) && (queryId == old(queryId) || old(queryId) == "")
      ensures kept ==> queryId == old(queryId)
    {
      failure := Learn(response, false);
    }

    /** `Accept`, and the link to the next chunk in legacy mode. */
    method AcceptNext(response: QueryResponse) returns (r: Result<ResultChunk, Error>)
      requires Arrived(response) && Consistent(response, queryId)
      modifies `rows, `cells, `fetched, `spoiled, `nextUrl
      ensures if r.Ok? then Inv(true) && Taken(response, r.value, old(rows), old(fetched)) && spoiled == old(spoiled) else Failing()
      ensures r.Err? ==> Untouched(old(rows), old(fetched), old(nextUrl))
      ensures r.Err? && !old(spoiled) ==> Undelivered(r.error)
    {
      if mode == NumberedV3 {
        r := AcceptNumbered(response);
      } else {
        r := AcceptLinked(response);
      }
      assert r.Err? && !old(spoiled) ==> Unacceptable(response, r.error);
    }

    /** The chunk of the response has been taken over and charged. */
    ghost predicate Taken(response: QueryResponse, chunk: ResultChunk, rowsBefore: uint64, fetchedBefore: uint64)
      reads this
    {
      && chunk == response.chunk && Declared(response) && Delivered(chunk, rowsBefore, fetchedBefore)
      && (mode.DirectLegacy? ==> nextUrl == chunk.nextUrl)
    }

    method AcceptNumbered(response: QueryResponse) returns (r: Result<ResultChunk, Error>)
      requires Inv(false) && mode.NumberedV3? && !terminal && !outstanding && InLimits()
      requires AllAnswered(sent) && |Chunks(sent)| == nextIndex as int && fetched as int + 1 == nextIndex as int
      modifies `rows, `cells, `fetched, `spoiled
      ensures if r.Ok? then Inv(true) && Taken(response, r.value, old(rows), old(fetched)) && spoiled == old(spoiled) else Failing()
      ensures r.Err? ==> rows == old(rows) && fetched == old(fetched)
      ensures r.Err? && !old(spoiled) ==> Unacceptable(response, r.error)
    {
      r := Accept(response);
    }

    method AcceptLinked(response: QueryResponse) returns (r: Result<ResultChunk, Error>)
      requires Inv(false) && mode.DirectLegacy? && !terminal && buffered.None? && Consistent(response, queryId) && Answer() == Some(response)
      requires |Links(sent)| == fetched as int && (fetched == 0 || queryId != "")
      modifies `rows, `cells, `fetched, `spoiled, `nextUrl
      ensures if r.Ok? then Inv(true) && Taken(response, r.value, old(rows), old(fetched)) && spoiled == old(spoiled) else Failing()
      ensures r.Err? ==> Untouched(old(rows), old(fetched), old(nextUrl))
      ensures r.Err? && !old(spoiled) ==> Unacceptable(response, r.error)
    {
      r := Accept(response);
      if r.Ok? { nextUrl := r.value.nextUrl; }
    }

    /** No more chunks are to be fetched. */
    predicate AtEnd()
      reads this
    {
      match mode
      case NumberedV3 => nextIndex >= expectedChunks
      case DirectLegacy => buffered.None? && nextUrl == ""
    }

    method TakeKept() returns (kept: QueryResponse)
      requires Inv(true) && mode.DirectLegacy? && !terminal && buffered.Some?
      modifies `buffered
      ensures Inv(true) && Arrived(kept) && kept == old(buffered).value && Consistent(kept, queryId)
    {
      kept := buffered.value;
      buffered := None;
    }

    /** `Finish` at the end of the data. The chunk-count check cannot fire there. */
    method Conclude() returns (failure: Option<Error>)
      requires Inv(true) && !terminal && !outstanding && AtEnd()
      modifies `reconciled, `terminal
      ensures failure.None? ==> Valid() && reconciled
      ensures failure.Some? ==> Inv(true) && !terminal && !reconciled && failure.value == RowCountMismatch
      ensures failure.None? <==> (hasExpectedRows ==> rows == expectedRows)
    {
      failure := Finish();
    }

    /** One chunk more, which has to be asked for. */
    method FetchAndReceive() returns (r: Result<ResultChunk, Error>)
      requires Inv(true) && !terminal && !outstanding && !AtEnd() && buffered.None?
      modifies `tape, `clock, `cap, `totalBytes, `sent, `nextIndex, `visited, `queryId,
               `rows, `cells, `fetched, `spoiled, `nextUrl
      ensures if r.Ok? then Valid() && spoiled == old(spoiled) else Failing()
      ensures r.Ok? ==> Delivered(r.value, old(rows), old(fetched)) && Obtained(r.value, old(sent), old(NextEndpoint()), None)
      ensures r.Err? ==> Untouched(old(rows), old(fetched), old(nextUrl))
      ensures Forward(old(sent), old(queryId))
      ensures r.Err? && !old(spoiled) ==> Undelivered(r.error)
    {
      if mode == NumberedV3 {
        r := ReceiveNumbered();
      } else {
        r := ReceiveLinked();
      }
    }

    method ReceiveKept() returns (r: Result<ResultChunk, Error>)
      requires Inv(true) && mode.DirectLegacy? && !terminal && buffered.Some?
      modifies `tape, `clock, `queryId, `rows, `cells, `fetched, `spoiled, `nextUrl, `buffered
      ensures if r.Ok? then Inv(true) && spoiled == old(spoiled) else Failing()
      ensures r.Ok? ==> && Delivered(r.value, old(rows), old(fetched)) && r.value == old(buffered).value.chunk
                        && Declared(old(buffered).value) && nextUrl == r.value.nextUrl
      ensures r.Err? ==> Untouched(old(rows), old(fetched), old(nextUrl))
      ensures buffered.None? && queryId == old(queryId)
      ensures r.Err? && !old(spoiled) ==> Undelivered(r.error)
    {
      var kept := TakeKept();
      r := Receive(kept, true);
    }

    method ReceiveNumbered() returns (r: Result<ResultChunk, Error>)
      requires Inv(true) && mode.NumberedV3? && !terminal && !outstanding && nextIndex < expectedChunks
      modifies `tape, `clock, `cap, `totalBytes, `sent, `nextIndex, `queryId, `rows, `cells, `fetched, `spoiled, `nextUrl
      ensures if r.Ok? then Inv(true) && spoiled == old(spoiled) else Inv(false)
      ensures r.Ok? ==> Delivered(r.value, old(rows), old(fetched)) && Answers(world, old(sent), sent, old(NextEndpoint()), r.value)
      ensures r.Err? ==> Untouched(old(rows), old(fetched), old(nextUrl))
      ensures Onward(old(sent), sent) && queryId == old(queryId)
      ensures r.Err? && !old(spoiled) ==> Undelivered(r.error)
    {
      var response := FetchNumbered();
      r := ReceiveFetched(response);
    }

    /** Follows the path the previous chunk named, unless it is unsafe or was followed before. */
    method ReceiveLinked() returns (r: Result<ResultChunk, Error>)
      requires Inv(true) && mode.DirectLegacy? && !terminal && buffered.None? && nextUrl != ""
      modifies `tape, `clock, `cap, `totalBytes, `sent, `visited, `queryId, `rows, `cells, `fetched, `spoiled, `nextUrl
      ensures if r.Ok? then Inv(true) && spoiled == old(spoiled) else Failing()
      ensures r.Ok? ==> Delivered(r.value, old(rows), old(fetched)) && nextUrl == r.value.nextUrl
                        && Answers(world, old(sent), sent, old(NextEndpoint()), r.value)
      ensures r.Err? ==> Untouched(old(rows), old(fetched), old(nextUrl))
      ensures Onward(old(sent), sent) && queryId == old(queryId)
      ensures r.Err? && !old(spoiled) ==> Undelivered(r.error)
      ensures !SafePath(old(nextUrl)) || old(nextUrl in visited) ==> r == Err(UnsafeChunkUrl) && sent == old(sent)
    {
      var failure := CheckLink();
      if failure.Some? { return Err(failure.value); }
      r := ReceiveFollowed();
    }

    method ReceiveFollowed() returns (r: Result<ResultChunk, Error>)
      requires Inv(true) && mode.DirectLegacy? && !terminal && buffered.None? && nextUrl != ""
      requires SafePath(nextUrl) && nextUrl !in visited
      modifies `tape, `clock, `cap, `totalBytes, `sent, `visited, `queryId, `rows, `cells, `fetched, `spoiled, `nextUrl
      ensures if r.Ok? then Inv(true) && spoiled == old(spoiled) else Inv(false)
      ensures r.Ok? ==> Delivered(r.value, old(rows), old(fetched)) && nextUrl == r.value.nextUrl
                        && Answers(world, old(sent), sent, old(NextEndpoint()), r.value)
      ensures r.Err? ==> Untouched(old(rows), old(fetched), old(nextUrl))
      ensures Onward(old(sent), sent) && queryId == old(queryId) && queryId != ""
      ensures r.Err? && !old(spoiled) ==> Undelivered(r.error)
    {
      var response := FollowLink();
      r := ReceiveFetched(response);
    }

    /** `QueryCursor::NextChunk`. */
    method NextChunk() returns (r: Result<Option<ResultChunk>, Error>)
      requires Valid()
      modifies `tape, `clock, `cap, `totalBytes, `sent, `nextIndex, `visited, `queryId,
               `rows, `cells, `fetched, `spoiled, `nextUrl, `buffered, `reconciled, `terminal
      ensures Valid() && Forward(old(sent), old(queryId))
      // Ends: the end is reported when and only when everything has been received, and stays.
      ensures r == Ok(None) ==> && reconciled && sent == old(sent) && rows == old(rows) && queryId == old(queryId)
                                && fetched == old(fetched) && nextUrl == old(nextUrl) && buffered == old(buffered)
      ensures old(reconciled) && !old(outstanding) ==> r == Ok(None)
      ensures r.Ok? ==> spoiled == old(spoiled)
      ensures !old(terminal) && !old(outstanding) ==>
                && (r == Ok(None) <==> old(AtEnd()) && (hasExpectedRows ==> rows == expectedRows))
                && (old(AtEnd()) ==> r == Ok(None) || r == Err(RowCountMismatch))
      // Delivers.
      ensures r.Ok? && r.value.Some? ==> && !terminal && Delivered(r.value.value, old(rows), old(fetched))
                                         && Obtained(r.value.value, old(sent), old(NextEndpoint()), old(buffered))
      // Fails: with the id known the query is deleted and nothing is ever sent again.
      ensures old(terminal) ==> terminal && reconciled == old(reconciled) && sent == old(sent)
      ensures old(terminal) && !old(reconciled) ==> r.Err?
      ensures r.Err? ==> !reconciled || old(outstanding)
      ensures r.Err? && !old(terminal) && !old(outstanding) ==>
                (terminal <==> queryId != "") && rows == old(rows) && fetched == old(fetched) && nextUrl == old(nextUrl)
      ensures old(buffered).Some? && !old(terminal) && !old(outstanding) ==> buffered.None? && queryId == old(queryId)
      ensures r.Err? && (old(terminal) || old(outstanding)) ==> r.error == WrongUse
      ensures r.Err? && !old(terminal) && !old(outstanding) && !old(AtEnd()) && !old(spoiled) ==> Undelivered(r.error)
    {
      if outstanding { return Err(WrongUse); }
      if reconciled { return Ok(None); }
      if terminal { return Err(WrongUse); }
      r := NextOpenChunk();
    }

    /** The try block of `NextChunk` and its handler. */
    method NextOpenChunk() returns (r: Result<Option<ResultChunk>, Error>)
      requires Inv(true) && !terminal && !outstanding
      modifies `tape, `clock, `cap, `totalBytes, `sent, `nextIndex, `visited, `queryId,
               `rows, `cells, `fetched, `spoiled, `nextUrl, `buffered, `reconciled, `terminal
      ensures Valid() && Forward(old(sent), old(queryId)) && (r == Ok(None) ==> old(AtEnd()))
      ensures old(AtEnd()) ==> && rows == old(rows) && queryId == old(queryId) && fetched == old(fetched)
                               && nextUrl == old(nextUrl) && buffered == old(buffered)
                               && (r == Ok(None) <==> (hasExpectedRows ==> rows == expectedRows))
                               && (r == Ok(None) || r == Err(RowCountMismatch)) && (r.Ok? ==> sent == old(sent))
      ensures r.Ok? ==> spoiled == old(spoiled) && (r.value.None? <==> reconciled) && (r.value.Some? ==> !terminal)
      ensures r.Ok? && r.value.Some? ==> && Delivered(r.value.value, old(rows), old(fetched))
                                         && Obtained(r.value.value, old(sent), old(NextEndpoint()), old(buffered))
      ensures r.Err? ==> && !reconciled && (terminal <==> queryId != "")
                         && rows == old(rows) && fetched == old(fetched) && nextUrl == old(nextUrl)
      ensures old(buffered).Some? ==> buffered.None? && queryId == old(queryId)
      ensures r.Err? && !old(spoiled) && !old(AtEnd()) ==> Undelivered(r.error)
    {
      if AtEnd() {
        r := EndOrAbandon();
      } else if buffered.Some? {
        r := OpenOrAbandon();
      } else {
        r := AdvanceOrAbandon();
      }
    }

    method EndOrAbandon() returns (r: Result<Option<ResultChunk>, Error>)
      requires Inv(true) && !terminal && !outstanding && AtEnd()
      modifies `tape, `sent, `reconciled, `terminal
      ensures Valid() && (r == Ok(None) || r == Err(RowCountMismatch)) && (r.Ok? ==> reconciled && sent == old(sent))
      ensures r.Ok? <==> (hasExpectedRows ==> rows == expectedRows)
      ensures r.Err? ==> !reconciled && (terminal <==> queryId != "")
      ensures sent == old(sent) || (sent.Then? && sent.before == old(sent) && sent.last.endpoint.Cleanup?)
    {
      var failure := Conclude();
      if failure.None? { return Ok(None); }
      Abandon();
      return Err(failure.value);
    }

    /** The kept response is the first chunk. */
    method OpenOrAbandon() returns (r: Result<Option<ResultChunk>, Error>)
      requires Inv(true) && mode.DirectLegacy? && !terminal && buffered.Some?
      modifies `tape, `clock, `sent, `queryId, `rows, `cells, `fetched, `spoiled, `nextUrl, `buffered, `terminal
      ensures Valid() && !reconciled && r != Ok(None) && buffered.None? && queryId == old(queryId)
      ensures r.Ok? ==> && !terminal && spoiled == old(spoiled) && sent == old(sent) && Delivered(r.value.value, old(rows), old(fetched))
                        && r.value.value == old(buffered).value.chunk && Declared(old(buffered).value) && nextUrl == r.value.value.nextUrl
      ensures r.Err? ==> (terminal <==> queryId != "") && rows == old(rows) && fetched == old(fetched) && nextUrl == old(nextUrl)
      ensures sent == old(sent) || (sent.Then? && sent.before == old(sent) && sent.last.endpoint.Cleanup?)
      ensures r.Err? && !old(spoiled) ==> Undelivered(r.error)
    {
      var accepted := ReceiveKept();
      if accepted.Ok? { return Ok(Some(accepted.value)); }
      Abandon();
      return Err(accepted.error);
    }

    method AdvanceOrAbandon() returns (r: Result<Option<ResultChunk>, Error>)
      requires Inv(true) && !terminal && !outstanding && !AtEnd() && buffered.None?
      modifies `tape, `clock, `cap, `totalBytes, `sent, `nextIndex, `visited, `queryId,
               `rows, `cells, `fetched, `spoiled, `nextUrl, `terminal
      ensures Valid() && Forward(old(sent), old(queryId)) && !reconciled && r != Ok(None)
      ensures r.Ok? ==> && !terminal && spoiled == old(spoiled) && Delivered(r.value.value, old(rows), old(fetched))
                        && Obtained(r.value.value, old(sent), old(NextEndpoint()), None)
      ensures r.Err? ==> (terminal <==> queryId != "") && rows == old(rows) && fetched == old(fetched) && nextUrl == old(nextUrl)
      ensures r.Err? && !old(spoiled) ==> Undelivered(r.error)
    {
      var accepted := FetchAndReceive();
      if accepted.Err? {
        Abandon();
        return Err(accepted.error);
      }
      return Ok(Some(accepted.value));
    }

    /** Nothing sent is unsent, and a known id does not change. */
    ghost predicate Forward(before: Trace, idBefore: string)
      reads this
    {
      Onward(before, sent) && (queryId == idBefore || idBefore == "")
    }

    /** Nothing has been delivered. */
    ghost predicate Untouched(rowsBefore: uint64, fetchedBefore: uint64, urlBefore: string)
      reads this
    {
      rows == rowsBefore && fetched == fetchedBefore && nextUrl == urlBefore
    }

    /** A chunk handed to the caller: counted, and as wide as the metadata. */
    ghost predicate Delivered(chunk: ResultChunk, rowsBefore: uint64, fetchedBefore: uint64)
      reads this
    {
      && Wide(chunk.rows, |metadata|)
      && rows as int == rowsBefore as int + |chunk.rows|
      && fetched as int == fetchedBefore as int + 1
    }

    // ---------------------------------------------------------------- the Arrow cursor

    /** The body of the try block of `NextArrowChunk`. */
    method TryNextArrowChunk() returns (r: Result<Option<HttpResponse>, Error>)
      requires Inv(true) && mode.NumberedV3? && !terminal && !outstanding
      modifies `tape, `clock, `cap, `totalBytes, `sent, `outstanding, `reconciled, `terminal
      ensures r.Ok? ==> Valid() && (r.value.None? ==> old(AtEnd()))
      ensures r == Ok(None) ==> reconciled && terminal && sent == old(sent) && !outstanding
      ensures r.Ok? && r.value.Some? ==> outstanding && !terminal && Offered(r.value.value, old(sent))
      ensures r.Err? ==> Inv(false) && !terminal && !reconciled && !outstanding && Unoffered(r.error)
      ensures Forward(old(sent), old(queryId))
      ensures old(AtEnd()) ==> sent == old(sent) && !(r.Ok? && r.value.Some?)
    {
      var failure := CheckStillActive(true);
      if failure.Some? { return Err(failure.value); }
      r := EndOrOffer();
    }

    /** With time left: the end of the data, or the next chunk. */
    method EndOrOffer() returns (r: Result<Option<HttpResponse>, Error>)
      requires Inv(true) && mode.NumberedV3? && !terminal && !outstanding
      modifies `tape, `clock, `cap, `totalBytes, `sent, `outstanding, `reconciled, `terminal
      ensures r.Ok? ==> Valid() && (r.value.None? ==> old(AtEnd()))
      ensures r == Ok(None) ==> reconciled && terminal && sent == old(sent) && !outstanding
      ensures r.Ok? && r.value.Some? ==> outstanding && !terminal && Offered(r.value.value, old(sent))
      ensures r.Err? ==> Inv(false) && !terminal && !reconciled && !outstanding && Unoffered(r.error)
      ensures Forward(old(sent), old(queryId))
      ensures old(AtEnd()) ==> sent == old(sent) && !(r.Ok? && r.value.Some?)
    {
      if AtEnd() {
        r := EndArrow();
      } else {
        r := OfferArrowChunk();
      }
    }

    method EndArrow() returns (r: Result<Option<HttpResponse>, Error>)
      requires Inv(true) && mode.NumberedV3? && !terminal && !outstanding && AtEnd()
      modifies `reconciled, `terminal
      ensures r.Ok? ==> Valid() && r.value.None? && reconciled
      ensures r.Err? ==> Inv(false) && !terminal && !reconciled && Unoffered(r.error)
    {
      var failure := Conclude();
      return if failure.Some? then Err(failure.value) else Ok(None);
    }

    method OfferArrowChunk() returns (r: Result<Option<HttpResponse>, Error>)
      requires Inv(true) && mode.NumberedV3? && !terminal && !outstanding && nextIndex < expectedChunks
      modifies `tape, `clock, `cap, `totalBytes, `sent, `outstanding
      ensures Onward(old(sent), sent) && !terminal && !reconciled && outstanding == r.Ok?
      ensures r.Err? ==> Inv(false) && Unoffered(r.error)
      ensures r.Ok? ==> Inv(true) && r.value.Some? && Offered(r.value.value, old(sent))
    {
      r := RequestArrowChunk();
      if r.Ok? { outstanding := true; }
    }

    /** Asks for the chunk `nextIndex`, which advances only when its rows are reported. */
    method RequestArrowChunk() returns (r: Result<Option<HttpResponse>, Error>)
      requires Inv(true) && mode.NumberedV3? && !terminal && !outstanding && nextIndex < expectedChunks
      modifies `tape, `clock, `cap, `totalBytes, `sent
      ensures Inv(false) && Onward(old(sent), sent) && (r.Err? ==> Unoffered(r.error))
      ensures r.Ok? ==> r.value.Some? && Offered(r.value.value, old(sent)) && AllAnswered(sent)
    {
      var response := SendForChunk();
      if response.Err? { return Err(response.error); }
      var failure := CheckStatus(response.value);
      if failure.None? { failure := CheckStillActive(false); }
      return if failure.Some? then Err(failure.value) else Ok(Some(response.value));
    }

    method CheckStatus(response: HttpResponse) returns (failure: Option<Error>)
      requires Latest(sent).Some? && Latest(sent).value.endpoint.Chunk? && Latest(sent).value.reply == Some(response)
      requires fetched as int < |Chunks(sent)|
      ensures failure.None? <==> Successful(response)
      ensures failure.Some? ==> Unoffered(failure.value)
    {
      if Successful(response) { return None; }
      return Some(if world.decode(response).NeedsReauth? then ReauthRequired else ChunkFailed);
    }

    method SendForChunk() returns (r: Result<HttpResponse, Error>)
      requires Inv(true) && mode.NumberedV3? && !terminal && !outstanding && nextIndex < expectedChunks
      modifies `tape, `clock, `cap, `totalBytes, `sent
      ensures Inv(false) && Onward(old(sent), sent)
      ensures if r.Ok? then Received(r.value, old(sent)) && AllAnswered(sent) else Unoffered(r.error)
    {
      ghost var log;
      r, log := SendLogged(Chunk(queryId, nextIndex as int));
    }

    ghost predicate Received(response: HttpResponse, before: Trace)
      reads this
    {
      && sent.Then? && sent.before == before
      && sent.last.endpoint == Chunk(queryId, nextIndex as int) && sent.last.reply == Some(response)
      && fetched as int == |Chunks(before)| && nextIndex < expectedChunks
    }

    /** The response is the answer to the one new request, for the next chunk in order. */
    ghost predicate Offered(response: HttpResponse, before: Trace)
      reads this
    {
      Received(response, before) && Successful(response)
    }

    /** `QueryCursor::NextArrowChunk`. */
    method NextArrowChunk() returns (r: Result<Option<HttpResponse>, Error>)
      requires Valid()
      modifies `tape, `clock, `cap, `totalBytes, `sent, `outstanding, `reconciled, `terminal
      ensures Valid() && Forward(old(sent), old(queryId))
      ensures r == Ok(None) ==> reconciled && mode.NumberedV3? && sent == old(sent) && !outstanding
      ensures r.Ok? && r.value.Some? ==>
                && mode.NumberedV3? && !old(outstanding) && !old(terminal)
                && outstanding && !terminal && Offered(r.value.value, old(sent))
      ensures old(terminal) ==> terminal && reconciled == old(reconciled) && sent == old(sent)
      ensures (old(terminal) && !old(reconciled)) || old(outstanding) || mode.DirectLegacy? ==> r.Err? && sent == old(sent)
      ensures old(reconciled) && mode.NumberedV3? ==> r == Ok(None)
      ensures r.Err? && mode.NumberedV3? && !old(terminal) && !old(outstanding) ==> terminal && !reconciled
      ensures r.Err? ==> if mode.DirectLegacy? || old(outstanding) || old(terminal) then r.error == WrongUse else Unoffered(r.error)
      ensures old(outstanding) ==> outstanding
    {
      if mode != NumberedV3 { return Err(WrongUse); }
      if outstanding { return Err(WrongUse); }
      if reconciled { return Ok(None); }
      if terminal { return Err(WrongUse); }
      r := NextOpenArrowChunk();
    }

    /** The try block of `NextArrowChunk` and its handler. */
    method NextOpenArrowChunk() returns (r: Result<Option<HttpResponse>, Error>)
      requires Inv(true) && mode.NumberedV3? && !terminal && !outstanding
      modifies `tape, `clock, `cap, `totalBytes, `sent, `outstanding, `reconciled, `terminal
      ensures Valid() && Forward(old(sent), old(queryId))
      ensures r == Ok(None) ==> reconciled && terminal && sent == old(sent) && !outstanding
      ensures r.Ok? && r.value.Some? ==> outstanding && !terminal && Offered(r.value.value, old(sent))
      ensures r.Err? ==> terminal && !reconciled && !outstanding && Unoffered(r.error)
    {
      r := TryNextArrowChunk();
      if r.Err? { AbandonNumbered(); }
    }

    /** The handler of a numbered query, which has an id. */
    method AbandonNumbered()
      requires Inv(false) && mode.NumberedV3? && !terminal && !reconciled
      modifies `terminal, `tape, `sent
      ensures Valid() && terminal && Facts() == old(Facts())
      ensures sent.Then? && sent.before == old(sent) && sent.last.endpoint.Cleanup?
    {
      Abandon();
    }

    /** `QueryCursor::ReportArrowChunk`: the decoded rows are charged before any is emitted. */
    method ReportArrowChunk(decodedRows: uint64) returns (failure: Option<Error>)
      requires Valid()
      modifies `tape, `clock, `sent, `rows, `cells, `fetched, `nextIndex, `outstanding, `terminal
      ensures Valid() && Forward(old(sent), old(queryId)) && Latest(sent) == old(Latest(sent))
      ensures failure.None? ==> && old(outstanding) && !outstanding && sent == old(sent) && terminal == old(terminal)
                                && rows as int == old(rows) as int + decodedRows as int
                                && fetched as int == old(fetched) as int + 1 && nextIndex as int == old(nextIndex) as int + 1
      ensures failure.Some? ==> && rows == old(rows) && fetched == old(fetched) && nextIndex == old(nextIndex)
                                && outstanding == old(outstanding) && (outstanding ==> terminal && !reconciled)
      ensures failure.Some? ==>
                if old(outstanding) then Halting(failure.value) || Overcharges(decodedRows, failure.value) else failure.value == WrongUse
      ensures old(terminal) ==> terminal && reconciled == old(reconciled) && sent == old(sent)
    {
      if !outstanding { return Some(WrongUse); }
      failure := ReportOffered(decodedRows);
    }

    /** The try block of `ReportArrowChunk` and its handler. */
    method ReportOffered(decodedRows: uint64) returns (failure: Option<Error>)
      requires Valid() && outstanding
      modifies `tape, `clock, `sent, `rows, `cells, `fetched, `nextIndex, `outstanding, `terminal
      ensures Valid() && Forward(old(sent), old(queryId)) && Latest(sent) == old(Latest(sent))
      ensures failure.None? ==> && !outstanding && sent == old(sent) && terminal == old(terminal)
                                && rows as int == old(rows) as int + decodedRows as int
                                && fetched as int == old(fetched) as int + 1 && nextIndex as int == old(nextIndex) as int + 1
      ensures failure.Some? ==> && rows == old(rows) && fetched == old(fetched) && nextIndex == old(nextIndex)
                                && outstanding && terminal && !reconciled
                                && (Halting(failure.value) || Overcharges(decodedRows, failure.value))
      ensures old(terminal) ==> terminal && sent == old(sent)
    {
      failure := TryReport(decodedRows);
      if failure.Some? { Withdraw(); }
    }

    /** The handler while a chunk is offered, whose query has an id. */
    method Withdraw()
      requires Valid() && outstanding
      modifies `terminal, `tape, `sent
      ensures Valid() && terminal && !reconciled && Facts() == old(Facts()) && Onward(old(sent), sent)
      ensures old(terminal) ==> sent == old(sent)
    {
      Cancel();
    }

    /** The body of the try block of `ReportArrowChunk`. */
    method TryReport(decodedRows: uint64) returns (failure: Option<Error>)
      requires Valid() && outstanding
      modifies `tape, `clock, `rows, `cells, `fetched, `nextIndex, `outstanding
      ensures Valid()
      ensures failure.None? ==> && !outstanding && rows as int == old(rows) as int + decodedRows as int
                                && fetched as int == old(fetched) as int + 1 && nextIndex as int == old(nextIndex) as int + 1
      ensures failure.Some? ==> rows == old(rows) && fetched == old(fetched) && nextIndex == old(nextIndex) && outstanding
      ensures failure.Some? ==> Halting(failure.value) || Overcharges(decodedRows, failure.value)
    {
      failure := CheckStillActive(!terminal);
      if failure.None? { failure := ChargeAndAdvance(decodedRows); }
    }

    method ChargeAndAdvance(decodedRows: uint64) returns (failure: Option<Error>)
      requires Valid() && outstanding
      modifies `rows, `cells, `fetched, `nextIndex, `outstanding
      ensures Valid()
      ensures failure.None? ==> && !outstanding && rows as int == old(rows) as int + decodedRows as int
                                && fetched as int == old(fetched) as int + 1 && nextIndex as int == old(nextIndex) as int + 1
      ensures failure.Some? ==> rows == old(rows) && fetched == old(fetched) && nextIndex == old(nextIndex) && outstanding
      ensures failure.Some? ==> Overcharges(decodedRows, failure.value)
    {
      failure := Charge(decodedRows);
      if failure.None? { Advance(); }
    }

    method Advance()
      requires Valid() && outstanding
      modifies `fetched, `nextIndex, `outstanding
      ensures Valid() && !outstanding && fetched as int == old(fetched) as int + 1 && nextIndex as int == old(nextIndex) as int + 1
    {
      fetched := fetched + 1;
      nextIndex := nextIndex + 1;
      outstanding := false;
    }

    /** The decoded rows do not fit. */
    ghost predicate Overcharges(decodedRows: uint64, e: Error)
      reads this
    {
      match e
      case MaterializationLimit =>
        || rows as int + decodedRows as int > options.maxRows as int
        || cells as int + Times(decodedRows as int, |metadata|) > options.maxCells as int
      case RowCountMismatch => hasExpectedRows && rows as int + decodedRows as int > expectedRows as int
      case _ => false
    }

    /** The budget arithmetic of `ReportArrowChunk`. */
    method Charge(decodedRows: uint64) returns (failure: Option<Error>)
      requires Budgeted()
      modifies `rows, `cells
      ensures Budgeted()
      ensures failure.Some? ==> rows == old(rows) && cells == old(cells) && Overcharges(decodedRows, failure.value)
      ensures failure.None? ==> rows as int == old(rows) as int + decodedRows as int
                                && cells as int == old(cells) as int + Times(decodedRows as int, |metadata|)
      ensures failure.None? <==> && old(rows) as int + decodedRows as int <= options.maxRows as int
                                 && (hasExpectedRows ==> old(rows) as int + decodedRows as int <= expectedRows as int)
                                 && old(cells) as int + Times(decodedRows as int, |metadata|) <= options.maxCells as int
    {
      CellsFit(decodedRows, options.maxCells - cells, |metadata| as uint64);
      var remainingRows := options.maxRows - Min64(rows, options.maxRows);
      var remainingCells := options.maxCells - Min64(cells, options.maxCells);
      var width := |metadata| as uint64;
      var fits := FitsCells(decodedRows, remainingCells, width);
      if decodedRows > remainingRows || !fits { return Some(MaterializationLimit); }
      if hasExpectedRows && decodedRows > expectedRows - Min64(rows, expectedRows) { return Some(RowCountMismatch); }
      TimesAdds(rows as int, decodedRows as int, |metadata|);
      rows := rows + decodedRows;
      cells := cells + Product(decodedRows, width);
      return None;
    }

    // ---------------------------------------------------------------- preparing

    /** No data has been accepted and no chunk requested. */
    ghost predicate Preparing()
      reads this
    {
      && Inv(true) && mode.DirectLegacy? && !terminal && !reconciled && buffered.None? && fetched == 0
      && rows == 0 && cells == 0 && metadata == [] && !spoiled && !hasExpectedRows && !outstanding && nextIndex == 0
    }

    /** What the session expects is what the server announced: in the answer that ended the
        polling and, in numbered mode, in the answer to the metadata request. */
    ghost predicate Announced()
      reads this
    {
      AnnouncedIn(world, sent, Terms())
    }

    /** What the session expects. */
    function Terms(): Terms
      reads this
    {
      Expecting(mode, metadata, hasExpectedRows, expectedRows, expectedChunks)
    }

    /** A prepared query: everything is still to be fetched. */
    ghost predicate Ready()
      reads this
    {
      && Inv(true) && !terminal && !reconciled && !outstanding && !spoiled
      && fetched == 0 && rows == 0 && cells == 0 && |metadata| <= options.maxColumns as int
      && (mode.NumberedV3? ==> metadata != [] && NumericComplete(metadata))
      && Announced() && (mode.DirectLegacy? ==> buffered == DecodedBy(world, StatusReply(sent)) && buffered.Some?)
    }

    /** The k-th poll is preceded by k sleeps. */
    ghost predicate PollsPaid()
      reads this
    {
      Times(PollCount(sent), options.pollIntervalMs as int) <= clock - startedAt
    }

    ghost predicate PollsBounded()
      reads this
    {
      Times(PollCount(sent), options.pollIntervalMs as int) < options.overallTimeoutMs as int
    }

    /** What that says in the program's own terms. */
    lemma PollsWithin()
      requires PollsBounded()
      ensures PollCount(sent) <= (options.overallTimeoutMs as int - 1) / options.pollIntervalMs as int
    {
      PollBound(PollCount(sent), options.pollIntervalMs as int, options.overallTimeoutMs as int);
    }

    /** A request of the preparation phase and its decoded answer. */
    method Ask(endpoint: Endpoint) returns (r: Result<QueryResponse, Error>)
      requires Preparing() && Carries(endpoint, queryId) && (endpoint.Submit? || endpoint.Poll?) && CalledFor(world, sent, endpoint)
      modifies `tape, `clock, `cap, `totalBytes, `sent, `queryId
      ensures Preparing() && (queryId == old(queryId) || old(queryId) == "") && Extends(old(sent), sent) && old(clock) <= clock
      ensures PollCount(sent) <= PollCount(old(sent)) + if endpoint.Poll? then 1 else 0
      ensures r.Ok? && endpoint.Poll? ==> PollCount(sent) == PollCount(old(sent)) + 1
      ensures r.Ok? ==> Consistent(r.value, queryId) && clock - startedAt < options.overallTimeoutMs as int
      ensures r.Ok? ==> DecodedBy(world, StatusReply(sent)) == Some(r.value)
      ensures if r.Ok? then Status(r.value) else Trouble(r.error)
    {
      r := Post(endpoint);
      if r.Ok? { r := Identify(r.value); }
    }

    /** Learns the id from the answer. */
    method Identify(response: QueryResponse) returns (r: Result<QueryResponse, Error>)
      requires Preparing() && Answer() == Some(response)
      modifies `tape, `clock, `queryId
      ensures Preparing() && (queryId == old(queryId) || old(queryId) == "") && old(clock) <= clock
      ensures r.Ok? ==> r.value == response && Consistent(r.value, queryId) && clock - startedAt < options.overallTimeoutMs as int
      ensures r.Err? ==> Trouble(r.error)
    {
      var failure := Learn(response, true);
      return if failure.Some? then Err(failure.value) else Ok(response);
    }

    /** The request and the decoding. */
    method Post(endpoint: Endpoint) returns (r: Result<QueryResponse, Error>)
      requires Preparing() && Carries(endpoint, queryId) && (endpoint.Submit? || endpoint.Poll?) && CalledFor(world, sent, endpoint)
      modifies `tape, `clock, `cap, `totalBytes, `sent
      ensures Preparing() && Extends(old(sent), sent) && old(clock) <= clock
      ensures PollCount(sent) <= PollCount(old(sent)) + if endpoint.Poll? then 1 else 0
      ensures r.Ok? && endpoint.Poll? ==> PollCount(sent) == PollCount(old(sent)) + 1
      ensures r.Ok? ==> DecodedBy(world, StatusReply(sent)) == Some(r.value)
      ensures if r.Ok? then Status(r.value) else Trouble(r.error)
    {
      ghost var log;
      r, log := PostLogged(endpoint);
    }

    method PostLogged(endpoint: Endpoint) returns (r: Result<QueryResponse, Error>, ghost log: Option<Exchange>)
      requires Preparing() && Carries(endpoint, queryId) && (endpoint.Submit? || endpoint.Poll?) && CalledFor(world, sent, endpoint)
      modifies `tape, `clock, `cap, `totalBytes, `sent
      ensures Preparing() && old(clock) <= clock && sent == Plus(old(sent), log)
      ensures (log.Some? ==> log.value.endpoint == endpoint) && (r.Ok? ==> log.Some?)
      ensures if r.Ok? then Status(r.value) else Trouble(r.error)
    {
      r, log := SendAndDecode(endpoint);
    }

    /** The polling loop. It ends because every turn sleeps, and every turn that was not
        interrupted brings the deadline closer by the poll interval. */
    method PollUntilDone(first: QueryResponse) returns (r: Result<QueryResponse, Error>)
      requires Preparing() && Consistent(first, queryId) && InTime() && DecodedBy(world, StatusReply(sent)) == Some(first)
      requires Status(first)
      modifies `tape, `clock, `cap, `totalBytes, `sent, `queryId, `naps
      ensures Preparing() && (queryId == old(queryId) || old(queryId) == "") && Extends(old(sent), sent)
      ensures PollsBounded()
      ensures r.Ok? ==> Consistent(r.value, queryId) && !r.value.state.Running? && DecodedBy(world, StatusReply(sent)) == Some(r.value)
      ensures if r.Ok? then Status(r.value) else Unready(r.error)
    {
      var decoded := first;
      while decoded.state.Running?
        invariant Preparing() && Consistent(decoded, queryId) && InTime() && DecodedBy(world, StatusReply(sent)) == Some(decoded)
        invariant Status(decoded)
        invariant (queryId == old(queryId) || old(queryId) == "") && Extends(old(sent), sent)
        decreases startedAt + options.overallTimeoutMs as int - clock
      {
        ghost var before := sent;
        var answer := PollOnce();
        ExtendsTransitive(old(sent), before, sent);
        if answer.Err? { return Err(answer.error); }
        decoded := answer.value;
      }
      return Ok(decoded);
    }

    /** There is time left, and every poll so far was paid for by a sleep. */
    ghost predicate InTime()
      reads this
    {
      PollsPaid() && naps <= PollCount(sent) && clock - startedAt < options.overallTimeoutMs as int
    }

    /** One turn of the polling loop. */
    method PollOnce() returns (r: Result<QueryResponse, Error>)
      requires Preparing() && InTime() && Answer().Some? && Status(Answer().value) && Answer().value.state.Running?
      requires Consistent(Answer().value, queryId)
      modifies `tape, `clock, `cap, `totalBytes, `sent, `queryId, `naps
      ensures Preparing() && (queryId == old(queryId) || old(queryId) == "") && Extends(old(sent), sent)
      ensures PollsBounded()
      ensures r.Ok? ==> Consistent(r.value, queryId) && InTime() && old(clock) + options.pollIntervalMs as int <= clock
      ensures r.Ok? ==> DecodedBy(world, StatusReply(sent)) == Some(r.value)
      ensures if r.Ok? then Status(r.value) else Unready(r.error)
    {
      var failure := CheckAsync();
      if failure.None? { failure := Sleep(); }
      if failure.Some? {
        TimesMonotone(0, 0, options.pollIntervalMs as int);
        return Err(failure.value);
      }
      r := PollNow();
    }

    /** A running query must have an id. */
    method CheckAsync() returns (failure: Option<Error>)
      requires Answer().Some? && Status(Answer().value) && Answer().value.state.Running?
      requires Consistent(Answer().value, queryId) && (queryId == "" || SafeId(queryId))
      ensures failure.None? <==> SafeId(queryId)
      ensures failure.Some? ==> Unready(failure.value)
    {
      var safe := IsSafeQueryId(queryId);
      return if safe then None else Some(InvalidAsyncResponse);
    }

    /** The poll itself, once the sleep has paid for it. */
    method PollNow() returns (r: Result<QueryResponse, Error>)
      requires Preparing() && CalledFor(world, sent, Poll(queryId)) && SafeId(queryId) && clock - startedAt < options.overallTimeoutMs as int
      requires naps <= PollCount(sent) + 1 && Times(PollCount(sent) + 1, options.pollIntervalMs as int) <= clock - startedAt
      modifies `tape, `clock, `cap, `totalBytes, `sent, `queryId
      ensures Preparing() && queryId == old(queryId) && Extends(old(sent), sent) && PollsBounded() && old(clock) <= clock
      ensures r.Ok? ==> Consistent(r.value, queryId) && InTime()
      ensures r.Ok? ==> DecodedBy(world, StatusReply(sent)) == Some(r.value)
      ensures if r.Ok? then Status(r.value) else Trouble(r.error)
    {
      ghost var polls := PollCount(sent);
      r := Ask(Poll(queryId));
      TimesMonotone(PollCount(sent), polls + 1, options.pollIntervalMs as int);
    }

    /** The pause between two polls. */
    method Sleep() returns (failure: Option<Error>)
      requires Preparing() && InTime() && Answer().Some? && Status(Answer().value) && Answer().value.state.Running?
      modifies `tape, `clock, `naps
      ensures Preparing() && (failure.Some? ==> Halting(failure.value))
      ensures failure.None? ==> && clock - startedAt < options.overallTimeoutMs as int
                                && old(clock) + options.pollIntervalMs as int <= clock && naps <= PollCount(sent) + 1
    {
      Nap();
      failure := CheckPreparing();
    }

    /** The pause itself, which only an interrupt cuts short. */
    method Nap()
      requires Preparing() && InTime() && Answer().Some? && Answer().value.state.Running?
      modifies `tape, `clock, `naps
      ensures Preparing() && old(clock) <= clock
      ensures tape.interrupted || (old(clock) + options.pollIntervalMs as int <= clock && naps <= PollCount(sent) + 1)
    {
      PollsFollow(world, options.maxTotalBytes as int, sent, tape.calls, totalBytes as int);
      SleepMs(options.pollIntervalMs);
    }

    method CheckPreparing() returns (failure: Option<Error>)
      requires Preparing()
      modifies `tape, `clock
      ensures Preparing() && old(clock) <= clock && (old(tape.interrupted) ==> failure.Some?)
      ensures if failure.Some? then Halting(failure.value) else clock - startedAt < options.overallTimeoutMs as int
    {
      failure := CheckActive();
    }

    /** Between learning the chunk count and the first chunk request. */
    ghost predicate Numbering()
      reads this
    {
      && Inv(true) && mode.NumberedV3? && !terminal && !reconciled && !outstanding
      && fetched == 0 && rows == 0 && cells == 0 && !spoiled && Chunks(sent) == []
    }

    /** A completed query with a chunk count: numbered mode. */
    method EnterNumbered(decoded: QueryResponse) returns (failure: Option<Error>)
      requires Preparing() && CameInChunks(world, sent) && Chunked(decoded) && decoded.state == QueryState.Complete
      requires Consistent(decoded, queryId) && Status(decoded)
      modifies `mode, `expectedChunks, `hasExpectedRows, `expectedRows
      ensures Chunks(sent) == [] && Links(sent) == []
      ensures Failing() && !terminal && !reconciled && !outstanding
      ensures failure.None? ==> Numbering() && Totals(decoded)
      ensures failure.Some? ==> Unready(failure.value)
    {
      failure := CheckIdKnown(decoded);
      if failure.None? {
        BecomeNumbered(decoded);
        failure := CheckTotals(decoded);
      }
    }

    /** A result in numbered chunks needs the id of the query. */
    method CheckIdKnown(decoded: QueryResponse) returns (failure: Option<Error>)
      requires (queryId == "" || SafeId(queryId)) && Consistent(decoded, queryId)
      requires Chunked(decoded) && decoded.state == QueryState.Complete && Status(decoded)
      ensures failure.None? <==> SafeId(queryId)
      ensures failure.Some? ==> Unready(failure.value)
    {
      var safe := IsSafeQueryId(queryId);
      return if safe then None else Some(InvalidCompletedResponse);
    }

    method BecomeNumbered(decoded: QueryResponse)
      requires Preparing() && CameInChunks(world, sent) && SafeId(queryId)
      modifies `mode, `expectedChunks, `hasExpectedRows, `expectedRows
      ensures Inv(false) && mode.NumberedV3? && (InLimits() ==> Numbering())
      ensures expectedChunks == decoded.chunkCount && hasExpectedRows == decoded.hasRowCount && expectedRows == decoded.rowCount
    {
      NoChunksYet(sent, queryId);
      mode := NumberedV3;
      expectedChunks := decoded.chunkCount;
      hasExpectedRows := decoded.hasRowCount;
      expectedRows := decoded.rowCount;
    }

    /** What is expected is what the response announces. */
    ghost predicate Totals(response: QueryResponse)
      reads this
    {
      expectedChunks == response.chunkCount && hasExpectedRows == response.hasRowCount && expectedRows == response.rowCount
    }

    /** The metadata are those of the answer to the latest request. */
    ghost predicate MetadataKnown()
      reads this
    {
      && metadata != [] && NumericComplete(metadata)
      && Answer().Some? && Answer().value.metadata == metadata && Latest(sent).value.endpoint.MetadataOf?
      && var described := DecodedBy(world, MetadataReply(sent)); described.Some? && described.value.metadata == metadata
    }

    /** The announced totals against the limits. */
    method CheckTotals(decoded: QueryResponse) returns (failure: Option<Error>)
      requires Chunked(decoded) && decoded.state == QueryState.Complete && Status(decoded)
      requires expectedChunks == decoded.chunkCount && hasExpectedRows == decoded.hasRowCount && expectedRows == decoded.rowCount
      ensures failure.None? <==> InLimits()
      ensures failure.Some? ==> Unready(failure.value)
    {
      if expectedChunks > options.maxChunks { return Some(TooManyChunks); }
      if hasExpectedRows && expectedRows > options.maxRows { return Some(MaterializationLimit); }
      return None;
    }

    method RequestMetadata() returns (r: Result<QueryResponse, Error>)
      requires Numbering() && Latest(sent).Some? && IsStatus(Latest(sent).value.endpoint)
      modifies `tape, `clock, `cap, `totalBytes, `sent
      ensures Numbering() && Extends(old(sent), sent) && PollCount(sent) == PollCount(old(sent))
      ensures r.Ok? ==> Latest(sent).value.endpoint.MetadataOf?
      ensures StatusReply(sent) == StatusReply(old(sent)) && (r.Ok? ==> DecodedBy(world, MetadataReply(sent)) == Some(r.value))
      ensures if r.Ok? then Answer() == Some(r.value) else Trouble(r.error)
    {
      ghost var log;
      r, log := SendAndDecode(MetadataOf(queryId));
    }

    /** The metadata request of numbered mode. */
    method FetchMetadata() returns (failure: Option<Error>)
      requires Numbering() && Latest(sent).Some? && IsStatus(Latest(sent).value.endpoint)
      modifies `tape, `clock, `cap, `totalBytes, `sent, `metadata
      ensures Numbering() && Extends(old(sent), sent) && PollCount(sent) == PollCount(old(sent))
      ensures StatusReply(sent) == StatusReply(old(sent))
      ensures if failure.None? then MetadataKnown() else Unready(failure.value)
    {
      var answer := RequestMetadata();
      if answer.Err? { return Some(answer.error); }
      failure := Adopt(answer.value);
    }

    /** Takes the metadata over, if it is complete. */
    method Adopt(answer: QueryResponse) returns (failure: Option<Error>)
      requires Numbering() && Answer() == Some(answer) && Latest(sent).value.endpoint.MetadataOf?
      modifies `metadata
      ensures Numbering() && (failure.Some? ==> Unready(failure.value))
      ensures failure.None? ==> metadata == answer.metadata && metadata != [] && NumericComplete(metadata)
    {
      if answer.state != QueryState.Complete || answer.metadata == [] { return Some(MetadataFailed); }
      metadata := answer.metadata;
      var complete := NumericColumnsComplete(metadata);
      if !complete { return Some(NumericIncomplete); }
      return None;
    }

    /** A completed query without a chunk count: its response is kept as the first chunk. */
    method EnterLegacy(decoded: QueryResponse)
      requires Preparing() && Consistent(decoded, queryId) && Answer() == Some(decoded)
      modifies `metadata, `hasExpectedRows, `expectedRows, `buffered
      ensures Inv(true) && buffered == Some(decoded) && metadata == decoded.metadata
      ensures hasExpectedRows == decoded.hasRowCount && expectedRows == decoded.rowCount
    {
      metadata := decoded.metadata;
      hasExpectedRows := decoded.hasRowCount;
      expectedRows := decoded.rowCount;
      buffered := Some(decoded);
    }

    /** The body of the try block of `PrepareInternal`. */
    method TryPrepare() returns (failure: Option<Error>)
      requires Preparing() && Fresh()
      modifies `tape, `clock, `cap, `totalBytes, `sent, `queryId, `naps,
               `mode, `expectedChunks, `hasExpectedRows, `expectedRows, `metadata, `buffered
      ensures Chunks(sent) == [] && Links(sent) == []
      ensures Failing() && !terminal && !reconciled && !outstanding
      ensures failure.None? ==> Ready()
      ensures PollsBounded() && (failure.Some? ==> Unready(failure.value))
    {
      var decoded := Await();
      if decoded.Err? { return Some(decoded.error); }
      failure := Enter(decoded.value);
    }

    /** Submits the query and waits for it to complete. */
    method Await() returns (r: Result<QueryResponse, Error>)
      requires Preparing() && Fresh()
      modifies `tape, `clock, `cap, `totalBytes, `sent, `queryId, `naps
      ensures Preparing() && PollsBounded()
      ensures r.Ok? ==> Consistent(r.value, queryId) && r.value.state == QueryState.Complete
      ensures r.Ok? ==> DecodedBy(world, StatusReply(sent)) == Some(r.value)
      ensures if r.Ok? then Status(r.value) else Unready(r.error)
    {
      r := Ask(Submit);
      if r.Err? { return; }
      r := PollUntilDone(r.value);
      if r.Ok? { r := CheckComplete(r.value); }
    }

    method CheckComplete(decoded: QueryResponse) returns (r: Result<QueryResponse, Error>)
      requires Status(decoded) && !decoded.state.Running?
      ensures r.Ok? ==> r.value == decoded && decoded.state == QueryState.Complete
      ensures r.Err? ==> Unready(r.error)
    {
      return if decoded.state != QueryState.Complete then Err(NotComplete) else Ok(decoded);
    }

    /** What follows a completed query: one of the two modes, and the column limit. */
    method Enter(decoded: QueryResponse) returns (failure: Option<Error>)
      requires Preparing() && Consistent(decoded, queryId)
      requires decoded.state == QueryState.Complete && DecodedBy(world, StatusReply(sent)) == Some(decoded)
      requires Status(decoded)
      modifies `tape, `clock, `cap, `totalBytes, `sent, `mode, `expectedChunks, `hasExpectedRows, `expectedRows, `metadata, `buffered
      ensures Chunks(sent) == [] && Links(sent) == []
      ensures Failing() && !terminal && !reconciled && !outstanding
      ensures failure.None? ==> Ready()
      ensures PollCount(sent) == PollCount(old(sent)) && (failure.Some? ==> Unready(failure.value))
    {
      if decoded.hasChunkCount || decoded.chunkCount > 0 {
        failure := EnterAndDescribe(decoded);
        failure := CheckDescribed(decoded, failure);
      } else {
        EnterLegacy(decoded);
        failure := CheckColumns();
      }
    }

    /** The column limit, unless the mode could not be entered. */
    method CheckDescribed(decoded: QueryResponse, prior: Option<Error>) returns (failure: Option<Error>)
      requires decoded.state == QueryState.Complete && Chunked(decoded) && DecodedBy(world, StatusReply(sent)) == Some(decoded)
      requires if prior.None? then Numbering() && Totals(decoded) && MetadataKnown() else Unready(prior.value)
      ensures if failure.None? then Ready() else Unready(failure.value)
    {
      if prior.Some? { return prior; }
      failure := CheckColumns();
    }

    /** Numbered mode and its metadata. */
    method EnterAndDescribe(decoded: QueryResponse) returns (failure: Option<Error>)
      requires Preparing() && CameInChunks(world, sent) && Chunked(decoded) && decoded.state == QueryState.Complete
      requires Consistent(decoded, queryId) && Status(decoded)
      modifies `tape, `clock, `cap, `totalBytes, `sent, `mode, `expectedChunks, `hasExpectedRows, `expectedRows, `metadata
      ensures Chunks(sent) == [] && Links(sent) == []
      ensures Failing() && !terminal && !reconciled && !outstanding
      ensures PollCount(sent) == PollCount(old(sent)) && StatusReply(sent) == StatusReply(old(sent))
      ensures if failure.None? then Numbering() && Totals(decoded) && MetadataKnown() else Unready(failure.value)
    {
      failure := EnterNumbered(decoded);
      if failure.None? { failure := DescribeNumbered(decoded); }
    }

    method DescribeNumbered(decoded: QueryResponse) returns (failure: Option<Error>)
      requires Numbering() && Totals(decoded) && Latest(sent).Some? && IsStatus(Latest(sent).value.endpoint)
      modifies `tape, `clock, `cap, `totalBytes, `sent, `metadata
      ensures Chunks(sent) == [] && Links(sent) == []
      ensures Failing() && !terminal && !reconciled && !outstanding
      ensures PollCount(sent) == PollCount(old(sent)) && StatusReply(sent) == StatusReply(old(sent))
      ensures if failure.None? then Numbering() && Totals(decoded) && MetadataKnown() else Unready(failure.value)
    {
      failure := FetchMetadata();
    }

    method CheckColumns() returns (failure: Option<Error>)
      requires Answer().Some? && Answer().value.metadata == metadata
      requires Latest(sent).value.endpoint.MetadataOf? ||
               (Status(Answer().value) && !Chunked(Answer().value) && Answer().value.state == QueryState.Complete)
      ensures failure.None? <==> |metadata| <= options.maxColumns as int
      ensures failure.Some? ==> Unready(failure.value)
    {
      return if |metadata| > options.maxColumns as int then Some(TooManyColumns) else None;
    }

    /** `QueryApiV3Client::PrepareInternal`. */
    method Prepare(sql: string, accessToken: string) returns (failure: Option<Error>)
      requires Valid() && Fresh()
      modifies this
      ensures Chunks(sent) == [] && Links(sent) == []
      ensures Valid() && !reconciled && PollsBounded()
      ensures failure.None? ==> Ready()
      ensures failure.Some? ==> (terminal <==> queryId != "")
      ensures sql == "" || instanceUrl == "" || accessToken == "" || !Origins.TrustedTenantUrl(instanceUrl) ==>
                failure.Some? && sent == Start
      // Errors are true: nothing fails without the cause it names.
      ensures failure.Some? && failure.value != InvalidArgument ==> Unready(failure.value)
      ensures failure == Some(InvalidArgument) ==>
                sql == "" || instanceUrl == "" || accessToken == "" || !Origins.TrustedTenantUrl(instanceUrl)
    {
      failure := CheckArguments(sql, accessToken);
      if failure.None? {
        failure := PrepareOrCancel();
        NeverInvalid(world, options, Facts());
      }
    }

    /** The try block of `PrepareInternal` and its handler. */
    method PrepareOrCancel() returns (failure: Option<Error>)
      requires Valid() && Fresh()
      modifies this
      ensures Chunks(sent) == [] && Links(sent) == []
      ensures Valid() && !reconciled && PollsBounded()
      ensures failure.None? ==> Ready()
      ensures failure.Some? ==> (terminal <==> queryId != "") && Unready(failure.value)
    {
      failure := TryPrepare();
      if failure.Some? { Abandon(); }
    }

    method CheckArguments(sql: string, accessToken: string) returns (failure: Option<Error>)
      requires Valid() && Fresh()
      modifies `tape
      ensures Valid() && Fresh() && PollsBounded()
      ensures tape == Tape(old(tape.looks) + 1, old(tape.calls), old(tape.interrupted) || world.interrupt(old(tape.looks)))
      ensures failure == if tape.interrupted then Some(QueryCancelled)
                         else if sql == "" || instanceUrl == "" || accessToken == "" || !Origins.TrustedTenantUrl(instanceUrl)
                         then Some(InvalidArgument) else None
      ensures tape.interrupted ==> Halting(QueryCancelled)
    {
      TimesMonotone(0, 0, options.pollIntervalMs as int);
      var cancelled := IsCancelled();
      if cancelled { return Some(QueryCancelled); }
      if sql == "" || instanceUrl == "" || accessToken == "" { return Some(InvalidArgument); }
      var trusted := Origins.IsTrustedTenantUrl(instanceUrl);
      return if trusted then None else Some(InvalidArgument);
    }
  }

  method NumericColumnsComplete(metadata: Columns) returns (complete: bool)
    ensures complete <==> NumericComplete(metadata)
  {
    for i := 0 to |metadata|
      invariant forall j :: 0 <= j < i && Text.Lower(metadata[j].typeName) == "numeric" ==>
                  metadata[j].hasPrecision && metadata[j].hasScale
    {
      var column := metadata[i];
      if Text.Lower(column.typeName) == "numeric" && (!column.hasPrecision || !column.hasScale) { return false; }
    }
    return true;
  }

  /** Every poll follows an answer that the query is running. */
  lemma {:induction false} PollsFollow(world: World, most: nat, t: Trace, calls: nat, bytes: nat)
    requires Recorded(world, most, t, calls, bytes)
    ensures var latest := DecodedBy(world, LatestReply(t));
            PollCount(t) + (if latest.Some? && latest.value.state.Running? then 1 else 0) <= RunningHeard(world, t)
  {
    if t.Then? { PollsFollow(world, most, t.before, calls - 1, bytes - Charged(t.last)); }
  }

  lemma {:induction false} PollBound(polls: nat, interval: nat, overall: nat)
    requires interval > 0 && Times(polls, interval) < overall
    ensures polls <= (overall - 1) / interval
  {
    QuotientFits(polls, interval, overall - 1);
  }

  /** The overflow check by division, and the product it makes safe. */
  predicate FitsCells(decoded: uint64, remaining: uint64, width: uint64) {
    !(width != 0 && decoded > remaining / width)
  }

  function Product(decoded: uint64, width: uint64): (product: uint64)
    requires Times(decoded as int, width as int) < TWO_64
    ensures product as int == Times(decoded as int, width as int)
  {
    TimesIsProduct(decoded as int, width as int);
    decoded * width
  }

  lemma CellsFit(decoded: uint64, remaining: uint64, width: uint64)
    ensures FitsCells(decoded, remaining, width) <==> Times(decoded as int, width as int) <= remaining as int
  {
    if width != 0 {
      QuotientFits(decoded as int, width as int, remaining as int);
    } else {
      TimesIsProduct(decoded as int, 0);
    }
  }
}
