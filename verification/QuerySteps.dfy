/** A JSON cursor step by step: where each chunk comes from, and why a step fails. */
module QuerySteps {
  import opened Wrappers
  import opened QueryTrace
  import opened QueryWorld
  import opened QuerySession

  function Total(chunks: seq<ResultChunk>): nat {
    if chunks == [] then 0 else Total(chunks[..|chunks| - 1]) + |chunks[|chunks| - 1].rows|
  }

  /** Chunk i is what the server sent when asked for chunk i. */
  predicate NumberedResult(world: World, t: Trace, id: string, chunks: seq<ResultChunk>) {
    && |Chunks(t)| == |chunks|
    && forall i :: 0 <= i < |chunks| ==> Chunks(t)[i].endpoint == Chunk(id, i) && Carried(world, Chunks(t)[i], chunks[i])
  }

  /** Every chunk but the first is what the server sent at the link of the chunk before it. */
  predicate LinkedResult(world: World, t: Trace, chunks: seq<ResultChunk>) {
    && |Links(t)| == (if chunks == [] then 0 else |chunks| - 1)
    && forall i :: 0 <= i < |Links(t)| ==>
         Links(t)[i].endpoint == Legacy(chunks[i].nextUrl) && Carried(world, Links(t)[i], chunks[i + 1])
  }

  predicate AllWide(chunks: seq<ResultChunk>, width: nat) { forall i :: 0 <= i < |chunks| ==> Wide(chunks[i].rows, width) }

  /** The first chunk of a legacy result is the one in the answer that ended the polling. */
  predicate FirstOf(world: World, t: Trace, chunk: ResultChunk) {
    var status := DecodedBy(world, StatusReply(t));
    status.Some? && status.value.chunk == chunk && Declared(status.value)
  }

  /** Where a cursor stands: the requests, what is expected, the id, the kept response, the link
      to follow, and how many chunks and rows have been handed out. */
  datatype Stage = Stage(sent: Trace, terms: Terms, id: string, kept: Option<QueryResponse>, link: string, fetched: nat, rows: nat) {
    predicate Ended() {
      match terms.mode
      case NumberedV3 => fetched >= terms.chunks as int
      case DirectLegacy => kept.None? && link == ""
    }

    /** The data ended with another number of rows than announced. */
    predicate Short() { Ended() && terms.hasRows && rows != terms.rows as int }
  }

  ghost function StageOf(s: Session): Stage
    reads s
  {
    Stage(s.sent, s.Terms(), s.queryId, s.buffered, s.nextUrl, s.fetched as int, s.rows as int)
  }

  /** Where the chunks handed out so far came from, and where the next one will. */
  predicate Sourced(world: World, at: Stage, chunks: seq<ResultChunk>) {
    match at.terms.mode
    case NumberedV3 => NumberedResult(world, at.sent, at.id, chunks)
    case DirectLegacy =>
      && LinkedResult(world, at.sent, chunks)
      && if chunks == [] then at.kept == DecodedBy(world, StatusReply(at.sent)) && at.kept.Some? && at.link == ""
         else at.kept.None? && FirstOf(world, at.sent, chunks[0]) && at.link == chunks[|chunks| - 1].nextUrl
  }

  /** What has been delivered by the chunks handed out so far. */
  predicate Delivering(world: World, at: Stage, chunks: seq<ResultChunk>) {
    && |chunks| == at.fetched && Total(chunks) == at.rows && AnnouncedIn(world, at.sent, at.terms)
    && AllWide(chunks, |at.terms.metadata|) && Sourced(world, at, chunks)
  }

  ghost predicate Progress(s: Session, chunks: seq<ResultChunk>)
    reads s
  {
    !s.outstanding && !s.spoiled && Delivering(s.world, StageOf(s), chunks)
  }

  lemma Appended(chunks: seq<ResultChunk>, chunk: ResultChunk, width: nat)
    ensures Total(chunks + [chunk]) == Total(chunks) + |chunk.rows|
    ensures AllWide(chunks, width) && Wide(chunk.rows, width) ==> AllWide(chunks + [chunk], width)
  {
    assert (chunks + [chunk])[..|chunks|] == chunks;
  }

  /** The next chunk comes from where the stage says: it is the kept one, or the answer to the
      one request that was due. */
  predicate ComesNext(world: World, at: Stage, now: Stage, chunk: ResultChunk) {
    match at.terms.mode
    case NumberedV3 => Answers(world, at.sent, now.sent, Chunk(at.id, at.fetched), chunk) && now.id == at.id
    case DirectLegacy =>
      && now.kept.None? && now.link == chunk.nextUrl
      && if at.kept.Some? then now.sent == at.sent && chunk == at.kept.value.chunk && Declared(at.kept.value)
         else Answers(world, at.sent, now.sent, Legacy(at.link), chunk)
  }

  /** One chunk further. */
  predicate Moved(world: World, at: Stage, now: Stage, chunk: ResultChunk) {
    && now.terms == at.terms && now.fetched == at.fetched + 1 && now.rows == at.rows + |chunk.rows|
    && Wide(chunk.rows, |at.terms.metadata|) && ComesNext(world, at, now, chunk)
  }

  /** Not one chunk further. */
  predicate Stuck(at: Stage, now: Stage) {
    && now.terms == at.terms && now.fetched == at.fetched && now.rows == at.rows && now.link == at.link
    && Onward(at.sent, now.sent) && (at.id != "" ==> now.id == at.id)
  }

  lemma SourcedMore(world: World, at: Stage, now: Stage, chunks: seq<ResultChunk>, chunk: ResultChunk)
    requires Delivering(world, at, chunks) && Moved(world, at, now, chunk)
    ensures Sourced(world, now, chunks + [chunk]) && AnnouncedIn(world, now.sent, now.terms)
  {}

  lemma DeliveringMore(world: World, at: Stage, now: Stage, chunks: seq<ResultChunk>, chunk: ResultChunk)
    requires Delivering(world, at, chunks) && Moved(world, at, now, chunk)
    ensures Delivering(world, now, chunks + [chunk])
  {
    SourcedMore(world, at, now, chunks, chunk);
    Appended(chunks, chunk, |at.terms.metadata|);
  }

  /** `NextChunk` on an open cursor, and what of its contract the loop needs. */
  method Take(s: Session) returns (r: Result<Option<ResultChunk>, Error>)
    requires s.Valid() && !s.terminal && !s.outstanding && !s.spoiled
    modifies s`tape, s`clock, s`cap, s`totalBytes, s`sent, s`nextIndex, s`visited, s`queryId,
             s`rows, s`cells, s`fetched, s`spoiled, s`nextUrl, s`buffered, s`reconciled, s`terminal
    ensures s.Valid() && (r.Ok? ==> !s.spoiled) && (old(s.queryId) != "" ==> s.queryId == old(s.queryId))
    ensures r.Ok? ==> (r.value.None? <==> old(s.AtEnd()))
    ensures r == Ok(None) ==> s.reconciled && s.terminal && StageOf(s) == old(StageOf(s))
    ensures r.Ok? && r.value.Some? ==> && !s.terminal && s.Delivered(r.value.value, old(s.rows), old(s.fetched))
                                       && s.Obtained(r.value.value, old(s.sent), old(s.NextEndpoint()), old(s.buffered))
                                       && (s.mode.DirectLegacy? ==> s.buffered.None?)
    ensures r.Err? ==> !s.reconciled && Stuck(old(StageOf(s)), StageOf(s))
    ensures r.Err? ==> if old(s.AtEnd()) then r.error == RowCountMismatch && s.hasExpectedRows && s.rows != s.expectedRows
                       else s.Undelivered(r.error)
  {
    r := Call(s);
  }

  /** The clauses of that contract the loop is built on. */
  method Call(s: Session) returns (r: Result<Option<ResultChunk>, Error>)
    requires s.Valid() && !s.terminal && !s.outstanding && !s.spoiled
    modifies s`tape, s`clock, s`cap, s`totalBytes, s`sent, s`nextIndex, s`visited, s`queryId,
             s`rows, s`cells, s`fetched, s`spoiled, s`nextUrl, s`buffered, s`reconciled, s`terminal
    ensures s.Valid() && s.Forward(old(s.sent), old(s.queryId)) && (r.Ok? ==> s.spoiled == old(s.spoiled))
    ensures r == Ok(None) ==> && s.reconciled && s.sent == old(s.sent) && s.rows == old(s.rows) && s.queryId == old(s.queryId)
                              && s.fetched == old(s.fetched) && s.nextUrl == old(s.nextUrl) && s.buffered == old(s.buffered)
    ensures r == Ok(None) <==> old(s.AtEnd()) && (s.hasExpectedRows ==> s.rows == s.expectedRows)
    ensures old(s.AtEnd()) ==> r == Ok(None) || r == Err(RowCountMismatch)
    ensures r.Ok? && r.value.Some? ==> && !s.terminal && s.Delivered(r.value.value, old(s.rows), old(s.fetched))
                                       && s.Obtained(r.value.value, old(s.sent), old(s.NextEndpoint()), old(s.buffered))
                                       && (s.mode.DirectLegacy? ==> s.buffered.None?)
    ensures r.Err? ==> !s.reconciled && s.rows == old(s.rows) && s.fetched == old(s.fetched) && s.nextUrl == old(s.nextUrl)
    ensures r.Err? && !old(s.AtEnd()) ==> s.Undelivered(r.error)
  {
    r := s.NextChunk();
  }

  /** What the next call of an open cursor does, by its stage. */
  lemma ByStage(s: Session)
    requires s.Valid() && !s.terminal && !s.outstanding
    ensures s.AtEnd() <==> StageOf(s).Ended()
    ensures s.mode.NumberedV3? ==> s.queryId != "" && s.buffered.None? && s.NextEndpoint() == Chunk(s.queryId, s.fetched as int)
    ensures s.mode.DirectLegacy? ==> s.NextEndpoint() == Legacy(s.nextUrl)
  {}

  /** A call of `NextChunk` as a step from stage to stage. */
  ghost predicate Stepped(s: Session, at: Stage, r: Result<Option<ResultChunk>, Error>)
    reads s
  {
    match r
    case Ok(None) => at.Ended() && s.reconciled && s.terminal && !s.spoiled && StageOf(s) == at
    case Ok(Some(chunk)) => !at.Ended() && !s.terminal && !s.spoiled && Moved(s.world, at, StageOf(s), chunk)
    case Err(e) => !s.reconciled && StoppedAt(s, at, e)
  }

  /** The step failed: the data ended short of what was announced, or something is in the way. */
  ghost predicate StoppedAt(s: Session, at: Stage, e: Error)
    reads s
  {
    Stuck(at, StageOf(s)) && if at.Ended() then e == RowCountMismatch && at.Short() else s.Undelivered(e)
  }

  /** That step, by where the next chunk comes from. */
  method Pull(s: Session) returns (r: Result<Option<ResultChunk>, Error>)
    requires s.Valid() && !s.terminal && !s.outstanding && !s.spoiled
    modifies s`tape, s`clock, s`cap, s`totalBytes, s`sent, s`nextIndex, s`visited, s`queryId,
             s`rows, s`cells, s`fetched, s`spoiled, s`nextUrl, s`buffered, s`reconciled, s`terminal
    ensures s.Valid() && Stepped(s, old(StageOf(s)), r)
  {
    if s.mode == NumberedV3 {
      r := PullNumbered(s);
    } else if s.buffered.Some? {
      r := PullKept(s);
    } else {
      r := PullLinked(s);
    }
  }

  method PullNumbered(s: Session) returns (r: Result<Option<ResultChunk>, Error>)
    requires s.Valid() && s.mode.NumberedV3? && !s.terminal && !s.outstanding && !s.spoiled
    modifies s`tape, s`clock, s`cap, s`totalBytes, s`sent, s`nextIndex, s`visited, s`queryId,
             s`rows, s`cells, s`fetched, s`spoiled, s`nextUrl, s`buffered, s`reconciled, s`terminal
    ensures s.Valid() && Stepped(s, old(StageOf(s)), r)
  {
    ByStage(s);
    r := Take(s);
  }

  lemma FollowedOn(s: Session, at: Stage, due: Endpoint, rows: uint64, fetched: uint64, chunk: ResultChunk)
    requires s.mode.DirectLegacy? && s.Terms() == at.terms && rows as int == at.rows && fetched as int == at.fetched
    requires s.buffered.None? && at.kept.None? && due == Legacy(at.link)
    requires s.Delivered(chunk, rows, fetched) && s.Obtained(chunk, at.sent, due, at.kept)
    ensures Moved(s.world, at, StageOf(s), chunk)
  {}

  method PullLinked(s: Session) returns (r: Result<Option<ResultChunk>, Error>)
    requires s.Valid() && s.mode.DirectLegacy? && s.buffered.None? && !s.terminal && !s.outstanding && !s.spoiled
    modifies s`tape, s`clock, s`cap, s`totalBytes, s`sent, s`nextIndex, s`visited, s`queryId,
             s`rows, s`cells, s`fetched, s`spoiled, s`nextUrl, s`buffered, s`reconciled, s`terminal
    ensures s.Valid() && Stepped(s, old(StageOf(s)), r)
  {
    ghost var at, due, rows, fetched := StageOf(s), s.NextEndpoint(), s.rows, s.fetched;
    ByStage(s);
    r := Take(s);
    if r.Ok? && r.value.Some? { FollowedOn(s, at, due, rows, fetched, r.value.value); }
  }

  method PullKept(s: Session) returns (r: Result<Option<ResultChunk>, Error>)
    requires s.Valid() && s.mode.DirectLegacy? && s.buffered.Some? && !s.terminal && !s.outstanding && !s.spoiled
    modifies s`tape, s`clock, s`cap, s`totalBytes, s`sent, s`nextIndex, s`visited, s`queryId,
             s`rows, s`cells, s`fetched, s`spoiled, s`nextUrl, s`buffered, s`reconciled, s`terminal
    ensures s.Valid() && Stepped(s, old(StageOf(s)), r)
  {
    ByStage(s);
    r := Take(s);
  }

  /** One turn of the loop of `Execute`. */
  method Collect(s: Session, ghost chunks: seq<ResultChunk>) returns (r: Result<Option<ResultChunk>, Error>)
    requires s.Valid() && !s.terminal && Progress(s, chunks)
    modifies s`tape, s`clock, s`cap, s`totalBytes, s`sent, s`nextIndex, s`visited, s`queryId,
             s`rows, s`cells, s`fetched, s`spoiled, s`nextUrl, s`buffered, s`reconciled, s`terminal
    ensures s.Valid() && Stepped(s, old(StageOf(s)), r)
    ensures match r
            case Ok(None) => Progress(s, chunks)
            case Ok(Some(chunk)) => Progress(s, chunks + [chunk])
            case Err(_) => s.Announced()
  {
    ghost var at := StageOf(s);
    r := Pull(s);
    if r.Ok? && r.value.Some? {
      DeliveringMore(s.world, at, StageOf(s), chunks, r.value.value);
    } else if r.Err? {
      NothingMoreHeard(at.sent, s.sent);
    }
  }

  /** A result is complete, within all limits, and is the server's answers in order. */
  ghost predicate CompleteResult(s: Session, chunks: seq<ResultChunk>)
    reads s
  {
    && s.Announced() && |chunks| <= s.options.maxChunks as int && Total(chunks) <= s.options.maxRows as int
    && AllWide(chunks, |s.metadata|) && Times(Total(chunks), |s.metadata|) <= s.options.maxCells as int
    && (s.hasExpectedRows ==> Total(chunks) == s.expectedRows as int)
    && match s.mode
       case NumberedV3 =>
         |chunks| == s.expectedChunks as int && NumberedResult(s.world, s.sent, s.queryId, chunks)
       case DirectLegacy =>
         chunks != [] && FirstOf(s.world, s.sent, chunks[0]) && LinkedResult(s.world, s.sent, chunks) && chunks[|chunks| - 1].nextUrl == ""
  }

  lemma DoneIsComplete(s: Session, chunks: seq<ResultChunk>)
    requires s.Valid() && s.reconciled && Progress(s, chunks)
    ensures CompleteResult(s, chunks)
  {}

  /** The data ended short of what was announced, or something is in the way of its delivery. */
  ghost predicate Stopped(s: Session, e: Error)
    reads s
  {
    (e == RowCountMismatch && s.hasExpectedRows && s.rows != s.expectedRows) || s.Undelivered(e)
  }
}
