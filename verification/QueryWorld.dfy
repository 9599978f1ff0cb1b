/** What a query session cannot control, how a run of it is recorded against that, and what each
    of its errors says. */
module QueryWorld {
  import opened Wrappers
  import opened ChunkPath
  import opened QueryTrace
  import Text

  /** Everything the session cannot control: the answer to the n-th request, the decoder, and
      for the n-th look at the runtime how far the clock moved and whether the user interrupted.
      The clock never goes back and an interrupt stays. */
  datatype World = World(
    reply: nat -> Option<HttpResponse>,
    decode: HttpResponse -> Decoded,
    delay: nat -> nat,
    interrupt: nat -> bool)

  /** How far into the world a run is: looks at the runtime and requests made, and whether an
      interrupt has been seen. */
  datatype Tape = Tape(looks: nat, calls: nat, interrupted: bool) {
    function Look(): Tape { this.(looks := looks + 1) }
  }

  datatype Mode = NumberedV3 | DirectLegacy

  /** What a session expects. */
  datatype Terms = Expecting(mode: Mode, metadata: Columns, hasRows: bool, rows: uint64, chunks: uint64)

  function DecodedBy(world: World, reply: Option<HttpResponse>): Option<QueryResponse> {
    if reply.Some? && world.decode(reply.value).Decoded? then Some(world.decode(reply.value).response) else None
  }

  // ---------------------------------------------------------------- the record of a run

  /** The user interrupted at one of the first `n` looks. */
  predicate Interrupts(world: World, n: nat) { n > 0 && (world.interrupt(n - 1) || Interrupts(world, n - 1)) }

  /** How far the first `n` looks moved the clock; the first of them starts it. */
  function Delays(world: World, n: nat): nat { if n <= 1 then 0 else Delays(world, n - 1) + world.delay(n - 1) }

  /** An interrupt was seen only if there was one, and the clock went no further than the delays
      and the sleeps made it. */
  predicate TimedIn(world: World, tape: Tape, clock: nat, startedAt: nat, slept: nat) {
    && tape.looks > 0 && (tape.interrupted ==> Interrupts(world, tape.looks))
    && startedAt <= clock <= startedAt + Delays(world, tape.looks) + slept
  }

  /** What the answer to a request adds to the bytes received. */
  function Charged(e: Exchange): nat {
    if !e.endpoint.Cleanup? && e.reply.Some? && |e.reply.value.body| <= e.budget as int then |e.reply.value.body| else 0
  }

  /** The query completed, and its result comes in numbered chunks. */
  predicate CameInChunks(world: World, t: Trace) {
    var status := DecodedBy(world, StatusReply(t));
    status.Some? && status.value.state == QueryState.Complete && Chunked(status.value)
  }

  /** The answers so far call for the request: a query is submitted once, polled only while it
      is running, asked for metadata and numbered chunks only when it completed with them, and
      a link is followed only if the latest answer named it. */
  predicate CalledFor(world: World, before: Trace, endpoint: Endpoint) {
    var latest := DecodedBy(world, LatestReply(before));
    match endpoint
    case Submit => before == Start
    case Poll(_) => latest.Some? && latest.value.state.Running?
    case MetadataOf(_) => CameInChunks(world, before) && Latest(before).Some? && IsStatus(Latest(before).value.endpoint)
    case Chunk(_, _) => CameInChunks(world, before)
    case Legacy(path) => latest.Some? && latest.value.chunk.nextUrl == path
    case Cleanup(_) => true
  }

  /** The `calls` requests of `t` were called for and got the world's answers, of `bytes` bytes
      in all, and the budget of each was what the answers before it had left of `most`. */
  predicate Recorded(world: World, most: nat, t: Trace, calls: nat, bytes: nat) {
    match t
    case Start => calls == 0 && bytes == 0
    case Then(before, e) =>
      && calls > 0 && e.reply == world.reply(calls - 1) && Charged(e) <= bytes && CalledFor(world, before, e.endpoint)
      && (!e.endpoint.Cleanup? ==> e.budget as int == most - (bytes - Charged(e)))
      && Recorded(world, most, before, calls - 1, bytes - Charged(e))
  }

  /** The answer as the codec reads it; that to a clean-up is never read. */
  function Heard(world: World, e: Exchange): Option<QueryResponse> {
    if e.endpoint.Cleanup? then None else DecodedBy(world, e.reply)
  }

  /** Some answer said that the query has this id, or linked to a chunk of it. */
  ghost predicate Named(world: World, t: Trace, id: string) {
    && t.Then?
    && (Named(world, t.before, id) || var r := Heard(world, t.last); r.Some? && Names(r.value, id))
  }

  ghost predicate Names(r: QueryResponse, id: string) { r.queryId == id || LinksTo(r.chunk.nextUrl, id) }

  lemma {:induction false} LatestNames(world: World, t: Trace, id: string)
    requires var r := DecodedBy(world, LatestReply(t)); r.Some? && Names(r.value, id)
    ensures Named(world, t, id)
  {
    if t.last.endpoint.Cleanup? { LatestNames(world, t.before, id); }
  }

  /** How many answers said that the query was still running. */
  function RunningHeard(world: World, t: Trace): nat {
    if t.Start? then 0 else
    RunningHeard(world, t.before) + var r := Heard(world, t.last); if r.Some? && r.value.state.Running? then 1 else 0
  }

  /** There was no nap without such an answer. */
  predicate LoggedIn(world: World, most: nat, calls: nat, bytes: nat, naps: nat, t: Trace) {
    && Recorded(world, most, t, calls, bytes)
    && naps <= RunningHeard(world, t)
  }

  // ---------------------------------------------------------------- what is announced

  predicate AnnouncedIn(world: World, t: Trace, terms: Terms) {
    var status, described := DecodedBy(world, StatusReply(t)), DecodedBy(world, MetadataReply(t));
    && status.Some? && Announces(status.value, terms)
    && (terms.mode.NumberedV3? ==> described.Some? && described.value.metadata == terms.metadata)
  }

  predicate Announces(status: QueryResponse, terms: Terms) {
    && status.state == QueryState.Complete && terms.hasRows == status.hasRowCount && terms.rows == status.rowCount
    && (terms.mode.NumberedV3? <==> status.hasChunkCount || status.chunkCount > 0)
    && (terms.mode.NumberedV3? ==> terms.chunks == status.chunkCount)
    && (terms.mode.DirectLegacy? ==> terms.metadata == status.metadata)
  }

  /** `t` is `before` and one more request, answered by `chunk`. */
  predicate Answers(world: World, before: Trace, t: Trace, endpoint: Endpoint, chunk: ResultChunk) {
    t.Then? && t.before == before && t.last.endpoint == endpoint && Carried(world, t.last, chunk)
  }

  /** The answer to `e` decodes to a response holding `chunk`. */
  predicate Carried(world: World, e: Exchange, chunk: ResultChunk) {
    && e.reply.Some?
    && var decoded := world.decode(e.reply.value); decoded.Decoded? && decoded.response.chunk == chunk
  }

  predicate NumericComplete(metadata: Columns) {
    forall i :: 0 <= i < |metadata| && Text.Lower(metadata[i].typeName) == "numeric" ==>
      metadata[i].hasPrecision && metadata[i].hasScale
  }

  // ---------------------------------------------------------------- what errors say

  /** The last request but for a clean-up. */
  function Latest(t: Trace): Option<Exchange> {
    if t.Start? then None else if t.last.endpoint.Cleanup? then Latest(t.before) else Some(t.last)
  }

  function LatestReply(t: Trace): Option<HttpResponse> {
    if Latest(t).Some? then Latest(t).value.reply else None
  }

  /** What an error can be blamed on. */
  datatype Facts = Facts(
    interrupted: bool, late: bool, latest: Option<Exchange>,
    queryId: string, metadata: Columns, hasRows: bool, expectedRows: uint64,
    rows: uint64, fetched: uint64, due: bool, atEnd: bool, nextUrl: string, visited: set<string>)

  /** The latest answer, as the codec read it. */
  function LatestAnswer(world: World, f: Facts): Option<QueryResponse> {
    if f.latest.Some? then DecodedBy(world, f.latest.value.reply) else None
  }

  predicate Chunked(r: QueryResponse) { r.hasChunkCount || r.chunkCount > 0 }

  /** The answer names the query wrongly. */
  ghost predicate Misnaming(f: Facts, r: QueryResponse, e: Error) {
    match e
    case InvalidQueryId => r.queryId != "" && !SafeId(r.queryId)
    case IdentityChanged => f.queryId != "" && !Consistent(r, f.queryId)
    case _ => false
  }

  /** An answer to a submission or a poll that cannot be gone on with. */
  ghost predicate UnfitStatus(o: Options, f: Facts, r: QueryResponse, e: Error) {
    match e
    case InvalidAsyncResponse => r.state.Running? && f.queryId == "" && Consistent(r, "")
    case NotComplete => r.state.FailedState?
    case InvalidCompletedResponse => r.state == QueryState.Complete && Chunked(r) && f.queryId == "" && Consistent(r, "")
    case TooManyChunks => r.state == QueryState.Complete && Chunked(r) && r.chunkCount > o.maxChunks
    case MaterializationLimit => r.state == QueryState.Complete && Chunked(r) && r.hasRowCount && r.rowCount > o.maxRows
    case TooManyColumns => r.state == QueryState.Complete && !Chunked(r) && |r.metadata| > o.maxColumns as int
    case _ => false
  }

  /** An answer to a request for metadata that cannot be gone on with. */
  predicate UnfitMetadata(o: Options, r: QueryResponse, e: Error) {
    match e
    case MetadataFailed => r.state != QueryState.Complete || r.metadata == []
    case NumericIncomplete => !NumericComplete(r.metadata)
    case TooManyColumns => |r.metadata| > o.maxColumns as int
    case _ => false
  }

  predicate IsStatus(e: Endpoint) { e.Submit? || e.Poll? }

  ghost predicate Unfitting(o: Options, f: Facts, r: QueryResponse, e: Error) {
    && f.latest.Some?
    && ((IsStatus(f.latest.value.endpoint) && UnfitStatus(o, f, r, e)) ||
        (f.latest.value.endpoint.MetadataOf? && UnfitMetadata(o, r, e)))
  }

  /** An answer whose chunk cannot be taken. */
  predicate Rejectable(o: Options, f: Facts, r: QueryResponse, e: Error) {
    var more := |r.chunk.rows|;
    match e
    case ChunkFailed => r.state != QueryState.Complete
    case SchemaChanged => r.metadata != [] && r.metadata != f.metadata
    case TooManyChunks => f.fetched >= o.maxChunks
    case RowCountMismatch =>
      (r.hasReturnedRows && r.returnedRows as int != more) || (f.hasRows && f.rows as int + more > f.expectedRows as int)
    case MaterializationLimit =>
      f.rows as int + more > o.maxRows as int || Times(f.rows as int + more, |f.metadata|) > o.maxCells as int
    case InvalidRowWidth => !Wide(r.chunk.rows, |f.metadata|)
    case _ => false
  }

  /** An error that any step can end in is true: an interrupt was seen, or the time is up. */
  predicate Halted(f: Facts, e: Error) {
    (e == QueryCancelled && f.interrupted) || (e == QueryTimedOut && f.late)
  }

  /** Likewise for any request: it was not answered, or not within its budget. */
  predicate Obstructed(f: Facts, e: Error) {
    || Halted(f, e)
    || match e
       case TransportFailed => f.latest.Some? && f.latest.value.reply.None?
       case ResponseLimit =>
         f.latest.Some? && f.latest.value.reply.Some? && |f.latest.value.reply.value.body| > f.latest.value.budget as int
       case _ => false
  }

  /** Likewise, if the answer is read: it is not readable, or names the query wrongly. */
  ghost predicate Troubled(world: World, f: Facts, e: Error) {
    || Obstructed(f, e)
    || match e
       case ReauthRequired => f.latest.Some? && f.latest.value.reply.Some? && world.decode(f.latest.value.reply.value).NeedsReauth?
       case DecodingFailed => f.latest.Some? && f.latest.value.reply.Some? && world.decode(f.latest.value.reply.value).Garbled?
       case _ => LatestAnswer(world, f).Some? && Misnaming(f, LatestAnswer(world, f).value, e)
  }

  /** An error of the preparation is true. */
  ghost predicate Hinders(world: World, o: Options, f: Facts, e: Error) {
    Troubled(world, f, e) || (LatestAnswer(world, f).Some? && Unfitting(o, f, LatestAnswer(world, f).value, e))
  }

  lemma NeverInvalid(world: World, o: Options, f: Facts)
    ensures !Hinders(world, o, f, InvalidArgument)
  {}

  /** An error of the delivery is true: the answer that is due is not to be had or at fault, or
      the link is. */
  ghost predicate Stops(world: World, o: Options, f: Facts, e: Error) {
    || Halted(f, e)
    || (f.due && (Troubled(world, f, e) || (LatestAnswer(world, f).Some? && Rejectable(o, f, LatestAnswer(world, f).value, e))))
    || (e == UnsafeChunkUrl && f.nextUrl != "" && (!SafePath(f.nextUrl) || f.nextUrl in f.visited))
  }

  /** An error of the Arrow delivery is true. */
  ghost predicate StopsArrow(world: World, f: Facts, e: Error) {
    || Halted(f, e)
    || (f.due && (Obstructed(f, e) || (f.latest.Some? && Refused(world, f.latest.value, e))))
    || (e == RowCountMismatch && f.atEnd && f.hasRows && f.rows != f.expectedRows)
  }

  /** A request for a chunk was answered, but not with one. */
  predicate Refused(world: World, x: Exchange, e: Error) {
    && x.endpoint.Chunk? && x.reply.Some? && !Successful(x.reply.value)
    && e == if world.decode(x.reply.value).NeedsReauth? then ReauthRequired else ChunkFailed
  }

  predicate Successful(response: HttpResponse) { 200 <= response.status < 300 }
}
