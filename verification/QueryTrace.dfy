/** The values of the query client (src/query_api.cpp, src/include/data360/query_api.hpp) and
    what is said about the requests a session has sent. */
module QueryTrace {
  import opened Wrappers
  import opened ChunkPath
  import opened Text

  // Sizes are `size_t` in the program.
  type Bytes = s: string | |s| < 0x1_0000_0000_0000_0000 witness ""
  type Row = r: seq<Option<string>> | |r| < 0x1_0000_0000_0000_0000 witness []
  type Rows = r: seq<Row> | |r| < 0x1_0000_0000_0000_0000 witness []
  type Columns = c: seq<Column> | |c| < 0x1_0000_0000_0000_0000 witness []

  datatype Column = Column(name: string, typeName: string, nullable: bool, hasPrecision: bool, hasScale: bool, precision: nat, scale: nat)

  datatype ResultChunk = ResultChunk(rows: Rows, nextUrl: string)

  datatype QueryState = Running | Complete | FailedState

  datatype QueryResponse = QueryResponse(
    state: QueryState, queryId: string,
    chunkCount: uint64, rowCount: uint64, hasChunkCount: bool, hasRowCount: bool,
    returnedRows: uint64, hasReturnedRows: bool,
    metadata: Columns, chunk: ResultChunk)

  datatype HttpResponse = HttpResponse(status: int, body: Bytes, contentType: string)

  datatype Decoded = Decoded(response: QueryResponse) | NeedsReauth | Garbled

  datatype Error =
    | QueryCancelled | QueryTimedOut | TransportFailed | ResponseLimit | DecodingFailed | ReauthRequired
    | InvalidQueryId | IdentityChanged | ChunkFailed | SchemaChanged | TooManyChunks | RowCountMismatch
    | MaterializationLimit | InvalidRowWidth | ChunkCountMismatch | IncompleteChain | UnsafeChunkUrl
    | InvalidAsyncResponse | NotComplete | InvalidCompletedResponse | MetadataFailed | NumericIncomplete
    | TooManyColumns | InvalidArgument | WrongUse | InvalidArrow | ConversionFailed(column: string)

  datatype RawOptions = RawOptions(
    requestTimeoutMs: uint64, overallTimeoutMs: uint64, pollIntervalMs: uint64, maxChunks: uint64,
    cleanupTimeoutMs: uint64, maxRows: uint64, maxColumns: uint64, maxCells: uint64, maxTotalBytes: uint64)

  /** What the constructor of the client accepts. */
  predicate ValidOptions(o: RawOptions) {
    && o.requestTimeoutMs != 0 && o.overallTimeoutMs != 0 && o.pollIntervalMs != 0
    && o.maxChunks != 0 && 0 < o.cleanupTimeoutMs <= 1000
    && 0 < o.maxRows <= 100000 && o.maxColumns != 0 && o.maxCells != 0
    && o.maxTotalBytes != 0 && o.pollIntervalMs <= o.overallTimeoutMs
  }

  const DEFAULTS := RawOptions(30000, 120000, 250, 1024, 250, 100000, 4096, 10000000, 268435456)

  type Options = o: RawOptions | ValidOptions(o) witness DEFAULTS

  const MAX_RESPONSE: uint64 := 67108864
  const CLEANUP_RESPONSE: uint64 := 65536

  // ---------------------------------------------------------------- requests

  datatype Endpoint =
    | Submit                              // POST   /api/v3/query
    | Poll(id: string)                    // GET    /api/v3/query/{id}
    | MetadataOf(id: string)              // GET    /api/v3/query/{id}/metadata
    | Chunk(id: string, index: nat)       // GET    /api/v3/query/{id}/chunks/{index}
    | Legacy(path: string)                // GET    a path the server named
    | Cleanup(id: string)                 // DELETE /api/v3/query/{id}

  /** A request handed to the transport. `leftMs` is the time left until the deadline at the
      clock read its timeout was computed from, `budget` the bytes it might still receive. */
  datatype Exchange = Exchange(endpoint: Endpoint, timeoutMs: int, leftMs: int, cap: uint64, budget: uint64, reply: Option<HttpResponse>)

  /** All requests so far, the latest outermost. */
  datatype Trace = Start | Then(before: Trace, last: Exchange)

  /** Nothing of `t` is unsent in `u`. */
  predicate Extends(t: Trace, u: Trace) { u == t || (u.Then? && Extends(t, u.before)) }

  lemma {:induction false} ExtendsTransitive(t: Trace, u: Trace, v: Trace)
    requires Extends(t, u) && Extends(u, v)
    ensures Extends(t, v)
    decreases v
  {
    if v != u { ExtendsTransitive(t, u, v.before); }
  }

  /** The answer to the latest submission or poll, and to the latest metadata request. */
  function StatusReply(t: Trace): Option<HttpResponse> {
    if t.Start? then None
    else if t.last.endpoint.Submit? || t.last.endpoint.Poll? then t.last.reply else StatusReply(t.before)
  }

  function MetadataReply(t: Trace): Option<HttpResponse> {
    if t.Start? then None else if t.last.endpoint.MetadataOf? then t.last.reply else MetadataReply(t.before)
  }

  /** Only chunks and links have been asked for since, or the query deleted. */
  predicate Onward(t: Trace, u: Trace) {
    u == t || (u.Then? && (u.last.endpoint.Chunk? || u.last.endpoint.Legacy? || u.last.endpoint.Cleanup?) && Onward(t, u.before))
  }

  lemma {:induction false} OnwardTransitive(t: Trace, u: Trace, v: Trace)
    requires Onward(t, u) && Onward(u, v)
    ensures Onward(t, v)
    decreases v
  {
    if v != u { OnwardTransitive(t, u, v.before); }
  }

  lemma {:induction false} NothingMoreHeard(t: Trace, u: Trace)
    requires Onward(t, u)
    ensures StatusReply(u) == StatusReply(t) && MetadataReply(u) == MetadataReply(t)
    decreases u
  {
    if u != t { NothingMoreHeard(t, u.before); }
  }

  /** Unsigned 64-bit subtraction, which wraps. */
  function Minus64(a: int, b: int): int { (a - b) % TWO_64 }

  /** The timeout of a request with `leftMs` until the deadline, in 64-bit arithmetic. */
  function TimeoutFor(o: Options, leftMs: int): int { Min(o.requestTimeoutMs as int, leftMs % TWO_64) }

  /** The response cap is the budget or 64 MiB, the timeout what the time left makes it. */
  predicate Paced(e: Exchange, o: Options) {
    !e.endpoint.Cleanup? ==> e.cap == Min64(MAX_RESPONSE, e.budget) && e.timeoutMs == TimeoutFor(o, e.leftMs)
  }

  /** Before the deadline the timeout lies in 1..min(configured, left). At the deadline it is
      zero. After it the subtraction has wrapped: unless the deadline was missed by nearly 2^64
      milliseconds, the request goes out with the full configured timeout. */
  lemma TimeoutInRange(o: Options, leftMs: int)
    requires leftMs <= o.overallTimeoutMs as int
    ensures leftMs > 0 ==> 1 <= TimeoutFor(o, leftMs) == Min(o.requestTimeoutMs as int, leftMs)
    ensures leftMs == 0 ==> TimeoutFor(o, leftMs) == 0
    ensures o.requestTimeoutMs as int - TWO_64 <= leftMs < 0 ==> TimeoutFor(o, leftMs) == o.requestTimeoutMs as int
    ensures -TWO_64 <= leftMs < o.requestTimeoutMs as int - TWO_64 ==> TimeoutFor(o, leftMs) == leftMs + TWO_64
  {}

  /** A request that names a query names `id`. */
  ghost predicate Carries(e: Endpoint, id: string) {
    match e
    case Submit => true
    case Poll(i) => SafeId(id) && i == id
    case MetadataOf(i) => SafeId(id) && i == id
    case Chunk(i, _) => SafeId(id) && i == id
    case Legacy(p) => SafeId(id) && LinksTo(p, id)
    case Cleanup(i) => SafeId(id) && i == id
  }

  /** Every request names the query `id`, if it names one, and is capped and timed as it should. */
  ghost predicate Proper(t: Trace, id: string, o: Options) {
    t.Then? ==> Carries(t.last.endpoint, id) && Paced(t.last, o) && Proper(t.before, id, o)
  }

  /** The id in a path the server named. */
  function PathId(path: string): string {
    if StartsWith(path, PREFIX) then QueryIdFromChunkPath(path) else ""
  }

  /** A safe path of the query `id`. */
  ghost predicate LinksTo(path: string, id: string) { SafePath(path) && PathId(path) == id }

  /** If the path is a safe one, it is one of the query `id`. */
  ghost predicate Leads(path: string, id: string) { forall i :: LinksTo(path, i) ==> i == id }

  lemma SafePathId(path: string)
    requires SafePath(path)
    ensures StartsWith(path, PREFIX) && SafeId(PathId(path)) && PathId(path) == QueryIdFromChunkPath(path)
    ensures LinksTo(path, PathId(path))
  {
    var id, number :| SafeId(id) && ChunkNumber(number) && path == Path(id, number);
    IdRecovered(id, number);
  }

  predicate NoCleanup(t: Trace) { t.Then? ==> !t.last.endpoint.Cleanup? && NoCleanup(t.before) }

  /** The one and last DELETE. */
  predicate CleanedUp(t: Trace, id: string) {
    t.Then? && t.last.endpoint == Cleanup(id) && NoCleanup(t.before)
  }

  predicate Disposed(t: Trace, id: string, terminal: bool, reconciled: bool) {
    if terminal && !reconciled then CleanedUp(t, id) else NoCleanup(t)
  }

  /** The chunk requests, in the order they were made. */
  function Chunks(t: Trace): seq<Exchange> {
    match t
    case Start => []
    case Then(before, e) => if e.endpoint.Chunk? then Chunks(before) + [e] else Chunks(before)
  }

  function PollCount(t: Trace): nat {
    if t.Start? then 0 else PollCount(t.before) + if t.last.endpoint.Poll? then 1 else 0
  }

  /** The links followed, in the order they were. */
  function Links(t: Trace): seq<Exchange> {
    match t
    case Start => []
    case Then(before, e) => if e.endpoint.Legacy? then Links(before) + [e] else Links(before)
  }

  /** Chunk 0, 1, 2, ... each asked for once. */
  predicate InOrder(t: Trace, id: string) {
    t.Then? ==> InOrder(t.before, id) && (t.last.endpoint.Chunk? ==> t.last.endpoint == Chunk(id, |Chunks(t.before)|))
  }

  predicate AllAnswered(t: Trace) {
    t.Then? ==> AllAnswered(t.before) && (t.last.endpoint.Chunk? ==> t.last.reply.Some?)
  }

  lemma {:induction false} NoChunksYet(t: Trace, id: string)
    requires Chunks(t) == []
    ensures InOrder(t, id) && AllAnswered(t)
  {
    if t.Then? { NoChunksYet(t.before, id); }
  }

  lemma {:induction false} ChunksInOrder(t: Trace, id: string, i: nat)
    requires InOrder(t, id) && AllAnswered(t) && i < |Chunks(t)|
    ensures Chunks(t)[i].endpoint == Chunk(id, i) && Chunks(t)[i].reply.Some?
  {
    if !(t.last.endpoint.Chunk? && i == |Chunks(t)| - 1) { ChunksInOrder(t.before, id, i); }
  }

  /** Requests already made stay where they are. */
  lemma {:induction false} NothingUnsent(t: Trace, u: Trace)
    requires Onward(t, u)
    ensures |Chunks(t)| <= |Chunks(u)| && Chunks(u)[..|Chunks(t)|] == Chunks(t) && |Links(t)| <= |Links(u)|
    decreases u
  {
    if u != t { NothingUnsent(t, u.before); }
  }

  /** The paths followed so far. */
  function Followed(t: Trace): set<string> {
    if t.Start? then {} else Followed(t.before) + if t.last.endpoint.Legacy? then {t.last.endpoint.path} else {}
  }

  /** No path was followed twice. */
  predicate NoRevisit(t: Trace) {
    t.Then? ==> NoRevisit(t.before) && (t.last.endpoint.Legacy? ==> t.last.endpoint.path !in Followed(t.before))
  }

  /** Distinct paths, counted: as many as there were legacy requests. */
  lemma {:induction false} NoRevisitCounts(t: Trace)
    requires NoRevisit(t)
    ensures |Followed(t)| == |Links(t)|
  {
    if t.Then? { NoRevisitCounts(t.before); }
  }

  /** What a response says about the query agrees with `id`. */
  ghost predicate Consistent(r: QueryResponse, id: string) {
    && (r.queryId != "" ==> r.queryId == id)
    && Leads(r.chunk.nextUrl, id)
  }

  /** The number of rows the response says it returns, if it says one. */
  predicate Declared(r: QueryResponse) { r.hasReturnedRows ==> r.returnedRows as int == |r.chunk.rows| }

  predicate Wide(rows: Rows, width: nat) { forall i :: 0 <= i < |rows| ==> |rows[i]| == width }

  /** Before an id is known only submissions have been sent. */
  lemma {:induction false} Relabel(t: Trace, id: string, o: Options)
    requires Proper(t, "", o)
    ensures Proper(t, id, o)
  {
    if t.Then? { Relabel(t.before, id, o); }
  }

  /** The trace after at most one more request. */
  function Plus(t: Trace, log: Option<Exchange>): Trace { if log.Some? then Then(t, log.value) else t }
}
