/** `ArrowScanSource` of src/data360_extension.cpp: every response is decoded once to be
    validated and counted, charged against the budgets, and only then decoded again and emitted. */
module ArrowScan {
  import opened Wrappers
  import opened QueryTrace
  import opened QueryWorld
  import opened QuerySession
  import opened ArrowReader

  /** What the decoding library makes of a content type and a body; None if the media type is
      not Arrow's or the schema is not the expected one. */
  type Decoder = (string, Bytes) -> Option<Stream>

  datatype Format = Format(decoder: Decoder, types: seq<string>, capacity: Capacity)

  const MAX_BODY: nat := 67108864

  /** The stream a reader opens on a response, if it opens one at all. */
  function StreamOf(f: Format, response: HttpResponse): Option<Stream> {
    if response.contentType == "" || |response.body| == 0 || |response.body| > MAX_BODY then None
    else
      var stream := f.decoder(response.contentType, response.body);
      if stream.Some? && stream.value.types == f.types then stream else None
  }

  function RowsOf(f: Format, response: HttpResponse): Batch {
    var stream := StreamOf(f, response);
    if stream.Some? then Flatten(stream.value.batches) else []
  }

  /** The whole response decodes, has the bound types, and every row of it converts. */
  predicate Acceptable(f: Format, response: HttpResponse) {
    var stream := StreamOf(f, response);
    && stream.Some? && stream.value.sound
    && var rows := RowsOf(f, response); Convertible(rows, 0, |rows|) && |rows| < TWO_64
  }

  /** The rows of all these responses, in order. */
  function Content(f: Format, chunks: seq<Exchange>): Batch {
    if chunks == [] then []
    else
      var last := chunks[|chunks| - 1].reply;
      Content(f, chunks[..|chunks| - 1]) + if last.Some? then RowsOf(f, last.value) else []
  }

  predicate AllAcceptable(f: Format, chunks: seq<Exchange>) {
    forall i :: 0 <= i < |chunks| ==> chunks[i].reply.Some? && Acceptable(f, chunks[i].reply.value)
  }

  lemma PrefixKept(t: Trace, u: Trace, n: nat)
    requires Onward(t, u) && n <= |Chunks(t)|
    ensures n <= |Chunks(u)| && Chunks(u)[..n] == Chunks(t)[..n]
  {
    NothingUnsent(t, u);
    assert Chunks(u)[..n] == Chunks(u)[..|Chunks(t)|][..n];
  }

  method OpenReader(f: Format, response: HttpResponse) returns (r: Result<Reader, Error>)
    ensures r.Ok? <==> StreamOf(f, response).Some?
    ensures r.Ok? ==> && fresh(r.value) && r.value.Valid() && !r.value.eos && r.value.Pending() == RowsOf(f, response)
                      && r.value.sound == StreamOf(f, response).value.sound && r.value.capacity == f.capacity
  {
    if response.contentType == "" { return Err(InvalidArrow); }
    if |response.body| == 0 || |response.body| > MAX_BODY { return Err(InvalidArrow); }
    var stream := f.decoder(response.contentType, response.body);
    if stream.None? { return Err(InvalidArrow); }
    if stream.value.types != f.types { return Err(SchemaChanged); }
    var reader := new Reader(stream.value, f.capacity);
    return Ok(reader);
  }

  /** The first pass: counts the rows, keeping none. */
  method Validate(f: Format, response: HttpResponse) returns (r: Result<uint64, Error>)
    ensures r.Ok? <==> Acceptable(f, response)
    ensures r.Ok? ==> r.value as int == |RowsOf(f, response)|
  {
    var validator := OpenReader(f, response);
    if validator.Err? { return Err(validator.error); }
    var reader := validator.value;
    ghost var all := reader.Pending();
    var validated: uint64 := 0;
    while true
      invariant reader.Valid() && fresh(reader)
      invariant validated as int <= |all| && reader.Pending() == all[validated..] && Convertible(all, 0, validated as int)
      decreases |reader.Pending()|
    {
      ghost var before := reader.Pending();
      var discarded := reader.Next();
      if discarded.Err? {
        assert !Acceptable(f, response) by { Suffix(all, validated as int, Min(reader.capacity, |before|)); }
        return Err(discarded.error);
      }
      if discarded.value == [] { break; }
      HenceConvertible(before, 0, discarded.value);
      Suffix(all, validated as int, |discarded.value|);
      if validated as int > TWO_64 - 1 - |discarded.value| { return Err(ResponseLimit); }
      validated := validated + |discarded.value| as uint64;
    }
    return Ok(validated);
  }

  lemma Suffix(all: Batch, done: nat, count: nat)
    requires done + count <= |all|
    ensures Convertible(all[done..], 0, count) <==> Convertible(all, done, count)
  {
    assert forall i :: done <= i < done + count ==> all[i] == all[done..][i - done];
  }

  /** `emitted` is a prefix of what these responses contain, `pending` is the rest. */
  ghost predicate Accounted(f: Format, chunks: seq<Exchange>, emitted: seq<Row>, pending: Batch) {
    && AllAcceptable(f, chunks)
    && ConvertsTo(Content(f, chunks), 0, emitted) && Content(f, chunks)[|emitted|..] == pending
  }

  /** Charging the last chunk requested. */
  lemma AccountedNext(f: Format, t: Trace, response: HttpResponse, emitted: seq<Row>)
    requires t.Then? && t.last.endpoint.Chunk? && t.last.reply == Some(response) && Acceptable(f, response)
    requires Accounted(f, Chunks(t)[..|Chunks(t.before)|], emitted, [])
    ensures var n := |Chunks(t.before)|;
            && n + 1 == |Chunks(t)| && Accounted(f, Chunks(t)[..n + 1], emitted, RowsOf(f, response))
            && |Content(f, Chunks(t)[..n + 1])| == |Content(f, Chunks(t)[..n])| + |RowsOf(f, response)|
  {
    var n := |Chunks(t.before)|;
    assert Chunks(t)[..n] == Chunks(t.before) && Chunks(t)[..n + 1] == Chunks(t.before) + [t.last];
    AccountedMore(f, Chunks(t.before), t.last, response, emitted);
  }

  lemma AccountedMore(f: Format, chunks: seq<Exchange>, last: Exchange, response: HttpResponse, emitted: seq<Row>)
    requires last.reply == Some(response) && Acceptable(f, response) && Accounted(f, chunks, emitted, [])
    ensures Accounted(f, chunks + [last], emitted, RowsOf(f, response))
    ensures |Content(f, chunks + [last])| == |Content(f, chunks)| + |RowsOf(f, response)|
  {
    var more := chunks + [last];
    assert more[..|more| - 1] == chunks;
    assert Content(f, more) == Content(f, chunks) + RowsOf(f, response);
  }

  lemma AccountedEmit(f: Format, chunks: seq<Exchange>, emitted: seq<Row>, pending: Batch, rows: seq<Row>)
    requires Accounted(f, chunks, emitted, pending) && ConvertsTo(pending, 0, rows)
    ensures Accounted(f, chunks, emitted + rows, pending[|rows|..])
  {
    var content := Content(f, chunks);
    ConvertsAppend(content, 0, emitted, pending, 0, rows);
    assert content[|emitted + rows|..] == pending[|rows|..];
  }

  /** The books after `fetched` chunks with `rows` rows have been charged. */
  ghost predicate Balanced(f: Format, t: Trace, fetched: nat, rows: nat, emitted: seq<Row>, pending: Batch) {
    && fetched <= |Chunks(t)| && Accounted(f, Chunks(t)[..fetched], emitted, pending)
    && rows == |Content(f, Chunks(t)[..fetched])|
  }

  lemma BalancedEmit(f: Format, t: Trace, fetched: nat, rows: nat, emitted: seq<Row>, pending: Batch, vector: seq<Row>)
    requires Balanced(f, t, fetched, rows, emitted, pending) && ConvertsTo(pending, 0, vector)
    ensures Balanced(f, t, fetched, rows, emitted + vector, pending[|vector|..])
  {
    AccountedEmit(f, Chunks(t)[..fetched], emitted, pending, vector);
  }

  lemma BalancedLonger(f: Format, t: Trace, u: Trace, fetched: nat, rows: nat, emitted: seq<Row>, pending: Batch)
    requires Balanced(f, t, fetched, rows, emitted, pending) && Onward(t, u)
    ensures Balanced(f, u, fetched, rows, emitted, pending)
  {
    PrefixKept(t, u, fetched);
  }

  lemma BalancedNext(f: Format, t: Trace, fetched: nat, rows: nat, emitted: seq<Row>, response: HttpResponse)
    requires t.Then? && t.last.endpoint.Chunk? && t.last.reply == Some(response) && Acceptable(f, response)
    requires fetched == |Chunks(t.before)| && Balanced(f, t, fetched, rows, emitted, [])
    ensures Balanced(f, t, fetched + 1, rows + |RowsOf(f, response)|, emitted, RowsOf(f, response))
  {
    AccountedNext(f, t, response, emitted);
  }

  // ---------------------------------------------------------------- the cursor

  ghost predicate CursorReady(s: Session)
    reads s
  {
    && s.Valid() && s.mode.NumberedV3? && !s.spoiled && s.fetched == s.nextIndex
    && (!s.terminal || s.reconciled ==> s.Announced())
  }

  /** An answer has not been reported, or the query was abandoned. */
  predicate CursorFailed(s: Session)
    reads s
  {
    s.outstanding || (s.terminal && !s.reconciled)
  }

  /** What the scan relies on between calls. */
  function Books(s: Session): (Terms, uint64, uint64, uint64)
    reads s
  {
    (s.Terms(), s.fetched, s.rows, s.nextIndex)
  }

  /** `NextArrowChunk`, and what of its contract the scan needs. */
  method Ask(s: Session) returns (r: Result<Option<HttpResponse>, Error>)
    requires CursorReady(s)
    modifies s`tape, s`clock, s`cap, s`totalBytes, s`sent, s`outstanding, s`reconciled, s`terminal
    ensures CursorReady(s) && Books(s) == old(Books(s)) && Onward(old(s.sent), s.sent)
    ensures r == Ok(None) ==> s.reconciled && !s.outstanding && s.terminal
    ensures r.Ok? && r.value.Some? ==> s.outstanding && !s.terminal && s.Offered(r.value.value, old(s.sent))
    ensures r.Err? ==> CursorFailed(s) && (!old(CursorFailed(s)) ==> s.Unoffered(r.error))
    ensures old(CursorFailed(s)) ==> r.Err? && s.sent == old(s.sent)
  {
    r := s.NextArrowChunk();
  }

  /** `ReportArrowChunk`, likewise. */
  method Charge(s: Session, rows: uint64) returns (failure: Option<Error>)
    requires CursorReady(s) && s.outstanding && !s.terminal
    modifies s`tape, s`clock, s`sent, s`rows, s`cells, s`fetched, s`nextIndex, s`outstanding, s`terminal
    ensures CursorReady(s) && s.Terms() == old(s.Terms()) && Onward(old(s.sent), s.sent)
    ensures failure.None? ==> && !s.outstanding && !s.terminal && s.sent == old(s.sent)
                              && s.fetched as int == old(s.fetched) as int + 1 && s.rows as int == old(s.rows) as int + rows as int
                              && s.nextIndex as int == old(s.nextIndex) as int + 1
    ensures failure.Some? ==> && s.outstanding && Books(s) == old(Books(s)) && Latest(s.sent) == old(Latest(s.sent))
                              && (s.Halting(failure.value) || s.Overcharges(rows, failure.value))
  {
    failure := s.ReportArrowChunk(rows);
  }

  class ArrowScanSource {
    const session: Session
    const format: Format
    var reader: Reader?
    ghost var emitted: seq<Row>

    ghost predicate ReaderReady()
      reads this, reader
    {
      reader != null ==>
        && reader.Valid() && reader.sound && reader.capacity == format.capacity
        && Convertible(reader.Pending(), 0, |reader.Pending()|)
    }

    ghost function Pending(): Batch
      requires ReaderReady()
      reads this, reader
    {
      if reader == null then [] else reader.Pending()
    }

    ghost predicate Valid()
      reads this, session, reader
    {
      && CursorReady(session) && ReaderReady()
      && (reader != null ==> !session.outstanding && !session.terminal)
      && Balanced(format, session.sent, session.fetched as int, session.rows as int, emitted, Pending())
    }

    /** A call failed: a response was not reported, or the query was abandoned. */
    ghost predicate Failed()
      reads this, session
    {
      reader == null && CursorFailed(session)
    }

    /** The error is true: the next response was not to be had, or it is not acceptable, or its
        rows do not fit. */
    ghost predicate Excused(e: Error)
      reads this, session
    {
      var latest := LatestReply(session.sent);
      || session.Unoffered(e)
      || (session.outstanding && latest.Some? &&
          (Acceptable(format, latest.value) ==> session.Overcharges(|RowsOf(format, latest.value)| as uint64, e)))
    }

    /** Everything the query returns has been emitted: all the numbered chunks, in order. */
    ghost predicate Finished()
      reads this, session
    {
      var chunks := Chunks(session.sent);
      && session.reconciled && session.Announced() && |chunks| == session.expectedChunks as int
      && (forall i :: 0 <= i < |chunks| ==> chunks[i].endpoint == Chunk(session.queryId, i))
      && Accounted(format, chunks, emitted, [])
      && (session.hasExpectedRows ==> |emitted| == session.expectedRows as int)
    }

    constructor (session: Session, format: Format)
      requires session.Ready() && session.mode.NumberedV3?
      ensures Valid() && this.session == session && this.format == format && emitted == []
    {
      this.session, this.format, reader, emitted := session, format, null, [];
    }

    /** Emits from the open reader, which cannot fail, and closes it when it is empty. */
    method Emit() returns (rows: seq<Row>)
      requires Valid() && reader != null
      modifies this, reader
      ensures Valid() && emitted == old(emitted) + rows
      ensures |rows| == Min(format.capacity, old(|Pending()|)) && ConvertsTo(old(Pending()), 0, rows)
      ensures reader == if rows == [] then null else old(reader)
    {
      var r := reader.Next();
      rows := r.value;
      BalancedEmit(format, session.sent, session.fetched as int, session.rows as int, emitted, old(Pending()), rows);
      emitted := emitted + rows;
      if rows == [] { reader := null; }
    }

    /** How many chunks are still to be reported. */
    ghost function Left(): nat
      reads session
    {
      if session.nextIndex < session.expectedChunks then (session.expectedChunks - session.nextIndex) as int else 0
    }

    /** The chunk just fetched, still to be reported. */
    ghost predicate Offered(response: HttpResponse)
      reads this, session
    {
      && session.outstanding && !session.terminal && session.sent.Then?
      && session.sent.last.reply == Some(response) && session.sent.last.endpoint.Chunk?
      && session.fetched as int == |Chunks(session.sent.before)| && session.nextIndex < session.expectedChunks
    }

    /** Asks for the next chunk; None at the end of the data. */
    method Fetch() returns (r: Result<Option<HttpResponse>, Error>)
      requires Valid() && reader == null
      modifies session`tape, session`clock, session`cap, session`totalBytes, session`sent, session`rows,
               session`cells, session`fetched, session`nextIndex, session`outstanding, session`reconciled, session`terminal
      ensures Valid() && Left() == old(Left()) && Onward(old(session.sent), session.sent)
      ensures r == Ok(None) ==> Finished()
      ensures r.Ok? && r.value.Some? ==> Offered(r.value.value)
      ensures r.Err? ==> Failed() && (!old(Failed()) ==> Excused(r.error))
      ensures old(Failed()) ==> r.Err? && session.sent == old(session.sent)
    {
      ghost var before := session.sent;
      r := Ask(session);
      BalancedLonger(format, before, session.sent, session.fetched as int, session.rows as int, emitted, []);
      if r == Ok(None) { AtTheEnd(); }
    }

    /** Charges a validated response and makes its reader the current one. */
    method Report(response: HttpResponse, validated: uint64, validatedReader: Reader) returns (failure: Option<Error>)
      requires Valid() && reader == null && Offered(response)
      requires Acceptable(format, response) && validated as int == |RowsOf(format, response)|
      requires validatedReader.Valid() && validatedReader.sound && validatedReader.capacity == format.capacity
      requires validatedReader.Pending() == RowsOf(format, response)
      modifies this`reader, session`tape, session`clock, session`cap, session`totalBytes, session`sent, session`rows,
               session`cells, session`fetched, session`nextIndex, session`outstanding, session`reconciled, session`terminal
      ensures Valid() && Onward(old(session.sent), session.sent)
      ensures failure.None? ==> reader == validatedReader && Left() < old(Left())
      ensures failure.Some? ==> Failed() && Excused(failure.value)
    {
      ghost var before := session.sent;
      ghost var fetched, rows := session.fetched as int, session.rows as int;
      failure := Charge(session, validated);
      if failure.Some? {
        BalancedLonger(format, before, session.sent, fetched, rows, emitted, []);
      } else {
        BalancedNext(format, before, fetched, rows, emitted, response);
        reader := validatedReader;
      }
    }

    /** Fetches, validates and charges the next response, and opens the reader that emits it.
        Ok(false) at the end of the data. */
    method Load() returns (r: Result<bool, Error>)
      requires Valid() && reader == null
      modifies this`reader, session`tape, session`clock, session`cap, session`totalBytes, session`sent, session`rows,
               session`cells, session`fetched, session`nextIndex, session`outstanding, session`reconciled, session`terminal
      ensures Valid() && Onward(old(session.sent), session.sent)
      ensures r == Ok(true) ==> reader != null && fresh(reader) && Left() < old(Left())
      ensures r == Ok(false) ==> reader == null && Finished()
      ensures r.Err? ==> Failed() && (!old(Failed()) ==> Excused(r.error))
      ensures old(Failed()) ==> r.Err? && session.sent == old(session.sent)
    {
      var next := Fetch();
      if next.Err? { return Err(next.error); }
      if next.value.None? { return Ok(false); }
      var response := next.value.value;
      var validated := Validate(format, response);
      if validated.Err? { return Err(validated.error); }
      var second := OpenReader(format, response);
      ghost var asked := session.sent;
      var failure := Report(response, validated.value, second.value);
      OnwardTransitive(old(session.sent), asked, session.sent);
      return if failure.Some? then Err(failure.value) else Ok(true);
    }

    lemma AtTheEnd()
      requires Valid() && reader == null && session.reconciled
      ensures Finished()
    {
      var chunks := Chunks(session.sent);
      forall i | 0 <= i < |chunks| ensures chunks[i].endpoint == Chunk(session.queryId, i) {
        ChunksInOrder(session.sent, session.queryId, i);
      }
      assert chunks[..session.fetched] == chunks;
    }

    /** The next vector, or `[]` for the end. No row is emitted before its whole response has
        been decoded, matched against the bound types and charged; the end is reported only
        after every row of every chunk. A failure emits nothing and is final. */
    method Next() returns (r: Result<seq<Row>, Error>)
      requires Valid()
      modifies this, reader, session`tape, session`clock, session`cap, session`totalBytes, session`sent, session`rows,
               session`cells, session`fetched, session`nextIndex, session`outstanding, session`reconciled, session`terminal
      ensures Onward(old(session.sent), session.sent)
      ensures Valid() && (reader == null || reader == old(reader) || fresh(reader))
      ensures r.Ok? ==> emitted == old(emitted) + r.value && |r.value| <= format.capacity
      ensures r == Ok([]) ==> Finished()
      ensures r.Err? ==> emitted == old(emitted) && Failed() && (!old(Failed()) ==> Excused(r.error))
      ensures r.Ok? && r.value != [] ==> !Failed()
      ensures old(Failed()) ==> r.Err? && session.sent == old(session.sent)
    {
      while true
        invariant Valid() && emitted == old(emitted) && (reader == null || reader == old(reader) || fresh(reader))
        invariant Onward(old(session.sent), session.sent)
        invariant if old(Failed()) then Failed() && session.sent == old(session.sent) else !Failed()
        decreases Left()
      {
        ghost var before := session.sent;
        var turn := Turn();
        OnwardTransitive(old(session.sent), before, session.sent);
        if turn.Err? { return Err(turn.error); }
        if turn.value.Some? { return Ok(turn.value.value); }
      }
    }

    method EmitIfOpen() returns (rows: seq<Row>)
      requires Valid()
      modifies this, reader
      ensures Valid() && emitted == old(emitted) + rows && |rows| <= format.capacity
      ensures reader == if rows == [] then null else old(reader)
      ensures old(reader) == null ==> rows == []
      ensures rows != [] ==> reader != null && !Failed()
    {
      if reader == null { return []; }
      rows := Emit();
    }

    /** One turn of the loop of `Next`: None to go round again, with one chunk less to come. */
    method Turn() returns (r: Result<Option<seq<Row>>, Error>)
      requires Valid()
      modifies this, reader, session`tape, session`clock, session`cap, session`totalBytes, session`sent, session`rows,
               session`cells, session`fetched, session`nextIndex, session`outstanding, session`reconciled, session`terminal
      ensures Onward(old(session.sent), session.sent)
      ensures Valid() && (reader == null || reader == old(reader) || fresh(reader))
      ensures r.Ok? && r.value.Some? ==> emitted == old(emitted) + r.value.value && |r.value.value| <= format.capacity
      ensures r == Ok(Some([])) ==> Finished()
      ensures r.Ok? && r != Ok(Some([])) ==> !Failed()
      ensures r == Ok(None) ==> emitted == old(emitted) && Left() < old(Left())
      ensures r.Err? ==> emitted == old(emitted) && Failed() && (!old(Failed()) ==> Excused(r.error))
      ensures old(Failed()) ==> r.Err? && session.sent == old(session.sent)
    {
      var rows := EmitIfOpen();
      if rows != [] { return Ok(Some(rows)); }
      r := LoadTurn();
    }

    /** A turn with no open reader. */
    method LoadTurn() returns (r: Result<Option<seq<Row>>, Error>)
      requires Valid() && reader == null
      modifies this`reader, session`tape, session`clock, session`cap, session`totalBytes, session`sent, session`rows,
               session`cells, session`fetched, session`nextIndex, session`outstanding, session`reconciled, session`terminal
      ensures Onward(old(session.sent), session.sent)
      ensures Valid() && (reader == null || fresh(reader)) && (r.Ok? && r.value.Some? ==> r == Ok(Some([])))
      ensures r == Ok(Some([])) ==> Finished()
      ensures r == Ok(None) ==> !Failed() && Left() < old(Left())
      ensures r.Err? ==> Failed() && (!old(Failed()) ==> Excused(r.error))
      ensures old(Failed()) ==> r.Err? && session.sent == old(session.sent)
    {
      var loaded := Load();
      return if loaded.Err? then Err(loaded.error) else Ok(if loaded.value then None else Some([]));
    }
  }

  lemma EmittedWithinLimit(source: ArrowScanSource)
    requires source.Valid()
    ensures |source.emitted| <= source.session.options.maxRows as int
  {}
}
