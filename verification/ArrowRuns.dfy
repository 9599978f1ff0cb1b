/** Whole scans of an Arrow query, and when they succeed. */
module ArrowRuns {
  import opened Wrappers
  import opened QueryTrace
  import opened QueryWorld
  import opened QuerySession
  import opened QuerySteps
  import opened QueryScript
  import opened QueryServed
  import opened ArrowReader
  import opened ArrowScan

  /** The rows of the `k` answers from `first` on, in order. */
  function AnswerRows(f: Format, world: World, first: nat, k: nat): Batch {
    if k == 0 then [] else
    AnswerRows(f, world, first, k - 1)
      + if world.reply(first + k - 1).Some? then RowsOf(f, world.reply(first + k - 1).value) else []
  }

  lemma {:induction false} AnswersGrow(f: Format, world: World, first: nat, i: nat, k: nat)
    requires i <= k
    ensures |AnswerRows(f, world, first, i)| <= |AnswerRows(f, world, first, k)|
    decreases k
  {
    if i < k { AnswersGrow(f, world, first, i, k - 1); }
  }

  predicate Matches(world: World, n: nat, e: Exchange) { e.reply == world.reply(n) }

  /** The content of chunk requests that met these answers. */
  lemma {:induction false} ContentIsAnswers(f: Format, world: World, first: nat, chunks: seq<Exchange>)
    requires forall i :: 0 <= i < |chunks| ==> Matches(world, first + i, chunks[i])
    ensures Content(f, chunks) == AnswerRows(f, world, first, |chunks|)
  {
    if chunks != [] {
      var k := |chunks| - 1;
      ContentIsAnswers(f, world, first, chunks[..k]);
      assert Matches(world, first + k, chunks[k]);
    }
  }

  /** An answer that brings a chunk the scan can take. */
  predicate Takeable(f: Format, reply: Option<HttpResponse>) {
    reply.Some? && Successful(reply.value) && Acceptable(f, reply.value)
  }

  /** The next answers bring all announced chunks, with all announced rows, within all limits. */
  ghost predicate ServesArrow(f: Format, world: World, o: Options, terms: Terms, first: nat, bytes: nat, naps: nat) {
    var n := terms.chunks as int;
    var rows := |AnswerRows(f, world, first, n)|;
    && Replied(world, o, first, n, bytes, naps)
    && (forall i :: first <= i < first + n ==> Takeable(f, world.reply(i)))
    && rows <= o.maxRows as int && Times(rows, |terms.metadata|) <= o.maxCells as int
    && (terms.hasRows ==> terms.rows as int == rows)
  }

  /** Where an Arrow session stands after some chunks, and what an error can be blamed on. */
  predicate StandsArrow(f: Format, world: World, most: nat, terms: Terms, x: Facts, calls: nat, bytes: nat) {
    && x.hasRows == terms.hasRows && x.expectedRows == terms.rows && x.fetched <= terms.chunks
    && x.rows as int == |AnswerRows(f, world, calls, x.fetched as int)|
    && (x.atEnd ==> x.fetched == terms.chunks)
    && (x.due ==> && x.fetched < terms.chunks && x.latest.Some? && x.latest.value.reply == world.reply(calls + x.fetched as int)
                  && x.latest.value.budget as int >= most - bytes - BytesFrom(world, calls, x.fetched as int))
  }

  lemma RowsLeft(f: Format, world: World, o: Options, terms: Terms, k: nat, calls: nat, bytes: nat, naps: nat)
    requires ServesArrow(f, world, o, terms, calls, bytes, naps) && k < terms.chunks as int
    ensures var here, more := |AnswerRows(f, world, calls, k)|, |RowsOf(f, world.reply(calls + k).value)|;
            && here + more <= o.maxRows as int && Times(here, |terms.metadata|) + Times(more, |terms.metadata|) <= o.maxCells as int
            && (terms.hasRows ==> here + more <= terms.rows as int)
  {
    assert Takeable(f, world.reply(calls + k));
    MoreAnswers(f, world, calls, k, terms.chunks as int);
    FitsTimes(|AnswerRows(f, world, calls, k)|, |RowsOf(f, world.reply(calls + k).value)|,
              |AnswerRows(f, world, calls, terms.chunks as int)|, |terms.metadata|);
  }

  lemma MoreAnswers(f: Format, world: World, first: nat, k: nat, n: nat)
    requires k < n && world.reply(first + k).Some?
    ensures |AnswerRows(f, world, first, k)| + |RowsOf(f, world.reply(first + k).value)| <= |AnswerRows(f, world, first, n)|
  {
    OneMoreAnswer(f, world, first, k);
    AnswersGrow(f, world, first, k + 1, n);
  }

  lemma OneMoreAnswer(f: Format, world: World, first: nat, k: nat)
    requires world.reply(first + k).Some?
    ensures |AnswerRows(f, world, first, k + 1)| == |AnswerRows(f, world, first, k)| + |RowsOf(f, world.reply(first + k).value)|
  {
    assert first + (k + 1) - 1 == first + k;
  }

  lemma FitsTimes(here: nat, more: nat, all: nat, width: nat)
    requires here + more <= all
    ensures Times(here, width) + Times(more, width) <= Times(all, width)
  {
    TimesAdds(here, more, width);
    TimesMonotone(here + more, all, width);
  }

  lemma NotOffended(f: Format, world: World, o: Options, terms: Terms, x: Facts, calls: nat, bytes: nat, naps: nat, e: Error)
    requires ServesArrow(f, world, o, terms, calls, bytes, naps) && StandsArrow(f, world, o.maxTotalBytes as int, terms, x, calls, bytes)
    requires !x.interrupted && !x.late
    ensures !StopsArrow(world, x, e)
  {
    if x.due {
      assert Takeable(f, world.reply(calls + x.fetched as int));
      DueAnswered(f, world, x, calls, o.maxTotalBytes as int - bytes, terms.chunks as int, e);
    }
  }

  lemma DueAnswered(f: Format, world: World, x: Facts, calls: nat, left: int, n: nat, e: Error)
    requires !x.interrupted && !x.late && x.fetched as int < n && Takeable(f, world.reply(calls + x.fetched as int))
    requires x.latest.Some? && x.latest.value.reply == world.reply(calls + x.fetched as int)
    requires x.latest.value.budget as int >= left - BytesFrom(world, calls, x.fetched as int) && BytesFrom(world, calls, n) <= left
    ensures !Obstructed(x, e) && !Refused(world, x.latest.value, e)
  {
    var k := x.fetched as int;
    BytesGrow(world, calls, k + 1, n);
    assert BytesFrom(world, calls, k + 1) == BytesFrom(world, calls, k) + |world.reply(calls + k).value.body|;
  }

  // ---------------------------------------------------------------- the session of a scan

  lemma {:induction false} ContentMet(f: Format, world: World, chunks: seq<Exchange>, n: nat, first: nat)
    requires n <= |chunks| && forall i :: 0 <= i < |chunks| ==> chunks[i].reply == world.reply(first + i)
    ensures Content(f, chunks[..n]) == AnswerRows(f, world, first, n)
  {
    forall i | 0 <= i < n ensures Matches(world, first + i, chunks[..n][i]) {
      assert chunks[..n][i] == chunks[i];
    }
    ContentIsAnswers(f, world, first, chunks[..n]);
  }

  /** Since `start` the scan has asked for nothing but chunks. */
  ghost predicate Scanning(source: ArrowScanSource, start: Trace, calls: nat, bytes: nat)
    reads source, source.session
  {
    Onward(start, source.session.sent) && Begun(source.session.world, source.session.options, start, calls, bytes)
  }

  lemma ScanRows(source: ArrowScanSource, start: Trace, calls: nat, bytes: nat)
    requires source.Valid() && Scanning(source, start, calls, bytes)
    ensures source.session.rows as int == |AnswerRows(source.format, source.session.world, calls, source.session.fetched as int)|
  {
    var s := source.session;
    SessionMeets(s, start, calls, bytes);
    ContentMet(source.format, s.world, Chunks(s.sent), s.fetched as int, calls);
  }

  lemma ScanFacts(s: Session)
    requires CursorReady(s)
    ensures s.Facts().atEnd ==> s.fetched == s.expectedChunks
    ensures s.cells as int == Times(s.rows as int, |s.metadata|) && (s.outstanding ==> s.Facts().due)
  {}

  lemma ScanStands(source: ArrowScanSource, start: Trace, calls: nat, bytes: nat)
    requires source.Valid() && Scanning(source, start, calls, bytes)
    ensures var s := source.session;
            StandsArrow(source.format, s.world, s.options.maxTotalBytes as int, s.Terms(), s.Facts(), calls, bytes)
  {
    SessionStands(source.session, start, calls, bytes);
    ScanRows(source, start, calls, bytes);
    ScanFacts(source.session);
  }

  lemma NeverOffended(source: ArrowScanSource, start: Trace, calls: nat, bytes: nat, e: Error)
    requires source.Valid() && Scanning(source, start, calls, bytes) && Served(source, calls, bytes)
    ensures !source.session.Unoffered(e)
  {
    var s := source.session;
    ScanStands(source, start, calls, bytes);
    StillQuiet(s);
    NotOffended(source.format, s.world, s.options, s.Terms(), s.Facts(), calls, bytes, s.naps, e);
  }

  ghost predicate Served(source: ArrowScanSource, calls: nat, bytes: nat)
    reads source, source.session
  {
    var s := source.session;
    ServesArrow(source.format, s.world, s.options, s.Terms(), calls, bytes, s.naps)
  }

  lemma NeverOvercharges(s: Session, f: Format, calls: nat, bytes: nat, e: Error)
    requires ServesArrow(f, s.world, s.options, s.Terms(), calls, bytes, s.naps) && s.fetched < s.expectedChunks
    requires s.rows as int == |AnswerRows(f, s.world, calls, s.fetched as int)| && s.cells as int == Times(s.rows as int, |s.metadata|)
    requires var reply := s.world.reply(calls + s.fetched as int); reply.Some? && Acceptable(f, reply.value)
    ensures !s.Overcharges(|RowsOf(f, s.world.reply(calls + s.fetched as int).value)| as uint64, e)
  {
    RowsLeft(f, s.world, s.options, s.Terms(), s.fetched as int, calls, bytes, s.naps);
  }

  /** The response offered last is acceptable, and its rows fit. */
  ghost predicate Fits(s: Session, f: Format, e: Error)
    reads s
  {
    var latest := LatestReply(s.sent);
    latest.Some? && Acceptable(f, latest.value) && !s.Overcharges(|RowsOf(f, latest.value)| as uint64, e)
  }

  lemma OfferedFits(s: Session, f: Format, calls: nat, bytes: nat, e: Error)
    requires ServesArrow(f, s.world, s.options, s.Terms(), calls, bytes, s.naps)
    requires StandsArrow(f, s.world, s.options.maxTotalBytes as int, s.Terms(), s.Facts(), calls, bytes)
    requires s.Facts().due && s.cells as int == Times(s.rows as int, |s.metadata|)
    ensures Fits(s, f, e)
  {
    assert Takeable(f, s.world.reply(calls + s.fetched as int));
    NeverOvercharges(s, f, calls, bytes, e);
  }

  lemma NotExcused(source: ArrowScanSource, e: Error)
    requires !source.session.Unoffered(e) && (source.session.outstanding ==> Fits(source.session, source.format, e))
    ensures !source.Excused(e)
  {}

  /** Against a server that brings all the chunks no call of the scan fails. */
  lemma NeverExcused(source: ArrowScanSource, start: Trace, calls: nat, bytes: nat, e: Error)
    requires source.Valid() && Scanning(source, start, calls, bytes) && Served(source, calls, bytes)
    ensures !source.Excused(e)
  {
    NeverOffended(source, start, calls, bytes, e);
    ScanFacts(source.session);
    ScanStands(source, start, calls, bytes);
    if source.session.outstanding { OfferedFits(source.session, source.format, calls, bytes, e); }
    NotExcused(source, e);
  }

  /** What is emitted are the rows of these answers, in order. */
  predicate Emits(f: Format, world: World, first: nat, n: nat, rows: seq<Row>) {
    |rows| == |AnswerRows(f, world, first, n)| && ConvertsTo(AnswerRows(f, world, first, n), 0, rows)
  }

  lemma AllEmitted(source: ArrowScanSource, start: Trace, calls: nat, bytes: nat)
    requires source.Valid() && source.Finished() && Scanning(source, start, calls, bytes)
    ensures Emits(source.format, source.session.world, calls, source.session.expectedChunks as int, source.emitted)
  {
    var s := source.session;
    var chunks := Chunks(s.sent);
    SessionMeets(s, start, calls, bytes);
    ContentMet(source.format, s.world, chunks, |chunks|, calls);
    assert chunks[..|chunks|] == chunks;
  }

  // ---------------------------------------------------------------- whole scans

  /** A scan that is still to begin, and whose next answers bring all the chunks. */
  ghost predicate Promised(source: ArrowScanSource)
    reads source, source.session
  {
    var s := source.session;
    && s.mode.NumberedV3? && !s.terminal && Chunks(s.sent) == []
    && ServesArrow(source.format, s.world, s.options, s.Terms(), s.tape.calls, s.totalBytes as int, s.naps)
  }

  /** The promise under which a scan began. */
  datatype Beginning = Beginning(start: Trace, calls: nat, bytes: nat, terms: Terms, naps: nat)

  ghost predicate Kept(source: ArrowScanSource, begun: Option<Beginning>)
    reads source, source.session
  {
    begun.Some? ==>
      var s, o := source.session, begun.value;
      && Scanning(source, o.start, o.calls, o.bytes) && o.terms.mode.NumberedV3?
      && ServesArrow(source.format, s.world, s.options, o.terms, o.calls, o.bytes, o.naps) && Expects(s, o.terms, o.naps)
  }

  ghost predicate Expects(s: Session, terms: Terms, naps: nat)
    reads s
  {
    ExpectsRows(s, terms) && s.metadata == terms.metadata && s.naps == naps
  }

  ghost predicate ExpectsRows(s: Session, terms: Terms)
    reads s
  {
    s.hasExpectedRows == terms.hasRows && s.expectedRows == terms.rows && s.expectedChunks == terms.chunks
  }

  /** The loop of a whole scan: it ends, because every vector counts against the row limit, and
      what it collects is all the rows of all the chunks in order. */
  method Gather(source: ArrowScanSource, ghost begun: Option<Beginning>) returns (r: Result<seq<Row>, Error>)
    requires source.Valid() && source.emitted == [] && Kept(source, begun)
    modifies source, source.reader, source.session
    ensures source.Valid() && Kept(source, begun)
    ensures r.Ok? ==> source.emitted == r.value && source.Finished()
    ensures r.Err? ==> source.Failed() && (!old(source.Failed()) ==> source.Excused(r.error))
  {
    var rows: seq<Row> := [];
    while true
      invariant source.Valid() && source.emitted == rows && (!old(source.Failed()) ==> !source.Failed())
      invariant Kept(source, begun)
      invariant source.reader == null || source.reader == old(source.reader) || fresh(source.reader)
      decreases source.session.options.maxRows as int - |rows|
    {
      var more := NextFrom(source, rows, begun);
      if more.Err? { return Err(more.error); }
      if more.value.None? { return Ok(rows); }
      rows := more.value.value;
    }
  }

  /** One turn of that loop: the rows so far and the next vector, or None at the end. */
  method NextFrom(source: ArrowScanSource, rows: seq<Row>, ghost begun: Option<Beginning>) returns (r: Result<Option<seq<Row>>, Error>)
    requires source.Valid() && source.emitted == rows && Kept(source, begun)
    modifies source, source.reader, source.session
    ensures source.Valid() && Kept(source, begun)
    ensures source.reader == null || source.reader == old(source.reader) || fresh(source.reader)
    ensures r.Ok? && r.value.Some? ==>
              && source.emitted == r.value.value && |rows| < |r.value.value| <= source.session.options.maxRows as int
              && !source.Failed()
    ensures r == Ok(None) ==> source.emitted == rows && source.Finished()
    ensures r.Err? ==> source.Failed() && (!old(source.Failed()) ==> source.Excused(r.error))
  {
    var next := NextKept(source, begun);
    if next.Err? { return Err(next.error); }
    if next.value == [] { return Ok(None); }
    EmittedWithinLimit(source);
    return Ok(Some(rows + next.value));
  }

  /** The call, under the promise. */
  method NextKept(source: ArrowScanSource, ghost begun: Option<Beginning>) returns (r: Result<seq<Row>, Error>)
    requires source.Valid() && Kept(source, begun)
    modifies source, source.reader, source.session`tape, source.session`clock, source.session`cap, source.session`totalBytes,
             source.session`sent, source.session`rows, source.session`cells, source.session`fetched, source.session`nextIndex,
             source.session`outstanding, source.session`reconciled, source.session`terminal
    ensures source.Valid() && (source.reader == null || source.reader == old(source.reader) || fresh(source.reader))
    ensures Kept(source, begun)
    ensures r.Ok? ==> source.emitted == old(source.emitted) + r.value
    ensures r == Ok([]) ==> source.Finished()
    ensures r.Err? ==> source.emitted == old(source.emitted) && source.Failed() && (!old(source.Failed()) ==> source.Excused(r.error))
    ensures r.Ok? && r.value != [] ==> !source.Failed()
  {
    ghost var before := source.session.sent;
    r := NextSame(source, if begun.Some? then begun.value.terms else source.session.Terms(),
                  if begun.Some? then begun.value.naps else source.session.naps);
    if begun.Some? { OnwardTransitive(begun.value.start, before, source.session.sent); }
  }

  /** The call changes nothing of what is expected. */
  method NextSame(source: ArrowScanSource, ghost terms: Terms, ghost naps: nat) returns (r: Result<seq<Row>, Error>)
    requires source.Valid() && Expects(source.session, terms, naps)
    modifies source, source.reader, source.session`tape, source.session`clock, source.session`cap, source.session`totalBytes,
             source.session`sent, source.session`rows, source.session`cells, source.session`fetched, source.session`nextIndex,
             source.session`outstanding, source.session`reconciled, source.session`terminal
    ensures Expects(source.session, terms, naps)
    ensures source.Valid() && (source.reader == null || source.reader == old(source.reader) || fresh(source.reader))
    ensures Onward(old(source.session.sent), source.session.sent)
    ensures r.Ok? ==> source.emitted == old(source.emitted) + r.value
    ensures r == Ok([]) ==> source.Finished()
    ensures r.Err? ==> source.emitted == old(source.emitted) && source.Failed() && (!old(source.Failed()) ==> source.Excused(r.error))
    ensures r.Ok? && r.value != [] ==> !source.Failed()
  {
    r := NextSameRows(source, terms);
  }

  method NextSameRows(source: ArrowScanSource, ghost terms: Terms) returns (r: Result<seq<Row>, Error>)
    requires source.Valid() && ExpectsRows(source.session, terms)
    modifies source, source.reader, source.session`tape, source.session`clock, source.session`cap, source.session`totalBytes,
             source.session`sent, source.session`rows, source.session`cells, source.session`fetched, source.session`nextIndex,
             source.session`outstanding, source.session`reconciled, source.session`terminal
    ensures ExpectsRows(source.session, terms)
    ensures source.Valid() && (source.reader == null || source.reader == old(source.reader) || fresh(source.reader))
    ensures Onward(old(source.session.sent), source.session.sent)
    ensures r.Ok? ==> source.emitted == old(source.emitted) + r.value
    ensures r == Ok([]) ==> source.Finished()
    ensures r.Err? ==> source.emitted == old(source.emitted) && source.Failed() && (!old(source.Failed()) ==> source.Excused(r.error))
    ensures r.Ok? && r.value != [] ==> !source.Failed()
  {
    r := source.Next();
  }

  /** A whole scan. */
  method ScanAll(source: ArrowScanSource) returns (r: Result<seq<Row>, Error>)
    requires source.Valid() && source.emitted == []
    modifies source, source.reader, source.session
    ensures source.Valid()
    ensures r.Ok? ==> source.emitted == r.value && source.Finished()
    ensures r.Err? ==> source.Failed() && (!old(source.Failed()) ==> source.Excused(r.error))
    // A scan whose next answers bring all the chunks emits all their rows.
    ensures old(Promised(source)) ==>
              r.Ok? && Emits(source.format, source.session.world, old(source.session.tape.calls), source.session.expectedChunks as int, r.value)
  {
    ghost var begun := BeginningOf(source);
    r := Gather(source, begun);
    Outcome(source, begun, r);
  }

  ghost function BeginningOf(source: ArrowScanSource): Option<Beginning>
    reads source, source.session
  {
    var s := source.session;
    if Promised(source) then Some(Beginning(s.sent, s.tape.calls, s.totalBytes as int, s.Terms(), s.naps)) else None
  }

  lemma Outcome(source: ArrowScanSource, begun: Option<Beginning>, r: Result<seq<Row>, Error>)
    requires source.Valid() && Kept(source, begun)
    requires if r.Ok? then source.emitted == r.value && source.Finished() else begun.Some? ==> source.Excused(r.error)
    ensures begun.Some? ==>
              r.Ok? && Emits(source.format, source.session.world, begun.value.calls, source.session.expectedChunks as int, r.value)
  {
    if begun.Some? {
      var o := begun.value;
      assert source.session.Terms() == o.terms;
      if r.Ok? { AllEmitted(source, o.start, o.calls, o.bytes); } else { NeverExcused(source, o.start, o.calls, o.bytes, r.error); }
    }
  }
}
