/** A query against a server that brings the result in numbered chunks succeeds. */
module QueryServed {
  import opened Wrappers
  import opened ChunkPath
  import opened QueryTrace
  import opened QueryWorld
  import opened QueryDirect
  import opened QueryScript
  import opened QuerySession
  import opened QuerySteps

  predicate Bears(world: World, n: nat, chunk: ResultChunk) {
    AnswerAt(world, n).Some? && AnswerAt(world, n).value.chunk == chunk
  }

  /** The chunks handed out are those of the answers met. */
  lemma {:induction false} RowsOfChunks(world: World, first: nat, chunks: seq<ResultChunk>)
    requires forall i :: 0 <= i < |chunks| ==> Bears(world, first + i, chunks[i])
    ensures Total(chunks) == RowsFrom(world, first, |chunks|) && chunks == ChunksFrom(world, first, |chunks|)
  {
    if chunks != [] {
      var k := |chunks| - 1;
      RowsOfChunks(world, first, chunks[..k]);
      assert Bears(world, first + k, chunks[k]);
    }
  }

  lemma ChunksAreAnswers(world: World, at: Stage, got: seq<ResultChunk>, t: Trace, first: nat)
    requires Delivering(world, at, got) && at.terms.mode.NumberedV3? && Onward(at.sent, t)
    requires forall i :: 0 <= i < |Chunks(t)| ==> Chunks(t)[i].reply == world.reply(first + i)
    ensures at.rows == RowsFrom(world, first, at.fetched) && got == ChunksFrom(world, first, |got|)
  {
    NothingUnsent(at.sent, t);
    forall i | 0 <= i < |got| ensures Bears(world, first + i, got[i]) {
      assert Chunks(at.sent)[i] == Chunks(t)[i];
      assert Carried(world, Chunks(at.sent)[i], got[i]);
    }
    RowsOfChunks(world, first, got);
  }

  /** Where the delivery starts: nothing but the preparation has been asked, with `calls` requests
      and `bytes` bytes. */
  ghost predicate Begun(world: World, o: Options, start: Trace, calls: nat, bytes: nat) {
    Recorded(world, o.maxTotalBytes as int, start, calls, bytes) && Chunks(start) == [] && NoCleanup(start)
  }

  /** The chunk requests of a session meet the answers in order. */
  lemma SessionMeets(s: Session, start: Trace, calls: nat, bytes: nat)
    requires s.Valid() && s.mode.NumberedV3? && Begun(s.world, s.options, start, calls, bytes) && Onward(start, s.sent)
    ensures Chunks(Asked(s.sent)) == Chunks(s.sent) && Latest(Asked(s.sent)) == Latest(s.sent)
    ensures var k := |Chunks(s.sent)|;
            && (forall i :: 0 <= i < k ==> Chunks(s.sent)[i].reply == s.world.reply(calls + i))
            && (k > 0 ==> && Latest(s.sent) == Some(Chunks(s.sent)[k - 1])
                          && Chunks(s.sent)[k - 1].budget as int
                             >= s.options.maxTotalBytes as int - bytes - BytesFrom(s.world, calls, k - 1))
  {
    var t, cleaned := Asked(s.sent), CleanedUp(s.sent, s.queryId);
    ChunksMeet(s.world, s.options.maxTotalBytes as int, start, calls, bytes, t,
               if cleaned then s.tape.calls - 1 else s.tape.calls, s.totalBytes as int);
  }

  /** No interrupt was seen, and the time is not up. */
  lemma StillQuiet(s: Session)
    requires s.Valid() && Quiet(s.world, s.options, s.naps)
    ensures !s.Facts().interrupted && !s.Facts().late
  {
    NeverInterrupted(s.world, s.tape.looks);
  }

  /** The stage a numbered session is in, and what an error can be blamed on there. */
  predicate Stands(world: World, most: nat, now: Stage, f: Facts, calls: nat, bytes: nat) {
    && f.queryId == now.id && SafeId(now.id) && f.nextUrl == "" && f.metadata == now.terms.metadata
    && f.hasRows == now.terms.hasRows && f.expectedRows == now.terms.rows && f.rows as int == now.rows
    && f.fetched as int == now.fetched <= now.terms.chunks as int
    && (forall i :: 0 <= i < |Chunks(now.sent)| ==> Chunks(now.sent)[i].reply == world.reply(calls + i))
    && (f.due ==> && now.fetched < now.terms.chunks as int
                  && f.latest.Some? && f.latest.value.reply == world.reply(calls + now.fetched)
                  && f.latest.value.budget as int >= most - bytes - BytesFrom(world, calls, now.fetched))
  }

  lemma SessionStands(s: Session, start: Trace, calls: nat, bytes: nat)
    requires s.Valid() && s.mode.NumberedV3? && Begun(s.world, s.options, start, calls, bytes) && Onward(start, s.sent)
    ensures Stands(s.world, s.options.maxTotalBytes as int, StageOf(s), s.Facts(), calls, bytes)
  {
    SessionMeets(s, start, calls, bytes);
  }

  /** A stage at which the next step would have to stop is not reached. */
  lemma NowhereStuck(world: World, o: Options, at: Stage, got: seq<ResultChunk>, now: Stage, f: Facts,
                     calls: nat, bytes: nat, naps: nat, e: Error)
    requires Delivering(world, at, got) && at.terms.mode.NumberedV3? && Stuck(at, now) && !f.interrupted && !f.late
    requires Serves(world, o, now.terms, now.id, calls, bytes, naps) && Stands(world, o.maxTotalBytes as int, now, f, calls, bytes)
    ensures if at.Ended() then !at.Short() else !Stops(world, o, f, e)
  {
    ChunksAreAnswers(world, at, got, now.sent, calls);
    if !at.Ended() { NotStopped(world, o, f, now.terms, now.id, calls, bytes, naps, e); }
  }

  /** Against such a server the delivery never stops. */
  lemma NeverStops(s: Session, at: Stage, got: seq<ResultChunk>, start: Trace, calls: nat, bytes: nat, e: Error)
    requires s.Valid() && s.mode.NumberedV3? && Delivering(s.world, at, got) && Onward(start, at.sent)
    requires Begun(s.world, s.options, start, calls, bytes)
    requires Serves(s.world, s.options, s.Terms(), s.queryId, calls, bytes, s.naps)
    ensures !StoppedAt(s, at, e)
  {
    if StoppedAt(s, at, e) {
      OnwardTransitive(start, at.sent, s.sent);
      SessionStands(s, start, calls, bytes);
      StillQuiet(s);
      NowhereStuck(s.world, s.options, at, got, StageOf(s), s.Facts(), calls, bytes, s.naps, e);
    }
  }

  /** A session prepared for numbered chunks, of which none has been asked for, and whose next
      answers bring them all. */
  ghost predicate ServedFrom(s: Session)
    reads s
  {
    && s.mode.NumberedV3? && Chunks(s.sent) == []
    && Serves(s.world, s.options, s.Terms(), s.queryId, s.tape.calls, s.totalBytes as int, s.naps)
  }

  /** Where a delivery starts, and what it has cost so far. */
  datatype Outset = Outset(from: Stage, calls: nat, bytes: nat, naps: nat) {
    ghost predicate Promising(world: World, o: Options) {
      && from.terms.mode.NumberedV3? && SafeId(from.id) && Begun(world, o, from.sent, calls, bytes)
      && Serves(world, o, from.terms, from.id, calls, bytes, naps)
    }
  }

  ghost function OutsetOf(s: Session): Outset
    reads s
  {
    Outset(StageOf(s), s.tape.calls, s.totalBytes as int, s.naps)
  }

  lemma BegunFrom(s: Session)
    requires s.Valid() && !s.terminal && ServedFrom(s)
    ensures OutsetOf(s).Promising(s.world, s.options)
  {}

  /** What was delivered are all these answers. */
  lemma AllDelivered(s: Session, got: seq<ResultChunk>, start: Trace, calls: nat, bytes: nat)
    requires s.Valid() && s.mode.NumberedV3? && s.reconciled && Progress(s, got) && Onward(start, s.sent)
    requires Begun(s.world, s.options, start, calls, bytes)
    ensures got == ChunksFrom(s.world, calls, s.expectedChunks as int)
  {
    DoneIsComplete(s, got);
    SessionMeets(s, start, calls, bytes);
    ChunksAreAnswers(s.world, StageOf(s), got, s.sent, calls);
  }

  // ---------------------------------------------------------------- the preparation

  /** Against a server that completes the query, in chunks and in time, nothing hinders the
      preparation. */
  lemma NeverHindered(s: Session, polls: nat, e: Error)
    requires s.Valid() && Chunks(s.sent) == [] && Links(s.sent) == [] && Completes(s.world, s.options, polls)
    ensures !s.Unready(e) && s.naps <= polls && (s.queryId == "" || s.queryId == GivenId(s.world))
    ensures !s.terminal ==> s.totalBytes as int <= BytesFrom(s.world, 0, s.tape.calls) && HeardBy(s.world, polls, s.sent, s.tape.calls)
  {
    PreparesWell(s.world, s.options, polls, s.sent, s.Facts(), s.tape, s.clock, s.startedAt, s.totalBytes as int, s.naps, e);
  }

  lemma WithLess(world: World, o: Options, terms: Terms, id: string, first: nat, bytes: nat, fewer: nat, naps: nat, less: nat)
    requires Serves(world, o, terms, id, first, bytes, naps) && fewer <= bytes && less <= naps
    ensures Serves(world, o, terms, id, first, fewer, less)
  {
    TimesMonotone(less, naps, o.pollIntervalMs as int);
  }

  /** A completed session has heard all that the preparation asks for. */
  lemma HeardAll(world: World, o: Options, polls: nat, t: Trace, calls: nat, terms: Terms)
    requires Completes(world, o, polls) && HeardBy(world, polls, t, calls) && AnnouncedIn(world, t, terms)
    ensures calls == polls + 2 && terms == Expected(AnswerAt(world, polls).value, AnswerAt(world, polls + 1).value)
  {
    if calls <= polls + 1 { NothingAnnounced(world, o, polls, t, calls, terms); }
    assert Reports(o, GivenId(world), AnswerAt(world, polls).value, true);
  }

  lemma NothingAnnounced(world: World, o: Options, polls: nat, t: Trace, calls: nat, terms: Terms)
    requires Completes(world, o, polls) && HeardBy(world, polls, t, calls) && calls <= polls + 1
    ensures !AnnouncedIn(world, t, terms)
  {
    if calls > 0 { assert Reports(o, GivenId(world), AnswerAt(world, calls - 1).value, calls - 1 == polls); }
  }

  lemma ReadyServed(s: Session, polls: nat)
    requires s.Ready() && s.Valid() && Links(s.sent) == [] && Chunks(s.sent) == [] && AnswersInChunks(s.world, s.options, polls)
    ensures ServedFrom(s) && s.tape.calls == polls + 2 && s.expectedChunks == AnswerAt(s.world, polls).value.chunkCount
  {
    NeverHindered(s, polls, WrongUse);
    HeardAll(s.world, s.options, polls, s.sent, s.tape.calls, s.Terms());
    WithLess(s.world, s.options, s.Terms(), GivenId(s.world), polls + 2, BytesFrom(s.world, 0, polls + 2), s.totalBytes as int, polls, s.naps);
  }
}
