/** `FillDataChunk` of src/scan_runtime.cpp: chunks of any size are cut into vectors. */
module ScanBuffer {
  import opened Wrappers
  import opened QueryTrace
  import opened QueryWorld
  import opened QuerySession
  import opened QuerySteps

  type Values = seq<Option<string>>

  /** The bound columns and the cast of a cell to a type, which may fail. */
  datatype BoundColumns = BoundColumns(types: seq<string>, names: seq<string>, cast: (string, string) -> Option<string>)

  predicate CellFails(c: BoundColumns, row: Row, i: nat)
    requires i < |c.types| <= |row|
  {
    row[i].Some? && c.cast(row[i].value, c.types[i]).None?
  }

  /** Null stays null, everything else is cast to the type of its column. */
  predicate RowCasts(c: BoundColumns, row: Row, values: Values) {
    && |values| == |c.types| <= |row|
    && forall i :: 0 <= i < |values| ==> values[i] == if row[i].None? then None else c.cast(row[i].value, c.types[i])
  }

  /** The error names the column of the first cell of the row that does not cast. */
  predicate FailsFirst(c: BoundColumns, row: Row, e: Error) {
    && |c.types| == |c.names| && |c.types| <= |row|
    && exists i :: 0 <= i < |c.types| && CellFails(c, row, i) && e == ConversionFailed(c.names[i])
                   && forall j :: 0 <= j < i ==> !CellFails(c, row, j)
  }

  /** Fails at the first cell that does not cast, and names its column. */
  method CastRow(c: BoundColumns, row: Row) returns (r: Result<Values, Error>)
    requires |c.types| == |c.names| && |c.types| <= |row|
    ensures r.Ok? ==> RowCasts(c, row, r.value)
    ensures r.Ok? <==> forall i :: 0 <= i < |c.types| ==> !CellFails(c, row, i)
    ensures r.Err? ==> FailsFirst(c, row, r.error)
  {
    var values: Values := [];
    for i := 0 to |c.types|
      invariant |values| == i && forall j :: 0 <= j < i ==> !CellFails(c, row, j)
      invariant forall j :: 0 <= j < i ==> values[j] == if row[j].None? then None else c.cast(row[j].value, c.types[j])
    {
      if row[i].None? {
        values := values + [None];
        continue;
      }
      var value := c.cast(row[i].value, c.types[i]);
      if value.None? {
        assert CellFails(c, row, i);
        return Err(ConversionFailed(c.names[i]));
      }
      values := values + [value];
    }
    return Ok(values);
  }

  /** The rows of these chunks, in order. */
  function Concat(chunks: seq<ResultChunk>): (rows: seq<Row>)
    ensures |rows| == Total(chunks)
  {
    if chunks == [] then [] else Concat(chunks[..|chunks| - 1]) + chunks[|chunks| - 1].rows
  }

  /** One more chunk. */
  predicate Follows(chunks: seq<ResultChunk>, before: seq<ResultChunk>) {
    chunks != [] && chunks[..|chunks| - 1] == before
  }

  /** What was received is what was taken and what is left of the current rows. */
  ghost predicate ConservedIn(chunks: seq<ResultChunk>, taken: seq<Row>, rows: seq<Row>, row: nat, exhausted: bool) {
    row <= |rows| && Concat(chunks) == taken + rows[row..] && (exhausted ==> row == |rows|)
  }

  lemma NothingLeft(chunks: seq<ResultChunk>, taken: seq<Row>, rows: seq<Row>, row: nat, exhausted: bool)
    requires ConservedIn(chunks, taken, rows, row, exhausted) && row == |rows|
    ensures Concat(chunks) == taken && ConservedIn(chunks, taken, [], 0, true) && ConservedIn(chunks, taken, [], 0, false)
  {
    assert rows[row..] == [];
  }

  lemma Received(chunks: seq<ResultChunk>, chunk: ResultChunk, taken: seq<Row>)
    requires Concat(chunks) == taken
    ensures ConservedIn(chunks + [chunk], taken, chunk.rows, 0, false) && Follows(chunks + [chunk], chunks)
  {
    assert (chunks + [chunk])[..|chunks|] == chunks;
    assert chunk.rows[0..] == chunk.rows;
  }

  predicate AllCast(c: BoundColumns, rows: seq<Row>, output: seq<Values>) {
    |rows| == |output| && forall i :: 0 <= i < |rows| ==> RowCasts(c, rows[i], output[i])
  }

  /** `output` is what was taken since, row by row. */
  predicate Since(c: BoundColumns, before: seq<Row>, after: seq<Row>, output: seq<Values>) {
    before <= after && AllCast(c, after[|before|..], output)
  }

  /** The last row taken is the first of those taken since that does not cast. */
  predicate NotCast(c: BoundColumns, before: seq<Row>, after: seq<Row>, output: seq<Values>, e: Error) {
    after != [] && Since(c, before, after[..|after| - 1], output) && FailsFirst(c, after[|after| - 1], e)
  }

  lemma SinceMore(c: BoundColumns, before: seq<Row>, after: seq<Row>, row: Row, output: seq<Values>, values: Values)
    requires Since(c, before, after, output) && RowCasts(c, row, values)
    ensures Since(c, before, after + [row], output + [values])
  {
    assert (after + [row])[|before|..] == after[|before|..] + [row];
  }

  class ScanBuffer {
    const session: Session
    const columns: BoundColumns
    var currentRows: Rows
    var currentRow: nat
    var exhausted: bool
    ghost var chunks: seq<ResultChunk>   // received from the cursor
    ghost var taken: seq<Row>            // removed from the buffer

    constructor (session: Session, columns: BoundColumns)
      requires session.Ready() && |columns.types| == |columns.names| == |session.metadata|
      ensures Valid() && taken == [] && this.session == session && this.columns == columns
    {
      this.session, this.columns := session, columns;
      currentRows, currentRow, exhausted, chunks, taken := [], 0, false, [], [];
    }

    ghost function Pending(): seq<Row>
      requires currentRow <= |currentRows|
      reads this
    {
      currentRows[currentRow..]
    }

    /** What was received is what was taken and what is pending. */
    ghost predicate Conserved()
      reads this
    {
      ConservedIn(chunks, taken, currentRows, currentRow, exhausted)
    }

    /** The cursor has handed out these chunks, and ended if they are all. */
    ghost predicate Supplied()
      reads `chunks, `exhausted, session
    {
      && session.Valid() && Progress(session, chunks) && (session.terminal <==> exhausted) && (exhausted ==> session.reconciled)
      && |columns.types| == |columns.names| == |session.metadata|
    }

    ghost predicate Valid()
      reads this, session
    {
      Supplied() && Conserved() && Wide(currentRows, |columns.types|)
    }

    /** Asks the cursor for more, which happens only when no rows are buffered. */
    method Refill() returns (failure: Option<Error>)
      requires Valid() && !exhausted && Pending() == []
      modifies this`currentRows, this`currentRow, this`exhausted, this`chunks, session
      ensures session.Valid() && (failure.None? ==> Valid())
      ensures failure.None? ==> if exhausted then chunks == old(chunks) else Follows(chunks, old(chunks))
      ensures failure.None? ==> session.fetched as int == old(session.fetched) as int + if exhausted then 0 else 1
      ensures failure.Some? ==> Stopped(session, failure.value)
    {
      Clear();
      var next := Supply();
      if next.Err? { return Some(next.error); }
      if next.value.Some? {
        Received(old(chunks), next.value.value, taken);
        Place(next.value.value.rows);
      }
      return None;
    }

    method Clear()
      requires Supplied() && Conserved() && currentRow == |currentRows|
      modifies this`currentRows, this`currentRow
      ensures Supplied() && currentRows == [] && currentRow == 0 && Concat(chunks) == taken
      ensures ConservedIn(chunks, taken, [], 0, true)
    {
      NothingLeft(chunks, taken, currentRows, currentRow, exhausted);
      currentRows := [];
      currentRow := 0;
    }

    method Place(rows: Rows)
      requires Supplied() && !exhausted && currentRow == 0
      requires Wide(rows, |columns.types|) && ConservedIn(chunks, taken, rows, 0, false)
      modifies this`currentRows
      ensures Valid()
    {
      currentRows := rows;
    }

    /** The call of the cursor: one more chunk, or the end. */
    method Supply() returns (r: Result<Option<ResultChunk>, Error>)
      requires Supplied() && !exhausted
      modifies this`exhausted, this`chunks, session
      ensures session.Valid() && (r.Ok? ==> Supplied() && (exhausted <==> r.value.None?))
      ensures r.Ok? ==> chunks == if exhausted then old(chunks) else old(chunks) + [r.value.value]
      ensures r.Ok? && r.value.Some? ==> Wide(r.value.value.rows, |columns.types|)
      ensures r.Ok? ==> session.fetched as int == old(session.fetched) as int + if exhausted then 0 else 1
      ensures r.Err? ==> Stopped(session, r.error)
    {
      r := Collect(session, chunks);
      if r.Err? { return; }
      if r.value.None? { exhausted := true; } else { chunks := chunks + [r.value.value]; }
    }

    /** Removes the first buffered row. */
    method Take() returns (row: Row)
      requires Valid() && !exhausted && currentRow < |currentRows|
      modifies this`currentRow, this`taken
      ensures Valid() && taken == old(taken) + [row] && |row| == |columns.types|
      ensures |Pending()| == old(|Pending()|) - 1
    {
      row := currentRows[currentRow];
      assert Pending() == [row] + currentRows[currentRow + 1..];
      currentRow := currentRow + 1;
      taken := taken + [row];
    }

    /** The last chunk was needed: those before it held too few rows to fill the vector. */
    ghost predicate TooFew(takenBefore: seq<Row>, capacity: nat)
      requires chunks != []
      reads this
    {
      Total(chunks[..|chunks| - 1]) - |takenBefore| < capacity
    }

    /** At the end all rows of a complete result have passed through the buffer, in order. */
    lemma AllTaken()
      requires Valid() && exhausted
      ensures taken == Concat(chunks) && CompleteResult(session, chunks)
    {
      DoneIsComplete(session, chunks);
    }

    /** Fills a vector with the next rows in order: as many as fit, or all that are left, and
        then the end has been reached. Nothing is fetched while buffered rows would do. It fails
        only if the cursor does, or at the first of these rows that does not cast. */
    method FillDataChunk(capacity: nat) returns (r: Result<seq<Values>, Error>)
      requires Valid()
      modifies this, session
      ensures session.Valid() && (r.Ok? ==> Valid())
      ensures r.Ok? ==> && Since(columns, old(taken), taken, r.value)
                        && |r.value| <= capacity && (|r.value| == capacity || exhausted)
      ensures old(exhausted) ==> r == Ok([])
      ensures old(|Pending()|) >= capacity ==> chunks == old(chunks) && session.sent == old(session.sent)
      ensures r.Ok? && chunks != old(chunks) ==> chunks != [] && TooFew(old(taken), capacity)
      ensures r.Err? ==> Stopped(session, r.error) || FailsWithin(old(taken), capacity, r.error)
      ensures r.Err? && old(|Pending()|) >= capacity ==> FailsWithin(old(taken), capacity, r.error)
    {
      var output: seq<Values> := [];
      ghost var plenty := |Pending()| >= capacity;
      while |output| < capacity && !exhausted
        invariant Valid() && |output| <= capacity
        invariant Since(columns, old(taken), taken, output)
        invariant old(exhausted) ==> exhausted && output == []
        invariant plenty ==> chunks == old(chunks) && session.sent == old(session.sent) && |output| + |Pending()| >= capacity
        invariant chunks != old(chunks) ==> chunks != [] && TooFew(old(taken), capacity)
        decreases Left(), |Pending()|, !exhausted
      {
        var turn := Turn(old(taken), output, capacity);
        if turn.Err? { return Err(turn.error); }
        output := turn.value;
      }
      return Ok(output);
    }

    /** A row that was to go into the vector does not cast, and those before it do. */
    ghost predicate FailsWithin(takenBefore: seq<Row>, capacity: nat, e: Error)
      reads this
    {
      exists output :: |output| < capacity && NotCast(columns, takenBefore, taken, output, e)
    }

    /** How many chunks the limit still allows. */
    ghost function Left(): nat
      reads session
    {
      if session.fetched < session.options.maxChunks then (session.options.maxChunks - session.fetched) as int else 0
    }

    /** One turn of the loop: a row if one is buffered, otherwise a chunk. */
    method Turn(ghost start: seq<Row>, output: seq<Values>, ghost capacity: nat) returns (r: Result<seq<Values>, Error>)
      requires Valid() && !exhausted && |output| < capacity && Since(columns, start, taken, output)
      modifies this, session
      ensures session.Valid() && (r.Ok? ==> Valid() && Since(columns, start, taken, r.value))
      ensures old(Pending()) != [] ==>
                && chunks == old(chunks) && session.sent == old(session.sent) && Left() == old(Left())
                && (r.Ok? ==> |r.value| == |output| + 1 && |Pending()| == old(|Pending()|) - 1 && !exhausted)
      ensures old(Pending()) == [] && r.Ok? ==>
                && r.value == output
                && (exhausted ==> chunks == old(chunks) && Left() == old(Left()) && Pending() == [])
                && (!exhausted ==> chunks != [] && TooFew(start, capacity) && Left() < old(Left()))
      ensures r.Err? ==> if old(Pending()) == [] then Stopped(session, r.error) else NotCast(columns, start, taken, output, r.error)
    {
      if currentRow >= |currentRows| {
        var failure := Refill();
        return if failure.Some? then Err(failure.value) else Ok(output);
      }
      ghost var before := taken;
      var row := Take();
      var values := CastRow(columns, row);
      if values.Err? {
        assert taken[..|taken| - 1] == before;
        return Err(values.error);
      }
      SinceMore(columns, start, before, row, output, values.value);
      return Ok(output + [values.value]);
    }
  }
}
