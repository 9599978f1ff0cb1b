/** Re-batching of one Arrow response: `ArrowIpcChunkReader::Impl` of src/arrow_ipc_chunk_reader.cpp. */
module ArrowReader {
  import opened Wrappers
  import opened QueryTrace

  /** The rows of a record batch; None is a row that does not convert. */
  type Batch = seq<Option<Row>>

  /** What the decoding library makes of a body whose schema it accepts. `sound` says that the
      stream ends in order and uses up the body; otherwise it fails after its last batch. */
  datatype Stream = Stream(types: seq<string>, batches: seq<Batch>, sound: bool)

  type Capacity = n: int | 0 < n witness 2048

  function Flatten(batches: seq<Batch>): Batch {
    if batches == [] then [] else batches[0] + Flatten(batches[1..])
  }

  /** The `count` rows from `from` on all convert. */
  predicate Convertible(batch: Batch, from: nat, count: nat)
    requires from + count <= |batch|
  {
    forall i :: from <= i < from + count ==> batch[i].Some?
  }

  /** They convert to `rows`. */
  predicate ConvertsTo(batch: Batch, from: nat, rows: seq<Row>) {
    from + |rows| <= |batch| && forall i :: 0 <= i < |rows| ==> batch[from + i] == Some(rows[i])
  }

  lemma HenceConvertible(batch: Batch, from: nat, rows: seq<Row>)
    requires ConvertsTo(batch, from, rows)
    ensures Convertible(batch, from, |rows|)
  {
    forall i | from <= i < from + |rows| ensures batch[i].Some? {
      assert batch[from + (i - from)] == Some(rows[i - from]);
    }
  }

  lemma ConvertsAppend(batch: Batch, from: nat, rows: seq<Row>, part: Batch, at: nat, more: seq<Row>)
    requires ConvertsTo(batch, from, rows) && ConvertsTo(part, at, more)
    requires from + |rows| + |more| <= |batch| && part[at..at + |more|] == batch[from + |rows|..from + |rows| + |more|]
    ensures ConvertsTo(batch, from, rows + more)
  {
    forall i | 0 <= i < |more| ensures batch[from + |rows| + i] == Some(more[i]) {
      assert part[at..at + |more|][i] == batch[from + |rows|..from + |rows| + |more|][i];
    }
  }

  class Reader {
    const capacity: Capacity
    const sound: bool
    var batches: seq<Batch>   // not yet read from the stream
    var current: Option<Batch>
    var offset: nat
    var eos: bool

    ghost predicate Valid()
      reads this
    {
      && (current.Some? ==> offset <= |current.value|)
      && (eos ==> sound && Pending() == [])
    }

    /** The rows still to be emitted. */
    ghost function Pending(): Batch
      requires current.Some? ==> offset <= |current.value|
      reads this
    {
      (if current.Some? then current.value[offset..] else []) + Flatten(batches)
    }

    constructor (stream: Stream, capacity: Capacity)
      ensures Valid() && Pending() == Flatten(stream.batches) && sound == stream.sound && this.capacity == capacity && !eos
    {
      this.capacity, sound, batches := capacity, stream.sound, stream.batches;
      current, offset, eos := None, 0, false;
    }

    /** Ok(false) at the end of a sound stream. */
    method LoadBatch() returns (r: Result<bool, Error>)
      requires Valid() && !eos && (current.Some? ==> offset == |current.value|)
      modifies this
      ensures Valid() && Pending() == old(Pending())
      ensures r == Ok(true) ==> current.Some? && offset == 0 && |batches| == old(|batches|) - 1 && !eos
      ensures r == Ok(false) ==> eos
      ensures r.Err? ==> !sound && Pending() == [] && !eos
    {
      current := None;
      if batches == [] {
        if !sound { return Err(InvalidArrow); }
        eos := true;
        return Ok(false);
      }
      current, batches, offset := Some(batches[0]), batches[1..], 0;
      return Ok(true);
    }

    /** Fails if a row of the slice does not convert. */
    method ConvertSlice(count: nat) returns (r: Result<seq<Row>, Error>)
      requires current.Some? && offset + count <= |current.value|
      ensures r.Ok? <==> Convertible(current.value, offset, count)
      ensures r.Ok? ==> |r.value| == count && ConvertsTo(current.value, offset, r.value)
    {
      var target: seq<Row> := [];
      for i := 0 to count
        invariant |target| == i && ConvertsTo(current.value, offset, target)
        invariant forall j :: offset <= j < offset + i ==> current.value[j].Some?
      {
        if current.value[offset + i].None? { return Err(InvalidArrow); }
        target := target + [current.value[offset + i].value];
      }
      return Ok(target);
    }

    /** How many rows the next call emits. */
    ghost function Due(): nat
      requires Valid()
      reads this
    {
      Min(capacity, |Pending()|)
    }

    /** A full vector, or all there is: in order, over any batches including empty ones. It
        fails exactly when one of those rows does not convert, or the stream breaks off before
        the vector is full. The returned flag of the source is "not empty". */
    method Next() returns (r: Result<seq<Row>, Error>)
      requires Valid()
      modifies this
      ensures Valid()
      ensures r.Ok? <==> Convertible(old(Pending()), 0, old(Due())) && (old(|Pending()|) < capacity ==> sound)
      ensures r.Ok? ==> && |r.value| == old(Due()) && ConvertsTo(old(Pending()), 0, r.value)
                        && Pending() == old(Pending())[old(Due())..]
                        && (eos <==> old(|Pending()|) < capacity)
    {
      if eos { return Ok([]); }
      ghost var all := Pending();
      var output: seq<Row> := [];
      while |output| < capacity
        invariant Valid() && !eos && |output| <= capacity && At(all, output)
        decreases |batches| + |Pending()|
      {
        var turn := Turn(all, output);
        if turn.Err? { return Err(turn.error); }
        if turn.value.None? { break; }
        output := turn.value.value;
      }
      HenceConvertible(all, 0, output);
      return Ok(output);
    }

    /** The first rows of `all` have been converted to `output`, the others are pending. */
    ghost predicate At(all: Batch, output: seq<Row>)
      requires current.Some? ==> offset <= |current.value|
      reads this
    {
      ConvertsTo(all, 0, output) && Pending() == all[|output|..]
    }

    /** One turn of the loop of `Next`; None at the end of the stream. */
    method Turn(ghost all: Batch, output: seq<Row>) returns (r: Result<Option<seq<Row>>, Error>)
      requires Valid() && !eos && |output| < capacity && At(all, output)
      modifies this
      ensures Valid()
      ensures r.Err? ==> !Convertible(all, 0, Min(capacity, |all|)) || (|all| < capacity && !sound)
      ensures r == Ok(None) ==> eos && |output| == |all|
      ensures r.Ok? && r.value.Some? ==> && !eos && |r.value.value| <= capacity && At(all, r.value.value)
                                         && |batches| + |Pending()| < old(|batches| + |Pending()|)
    {
      if current.None? || offset >= |current.value| {
        var loaded := LoadBatch();
        if loaded.Err? { return Err(loaded.error); }
        if !loaded.value { return Ok(None); }
      }
      var more := Append(all, output);
      return if more.Err? then Err(more.error) else Ok(Some(more.value));
    }

    /** Converts what the current batch has for the vector. */
    method Append(ghost all: Batch, output: seq<Row>) returns (r: Result<seq<Row>, Error>)
      requires Valid() && !eos && current.Some? && |output| < capacity && At(all, output)
      modifies `offset
      ensures Valid()
      ensures r.Err? ==> !Convertible(all, 0, Min(capacity, |all|))
      ensures r.Ok? ==> && |output| <= |r.value| <= capacity && At(all, r.value)
                        && (old(offset) < |current.value| ==> |output| < |r.value|)
    {
      var count := Min(|current.value| - offset, capacity - |output|);
      SliceOfPending(all, |output|, count);
      var slice := ConvertSlice(count);
      if slice.Err? { return Err(slice.error); }
      ConvertsAppend(all, 0, output, current.value, offset, slice.value);
      offset := offset + count;
      return Ok(output + slice.value);
    }

    /** The next slice of the current batch is the next slice of everything. */
    lemma SliceOfPending(all: Batch, done: nat, count: nat)
      requires current.Some? && offset + count <= |current.value|
      requires done <= |all| && Pending() == all[done..]
      ensures done + count <= |all| && current.value[offset..offset + count] == all[done..done + count]
      ensures current.value[offset + count..] + Flatten(batches) == all[done + count..]
      ensures Convertible(current.value, offset, count) <==> Convertible(all, done, count)
    {
      var left := current.value[offset..];
      assert Pending()[..count] == left[..count];
      assert left[count..] == current.value[offset + count..];
      assert Pending()[count..] == left[count..] + Flatten(batches);
      var here, there := current.value[offset..offset + count], all[done..done + count];
      assert forall i :: offset <= i < offset + count ==> current.value[i] == there[i - offset];
      assert forall i :: done <= i < done + count ==> all[i] == here[i - done];
    }
  }
}
