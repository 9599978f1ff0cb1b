/** The chunk-path and query-id validators of src/query_api.cpp. */
module ChunkPath {
  import opened Wrappers
  import opened Text

  const PREFIX: string := "/api/v3/query/"
  const SEPARATOR: string := "/chunks/"

  predicate IdChar(c: char) { IsAlnum(c) || c == '-' || c == '_' }
  predicate SafeId(s: string) { 0 < |s| <= 128 && forall i :: 0 <= i < |s| ==> IdChar(s[i]) }
  predicate ChunkNumber(s: string) { 0 < |s| <= 20 && forall i :: 0 <= i < |s| ==> IsDigit(s[i]) }

  function Path(id: string, number: string): string { PREFIX + id + SEPARATOR + number }

  /** The paths a server may ask the client to fetch next. */
  ghost predicate SafePath(v: string) {
    exists id, number :: SafeId(id) && ChunkNumber(number) && v == Path(id, number)
  }

  method IsSafeQueryId(value: string) returns (safe: bool)
    ensures safe <==> SafeId(value)
  {
    if |value| == 0 || |value| > 128 { return false; }
    for i := 0 to |value|
      invariant forall j :: 0 <= j < i ==> IdChar(value[j])
    {
      if !IsAlnum(value[i]) && value[i] != '-' && value[i] != '_' { return false; }
    }
    return true;
  }

  /** The separator occurs in `id + "/chunks/" + number` once, right after the id. */
  lemma SeparatorUnique(id: string, number: string, i: nat)
    requires SafeId(id) && ChunkNumber(number)
    ensures At(id + SEPARATOR + number, SEPARATOR, i) <==> i == |id|
  {
    var rest := id + SEPARATOR + number;
    AtChar(rest, SEPARATOR, i, 0);
    AtChar(rest, SEPARATOR, i, 1);
    if i == |id| {
      assert rest[i..i + 8] == SEPARATOR;
    } else if i < |id| {
      assert rest[i] == id[i];
    } else if i < |id| + 8 {
      assert rest[i] == SEPARATOR[i - |id|];
      assert rest[|id| + 8] == number[0];
    } else if i < |rest| {
      assert rest[i] == number[i - |id| - 8];
    }
  }

  predicate PathChar(c: char) { IdChar(c) || c == '/' }

  lemma PathChars(id: string, number: string, i: nat)
    requires SafeId(id) && ChunkNumber(number) && i < |Path(id, number)|
    ensures PathChar(Path(id, number)[i])
  {
    var v := Path(id, number);
    if i < 14 { assert v[i] == PREFIX[i]; }
    else if i < 14 + |id| { assert v[i] == id[i - 14]; }
    else if i < 22 + |id| { assert v[i] == SEPARATOR[i - 14 - |id|]; }
    else { assert v[i] == number[i - 22 - |id|]; }
  }

  /** Every well-formed path passes the checks that look at the string as a whole. */
  lemma PathPassesScreens(v: string, id: string, number: string)
    requires SafeId(id) && ChunkNumber(number) && v == Path(id, number)
    ensures StartsWith(v, PREFIX) && |v| <= 256 && !ContainsAnyOf(v, "\\?#%") && Find(v, "..", 0).None?
  {
    assert v[..14] == PREFIX;
    forall i | 0 <= i < |v| ensures PathChar(v[i]) { PathChars(id, number, i); }
    forall i: nat ensures !At(v, "..", i) { AtChar(v, "..", i, 0); }
  }

  lemma PathParts(id: string, number: string)
    ensures Path(id, number)[14..] == id + SEPARATOR + number
    ensures Path(id, number) == PREFIX + (id + SEPARATOR + number)
    ensures Path(id, number)[14..14 + |id|] == id
    ensures (id + SEPARATOR + number)[..|id|] == id && (id + SEPARATOR + number)[|id| + 8..] == number
  {}

  /** The first separator is the only one. */
  lemma SeparatorFound(id: string, number: string)
    requires SafeId(id) && ChunkNumber(number)
    ensures var rest := id + SEPARATOR + number;
            Find(rest, SEPARATOR, 0) == Some(|id|) && Find(rest, SEPARATOR, |id| + 1).None?
  {
    var rest := id + SEPARATOR + number;
    forall i: nat ensures At(rest, SEPARATOR, i) <==> i == |id| { SeparatorUnique(id, number, i); }
    FindIs(rest, SEPARATOR, 0, |id|);
  }

  /** The same search in the whole path, starting after the prefix. */
  lemma SeparatorFoundInPath(id: string, number: string)
    requires SafeId(id) && ChunkNumber(number)
    ensures Find(Path(id, number), SEPARATOR, 14) == Some(14 + |id|)
  {
    var v, rest := Path(id, number), id + SEPARATOR + number;
    PathParts(id, number);
    forall j: nat | 14 <= j ensures At(v, SEPARATOR, j) <==> j == 14 + |id| {
      SeparatorUnique(id, number, j - 14);
      AtShift(PREFIX, rest, SEPARATOR, j - 14);
    }
    FindIs(v, SEPARATOR, 14, 14 + |id|);
  }

  /** Accepts exactly "/api/v3/query/" + safe id + "/chunks/" + one to twenty digits. */
  method IsSafeChunkPath(value: string) returns (safe: bool)
    ensures safe <==> SafePath(value)
  {
    if SafePath(value) {
      ghost var id, number :| SafeId(id) && ChunkNumber(number) && value == Path(id, number);
      PathPassesScreens(value, id, number);
      PathParts(id, number);
      SeparatorFound(id, number);
    }
    if !StartsWith(value, PREFIX) || |value| > 256 || ContainsAnyOf(value, "\\?#%") || Find(value, "..", 0).Some? {
      return false;
    }
    var rest := value[|PREFIX|..];
    var at := Find(rest, SEPARATOR, 0);
    if at.None? || Find(rest, SEPARATOR, at.value + 1).Some? { return false; }
    var idSafe := IsSafeQueryId(rest[..at.value]);
    if !idSafe { return false; }
    var chunkId := rest[at.value + |SEPARATOR|..];
    if |chunkId| == 0 || |chunkId| > 20 { return false; }
    for i := 0 to |chunkId|
      invariant forall j :: 0 <= j < i ==> IsDigit(chunkId[j])
    {
      if !IsDigit(chunkId[i]) { return false; }
    }
    assert value == Path(rest[..at.value], chunkId);
    return true;
  }

  function QueryIdFromChunkPath(value: string): (id: string)
    requires StartsWith(value, PREFIX)
  {
    var end := Find(value, SEPARATOR, |PREFIX|);
    if end.Some? then value[|PREFIX|..end.value] else value[|PREFIX|..]
  }

  /** The id a safe path was built from is the id read back from it. */
  lemma IdRecovered(id: string, number: string)
    requires SafeId(id) && ChunkNumber(number)
    ensures StartsWith(Path(id, number), PREFIX)
    ensures QueryIdFromChunkPath(Path(id, number)) == id
  {
    PathPassesScreens(Path(id, number), id, number);
    PathParts(id, number);
    SeparatorFoundInPath(id, number);
  }
}
