/** `ParseQuery` of src/loopback_listener.cpp, and the queries it is the inverse of. */
module QueryString {
  import opened Wrappers
  import opened Text
  import opened PercentCoding

  /** The first `c` from `start` on, or the length of the string. */
  function IndexOf(s: string, c: char, start: nat): (k: nat)
    requires start <= |s|
    ensures start <= k <= |s| && (k < |s| ==> s[k] == c) && forall i :: start <= i < k ==> s[i] != c
    decreases |s| - start
  {
    if start == |s| || s[start] == c then start else IndexOf(s, c, start + 1)
  }

  /** The items between the separators, from `start` on. */
  function Split(s: string, start: nat): (items: seq<string>)
    requires start <= |s|
    ensures items != []
    decreases |s| - start
  {
    var k := IndexOf(s, '&', start);
    if k == |s| then [s[start..]] else [s[start..k]] + Split(s, k + 1)
  }

  function Value(s: string): Option<string> {
    var v := Decoded(s);
    if v.Some? && |v.value| <= MAX_VALUE then v else None
  }

  datatype Field = Field(key: string, value: string)

  /** key=value, with a key. */
  function FieldOf(item: string): Option<Field> {
    var k := IndexOf(item, '=', 0);
    if k == |item| || k == 0 then None
    else
      var key, value := Value(item[..k]), Value(item[k + 1..]);
      if key.Some? && value.Some? then Some(Field(key.value, value.value)) else None
  }

  function Collected(items: seq<string>, seen: map<string, string>): Option<map<string, string>> {
    if items == [] then Some(seen)
    else
      var f := FieldOf(items[0]);
      if f.None? || f.value.key in seen then None
      else Collected(items[1..], seen[f.value.key := f.value.value])
  }

  method ParseItem(item: string) returns (r: Result<Field, Malformation>)
    ensures r.Ok? <==> FieldOf(item).Some?
    ensures r.Ok? ==> r.value == FieldOf(item).value
  {
    var equals := IndexOf(item, '=', 0);
    if item == "" || equals == |item| || equals == 0 { return Err(Malformed); }
    var key := PercentDecode(item[..equals]);
    if key.Err? { return Err(key.error); }
    var value := PercentDecode(item[equals + 1..]);
    if value.Err? { return Err(value.error); }
    return Ok(Field(key.value, value.value));
  }

  lemma SplitFront(s: string, start: nat)
    requires start <= |s|
    ensures var k := IndexOf(s, '&', start);
            && Split(s, start)[0] == s[start..k]
            && Split(s, start)[1..] == if k == |s| then [] else Split(s, k + 1)
  {}

  /** The fields of a query. */
  function Parsed(query: string): Option<map<string, string>> { Collected(Split(query, 0), map[]) }

  method ParseQuery(query: string) returns (r: Result<map<string, string>, Malformation>)
    ensures r.Ok? <==> Parsed(query).Some?
    ensures r.Ok? ==> r.value == Parsed(query).value
  {
    var values: map<string, string> := map[];
    var start := 0;
    ghost var items := Split(query, 0);
    while start <= |query|
      invariant start <= |query| && items == Split(query, start) && Parsed(query) == Collected(items, values)
      decreases |query| - start
    {
      var end := IndexOf(query, '&', start);
      var item := query[start..end];
      SplitFront(query, start);
      var field := ParseItem(item);
      if field.Err? { return Err(field.error); }
      if field.value.key in values { return Err(Duplicate); }
      values := values[field.value.key := field.value.value];
      items := items[1..];
      if end == |query| { break; }
      start := end + 1;
    }
    return Ok(values);
  }

  // ---------------------------------------------------------------- what is accepted

  predicate AllFields(items: seq<string>) { forall i :: 0 <= i < |items| ==> FieldOf(items[i]).Some? }

  function KeyAt(items: seq<string>, i: nat): string
    requires AllFields(items) && i < |items|
  {
    FieldOf(items[i]).value.key
  }

  predicate Distinct(items: seq<string>)
    requires AllFields(items)
  {
    forall i, j :: 0 <= i < j < |items| ==> KeyAt(items, i) != KeyAt(items, j)
  }

  predicate Unseen(items: seq<string>, seen: map<string, string>)
    requires AllFields(items)
  {
    forall i :: 0 <= i < |items| ==> KeyAt(items, i) !in seen
  }

  /** `m` is `seen` and these fields, and nothing else. */
  ghost predicate Holds(m: map<string, string>, items: seq<string>, seen: map<string, string>)
    requires AllFields(items)
  {
    && (forall k :: k in seen ==> k in m && m[k] == seen[k])
    && (forall i :: 0 <= i < |items| ==> KeyAt(items, i) in m && m[KeyAt(items, i)] == FieldOf(items[i]).value.value)
    && (forall k :: k in m ==> k in seen || exists i :: 0 <= i < |items| && KeyAt(items, i) == k)
  }

  lemma KeysFront(items: seq<string>)
    requires items != []
    ensures AllFields(items) <==> FieldOf(items[0]).Some? && AllFields(items[1..])
    ensures AllFields(items) ==> KeyAt(items, 0) == FieldOf(items[0]).value.key
    ensures AllFields(items) ==> forall i :: 0 <= i < |items| - 1 ==> KeyAt(items[1..], i) == KeyAt(items, i + 1)
    ensures AllFields(items) ==> forall i :: 1 <= i < |items| ==> KeyAt(items, i) == KeyAt(items[1..], i - 1)
  {
    assert forall i :: 1 <= i < |items| ==> items[i] == items[1..][i - 1];
  }

  lemma DistinctFront(items: seq<string>, seen: map<string, string>)
    requires items != [] && AllFields(items)
    ensures var f := FieldOf(items[0]).value;
            Distinct(items) && Unseen(items, seen) <==>
            f.key !in seen && AllFields(items[1..]) && Distinct(items[1..]) && Unseen(items[1..], seen[f.key := f.value])
  {
    KeysFront(items);
  }

  lemma HoldsFront(m: map<string, string>, items: seq<string>, seen: map<string, string>)
    requires items != [] && AllFields(items) && AllFields(items[1..])
    requires var f := FieldOf(items[0]).value; f.key !in seen && Holds(m, items[1..], seen[f.key := f.value])
    ensures Holds(m, items, seen)
  {
    KeysFront(items);
    var f := FieldOf(items[0]).value;
    assert f.key in seen[f.key := f.value];
    forall i | 0 <= i < |items| ensures KeyAt(items, i) in m && m[KeyAt(items, i)] == FieldOf(items[i]).value.value {
      if i > 0 { assert KeyAt(items, i) == KeyAt(items[1..], i - 1); }
    }
  }

  /** A query is accepted if and only if every item is a field and no key occurs twice, and the
      result is exactly its fields. */
  lemma {:induction false} CollectedExactly(items: seq<string>, seen: map<string, string>)
    ensures Collected(items, seen).Some? <==> AllFields(items) && Distinct(items) && Unseen(items, seen)
    ensures Collected(items, seen).Some? ==> Holds(Collected(items, seen).value, items, seen)
  {
    if items != [] && FieldOf(items[0]).Some? {
      var f := FieldOf(items[0]).value;
      CollectedExactly(items[1..], seen[f.key := f.value]);
      KeysFront(items);
      if AllFields(items) {
        DistinctFront(items, seen);
        if Collected(items, seen).Some? { HoldsFront(Collected(items, seen).value, items, seen); }
      }
    }
  }

  // ---------------------------------------------------------------- built queries

  datatype Pair = Pair(key: ByteString, value: ByteString)

  function ItemOf(p: Pair): string { Encoded(p.key) + "=" + Encoded(p.value) }

  function Items(pairs: seq<Pair>): seq<string> { seq(|pairs|, i requires 0 <= i < |pairs| => ItemOf(pairs[i])) }

  function Joined(items: seq<string>): string
    requires items != []
  {
    if |items| == 1 then items[0] else items[0] + "&" + Joined(items[1..])
  }

  function Query(pairs: seq<Pair>): string
    requires pairs != []
  {
    Joined(Items(pairs))
  }

  lemma ItemChars(p: Pair)
    ensures NoSeparator(ItemOf(p))
    ensures forall i :: 0 <= i < |Encoded(p.key)| ==> Encoded(p.key)[i] != '='
  {
    EncodedBare(p.key);
    EncodedBare(p.value);
  }

  lemma IndexIs(s: string, c: char, start: nat, k: nat)
    requires start <= k <= |s| && (k < |s| ==> s[k] == c) && forall i :: start <= i < k ==> s[i] != c
    ensures IndexOf(s, c, start) == k
  {}

  predicate NoSeparator(item: string) { forall i :: 0 <= i < |item| ==> item[i] != '&' }

  lemma SplitLast(s: string, start: nat)
    requires start <= |s| && NoSeparator(s[start..])
    ensures Split(s, start) == [s[start..]]
  {
    assert forall i :: start <= i < |s| ==> s[i] == s[start..][i - start];
    IndexIs(s, '&', start, |s|);
  }

  lemma TailParts(s: string, start: nat, item: string, rest: string)
    requires start <= |s| && s[start..] == item + "&" + rest
    ensures start + |item| + 1 <= |s| && s[start..start + |item|] == item
    ensures s[start + |item|] == '&' && s[start + |item| + 1..] == rest
  {
    var tail := s[start..];
    assert s[start..start + |item|] == tail[..|item|];
    assert s[start + |item| + 1..] == tail[|item| + 1..];
    assert s[start + |item|] == tail[|item|];
  }

  lemma SplitFirst(s: string, start: nat, item: string)
    requires start + |item| < |s| && s[start..start + |item|] == item && s[start + |item|] == '&' && NoSeparator(item)
    ensures Split(s, start) == [item] + Split(s, start + |item| + 1)
  {
    assert forall i :: start <= i < start + |item| ==> s[i] == item[i - start];
    IndexIs(s, '&', start, start + |item|);
  }

  /** Splitting finds the items again. */
  lemma {:induction false} SplitJoined(s: string, start: nat, items: seq<string>)
    requires items != [] && forall i :: 0 <= i < |items| ==> NoSeparator(items[i])
    requires start <= |s| && s[start..] == Joined(items)
    ensures Split(s, start) == items
    decreases |items|
  {
    if |items| == 1 {
      SplitLast(s, start);
    } else {
      TailParts(s, start, items[0], Joined(items[1..]));
      SplitFirst(s, start, items[0]);
      SplitJoined(s, start + |items[0]| + 1, items[1..]);
      assert items == [items[0]] + items[1..];
    }
  }

  lemma SplitQuery(pairs: seq<Pair>)
    requires pairs != []
    ensures Split(Query(pairs), 0) == Items(pairs)
  {
    var items := Items(pairs);
    forall i | 0 <= i < |items| ensures NoSeparator(items[i]) { ItemChars(pairs[i]); }
    assert Query(pairs)[0..] == Joined(items);
    SplitJoined(Query(pairs), 0, items);
  }

  /** Survives the trip. */
  predicate Fits(s: string) { NoControl(s) && |s| <= MAX_VALUE }

  lemma FieldOfItem(p: Pair)
    ensures FieldOf(ItemOf(p)) == if Carried(p) then Some(Field(p.key, p.value)) else None
  {
    ItemChars(p);
    IndexIs(ItemOf(p), '=', 0, |Encoded(p.key)|);
    EncodedBare(p.key);
    DecodeEncoded(p.key);
    DecodeEncoded(p.value);
    var item := ItemOf(p);
    assert item[..|Encoded(p.key)|] == Encoded(p.key) && item[|Encoded(p.key)| + 1..] == Encoded(p.value);
  }

  predicate Carried(p: Pair) { p.key != "" && Fits(p.key) && Fits(p.value) }

  predicate DistinctKeys(pairs: seq<Pair>) { forall i, j :: 0 <= i < j < |pairs| ==> pairs[i].key != pairs[j].key }

  predicate Readable(pairs: seq<Pair>) { (forall i :: 0 <= i < |pairs| ==> Carried(pairs[i])) && DistinctKeys(pairs) }

  /** `m` is exactly these pairs. */
  ghost predicate IsMapOf(m: map<string, string>, pairs: seq<Pair>) {
    && (forall i :: 0 <= i < |pairs| ==> pairs[i].key in m && m[pairs[i].key] == pairs[i].value)
    && (forall k :: k in m ==> exists i :: 0 <= i < |pairs| && pairs[i].key == k)
  }

  lemma ItemFields(pairs: seq<Pair>)
    ensures AllFields(Items(pairs)) <==> forall i :: 0 <= i < |pairs| ==> Carried(pairs[i])
    ensures AllFields(Items(pairs)) ==>
              forall i :: 0 <= i < |pairs| ==> FieldOf(Items(pairs)[i]) == Some(Field(pairs[i].key, pairs[i].value))
  {
    forall i | 0 <= i < |pairs|
      ensures FieldOf(Items(pairs)[i]) == if Carried(pairs[i]) then Some(Field(pairs[i].key, pairs[i].value)) else None
    {
      FieldOfItem(pairs[i]);
    }
  }

  lemma ItemKeys(pairs: seq<Pair>)
    requires AllFields(Items(pairs))
    ensures Distinct(Items(pairs)) <==> DistinctKeys(pairs)
  {
    ItemFields(pairs);
    assert forall i :: 0 <= i < |pairs| ==> KeyAt(Items(pairs), i) == pairs[i].key;
  }

  /** Parsing undoes building, exactly when keys are distinct and not empty and nothing holds a
      control character or is too long. */
  lemma ParsedQuery(pairs: seq<Pair>)
    requires pairs != []
    ensures Parsed(Query(pairs)).Some? <==> Readable(pairs)
    ensures Readable(pairs) ==> IsMapOf(Parsed(Query(pairs)).value, pairs)
  {
    SplitQuery(pairs);
    CollectedExactly(Items(pairs), map[]);
    ItemFields(pairs);
    if AllFields(Items(pairs)) {
      ItemKeys(pairs);
      if DistinctKeys(pairs) { FieldsAreMap(Collected(Items(pairs), map[]).value, pairs); }
    }
  }

  lemma FieldsAreMap(m: map<string, string>, pairs: seq<Pair>)
    requires AllFields(Items(pairs)) && Holds(m, Items(pairs), map[])
    ensures IsMapOf(m, pairs)
  {
    ItemFields(pairs);
    var items := Items(pairs);
    assert forall i :: 0 <= i < |pairs| ==> KeyAt(items, i) == pairs[i].key;
  }
}
