/** The percent encoder of src/oauth_pkce.cpp and the percent decoder of src/loopback_listener.cpp. */
module PercentCoding {
  import opened Wrappers
  import opened Text

  /** A `std::string` holds bytes. */
  predicate AllBytes(s: string) { forall i :: 0 <= i < |s| ==> s[i] as int < 256 }
  type ByteString = s: string | AllBytes(s) witness ""

  const MAX_VALUE: nat := 2048
  const HEX: string := "01234567" + "89ABCDEF"

  predicate Unreserved(c: char) { IsAlnum(c) || c == '-' || c == '_' || c == '.' || c == '~' }

  function Triple(c: char): string
    requires c as int < 256
  {
    ['%', HEX[c as int / 16], HEX[c as int % 16]]
  }

  function EncodedChar(c: char): string
    requires c as int < 256
  {
    if Unreserved(c) then [c] else Triple(c)
  }

  function Encoded(s: ByteString): string {
    if s == "" then "" else EncodedChar(s[0]) + Encoded(s[1..])
  }

  lemma EncodedFrom(s: ByteString, i: nat, head: string)
    requires i < |s|
    ensures head + Encoded(s[i..]) == head + EncodedChar(s[i]) + Encoded(s[i + 1..])
  {
    assert s[i..][1..] == s[i + 1..];
    assert head + (EncodedChar(s[i]) + Encoded(s[i + 1..])) == head + EncodedChar(s[i]) + Encoded(s[i + 1..]);
  }

  method PercentEncode(value: ByteString) returns (output: string)
    ensures output == Encoded(value)
  {
    output := "";
    for i := 0 to |value|
      invariant Encoded(value) == output + Encoded(value[i..])
    {
      var c := value[i];
      EncodedFrom(value, i, output);
      if IsAlnum(c) || c == '-' || c == '_' || c == '.' || c == '~' {
        output := output + [c];
      } else {
        output := output + ['%', HEX[c as int / 16], HEX[c as int % 16]];
      }
    }
  }

  /** -1 for a character that is no hexadecimal digit. */
  function HexValue(c: char): int {
    if IsDigit(c) then c as int - '0' as int
    else if 'A' <= c <= 'F' then c as int - 'A' as int + 10
    else if 'a' <= c <= 'f' then c as int - 'a' as int + 10
    else -1
  }

  lemma HexInverse(v: nat)
    requires v < 16
    ensures HexValue(HEX[v]) == v && Unreserved(HEX[v])
  {}

  /** What one character or one triple at the front stands for, and how long it is. */
  function Front(s: string): Option<(char, nat)>
    requires s != ""
  {
    if s[0] != '%' then if s[0] == '+' || IsControl(s[0]) then None else Some((s[0], 1))
    else if |s| < 3 then None
    else
      var high, low := HexValue(s[1]), HexValue(s[2]);
      if high < 0 || low < 0 then None
      else
        var c := (high * 16 + low) as char;
        if IsControl(c) then None else Some((c, 3))
  }

  function Prepended(head: string, rest: Option<string>): Option<string> {
    if rest.None? then None else Some(head + rest.value)
  }

  lemma PrependedOn(head: string, c: char, rest: Option<string>)
    ensures Prepended(head, Prepended([c], rest)) == Prepended(head + [c], rest)
  {
    if rest.Some? { assert head + ([c] + rest.value) == head + [c] + rest.value; }
  }

  lemma PrependedNothing(head: string, rest: Option<string>)
    ensures Prepended("", rest) == rest && Prepended(head, Some("")) == Some(head)
  {
    if rest.Some? { assert "" + rest.value == rest.value; }
    assert head + "" == head;
  }

  function Decoded(s: string): Option<string>
    decreases |s|
  {
    if s == "" then Some("")
    else
      var front := Front(s);
      if front.None? then None
      else
        Prepended([front.value.0], Decoded(s[front.value.1..]))
  }

  datatype Malformation = Malformed | Oversized | Duplicate

  method PercentDecode(value: string) returns (r: Result<string, Malformation>)
    ensures r == match Decoded(value)
                 case None => Err(Malformed)
                 case Some(v) => if |v| > MAX_VALUE then Err(Oversized) else Ok(v)
  {
    var output := "";
    var i := 0;
    assert value[0..] == value;
    PrependedNothing("", Decoded(value));
    while i < |value|
      invariant i <= |value|
      invariant Decoded(value) == Prepended(output, Decoded(value[i..]))
    {
      var c := value[i];
      if c == '%' {
        if i + 2 >= |value| { return Err(Malformed); }
        var high, low := HexValue(value[i + 1]), HexValue(value[i + 2]);
        if high < 0 || low < 0 { return Err(Malformed); }
        var decoded := (high * 16 + low) as char;
        if decoded as int < 0x20 || decoded as int == 0x7f { return Err(Malformed); }
        assert value[i..][3..] == value[i + 3..];
        PrependedOn(output, decoded, Decoded(value[i + 3..]));
        output := output + [decoded];
        i := i + 2;
      } else {
        if c == '+' || c as int < 0x20 || c as int == 0x7f { return Err(Malformed); }
        assert value[i..][1..] == value[i + 1..];
        PrependedOn(output, c, Decoded(value[i + 1..]));
        output := output + [c];
      }
      i := i + 1;
    }
    PrependedNothing(output, None);
    if |output| > MAX_VALUE { return Err(Oversized); }
    return Ok(output);
  }

  // ---------------------------------------------------------------- round trip

  predicate NoControl(s: string) { forall i :: 0 <= i < |s| ==> !IsControl(s[i]) }

  lemma FrontOfEncoded(c: char, rest: string)
    requires c as int < 256
    ensures var s := EncodedChar(c) + rest;
            Front(s) == (if IsControl(c) then None else Some((c, |EncodedChar(c)|))) && s[|EncodedChar(c)|..] == rest
  {
    if !Unreserved(c) {
      HexInverse(c as int / 16);
      HexInverse(c as int % 16);
    }
  }

  /** Decoding undoes encoding exactly on the strings without control characters. */
  lemma {:induction false} DecodeEncoded(s: ByteString)
    ensures Decoded(Encoded(s)) == if NoControl(s) then Some(s) else None
  {
    if s != "" {
      var e, rest := EncodedChar(s[0]), Encoded(s[1..]);
      FrontOfEncoded(s[0], rest);
      DecodeEncoded(s[1..]);
      NoControlFront(s);
      assert Encoded(s) == e + rest;
      assert s == [s[0]] + s[1..];
    }
  }

  lemma NoControlFront(s: string)
    requires s != ""
    ensures NoControl(s) <==> !IsControl(s[0]) && NoControl(s[1..])
  {
    assert forall i :: 0 <= i < |s[1..]| ==> s[1..][i] == s[i + 1];
    assert forall i :: 1 <= i < |s| ==> s[i] == s[1..][i - 1];
  }

  /** An encoding holds none of the characters that separate fields. */
  predicate Bare(s: string) { forall i :: 0 <= i < |s| ==> Unreserved(s[i]) || s[i] == '%' }

  lemma {:induction false} EncodedBare(s: ByteString)
    ensures Bare(Encoded(s)) && (Encoded(s) == "" <==> s == "")
  {
    if s != "" {
      HexInverse(s[0] as int / 16);
      HexInverse(s[0] as int % 16);
      EncodedBare(s[1..]);
    }
  }

  /** The decoder accepts an encoded string if and only if it has no control character and is
      not too long, and then returns the original. */
  method RoundTrip(value: ByteString) returns (r: Result<string, Malformation>)
    ensures r == if !NoControl(value) then Err(Malformed) else if |value| > MAX_VALUE then Err(Oversized) else Ok(value)
  {
    var encoded := PercentEncode(value);
    r := PercentDecode(encoded);
    DecodeEncoded(value);
  }
}
