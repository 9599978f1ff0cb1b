/** `ParseOAuthCallbackRequest` of src/loopback_listener.cpp. */
module CallbackRequest {
  import opened Wrappers
  import opened Text
  import opened PercentCoding
  import opened QueryString

  const MAX_REQUEST: nat := 8192
  const CRLF: string := "\r\n"
  const BLANK_LINE: string := "\r\n\r\n"
  const METHOD: string := "GET /oauth" + "/callback?"
  const VERSION: string := " HTTP/1.1"
  const HOST: string := "localhost:8910"

  // ---------------------------------------------------------------- header lines

  predicate Blank(c: char) { c == ' ' || c == '\t' }

  function TrimLeft(s: string): string { if s != "" && Blank(s[0]) then TrimLeft(s[1..]) else s }
  function TrimRight(s: string): string { if s != "" && Blank(s[|s| - 1]) then TrimRight(s[..|s| - 1]) else s }

  method Trim(s: string) returns (value: string)
    ensures value == TrimRight(TrimLeft(s))
  {
    value := s;
    while value != "" && Blank(value[0])
      invariant TrimLeft(value) == TrimLeft(s)
      decreases |value|
    {
      value := value[1..];
    }
    while value != "" && Blank(value[|value| - 1])
      invariant TrimRight(value) == TrimRight(TrimLeft(s))
      decreases |value|
    {
      value := value[..|value| - 1];
    }
  }

  predicate AllBlank(s: string) { forall i :: 0 <= i < |s| ==> Blank(s[i]) }

  lemma {:induction false} TrimLeftTakes(s: string) returns (blanks: string)
    ensures AllBlank(blanks) && s == blanks + TrimLeft(s)
  {
    if s != "" && Blank(s[0]) {
      var more := TrimLeftTakes(s[1..]);
      blanks := [s[0]] + more;
    } else {
      blanks := "";
    }
  }

  lemma {:induction false} TrimRightTakes(s: string) returns (blanks: string)
    ensures AllBlank(blanks) && s == TrimRight(s) + blanks
  {
    if s != "" && Blank(s[|s| - 1]) {
      var more := TrimRightTakes(s[..|s| - 1]);
      blanks := more + [s[|s| - 1]];
    } else {
      blanks := "";
    }
  }

  lemma {:induction false} TrimLeftStops(blanks: string, core: string)
    requires AllBlank(blanks) && core != "" && !Blank(core[0])
    ensures TrimLeft(blanks + core) == core
  {
    if blanks == "" {
      assert blanks + core == core;
    } else {
      assert (blanks + core)[1..] == blanks[1..] + core;
      TrimLeftStops(blanks[1..], core);
    }
  }

  lemma {:induction false} TrimRightStops(core: string, blanks: string)
    requires AllBlank(blanks) && core != "" && !Blank(core[|core| - 1])
    ensures TrimRight(core + blanks) == core
  {
    if blanks == "" {
      assert core + blanks == core;
    } else {
      var init := blanks[..|blanks| - 1];
      assert (core + blanks)[..|core + blanks| - 1] == core + init;
      TrimRightStops(core, init);
    }
  }

  /** What trimming leaves is what stood between the blanks. */
  lemma TrimmedExactly(s: string, core: string)
    requires core != "" && !Blank(core[0]) && !Blank(core[|core| - 1])
    ensures TrimRight(TrimLeft(s)) == core <==> exists a, b :: AllBlank(a) && AllBlank(b) && s == a + (core + b)
  {
    var a := TrimLeftTakes(s);
    var b := TrimRightTakes(TrimLeft(s));
    forall x, y | AllBlank(x) && AllBlank(y) && s == x + (core + y) ensures TrimRight(TrimLeft(s)) == core {
      TrimLeftStops(x, core + y);
      TrimRightStops(core, y);
    }
    if TrimRight(TrimLeft(s)) == core { assert AllBlank(a) && AllBlank(b) && s == a + (core + b); }
  }

  predicate KeyChar(c: char) { IsAlnum(c) || c == '-' }
  predicate ValueChar(c: char) { c as int >= 0x20 || c == '\t' }

  function Colon(line: string): nat { IndexOf(line, ':', 0) }
  function Key(line: string): string { Lower(line[..Colon(line)]) }
  predicate IsHost(line: string) { Key(line) == "host" }

  /** The value of a header, without the blanks around it. */
  function HeaderValue(line: string): string
    requires Colon(line) < |line|
  {
    TrimRight(TrimLeft(line[Colon(line) + 1..]))
  }

  /** A header that may be sent: a name, a colon, a value; no header announces a body, and a
      Host header names the listener. */
  predicate GoodHeader(line: string) {
    && 0 < Colon(line) < |line|
    && (forall i :: 0 <= i < Colon(line) ==> KeyChar(line[i]))
    && (forall i :: Colon(line) < i < |line| ==> ValueChar(line[i]))
    && Key(line) != "content-length" && Key(line) != "transfer-encoding"
    && (IsHost(line) ==> HeaderValue(line) == HOST)
  }

  predicate AllValueChars(s: string) { forall i :: 0 <= i < |s| ==> ValueChar(s[i]) }

  /** Trimming takes away nothing that is forbidden. */
  lemma {:induction false} TrimLeftChars(s: string)
    ensures AllValueChars(TrimLeft(s)) <==> AllValueChars(s)
  {
    if s != "" && Blank(s[0]) {
      TrimLeftChars(s[1..]);
      assert forall i :: 1 <= i < |s| ==> s[i] == s[1..][i - 1];
    }
  }

  lemma {:induction false} TrimRightChars(s: string)
    ensures AllValueChars(TrimRight(s)) <==> AllValueChars(s)
  {
    if s != "" && Blank(s[|s| - 1]) {
      var init := s[..|s| - 1];
      TrimRightChars(init);
      assert forall i :: 0 <= i < |s| - 1 ==> s[i] == init[i];
    }
  }

  lemma ValueChars(line: string)
    requires Colon(line) < |line|
    ensures AllValueChars(HeaderValue(line)) <==> forall i :: Colon(line) < i < |line| ==> ValueChar(line[i])
  {
    var k := Colon(line);
    var raw := line[k + 1..];
    TrimLeftChars(raw);
    TrimRightChars(TrimLeft(raw));
    assert forall i :: k < i < |line| ==> line[i] == raw[i - k - 1];
    assert forall i :: 0 <= i < |raw| ==> raw[i] == line[k + 1 + i];
  }

  /** One turn of the header loop; Ok says whether the line was the Host header. */
  method CheckHeader(line: string) returns (r: Option<bool>)
    ensures r.Some? <==> GoodHeader(line)
    ensures r.Some? ==> r.value == IsHost(line)
  {
    var colon := Colon(line);
    if colon == |line| || colon == 0 || Blank(line[colon - 1]) { return None; }
    var named := CheckKey(line[..colon]);
    assert forall i :: 0 <= i < colon ==> line[i] == line[..colon][i];
    if !named { return None; }
    var key := Lower(line[..colon]);
    var value := Trim(line[colon + 1..]);
    ValueChars(line);
    var plain := CheckValue(value);
    if !plain { return None; }
    if key == "content-length" || key == "transfer-encoding" { return None; }
    if key == "host" && value != HOST { return None; }
    return Some(key == "host");
  }

  method CheckKey(key: string) returns (ok: bool)
    ensures ok <==> forall i :: 0 <= i < |key| ==> KeyChar(key[i])
  {
    for i := 0 to |key|
      invariant forall j :: 0 <= j < i ==> KeyChar(key[j])
    {
      if !IsAlnum(key[i]) && key[i] != '-' { return false; }
    }
    return true;
  }

  method CheckValue(value: string) returns (ok: bool)
    ensures ok <==> AllValueChars(value)
  {
    for i := 0 to |value|
      invariant forall j :: 0 <= j < i ==> ValueChar(value[j])
    {
      if value[i] as int < 0x20 && value[i] != '\t' { return false; }
    }
    return true;
  }

  // ---------------------------------------------------------------- the header loop

  predicate IsBreak(h: string, i: nat) { i + 1 < |h| && h[i] == '\r' && h[i + 1] == '\n' }

  /** `h.find("\r\n", start)`, or the length of the text. */
  function LineEnd(h: string, start: nat): (k: nat)
    requires start <= |h|
    ensures start <= k <= |h| && (k < |h| ==> IsBreak(h, k)) && forall i :: start <= i < k ==> !IsBreak(h, i)
    decreases |h| - start
  {
    if start == |h| || IsBreak(h, start) then start else LineEnd(h, start + 1)
  }

  /** It is what the search for the text finds. */
  lemma {:induction false} LineEndIsFound(h: string, start: nat)
    requires start <= |h|
    ensures var found := Find(h, CRLF, start); LineEnd(h, start) == if found.Some? then found.value else |h|
    decreases |h| - start
  {
    if start + 2 <= |h| { assert h[start..start + 2] == [h[start], h[start + 1]]; }
    if start < |h| && !IsBreak(h, start) { LineEndIsFound(h, start + 1); }
  }

  /** The lines of a text, from `start` on. */
  function LinesFrom(h: string, start: nat): seq<string>
    decreases |h| - start
  {
    if start >= |h| then []
    else
      var end := LineEnd(h, start);
      if end == |h| then [h[start..end]] else [h[start..end]] + LinesFrom(h, end + 2)
  }

  predicate AllGood(lines: seq<string>) { forall i :: 0 <= i < |lines| ==> GoodHeader(lines[i]) }

  function Hosts(lines: seq<string>): nat {
    if lines == [] then 0 else (if IsHost(lines[0]) then 1 else 0) + Hosts(lines[1..])
  }

  /** All headers are good and exactly one is the Host header. */
  predicate GoodHeaders(lines: seq<string>) { AllGood(lines) && Hosts(lines) == 1 }

  /** What the loop decides about the lines left. */
  predicate Passes(lines: seq<string>, found: bool) {
    if lines == [] then found
    else GoodHeader(lines[0]) && !(found && IsHost(lines[0])) && Passes(lines[1..], found || IsHost(lines[0]))
  }

  lemma {:induction false} PassesExactly(lines: seq<string>, found: bool)
    ensures Passes(lines, found) <==> AllGood(lines) && Hosts(lines) == if found then 0 else 1
  {
    if lines != [] {
      var rest := lines[1..];
      PassesExactly(rest, found || IsHost(lines[0]));
      assert AllGood(lines) <==> GoodHeader(lines[0]) && AllGood(rest) by {
        assert forall i :: 1 <= i < |lines| ==> lines[i] == rest[i - 1];
      }
    }
  }

  method CheckHeaders(headers: string) returns (ok: bool)
    ensures ok <==> GoodHeaders(LinesFrom(headers, 0))
  {
    ghost var lines := LinesFrom(headers, 0);
    PassesExactly(lines, false);
    var found, start := false, 0;
    while start < |headers|
      invariant lines == LinesFrom(headers, start) && Passes(lines, found) == Passes(LinesFrom(headers, 0), false)
      decreases |headers| - start
    {
      var end := LineEnd(headers, start);
      var line := headers[start..end];
      LinesFront(headers, start);
      var host := CheckHeader(line);
      if host.None? { return false; }
      if host.value && found { return false; }
      found := found || host.value;
      lines := lines[1..];
      if end == |headers| { break; }
      start := end + 2;
    }
    return found;
  }

  // ---------------------------------------------------------------- lines and their texts

  predicate NoReturn(s: string) { forall i :: 0 <= i < |s| ==> s[i] != '\r' }
  predicate IsLine(s: string) { s != "" && NoReturn(s) }

  function Unlines(lines: seq<string>): string
    requires lines != []
  {
    if |lines| == 1 then lines[0] else lines[0] + CRLF + Unlines(lines[1..])
  }

  lemma FindLine(s: string, start: nat, line: string, rest: string)
    requires start <= |s| && s[start..] == line + CRLF + rest && NoReturn(line)
    ensures Find(s, CRLF, start) == Some(start + |line|)
    ensures start + |line| + 2 <= |s| && s[start..start + |line|] == line && s[start + |line| + 2..] == rest
  {
    var tail, k := s[start..], start + |line|;
    assert s[start..k] == tail[..|line|] && s[k..k + 2] == tail[|line|..|line| + 2] && s[k + 2..] == tail[|line| + 2..];
    forall i: nat | start <= i < k ensures !At(s, CRLF, i) {
      AtChar(s, CRLF, i, 0);
      assert s[i] == tail[i - start] == line[i - start];
    }
    FindIs(s, CRLF, start, k);
  }

  lemma LineEndIs(h: string, start: nat, k: nat)
    requires start <= k <= |h| && (k < |h| ==> IsBreak(h, k)) && forall i :: start <= i < k ==> !IsBreak(h, i)
    ensures LineEnd(h, start) == k
  {}

  lemma LastLine(h: string, start: nat, line: string)
    requires start <= |h| && h[start..] == line && IsLine(line)
    ensures LinesFrom(h, start) == [line]
  {
    assert h[start..|h|] == line;
    assert forall i :: start <= i < |h| ==> h[i] == line[i - start];
    LineEndIs(h, start, |h|);
    LinesFront(h, start);
  }

  lemma LineParts(h: string, start: nat, line: string, rest: string)
    requires start <= |h| && h[start..] == line + CRLF + rest
    ensures var k := start + |line|;
            k + 2 <= |h| && h[start..k] == line && IsBreak(h, k) && h[k + 2..] == rest
  {
    var tail, k := h[start..], start + |line|;
    assert h[start..k] == tail[..|line|];
    assert h[k + 2..] == tail[|line| + 2..];
    assert h[k] == tail[|line|] && h[k + 1] == tail[|line| + 1];
  }

  lemma FirstLine(h: string, start: nat, end: nat)
    requires start <= end && IsBreak(h, end) && forall i :: start <= i < end ==> !IsBreak(h, i)
    ensures LinesFrom(h, start) == [h[start..end]] + LinesFrom(h, end + 2)
  {
    LineEndIs(h, start, end);
    LinesFront(h, start);
  }

  lemma NoBreakIn(h: string, start: nat, line: string)
    requires start + |line| <= |h| && h[start..start + |line|] == line && NoReturn(line)
    ensures forall i :: start <= i < start + |line| ==> !IsBreak(h, i)
  {
    forall i | start <= i < start + |line| ensures !IsBreak(h, i) {
      assert h[i] == line[i - start];
    }
  }

  /** Reading the lines of a text gives the lines it was written from. */
  lemma {:induction false} LinesOfUnlines(h: string, start: nat, lines: seq<string>)
    requires lines != [] && forall i :: 0 <= i < |lines| ==> IsLine(lines[i])
    requires start <= |h| && h[start..] == Unlines(lines)
    ensures LinesFrom(h, start) == lines
    decreases |lines|
  {
    if |lines| == 1 {
      LastLine(h, start, lines[0]);
      assert lines == [lines[0]];
    } else {
      var first, rest := lines[0], lines[1..];
      assert lines == [first] + rest;
      LineParts(h, start, first, Unlines(rest));
      LinesOfUnlines(h, start + |first| + 2, rest);
      LineAndRest(h, start, first);
    }
  }

  lemma LineAndRest(h: string, start: nat, first: string)
    requires NoReturn(first) && start + |first| + 2 <= |h|
    requires h[start..start + |first|] == first && IsBreak(h, start + |first|)
    ensures LinesFrom(h, start) == [first] + LinesFrom(h, start + |first| + 2)
  {
    NoBreakIn(h, start, first);
    FirstLine(h, start, start + |first|);
  }

  lemma LinesFront(h: string, start: nat)
    requires start < |h|
    ensures var end := LineEnd(h, start);
            && (end == |h| ==> LinesFrom(h, start) == [h[start..end]])
            && (end < |h| ==> LinesFrom(h, start) == [h[start..end]] + LinesFrom(h, end + 2))
  {}

  lemma UnlinesCons(line: string, lines: seq<string>)
    requires lines != []
    ensures Unlines([line] + lines) == line + CRLF + Unlines(lines)
  {
    assert ([line] + lines)[1..] == lines;
  }

  lemma BreakAtEnd(h: string, k: nat)
    requires IsBreak(h, k)
    ensures k + 2 == |h| ==> EndsWith(h, CRLF)
  {}

  lemma AroundBreak(h: string, start: nat, k: nat)
    requires start <= k && IsBreak(h, k)
    ensures h[start..] == h[start..k] + CRLF + h[k + 2..]
  {}

  /** And the other way round, unless the text ends in a line break. */
  lemma {:induction false} UnlinesOfLines(h: string, start: nat)
    requires start < |h| && !EndsWith(h, CRLF)
    ensures LinesFrom(h, start) != [] && Unlines(LinesFrom(h, start)) == h[start..]
    decreases |h| - start
  {
    var k := LineEnd(h, start);
    LinesFront(h, start);
    if k < |h| {
      BreakAtEnd(h, k);
      UnlinesOfLines(h, k + 2);
      UnlinesCons(h[start..k], LinesFrom(h, k + 2));
      AroundBreak(h, start, k);
    }
  }

  // ---------------------------------------------------------------- the whole request

  function RequestLine(query: string): string { METHOD + query + VERSION }

  /** A request for the callback: its query, its headers, and no body. */
  function Render(query: string, headers: seq<string>): string {
    Unlines([RequestLine(query)] + headers) + BLANK_LINE
  }

  lemma BlankLineChars(s: string, p: nat)
    ensures At(s, BLANK_LINE, p) ==> p + 4 <= |s| && s[p] == '\r' && s[p + 2] == '\r' && At(s, CRLF, p)
  {
    if At(s, BLANK_LINE, p) {
      AtChar(s, BLANK_LINE, p, 0);
      AtChar(s, BLANK_LINE, p, 2);
      assert s[p..p + 2] == s[p..p + 4][..2];
    }
  }

  /** Lines that are not empty hold no blank line. */
  lemma {:induction false} NoBlankLine(s: string, start: nat, lines: seq<string>, p: nat)
    requires lines != [] && forall i :: 0 <= i < |lines| ==> IsLine(lines[i])
    requires start <= |s| && s[start..] == Unlines(lines) + BLANK_LINE
    requires start <= p < |s| - 4
    ensures !At(s, BLANK_LINE, p)
    decreases |lines|
  {
    BlankLineChars(s, p);
    var tail, line := s[start..], lines[0];
    assert s[p] == tail[p - start];
    if p < start + |line| {
      assert s[p] == line[p - start];
    } else {
      var rest := Unlines(lines[1..]) + BLANK_LINE;
      assert tail == line + CRLF + rest;
      assert s[start + |line| + 2..] == tail[|line| + 2..] == rest;
      if p >= start + |line| + 2 {
        NoBlankLine(s, start + |line| + 2, lines[1..], p);
      } else {
        UnlinesFront(lines[1..]);
        assert s[start + |line| + 2] == rest[0];
        assert s[start + |line| + 1] == tail[|line| + 1];
      }
    }
  }

  lemma UnlinesFront(lines: seq<string>)
    requires lines != [] && IsLine(lines[0])
    ensures Unlines(lines) != "" && Unlines(lines)[0] == lines[0][0]
  {}

  lemma BlankLineFound(s: string, lines: seq<string>)
    requires lines != [] && (forall i :: 0 <= i < |lines| ==> IsLine(lines[i])) && s == Unlines(lines) + BLANK_LINE
    ensures |s| >= 4 && Find(s, BLANK_LINE, 0) == Some(|s| - 4)
  {
    assert s[0..] == s;
    forall p: nat | p < |s| - 4 ensures !At(s, BLANK_LINE, p) { NoBlankLine(s, 0, lines, p); }
    assert s[|s| - 4..|s| - 4 + 4] == BLANK_LINE;
    FindIs(s, BLANK_LINE, 0, |s| - 4);
  }

  lemma FirstLineFound(s: string, line: string, text: string)
    requires NoReturn(line) && s == line + CRLF + text + BLANK_LINE
    ensures Find(s, CRLF, 0) == Some(|line|) && |line| + 2 <= |s| - 4
    ensures s[..|line|] == line && s[|line| + 2..|s| - 4] == text
  {
    assert s[0..] == s == line + CRLF + (text + BLANK_LINE);
    FindLine(s, 0, line, text + BLANK_LINE);
  }

  /** The blank line is found at the end and the first line break after the request line. */
  lemma RenderFound(s: string, line: string, headers: seq<string>)
    requires IsLine(line) && headers != [] && forall i :: 0 <= i < |headers| ==> IsLine(headers[i])
    requires s == Unlines([line] + headers) + BLANK_LINE
    ensures |s| >= 4 && Find(s, BLANK_LINE, 0) == Some(|s| - 4)
    ensures Find(s, CRLF, 0) == Some(|line|) && |line| + 2 <= |s| - 4
    ensures s[..|line|] == line && s[|line| + 2..|s| - 4] == Unlines(headers)
  {
    var lines := [line] + headers;
    assert lines[1..] == headers;
    assert Unlines(lines) == line + CRLF + Unlines(headers);
    BlankLineFound(s, lines);
    FirstLineFound(s, line, Unlines(headers));
  }

  /** Two line breaks in a row are a blank line. */
  lemma TwoBreaks(s: string, p: nat)
    requires At(s, CRLF, p) && At(s, BLANK_LINE, p + 2)
    ensures At(s, BLANK_LINE, p)
  {
    assert s[p..p + 4] == s[p..p + 2] + s[p + 2..p + 6][..2];
  }

  /** So no line break stands right before the first blank line. */
  lemma NoBreakBefore(s: string, end: nat, p: nat)
    requires Find(s, BLANK_LINE, 0) == Some(end) && p + 2 == end
    ensures !At(s, CRLF, p)
  {
    if At(s, CRLF, p) { TwoBreaks(s, p); }
  }

  lemma CutBounds(s: string, n: nat, end: nat)
    requires Find(s, BLANK_LINE, 0) == Some(end) && Find(s, CRLF, 0) == Some(n) && n < end
    ensures n + 2 < end && !EndsWith(s[n + 2..end], CRLF)
  {
    BlankLineChars(s, end);
    AtChar(s, CRLF, n, 1);
    NoBreakBefore(s, end, end - 2);
    var h := s[n + 2..end];
    if |h| >= 2 { assert h[|h| - 2..] == s[end - 2..end]; }
  }

  lemma Assembled(s: string, n: nat)
    requires n + 6 <= |s| && At(s, CRLF, n) && At(s, BLANK_LINE, |s| - 4)
    ensures s == s[..n] + CRLF + s[n + 2..|s| - 4] + BLANK_LINE
  {
    assert s == s[..n] + s[n..n + 2] + s[n + 2..|s| - 4] + s[|s| - 4..];
  }

  lemma HeaderLines(h: string)
    requires h != "" && !EndsWith(h, CRLF)
    ensures LinesFrom(h, 0) != [] && Unlines(LinesFrom(h, 0)) == h
  {
    UnlinesOfLines(h, 0);
    assert h[0..] == h;
  }

  lemma Reassembled(s: string, line: string, h: string, lines: seq<string>)
    requires s == line + CRLF + h + BLANK_LINE && lines != [] && Unlines(lines) == h
    ensures s == Unlines([line] + lines) + BLANK_LINE
  {
    assert ([line] + lines)[1..] == lines;
  }

  /** And only then: where the program cuts, the request is its lines. */
  lemma CutIsRender(s: string, n: nat, end: nat, h: string)
    requires |s| == end + 4 && Find(s, BLANK_LINE, 0) == Some(end) && Find(s, CRLF, 0) == Some(n) && n < end
    requires n + 2 <= end ==> h == s[n + 2..end]
    ensures LinesFrom(h, 0) != [] && s == Unlines([s[..n]] + LinesFrom(h, 0)) + BLANK_LINE
  {
    CutBounds(s, n, end);
    Assembled(s, n);
    HeaderLines(h);
    Reassembled(s, s[..n], h, LinesFrom(h, 0));
  }

  lemma RequestLineChars(query: string)
    requires NoReturn(query)
    ensures IsLine(RequestLine(query))
  {}

  lemma GoodIsLine(line: string)
    requires GoodHeader(line)
    ensures IsLine(line)
  {}

  // ---------------------------------------------------------------- what an accepted query cannot hold

  lemma {:induction false} DecodedNoReturn(s: string)
    requires Decoded(s).Some?
    ensures NoReturn(s)
    decreases |s|
  {
    if s != "" {
      var n := Front(s).value.1;
      DecodedNoReturn(s[n..]);
      assert forall i :: n <= i < |s| ==> s[i] == s[n..][i - n];
    }
  }

  lemma FieldNoReturn(item: string)
    requires FieldOf(item).Some?
    ensures NoReturn(item)
  {
    var k := IndexOf(item, '=', 0);
    DecodedNoReturn(item[..k]);
    DecodedNoReturn(item[k + 1..]);
    assert forall i :: 0 <= i < k ==> item[i] == item[..k][i];
    assert forall i :: k < i < |item| ==> item[i] == item[k + 1..][i - k - 1];
  }

  lemma FieldAtNoReturn(s: string, start: nat, k: nat)
    requires start <= k <= |s| && FieldOf(s[start..k]).Some?
    ensures forall i :: start <= i < k ==> s[i] != '\r'
  {
    var item := s[start..k];
    FieldNoReturn(item);
    assert forall i :: start <= i < k ==> s[i] == item[i - start];
  }

  lemma FieldsFront(items: seq<string>)
    requires items != [] && AllFields(items)
    ensures FieldOf(items[0]).Some? && AllFields(items[1..])
  {}

  lemma {:induction false} ItemsNoReturn(s: string, start: nat)
    requires start <= |s| && AllFields(Split(s, start))
    ensures forall i :: start <= i < |s| ==> s[i] != '\r'
    decreases |s| - start
  {
    var k := IndexOf(s, '&', start);
    SplitFront(s, start);
    FieldsFront(Split(s, start));
    FieldAtNoReturn(s, start, k);
    if k < |s| {
      ItemsNoReturn(s, k + 1);
      JoinNoReturn(s, start, k);
    }
  }

  lemma JoinNoReturn(s: string, start: nat, k: nat)
    requires start <= k < |s| && s[k] == '&'
    requires (forall i :: start <= i < k ==> s[i] != '\r') && forall i :: k + 1 <= i < |s| ==> s[i] != '\r'
    ensures forall i :: start <= i < |s| ==> s[i] != '\r'
  {}

  lemma ParsedNoReturn(query: string)
    requires Parsed(query).Some?
    ensures NoReturn(query)
  {
    CollectedExactly(Split(query, 0), map[]);
    ItemsNoReturn(query, 0);
  }

  // ---------------------------------------------------------------- cutting a request

  datatype Pieces = Pieces(line: string, headers: string)

  /** The request line and the text of the headers. Without headers the length of the header
      text wraps, and the text reaches to the end of the request. */
  function Cut(request: string): Option<Pieces> {
    if request == "" || |request| > MAX_REQUEST then None
    else
      var headerEnd := Find(request, BLANK_LINE, 0);
      var lineEnd := Find(request, CRLF, 0);
      if headerEnd.None? || headerEnd.value + 4 != |request| || lineEnd.None? then None
      else
        var start := lineEnd.value + 2;
        Some(Pieces(request[..lineEnd.value],
                    if headerEnd.value < start then request[start..] else request[start..headerEnd.value]))
  }

  /** A request without headers is refused, although its header text is not empty. */
  lemma NoHeaders(request: string, n: nat)
    requires At(request, BLANK_LINE, n) && |request| == n + 4
    ensures !GoodHeaders(LinesFrom(request[n + 2..], 0))
  {
    var h := request[n + 2..];
    assert h == request[n..n + 4][2..];
    assert IsBreak(h, 0);
    LinesFront(h, 0);
    assert LinesFrom(h, 0)[0] == "";
  }

  /** If the headers pass, the request is the request line, the header lines and a blank line. */
  lemma CutSound(request: string)
    requires Cut(request).Some? && GoodHeaders(LinesFrom(Cut(request).value.headers, 0))
    ensures var p := Cut(request).value;
            LinesFrom(p.headers, 0) != [] && request == Unlines([p.line] + LinesFrom(p.headers, 0)) + BLANK_LINE
  {
    var end, n := Find(request, BLANK_LINE, 0).value, Find(request, CRLF, 0).value;
    var h := Cut(request).value.headers;
    BlankLineChars(request, end);
    NoHeaders(request, end);
    if n < end {
      CutBounds(request, n, end);
      CutIsRender(request, n, end, h);
    }
  }

  lemma CutComplete(request: string, line: string, headers: seq<string>)
    requires |request| <= MAX_REQUEST && IsLine(line) && headers != [] && AllGood(headers)
    requires request == Unlines([line] + headers) + BLANK_LINE
    ensures Cut(request) == Some(Pieces(line, Unlines(headers))) && LinesFrom(Unlines(headers), 0) == headers
  {
    forall i | 0 <= i < |headers| ensures IsLine(headers[i]) { GoodIsLine(headers[i]); }
    RenderFound(request, line, headers);
    assert Unlines(headers)[0..] == Unlines(headers);
    LinesOfUnlines(Unlines(headers), 0, headers);
  }

  function QueryOf(line: string): Option<string> {
    if !StartsWith(line, METHOD) || |line| <= |METHOD| + |VERSION| || !EndsWith(line, VERSION) then None
    else Some(line[|METHOD|..|line| - |VERSION|])
  }

  lemma QueryOfExactly(line: string, query: string)
    ensures QueryOf(line) == Some(query) <==> line == RequestLine(query) && query != ""
  {
    if line == RequestLine(query) && query != "" {
      assert line[..|METHOD|] == METHOD && line[|line| - |VERSION|..] == VERSION;
      assert line[|METHOD|..|line| - |VERSION|] == query;
    }
    if QueryOf(line) == Some(query) {
      assert line == line[..|METHOD|] + line[|METHOD|..|line| - |VERSION|] + line[|line| - |VERSION|..];
    }
  }

  // ---------------------------------------------------------------- the result

  datatype CallbackResult = AccessDenied(state: string) | CodeReceived(state: string, code: string)

  function Outcome(fields: map<string, string>): Option<CallbackResult> {
    if "state" !in fields || fields["state"] == "" then None
    else if "error" in fields then
      if "code" in fields || fields["error"] != "access_denied" then None else Some(AccessDenied(fields["state"]))
    else if "code" !in fields || fields["code"] == "" then None
    else Some(CodeReceived(fields["state"], fields["code"]))
  }

  /** A well-formed callback request with its query and headers. */
  ghost predicate Accepted(request: string, query: string, headers: seq<string>) {
    && request == Render(query, headers) && |request| <= MAX_REQUEST
    && query != "" && GoodHeaders(headers)
    && Parsed(query).Some? && Outcome(Parsed(query).value).Some?
  }

  lemma AcceptedPieces(request: string, query: string, headers: seq<string>)
    requires Accepted(request, query, headers)
    ensures Cut(request) == Some(Pieces(RequestLine(query), Unlines(headers))) && LinesFrom(Unlines(headers), 0) == headers
    ensures QueryOf(RequestLine(query)) == Some(query)
  {
    ParsedNoReturn(query);
    RequestLineChars(query);
    CutComplete(request, RequestLine(query), headers);
    QueryOfExactly(RequestLine(query), query);
  }

  /** Accepts exactly the well-formed callback requests: one Host header naming the listener, no
      header that announces a body, nothing after the blank line, and a query whose fields are
      distinct and say either that access was denied or what the code is. */
  method ParseOAuthCallbackRequest(request: string) returns (r: Option<CallbackResult>)
    ensures r.Some? <==> exists query, headers :: Accepted(request, query, headers)
    ensures forall query, headers :: Accepted(request, query, headers) ==> r == Outcome(Parsed(query).value)
  {
    forall query, headers | Accepted(request, query, headers)
      ensures Cut(request) == Some(Pieces(RequestLine(query), Unlines(headers)))
      ensures LinesFrom(Unlines(headers), 0) == headers && QueryOf(RequestLine(query)) == Some(query)
    {
      AcceptedPieces(request, query, headers);
    }
    var pieces := Cut(request);
    if pieces.None? { return None; }
    var query := QueryOf(pieces.value.line);
    if query.None? { return None; }
    var ok := CheckHeaders(pieces.value.headers);
    if !ok { return None; }
    CutSound(request);
    QueryOfExactly(pieces.value.line, query.value);
    var fields := ParseQuery(query.value);
    if fields.Err? { return None; }
    r := Outcome(fields.value);
    if r.Some? {
      assert Accepted(request, query.value, LinesFrom(pieces.value.headers, 0));
    }
  }
}
